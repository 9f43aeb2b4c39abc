/** The input handler's delay counter: a saturating countdown measured in ticks
    (InputHandler.cpp). Key polling and SDL events are not part of this model. */
module Input {
  import opened Common

  /** The delay left after k ticks starting from n: n - k, never below zero. */
  function Remaining(n: u32, k: nat): (r: u32)
    ensures r <= n
    ensures r == 0 <==> k >= n
    ensures k < n ==> r + k == n
  {
    if k >= n then 0 else n - k
  }

  /** The source's single step, as written in Tick: decrement only when positive. */
  function TickStep(d: u32): u32 {
    if d > 0 then d - 1 else d
  }

  /** k applications of TickStep. */
  function Ticks(d: u32, k: nat): u32
    decreases k
  {
    if k == 0 then d else Ticks(TickStep(d), k - 1)
  }

  /** k ticks after SetDelay(n) leave exactly max(n - k, 0), so the delay is over
      precisely when at least n ticks have passed. */
  lemma {:induction false} TicksSaturate(n: u32, k: nat)
    ensures Ticks(n, k) == Remaining(n, k)
    ensures Ticks(n, k) == 0 <==> k >= n
    decreases k
  {
    if k > 0 {
      TicksSaturate(TickStep(n), k - 1);
    }
  }

  class InputHandler {
    var delay: u32

    constructor ()
      ensures delay == 0
    {
      delay := 0;
    }

    method Tick()
      modifies this
      ensures delay == Remaining(old(delay), 1)
    {
      if delay > 0 {
        delay := delay - 1;
      }
    }

    method SetDelay(ticks: u32)
      modifies this
      ensures delay == ticks
    {
      delay := ticks;
    }

    /** A pure read: no modifies clause, so the handler is left as it was. */
    method IsDelayOver() returns (over: bool)
      ensures over <==> delay == 0
    {
      over := delay == 0;
    }
  }

  /** A fresh handler reports the delay as over. */
  method NewHandlerIsReady() returns (over: bool)
    ensures over
  {
    var h := new InputHandler();
    over := h.IsDelayOver();
  }
}
