/** Shared vocabulary: the C++ fixed-width unsigned integers the renderer stores,
    and an Option for values that are either absent or present. */
module Common {

  /** 2^32: one more than the largest uint32_t. */
  const U32_LIMIT: int := 0x1_0000_0000

  /** 2^64: one more than the largest size_t on the targets the renderer builds for. */
  const SIZE_LIMIT: int := 0x1_0000_0000_0000_0000

  type u32 = x: int | 0 <= x < U32_LIMIT
  type u16 = x: int | 0 <= x < 0x1_0000
  type u8 = x: int | 0 <= x < 0x100
  type size_t = x: int | 0 <= x < SIZE_LIMIT

  /** The value a C++ conversion (or an unsigned operation) stores into a uint32_t.
      Dafny's % is Euclidean, so a negative argument (size_t 0 - 1) wraps as unsigned
      arithmetic does. */
  function Wrap32(x: int): (r: u32)
    ensures 0 <= x < U32_LIMIT ==> r == x
    ensures x == -1 ==> r == U32_LIMIT - 1
  {
    x % 0x1_0000_0000
  }

  /** The value an unsigned subtraction leaves in a size_t. */
  function WrapSize(x: int): (r: nat)
    ensures r < SIZE_LIMIT
    ensures 0 <= x < SIZE_LIMIT ==> r == x
  {
    x % 0x1_0000_0000_0000_0000
  }

  /** 2^k, the value of the bit mask `1 << k`. */
  function Pow2(k: nat): (r: nat)
    ensures r > 0
  {
    if k == 0 then 1 else 2 * Pow2(k - 1)
  }

  datatype Option<+T> = None | Some(value: T)

  /** The little-endian 16-bit value at element k of a byte array. */
  function LeU16At(b: seq<u8>, k: nat): u16
    requires 2 * k + 2 <= |b|
  {
    b[2 * k] as int + 0x100 * (b[2 * k + 1] as int)
  }

  /** The little-endian 32-bit value at element k of a byte array. */
  function LeU32At(b: seq<u8>, k: nat): u32
    requires 4 * k + 4 <= |b|
  {
    b[4 * k] as int + 0x100 * (b[4 * k + 1] as int) + 0x1_0000 * (b[4 * k + 2] as int)
      + 0x100_0000 * (b[4 * k + 3] as int)
  }

  /** The four bytes of a uint32_t in memory, least significant first. */
  function LeBytes32(x: u32): (r: seq<u8>)
    ensures |r| == 4
  {
    [x % 0x100, (x / 0x100) % 0x100, (x / 0x1_0000) % 0x100, x / 0x100_0000]
  }

  /** An array of uint32_t as the bytes memcpy copies. */
  function LeBytes32s(xs: seq<u32>): (r: seq<u8>)
    ensures |r| == 4 * |xs|
  {
    if |xs| == 0 then [] else LeBytes32s(xs[..|xs| - 1]) + LeBytes32(xs[|xs| - 1])
  }

  /** Reading a uint32_t back from its bytes gives the value written. */
  lemma LeBytes32RoundTrip(x: u32)
    ensures LeU32At(LeBytes32(x), 0) == x
  {
    var b := LeBytes32(x);
    var q1, q2 := x / 0x100, x / 0x1_0000;
    assert x == 0x100 * q1 + b[0];
    assert q1 == 0x100 * (q1 / 0x100) + b[1];
    assert q1 / 0x100 == q2;
    assert q2 == 0x100 * (q2 / 0x100) + b[2];
    assert q2 / 0x100 == b[3];
  }

  /** Element k of an encoded array is the k-th value. */
  lemma {:induction false} LeBytes32sAt(xs: seq<u32>, k: nat)
    requires k < |xs|
    ensures LeU32At(LeBytes32s(xs), k) == xs[k]
    decreases |xs|
  {
    var init := xs[..|xs| - 1];
    var b := LeBytes32s(xs);
    assert b == LeBytes32s(init) + LeBytes32(xs[|xs| - 1]);
    if k < |xs| - 1 {
      LeBytes32sAt(init, k);
      assert b[4 * k .. 4 * k + 4] == LeBytes32s(init)[4 * k .. 4 * k + 4];
    } else {
      LeBytes32RoundTrip(xs[k]);
      assert b[4 * k .. 4 * k + 4] == LeBytes32(xs[k]);
    }
  }

  /** The uint32_t array a byte array of whole elements holds. */
  function LeDecode32s(b: seq<u8>): (r: seq<u32>)
    requires |b| % 4 == 0
    ensures |r| == |b| / 4
    ensures forall k :: 0 <= k < |r| ==> r[k] == LeU32At(b, k)
  {
    seq(|b| / 4, k requires 0 <= k < |b| / 4 => LeU32At(b, k))
  }

  /** Decoding inverts encoding. */
  lemma LeDecodeEncode32s(xs: seq<u32>)
    ensures LeDecode32s(LeBytes32s(xs)) == xs
  {
    var r := LeDecode32s(LeBytes32s(xs));
    forall k | 0 <= k < |xs|
      ensures r[k] == xs[k]
    {
      LeBytes32sAt(xs, k);
    }
  }

  /** Concatenation regroups: logs that grow by appending can be compared without
      unfolding what they hold. */
  lemma AppendAssoc<T>(a: seq<T>, b: seq<T>, c: seq<T>)
    ensures (a + b) + c == a + (b + c)
  {
  }

  lemma AppendSlices<T>(a: seq<T>, b: seq<T>)
    ensures (a + b)[..|a|] == a && (a + b)[|a|..] == b && (a + b)[|a|..|a| + |b|] == b
  {
  }

  /** A log that grew by x from a log equal to a + b equals a + c, when c is b grown by x. */
  lemma SnocRegroups<T>(after: seq<T>, before: seq<T>, a: seq<T>, b: seq<T>, c: seq<T>, x: T)
    requires after == before + [x] && before == a + b && c == b + [x]
    ensures after == a + c
  {
    AppendAssoc(a, b, [x]);
  }

  lemma UnionAssoc<T>(a: set<T>, b: set<T>, c: set<T>)
    ensures (a + b) + c == a + (b + c)
  {
  }
}
