/** Memory-type selection for host-visible buffers (Buffer.cpp). */
module MemoryTypes {
  import opened Common

  /** VK_MAX_MEMORY_TYPES: the length of VkPhysicalDeviceMemoryProperties::memoryTypes. */
  const MAX_MEMORY_TYPES: nat := 32

  const MEMORY_PROPERTY_DEVICE_LOCAL: bv32 := 0x1
  const MEMORY_PROPERTY_HOST_VISIBLE: bv32 := 0x2
  const MEMORY_PROPERTY_HOST_COHERENT: bv32 := 0x4

  /** The flags the Buffer constructor asks for: HostVisible | HostCoherent. */
  const HOST_BUFFER_PROPERTIES: bv32 := MEMORY_PROPERTY_HOST_VISIBLE | MEMORY_PROPERTY_HOST_COHERENT

  /** What the physical device reports: memoryTypeCount and the property flags of each
      memory type (only the first memoryTypeCount entries are meaningful). */
  datatype MemoryProperties = MemoryProperties(memoryTypeCount: nat, propertyFlags: seq<bv32>)
  {
    predicate Wf() {
      memoryTypeCount <= MAX_MEMORY_TYPES && |propertyFlags| == MAX_MEMORY_TYPES
    }
  }

  /** Bit i of a 32-bit filter (the source's `typeFilter & (1 << i)`), read off the
      filter's value as an unsigned number. */
  predicate BitSet(filter: u32, i: nat) {
    (filter / Pow2(i)) % 2 == 1
  }

  /** A memory type's flags include every requested flag. */
  predicate Includes(flags: bv32, required: bv32) {
    flags & required == required
  }

  /** Memory type i is acceptable: it exists, the resource allows it, and its flags
      include every requested flag. */
  predicate Suitable(props: MemoryProperties, typeFilter: u32, required: bv32, i: nat)
    requires props.Wf()
  {
    i < props.memoryTypeCount
    && BitSet(typeFilter, i)
    && Includes(props.propertyFlags[i], required)
  }

  /** The first suitable memory type. The source falls off the end of the function
      without returning when none matches, so a match is demanded of the caller. */
  method FindMemoryType(props: MemoryProperties, typeFilter: u32, required: bv32) returns (index: u32)
    requires props.Wf()
    requires exists i :: Suitable(props, typeFilter, required, i)
    ensures Suitable(props, typeFilter, required, index)
    ensures forall j :: 0 <= j < index ==> !Suitable(props, typeFilter, required, j)
  {
    var i: u32 := 0;
    while i < props.memoryTypeCount
      invariant i <= props.memoryTypeCount
      invariant forall j :: 0 <= j < i ==> !Suitable(props, typeFilter, required, j)
    {
      if BitSet(typeFilter, i) {
        if Includes(props.propertyFlags[i], required) {
          return i;
        }
      }
      i := i + 1;
    }
    // Every index below memoryTypeCount was rejected, yet a suitable one exists.
    assert false;
  }

  /** The memory type the Buffer constructor allocates from: it is host visible and
      host coherent, and no earlier type the buffer accepts is both. */
  method BufferMemoryType(props: MemoryProperties, memoryTypeBits: u32) returns (index: u32)
    requires props.Wf()
    requires exists i :: Suitable(props, memoryTypeBits, HOST_BUFFER_PROPERTIES, i)
    ensures index < props.memoryTypeCount && BitSet(memoryTypeBits, index)
    ensures props.propertyFlags[index] & MEMORY_PROPERTY_HOST_VISIBLE != 0
    ensures props.propertyFlags[index] & MEMORY_PROPERTY_HOST_COHERENT != 0
    ensures forall j :: 0 <= j < index ==> !Suitable(props, memoryTypeBits, HOST_BUFFER_PROPERTIES, j)
  {
    index := FindMemoryType(props, memoryTypeBits, HOST_BUFFER_PROPERTIES);
  }
}
