/**
 * The memory-type search described under "Device Memory Properties" in the Vulkan specification:
 * the first memory type that the resource accepts (its bit is set in `memory_type_bits`) and
 * whose property flags contain the required ones.
 */
module Memory {
  import opened Common

  /** `VK_MAX_MEMORY_TYPES` */
  const MaxMemoryTypes: nat := 32

  /** `vk::MemoryRequirements`: only the mask of acceptable memory types is read. */
  datatype MemoryRequirements = MemoryRequirements(memoryTypeBits: bv32)

  /** `vk::PhysicalDeviceMemoryProperties`: the count and the fixed array of type property flags. */
  datatype MemoryProperties = MemoryProperties(memoryTypeCount: nat, memoryTypes: seq<bv32>)

  /** The properties a device can report: at most 32 types, in an array of 32 entries. */
  predicate WellFormed(props: MemoryProperties)
  {
    props.memoryTypeCount <= MaxMemoryTypes && |props.memoryTypes| == MaxMemoryTypes
  }

  /** `flags.contains(required)` */
  predicate Contains(flags: bv32, required: bv32)
  {
    flags & required == required
  }

  /** `memory_type_bits & (1 << i) != 0` */
  predicate TypeSupported(bits: bv32, i: nat)
    requires i < 32
  {
    bits & (1 << i) != 0
  }

  /** Memory type `i` is one the resource accepts and one with the required properties. */
  predicate Suitable(req: MemoryRequirements, props: MemoryProperties, required: bv32, i: nat)
    requires WellFormed(props) && i < props.memoryTypeCount
  {
    TypeSupported(req.memoryTypeBits, i) && Contains(props.memoryTypes[i], required)
  }

  /** The answer the search must give: the least suitable index below the count, if any. */
  predicate IsFirstSuitable(req: MemoryRequirements, props: MemoryProperties, required: bv32, r: Option<nat>)
    requires WellFormed(props)
  {
    && (r.None? <==> forall j :: 0 <= j < props.memoryTypeCount ==> !Suitable(req, props, required, j))
    && (r.Some? ==> r.value < props.memoryTypeCount && Suitable(req, props, required, r.value))
    && (r.Some? ==> forall j :: 0 <= j < r.value ==> !Suitable(req, props, required, j))
  }

  /**
   * `find_memory_type_index`: the scan over the reported types that returns at the first suitable
   * one. It finds nothing exactly when no reported type is suitable; otherwise the index is
   * suitable and no earlier one is.
   */
  method FindMemoryTypeIndex(req: MemoryRequirements, props: MemoryProperties, required: bv32) returns (r: Option<nat>)
    requires WellFormed(props)
    ensures IsFirstSuitable(req, props, required, r)
  {
    var i := 0;
    while i < props.memoryTypeCount
      invariant 0 <= i <= props.memoryTypeCount
      invariant forall j :: 0 <= j < i ==> !Suitable(req, props, required, j)
    {
      var typeSupported := TypeSupported(req.memoryTypeBits, i);
      var flags := props.memoryTypes[i];
      if typeSupported && Contains(flags, required) {
        assert Suitable(req, props, required, i);
        return Some(i);
      }
      i := i + 1;
    }
    return None;
  }

  /** The answer is unique, so the search is determined by its postcondition. */
  lemma FirstSuitableUnique(req: MemoryRequirements, props: MemoryProperties, required: bv32, r1: Option<nat>, r2: Option<nat>)
    requires WellFormed(props)
    requires IsFirstSuitable(req, props, required, r1) && IsFirstSuitable(req, props, required, r2)
    ensures r1 == r2
  {
  }

  /**
   * Entries of the type array at or past `memory_type_count` never matter: two property reports
   * that agree on the count and on the reported entries have the same answers.
   */
  lemma TailIgnored(req: MemoryRequirements, p1: MemoryProperties, p2: MemoryProperties, required: bv32, r: Option<nat>)
    requires WellFormed(p1) && WellFormed(p2) && p1.memoryTypeCount == p2.memoryTypeCount
    requires forall j :: 0 <= j < p1.memoryTypeCount ==> p1.memoryTypes[j] == p2.memoryTypes[j]
    requires IsFirstSuitable(req, p1, required, r)
    ensures IsFirstSuitable(req, p2, required, r)
  {
    assert forall j :: 0 <= j < p1.memoryTypeCount ==> (Suitable(req, p1, required, j) <==> Suitable(req, p2, required, j));
  }
}
