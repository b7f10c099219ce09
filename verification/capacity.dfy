/** Capacity ranges and volume capabilities of CSI requests. */
module Capacity {
  import opened Common

  const GIB := 0x4000_0000
  const DEFAULT_VOLUME_SIZE := 50 * GIB

  // required_bytes and limit_bytes; 0 stands for no bound.
  datatype Range = Range(required: int, limit: int)

  datatype AccessMode =
    | Unknown | SingleNodeWriter | SingleNodeReaderOnly
    | MultiNodeReaderOnly | MultiNodeSingleWriter | MultiNodeMultiWriter

  // block: the capability asks for a block volume rather than a mounted filesystem.
  datatype Capability = Capability(block: bool, mode: AccessMode)

  // ---- Capacity ----

  /** The range of a request allows a capacity. */
  predicate RangeAllows(range: Option<Range>, capacity: int) {
    range.Some? ==>
      && (range.value.limit == 0 || capacity <= range.value.limit)
      && (range.value.required == 0 || range.value.required <= capacity)
  }

  function VolumeSize(range: Option<Range>): int {
    if range.None? then DEFAULT_VOLUME_SIZE
    else if range.value.required > 0 then range.value.required
    else if 0 < range.value.limit < DEFAULT_VOLUME_SIZE then range.value.limit
    else DEFAULT_VOLUME_SIZE
  }

  predicate WellFormed(range: Option<Range>) {
    range.Some? ==> range.value.limit == 0 || (range.value.limit > 0 && range.value.required <= range.value.limit)
  }

  // The default size, 50 GiB, in bytes.
  const FIFTY_GIB := 53_687_091_200

  function Distance(a: int, b: int): nat { if a < b then b - a else a - b }

  predicate Allowed(range: Option<Range>, size: int) { size > 0 && RangeAllows(range, size) }

  /** The size that is chosen for a new volume: the least one that the range allows, if the range asks for a
      minimum, and otherwise the allowed one nearest to 50 GiB. If the range allows none, it is the minimum
      asked for, or the default if the range asks for no minimum. */
  ghost predicate ChosenSize(range: Option<Range>, size: int) {
    if !WellFormed(range) then size == if range.value.required > 0 then range.value.required else FIFTY_GIB
    else if range.Some? && range.value.required > 0 then
      Allowed(range, size) && forall other | Allowed(range, other) :: size <= other
    else
      && Allowed(range, size)
      && forall other | Allowed(range, other) :: Distance(size, FIFTY_GIB) <= Distance(other, FIFTY_GIB)
  }

  method GetVolumeSize(capRange: Option<Range>) returns (volSizeBytes: int)
    ensures volSizeBytes == VolumeSize(capRange) && ChosenSize(capRange, volSizeBytes)
  {
    SizeIsChosen(capRange);
    volSizeBytes := DEFAULT_VOLUME_SIZE;
    if capRange.Some? {
      if capRange.value.required > 0 {
        volSizeBytes := capRange.value.required;
      } else if capRange.value.limit > 0 && capRange.value.limit < volSizeBytes {
        volSizeBytes := capRange.value.limit;
      }
    }
  }

  /** The size chosen for a new volume is positive, and the range asked for allows it exactly when the
      range is well-formed: then and only then can a retry of the request succeed. */
  lemma ChosenSizeAllowed(range: Option<Range>)
    ensures VolumeSize(range) > 0
    ensures RangeAllows(range, VolumeSize(range)) <==> WellFormed(range)
  {
  }

  /** Some positive capacity is allowed exactly by the well-formed ranges, so the chosen size satisfies
      every range that can be satisfied at all. */
  lemma WellFormedMeansSatisfiable(range: Option<Range>)
    ensures WellFormed(range) <==> exists capacity: int :: capacity > 0 && RangeAllows(range, capacity)
  {
    if WellFormed(range) {
      ChosenSizeAllowed(range);
    }
  }

  lemma SizeIsChosen(range: Option<Range>)
    ensures ChosenSize(range, VolumeSize(range))
  {
  }

  /** The description fits one size only. */
  lemma ChosenSizeIsUnique(range: Option<Range>, a: int, b: int)
    requires ChosenSize(range, a) && ChosenSize(range, b)
    ensures a == b
  {
    if WellFormed(range) {
      assert Allowed(range, a) && Allowed(range, b);
      if range.None? || range.value.limit == 0 || FIFTY_GIB <= range.value.limit {
        assert RangeAllows(range, FIFTY_GIB) ==> Allowed(range, FIFTY_GIB);
      }
    }
  }

  // ---- Capabilities ----

  /** Every capability asked for is of the volume's kind and among its access modes. */
  predicate Supported(caps: seq<Capability>, modes: seq<AccessMode>, block: bool) {
    forall c <- caps :: c.block == block && c.mode in modes
  }

  method HasSupport(cap: Capability, modes: seq<AccessMode>, block: bool) returns (r: bool)
    ensures r <==> cap.block == block && cap.mode in modes
  {
    for i := 0 to |modes|
      invariant cap.block != block || cap.mode !in modes[..i]
    {
      if ((block && cap.block) || (!block && !cap.block)) && cap.mode == modes[i] {
        return true;
      }
    }
    assert modes[..|modes|] == modes;
    return false;
  }

  method CompareCapabilities(caps: seq<Capability>, modes: seq<AccessMode>, block: bool) returns (foundAll: bool)
    ensures foundAll <==> Supported(caps, modes, block)
  {
    foundAll := true;
    for i := 0 to |caps|
      invariant foundAll && Supported(caps[..i], modes, block)
    {
      var found := HasSupport(caps[i], modes, block);
      if !found {
        assert caps[i] in caps;
        foundAll := false;
        break;
      }
    }
    assert foundAll ==> caps[..|caps|] == caps;
  }

  method IsBlock(caps: seq<Capability>) returns (r: bool)
    ensures r <==> forall c <- caps :: c.block
  {
    for i := 0 to |caps|
      invariant forall c <- caps[..i] :: c.block
    {
      if !caps[i].block {
        assert caps[i] in caps;
        return false;
      }
    }
    assert caps[..|caps|] == caps;
    return true;
  }

  /** A volume of either kind supports a request only if isBlock would make that kind of it: a request
      that mixes block and mount capabilities is supported by no volume. */
  lemma SupportedMeansOneKind(caps: seq<Capability>, modes: seq<AccessMode>, block: bool)
    requires caps != [] && Supported(caps, modes, block)
    ensures block <==> forall c <- caps :: c.block
  {
    assert caps[0] in caps;
  }
}
