/**
 * src/strings/unicode.rs: the borrowed `WduUnicodeStr` and the owning
 * `WduUnicodeString`, which both describe a UNICODE_STRING, whose Length
 * and MaximumLength count bytes in a u16. The owning string remembers who
 * allocated its buffer so that its drop frees it the right way.
 */
module Unicode {
  import opened Types
  import opened Wrappers
  import opened NtStatus
  import opened Memory

  datatype WduUnicodeError = Invalid | CreateError | InsufficientResources | StatusError(status: NtStatus)

  /** The tag `u32::from_ne_bytes(*b"WDUs")` gives on a little-endian machine. */
  const STRING_ALLOC_TAG: u32 := 0x7355_4457

  /**
   * `to_unicode_len`: the byte length of `len` UTF-16 units, truncated to
   * u16, so it is exact below 0x8000 units and wraps above.
   */
  function ToUnicodeLen(len: nat): (l: u16)
    ensures len < 0x8000 ==> l == 2 * len
    ensures l % 2 == 0
  {
    (len * 2) % 0x1_0000
  }

  /** Halving the byte length gives back the unit count modulo 0x8000. */
  lemma ToUnicodeLenHalves(len: nat)
    ensures ToUnicodeLen(len) / 2 == len % 0x8000
  {
    var q := len / 0x8000;
    var r := len % 0x8000;
    assert len * 2 == q * 0x1_0000 + 2 * r;
  }

  /** UNICODE_STRING. */
  datatype UnicodeString = UnicodeString(length: u16, maximumLength: u16, buffer: Ptr)

  const EMPTY_UNICODE_STRING: UnicodeString := UnicodeString(0, 0, NULL)

  /** `WduUnicodeStr`: a borrowed slice, `buffer` being the address of its first unit. */
  datatype WduUnicodeStr = WduUnicodeStr(buffer: Ptr, slice: seq<u16>)
  {
    /** `as_unicode_string`: the slice described as a UNICODE_STRING. */
    function AsUnicodeString(): (u: UnicodeString)
      ensures u.length == u.maximumLength == ToUnicodeLen(|slice|)
      ensures u.buffer == buffer
    {
      UnicodeString(ToUnicodeLen(|slice|), ToUnicodeLen(|slice|), buffer)
    }

    predicate IsEmpty()
    {
      |slice| == 0
    }
  }

  /** The derived `Default`: an empty slice. */
  const DEFAULT_STR: WduUnicodeStr := WduUnicodeStr(NULL, [])

  function FromSlice(buffer: Ptr, source: seq<u16>): WduUnicodeStr
  {
    WduUnicodeStr(buffer, source)
  }

  /**
   * `from_ptr`: `source` is the address of a UNICODE_STRING holding
   * `target`, and `memory` is what its Buffer points at. The slice covers
   * MaximumLength / 2 units; a null `source` gives the default.
   */
  function StrFromPtr(source: Ptr, target: UnicodeString, memory: seq<u16>): (s: WduUnicodeStr)
    requires source == NULL || target.maximumLength / 2 <= |memory|
    ensures source == NULL ==> s == DEFAULT_STR && s.IsEmpty()
    ensures source != NULL ==> s.buffer == target.buffer && |s.slice| == target.maximumLength / 2
  {
    if source == NULL then DEFAULT_STR
    else WduUnicodeStr(target.buffer, memory[..target.maximumLength / 2])
  }

  /**
   * Describing a slice of fewer than 0x8000 units as a UNICODE_STRING and
   * reading it back through `from_ptr` gives the same slice.
   */
  lemma StrRoundTrip(s: WduUnicodeStr, source: Ptr)
    requires source != NULL && |s.slice| < 0x8000
    ensures StrFromPtr(source, s.AsUnicodeString(), s.slice) == s
  {
  }

  datatype AllocType = Os | Rust | Pool

  /** The release the drop of a `WduUnicodeString` performs. */
  datatype Release = NoRelease | RtlFreeUnicodeString | BoxFree(buffer: Ptr) | ExFreePoolWithTag(buffer: Ptr, tag: u32)

  class WduUnicodeString {
    var native: UnicodeString
    var alloc: Option<AllocType>

    /** `default` (and `const_new`). */
    constructor ()
      ensures native == EMPTY_UNICODE_STRING && alloc == None
    {
      native := EMPTY_UNICODE_STRING;
      alloc := None;
    }

    predicate IsEmpty()
      reads this
    {
      native.length == 0 || native.maximumLength == 0
    }

    /** `len`: the number of UTF-16 units. */
    function Len(): u16
      reads this
    {
      native.length / 2
    }

    function Bytes(): u16
      reads this
    {
      native.length
    }

    function Capacity(): u16
      reads this
    {
      native.maximumLength
    }

    predicate IsRustAlloc()
      reads this
    {
      alloc.Some? && alloc.value == Rust
    }

    predicate IsOsAlloc()
      reads this
    {
      alloc.Some? && alloc.value == Os
    }

    predicate IsPoolAlloc()
      reads this
    {
      alloc.Some? && alloc.value == Pool
    }

    /**
     * `np_compare`: `matched` is what RtlCompareMemory returns over Length
     * bytes. Strings whose lengths differ are never equal.
     */
    function NpCompare(other: WduUnicodeString, matched: nat): (eq: bool)
      reads this, other
      ensures eq <==> native.length == other.native.length && native.maximumLength == other.native.maximumLength
                      && matched == native.length
    {
      if native.length != other.native.length || native.maximumLength != other.native.maximumLength then false
      else matched == native.length
    }

    /**
     * `contains`: `found` is what the search over the two strings'
     * contents would answer. A needle longer than the string is never
     * searched for.
     */
    function Contains(needle: WduUnicodeString, caseInsensitive: bool, found: bool): (c: bool)
      reads this, needle
      ensures Bytes() < needle.Bytes() ==> !c
      ensures Bytes() >= needle.Bytes() ==> c == found
    {
      if Bytes() < needle.Bytes() then false else found
    }

    /** `Drop`: the release matches the recorded allocator, and nothing is freed without one. */
    method Drop() returns (released: Release)
      ensures alloc.None? ==> released == NoRelease
      ensures IsOsAlloc() ==> released == RtlFreeUnicodeString
      ensures IsRustAlloc() ==> released == BoxFree(native.buffer)
      ensures IsPoolAlloc() ==> released == ExFreePoolWithTag(native.buffer, STRING_ALLOC_TAG)
    {
      match alloc {
        case None => released := NoRelease;
        case Some(Os) => released := RtlFreeUnicodeString;
        case Some(Rust) => released := BoxFree(native.buffer);
        case Some(Pool) => released := ExFreePoolWithTag(native.buffer, STRING_ALLOC_TAG);
      }
    }
  }

  /** `wrap`: a null source gives the default; otherwise the record is copied and owns nothing. */
  method Wrap(source: Ptr, target: UnicodeString) returns (s: WduUnicodeString)
    ensures fresh(s)
    ensures s.native == (if source == NULL then EMPTY_UNICODE_STRING else target)
    ensures s.alloc == None
  {
    s := new WduUnicodeString();
    if source == NULL {
      return;
    }
    s.native := target;
  }

  /** `take`: the record was filled by the OS, which is asked to free it. */
  method Take(source: UnicodeString) returns (s: WduUnicodeString)
    ensures fresh(s)
    ensures s.native == source && s.alloc == Some(Os)
  {
    s := new WduUnicodeString();
    s.native := source;
    s.alloc := Some(Os);
  }

  /**
   * `create`: `buffer` is what the pool allocation of the byte length
   * returned. Only the paged and non-paged flags are accepted; any other
   * reaches `panic!`.
   */
  method Create(source: seq<u16>, poolType: PoolFlags, buffer: Ptr) returns (r: Result<WduUnicodeString, WduUnicodeError>)
    requires poolType == PoolFlagNonPaged || poolType == PoolFlagPaged
    ensures r.Err? <==> buffer == NULL
    ensures r.Err? ==> r.error == InsufficientResources
    ensures r.Ok? ==> fresh(r.value)
    ensures r.Ok? ==> r.value.native == UnicodeString(ToUnicodeLen(|source|), ToUnicodeLen(|source|), buffer)
    ensures r.Ok? ==> r.value.alloc == Some(Pool)
  {
    var s := new WduUnicodeString();
    var len := ToUnicodeLen(|source|);
    if buffer == NULL {
      return Err(InsufficientResources);
    }
    s.native := s.native.(length := len);
    s.native := s.native.(maximumLength := len);
    s.native := s.native.(buffer := buffer);
    s.alloc := Some(Pool);
    r := Ok(s);
  }

  /** A string records at most one allocator, and each predicate names exactly one. */
  lemma AllocPredicatesExclusive(s: WduUnicodeString)
    ensures !(s.IsOsAlloc() && s.IsRustAlloc()) && !(s.IsOsAlloc() && s.IsPoolAlloc()) && !(s.IsRustAlloc() && s.IsPoolAlloc())
    ensures s.alloc.Some? <==> s.IsOsAlloc() || s.IsRustAlloc() || s.IsPoolAlloc()
  {
  }

  /**
   * What the getters report for a string `create` built from `source` of
   * fewer than 0x8000 units: its unit count, twice that in bytes and as
   * capacity, pool allocation only, and emptiness exactly for an empty
   * source.
   */
  lemma CreatedStringGetters(s: WduUnicodeString, source: seq<u16>, buffer: Ptr)
    requires |source| < 0x8000
    requires s.native == UnicodeString(ToUnicodeLen(|source|), ToUnicodeLen(|source|), buffer) && s.alloc == Some(Pool)
    ensures s.Len() == |source| && s.Bytes() == s.Capacity() == 2 * |source|
    ensures s.IsPoolAlloc() && !s.IsOsAlloc() && !s.IsRustAlloc()
    ensures s.IsEmpty() <==> |source| == 0
  {
  }

  /** A string created from a borrowed slice describes it as `as_unicode_string` does. */
  lemma CreatedMatchesStr(s: WduUnicodeString, str: WduUnicodeStr, buffer: Ptr)
    requires s.native == UnicodeString(ToUnicodeLen(|str.slice|), ToUnicodeLen(|str.slice|), buffer)
    ensures s.Bytes() == str.AsUnicodeString().length && s.Capacity() == str.AsUnicodeString().maximumLength
    ensures s.Len() == |str.slice| % 0x8000
  {
    ToUnicodeLenHalves(|str.slice|);
  }

  /** The default string is empty and owns nothing, so dropping it frees nothing. */
  method DefaultIsEmpty() returns (empty: bool, owned: bool, released: Release)
    ensures empty && !owned && released == NoRelease
  {
    var s := new WduUnicodeString();
    empty := s.IsEmpty();
    owned := s.IsOsAlloc() || s.IsRustAlloc() || s.IsPoolAlloc();
    released := s.Drop();
  }

  /**
   * Wrapping, taking and creating lead to the three drops: none for a
   * wrapped string, RtlFreeUnicodeString for a taken one, and the pool
   * free with the string tag for a created one.
   */
  method DropFollowsOrigin(source: Ptr, target: UnicodeString, units: seq<u16>, buffer: Ptr)
    returns (wrapped: Release, taken: Release, created: Option<Release>)
    ensures wrapped == NoRelease && taken == RtlFreeUnicodeString
    ensures buffer == NULL <==> created.None?
    ensures created.Some? ==> created.value == ExFreePoolWithTag(buffer, STRING_ALLOC_TAG)
  {
    var w := Wrap(source, target);
    wrapped := w.Drop();
    var t := Take(target);
    taken := t.Drop();
    var c := Create(units, PoolFlagPaged, buffer);
    if c.Ok? {
      var released := c.value.Drop();
      created := Some(released);
    } else {
      created := None;
    }
  }

  /** Getters of a wrapped null string: the default's. */
  method WrapNullIsDefault(target: UnicodeString) returns (empty: bool, len: u16, owned: bool)
    ensures empty && len == 0 && !owned
  {
    var s := Wrap(NULL, target);
    empty := s.IsEmpty();
    len := s.Len();
    owned := s.alloc.Some?;
  }
}
