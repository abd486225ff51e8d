/**
 * src/memory/mod.rs: the POOL_FLAGS wrapper and its two conversions, from
 * a legacy POOL_TYPE and to the u64 ExAllocatePool2 takes.
 */
module Memory {
  import opened Types

  /** POOL_TYPE values the conversion names; NonPagedPoolExecute equals NonPagedPool. */
  const NON_PAGED_POOL: i32 := 0
  const NON_PAGED_POOL_NX: i32 := 0x200

  /** The tag `u32::from_ne_bytes(*b"ALrs")` gives on a little-endian machine. */
  const DEFAULT_POOL_TAG: u32 := 0x7372_4C41

  datatype PoolFlags = PoolFlagUninit | PoolFlagCacheAligned | PoolFlagNonPaged | PoolFlagNonPagedExecute | PoolFlagPaged
  {
    /** The `#[repr(u64)]` discriminant. */
    function Discriminant(): u64
    {
      match this
      case PoolFlagUninit => 0x2
      case PoolFlagCacheAligned => 0x4
      case PoolFlagNonPaged => 0x40
      case PoolFlagNonPagedExecute => 0x80
      case PoolFlagPaged => 0x100
    }

    /** The flags `Into<u64>` accepts; any other reaches `unreachable!()`. */
    predicate Convertible()
    {
      this == PoolFlagNonPaged || this == PoolFlagPaged
    }
  }

  /** Each discriminant is a single POOL_FLAG bit, and no two variants share one. */
  lemma DiscriminantsAreDistinctBits(a: PoolFlags, b: PoolFlags)
    ensures a.Discriminant() == b.Discriminant() <==> a == b
    ensures a.Discriminant() in {0x2, 0x4, 0x40, 0x80, 0x100}
  {
  }

  /** `From<POOL_TYPE>`: the two non-paged types map to non-paged, all else to paged. */
  function FromPoolType(value: i32): (f: PoolFlags)
    ensures f == PoolFlagNonPaged <==> value == NON_PAGED_POOL || value == NON_PAGED_POOL_NX
    ensures f != PoolFlagNonPaged ==> f == PoolFlagPaged
  {
    if value == NON_PAGED_POOL || value == NON_PAGED_POOL_NX then PoolFlagNonPaged else PoolFlagPaged
  }

  /** `Into<u64>`. */
  function IntoU64(f: PoolFlags): u64
    requires f.Convertible()
  {
    match f
    case PoolFlagNonPaged => 0x40
    case PoolFlagPaged => 0x100
  }

  /**
   * Every flag `From<POOL_TYPE>` yields converts without reaching the
   * unreachable arm, to the flag's own discriminant: 0x40 for the two
   * non-paged types, 0x100 for every other type.
   */
  lemma FromPoolTypeConverts(value: i32)
    ensures FromPoolType(value).Convertible()
    ensures IntoU64(FromPoolType(value)) == FromPoolType(value).Discriminant()
    ensures IntoU64(FromPoolType(value)) == if value == NON_PAGED_POOL || value == NON_PAGED_POOL_NX then 0x40 else 0x100
  {
  }

  /** On the flags it accepts, `Into<u64>` agrees with the discriminant and tells the two apart. */
  lemma IntoU64IsDiscriminant(f: PoolFlags)
    requires f.Convertible()
    ensures IntoU64(f) == f.Discriminant()
    ensures IntoU64(f) == 0x40 <==> f == PoolFlagNonPaged
  {
  }
}
