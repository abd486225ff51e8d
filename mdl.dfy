/**
 * src/memory/mdl.rs: the `WduMdl` wrapper, which remembers whether it
 * locked the pages it describes and whether it returned the MDL itself.
 */
module Mdl {
  import opened Types
  import opened Wrappers

  const MDL_MAPPED_TO_SYSTEM_VA: bv16 := 1
  const MDL_SOURCE_IS_NONPAGED_POOL: bv16 := 4

  /** The fields of the kernel's MDL that the wrapper reads; it never writes them. */
  class KernelMdl {
    const mdlFlags: bv16
    const mappedSystemVa: Ptr
    const startVa: Ptr
    const byteOffset: u32
    const byteCount: u32
  }

  datatype WduMdlError = AllocateError

  /**
   * The address `get_system_addr` yields for `mdl`: the existing mapping
   * when the MDL is mapped or describes non-paged pool, else `mapped`.
   */
  function SystemAddress(mdl: KernelMdl?, mapped: Ptr): Ptr
  {
    if mdl == null then NULL
    else if mdl.mdlFlags & (MDL_MAPPED_TO_SYSTEM_VA | MDL_SOURCE_IS_NONPAGED_POOL) != 0 then mdl.mappedSystemVa
    else mapped
  }

  datatype LockOperation = IoReadAccess | IoWriteAccess | IoModifyAccess
  {
    /** `Into<i32>`: the LOCK_OPERATION value, distinct for each variant. */
    function Code(): (c: i32)
      ensures 0 <= c <= 2
    {
      match this
      case IoReadAccess => 0
      case IoWriteAccess => 1
      case IoModifyAccess => 2
    }
  }

  lemma LockOperationCodesDistinct(a: LockOperation, b: LockOperation)
    ensures a.Code() == b.Code() <==> a == b
  {
  }

  class WduMdl {
    const mdl: KernelMdl?
    var lock: bool
    var alloc: bool

    /** `wrap`: an MDL the wrapper neither locked nor returned. */
    constructor Wrap(mdl: KernelMdl?)
      ensures this.mdl == mdl && !lock && !alloc
    {
      this.mdl := mdl;
      lock := false;
      alloc := false;
    }

    /**
     * `allocate`: `returned` is what IoAllocateMdl returned. A null MDL
     * is an error; otherwise the wrapper owns the MDL but has not locked it.
     */
    static method Allocate(va: Ptr, len: u32, secondary: bool, returned: KernelMdl?)
      returns (r: Result<WduMdl, WduMdlError>)
      ensures r.Err? <==> returned == null
      ensures r.Err? ==> r.error == AllocateError
      ensures r.Ok? ==> fresh(r.value) && r.value.mdl == returned && r.value.alloc && !r.value.lock
    {
      if returned == null {
        return Err(AllocateError);
      }
      var m := new WduMdl.Wrap(returned);
      m.alloc := true;
      r := Ok(m);
    }

    /**
     * `get_system_addr`: `mapped` is what MmMapLockedPagesSpecifyCache
     * would return; it is asked only when the MDL is neither mapped nor
     * built over non-paged pool.
     */
    function GetSystemAddr(mapped: Ptr): (p: Ptr)
      ensures mdl == null ==> p == NULL
      ensures mdl != null && mdl.mdlFlags & (MDL_MAPPED_TO_SYSTEM_VA | MDL_SOURCE_IS_NONPAGED_POOL) != 0 ==> p == mdl.mappedSystemVa
      ensures mdl != null && mdl.mdlFlags & (MDL_MAPPED_TO_SYSTEM_VA | MDL_SOURCE_IS_NONPAGED_POOL) == 0 ==> p == mapped
    {
      SystemAddress(mdl, mapped)
    }

    /** `get_va`: StartVa advanced by ByteOffset with pointer wrap-around. */
    function GetVa(): (p: Ptr)
      ensures mdl == null ==> p == NULL
      ensures mdl != null ==> p == (mdl.startVa + mdl.byteOffset) % 0x1_0000_0000_0000_0000
    {
      if mdl == null then NULL else (mdl.startVa + mdl.byteOffset) % 0x1_0000_0000_0000_0000
    }

    function GetBaseVa(): (p: Ptr)
      ensures mdl == null ==> p == NULL
      ensures mdl != null ==> p == mdl.startVa
    {
      if mdl == null then NULL else mdl.startVa
    }

    function ByteCount(): (n: u64)
      ensures mdl == null ==> n == 0
      ensures mdl != null ==> n == mdl.byteCount
    {
      if mdl == null then 0 else mdl.byteCount
    }

    /** `probe_and_lock`: MmProbeAndLockPages, then the wrapper records the lock. */
    method ProbeAndLock(accessMode: i8, op: LockOperation)
      modifies this`lock
      ensures lock
    {
      lock := true;
    }

    /** `unlock`: MmUnlockPages, then the record is cleared. */
    method Unlock()
      modifies this`lock
      ensures !lock
    {
      lock := false;
    }

    /**
     * `Drop`: reports whether MmUnlockPages and IoFreeMdl were called.
     * Each is called exactly when the matching flag was set.
     */
    method Drop() returns (unlocked: bool, freed: bool)
      modifies this`lock
      ensures unlocked == old(lock) && freed == alloc
      ensures !lock
    {
      unlocked := false;
      freed := false;
      if lock {
        Unlock();
        unlocked := true;
      }
      if alloc {
        freed := true;
      }
    }
  }

  /** Only an MDL the wrapper returned is freed on drop, and only locked pages are unlocked. */
  method WrappedMdlIsNotReleased(m: KernelMdl?) returns (unlocked: bool, freed: bool)
    ensures !unlocked && !freed
  {
    var w := new WduMdl.Wrap(m);
    unlocked, freed := w.Drop();
  }

  /** A returned and locked MDL is unlocked and freed exactly once on drop. */
  method AllocatedLockedMdlIsReleased(va: Ptr, len: u32, m: KernelMdl) returns (unlocked: bool, freed: bool)
    ensures unlocked && freed
  {
    var r := WduMdl.Allocate(va, len, false, m);
    var w := r.value;
    w.ProbeAndLock(0, IoWriteAccess);
    unlocked, freed := w.Drop();
  }
}
