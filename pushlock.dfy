/**
 * src/sync/pushlock.rs: a push lock that records the mode it was acquired
 * in, so that `release` can call the matching kernel routine.
 */
module PushLock {
  import opened Types

  datatype PushLockAccess = None | Exclusive | Shared

  /** The kernel release routine a `release` call issues. */
  datatype ReleaseCall = NoRelease | ReleaseShared | ReleaseExclusive

  /** The APC-disable count KeEnterCriticalRegion/KeLeaveCriticalRegion maintain for a thread. */
  class KernelThread {
    var criticalRegionDepth: nat
  }

  class WduPushLock {
    var access: PushLockAccess
    var pushlock: u64

    /** `new`. */
    constructor ()
      ensures access == None && pushlock == 0
    {
      access := None;
      pushlock := 0;
    }

    /** `acquired_shared`. */
    method AcquiredShared()
      modifies this`access
      ensures access == Shared
    {
      access := Shared;
    }

    /** `acquire_exclusive`. */
    method AcquireExclusive()
      modifies this`access
      ensures access == Exclusive
    {
      access := Exclusive;
    }

    /**
     * `release`: the call matching the recorded mode, none for None. The
     * recorded mode is not reset.
     */
    method Release() returns (call: ReleaseCall)
      ensures access == Shared ==> call == ReleaseShared
      ensures access == Exclusive ==> call == ReleaseExclusive
      ensures access == None ==> call == NoRelease
    {
      match access {
        case Shared => call := ReleaseShared;
        case Exclusive => call := ReleaseExclusive;
        case None => call := NoRelease;
      }
    }

    /** `RawRwLock::lock_shared`: enter a critical region, then acquire shared. */
    method RawLockShared(thread: KernelThread)
      modifies this`access, thread
      ensures thread.criticalRegionDepth == old(thread.criticalRegionDepth) + 1 && access == Shared
    {
      thread.criticalRegionDepth := thread.criticalRegionDepth + 1;
      AcquiredShared();
    }

    /** `RawRwLock::lock_exclusive`. */
    method RawLockExclusive(thread: KernelThread)
      modifies this`access, thread
      ensures thread.criticalRegionDepth == old(thread.criticalRegionDepth) + 1 && access == Exclusive
    {
      thread.criticalRegionDepth := thread.criticalRegionDepth + 1;
      AcquireExclusive();
    }

    /** `RawRwLock::unlock_shared` and `unlock_exclusive`: release, then leave the critical region. */
    method RawUnlock(thread: KernelThread) returns (call: ReleaseCall)
      requires thread.criticalRegionDepth > 0
      modifies thread
      ensures thread.criticalRegionDepth == old(thread.criticalRegionDepth) - 1
      ensures access == Shared ==> call == ReleaseShared
      ensures access == Exclusive ==> call == ReleaseExclusive
      ensures access == None ==> call == NoRelease
    {
      call := Release();
      thread.criticalRegionDepth := thread.criticalRegionDepth - 1;
    }
  }

  /**
   * A lock/unlock pair through the RawRwLock interface leaves the thread's
   * critical-region depth where it was and issues the matching release.
   */
  method RawSharedPairIsBalanced(lock: WduPushLock, thread: KernelThread) returns (call: ReleaseCall)
    modifies lock, thread
    ensures thread.criticalRegionDepth == old(thread.criticalRegionDepth)
    ensures call == ReleaseShared
  {
    lock.RawLockShared(thread);
    call := lock.RawUnlock(thread);
  }

  method RawExclusivePairIsBalanced(lock: WduPushLock, thread: KernelThread) returns (call: ReleaseCall)
    modifies lock, thread
    ensures thread.criticalRegionDepth == old(thread.criticalRegionDepth)
    ensures call == ReleaseExclusive
  {
    lock.RawLockExclusive(thread);
    call := lock.RawUnlock(thread);
  }
}
