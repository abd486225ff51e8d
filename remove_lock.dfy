/**
 * src/sync/remove_lock.rs: an IO_REMOVE_LOCK that remembers the tag of its
 * last acquire and passes it back to the release routines.
 */
module RemoveLock {
  import opened Types
  import opened Wrappers
  import opened NtStatus

  class WduRemoveLock {
    var lockTag: Option<u64>

    /** `new`. */
    constructor ()
      ensures lockTag == None
    {
      lockTag := None;
    }

    /**
     * `acquire(t)`: the tag is stored before IoAcquireRemoveLockEx runs;
     * `status` is what that routine returns, handed back unchanged.
     */
    method Acquire(tag: Option<u64>, status: NtStatus) returns (s: NtStatus)
      modifies this
      ensures lockTag == tag && s == status
    {
      lockTag := tag;
      s := status;
    }

    /** `release`: IoReleaseRemoveLockEx gets the stored tag, which is then cleared. */
    method Release() returns (releasedTag: Option<u64>)
      modifies this
      ensures releasedTag == old(lockTag) && lockTag == None
    {
      releasedTag := lockTag;
      lockTag := None;
    }

    /** `release_and_wait`: the same with IoReleaseRemoveLockAndWaitEx. */
    method ReleaseAndWait() returns (releasedTag: Option<u64>)
      modifies this
      ensures releasedTag == old(lockTag) && lockTag == None
    {
      releasedTag := lockTag;
      lockTag := None;
    }
  }

  /** An acquire followed by a release hands the acquire's tag to the release. */
  method AcquireReleasePairsTags(lock: WduRemoveLock, tag: Option<u64>, status: NtStatus)
    returns (releasedTag: Option<u64>)
    modifies lock
    ensures releasedTag == tag && lock.lockTag == None
  {
    var _ := lock.Acquire(tag, status);
    releasedTag := lock.Release();
  }
}
