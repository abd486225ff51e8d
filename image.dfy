/**
 * src/callbacks/image.rs: the image-load notify callback. The slot is the
 * optional routine itself, set by `register` and cleared by `unregister`.
 */
module ImageCallbacks {
  import opened Types
  import opened Wrappers
  import opened NtStatus
  import opened Callbacks

  class WduImageCallback {
    var callback: Option<FnPtr>

    /** `default` and `const_new`: nothing registered. */
    constructor ()
      ensures callback.None?
    {
      callback := None;
    }

    /**
     * `register` asserts that a routine is given; `status` is what
     * PsSetLoadImageNotifyRoutine returns.
     */
    method Register(cb: Option<FnPtr>, status: NtStatus) returns (r: Result<(), WduCallbackError>)
      requires cb.Some?
      modifies this`callback
      ensures r.Ok? <==> status == STATUS_SUCCESS
      ensures r.Err? ==> r.error == RegisterError(status) && callback == old(callback)
      ensures r.Ok? ==> callback == cb
    {
      if status != STATUS_SUCCESS {
        return Err(RegisterError(status));
      }
      callback := cb;
      r := Ok(());
    }

    /**
     * `unregister`: `status` is what PsRemoveLoadImageNotifyRoutine
     * returns; `removed` is the routine it was given, if it was called.
     */
    method Unregister(status: NtStatus) returns (r: Result<(), WduCallbackError>, removed: Option<FnPtr>)
      modifies this`callback
      ensures old(callback).None? ==> r == Err(NotRegistered) && removed.None? && callback.None?
      ensures old(callback).Some? ==> removed == old(callback)
      ensures old(callback).Some? && status != STATUS_SUCCESS ==>
        r == Err(UnregisterError(status)) && callback == old(callback)
      ensures old(callback).Some? && status == STATUS_SUCCESS ==> r == Ok(()) && callback.None?
    {
      if callback.None? {
        return Err(NotRegistered), None;
      }
      removed := callback;
      if status != STATUS_SUCCESS {
        return Err(UnregisterError(status)), removed;
      }
      callback := None;
      r := Ok(());
    }

    /** `Drop`: unregisters and ignores the outcome. */
    method Drop(status: NtStatus) returns (removed: Option<FnPtr>)
      modifies this`callback
      ensures removed == old(callback)
      ensures callback == if old(callback).Some? && status != STATUS_SUCCESS then old(callback) else None
    {
      var _, rm := Unregister(status);
      removed := rm;
    }
  }

  /**
   * A failed registration leaves the wrapper unregistered, so its drop
   * removes nothing; a successful one is undone by the drop with the same
   * routine.
   */
  method RegisterThenDrop(cb: FnPtr, registerStatus: NtStatus, dropStatus: NtStatus)
    returns (registered: Result<(), WduCallbackError>, removed: Option<FnPtr>)
    ensures registerStatus != STATUS_SUCCESS ==> registered == Err(RegisterError(registerStatus)) && removed.None?
    ensures registerStatus == STATUS_SUCCESS ==> registered == Ok(()) && removed == Some(cb)
  {
    var img := new WduImageCallback();
    registered := img.Register(Some(cb), registerStatus);
    if registered.Ok? {
      assert registered.value == ();
    }
    removed := img.Drop(dropStatus);
  }
}
