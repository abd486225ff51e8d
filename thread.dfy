/**
 * src/callbacks/thread.rs: the thread-creation notify callback in an
 * Option slot, in its plain or typed (Ex) registration.
 */
module ThCallbacks {
  import opened Types
  import opened Wrappers
  import opened NtStatus
  import opened Callbacks

  /** `ThCallbackVersion`; PCREATE_THREAD_NOTIFY_ROUTINE is itself optional. */
  datatype ThCallbackVersion = NotifyRoutine(routine: Option<FnPtr>) | NotifyRoutineEx(notifyType: i32, exRoutine: Option<FnPtr>)

  /** The registration call `register` makes for each variant. */
  datatype ThRegisterCall =
    | PsSetCreateThreadNotifyRoutine(routine: Option<FnPtr>)
    | PsSetCreateThreadNotifyRoutineEx(notifyType: i32, routine: Option<FnPtr>)

  function RegisterCall(cb: ThCallbackVersion): (c: ThRegisterCall)
    ensures cb.NotifyRoutine? <==> c.PsSetCreateThreadNotifyRoutine?
    ensures cb.NotifyRoutineEx? ==> c == PsSetCreateThreadNotifyRoutineEx(cb.notifyType, cb.exRoutine)
  {
    match cb
    case NotifyRoutine(r) => PsSetCreateThreadNotifyRoutine(r)
    case NotifyRoutineEx(t, r) => PsSetCreateThreadNotifyRoutineEx(t, r)
  }

  /** The routine PsRemoveCreateThreadNotifyRoutine is given: the stored one, whatever the variant. */
  function RemovedRoutine(cb: ThCallbackVersion): (r: Option<FnPtr>)
    ensures cb.NotifyRoutine? ==> r == cb.routine
    ensures cb.NotifyRoutineEx? ==> r == cb.exRoutine
  {
    match cb
    case NotifyRoutine(r) => r
    case NotifyRoutineEx(_, r) => r
  }

  /** Removal always names the routine registration handed to the OS. */
  lemma RemoveMirrorsRegister(cb: ThCallbackVersion)
    ensures RemovedRoutine(cb) == RegisterCall(cb).routine
  {
  }

  class WduThCallback {
    var callback: Option<ThCallbackVersion>

    /** `const_new`: nothing registered. */
    constructor ()
      ensures callback.None?
    {
      callback := None;
    }

    /** `register`: `status` is what the registration routine returns. */
    method Register(cb: ThCallbackVersion, status: NtStatus) returns (r: Result<(), WduCallbackError>, call: ThRegisterCall)
      modifies this`callback
      ensures call == RegisterCall(cb)
      ensures r.Ok? <==> status == STATUS_SUCCESS
      ensures r.Err? ==> r.error == RegisterError(status) && callback == old(callback)
      ensures r.Ok? ==> callback == Some(cb)
    {
      call := RegisterCall(cb);
      if status != STATUS_SUCCESS {
        return Err(RegisterError(status)), call;
      }
      callback := Some(cb);
      r := Ok(());
    }

    /**
     * `unregister`: `status` is what PsRemoveCreateThreadNotifyRoutine
     * returns; `removed` is the routine it was given, if it was called.
     */
    method Unregister(status: NtStatus) returns (r: Result<(), WduCallbackError>, removed: Option<Option<FnPtr>>)
      modifies this`callback
      ensures old(callback).None? ==> r == Err(NotRegistered) && removed.None? && callback.None?
      ensures old(callback).Some? ==> removed == Some(RemovedRoutine(old(callback).value))
      ensures old(callback).Some? && status != STATUS_SUCCESS ==>
        r == Err(UnregisterError(status)) && callback == old(callback)
      ensures old(callback).Some? && status == STATUS_SUCCESS ==> r == Ok(()) && callback.None?
    {
      if callback.None? {
        return Err(NotRegistered), None;
      }
      var cb := RemovedRoutine(callback.value);
      removed := Some(cb);
      if status != STATUS_SUCCESS {
        return Err(UnregisterError(status)), removed;
      }
      callback := None;
      r := Ok(());
    }

    /** `Drop`: unregisters and ignores the outcome. */
    method Drop(status: NtStatus) returns (removed: Option<Option<FnPtr>>)
      modifies this`callback
      ensures removed == if old(callback).None? then None else Some(RemovedRoutine(old(callback).value))
      ensures callback == if old(callback).Some? && status != STATUS_SUCCESS then old(callback) else None
    {
      var _, rm := Unregister(status);
      removed := rm;
    }
  }

  /**
   * After a successful registration of either variant, unregistering
   * removes the very routine that was registered, and once that succeeds
   * a second removal finds nothing.
   */
  method RegisterThenUnregister(cb: ThCallbackVersion, unregisterStatus: NtStatus)
    returns (registered: ThRegisterCall, removed: Option<Option<FnPtr>>, again: Result<(), WduCallbackError>)
    ensures removed == Some(registered.routine)
    ensures unregisterStatus == STATUS_SUCCESS ==> again == Err(NotRegistered)
    ensures unregisterStatus != STATUS_SUCCESS ==> again == Err(UnregisterError(unregisterStatus))
  {
    var th := new WduThCallback();
    var _, call := th.Register(cb, STATUS_SUCCESS);
    registered := call;
    var _, rm := th.Unregister(unregisterStatus);
    removed := rm;
    RemoveMirrorsRegister(cb);
    var second;
    again, second := th.Unregister(unregisterStatus);
  }
}
