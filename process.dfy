/**
 * src/callbacks/process.rs: the process-creation notify callback, kept in
 * an Option slot that `register` fills and `unregister` empties, and the
 * notify information handed to it.
 */
module PsCallbacks {
  import opened Types
  import opened Wrappers
  import opened NtStatus
  import opened Callbacks

  /** The fields of PS_CREATE_NOTIFY_INFO the wrapper reads or writes. */
  class PsCreateNotifyInfo {
    var creationStatus: NtStatus
    const parentProcessId: Ptr
    /** Bit 0 of Flags: FileOpenNameAvailable. */
    const flags: bv32
  }

  /** `WduPsCreateNotifyInfo`: a null record announces an exit. */
  datatype WduPsCreateNotifyInfo = WduPsCreateNotifyInfo(info: PsCreateNotifyInfo?)
  {
    predicate IsExit()
    {
      info == null
    }

    /** `set_status`: the creation status the callback gives back; an exit has no record to write. */
    method SetStatus(status: NtStatus)
      requires !IsExit()
      modifies info`creationStatus
      ensures info.creationStatus == status
    {
      info.creationStatus := status;
    }

    function ParentPid(): Ptr
      requires !IsExit()
      reads info
    {
      info.parentProcessId
    }

    function OpenNameAvailable(): (available: bool)
      requires !IsExit()
      reads info
      ensures available <==> info.flags & 1 == 1
    {
      info.flags & 1 == 1
    }
  }

  /** Only a record that exists can be read or written: an exit notification carries none. */
  lemma ExitHasNoRecord(n: WduPsCreateNotifyInfo)
    ensures n.IsExit() <==> n.info == null
    ensures !n.IsExit() ==> (n.OpenNameAvailable() <==> n.info.flags & 1 != 0)
  {
  }

  /** The three registration routines, one per `PsCallbackVersion`. */
  datatype PsNotifyApi = PsSetCreateProcessNotifyRoutine | PsSetCreateProcessNotifyRoutineEx | PsSetCreateProcessNotifyRoutineEx2

  /** `PsCallbackVersion`; the legacy routine type is itself optional. */
  datatype PsCallbackVersion = NotifyRoutine(legacy: Option<FnPtr>) | NotifyRoutineEx(ex: FnPtr) | NotifyRoutineEx2(ex2: FnPtr)
  {
    function Routine(): Option<FnPtr>
    {
      match this
      case NotifyRoutine(cb) => cb
      case NotifyRoutineEx(cb) => Some(cb)
      case NotifyRoutineEx2(cb) => Some(cb)
    }
  }

  /** A call of a registration routine: which one, with which routine, adding or removing. */
  datatype PsControl = PsControl(api: PsNotifyApi, routine: Option<FnPtr>, remove: bool)

  /** `control_callbacks`: the routine of the variant's own API, with the same callback. */
  function ControlCallbacks(callback: PsCallbackVersion, remove: bool): (c: PsControl)
    ensures c.routine == callback.Routine() && c.remove == remove
    ensures c.api == PsSetCreateProcessNotifyRoutine <==> callback.NotifyRoutine?
    ensures c.api == PsSetCreateProcessNotifyRoutineEx <==> callback.NotifyRoutineEx?
    ensures c.api == PsSetCreateProcessNotifyRoutineEx2 <==> callback.NotifyRoutineEx2?
  {
    match callback
    case NotifyRoutine(cb) => PsControl(PsSetCreateProcessNotifyRoutine, cb, remove)
    case NotifyRoutineEx(cb) => PsControl(PsSetCreateProcessNotifyRoutineEx, Some(cb), remove)
    case NotifyRoutineEx2(cb) => PsControl(PsSetCreateProcessNotifyRoutineEx2, Some(cb), remove)
  }

  /** Removing goes through the same routine with the same callback as adding did. */
  lemma RemoveMirrorsAdd(callback: PsCallbackVersion)
    ensures ControlCallbacks(callback, true) == ControlCallbacks(callback, false).(remove := true)
    ensures !ControlCallbacks(callback, false).remove
  {
  }

  class WduPsCallback {
    var callback: Option<PsCallbackVersion>

    /** `default` and `const_new`: nothing registered. */
    constructor ()
      ensures callback.None?
    {
      callback := None;
    }

    /** `register`: `status` is what the registration routine returns. */
    method Register(cb: PsCallbackVersion, status: NtStatus) returns (r: Result<(), WduCallbackError>, call: PsControl)
      modifies this`callback
      ensures call == ControlCallbacks(cb, false)
      ensures r.Ok? <==> status == STATUS_SUCCESS
      ensures r.Err? ==> r.error == RegisterError(status) && callback == old(callback)
      ensures r.Ok? ==> callback == Some(cb)
    {
      call := ControlCallbacks(cb, false);
      if status != STATUS_SUCCESS {
        return Err(RegisterError(status)), call;
      }
      callback := Some(cb);
      r := Ok(());
    }

    /** `unregister`: nothing is called without a registration, and a failed removal keeps it. */
    method Unregister(status: NtStatus) returns (r: Result<(), WduCallbackError>, call: Option<PsControl>)
      modifies this`callback
      ensures old(callback).None? ==> r == Err(NotRegistered) && call.None? && callback.None?
      ensures old(callback).Some? ==> call == Some(ControlCallbacks(old(callback).value, true))
      ensures old(callback).Some? && status != STATUS_SUCCESS ==>
        r == Err(UnregisterError(status)) && callback == old(callback)
      ensures old(callback).Some? && status == STATUS_SUCCESS ==> r == Ok(()) && callback.None?
    {
      if callback.None? {
        return Err(NotRegistered), None;
      }
      call := Some(ControlCallbacks(callback.value, true));
      if status != STATUS_SUCCESS {
        return Err(UnregisterError(status)), call;
      }
      callback := None;
      r := Ok(());
    }

    /** `Drop`: unregisters and ignores the outcome. */
    method Drop(status: NtStatus) returns (call: Option<PsControl>)
      modifies this`callback
      ensures call == if old(callback).None? then None else Some(ControlCallbacks(old(callback).value, true))
      ensures callback == if old(callback).Some? && status != STATUS_SUCCESS then old(callback) else None
    {
      var _, c := Unregister(status);
      call := c;
    }
  }

  /**
   * A registration that succeeds and the removal that follows name the
   * same routine through the same API; a second removal finds nothing, and
   * a dropped wrapper that was never registered removes nothing.
   */
  method RegisterThenUnregister(cb: PsCallbackVersion, unregisterStatus: NtStatus)
    returns (added: PsControl, removed: Option<PsControl>, again: Result<(), WduCallbackError>, dropped: Option<PsControl>)
    ensures removed == Some(added.(remove := true))
    ensures unregisterStatus == STATUS_SUCCESS ==> again == Err(NotRegistered)
    ensures unregisterStatus != STATUS_SUCCESS ==> again == Err(UnregisterError(unregisterStatus))
    ensures dropped.None?
  {
    var ps := new WduPsCallback();
    var _, a := ps.Register(cb, STATUS_SUCCESS);
    added := a;
    var _, rm := ps.Unregister(unregisterStatus);
    removed := rm;
    RemoveMirrorsAdd(cb);
    var second;
    again, second := ps.Unregister(unregisterStatus);
    var unused := new WduPsCallback();
    dropped := unused.Drop(unregisterStatus);
  }
}
