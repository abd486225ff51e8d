/**
 * examples/obcallback/src/callback.rs: the sample protection filter. Once
 * a protected name is set and a matching process is found, handles opened
 * to that process or to its threads from user mode lose the TERMINATE
 * right.
 */
module ObProtect {
  import opened Types
  import opened Wrappers
  import opened NtStatus
  import opened ObCallbacks
  import opened DeviceControl
  import Callbacks
  import Unicode
  import Memory

  datatype ObCallbackError = DriverError | DeviceError | CallbackError | InvalidParameter | UnicodeError

  /** `From<WduCallbackError>`. */
  function FromCallbackError(e: Callbacks.WduCallbackError): (r: ObCallbackError)
    ensures r == CallbackError
  {
    CallbackError
  }

  /** `From<WduUnicodeError>`. */
  function FromUnicodeError(e: Unicode.WduUnicodeError): (r: ObCallbackError)
    ensures r == UnicodeError
  {
    UnicodeError
  }

  const PROTECT_NAME_PROTECT: u32 := 0
  const PROTECT_NAME_REJECT: u32 := 1
  const CB_PROCESS_TERMINATE: bv32 := 0x0001
  const CB_THREAD_TERMINATE: bv32 := 0x0001
  const NAME_SIZE: nat := 200

  /** The pool `WduUnicodeString::try_from` allocates from without the `try_non_paged` feature. */
  const STRING_POOL: Memory.PoolFlags := Memory.PoolFlagPaged

  const PRE_OPERATION_CB: FnPtr := FnPtr("Protect::pre_operation_cb")
  const POST_OPERATION_CB: FnPtr := FnPtr("Protect::post_operation_cb")

  /** `ProtectNameInput`, as read from the request's input buffer. */
  datatype ProtectNameInput = ProtectNameInput(operation: u32, name: seq<u16>)

  /** The statics PROTECT_NAME_FLAG and REJECT_NAME_FLAG. */
  class NameFlags {
    var protect: bool
    var reject: bool
  }

  /** `Object`: what the pre-operation callback recorded in its call context. */
  datatype TargetObject = ProcessObject(process: Ptr) | ThreadObject(pid: Ptr)

  datatype CallContext = CallContext(operation: bv32, target: TargetObject)

  /** `ProtectData`: the target found by `check_process_match` and the protected name. */
  datatype ProtectData = ProtectData(targetProcess: Option<Ptr>, targetProcessId: Option<Ptr>, name: Unicode.WduUnicodeString)

  /** The registration `register_callback` builds for one object type. */
  function ProtectRegistration(t: ObjectType, context: Ptr): WduObOpRegistration
  {
    DefaultRegistration()
      .WithObType(t)
      .WithOperations(OB_OPERATION_HANDLE_CREATE | OB_OPERATION_HANDLE_DUPLICATE)
      .WithPre(PRE_OPERATION_CB)
      .WithPost(POST_OPERATION_CB)
      .SetContext(context)
      .Build()
  }

  /** The two registrations, process then thread, one `register_callback` pushes. */
  function ProtectRegistrations(context: Ptr): seq<WduObOpRegistration>
  {
    [ProtectRegistration(ObjectType.Process, context), ProtectRegistration(ObjectType.Thread, context)]
  }

  /** The call of `pre_operation_cb` a trampoline makes for one of them. */
  function PreInvocation(context: Ptr): Invocation
  {
    Invocation(PRE_OPERATION_CB, if context == NULL then None else Some(context))
  }

  /**
   * Over one pair of registrations, a handle creation or duplication on a
   * process or a thread calls `pre_operation_cb` exactly once, and on any
   * other object type not at all.
   */
  lemma ProtectRegistrationsCallOnce(context: Ptr, t: ObjectType, op: bv32)
    requires IsHandleOperation(op)
    ensures Calls(ProtectRegistrations(context), t, op, Pre)
         == if t == ObjectType.Process || t == ObjectType.Thread then [PreInvocation(context)] else []
  {
    var processCb := ProtectRegistration(ObjectType.Process, context);
    var threadCb := ProtectRegistration(ObjectType.Thread, context);
    assert ProtectRegistrations(context) == [processCb] + [threadCb];
    assert processCb.operations & op == op;
    assert threadCb.operations & op == op;
    CallsAppend([processCb], [threadCb], t, op, Pre);
    CallsOfOne(processCb, t, op, Pre);
    CallsOfOne(threadCb, t, op, Pre);
  }

  /**
   * As written, `register_callback` pushes a fresh pair on every call and
   * nothing ever removes one, so after protect, unprotect and protect
   * again the list holds two pairs and every handle operation on a
   * process or thread calls `pre_operation_cb` twice with the same
   * operation information. On the target the first call stores its call
   * context, so the second one reaches `set_context` with a non-null
   * CallContext and its assertion fails.
   */
  lemma ReprotectCallsPreTwice(context: Ptr, t: ObjectType, op: bv32)
    requires IsHandleOperation(op) && (t == ObjectType.Process || t == ObjectType.Thread)
    ensures Calls(ProtectRegistrations(context) + ProtectRegistrations(context), t, op, Pre)
         == [PreInvocation(context), PreInvocation(context)]
  {
    CallsAppend(ProtectRegistrations(context), ProtectRegistrations(context), t, op, Pre);
    ProtectRegistrationsCallOnce(context, t, op);
  }

  /**
   * Which object a handle operation is about and whether the filter acts
   * on it: a process that is the target and not the caller, or a thread of
   * the target process that is not the caller's. `obj` is the object,
   * `threadPid` the process id of the thread's process, and the last two
   * the caller's process and process id.
   */
  function Target(ctx: Option<ProtectData>, t: ObjectType, obj: Ptr, threadPid: Ptr,
                  currentProcess: Ptr, currentPid: Ptr): Option<TargetObject>
  {
    if ctx.None? then None
    else
      match t
      case Process =>
        if ctx.value.targetProcess.None? || ctx.value.targetProcess.value != obj then None
        else if obj == currentProcess then None
        else Some(ProcessObject(obj))
      case Thread =>
        if ctx.value.targetProcessId.None? || ctx.value.targetProcessId.value != threadPid then None
        else if threadPid == currentPid then None
        else Some(ThreadObject(threadPid))
      case _ => None
  }

  /**
   * The filter acts exactly on the target process and on threads of the
   * target process, and never on the caller's own process: with no
   * context, an unknown or desktop type, no target, or another object it
   * stays out.
   */
  lemma TargetMeaning(ctx: Option<ProtectData>, t: ObjectType, obj: Ptr, threadPid: Ptr, currentProcess: Ptr, currentPid: Ptr)
    ensures var r := Target(ctx, t, obj, threadPid, currentProcess, currentPid);
      && (r.Some? <==>
            ctx.Some?
            && ((t == Process && ctx.value.targetProcess == Some(obj) && obj != currentProcess)
                || (t == Thread && ctx.value.targetProcessId == Some(threadPid) && threadPid != currentPid)))
      && (r.Some? && t == Process ==> r.value == ProcessObject(obj))
      && (r.Some? && t == Thread ==> r.value == ThreadObject(threadPid))
  {
  }

  /** The right the filter takes away for each kind of object. */
  function ClearBit(o: TargetObject): bv32
  {
    match o
    case ProcessObject(_) => CB_PROCESS_TERMINATE
    case ThreadObject(_) => CB_THREAD_TERMINATE
  }

  /** `desired_access &= !clear_bit_access; desired_access |= set_bit_access`. */
  function Filter(access: bv32, clear: bv32, setBits: bv32): bv32
  {
    (access & !clear) | setBits
  }

  /** Both masks the sample clears are the TERMINATE bit. */
  lemma ClearBitIsTerminate(o: TargetObject)
    ensures ClearBit(o) == 1
  {
  }

  lemma FilterClearsBit(access: bv32)
    ensures Filter(access, 1, 0) & 1 == 0
  {
  }

  lemma FilterKeepsOtherBits(access: bv32)
    ensures Filter(access, 1, 0) & !1 == access & !1
  {
  }

  lemma FilterIdempotent(access: bv32)
    ensures Filter(Filter(access, 1, 0), 1, 0) == Filter(access, 1, 0)
  {
  }

  /**
   * Clearing the TERMINATE bit clears it, keeps every other bit, and
   * filtering twice is filtering once.
   */
  lemma FilterClearsTerminateOnly(access: bv32)
    ensures Filter(access, 1, 0) & 1 == 0
    ensures Filter(access, 1, 0) & !1 == access & !1
    ensures Filter(Filter(access, 1, 0), 1, 0) == Filter(access, 1, 0)
  {
    FilterClearsBit(access);
    FilterKeepsOtherBits(access);
    FilterIdempotent(access);
  }

  /**
   * `pre_operation_cb`. The caller's process and process id, the process
   * id of a thread object and the address of the boxed call context are
   * inputs. The object manager only calls it for handle creation and
   * duplication. When the filter acts it takes TERMINATE away from a user
   * handle, leaves a kernel handle's access alone, and stores the call
   * context; storing it asserts that CallContext was null.
   */
  method PreOperationCb(ctx: Option<ProtectData>, info: PreOperationInfo, types: KernelObjectTypes,
                        threadPid: Ptr, currentProcess: Ptr, currentPid: Ptr, boxed: Ptr)
    returns (stored: Option<CallContext>)
    requires IsHandleOperation(info.operation)
    requires Target(ctx, ObjectTypeOf(info.objectType, types), info.obj, threadPid, currentProcess, currentPid).Some?
             ==> info.callContext == NULL
    modifies info`desiredAccess, info`callContext
    ensures var target := Target(ctx, ObjectTypeOf(info.objectType, types), info.obj, threadPid, currentProcess, currentPid);
      && (target.None? ==> stored.None? && info.desiredAccess == old(info.desiredAccess)
                           && info.callContext == old(info.callContext))
      && (target.Some? ==> stored == Some(CallContext(info.operation, target.value))
                           && info.callContext == boxed
                           && info.desiredAccess == if info.IsKernelHandle() then old(info.desiredAccess)
                                                    else Filter(old(info.desiredAccess), ClearBit(target.value), 0))
  {
    stored := None;
    if ctx.None? {
      return;
    }
    var protectData := ctx.value;
    var obj: TargetObject;
    var clearBitAccess: bv32;
    var setBitAccess: bv32;
    match ObjectTypeOf(info.objectType, types) {
      case Process =>
        var process := info.obj;
        if protectData.targetProcess.None? || protectData.targetProcess.value != process {
          return;
        }
        if process == currentProcess {
          return;
        }
        obj := ProcessObject(process);
        clearBitAccess := CB_PROCESS_TERMINATE;
        setBitAccess := 0;
      case Thread =>
        var pid := threadPid;
        if protectData.targetProcessId.None? || protectData.targetProcessId.value != pid {
          return;
        }
        if pid == currentPid {
          return;
        }
        obj := ThreadObject(pid);
        clearBitAccess := CB_THREAD_TERMINATE;
        setBitAccess := 0;
      case _ =>
        return;
    }
    var desiredAccess := info.DesiredAccess();
    if !info.IsKernelHandle() {
      desiredAccess := Filter(desiredAccess, clearBitAccess, setBitAccess);
      info.SetDesiredAccess(desiredAccess);
    }
    var callCtx := CallContext(info.operation, obj);
    info.SetContext(boxed);
    stored := Some(callCtx);
  }

  /** `Protect`: the install flag, the protection data and the object callback. */
  class Protect {
    var callbackInstalled: bool
    var protectData: ProtectData
    const callback: WduObCallback
    /** `&self.protect_data`, the context every registration carries. */
    const protectDataAddress: Ptr

    /** The registrations pushed so far are of known types, as `register` needs. */
    predicate Valid()
      reads this, callback
    {
      forall i :: 0 <= i < |callback.operations| ==> callback.operations[i].obType != ObjectType.Unknown
    }

    /** `const_new`. */
    constructor (protectDataAddress: Ptr)
      ensures !callbackInstalled && protectData.targetProcess.None? && protectData.targetProcessId.None?
      ensures fresh(callback) && callback.handle == NULL && callback.operations == []
      ensures fresh(protectData.name) && protectData.name.native == Unicode.EMPTY_UNICODE_STRING
      ensures this.protectDataAddress == protectDataAddress && Valid()
    {
      callbackInstalled := false;
      var name := new Unicode.WduUnicodeString();
      protectData := ProtectData(None, None, name);
      callback := new WduObCallback();
      this.protectDataAddress := protectDataAddress;
    }

    function IsCbInstalled(): bool
      reads this
    {
      callbackInstalled
    }

    /**
     * `register_callback`: pushes the process and the thread registration,
     * in that order, on every call, registers with the object manager and
     * only then records that the callback is installed. The oracles are
     * those of `WduObCallback::register`.
     */
    method RegisterCallback(types: KernelObjectTypes, reserved: bool, osStatus: NtStatus, osHandle: Ptr)
      returns (r: Result<(), ObCallbackError>)
      requires Valid()
      modifies callback`operations, callback`handle, this`callbackInstalled
      ensures Valid()
      ensures callback.operations == old(callback.operations) + ProtectRegistrations(protectDataAddress)
      ensures r.Ok? <==> reserved && osStatus == STATUS_SUCCESS
      ensures r.Err? ==> r.error == CallbackError
      ensures callbackInstalled == (r.Ok? || old(callbackInstalled))
      ensures callback.handle == if r.Ok? then osHandle else old(callback.handle)
    {
      var processCb := ProtectRegistration(Process, protectDataAddress);
      var threadCb := ProtectRegistration(Thread, protectDataAddress);
      callback.PushOpRegistration(processCb);
      callback.PushOpRegistration(threadCb);
      var registered, _ := callback.Register(types, reserved, osStatus, osHandle);
      if registered.Err? {
        return Err(FromCallbackError(registered.error));
      }
      callbackInstalled := true;
      r := Ok(());
    }

    /** The list holds at most the one pair the sample means to register. */
    predicate SingleRegistration()
      reads this, callback
    {
      callback.operations == [] || callback.operations == ProtectRegistrations(protectDataAddress)
    }

    /**
     * `register_callback` as evidently intended: the pair is pushed only
     * into an empty list, so registering again after unregistering reuses
     * it and each handle operation calls `pre_operation_cb` at most once.
     */
    method RegisterCallbackOnce(types: KernelObjectTypes, reserved: bool, osStatus: NtStatus, osHandle: Ptr)
      returns (r: Result<(), ObCallbackError>)
      requires Valid() && SingleRegistration()
      modifies callback`operations, callback`handle, this`callbackInstalled
      ensures Valid() && SingleRegistration()
      ensures callback.operations == ProtectRegistrations(protectDataAddress)
      ensures r.Ok? <==> reserved && osStatus == STATUS_SUCCESS
      ensures r.Err? ==> r.error == CallbackError
      ensures callbackInstalled == (r.Ok? || old(callbackInstalled))
      ensures callback.handle == if r.Ok? then osHandle else old(callback.handle)
    {
      if callback.operations == [] {
        callback.PushOpRegistration(ProtectRegistration(ObjectType.Process, protectDataAddress));
        callback.PushOpRegistration(ProtectRegistration(ObjectType.Thread, protectDataAddress));
      }
      var registered, _ := callback.Register(types, reserved, osStatus, osHandle);
      if registered.Err? {
        return Err(FromCallbackError(registered.error));
      }
      callbackInstalled := true;
      r := Ok(());
    }

    /** `delete_protect_name_cb`: the install flag is cleared only when unregistering succeeds. */
    method DeleteProtectNameCb() returns (r: Result<(), ObCallbackError>)
      modifies callback`handle, this`callbackInstalled
      ensures r.Ok? <==> old(callback.handle) != NULL
      ensures r.Err? ==> r.error == CallbackError && callbackInstalled == old(callbackInstalled)
      ensures r.Ok? ==> !callbackInstalled
      ensures callback.handle == NULL
    {
      var unregistered, _ := callback.Unregister();
      if unregistered.Err? {
        return Err(FromCallbackError(unregistered.error));
      }
      callbackInstalled := false;
      r := Ok(());
    }

    /**
     * `check_process_match`: `found` is what the case-insensitive search of
     * the protected name in `filename` answers. Without a match nothing
     * changes; with one the process and its id become the target.
     */
    method CheckProcessMatch(process: Ptr, pid: Ptr, filename: Unicode.WduUnicodeString, found: bool)
      returns (status: NtStatus)
      modifies this`protectData
      ensures var matched := filename.Contains(old(protectData).name, true, found);
        && (!matched ==> status == STATUS_NOT_FOUND && protectData == old(protectData))
        && (matched ==> status == STATUS_SUCCESS
                        && protectData == old(protectData).(targetProcess := Some(process), targetProcessId := Some(pid)))
    {
      if !filename.Contains(protectData.name, true, found) {
        return STATUS_NOT_FOUND;
      }
      protectData := protectData.(targetProcess := Some(process));
      protectData := protectData.(targetProcessId := Some(pid));
      status := STATUS_SUCCESS;
    }

    /**
     * `protect_name_cb`. `input` is the ProtectNameInput the request's input
     * buffer holds, `nameBuffer` what the pool gives the copy of its name,
     * and the rest the oracles of `register_callback`. The name is stored
     * and the callback registered before the operation is looked at, so an
     * unknown operation fails with the callback already installed.
     */
    method ProtectNameCb(req: WduDeviceControl, input: ProtectNameInput, flags: NameFlags, nameBuffer: Ptr,
                         types: KernelObjectTypes, reserved: bool, osStatus: NtStatus, osHandle: Ptr)
      returns (r: Result<NtStatus, ObCallbackError>)
      requires Valid()
      modifies this`protectData, callback`operations, callback`handle, this`callbackInstalled, flags
      ensures Valid()
      ensures req.InputBuffer() == NULL ==> r == Err(InvalidParameter) && callback.operations == old(callback.operations)
      ensures req.InputBuffer() != NULL && nameBuffer == NULL ==>
        r == Err(UnicodeError) && callback.operations == old(callback.operations)
      ensures req.InputBuffer() != NULL && nameBuffer != NULL ==>
        |callback.operations| == |old(callback.operations)| + 2
        && (callbackInstalled <==> old(callbackInstalled) || (reserved && osStatus == STATUS_SUCCESS))
      ensures r.Ok? <==> req.InputBuffer() != NULL && nameBuffer != NULL && reserved && osStatus == STATUS_SUCCESS
                         && (input.operation == PROTECT_NAME_PROTECT || input.operation == PROTECT_NAME_REJECT)
      ensures r.Ok? ==> r.value == STATUS_SUCCESS
      ensures r.Ok? ==> flags.protect == (input.operation == PROTECT_NAME_PROTECT)
                        && flags.reject == (input.operation == PROTECT_NAME_REJECT)
      ensures r.Err? && req.InputBuffer() != NULL && nameBuffer != NULL && reserved && osStatus == STATUS_SUCCESS ==>
        r.error == InvalidParameter && callbackInstalled
      ensures r.Err? ==> flags.protect == old(flags.protect) && flags.reject == old(flags.reject)
    {
      if req.InputBuffer() == NULL {
        return Err(InvalidParameter);
      }
      var name := Unicode.Create(input.name, STRING_POOL, nameBuffer);
      if name.Err? {
        return Err(FromUnicodeError(name.error));
      }
      protectData := protectData.(name := name.value);
      var registered := RegisterCallback(types, reserved, osStatus, osHandle);
      if registered.Err? {
        return Err(registered.error);
      }
      if input.operation == PROTECT_NAME_PROTECT {
        flags.protect := true;
        flags.reject := false;
      } else if input.operation == PROTECT_NAME_REJECT {
        flags.protect := false;
        flags.reject := true;
      } else {
        return Err(InvalidParameter);
      }
      r := Ok(STATUS_SUCCESS);
    }
  }
}
