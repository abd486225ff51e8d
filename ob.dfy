/**
 * src/callbacks/ob.rs: object-manager callbacks. A `WduObCallback` keeps
 * a list of operation registrations; the two trampolines it hands to the
 * object manager run, in registration order, the callbacks of every
 * registration that matches the object type and the operation.
 */
module ObCallbacks {
  import opened Types
  import opened Wrappers
  import opened NtStatus
  import opened Callbacks

  const OB_OPERATION_HANDLE_CREATE: bv32 := 1
  const OB_OPERATION_HANDLE_DUPLICATE: bv32 := 2
  const OB_PREOP_SUCCESS: i32 := 0
  const OB_FLT_REGISTRATION_VERSION: u16 := 0x0100

  /** The trampolines `into_native` installs. */
  const PRE_OP_INTERNAL: FnPtr := FnPtr("WduObCallback::pre_op_internal")
  const POST_OP_INTERNAL: FnPtr := FnPtr("WduObCallback::post_op_internal")

  /** The handle operations whose parameters carry a desired access. */
  predicate IsHandleOperation(op: bv32)
  {
    op == OB_OPERATION_HANDLE_CREATE || op == OB_OPERATION_HANDLE_DUPLICATE
  }

  /** The addresses of PsProcessType, PsThreadType and ExDesktopObjectType. */
  datatype KernelObjectTypes = KernelObjectTypes(process: Ptr, thread: Ptr, desktop: Ptr)
  {
    predicate Distinct()
    {
      process != thread && process != desktop && thread != desktop
    }
  }

  /** `ObjectType`; `Default` is Unknown. */
  datatype ObjectType = Unknown | Process | Thread | Desktop

  function DefaultObjectType(): ObjectType
  {
    Unknown
  }

  /** `object_type`: the kernel type pointer compared against the three known ones, in order. */
  function ObjectTypeOf(p: Ptr, types: KernelObjectTypes): ObjectType
  {
    if p == types.process then Process
    else if p == types.thread then Thread
    else if p == types.desktop then Desktop
    else Unknown
  }

  /** `Into<*const POBJECT_TYPE>`; Unknown reaches `unreachable!()`. */
  function NativeObjectType(t: ObjectType, types: KernelObjectTypes): Ptr
    requires t != Unknown
  {
    match t
    case Process => types.process
    case Thread => types.thread
    case Desktop => types.desktop
  }

  /**
   * Converting a known type to the kernel's pointer and reading it back
   * gives the type again, so the two conversions agree; a pointer that is
   * none of the three reads back as Unknown.
   */
  lemma ObjectTypeRoundTrip(t: ObjectType, p: Ptr, types: KernelObjectTypes)
    requires types.Distinct()
    ensures t != Unknown ==> ObjectTypeOf(NativeObjectType(t, types), types) == t
    ensures ObjectTypeOf(p, types) == Unknown <==> p != types.process && p != types.thread && p != types.desktop
    ensures ObjectTypeOf(p, types) != Unknown ==> NativeObjectType(ObjectTypeOf(p, types), types) == p
  {
  }

  /**
   * The fields of OB_PRE_OPERATION_INFORMATION the wrapper touches. The
   * create and duplicate arms of the parameter union both start with
   * DesiredAccess and OriginalDesiredAccess, so each is one field here.
   */
  class PreOperationInfo {
    const operation: bv32
    const flags: bv32
    const objectType: Ptr
    const obj: Ptr
    const originalDesiredAccess: bv32
    var desiredAccess: bv32
    var callContext: Ptr

    /** `desired_access`: defined for the two handle operations, unreachable otherwise. */
    function DesiredAccess(): bv32
      requires IsHandleOperation(operation)
      reads this`desiredAccess
    {
      desiredAccess
    }

    /**
     * `original_desired_access`, which reads through the create arm for
     * both operations; with the shared layout that is the same field.
     */
    function OriginalDesiredAccess(): bv32
      requires IsHandleOperation(operation)
    {
      originalDesiredAccess
    }

    /** `set_desired_access`: then `desired_access` returns the value written. */
    method SetDesiredAccess(v: bv32)
      requires IsHandleOperation(operation)
      modifies this`desiredAccess
      ensures DesiredAccess() == v
    {
      desiredAccess := v;
    }

    /** `is_kernel_handle`: bit 0 of Flags. */
    function IsKernelHandle(): (k: bool)
      ensures k <==> flags & 1 != 0
    {
      flags & 1 == 1
    }

    /**
     * `set_context`: the object manager passes CallContext as null, which
     * the wrapper asserts; it then stores the boxed context `boxed`.
     */
    method SetContext(boxed: Ptr)
      requires callContext == NULL
      modifies this`callContext
      ensures callContext == boxed
    {
      callContext := boxed;
    }
  }

  /** The fields of OB_POST_OPERATION_INFORMATION the wrapper reads. */
  class PostOperationInfo {
    const operation: bv32
    const objectType: Ptr
    const obj: Ptr
    const returnStatus: NtStatus
    const callContext: Ptr
    const grantedAccess: bv32

    /** `call_context`: the context a pre-operation callback stored, if any. */
    function CallContext(): (c: Option<Ptr>)
      ensures c.None? <==> callContext == NULL
      ensures c.Some? ==> c.value == callContext
    {
      if callContext == NULL then None else Some(callContext)
    }

    function GrantedAccess(): bv32
      requires IsHandleOperation(operation)
    {
      grantedAccess
    }
  }

  /** `WduObOpRegistration`: the builder's value. */
  datatype WduObOpRegistration = WduObOpRegistration(obType: ObjectType, operations: bv32,
                                                     pre: Option<FnPtr>, post: Option<FnPtr>, context: Ptr)
  {
    function WithObType(t: ObjectType): WduObOpRegistration
    {
      this.(obType := t)
    }

    function WithOperations(ops: bv32): WduObOpRegistration
    {
      this.(operations := ops)
    }

    function WithPre(f: FnPtr): WduObOpRegistration
    {
      this.(pre := Some(f))
    }

    function WithPost(f: FnPtr): WduObOpRegistration
    {
      this.(post := Some(f))
    }

    function Build(): WduObOpRegistration
    {
      this
    }

    function SetContext(c: Ptr): WduObOpRegistration
    {
      this.(context := c)
    }
  }

  function DefaultRegistration(): WduObOpRegistration
  {
    WduObOpRegistration(DefaultObjectType(), 0, None, None, NULL)
  }

  /**
   * Each builder step sets its own field and no other, so a chain of them
   * yields exactly the values given, whatever the order of the steps.
   */
  lemma BuilderSetsFields(t: ObjectType, ops: bv32, pre: FnPtr, post: FnPtr, c: Ptr)
    ensures DefaultRegistration() == WduObOpRegistration(Unknown, 0, None, None, NULL)
    ensures DefaultRegistration().WithObType(t).WithOperations(ops).WithPre(pre).WithPost(post).SetContext(c).Build()
         == WduObOpRegistration(t, ops, Some(pre), Some(post), c)
    ensures DefaultRegistration().SetContext(c).WithPost(post).WithPre(pre).WithOperations(ops).WithObType(t)
         == DefaultRegistration().WithObType(t).WithOperations(ops).WithPre(pre).WithPost(post).SetContext(c)
  {
  }

  /** OB_OPERATION_REGISTRATION. */
  datatype NativeOpRegistration = NativeOpRegistration(objectType: Ptr, operations: bv32,
                                                       preOperation: Option<FnPtr>, postOperation: Option<FnPtr>)

  /** `into_native`: the registration as the object manager expects it. */
  function IntoNative(r: WduObOpRegistration, types: KernelObjectTypes): (n: NativeOpRegistration)
    requires r.obType != Unknown
    ensures n.preOperation.Some? <==> r.pre.Some?
    ensures n.postOperation.Some? <==> r.post.Some?
    ensures n.preOperation.Some? ==> n.preOperation.value == PRE_OP_INTERNAL
    ensures n.postOperation.Some? ==> n.postOperation.value == POST_OP_INTERNAL
    ensures n.operations == r.operations
  {
    var objectType := NativeObjectType(r.obType, types);
    var pre := if r.pre.Some? then Some(PRE_OP_INTERNAL) else None;
    var post := if r.post.Some? then Some(POST_OP_INTERNAL) else None;
    NativeOpRegistration(objectType, r.operations, pre, post)
  }

  /** The native registration names the object type it was built for. */
  lemma IntoNativeObjectType(r: WduObOpRegistration, types: KernelObjectTypes)
    requires r.obType != Unknown && types.Distinct()
    ensures ObjectTypeOf(IntoNative(r, types).objectType, types) == r.obType
  {
    ObjectTypeRoundTrip(r.obType, NULL, types);
  }

  /** OB_CALLBACK_REGISTRATION, without the altitude and the registration context. */
  datatype CallbackRegistration = CallbackRegistration(version: u16, count: u16, operations: seq<NativeOpRegistration>)

  /** One call a trampoline makes: the callback and the context it gets (None for a null context). */
  datatype Invocation = Invocation(callback: FnPtr, context: Option<Ptr>)

  /** Which of the two callbacks of a registration a trampoline looks at. */
  datatype Phase = Pre | Post

  function CallbackOf(r: WduObOpRegistration, phase: Phase): Option<FnPtr>
  {
    match phase
    case Pre => r.pre
    case Post => r.post
  }

  /** The filter both trampolines apply. */
  predicate Selected(r: WduObOpRegistration, t: ObjectType, op: bv32, phase: Phase)
  {
    r.obType == t && r.operations & op == op && CallbackOf(r, phase).Some?
  }

  function InvocationOf(r: WduObOpRegistration, phase: Phase): Invocation
    requires CallbackOf(r, phase).Some?
  {
    Invocation(CallbackOf(r, phase).value, if r.context == NULL then None else Some(r.context))
  }

  /** The calls a trampoline makes over `ops`, in order. */
  function Calls(ops: seq<WduObOpRegistration>, t: ObjectType, op: bv32, phase: Phase): seq<Invocation>
  {
    if |ops| == 0 then []
    else
      var last := ops[|ops| - 1];
      Calls(ops[..|ops| - 1], t, op, phase) + (if Selected(last, t, op, phase) then [InvocationOf(last, phase)] else [])
  }

  /** The calls over one registration: its callback exactly when it passes the filter. */
  lemma CallsOfOne(r: WduObOpRegistration, t: ObjectType, op: bv32, phase: Phase)
    ensures Calls([r], t, op, phase) == if Selected(r, t, op, phase) then [InvocationOf(r, phase)] else []
  {
    assert [r][..0] == [];
  }

  /**
   * The calls over two lists of registrations are the calls over the first
   * followed by the calls over the second: registration order is kept and
   * each registration is looked at on its own.
   */
  lemma {:induction false} CallsAppend(a: seq<WduObOpRegistration>, b: seq<WduObOpRegistration>,
                                       t: ObjectType, op: bv32, phase: Phase)
    ensures Calls(a + b, t, op, phase) == Calls(a, t, op, phase) + Calls(b, t, op, phase)
    decreases |b|
  {
    if |b| == 0 {
      assert a + b == a;
    } else {
      var b' := b[..|b| - 1];
      assert (a + b)[..|a + b| - 1] == a + b';
      assert (a + b)[|a + b| - 1] == b[|b| - 1];
      CallsAppend(a, b', t, op, phase);
    }
  }

  /** How many of `ops` pass the filter. */
  function CountSelected(ops: seq<WduObOpRegistration>, t: ObjectType, op: bv32, phase: Phase): nat
  {
    if |ops| == 0 then 0
    else CountSelected(ops[..|ops| - 1], t, op, phase) + (if Selected(ops[|ops| - 1], t, op, phase) then 1 else 0)
  }

  /**
   * No registration is called that fails the filter, and each one that
   * passes is called once: the number of calls is the number of selected
   * registrations, never more than there are registrations.
   */
  lemma {:induction false} CallsCount(ops: seq<WduObOpRegistration>, t: ObjectType, op: bv32, phase: Phase)
    ensures |Calls(ops, t, op, phase)| == CountSelected(ops, t, op, phase) <= |ops|
    ensures (forall i :: 0 <= i < |ops| ==> !Selected(ops[i], t, op, phase)) ==> Calls(ops, t, op, phase) == []
  {
    if |ops| > 0 {
      var init := ops[..|ops| - 1];
      CallsCount(init, t, op, phase);
      assert forall i :: 0 <= i < |init| ==> init[i] == ops[i];
    }
  }

  /** `WduObCallback`: the OS handle and the registrations pushed so far. */
  class WduObCallback {
    var handle: Ptr
    var operations: seq<WduObOpRegistration>

    /** `default`. */
    constructor ()
      ensures handle == NULL && operations == []
    {
      handle := NULL;
      operations := [];
    }

    method PushOpRegistration(r: WduObOpRegistration)
      modifies this`operations
      ensures operations == old(operations) + [r]
    {
      operations := operations + [r];
    }

    /**
     * `register`. `reserved` says whether the temporary vector could be
     * reserved; `osStatus` and `osHandle` are what ObRegisterCallbacks
     * returns and stores. `registration` is the block handed to it: one
     * native entry per pushed registration, and the count truncated to u16.
     * A registration of Unknown type reaches `unreachable!()`.
     */
    method Register(types: KernelObjectTypes, reserved: bool, osStatus: NtStatus, osHandle: Ptr)
      returns (r: Result<(), WduCallbackError>, registration: Option<CallbackRegistration>)
      requires forall i :: 0 <= i < |operations| ==> operations[i].obType != Unknown
      modifies this`handle
      ensures |operations| == 0 ==> r == Err(StatusError(STATUS_INVALID_PARAMETER)) && registration.None?
      ensures |operations| > 0 && !reserved ==> r == Err(InsufficientResources) && registration.None?
      ensures |operations| > 0 && reserved ==>
        && registration.Some?
        && registration.value.version == OB_FLT_REGISTRATION_VERSION
        && registration.value.count == |operations| % 0x1_0000
        && |registration.value.operations| == |operations|
        && (forall i :: 0 <= i < |operations| ==> registration.value.operations[i] == IntoNative(operations[i], types))
        && (r.Ok? <==> osStatus == STATUS_SUCCESS)
        && (r.Err? ==> r == Err(RegisterError(osStatus)))
      ensures handle == if r.Ok? then osHandle else old(handle)
    {
      registration := None;
      if |operations| == 0 {
        return Err(StatusError(STATUS_INVALID_PARAMETER)), registration;
      }
      if !reserved {
        return Err(InsufficientResources), registration;
      }
      var ops := operations;
      var natives := seq(|ops|, i requires 0 <= i < |ops| => IntoNative(ops[i], types));
      registration := Some(CallbackRegistration(OB_FLT_REGISTRATION_VERSION, |operations| % 0x1_0000, natives));
      if osStatus != STATUS_SUCCESS {
        return Err(RegisterError(osStatus)), registration;
      }
      handle := osHandle;
      r := Ok(());
    }

    /** `unregister`: `released` is the handle passed to ObUnRegisterCallbacks. */
    method Unregister() returns (r: Result<(), WduCallbackError>, released: Option<Ptr>)
      modifies this`handle
      ensures old(handle) == NULL ==> r == Err(UnregisterError(STATUS_INTERNAL_ERROR)) && released.None?
      ensures old(handle) != NULL ==> r == Ok(()) && released == Some(old(handle))
      ensures handle == NULL
    {
      if handle == NULL {
        return Err(UnregisterError(STATUS_INTERNAL_ERROR)), None;
      }
      released := Some(handle);
      handle := NULL;
      r := Ok(());
    }

    /**
     * `pre_op_internal`: the object manager passes this callback object as
     * the registration context. Returns the calls made, in order, and
     * OB_PREOP_SUCCESS.
     */
    method PreOpInternal(info: PreOperationInfo, types: KernelObjectTypes) returns (calls: seq<Invocation>, status: i32)
      ensures calls == Calls(operations, ObjectTypeOf(info.objectType, types), info.operation, Pre)
      ensures status == OB_PREOP_SUCCESS
    {
      calls := RunFiltered(operations, ObjectTypeOf(info.objectType, types), info.operation, Pre);
      status := OB_PREOP_SUCCESS;
    }

    /** `post_op_internal`: the same filter over the post-operation callbacks. */
    method PostOpInternal(info: PostOperationInfo, types: KernelObjectTypes) returns (calls: seq<Invocation>)
      ensures calls == Calls(operations, ObjectTypeOf(info.objectType, types), info.operation, Post)
    {
      calls := RunFiltered(operations, ObjectTypeOf(info.objectType, types), info.operation, Post);
    }
  }

  /** The `filter(..).for_each(..)` both trampolines run. */
  method RunFiltered(ops: seq<WduObOpRegistration>, t: ObjectType, op: bv32, phase: Phase) returns (calls: seq<Invocation>)
    ensures calls == Calls(ops, t, op, phase)
  {
    calls := [];
    var i := 0;
    while i < |ops|
      invariant 0 <= i <= |ops|
      invariant calls == Calls(ops[..i], t, op, phase)
    {
      assert ops[..i + 1][..i] == ops[..i];
      var r := ops[i];
      if Selected(r, t, op, phase) {
        var f := CallbackOf(r, phase).value;
        if r.context == NULL {
          calls := calls + [Invocation(f, None)];
        } else {
          calls := calls + [Invocation(f, Some(r.context))];
        }
      }
      i := i + 1;
    }
    assert ops[..|ops|] == ops;
  }

  /**
   * After pushing a registration, a trampoline makes the calls it made
   * before and then, if the new registration passes the filter, its call.
   */
  lemma CallsAfterPush(ops: seq<WduObOpRegistration>, r: WduObOpRegistration, t: ObjectType, op: bv32, phase: Phase)
    ensures Calls(ops + [r], t, op, phase)
         == Calls(ops, t, op, phase) + (if Selected(r, t, op, phase) then [InvocationOf(r, phase)] else [])
  {
    CallsAppend(ops, [r], t, op, phase);
    CallsOfOne(r, t, op, phase);
  }
}
