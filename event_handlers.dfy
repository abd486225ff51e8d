/**
 * examples/event/src/lib.rs, the handlers. Each one holds the queue lock
 * around its queue update; a locked section is one step here. What the
 * kernel returns (the rundown acquire, ObReferenceObjectByHandle,
 * KeCancelTimer) comes in as a parameter. The current stack location's
 * file object is passed in as `requestFile`, and the IRP's address (the
 * remove-lock tag) as `requestAddress`.
 */
module EventHandlers {
  import opened Types
  import opened Wrappers
  import opened NtStatus
  import opened Irql
  import opened IoIrp
  import opened Dpc
  import opened FileObj
  import opened RemoveLock
  import opened Spinlock
  import opened Ioctl = DeviceControl
  import opened DrvUtils
  import opened Vec
  import opened EventTypes
  import opened EventSpec

  /** The queue grew by exactly one record at its end. */
  predicate Pushed(before: seq<NotifyRecord>, after: seq<NotifyRecord>)
  {
    |after| == |before| + 1 && after[..|before|] == before
  }

  function Last(q: seq<NotifyRecord>): NotifyRecord
    requires |q| > 0
  {
    q[|q| - 1]
  }

  /** Creates the boxed record of a registration: DPC and timer initialised, timer armed. */
  method NewRecord(ty: NotifyType, ext: DeviceExtension, fo: EventFileObject, dueTime: i64) returns (r: NotifyRecord)
    ensures fresh(r.dpc)
    ensures Registered(r, ty, ext, fo, dueTime)
  {
    var data := NotifyData(ty, ext);
    var dpc := new WduDpc<NotifyData>();
    var due := NormalizeDueTime(dueTime);
    var timer := DEFAULT_TIMER.Init();
    dpc.Init(TIMER_DPC, Some(data));
    timer := timer.Set(due);
    r := NotifyRecord(dpc, timer, fo, data);
  }

  /**
   * `irp_notification`. The wrapper's slot is armed first, so the copy in
   * the record holds CANCEL_ROUTINE. A request the I/O manager has already
   * cancelled is refused; since the local copy's slot is armed, clearing it
   * always returns Some.
   */
  method IrpNotification(ext: DeviceExtension, irp: WduIrp, registerEvent: RegisterEvent,
                         requestFile: EventFileObject, cpu: Processor)
    returns (r: Result<NtStatus, EventError>)
    requires irp.irp != null && CurrentStackOk(irp.irp)
    requires cpu.irql <= DISPATCH_LEVEL
    requires WellFormedQueue(ext.eventQueue)
    modifies ext, ext.queueLock, irp.irp, cpu
    ensures cpu.irql == old(cpu.irql) && !ext.queueLock.held
    ensures WellFormedQueue(ext.eventQueue)
    ensures irp.irp.ioStatus == old(irp.irp.ioStatus) && irp.irp.completions == old(irp.irp.completions)
    ensures irp.irp.cancel ==> r == Err(Status(STATUS_CANCELLED)) && ext.eventQueue == old(ext.eventQueue)
    ensures irp.irp.cancel ==> irp.irp.cancelRoutine == None && irp.irp.driverContext == None
    ensures irp.irp.cancel ==> irp.irp.control == old(irp.irp.control)
    ensures !irp.irp.cancel ==> r == Ok(STATUS_PENDING)
    ensures !irp.irp.cancel ==> irp.irp.control == old(irp.irp.control) | SL_PENDING_RETURNED
    ensures !irp.irp.cancel ==> irp.irp.cancelRoutine == Some(CANCEL_TRAMPOLINE)
    ensures !irp.irp.cancel ==> irp.irp.driverContext == Some(irp.(cancel := Some(CANCEL_ROUTINE)))
    ensures !irp.irp.cancel ==> Pushed(old(ext.eventQueue), ext.eventQueue) && fresh(Last(ext.eventQueue).dpc)
    ensures !irp.irp.cancel ==>
      Registered(Last(ext.eventQueue), IrpBased(irp.(cancel := Some(CANCEL_ROUTINE))), ext, requestFile, registerEvent.dueTime)
  {
    var _, armed := irp.SetCancelRtn(Some(CANCEL_ROUTINE));
    var record := NewRecord(IrpBased(armed), ext, requestFile, registerEvent.dueTime);

    ext.queueLock.Acquire(cpu);
    if armed.IsCancel() {
      var prev, _ := armed.SetCancelRtn(None);
      if prev != None {
        ext.queueLock.Release(cpu);
        return Err(Status(STATUS_CANCELLED));
      }
    }
    armed.MarkPending();
    ext.eventQueue := ext.eventQueue + [record];
    ext.queueLock.Release(cpu);
    r := Ok(STATUS_PENDING);
  }

  /**
   * `event_notification`: the handle is referenced with the requestor's
   * mode, which is returned as `mode`; `refStatus` and `referenced` are the
   * status and object ObReferenceObjectByHandle produces.
   */
  method EventNotification(ext: DeviceExtension, irp: WduIrp, registerEvent: RegisterEvent,
                           requestFile: EventFileObject, refStatus: NtStatus, referenced: Ptr, cpu: Processor)
    returns (r: Result<NtStatus, EventError>, mode: ProcessorMode)
    requires irp.irp != null && (irp.irp.requestorMode == 0 || irp.irp.requestorMode == 1)
    requires cpu.irql <= DISPATCH_LEVEL
    requires WellFormedQueue(ext.eventQueue)
    modifies ext, ext.queueLock, cpu
    ensures mode == ModeFromI8(irp.irp.requestorMode)
    ensures cpu.irql == old(cpu.irql) && WellFormedQueue(ext.eventQueue)
    ensures refStatus != STATUS_SUCCESS ==> r == Err(Status(refStatus)) && ext.eventQueue == old(ext.eventQueue)
    ensures refStatus == STATUS_SUCCESS ==> r == Ok(STATUS_SUCCESS) && !ext.queueLock.held
    ensures refStatus == STATUS_SUCCESS ==> Pushed(old(ext.eventQueue), ext.eventQueue) && fresh(Last(ext.eventQueue).dpc)
    ensures refStatus == STATUS_SUCCESS ==>
      Registered(Last(ext.eventQueue), EventBased(WduEvent(referenced)), ext, requestFile, registerEvent.dueTime)
  {
    mode := ModeFromI8(irp.irp.requestorMode);
    var event := RefByHandle(refStatus, referenced);
    if event.Err? {
      return Err(FromWduError(event.error)), mode;
    }
    var record := NewRecord(EventBased(WduEvent(event.value)), ext, requestFile, registerEvent.dueTime);
    ext.queueLock.Acquire(cpu);
    ext.eventQueue := ext.eventQueue + [record];
    ext.queueLock.Release(cpu);
    r := Ok(STATUS_SUCCESS);
  }

  /**
   * `handle_register_event`: `contents` is what the input buffer holds when
   * it is large enough and not null. The queue changes exactly when the
   * registration succeeds.
   */
  method HandleRegisterEvent(ext: DeviceExtension, request: WduIrp, req: WduDeviceControl, contents: RegisterEvent,
                             requestFile: EventFileObject, refStatus: NtStatus, referenced: Ptr, cpu: Processor)
    returns (r: Result<NtStatus, EventError>)
    requires request.irp != null && CurrentStackOk(request.irp)
    requires contents.notifyType == EVENT_BASED ==> request.irp.requestorMode == 0 || request.irp.requestorMode == 1
    requires cpu.irql <= DISPATCH_LEVEL
    requires WellFormedQueue(ext.eventQueue)
    modifies ext, ext.queueLock, request.irp, cpu
    ensures r == RegisterResult(req, contents, request.irp.cancel, refStatus)
    ensures cpu.irql == old(cpu.irql) && WellFormedQueue(ext.eventQueue)
    ensures request.irp.ioStatus == old(request.irp.ioStatus) && request.irp.completions == old(request.irp.completions)
    ensures r.Err? ==> ext.eventQueue == old(ext.eventQueue)
    ensures r.Ok? ==> Pushed(old(ext.eventQueue), ext.eventQueue) && !ext.queueLock.held
    ensures r.Ok? && contents.notifyType == IRP_BASED ==>
      Registered(Last(ext.eventQueue), IrpBased(request.(cancel := Some(CANCEL_ROUTINE))), ext, requestFile, contents.dueTime)
    ensures r.Ok? && contents.notifyType == EVENT_BASED ==>
      Registered(Last(ext.eventQueue), EventBased(WduEvent(referenced)), ext, requestFile, contents.dueTime)
  {
    if req.inBufLen < REGISTER_EVENT_SIZE {
      return Err(Status(STATUS_INVALID_PARAMETER));
    }
    if req.InputBuffer() == NULL {
      return Err(Status(STATUS_INVALID_PARAMETER));
    }
    if contents.notifyType == IRP_BASED {
      r := IrpNotification(ext, request, contents, requestFile, cpu);
    } else if contents.notifyType == EVENT_BASED {
      var mode;
      r, mode := EventNotification(ext, request, contents, requestFile, refStatus, referenced, cpu);
    } else {
      r := Err(Status(STATUS_INVALID_PARAMETER));
    }
  }

  /**
   * `device_control`. A failed rundown acquire completes the request with
   * UNSUCCESSFUL and keeps the rundown's tag. Otherwise the request is
   * completed unless it was left pending, and the rundown is released.
   */
  method DeviceControl(ext: DeviceExtension, request: WduIrp, req: WduDeviceControl, contents: RegisterEvent,
                       requestFile: EventFileObject, requestAddress: u64, acquireStatus: NtStatus,
                       refStatus: NtStatus, referenced: Ptr, cpu: Processor)
    returns (status: NtStatus)
    requires request.irp != null && CurrentStackOk(request.irp)
    requires contents.notifyType == EVENT_BASED ==> request.irp.requestorMode == 0 || request.irp.requestorMode == 1
    requires requestFile.IsValid() && requestFile.Context().Some?
    requires cpu.irql <= DISPATCH_LEVEL
    requires WellFormedQueue(ext.eventQueue)
    modifies ext, ext.queueLock, request.irp, cpu, requestFile.Context().value.fileRundown
    ensures status == DeviceControlStatus(req.ioctl, acquireStatus,
                                          RegisterResult(req, contents, request.irp.cancel, refStatus))
    ensures cpu.irql == old(cpu.irql) && WellFormedQueue(ext.eventQueue)
    ensures status != STATUS_PENDING ==> request.irp.ioStatus == WduIoStatus(status, 0)
    ensures status != STATUS_PENDING ==> request.irp.completions == old(request.irp.completions) + 1
    ensures status == STATUS_PENDING ==> request.irp.ioStatus == old(request.irp.ioStatus)
    ensures status == STATUS_PENDING ==> request.irp.completions == old(request.irp.completions)
    ensures requestFile.Context().value.fileRundown.lockTag ==
      (if acquireStatus == STATUS_SUCCESS then None else Some(requestAddress))
    ensures acquireStatus != STATUS_SUCCESS || req.ioctl != IOCTL_REGISTER_EVENT ==> ext.eventQueue == old(ext.eventQueue)
    ensures acquireStatus == STATUS_SUCCESS && req.ioctl == IOCTL_REGISTER_EVENT ==>
      (RegisterResult(req, contents, request.irp.cancel, refStatus).Ok? <==> Pushed(old(ext.eventQueue), ext.eventQueue))
  {
    var ioStatus := NewIoStatus();
    var rundown := requestFile.Context().value.fileRundown;
    var acquired := rundown.Acquire(Some(requestAddress), acquireStatus);
    if acquired != STATUS_SUCCESS {
      request.Complete(ioStatus);
      return STATUS_UNSUCCESSFUL;
    }

    if req.ioctl == IOCTL_REGISTER_EVENT {
      var registered := HandleRegisterEvent(ext, request, req, contents, requestFile, refStatus, referenced, cpu);
      match registered {
        case Ok(s) => status := s;
        case Err(Status(s)) => status := s;
        case Err(_) => status := STATUS_UNSUCCESSFUL;
      }
    } else {
      status := STATUS_NOT_IMPLEMENTED;
    }

    if status != STATUS_PENDING {
      ioStatus := ioStatus.SetStatus(status);
      request.Complete(ioStatus);
    }
    var _ := rundown.Release();
  }

  /**
   * `cancel_routine`: the I/O manager's cancel lock is dropped (the IRQL
   * returns to CancelIrql), then the record of this IRP is removed and the
   * IRP completed as cancelled. `timerCancelled` is what the record's
   * `timer.cancel()` returns; it only selects a log line, and the removed
   * record is dropped, as `dropped`, whatever it was. A missing record
   * makes the `unwrap` panic, reported as `panicked`.
   */
  method CancelRoutine(ext: DeviceExtension, irp: WduIrp, timerCancelled: bool, cpu: Processor)
    returns (panicked: bool, dropped: Option<NotifyRecord>)
    requires irp.irp != null && irp.irp.cancelIrql <= DISPATCH_LEVEL
    requires WellFormedQueue(ext.eventQueue)
    modifies ext, ext.queueLock, irp.irp, cpu
    ensures var i := FirstIndex(old(ext.eventQueue), MatchesIrp(irp.irp));
      && (panicked <==> i.None?)
      && (!panicked ==> ext.eventQueue == SwapRemove(old(ext.eventQueue), i.value))
      && (!panicked ==> dropped == Some(old(ext.eventQueue)[i.value]))
    ensures panicked <==> CancelSection(old(ext.eventQueue), irp.irp, timerCancelled).None?
    ensures !panicked ==> CancelSection(old(ext.eventQueue), irp.irp, timerCancelled) == Some(CancelOutcome(ext.eventQueue, dropped, None))
    ensures WellFormedQueue(ext.eventQueue)
    ensures panicked ==> ext.eventQueue == old(ext.eventQueue) && irp.irp.completions == old(irp.irp.completions)
    ensures !panicked ==> irp.irp.ioStatus == NewWithStatus(STATUS_CANCELLED)
    ensures !panicked ==> irp.irp.completions == old(irp.irp.completions) + 1
    ensures !panicked ==> cpu.irql == irp.irp.cancelIrql && !ext.queueLock.held
  {
    irp.ReleaseCancelLock(cpu);
    ext.queueLock.Acquire(cpu);
    var index := Position(ext.eventQueue, MatchesIrp(irp.irp));
    if index.None? {
      return true, None;
    }
    dropped := Some(ext.eventQueue[index.value]);
    SwapRemoveWellFormed(ext.eventQueue, index.value);
    ext.eventQueue := SwapRemove(ext.eventQueue, index.value);
    ext.queueLock.Release(cpu);
    irp.Complete(NewWithStatus(STATUS_CANCELLED));
    panicked := false;
  }

  /** How `timer_dpc` leaves its first locked section. */
  datatype DpcStep = Finished | Resume(index: nat)

  /** The objects the first part of `timer_dpc` may write, besides the DPC. */
  function DpcFrame(data: NotifyData): set<object>
  {
    (if data.extension == null then {} else {data.extension, data.extension.queueLock})
    + (if data.ty.IrpBased? && data.ty.irp.irp != null then {data.ty.irp.irp} else {})
  }

  /**
   * `timer_dpc` up to the release before the IRP is completed. The record
   * is looked up by `NotifyData` equality with the DPC's own copy. An event
   * record is signalled and dereferenced (reported as `signalled` and
   * `dereferenced`) and removed.
   * An IRP record has the DPC copy's slot cleared; if it was armed the IRP
   * is completed with success and the step resumes with the index found,
   * otherwise the record stays for the cancel routine.
   */
  method TimerDpcBegin(dpc: EventDpc, cpu: Processor)
    returns (step: DpcStep, signalled: Option<WduEvent>, dereferenced: Option<WduEvent>)
    requires dpc.context.Some?
    requires dpc.context.value.ty.IrpBased? ==> dpc.context.value.ty.irp.irp != null
    requires cpu.irql >= DISPATCH_LEVEL
    modifies dpc, DpcFrame(dpc.context.value)
    ensures var data := old(dpc.context.value);
      data.extension == null ==> step == Finished && signalled == None && dpc.context == old(dpc.context)
    ensures dereferenced == signalled
    ensures var data := old(dpc.context.value);
      data.extension != null ==> !data.extension.queueLock.held
    ensures var data := old(dpc.context.value); var ext := data.extension;
      ext != null && FirstIndex(old(ext.eventQueue), MatchesData(data)).None? ==>
        step == Finished && signalled == None && ext.eventQueue == old(ext.eventQueue) && dpc.context == old(dpc.context)
    ensures var data := old(dpc.context.value); var ext := data.extension;
      var i := if ext == null then None else FirstIndex(old(ext.eventQueue), MatchesData(data));
      i.Some? && data.ty.EventBased? ==>
        && step == Finished && signalled == Some(data.ty.event)
        && ext.eventQueue == SwapRemove(old(ext.eventQueue), i.value)
    ensures var data := old(dpc.context.value); var ext := data.extension;
      var i := if ext == null then None else FirstIndex(old(ext.eventQueue), MatchesData(data));
      i.Some? && data.ty.IrpBased? ==>
        && signalled == None && ext.eventQueue == old(ext.eventQueue)
        && dpc.context == Some(data.(ty := IrpBased(data.ty.irp.(cancel := None))))
        && data.ty.irp.irp.cancelRoutine == None && data.ty.irp.irp.driverContext == None
        && (data.ty.irp.cancel.Some? ==> step == Resume(i.value))
        && (data.ty.irp.cancel.Some? ==> data.ty.irp.irp.ioStatus == SuccessNoInfo())
        && (data.ty.irp.cancel.Some? ==> data.ty.irp.irp.completions == old(data.ty.irp.irp.completions) + 1)
        && (data.ty.irp.cancel.None? ==> step == Finished)
        && (data.ty.irp.cancel.None? ==> data.ty.irp.irp.completions == old(data.ty.irp.irp.completions))
  {
    var data := dpc.context.value;
    signalled, dereferenced := None, None;
    if data.extension == null {
      return Finished, None, None;
    }
    var ext := data.extension;
    ext.queueLock.AcquireAtDpc(cpu);
    var index := Position(ext.eventQueue, MatchesData(data));
    if index.None? {
      ext.queueLock.ReleaseFromDpc(cpu);
      return Finished, None, None;
    }
    match data.ty {
      case IrpBased(irp) =>
        var prev, cleared := irp.SetCancelRtn(None);
        dpc.context := Some(data.(ty := IrpBased(cleared)));
        if prev.Some? {
          ext.queueLock.ReleaseFromDpc(cpu);
          cleared.Complete(SuccessNoInfo());
          return Resume(index.value), None, None;
        }
        ext.queueLock.ReleaseFromDpc(cpu);
        step := Finished;
      case EventBased(evt) =>
        signalled := Some(evt);
        dereferenced := Some(evt);
        ext.eventQueue := SwapRemove(ext.eventQueue, index.value);
        ext.queueLock.ReleaseFromDpc(cpu);
        step := Finished;
    }
  }

  /**
   * `timer_dpc` after the IRP was completed: the lock is taken again and
   * the record at the index found in the first section is removed. The
   * index is not checked against the queue as it is now; `swap_remove`
   * panics when it is out of bounds.
   */
  method TimerDpcEnd(ext: DeviceExtension, index: nat, cpu: Processor) returns (panicked: bool)
    requires cpu.irql >= DISPATCH_LEVEL
    modifies ext, ext.queueLock
    ensures panicked <==> index >= |old(ext.eventQueue)|
    ensures panicked ==> ext.eventQueue == old(ext.eventQueue)
    ensures !panicked ==> ext.eventQueue == SwapRemove(old(ext.eventQueue), index) && !ext.queueLock.held
  {
    ext.queueLock.AcquireAtDpc(cpu);
    if index >= |ext.eventQueue| {
      return true;
    }
    ext.eventQueue := SwapRemove(ext.eventQueue, index);
    ext.queueLock.ReleaseFromDpc(cpu);
    panicked := false;
  }

  /**
   * The whole of `timer_dpc` when nothing else touches the queue while the
   * IRP is being completed: the record found is the one removed, and the
   * stale index cannot go out of bounds.
   */
  method TimerDpc(dpc: EventDpc, cpu: Processor) returns (signalled: Option<WduEvent>, panicked: bool)
    requires dpc.context.Some?
    requires dpc.context.value.ty.IrpBased? ==> dpc.context.value.ty.irp.irp != null
    requires cpu.irql >= DISPATCH_LEVEL
    modifies dpc, DpcFrame(dpc.context.value)
    ensures !panicked
    ensures var data := old(dpc.context.value); var ext := data.extension;
      ext != null && FirstIndex(old(ext.eventQueue), MatchesData(data)).Some?
      && (data.ty.EventBased? || data.ty.irp.cancel.Some?) ==>
        ext.eventQueue == SwapRemove(old(ext.eventQueue), FirstIndex(old(ext.eventQueue), MatchesData(data)).value)
  {
    var data := dpc.context.value;
    var step, dereferenced;
    step, signalled, dereferenced := TimerDpcBegin(dpc, cpu);
    panicked := false;
    if step.Resume? {
      panicked := TimerDpcEnd(data.extension, step.index, cpu);
    }
  }

  /** `driver_unload` asserts that no registration is left in the queue. */
  method DriverUnload(ext: DeviceExtension) returns (panicked: bool)
    ensures panicked <==> |ext.eventQueue| > 0
  {
    panicked := !(ext.eventQueue == []);
  }

  /** One call of the `retain_mut` closure; `timerCancelled` is what `timer.cancel()` returns if it is asked. */
  method VisitForCleanup(x: NotifyRecord, fo: EventFileObject, timerCancelled: bool) returns (v: VisitOutcome)
    requires x.data.ty.IrpBased? ==> x.data.ty.irp.irp != null
    modifies TouchedBy(x, fo, timerCancelled)`cancelRoutine, TouchedBy(x, fo, timerCancelled)`driverContext
    ensures v == CleanupVisit(x, fo, timerCancelled)
    ensures Visits(x, fo, timerCancelled) && x.data.ty.IrpBased? ==>
      x.data.ty.irp.irp.cancelRoutine == None && x.data.ty.irp.irp.driverContext == None
  {
    if x.fileObject != fo && !timerCancelled {
      return VisitOutcome(Some(x), None, None);
    }
    match x.data.ty {
      case IrpBased(irp) =>
        var prev, cleared := irp.SetCancelRtn(None);
        if prev.None? {
          v := VisitOutcome(None, Some(cleared), None);
        } else {
          v := VisitOutcome(Some(x.(data := x.data.(ty := IrpBased(cleared)))), None, None);
        }
      case EventBased(evt) =>
        v := VisitOutcome(None, None, Some(evt));
    }
  }

  /** The CancelRoutine and DriverContext of an IRP. */
  type CancelFields = (Option<FnPtr>, Option<WduIrp>)

  /**
   * Of the IRPs `irps`, those in `touched` have both fields cleared and the
   * others still hold what `before` recorded.
   */
  ghost predicate ClearedExactly(irps: set<Irp>, touched: set<Irp>, before: map<Irp, CancelFields>)
    reads irps
  {
    forall o :: o in irps ==>
      && o in before
      && (if o in touched then o.cancelRoutine == None && o.driverContext == None
          else (o.cancelRoutine, o.driverContext) == before[o])
  }

  /** What `retain_mut` has produced and which IRPs it has cleared after the first `n` records. */
  ghost predicate RetainedUpTo(q: seq<NotifyRecord>, fo: EventFileObject, cancels: seq<bool>, n: nat,
                               r: CleanupResult, touched: set<Irp>)
  {
    n <= |q| && n <= |cancels| && r == CleanupUpTo(q, fo, cancels, n) && touched == TouchedUpTo(q, fo, cancels, n)
  }

  /** One iteration of `retain_mut`: the closure on record `i` and the record's place in the result. */
  method RetainStep(q: seq<NotifyRecord>, fo: EventFileObject, cancels: seq<bool>, i: nat, r: CleanupResult,
                    ghost irps: set<Irp>, ghost before: map<Irp, CancelFields>, ghost touched: set<Irp>)
    returns (next: CleanupResult, ghost touchedNext: set<Irp>)
    requires i < |q| && i < |cancels| && WellFormedQueue(q)
    requires RetainedUpTo(q, fo, cancels, i, r, touched)
    requires TouchedBy(q[i], fo, cancels[i]) <= irps
    requires ClearedExactly(irps, touched, before)
    modifies TouchedBy(q[i], fo, cancels[i])`cancelRoutine, TouchedBy(q[i], fo, cancels[i])`driverContext
    ensures RetainedUpTo(q, fo, cancels, i + 1, next, touchedNext)
    ensures ClearedExactly(irps, touchedNext, before)
  {
    touchedNext := touched + TouchedBy(q[i], fo, cancels[i]);
    var v := VisitForCleanup(q[i], fo, cancels[i]);
    next := r.Extend(v);
  }

  /** The iteration of `retain_mut` over the queue `q`, record by record. */
  method RetainLoop(q: seq<NotifyRecord>, fo: EventFileObject, cancels: seq<bool>) returns (r: CleanupResult)
    requires |cancels| == |q| && WellFormedQueue(q)
    modifies QueueIrps(q)`cancelRoutine, QueueIrps(q)`driverContext
    ensures r == CleanupUpTo(q, fo, cancels, |q|)
    ensures forall o :: o in TouchedUpTo(q, fo, cancels, |q|) ==> o.cancelRoutine == None && o.driverContext == None
    ensures forall o :: o in QueueIrps(q) && o !in TouchedUpTo(q, fo, cancels, |q|) ==>
      o.cancelRoutine == old(o.cancelRoutine) && o.driverContext == old(o.driverContext)
  {
    ghost var irps := QueueIrps(q);
    ghost var before: map<Irp, CancelFields> := map o: Irp | o in irps :: (o.cancelRoutine, o.driverContext);
    r := CleanupResult([], [], []);
    var i := 0;
    ghost var t: set<Irp> := {};
    while i < |q|
      invariant 0 <= i <= |q|
      invariant RetainedUpTo(q, fo, cancels, i, r, t)
      invariant ClearedExactly(irps, t, before)
    {
      TouchedByInQueue(q, fo, cancels[i], i);
      r, t := RetainStep(q, fo, cancels, i, r, irps, before, t);
      i := i + 1;
    }
    TouchedInQueue(q, fo, cancels, |q|);
    IrpsBelowIsUpTo(q, |q|);
  }

  /**
   * The `retain_mut` of `cleanup`, under the queue lock. `cancels[k]` is
   * what the k-th record's `timer.cancel()` returns if it is asked. Each IRP
   * the closure takes has its CancelRoutine and DriverContext cleared.
   */
  method RetainForCleanup(ext: DeviceExtension, fo: EventFileObject, cancels: seq<bool>)
    returns (collected: seq<WduIrp>, dereferenced: seq<WduEvent>)
    requires |cancels| == |ext.eventQueue|
    requires WellFormedQueue(ext.eventQueue)
    modifies ext`eventQueue, QueueIrps(ext.eventQueue)`cancelRoutine, QueueIrps(ext.eventQueue)`driverContext
    ensures var r := CleanupUpTo(old(ext.eventQueue), fo, cancels, |cancels|);
      ext.eventQueue == r.kept && collected == r.collected && dereferenced == r.dereferenced
    ensures forall o :: o in TouchedUpTo(old(ext.eventQueue), fo, cancels, |cancels|) ==>
      o.cancelRoutine == None && o.driverContext == None
    ensures forall o :: o in QueueIrps(old(ext.eventQueue)) && o !in TouchedUpTo(old(ext.eventQueue), fo, cancels, |cancels|) ==>
      o.cancelRoutine == old(o.cancelRoutine) && o.driverContext == old(o.driverContext)
  {
    var r := RetainLoop(ext.eventQueue, fo, cancels);
    ext.eventQueue := r.kept;
    collected, dereferenced := r.collected, r.dereferenced;
  }

  /** The `for_each` of `cleanup`: every collected IRP is completed as cancelled, once per occurrence. */
  method CompleteCancelled(collected: seq<WduIrp>, ghost irps: set<Irp>)
    requires forall k :: 0 <= k < |collected| ==> collected[k].irp in irps
    modifies irps`ioStatus, irps`completions
    ensures forall o :: o in irps ==> o.completions == old(o.completions) + OccUpTo(collected, o, |collected|)
    ensures forall o :: o in irps ==>
      o.ioStatus == if OccUpTo(collected, o, |collected|) > 0 then NewWithStatus(STATUS_CANCELLED) else old(o.ioStatus)
  {
    var j := 0;
    while j < |collected|
      invariant 0 <= j <= |collected|
      invariant forall o :: o in irps ==> o.completions == old(o.completions) + OccUpTo(collected, o, j)
      invariant forall o :: o in irps ==>
        o.ioStatus == if OccUpTo(collected, o, j) > 0 then NewWithStatus(STATUS_CANCELLED) else old(o.ioStatus)
    {
      var ioStatus := NewIoStatus().SetStatus(STATUS_CANCELLED);
      collected[j].Complete(ioStatus);
      j := j + 1;
    }
  }

  /** The locked section of `cleanup`: the queue lock brackets the `retain_mut`. */
  method LockedRetain(ext: DeviceExtension, fo: EventFileObject, cancels: seq<bool>, cpu: Processor)
    returns (collected: seq<WduIrp>, dereferenced: seq<WduEvent>)
    requires |cancels| == |ext.eventQueue| && WellFormedQueue(ext.eventQueue)
    requires cpu.irql <= DISPATCH_LEVEL
    modifies ext, ext.queueLock, cpu, QueueIrps(ext.eventQueue)`cancelRoutine, QueueIrps(ext.eventQueue)`driverContext
    ensures var r := CleanupUpTo(old(ext.eventQueue), fo, cancels, |cancels|);
      ext.eventQueue == r.kept && collected == r.collected && dereferenced == r.dereferenced
    ensures WellFormedQueue(ext.eventQueue)
    ensures forall k :: 0 <= k < |collected| ==> collected[k].irp in QueueIrps(old(ext.eventQueue))
    ensures TouchedUpTo(old(ext.eventQueue), fo, cancels, |cancels|) <= QueueIrps(old(ext.eventQueue))
    ensures cpu.irql == old(cpu.irql) && !ext.queueLock.held
    ensures forall o :: o in TouchedUpTo(old(ext.eventQueue), fo, cancels, |cancels|) ==>
      o.cancelRoutine == None && o.driverContext == None
    ensures forall o :: o in QueueIrps(old(ext.eventQueue)) && o !in TouchedUpTo(old(ext.eventQueue), fo, cancels, |cancels|) ==>
      o.cancelRoutine == old(o.cancelRoutine) && o.driverContext == old(o.driverContext)
  {
    ghost var q := ext.eventQueue;
    IrpsBelowIsUpTo(q, |q|);
    CleanupResultFromQueue(q, fo, cancels, |q|);
    TouchedInQueue(q, fo, cancels, |q|);
    ext.queueLock.Acquire(cpu);
    collected, dereferenced := RetainForCleanup(ext, fo, cancels);
    ext.queueLock.Release(cpu);
  }

  /** The end of `cleanup`, after the lock is released: the collected IRPs, then the request itself. */
  method CompleteAfterCleanup(completed: seq<WduIrp>, ghost irps: set<Irp>, request: WduIrp)
    requires forall k :: 0 <= k < |completed| ==> completed[k].irp in irps
    modifies irps`ioStatus, irps`completions
    modifies if request.irp == null then {} else {request.irp}`ioStatus
    modifies if request.irp == null then {} else {request.irp}`completions
    ensures forall o :: o in irps && o != request.irp ==>
      o.completions == old(o.completions) + OccUpTo(completed, o, |completed|)
    ensures forall o :: o in irps && o != request.irp ==>
      o.ioStatus == if OccUpTo(completed, o, |completed|) > 0 then NewWithStatus(STATUS_CANCELLED) else old(o.ioStatus)
    ensures request.irp != null ==> request.irp.ioStatus == SuccessNoInfo()
    ensures request.irp != null && request.irp !in irps ==>
      request.irp.completions == old(request.irp.completions) + 1
    ensures request.irp != null && request.irp in irps ==>
      request.irp.completions == old(request.irp.completions) + 1 + OccUpTo(completed, request.irp, |completed|)
  {
    CompleteCancelled(completed, irps);
    request.Complete(SuccessNoInfo());
  }

  /** `cleanup` once the rundown is drained: the queue is filtered under the lock, then the IRPs are completed. */
  method FilterAndComplete(ext: DeviceExtension, request: WduIrp, fileObj: EventFileObject, cancels: seq<bool>, cpu: Processor)
    returns (completed: seq<WduIrp>, dereferenced: seq<WduEvent>)
    requires |cancels| == |ext.eventQueue| && WellFormedQueue(ext.eventQueue)
    requires cpu.irql <= DISPATCH_LEVEL
    modifies ext, ext.queueLock, cpu
    modifies QueueIrps(ext.eventQueue)`cancelRoutine, QueueIrps(ext.eventQueue)`driverContext
    modifies QueueIrps(ext.eventQueue)`ioStatus, QueueIrps(ext.eventQueue)`completions
    modifies if request.irp == null then {} else {request.irp}`ioStatus
    modifies if request.irp == null then {} else {request.irp}`completions
    ensures var r := CleanupUpTo(old(ext.eventQueue), fileObj, cancels, |cancels|);
      ext.eventQueue == r.kept && completed == r.collected && dereferenced == r.dereferenced
    ensures WellFormedQueue(ext.eventQueue)
    ensures cpu.irql == old(cpu.irql) && !ext.queueLock.held
    ensures forall o :: o in TouchedUpTo(old(ext.eventQueue), fileObj, cancels, |cancels|) ==>
      o.cancelRoutine == None && o.driverContext == None
    ensures forall o :: o in QueueIrps(old(ext.eventQueue)) && o !in TouchedUpTo(old(ext.eventQueue), fileObj, cancels, |cancels|) ==>
      o.cancelRoutine == old(o.cancelRoutine) && o.driverContext == old(o.driverContext)
    ensures forall o :: o in QueueIrps(old(ext.eventQueue)) && o != request.irp ==>
      o.completions == old(o.completions) + OccUpTo(completed, o, |completed|)
    ensures forall o :: o in QueueIrps(old(ext.eventQueue)) && o != request.irp ==>
      o.ioStatus == if OccUpTo(completed, o, |completed|) > 0 then NewWithStatus(STATUS_CANCELLED) else old(o.ioStatus)
    ensures request.irp != null ==> request.irp.ioStatus == SuccessNoInfo()
    ensures request.irp != null && request.irp !in QueueIrps(old(ext.eventQueue)) ==>
      request.irp.completions == old(request.irp.completions) + 1
    ensures request.irp != null && request.irp in QueueIrps(old(ext.eventQueue)) ==>
      request.irp.completions == old(request.irp.completions) + 1 + OccUpTo(completed, request.irp, |completed|)
  {
    ghost var irps := QueueIrps(ext.eventQueue);
    completed, dereferenced := LockedRetain(ext, fileObj, cancels, cpu);
    CompleteAfterCleanup(completed, irps, request);
  }

  /**
   * `cleanup`: the file object's rundown is acquired (the assertion that
   * this succeeds is a precondition) and drained, the queue is filtered
   * under the lock, the collected IRPs are completed as cancelled, and the
   * request itself is completed with success.
   */
  method Cleanup(ext: DeviceExtension, request: WduIrp, fileObj: EventFileObject, requestAddress: u64,
                 acquireStatus: NtStatus, cancels: seq<bool>, cpu: Processor)
    returns (completed: seq<WduIrp>, dereferenced: seq<WduEvent>)
    requires fileObj.IsValid() && fileObj.Context().Some?
    requires acquireStatus == STATUS_SUCCESS
    requires |cancels| == |ext.eventQueue| && WellFormedQueue(ext.eventQueue)
    requires cpu.irql <= DISPATCH_LEVEL
    modifies ext, ext.queueLock, cpu, fileObj.Context().value.fileRundown
    modifies QueueIrps(ext.eventQueue)`cancelRoutine, QueueIrps(ext.eventQueue)`driverContext
    modifies QueueIrps(ext.eventQueue)`ioStatus, QueueIrps(ext.eventQueue)`completions
    modifies if request.irp == null then {} else {request.irp}`ioStatus
    modifies if request.irp == null then {} else {request.irp}`completions
    ensures var r := CleanupUpTo(old(ext.eventQueue), fileObj, cancels, |cancels|);
      ext.eventQueue == r.kept && completed == r.collected && dereferenced == r.dereferenced
    ensures WellFormedQueue(ext.eventQueue)
    ensures cpu.irql == old(cpu.irql) && !ext.queueLock.held
    ensures fileObj.Context().value.fileRundown.lockTag == None
    ensures forall o :: o in TouchedUpTo(old(ext.eventQueue), fileObj, cancels, |cancels|) ==>
      o.cancelRoutine == None && o.driverContext == None
    ensures forall o :: o in QueueIrps(old(ext.eventQueue)) && o !in TouchedUpTo(old(ext.eventQueue), fileObj, cancels, |cancels|) ==>
      o.cancelRoutine == old(o.cancelRoutine) && o.driverContext == old(o.driverContext)
    ensures forall o :: o in QueueIrps(old(ext.eventQueue)) && o != request.irp ==>
      o.completions == old(o.completions) + OccUpTo(completed, o, |completed|)
    ensures forall o :: o in QueueIrps(old(ext.eventQueue)) && o != request.irp ==>
      o.ioStatus == if OccUpTo(completed, o, |completed|) > 0 then NewWithStatus(STATUS_CANCELLED) else old(o.ioStatus)
    ensures request.irp != null ==> request.irp.ioStatus == SuccessNoInfo()
    ensures request.irp != null && request.irp !in QueueIrps(old(ext.eventQueue)) ==>
      request.irp.completions == old(request.irp.completions) + 1
    ensures request.irp != null && request.irp in QueueIrps(old(ext.eventQueue)) ==>
      request.irp.completions == old(request.irp.completions) + 1 + OccUpTo(completed, request.irp, |completed|)
  {
    var rundown := fileObj.Context().value.fileRundown;
    var status := rundown.Acquire(Some(requestAddress), acquireStatus);
    var _ := rundown.ReleaseAndWait();
    completed, dereferenced := FilterAndComplete(ext, request, fileObj, cancels, cpu);
  }
}
