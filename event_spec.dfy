/**
 * examples/event/src/lib.rs, the pure part: record identity, the due-time
 * rule, the status each handler returns, and the `retain_mut` closure of
 * `cleanup` with the queue it produces.
 */
module EventSpec {
  import opened Types
  import opened Wrappers
  import opened NtStatus
  import opened IoIrp
  import opened DeviceControl
  import opened EventTypes
  import opened Vec

  /**
   * Both registration handlers make a positive `due_time` negative before
   * arming the timer (a negative due time is relative to now). Negating a
   * positive i64 cannot overflow.
   */
  function NormalizeDueTime(d: i64): (r: i64)
    ensures r <= 0
  {
    if d > 0 then -d else d
  }

  /** The timer is always armed relative, with the requested magnitude, and a relative time passes through. */
  lemma DueTimeIsRelative(d: i64)
    ensures NormalizeDueTime(d) <= 0
    ensures d <= 0 ==> NormalizeDueTime(d) == d
    ensures d > 0 ==> NormalizeDueTime(d) == -d
    ensures NormalizeDueTime(NormalizeDueTime(d)) == NormalizeDueTime(d)
  {
  }

  /**
   * `NotifyData::eq`: the same variant wrapping the same IRP or KEVENT
   * pointer. The extension and the IRP wrapper's cancel slot are ignored.
   */
  predicate Same(a: NotifyData, b: NotifyData)
  {
    match a.ty
    case IrpBased(irp) => b.ty.IrpBased? && b.ty.irp.irp == irp.irp
    case EventBased(event) => b.ty.EventBased? && b.ty.event.event == event.event
  }

  /** `eq` is an equivalence relation, so `position(|x| &x.data == data)` is well defined. */
  lemma SameIsEquivalence(a: NotifyData, b: NotifyData, c: NotifyData)
    ensures Same(a, a)
    ensures Same(a, b) ==> Same(b, a)
    ensures Same(a, b) && Same(b, c) ==> Same(a, c)
  {
  }

  /** Two copies that differ only in extension or cancel slot compare equal; two variants never do. */
  lemma SameIgnoresCopyState(a: NotifyData, ext: DeviceExtension?, c: Option<FnPtr>)
    ensures Same(a, a.(extension := ext))
    ensures a.ty.IrpBased? ==> Same(a, a.(ty := IrpBased(a.ty.irp.(cancel := c))))
    ensures forall b: NotifyData :: a.ty.IrpBased? != b.ty.IrpBased? ==> !Same(a, b)
  {
  }

  /** The search `timer_dpc` makes for its own record. */
  function MatchesData(data: NotifyData): NotifyRecord -> bool
  {
    (x: NotifyRecord) => Same(x.data, data)
  }

  /** The search `cancel_routine` makes: an IRP record for the same IRP. */
  function MatchesIrp(irp: Irp?): NotifyRecord -> bool
  {
    (x: NotifyRecord) => x.data.ty.IrpBased? && x.data.ty.irp.irp == irp
  }

  /** A cancel-routine lookup and a DPC lookup with an IRP-based key find the same record. */
  lemma MatchesIrpIsMatchesData(q: seq<NotifyRecord>, w: WduIrp, ext: DeviceExtension?)
    ensures FirstIndex(q, MatchesIrp(w.irp)) == FirstIndex(q, MatchesData(NotifyData(IrpBased(w), ext)))
  {
    assert forall x :: MatchesIrp(w.irp)(x) == MatchesData(NotifyData(IrpBased(w), ext))(x);
    FirstIndexSamePredicate(q, MatchesIrp(w.irp), MatchesData(NotifyData(IrpBased(w), ext)));
  }

  /** Every IRP record of a queue the handlers maintain refers to a real IRP. */
  predicate WellFormedQueue(q: seq<NotifyRecord>)
  {
    forall k :: 0 <= k < |q| ==> (q[k].data.ty.IrpBased? ==> q[k].data.ty.irp.irp != null)
  }

  /** Removing a record keeps the queue well formed. */
  lemma SwapRemoveWellFormed(q: seq<NotifyRecord>, i: nat)
    requires i < |q| && WellFormedQueue(q)
    ensures WellFormedQueue(SwapRemove(q, i))
  {
    var r := SwapRemove(q, i);
    forall k | 0 <= k < |r|
      ensures r[k].data.ty.IrpBased? ==> r[k].data.ty.irp.irp != null
    {
      if k == i {
        assert r[k] == q[|q| - 1];
      } else {
        assert r[k] == q[k];
      }
    }
  }

  /**
   * What the locked section of `cancel_routine` leaves: the queue, the
   * record that is dropped there (its KTIMER and KDPC with it), and the
   * record left for a timer DPC that could not be cancelled, if any.
   */
  datatype CancelOutcome = CancelOutcome(queue: seq<NotifyRecord>, dropped: Option<NotifyRecord>, leftToDpc: Option<NotifyRecord>)

  /**
   * The locked section of `cancel_routine` as written. `timerCancelled` is
   * what `timer.cancel()` returns for the removed record; it only selects a
   * log line, so the record is dropped either way. None when the IRP has no
   * record, where the `unwrap` panics.
   */
  function CancelSection(q: seq<NotifyRecord>, irp: Irp?, timerCancelled: bool): Option<CancelOutcome>
  {
    match FirstIndex(q, MatchesIrp(irp))
    case None => None
    case Some(i) => Some(CancelOutcome(SwapRemove(q, i), Some(q[i]), None))
  }

  /**
   * The result of `handle_register_event` (and of the two registration
   * handlers it forwards to). `irpCancelled` is Irp->Cancel and
   * `refStatus` what ObReferenceObjectByHandle returns.
   */
  function RegisterResult(req: WduDeviceControl, contents: RegisterEvent, irpCancelled: bool, refStatus: NtStatus)
    : Result<NtStatus, EventError>
  {
    if req.inBufLen < REGISTER_EVENT_SIZE then Err(Status(STATUS_INVALID_PARAMETER))
    else if req.InputBuffer() == NULL then Err(Status(STATUS_INVALID_PARAMETER))
    else if contents.notifyType == IRP_BASED then
      if irpCancelled then Err(Status(STATUS_CANCELLED)) else Ok(STATUS_PENDING)
    else if contents.notifyType == EVENT_BASED then
      if refStatus != STATUS_SUCCESS then Err(Status(refStatus)) else Ok(STATUS_SUCCESS)
    else Err(Status(STATUS_INVALID_PARAMETER))
  }

  /** Whether the request is well formed enough to reach one of the two registration handlers. */
  predicate ReachesHandler(req: WduDeviceControl, contents: RegisterEvent)
  {
    req.inBufLen >= REGISTER_EVENT_SIZE && req.InputBuffer() != NULL
    && (contents.notifyType == IRP_BASED || contents.notifyType == EVENT_BASED)
  }

  /**
   * A short buffer, a null buffer or an unknown notification type is an
   * invalid parameter; otherwise a registration succeeds with PENDING for
   * an IRP that is not cancelled and with SUCCESS for a referenced event,
   * and fails with the kernel's reason otherwise. Every error is a status.
   */
  lemma RegisterResultCases(req: WduDeviceControl, contents: RegisterEvent, irpCancelled: bool, refStatus: NtStatus)
    ensures var r := RegisterResult(req, contents, irpCancelled, refStatus);
      && (!ReachesHandler(req, contents) ==> r == Err(Status(STATUS_INVALID_PARAMETER)))
      && (r.Err? ==> r.error.Status?)
      && (r == Ok(STATUS_PENDING) <==> ReachesHandler(req, contents) && contents.notifyType == IRP_BASED && !irpCancelled)
      && (r == Ok(STATUS_SUCCESS) <==> ReachesHandler(req, contents) && contents.notifyType == EVENT_BASED && refStatus == STATUS_SUCCESS)
      && (r.Ok? ==> r.value == STATUS_PENDING || r.value == STATUS_SUCCESS)
  {
  }

  /**
   * The status `device_control` returns. `acquireStatus` is what the file
   * object's rundown acquire returns and `registered` the result of
   * `handle_register_event`.
   */
  function DeviceControlStatus(ioctl: bv32, acquireStatus: NtStatus, registered: Result<NtStatus, EventError>): NtStatus
  {
    if acquireStatus != STATUS_SUCCESS then STATUS_UNSUCCESSFUL
    else if ioctl == IOCTL_REGISTER_EVENT then
      match registered
      case Ok(s) => s
      case Err(Status(s)) => s
      case Err(_) => STATUS_UNSUCCESSFUL
    else STATUS_NOT_IMPLEMENTED
  }

  /**
   * `device_control` leaves the request pending exactly when it queued an
   * IRP-based registration, and reports success exactly when it queued an
   * event-based one (the kernel's failure statuses are never PENDING or
   * SUCCESS).
   */
  lemma PendingExactlyWhenQueued(req: WduDeviceControl, contents: RegisterEvent, irpCancelled: bool,
                                 refStatus: NtStatus, acquireStatus: NtStatus)
    requires refStatus != STATUS_PENDING
    ensures var s := DeviceControlStatus(req.ioctl, acquireStatus, RegisterResult(req, contents, irpCancelled, refStatus));
      && (s == STATUS_PENDING <==>
            acquireStatus == STATUS_SUCCESS && req.ioctl == IOCTL_REGISTER_EVENT
            && ReachesHandler(req, contents) && contents.notifyType == IRP_BASED && !irpCancelled)
      && (s == STATUS_SUCCESS <==>
            acquireStatus == STATUS_SUCCESS && req.ioctl == IOCTL_REGISTER_EVENT
            && ReachesHandler(req, contents) && contents.notifyType == EVENT_BASED && refStatus == STATUS_SUCCESS)
  {
    RegisterResultCases(req, contents, irpCancelled, refStatus);
  }

  /** The record a registration handler pushes, for the given notification. */
  predicate Registered(r: NotifyRecord, ty: NotifyType, ext: DeviceExtension, fo: EventFileObject, dueTime: i64)
    reads r.dpc
  {
    && r.data == NotifyData(ty, ext)
    && r.fileObject == fo
    && r.timer == DEFAULT_TIMER.Init().Set(NormalizeDueTime(dueTime))
    && r.dpc.context == Some(r.data)
    && r.dpc.routine == Some(TIMER_DPC)
  }

  // ---------------------------------------------------------------------
  // cleanup: the retain_mut closure and the queue it leaves
  // ---------------------------------------------------------------------

  /** What the closure does with one record: keep it (possibly changed), collect an IRP, or drop a dereferenced event. */
  datatype VisitOutcome = VisitOutcome(kept: Option<NotifyRecord>, collected: Option<WduIrp>, dereferenced: Option<WduEvent>)

  /** Whether the closure takes its second branch; `timerCancelled` is only asked for records of other file objects. */
  predicate Visits(x: NotifyRecord, fo: EventFileObject, timerCancelled: bool)
  {
    !(x.fileObject != fo && !timerCancelled)
  }

  /**
   * The closure as written: a record of another file object whose timer
   * could not be cancelled is kept as it is. Every other record is taken:
   * an event is dereferenced and dropped; an IRP has its copy's cancel slot
   * cleared, and is collected for completion if that slot was empty and
   * kept otherwise.
   */
  function CleanupVisit(x: NotifyRecord, fo: EventFileObject, timerCancelled: bool): (v: VisitOutcome)
    ensures v.kept.Some? <==> !Visits(x, fo, timerCancelled) || (x.data.ty.IrpBased? && x.data.ty.irp.cancel.Some?)
    ensures v.collected.Some? <==> Visits(x, fo, timerCancelled) && x.data.ty.IrpBased? && x.data.ty.irp.cancel.None?
    ensures v.dereferenced.Some? <==> Visits(x, fo, timerCancelled) && x.data.ty.EventBased?
  {
    if x.fileObject != fo && !timerCancelled then VisitOutcome(Some(x), None, None)
    else
      match x.data.ty
      case IrpBased(irp) =>
        var cleared := irp.(cancel := None);
        if irp.cancel.None? then VisitOutcome(None, Some(cleared), None)
        else VisitOutcome(Some(x.(data := x.data.(ty := IrpBased(cleared)))), None, None)
      case EventBased(evt) => VisitOutcome(None, None, Some(evt))
  }

  /** The closure's three outcomes are exclusive, and what it keeps or collects is the record it was given. */
  lemma CleanupVisitPartition(x: NotifyRecord, fo: EventFileObject, timerCancelled: bool)
    ensures var v := CleanupVisit(x, fo, timerCancelled);
      && (v.kept.Some? ==> v.collected.None? && v.dereferenced.None?)
      && (v.collected.Some? ==> v.dereferenced.None?)
      && (v.kept.Some? || v.collected.Some? || v.dereferenced.Some?)
      && (v.kept.Some? ==> Same(v.kept.value.data, x.data) && v.kept.value.fileObject == x.fileObject)
      && (v.kept.Some? && Visits(x, fo, timerCancelled) ==> v.kept.value.data.ty.irp.cancel.None?)
      && (!Visits(x, fo, timerCancelled) ==> v.kept == Some(x))
      && (v.collected.Some? ==> v.collected.value.irp == x.data.ty.irp.irp && v.collected.value.cancel.None?)
      && (v.dereferenced.Some? ==> v.dereferenced == Some(x.data.ty.event))
  {
  }

  datatype CleanupResult = CleanupResult(kept: seq<NotifyRecord>, collected: seq<WduIrp>, dereferenced: seq<WduEvent>)
  {
    /** Appends what one closure call produced. */
    function Extend(v: VisitOutcome): CleanupResult
    {
      CleanupResult(kept + OptSeq(v.kept), collected + OptSeq(v.collected), dereferenced + OptSeq(v.dereferenced))
    }
  }

  function OptSeq<T>(o: Option<T>): seq<T>
  {
    if o.None? then [] else [o.value]
  }

  /**
   * `retain_mut` over the first `n` records, in queue order; `cancels[k]`
   * is what `timer.cancel()` returns for record `k` when it is asked.
   */
  function CleanupUpTo(q: seq<NotifyRecord>, fo: EventFileObject, cancels: seq<bool>, n: nat): (r: CleanupResult)
    requires n <= |q| && n <= |cancels|
    ensures |r.kept| + |r.collected| + |r.dereferenced| == n
  {
    if n == 0 then CleanupResult([], [], [])
    else
      CleanupVisitPartition(q[n - 1], fo, cancels[n - 1]);
      CleanupUpTo(q, fo, cancels, n - 1).Extend(CleanupVisit(q[n - 1], fo, cancels[n - 1]))
  }

  /** The IRP whose CancelRoutine and DriverContext the closure clears for one record, if any. */
  function TouchedBy(x: NotifyRecord, fo: EventFileObject, timerCancelled: bool): set<Irp>
  {
    if Visits(x, fo, timerCancelled) && x.data.ty.IrpBased? && x.data.ty.irp.irp != null
    then {x.data.ty.irp.irp} else {}
  }

  /** The IRPs the closure clears within the first `n` records. */
  function TouchedUpTo(q: seq<NotifyRecord>, fo: EventFileObject, cancels: seq<bool>, n: nat): set<Irp>
    requires n <= |q| && n <= |cancels|
  {
    if n == 0 then {} else TouchedUpTo(q, fo, cancels, n - 1) + TouchedBy(q[n - 1], fo, cancels[n - 1])
  }

  /** The IRP a record refers to, as a set: empty for an event record. */
  function IrpOf(x: NotifyRecord): set<Irp>
  {
    if x.data.ty.IrpBased? && x.data.ty.irp.irp != null then {x.data.ty.irp.irp} else {}
  }

  function IrpsUpTo(q: seq<NotifyRecord>, n: nat): set<Irp>
    requires n <= |q|
  {
    if n == 0 then {} else IrpsUpTo(q, n - 1) + IrpOf(q[n - 1])
  }

  /** The IRPs of the first `n` records, as a set comprehension. */
  function IrpsBelow(q: seq<NotifyRecord>, n: nat): set<Irp>
    requires n <= |q|
  {
    set k | 0 <= k < n && q[k].data.ty.IrpBased? && q[k].data.ty.irp.irp != null :: q[k].data.ty.irp.irp
  }

  /** Every IRP the queue's records refer to: what `cleanup` may write. */
  function QueueIrps(q: seq<NotifyRecord>): set<Irp>
  {
    IrpsBelow(q, |q|)
  }

  /** The comprehension and the record-by-record union agree. */
  lemma {:induction false} IrpsBelowIsUpTo(q: seq<NotifyRecord>, n: nat)
    requires n <= |q|
    ensures IrpsBelow(q, n) == IrpsUpTo(q, n)
  {
    if n > 0 {
      IrpsBelowIsUpTo(q, n - 1);
      assert IrpsBelow(q, n) == IrpsBelow(q, n - 1) + IrpOf(q[n - 1]);
    }
  }

  lemma {:induction false} IrpInQueue(q: seq<NotifyRecord>, k: nat, n: nat)
    requires k < n <= |q|
    ensures IrpOf(q[k]) <= IrpsUpTo(q, n)
  {
    if k < n - 1 {
      IrpInQueue(q, k, n - 1);
    }
  }

  /** The IRP the closure clears for one record is an IRP of the queue. */
  lemma TouchedByInQueue(q: seq<NotifyRecord>, fo: EventFileObject, timerCancelled: bool, i: nat)
    requires i < |q|
    ensures TouchedBy(q[i], fo, timerCancelled) <= QueueIrps(q)
  {
    if TouchedBy(q[i], fo, timerCancelled) != {} {
      assert q[i].data.ty.irp.irp in QueueIrps(q);
    }
  }

  /** The IRPs the closure clears are IRPs of the queue. */
  lemma {:induction false} TouchedInQueue(q: seq<NotifyRecord>, fo: EventFileObject, cancels: seq<bool>, n: nat)
    requires n <= |q| && n <= |cancels|
    ensures TouchedUpTo(q, fo, cancels, n) <= IrpsUpTo(q, n)
  {
    if n > 0 {
      TouchedInQueue(q, fo, cancels, n - 1);
    }
  }

  /** Every record of another file object whose timer could not be cancelled survives unchanged. */
  lemma {:induction false} CleanupKeepsUntouched(q: seq<NotifyRecord>, fo: EventFileObject, cancels: seq<bool>, n: nat)
    requires n <= |q| && n <= |cancels|
    ensures forall k :: 0 <= k < n && !Visits(q[k], fo, cancels[k]) ==> q[k] in CleanupUpTo(q, fo, cancels, n).kept
  {
    if n > 0 {
      CleanupKeepsUntouched(q, fo, cancels, n - 1);
      CleanupVisitPartition(q[n - 1], fo, cancels[n - 1]);
    }
  }

  /**
   * On a well-formed queue, what cleanup keeps is well formed and every IRP
   * it collects is a real IRP of the queue, with its copy's slot cleared.
   */
  lemma {:induction false} CleanupResultFromQueue(q: seq<NotifyRecord>, fo: EventFileObject, cancels: seq<bool>, n: nat)
    requires n <= |q| && n <= |cancels| && WellFormedQueue(q)
    ensures var r := CleanupUpTo(q, fo, cancels, n);
      && WellFormedQueue(r.kept)
      && (forall j :: 0 <= j < |r.collected| ==>
            r.collected[j].cancel.None? && r.collected[j].irp != null && r.collected[j].irp in IrpsUpTo(q, n))
  {
    if n > 0 {
      CleanupResultFromQueue(q, fo, cancels, n - 1);
      CleanupVisitPartition(q[n - 1], fo, cancels[n - 1]);
      var r0 := CleanupUpTo(q, fo, cancels, n - 1);
      var r := CleanupUpTo(q, fo, cancels, n);
      forall j | 0 <= j < |r.kept|
        ensures r.kept[j].data.ty.IrpBased? ==> r.kept[j].data.ty.irp.irp != null
      {
        if j >= |r0.kept| {
          assert Same(r.kept[j].data, q[n - 1].data);
        } else {
          assert r.kept[j] == r0.kept[j];
        }
      }
      forall j | 0 <= j < |r.collected|
        ensures r.collected[j].cancel.None? && r.collected[j].irp != null && r.collected[j].irp in IrpsUpTo(q, n)
      {
        if j >= |r0.collected| {
          assert r.collected[j] == CleanupVisit(q[n - 1], fo, cancels[n - 1]).collected.value;
        } else {
          assert r.collected[j] == r0.collected[j];
        }
      }
    }
  }

  /**
   * Right after registration every IRP record's copy still holds the cancel
   * routine. On such a queue the closure never collects an IRP: the
   * requests it takes are left queued with their cancel routine cleared.
   */
  predicate SlotsArmed(q: seq<NotifyRecord>)
  {
    forall k :: 0 <= k < |q| ==> (q[k].data.ty.IrpBased? ==> q[k].data.ty.irp.cancel.Some?)
  }

  lemma {:induction false} CleanupCollectsNothingWhenArmed(q: seq<NotifyRecord>, fo: EventFileObject, cancels: seq<bool>, n: nat)
    requires n <= |q| && n <= |cancels| && SlotsArmed(q)
    ensures CleanupUpTo(q, fo, cancels, n).collected == []
  {
    if n > 0 {
      CleanupCollectsNothingWhenArmed(q, fo, cancels, n - 1);
      CleanupVisitPartition(q[n - 1], fo, cancels[n - 1]);
    }
  }

  /** How many of the first `n` collected wrappers point at `o`: how often `cleanup` completes it. */
  function OccUpTo(s: seq<WduIrp>, o: Irp, n: nat): nat
    requires n <= |s|
  {
    if n == 0 then 0 else OccUpTo(s, o, n - 1) + (if s[n - 1].irp == o then 1 else 0)
  }

  /** An IRP no collected wrapper points at is not completed. */
  lemma {:induction false} OccAbsent(s: seq<WduIrp>, o: Irp, n: nat)
    requires n <= |s|
    ensures OccUpTo(s, o, n) == 0 <==> forall k :: 0 <= k < n ==> s[k].irp != o
  {
    if n > 0 {
      OccAbsent(s, o, n - 1);
    }
  }
}
