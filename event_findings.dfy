/**
 * Five places where examples/event/src/lib.rs and src/io/irp.rs do not do
 * what their comments and the kernel's cancellation protocol say. Each
 * part shows the behaviour as written on a concrete shape of input, then
 * states the evidently intended definition and proves the property the
 * code was after. The handlers in EventHandlers keep the behaviour as
 * written.
 */
module EventFindings {
  import opened Types
  import opened Wrappers
  import opened IoIrp
  import opened EventTypes
  import opened EventSpec
  import opened Vec

  // ---------------------------------------------------------------------
  // 1. The retain test of `cleanup` asks other file objects' timers
  // ---------------------------------------------------------------------

  /**
   * As written, `x.file_object != file_obj && !x.timer.cancel()` cancels the
   * timer of every record of ANOTHER file object, and takes the record when
   * that succeeds: an event registered through another handle is
   * dereferenced and dropped by this handle's cleanup.
   */
  lemma RetainTestTakesOtherFiles(x: NotifyRecord, fo: EventFileObject)
    requires x.fileObject != fo && x.data.ty.EventBased?
    ensures CleanupUpTo([x], fo, [true], 1) == CleanupResult([], [], [x.data.ty.event])
  {
    assert CleanupUpTo([x], fo, [true], 0) == CleanupResult([], [], []);
  }

  /**
   * The closure as intended: only the file object's own records have their
   * timer cancelled, and a record whose timer fired already is left to its
   * DPC. `routineWasSet` is what the kernel's exchange on the IRP's
   * CancelRoutine field returned: set means the request is still ours to
   * complete, cleared means the I/O manager is already running the cancel
   * routine, which finds the record and frees it.
   */
  function IntendedCleanupVisit(x: NotifyRecord, fo: EventFileObject, timerCancelled: bool, routineWasSet: bool)
    : VisitOutcome
  {
    if x.fileObject != fo || !timerCancelled then VisitOutcome(Some(x), None, None)
    else
      match x.data.ty
      case IrpBased(irp) =>
        var cleared := irp.(cancel := None);
        if routineWasSet then VisitOutcome(None, Some(cleared), None)
        else VisitOutcome(Some(x.(data := x.data.(ty := IrpBased(cleared)))), None, None)
      case EventBased(evt) => VisitOutcome(None, None, Some(evt))
  }

  /** The intended `retain_mut`; `slots[k]` is what the exchange returns for record `k`. */
  function IntendedCleanupUpTo(q: seq<NotifyRecord>, fo: EventFileObject, cancels: seq<bool>, slots: seq<bool>, n: nat)
    : CleanupResult
    requires n <= |q| && n <= |cancels| && n <= |slots|
  {
    if n == 0 then CleanupResult([], [], [])
    else IntendedCleanupUpTo(q, fo, cancels, slots, n - 1).Extend(IntendedCleanupVisit(q[n - 1], fo, cancels[n - 1], slots[n - 1]))
  }

  /**
   * With the intended test every record of another file object survives
   * unchanged, and what the timers of those records would answer does not
   * matter: the result is the same for any answers at their positions.
   */
  lemma {:induction false} IntendedCleanupSparesOtherFiles(q: seq<NotifyRecord>, fo: EventFileObject,
                                                           cancels: seq<bool>, cancels2: seq<bool>, slots: seq<bool>, n: nat)
    requires n <= |q| && n <= |cancels| && n <= |cancels2| && n <= |slots|
    requires forall k :: 0 <= k < n && q[k].fileObject == fo ==> cancels[k] == cancels2[k]
    ensures forall k :: 0 <= k < n && q[k].fileObject != fo ==> q[k] in IntendedCleanupUpTo(q, fo, cancels, slots, n).kept
    ensures IntendedCleanupUpTo(q, fo, cancels, slots, n) == IntendedCleanupUpTo(q, fo, cancels2, slots, n)
  {
    if n > 0 {
      IntendedCleanupSparesOtherFiles(q, fo, cancels, cancels2, slots, n - 1);
      var x := q[n - 1];
      var r0 := IntendedCleanupUpTo(q, fo, cancels, slots, n - 1);
      var v := IntendedCleanupVisit(x, fo, cancels[n - 1], slots[n - 1]);
      var r := r0.Extend(v);
      assert IntendedCleanupUpTo(q, fo, cancels, slots, n) == r;
      if x.fileObject != fo {
        assert v == VisitOutcome(Some(x), None, None);
        assert IntendedCleanupVisit(x, fo, cancels2[n - 1], slots[n - 1]) == v;
      } else {
        assert cancels[n - 1] == cancels2[n - 1];
      }
      assert r.kept == r0.kept + OptSeq(v.kept);
      forall k | 0 <= k < n && q[k].fileObject != fo
        ensures q[k] in r.kept
      {
        if k < n - 1 {
          assert q[k] in r0.kept;
        }
      }
    }
  }

  // ---------------------------------------------------------------------
  // 2. The two branches after `set_cancel_rtn(None)` in `cleanup` are swapped
  // ---------------------------------------------------------------------

  /**
   * As written, an IRP of the closing file object whose copy still holds
   * the cancel routine is kept with the slot cleared instead of being
   * collected: the request is never completed by `cleanup` and can no
   * longer be cancelled.
   */
  lemma ArmedIrpIsKeptNotCompleted(x: NotifyRecord, fo: EventFileObject, timerCancelled: bool)
    requires x.fileObject == fo && x.data.ty.IrpBased? && x.data.ty.irp.cancel.Some?
    ensures var v := CleanupVisit(x, fo, timerCancelled);
      && v.collected.None?
      && v.kept == Some(x.(data := x.data.(ty := IrpBased(x.data.ty.irp.(cancel := None)))))
  {
  }

  /**
   * With the branches the right way round, the file object's own IRP whose
   * timer was cancelled is collected, and so completed, exactly when the
   * exchange says the cancel routine was still installed; otherwise it is
   * kept for the running cancel routine.
   */
  lemma IntendedCleanupVisitOutcomes(x: NotifyRecord, fo: EventFileObject, timerCancelled: bool, routineWasSet: bool)
    requires x.fileObject == fo && timerCancelled && x.data.ty.IrpBased?
    ensures var v := IntendedCleanupVisit(x, fo, timerCancelled, routineWasSet);
      && (v.collected.Some? <==> routineWasSet)
      && (v.kept.Some? <==> !routineWasSet)
      && v.dereferenced.None?
      && (v.collected.Some? ==> v.collected.value.irp == x.data.ty.irp.irp)
  {
  }

  /** Over a whole queue: every owned IRP that is still ours to complete ends up in the completion list. */
  lemma {:induction false} IntendedCleanupCollectsOwned(q: seq<NotifyRecord>, fo: EventFileObject,
                                                        cancels: seq<bool>, slots: seq<bool>, n: nat)
    requires n <= |q| && n <= |cancels| && n <= |slots|
    ensures forall k :: 0 <= k < n && q[k].fileObject == fo && cancels[k] && slots[k] && q[k].data.ty.IrpBased? ==>
      q[k].data.ty.irp.(cancel := None) in IntendedCleanupUpTo(q, fo, cancels, slots, n).collected
  {
    if n > 0 {
      IntendedCleanupCollectsOwned(q, fo, cancels, slots, n - 1);
      var r0 := IntendedCleanupUpTo(q, fo, cancels, slots, n - 1);
      assert r0.collected <= IntendedCleanupUpTo(q, fo, cancels, slots, n).collected;
    }
  }

  // ---------------------------------------------------------------------
  // 3. `timer_dpc` removes by an index taken before it dropped the lock
  // ---------------------------------------------------------------------

  /**
   * `timer_dpc` for record `b` finds it at index 1 of [a, b, c], releases
   * the queue lock to complete b's IRP, and meanwhile `cleanup` for a's file
   * object drops a (b's timer has fired, c's cannot be cancelled either).
   * Back under the lock, `swap_remove(1)` on [b, c] removes c: b stays
   * queued with a completed IRP and c's request is never completed.
   */
  lemma StaleIndexRemovesWrongRecord(a: NotifyRecord, b: NotifyRecord, c: NotifyRecord, fo: EventFileObject)
    requires a.fileObject == fo && a.data.ty.EventBased?
    requires b.fileObject != fo && c.fileObject != fo
    requires b.data.ty.IrpBased? && c.data.ty.IrpBased? && b.data.ty.irp.irp != c.data.ty.irp.irp
    ensures FirstIndex([a, b, c], MatchesData(b.data)) == Some(1)
    ensures CleanupUpTo([a, b, c], fo, [true, false, false], 3).kept == [b, c]
    ensures SwapRemove([b, c], 1) == [b]
  {
    var q := [a, b, c];
    var cancels := [true, false, false];
    assert [a, b, c][1..] == [b, c];
    assert CleanupUpTo(q, fo, cancels, 1).kept == [];
    assert CleanupUpTo(q, fo, cancels, 2).kept == [b];
  }

  /**
   * The intended end of `timer_dpc`: after taking the lock again it looks
   * its record up once more and removes that one, if it is still there.
   */
  function IntendedTimerDpcEnd(q: seq<NotifyRecord>, data: NotifyData): seq<NotifyRecord>
  {
    match FirstIndex(q, MatchesData(data))
    case None => q
    case Some(i) => SwapRemove(q, i)
  }

  /**
   * The intended end removes exactly one record, the DPC's own, and leaves
   * the queue alone when cleanup or the cancel routine took it already.
   */
  lemma IntendedTimerDpcEndRemovesOwnRecord(q: seq<NotifyRecord>, data: NotifyData)
    ensures var r := IntendedTimerDpcEnd(q, data);
      match FirstIndex(q, MatchesData(data))
      case None => r == q
      case Some(i) => Same(q[i].data, data) && multiset(r) + multiset{q[i]} == multiset(q)
  {
    match FirstIndex(q, MatchesData(data)) {
      case None =>
      case Some(i) =>
        SwapRemovePermutes(q, i);
    }
  }

  /** In the scenario above the intended end removes b and keeps c. */
  lemma IntendedTimerDpcEndInScenario(b: NotifyRecord, c: NotifyRecord)
    requires b.data.ty.IrpBased? && c.data.ty.IrpBased? && b.data.ty.irp.irp != c.data.ty.irp.irp
    ensures IntendedTimerDpcEnd([b, c], b.data) == [c]
  {
    assert FirstIndex([b, c], MatchesData(b.data)) == Some(0);
  }

  // ---------------------------------------------------------------------
  // 4. `set_cancel_rtn` reports the slot of the copy, not of the IRP
  // ---------------------------------------------------------------------

  /**
   * As written, every clone of an armed wrapper reports Some from
   * `set_cancel_rtn(None)`: the cleanup path and the DPC path can both
   * believe they own the request.
   */
  method CopiesBothClaim(w: WduIrp) returns (first: Option<FnPtr>, second: Option<FnPtr>)
    requires w.irp != null && w.cancel.Some?
    modifies w.irp`cancelRoutine, w.irp`driverContext
    ensures first.Some? && second.Some?
  {
    var copy := w;
    var cleared;
    first, cleared := w.SetCancelRtn(None);
    second, cleared := copy.SetCancelRtn(None);
  }

  /**
   * The intended operation: IoSetCancelRoutine's atomic exchange on the
   * IRP's own CancelRoutine field, the one slot every copy shares.
   */
  method ExchangeCancelRoutine(irp: Irp, c: Option<FnPtr>) returns (prev: Option<FnPtr>)
    modifies irp`cancelRoutine
    ensures prev == old(irp.cancelRoutine)
    ensures irp.cancelRoutine == (if c.Some? then Some(CANCEL_TRAMPOLINE) else None)
  {
    prev := irp.cancelRoutine;
    irp.cancelRoutine := if c.Some? then Some(CANCEL_TRAMPOLINE) else None;
  }

  /**
   * With the shared slot, of two parties that clear the routine only the
   * first can see it set, so at most one of them completes the request.
   */
  method ClearTwiceClaimsOnce(irp: Irp) returns (first: Option<FnPtr>, second: Option<FnPtr>)
    modifies irp`cancelRoutine
    ensures first == old(irp.cancelRoutine)
    ensures second.None?
    ensures !(first.Some? && second.Some?)
  {
    first := ExchangeCancelRoutine(irp, None);
    second := ExchangeCancelRoutine(irp, None);
  }

  // ---------------------------------------------------------------------
  // 5. `cancel_routine` drops a record whose timer may still fire
  // ---------------------------------------------------------------------

  /**
   * As written, a record whose timer could not be cancelled (it fired, and
   * its DPC is queued or running) is still dropped: the KTIMER and KDPC
   * the pending DPC refers to are freed under it.
   */
  lemma CancelDropsPendingTimer(x: NotifyRecord, irp: Irp)
    requires x.data.ty.IrpBased? && x.data.ty.irp.irp == irp && x.timer.dueTime.Some?
    ensures CancelSection([x], irp, false) == Some(CancelOutcome([], Some(x), None))
  {
    assert FirstIndex([x], MatchesIrp(irp)) == Some(0);
  }

  /**
   * The intended section, after the kernel's event sample: the record
   * leaves the queue either way, but only a record whose timer was
   * cancelled is dropped; otherwise it is left to its DPC, which finds no
   * queued record, completes nothing and frees it.
   */
  function IntendedCancelSection(q: seq<NotifyRecord>, irp: Irp?, timerCancelled: bool): Option<CancelOutcome>
  {
    match FirstIndex(q, MatchesIrp(irp))
    case None => None
    case Some(i) =>
      if timerCancelled then Some(CancelOutcome(SwapRemove(q, i), Some(q[i]), None))
      else Some(CancelOutcome(SwapRemove(q, i), None, Some(q[i])))
  }

  /**
   * With the intended section a record is dropped exactly when its timer
   * was cancelled and is otherwise handed to the DPC, never both and never
   * neither; the queue loses exactly that record, as it does as written.
   */
  lemma IntendedCancelSparesPendingTimer(q: seq<NotifyRecord>, irp: Irp?, timerCancelled: bool)
    ensures var r := IntendedCancelSection(q, irp, timerCancelled);
      match FirstIndex(q, MatchesIrp(irp))
      case None => r.None?
      case Some(i) =>
        && r.Some?
        && (r.value.dropped.Some? <==> timerCancelled)
        && (r.value.leftToDpc.Some? <==> !timerCancelled)
        && OptSeq(r.value.dropped) + OptSeq(r.value.leftToDpc) == [q[i]]
        && multiset(r.value.queue) + multiset{q[i]} == multiset(q)
        && r.value.queue == CancelSection(q, irp, timerCancelled).value.queue
  {
    match FirstIndex(q, MatchesIrp(irp)) {
      case None =>
      case Some(i) =>
        SwapRemovePermutes(q, i);
    }
  }
}
