/**
 * src/io/irp.rs: the major-function classification, the I/O status value,
 * and the `WduIrp` wrapper with its per-copy cancel slot.
 */
module IoIrp {
  import opened Types
  import opened Wrappers
  import opened NtStatus
  import opened Irql

  const IRP_MJ_CREATE: u32 := 0x00
  const IRP_MJ_CLOSE: u32 := 0x02
  const IRP_MJ_READ: u32 := 0x03
  const IRP_MJ_WRITE: u32 := 0x04
  const IRP_MJ_DEVICE_CONTROL: u32 := 0x0e
  const IRP_MJ_CLEANUP: u32 := 0x12

  const SL_PENDING_RETURNED: bv8 := 0x01

  /** The routine `set_cancel_rtn` stores in the IRP's CancelRoutine field. */
  const CANCEL_TRAMPOLINE: FnPtr := FnPtr("WduIrp::cancel_routine")

  datatype MajorFunction = Create | Close | Cleanup | Read | Write | DeviceControl
  {
    predicate IsIo()
    {
      match this
      case Write | Read | DeviceControl => true
      case _ => false
    }

    predicate IsFileObj()
    {
      match this
      case Create | Close | Cleanup => true
      case _ => false
    }

    /** The IRP_MJ code of each variant. */
    function Code(): u32
    {
      match this
      case Create => IRP_MJ_CREATE
      case Close => IRP_MJ_CLOSE
      case Cleanup => IRP_MJ_CLEANUP
      case Read => IRP_MJ_READ
      case Write => IRP_MJ_WRITE
      case DeviceControl => IRP_MJ_DEVICE_CONTROL
    }
  }

  /** The codes `MajorFunction::from` accepts; any other reaches `todo!()`. */
  predicate IsHandledMajor(code: u32)
  {
    code == IRP_MJ_CREATE || code == IRP_MJ_CLOSE || code == IRP_MJ_CLEANUP
    || code == IRP_MJ_READ || code == IRP_MJ_WRITE || code == IRP_MJ_DEVICE_CONTROL
  }

  function MajorFromCode(code: u32): (m: MajorFunction)
    requires IsHandledMajor(code)
    ensures m.Code() == code
  {
    if code == IRP_MJ_CREATE then Create
    else if code == IRP_MJ_CLOSE then Close
    else if code == IRP_MJ_CLEANUP then Cleanup
    else if code == IRP_MJ_READ then Read
    else if code == IRP_MJ_WRITE then Write
    else DeviceControl
  }

  /** Every variant's code is accepted and maps back to the variant, so the mapping is one-to-one. */
  lemma MajorFromCodeRoundTrip(m: MajorFunction)
    ensures IsHandledMajor(m.Code())
    ensures MajorFromCode(m.Code()) == m
  {
  }

  /** Every major is either an I/O major or a file-object major, never both. */
  lemma MajorPartition(m: MajorFunction)
    ensures m.IsIo() <==> (m == Read || m == Write || m == DeviceControl)
    ensures m.IsFileObj() <==> (m == Create || m == Close || m == Cleanup)
    ensures m.IsIo() != m.IsFileObj()
  {
  }

  /** IO_STATUS_BLOCK contents a handler hands to `complete`. */
  datatype WduIoStatus = WduIoStatus(status: NtStatus, info: u64)
  {
    function SetStatus(s: NtStatus): (r: WduIoStatus)
      ensures r.status == s && r.info == info
    {
      this.(status := s)
    }

    function SetInfo(i: u64): (r: WduIoStatus)
      ensures r.info == i && r.status == status
    {
      this.(info := i)
    }
  }

  function NewIoStatus(): WduIoStatus
  {
    WduIoStatus(STATUS_UNSUCCESSFUL, 0)
  }

  function NewWithStatus(s: NtStatus): WduIoStatus
  {
    WduIoStatus(s, 0)
  }

  function SuccessNoInfo(): WduIoStatus
  {
    WduIoStatus(STATUS_SUCCESS, 0)
  }

  function SuccessWithInfo(i: u64): WduIoStatus
  {
    WduIoStatus(STATUS_SUCCESS, i)
  }

  /** How the four constructors and the two setters relate. */
  lemma IoStatusConstructors(s: NtStatus, i: u64)
    ensures NewIoStatus() == NewWithStatus(STATUS_UNSUCCESSFUL)
    ensures SuccessNoInfo() == NewWithStatus(STATUS_SUCCESS) == SuccessWithInfo(0)
    ensures NewIoStatus().SetStatus(s) == NewWithStatus(s)
    ensures SuccessNoInfo().SetInfo(i) == SuccessWithInfo(i)
    ensures NewWithStatus(s).SetInfo(i).SetStatus(s) == NewWithStatus(s).SetStatus(s).SetInfo(i)
    ensures NewWithStatus(s).status == s && NewWithStatus(s).info == 0
  {
  }

  /**
   * The fields of the kernel's IRP record that the core reads or writes.
   * The constants are set by the I/O manager and never written here.
   */
  class Irp {
    /** Irp->Cancel, read by `is_cancel`. */
    const cancel: bool
    /** Irp->CancelIrql, restored by `release_cancel_lock`. */
    const cancelIrql: u8
    const currentLocation: int
    const stackCount: int
    /** The current stack location's MajorFunction. */
    const majorFunction: u8
    /** Irp->RequestorMode. */
    const requestorMode: i8
    /** The current stack location's Control byte. */
    var control: bv8
    /** Irp->CancelRoutine. */
    var cancelRoutine: Option<FnPtr>
    /** DriverContext[3]: the boxed copy of the wrapper `set_cancel_rtn` made, if any. */
    var driverContext: Option<WduIrp>
    /** Irp->IoStatus. */
    var ioStatus: WduIoStatus
    /** How many times IofCompleteRequest has been called on this IRP. */
    var completions: nat
  }

  /** The assertion `current_stack` makes before it reads the stack location. */
  predicate CurrentStackOk(irp: Irp)
  {
    irp.currentLocation <= irp.stackCount + 1
  }

  /** `WduIrp::wrap`: a wrapper with an empty cancel slot. */
  function Wrap(irp: Irp): (w: WduIrp)
    requires CurrentStackOk(irp) && IsHandledMajor(irp.majorFunction)
    ensures w.irp == irp && w.cancel == None
    ensures w.mj.Code() == irp.majorFunction
  {
    WduIrp(irp, MajorFromCode(irp.majorFunction), None)
  }

  /**
   * The wrapper. It is `Clone`, so every copy carries its own `cancel`
   * slot; only the `irp` pointer is shared between copies.
   */
  datatype WduIrp = WduIrp(irp: Irp?, mj: MajorFunction, cancel: Option<FnPtr>)
  {
    predicate IsIo()
    {
      mj.IsIo()
    }

    predicate IsFileObj()
    {
      mj.IsFileObj()
    }

    /** `complete`: a null IRP is left alone, otherwise the status block is written and the IRP completed. */
    method Complete(status: WduIoStatus)
      modifies if irp == null then {} else {irp}`ioStatus, if irp == null then {} else {irp}`completions
      ensures irp != null ==> irp.ioStatus == status && irp.completions == old(irp.completions) + 1
    {
      if irp == null {
        return;
      }
      irp.ioStatus := status;
      irp.completions := irp.completions + 1;
    }

    function IsCancel(): bool
      requires irp != null
      reads irp
    {
      irp.cancel
    }

    method MarkPending()
      requires irp != null && CurrentStackOk(irp)
      modifies irp`control
      ensures irp.control == old(irp.control) | SL_PENDING_RETURNED
    {
      irp.control := irp.control | SL_PENDING_RETURNED;
    }

    /** `release_cancel_lock`: IoReleaseCancelSpinLock lowers the IRQL to CancelIrql. */
    method ReleaseCancelLock(cpu: Processor)
      requires irp != null
      modifies cpu
      ensures cpu.irql == irp.cancelIrql
    {
      cpu.irql := irp.cancelIrql;
    }

    /**
     * `set_cancel_rtn`: returns the slot of THIS copy and stores `c` in it.
     * Some boxes a clone of the updated copy into DriverContext[3] and
     * installs the trampoline; None clears both fields of the IRP.
     */
    method SetCancelRtn(c: Option<FnPtr>) returns (prev: Option<FnPtr>, updated: WduIrp)
      requires irp != null
      modifies irp`cancelRoutine, irp`driverContext
      ensures prev == cancel
      ensures updated == this.(cancel := c)
      ensures c.Some? ==> irp.cancelRoutine == Some(CANCEL_TRAMPOLINE) && irp.driverContext == Some(updated)
      ensures c.None? ==> irp.cancelRoutine == None && irp.driverContext == None
    {
      prev := cancel;
      updated := this.(cancel := c);
      if c.Some? {
        irp.driverContext := Some(updated);
        irp.cancelRoutine := Some(CANCEL_TRAMPOLINE);
      } else {
        irp.cancelRoutine := None;
        irp.driverContext := None;
      }
    }
  }

  /**
   * The trampoline the I/O manager calls: it wraps the IRP afresh, takes
   * the copy boxed in DriverContext[3] and calls that copy's callback if it
   * holds one. The callback is reported, with the fresh wrapper it gets.
   */
  method CancelRoutineTrampoline(irp: Irp) returns (invoked: Option<FnPtr>, original: WduIrp)
    requires CurrentStackOk(irp) && IsHandledMajor(irp.majorFunction)
    requires irp.driverContext.Some?
    ensures original == Wrap(irp)
    ensures invoked.Some? <==> irp.driverContext.value.cancel.Some?
    ensures invoked.Some? ==> invoked == irp.driverContext.value.cancel
  {
    original := Wrap(irp);
    var boxed := irp.driverContext.value;
    match boxed.cancel {
      case None =>
        invoked := None;
      case Some(pfn) =>
        invoked := Some(pfn);
    }
  }
}
