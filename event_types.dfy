/**
 * examples/event/src/lib.rs, the data model: the records the notification
 * queue holds and the device extension that owns the queue.
 */
module EventTypes {
  import opened Types
  import opened Wrappers
  import opened NtStatus
  import opened IoIrp
  import opened Dpc
  import opened FileObj
  import opened RemoveLock
  import opened Spinlock
  import opened DeviceControl
  import opened DrvUtils

  /** The two values of `RegisterEvent::notify_type` the driver accepts. */
  const IRP_BASED: u32 := 0
  const EVENT_BASED: u32 := 1

  /** `size_of::<RegisterEvent>()` with C layout on x64: u32, 4 bytes of padding, HANDLE, i64. */
  const REGISTER_EVENT_SIZE: u64 := 24

  const IOCTL_REGISTER_EVENT: bv32 := EncodeIoctl(FILE_DEVICE_UNKNOWN, 0x800, METHOD_BUFFERED, FILE_ANY_ACCESS)

  /** SYNCHRONIZE | EVENT_MODIFY_STATE, the access `event_notification` asks for. */
  const EVENT_ACCESS_MASK: u32 := 0x0010_0002

  /** The sample's own routines, as they are installed in the IRP wrapper and the DPC. */
  const CANCEL_ROUTINE: FnPtr := FnPtr("cancel_routine")
  const TIMER_DPC: FnPtr := FnPtr("timer_dpc")

  datatype EventError = DriverError | DeviceError | UnicodeError | Status(status: NtStatus)

  /** `From<WduError>`. */
  function FromWduError(e: WduError): EventError
  {
    match e
    case NtStatusError(s) => Status(s)
  }

  /** A referenced KEVENT, known by its address. */
  datatype WduEvent = WduEvent(event: Ptr)

  /** `NotifyType`: what a queued registration will signal when its timer fires. */
  datatype NotifyType = IrpBased(irp: WduIrp) | EventBased(event: WduEvent)

  datatype NotifyData = NotifyData(ty: NotifyType, extension: DeviceExtension?)

  /** The METHOD_BUFFERED input of IOCTL_REGISTER_EVENT. */
  datatype RegisterEvent = RegisterEvent(notifyType: u32, event: Ptr, dueTime: i64)

  /** What a KTIMER remembers once `init` and `set` have run. */
  datatype WduTimer = WduTimer(initialized: bool, dueTime: Option<i64>)
  {
    function Init(): WduTimer
    {
      this.(initialized := true)
    }

    function Set(due: i64): WduTimer
    {
      this.(dueTime := Some(due))
    }
  }

  /** `WduTimer::default()`. */
  const DEFAULT_TIMER: WduTimer := WduTimer(false, None)

  /** The FsContext the sample stores in every file object it opens. */
  datatype FileContext = FileContext(fileRundown: WduRemoveLock)

  type EventFileObject = WduFileObject<FileContext, ()>

  type EventDpc = WduDpc<NotifyData>

  datatype NotifyRecord = NotifyRecord(dpc: EventDpc, timer: WduTimer, fileObject: EventFileObject, data: NotifyData)

  class DeviceExtension {
    var eventQueue: seq<NotifyRecord>
    const queueLock: WduSpinLock

    /** What `init` leaves in the extension: an initialised lock and an empty queue. */
    constructor ()
      ensures eventQueue == [] && fresh(queueLock) && !queueLock.held
    {
      eventQueue := [];
      queueLock := new WduSpinLock();
    }
  }
}
