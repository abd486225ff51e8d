/**
 * src/common/driver.rs: the `WduDriver` builder, which fills the driver
 * object's dispatch table with one dispatcher and copies itself into the
 * driver-object extension, and the routing that dispatcher does.
 */
module Driver {
  import opened Types
  import opened Wrappers
  import opened NtStatus
  import opened IoIrp

  datatype WduDriverError = DriverExtAllocFailed | AlreadyInit

  /** IRP_MJ_MAXIMUM_FUNCTION + 1 slots in DRIVER_OBJECT.MajorFunction. */
  const MAJOR_FUNCTION_SLOTS: nat := 0x1c

  /** The routines the builder stores in the driver object. */
  const DISPATCH_HANDLER: FnPtr := FnPtr("WduDriver::dispatch_handler")
  const ADD_DEVICE: FnPtr := FnPtr("WduDriver::add_device")
  const DRIVER_UNLOAD: FnPtr := FnPtr("WduDriver::driver_unload")

  /** The majors `file_object` and `io` install the dispatcher for. */
  const FILE_OBJ_MJ: seq<u32> := [IRP_MJ_CREATE, IRP_MJ_CLOSE, IRP_MJ_CLEANUP]
  const IO_MJ: seq<u32> := [IRP_MJ_READ, IRP_MJ_WRITE, IRP_MJ_DEVICE_CONTROL]

  /** `FileObjDispatch`: the handlers for create, close and cleanup. */
  datatype FileObjDispatch = FileObjDispatch(create: Option<FnPtr>, close: Option<FnPtr>, cleanup: Option<FnPtr>)
  {
    function CreateIrp(f: FnPtr): FileObjDispatch
    {
      this.(create := Some(f))
    }

    function CloseIrp(f: FnPtr): FileObjDispatch
    {
      this.(close := Some(f))
    }

    function CleanupIrp(f: FnPtr): FileObjDispatch
    {
      this.(cleanup := Some(f))
    }
  }

  /** `IoDispath`: the handlers for read, write and device control. */
  datatype IoDispatch = IoDispatch(read: Option<FnPtr>, write: Option<FnPtr>, ioctl: Option<FnPtr>)
  {
    function ReadIrp(f: FnPtr): IoDispatch
    {
      this.(read := Some(f))
    }

    function WriteIrp(f: FnPtr): IoDispatch
    {
      this.(write := Some(f))
    }

    function IoctlIrp(f: FnPtr): IoDispatch
    {
      this.(ioctl := Some(f))
    }
  }

  const DEFAULT_FILE_OBJ: FileObjDispatch := FileObjDispatch(None, None, None)
  const DEFAULT_IO: IoDispatch := IoDispatch(None, None, None)

  /** The handler a driver registered for each major, independently of how it is routed. */
  function HandlerFor(fileobj: FileObjDispatch, io: IoDispatch, m: MajorFunction): Option<FnPtr>
  {
    match m
    case Create => fileobj.create
    case Close => fileobj.close
    case Cleanup => fileobj.cleanup
    case Read => io.read
    case Write => io.write
    case DeviceControl => io.ioctl
  }

  /** Each builder setter registers its own major and leaves the other five alone. */
  lemma SettersRegisterOneMajor(fo: FileObjDispatch, io: IoDispatch, f: FnPtr, m: MajorFunction)
    ensures HandlerFor(fo.CreateIrp(f), io, m) == if m == Create then Some(f) else HandlerFor(fo, io, m)
    ensures HandlerFor(fo.CloseIrp(f), io, m) == if m == Close then Some(f) else HandlerFor(fo, io, m)
    ensures HandlerFor(fo.CleanupIrp(f), io, m) == if m == Cleanup then Some(f) else HandlerFor(fo, io, m)
    ensures HandlerFor(fo, io.ReadIrp(f), m) == if m == Read then Some(f) else HandlerFor(fo, io, m)
    ensures HandlerFor(fo, io.WriteIrp(f), m) == if m == Write then Some(f) else HandlerFor(fo, io, m)
    ensures HandlerFor(fo, io.IoctlIrp(f), m) == if m == DeviceControl then Some(f) else HandlerFor(fo, io, m)
    ensures HandlerFor(DEFAULT_FILE_OBJ, DEFAULT_IO, m).None?
  {
  }

  /** The bytes of a `WduDriver` as `alloc_ext` copies them into the extension. */
  datatype DriverState = DriverState(init: bool, addDevice: Option<FnPtr>, unload: Option<FnPtr>,
                                     io: IoDispatch, fileobj: FileObjDispatch)

  /**
   * The fields of the kernel's DRIVER_OBJECT the builder writes. The
   * extension is the copy `get_wdu_driver` finds, None before
   * `alloc_ext` succeeds.
   */
  class DriverObject {
    const majorFunction: array<Option<FnPtr>>
    var driverUnload: Option<FnPtr>
    /** Whether DriverExtension is non-null. */
    const hasDriverExtension: bool
    /** DriverExtension->AddDevice. */
    var addDevice: Option<FnPtr>
    var wduExtension: Option<DriverState>

    constructor (hasDriverExtension: bool)
      ensures majorFunction.Length == MAJOR_FUNCTION_SLOTS && fresh(majorFunction)
      ensures forall i :: 0 <= i < MAJOR_FUNCTION_SLOTS ==> majorFunction[i].None?
      ensures driverUnload.None? && addDevice.None? && wduExtension.None?
      ensures this.hasDriverExtension == hasDriverExtension
    {
      majorFunction := new Option<FnPtr>[MAJOR_FUNCTION_SLOTS](_ => None);
      driverUnload := None;
      this.hasDriverExtension := hasDriverExtension;
      addDevice := None;
      wduExtension := None;
    }
  }

  /** The table after the dispatcher was installed for each code in `majors`. */
  ghost predicate Installed(table: seq<Option<FnPtr>>, before: seq<Option<FnPtr>>, majors: seq<u32>)
  {
    |table| == |before|
    && forall i :: 0 <= i < |table| ==> table[i] == if i in majors then Some(DISPATCH_HANDLER) else before[i]
  }

  class WduDriver {
    var init: bool
    const driver: DriverObject
    var addDevice: Option<FnPtr>
    var unload: Option<FnPtr>
    var io: IoDispatch
    var fileobj: FileObjDispatch

    function State(): DriverState
      reads this
    {
      DriverState(init, addDevice, unload, io, fileobj)
    }

    /** `new`: not initialised and no handler of any kind. */
    constructor (driver: DriverObject)
      ensures this.driver == driver && !init
      ensures addDevice.None? && unload.None? && io == DEFAULT_IO && fileobj == DEFAULT_FILE_OBJ
    {
      this.driver := driver;
      addDevice := None;
      unload := None;
      init := false;
      io := DEFAULT_IO;
      fileobj := DEFAULT_FILE_OBJ;
    }

    /** `device_add`: the trampoline is stored only when the driver object has an extension. */
    method DeviceAdd(deviceAdd: FnPtr)
      modifies this`addDevice, driver`addDevice
      ensures addDevice == Some(deviceAdd)
      ensures driver.addDevice == if driver.hasDriverExtension then Some(ADD_DEVICE) else old(driver.addDevice)
    {
      if driver.hasDriverExtension {
        driver.addDevice := Some(ADD_DEVICE);
      }
      addDevice := Some(deviceAdd);
    }

    method Unload(driverUnload: FnPtr)
      modifies this`unload, driver`driverUnload
      ensures unload == Some(driverUnload) && driver.driverUnload == Some(DRIVER_UNLOAD)
    {
      driver.driverUnload := Some(DRIVER_UNLOAD);
      unload := Some(driverUnload);
    }

    /** Points each slot named in `majors` at the dispatcher, one after the other. */
    method InstallDispatcher(majors: seq<u32>)
      requires driver.majorFunction.Length == MAJOR_FUNCTION_SLOTS
      requires forall k :: 0 <= k < |majors| ==> majors[k] < MAJOR_FUNCTION_SLOTS
      modifies driver.majorFunction
      ensures Installed(driver.majorFunction[..], old(driver.majorFunction[..]), majors)
    {
      var table := driver.majorFunction;
      ghost var before := table[..];
      var k := 0;
      while k < |majors|
        invariant 0 <= k <= |majors|
        invariant Installed(table[..], before, majors[..k])
      {
        table[majors[k]] := Some(DISPATCH_HANDLER);
        assert forall i :: i in majors[..k + 1] <==> i in majors[..k] || i == majors[k];
        k := k + 1;
      }
      assert majors[..k] == majors;
    }

    /** `file_object`: CREATE, CLOSE and CLEANUP go to the dispatcher; no other slot changes. */
    method FileObject(dispatchRtns: FileObjDispatch)
      requires driver.majorFunction.Length == MAJOR_FUNCTION_SLOTS
      modifies this`fileobj, driver.majorFunction
      ensures fileobj == dispatchRtns
      ensures Installed(driver.majorFunction[..], old(driver.majorFunction[..]), FILE_OBJ_MJ)
    {
      InstallDispatcher(FILE_OBJ_MJ);
      fileobj := dispatchRtns;
    }

    /** `io`: READ, WRITE and DEVICE_CONTROL go to the dispatcher; no other slot changes. */
    method Io(dispatchRtns: IoDispatch)
      requires driver.majorFunction.Length == MAJOR_FUNCTION_SLOTS
      modifies this`io, driver.majorFunction
      ensures io == dispatchRtns
      ensures Installed(driver.majorFunction[..], old(driver.majorFunction[..]), IO_MJ)
    {
      InstallDispatcher(IO_MJ);
      io := dispatchRtns;
    }

    /**
     * `alloc_ext`: `extStatus` is what IoAllocateDriverObjectExtension
     * returns. On success the driver is marked initialised and then
     * copied, so the copy is initialised too.
     */
    method AllocExt(extStatus: NtStatus) returns (r: Result<(), WduDriverError>)
      modifies this`init, driver`wduExtension
      ensures r.Err? <==> extStatus != STATUS_SUCCESS
      ensures r.Err? ==> r.error == DriverExtAllocFailed && init == old(init) && driver.wduExtension == old(driver.wduExtension)
      ensures r.Ok? ==> init && driver.wduExtension == Some(State())
    {
      if extStatus != STATUS_SUCCESS {
        return Err(DriverExtAllocFailed);
      }
      init := true;
      driver.wduExtension := Some(State());
      r := Ok(());
    }

    /** `build`: refused once initialised, otherwise `alloc_ext`. */
    method Build(extStatus: NtStatus) returns (r: Result<(), WduDriverError>)
      modifies this`init, driver`wduExtension
      ensures old(init) ==> r == Err(AlreadyInit) && init && driver.wduExtension == old(driver.wduExtension)
      ensures !old(init) ==> (r.Ok? <==> extStatus == STATUS_SUCCESS)
      ensures !old(init) && r.Err? ==> r.error == DriverExtAllocFailed && !init && driver.wduExtension == old(driver.wduExtension)
      ensures r.Ok? ==> init && driver.wduExtension == Some(State()) && State().init
    {
      if init {
        return Err(AlreadyInit);
      }
      r := AllocExt(extStatus);
    }
  }

  /**
   * After `file_object` and `io`, the six handled majors are routed to the
   * dispatcher and every other slot of the table is as it was.
   */
  lemma FileObjectThenIo(before: seq<Option<FnPtr>>, mid: seq<Option<FnPtr>>, after: seq<Option<FnPtr>>)
    requires |before| == MAJOR_FUNCTION_SLOTS
    requires Installed(mid, before, FILE_OBJ_MJ) && Installed(after, mid, IO_MJ)
    ensures forall m: MajorFunction :: after[m.Code()] == Some(DISPATCH_HANDLER)
    ensures forall i :: 0 <= i < |after| && !IsHandledMajor(i) ==> after[i] == before[i]
  {
    forall m: MajorFunction
      ensures after[m.Code()] == Some(DISPATCH_HANDLER)
    {
      assert m.Code() in FILE_OBJ_MJ || m.Code() in IO_MJ;
    }
  }

  /** What the dispatcher did with one IRP: the handler it called, if any, and the status it returns. */
  datatype Dispatched = Dispatched(called: Option<FnPtr>, status: NtStatus)

  /** `fo_dispatch`: the handler of the major, or nothing; an I/O major reaches `unreachable!`. */
  function FoDispatch(s: DriverState, m: MajorFunction): (called: Option<FnPtr>)
    requires m.IsFileObj()
    ensures called == HandlerFor(s.fileobj, s.io, m)
  {
    match m
    case Create => s.fileobj.create
    case Close => s.fileobj.close
    case Cleanup => s.fileobj.cleanup
  }

  /**
   * `io_dispatch`: `handlerStatus` is what the handler returns when there
   * is one; without one the IRP succeeds. A file-object major reaches
   * `unreachable!`.
   */
  function IoDispatchStatus(s: DriverState, m: MajorFunction, handlerStatus: NtStatus): (d: Dispatched)
    requires m.IsIo()
    ensures d.called == HandlerFor(s.fileobj, s.io, m)
    ensures d.status == if d.called.Some? then handlerStatus else STATUS_SUCCESS
  {
    var handler := match m
      case Read => s.io.read
      case Write => s.io.write
      case DeviceControl => s.io.ioctl;
    if handler.Some? then Dispatched(handler, handlerStatus) else Dispatched(None, STATUS_SUCCESS)
  }

  /**
   * `dispatch_handler`: `ext` is the copy found in the driver-object
   * extension. Without one nothing is called and the IRP succeeds; a
   * file-object major always succeeds, whatever its handler does; an I/O
   * major returns what `io_dispatch` returns. Every MajorFunction is one or
   * the other, so the power, PnP and unknown branches are never reached.
   */
  function DispatchHandler(ext: Option<DriverState>, m: MajorFunction, handlerStatus: NtStatus): (d: Dispatched)
    ensures ext.None? ==> d == Dispatched(None, STATUS_SUCCESS)
    ensures ext.Some? ==> d.called == HandlerFor(ext.value.fileobj, ext.value.io, m)
    ensures ext.Some? && m.IsFileObj() ==> d.status == STATUS_SUCCESS
    ensures ext.Some? && m.IsIo() ==> d.status == IoDispatchStatus(ext.value, m, handlerStatus).status
  {
    if ext.None? then Dispatched(None, STATUS_SUCCESS)
    else if m.IsFileObj() then Dispatched(FoDispatch(ext.value, m), STATUS_SUCCESS)
    else IoDispatchStatus(ext.value, m, handlerStatus)
  }

  /**
   * The status the dispatcher returns is a handler's only when an I/O
   * handler was registered for the major; in every other case it is
   * STATUS_SUCCESS.
   */
  lemma DispatchStatusSource(ext: Option<DriverState>, m: MajorFunction, handlerStatus: NtStatus)
    ensures DispatchHandler(ext, m, handlerStatus).status
         == if ext.Some? && m.IsIo() && HandlerFor(ext.value.fileobj, ext.value.io, m).Some? then handlerStatus
            else STATUS_SUCCESS
  {
    MajorPartition(m);
  }

  /** `add_device_internal`: the registered routine's status, or success without one. */
  function AddDeviceInternal(s: DriverState, handlerStatus: NtStatus): (status: NtStatus)
    ensures s.addDevice.None? ==> status == STATUS_SUCCESS
    ensures s.addDevice.Some? ==> status == handlerStatus
  {
    if s.addDevice.None? then STATUS_SUCCESS else handlerStatus
  }

  /** The `add_device` trampoline: success when no copy is found. */
  function AddDevice(ext: Option<DriverState>, handlerStatus: NtStatus): (status: NtStatus)
    ensures ext.None? ==> status == STATUS_SUCCESS
    ensures ext.Some? ==> status == AddDeviceInternal(ext.value, handlerStatus)
  {
    if ext.None? then STATUS_SUCCESS else AddDeviceInternal(ext.value, handlerStatus)
  }

  /**
   * The `driver_unload` trampoline: the routine it calls, if any. It
   * asserts that the copy it finds is initialised.
   */
  function DriverUnloadCall(ext: Option<DriverState>): (called: Option<FnPtr>)
    requires ext.Some? ==> ext.value.init
    ensures ext.None? ==> called.None?
    ensures ext.Some? ==> called == ext.value.unload
  {
    if ext.None? then None else ext.value.unload
  }

  /**
   * A built driver's copy satisfies the unload trampoline's assertion and
   * routes each major to the handler the builder was given.
   */
  method BuildThenDispatch(drv: WduDriver, extStatus: NtStatus, m: MajorFunction, handlerStatus: NtStatus)
    returns (r: Result<(), WduDriverError>, d: Dispatched, unloaded: Option<FnPtr>)
    modifies drv`init, drv.driver`wduExtension
    ensures r.Ok? ==> d.called == HandlerFor(drv.fileobj, drv.io, m) && unloaded == drv.unload
    ensures r.Err? ==> d == DispatchHandler(drv.driver.wduExtension, m, handlerStatus)
  {
    r := drv.Build(extStatus);
    if r.Ok? {
      d := DispatchHandler(drv.driver.wduExtension, m, handlerStatus);
      unloaded := DriverUnloadCall(drv.driver.wduExtension);
    } else {
      d := DispatchHandler(drv.driver.wduExtension, m, handlerStatus);
      unloaded := None;
    }
  }
}
