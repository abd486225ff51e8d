/**
 * examples/sioctl/src/lib.rs: the sample driver's IOCTL handler. It
 * decides the completion status and the byte count reported to the caller
 * from the request's sizes, its output buffer and its control code; for
 * METHOD_NEITHER it maps the caller's buffers through MDLs of its own.
 */
module Sioctl {
  import opened Types
  import opened Wrappers
  import opened NtStatus
  import opened IoIrp
  import opened Mdl
  import opened DeviceControl
  import opened DrvUtils

  datatype SioctlError = DriverError | DeviceError | MdlError

  /** `From<WduMdlError>`: every MDL failure becomes MdlError. */
  function FromMdlError(e: WduMdlError): (r: SioctlError)
    ensures r == MdlError
  {
    MdlError
  }

  const SIOCTL_TYPE: bv32 := 40000

  const IOCTL_SIOCTL_METHOD_IN_DIRECT: bv32 := EncodeIoctl(SIOCTL_TYPE, 0x900, METHOD_IN_DIRECT, FILE_ANY_ACCESS)
  const IOCTL_SIOCTL_METHOD_OUT_DIRECT: bv32 := EncodeIoctl(SIOCTL_TYPE, 0x901, METHOD_OUT_DIRECT, FILE_ANY_ACCESS)
  const IOCTL_SIOCTL_METHOD_BUFFERED: bv32 := EncodeIoctl(SIOCTL_TYPE, 0x902, METHOD_BUFFERED, FILE_ANY_ACCESS)
  const IOCTL_SIOCTL_METHOD_NEITHER: bv32 := EncodeIoctl(SIOCTL_TYPE, 0x903, METHOD_NEITHER, FILE_ANY_ACCESS)

  /** The reply of the buffered and direct paths. */
  const DATA: string := "String from Rust Device Driver!"
  /** The reply of the METHOD_NEITHER path. */
  const NEITHER_DATA: string := "String from Rust Device Driver (Method Neither)!"

  /**
   * The four control codes are distinct, so the arms of the `match` never
   * overlap, and each carries the transfer method its name promises.
   */
  lemma IoctlCodes()
    ensures IOCTL_SIOCTL_METHOD_IN_DIRECT == 0x9C40_2401 && IOCTL_SIOCTL_METHOD_OUT_DIRECT == 0x9C40_2406
    ensures IOCTL_SIOCTL_METHOD_BUFFERED == 0x9C40_2408 && IOCTL_SIOCTL_METHOD_NEITHER == 0x9C40_240F
    ensures MethodFromIoctl(IOCTL_SIOCTL_METHOD_IN_DIRECT) == METHOD_IN_DIRECT
    ensures MethodFromIoctl(IOCTL_SIOCTL_METHOD_OUT_DIRECT) == METHOD_OUT_DIRECT
    ensures MethodFromIoctl(IOCTL_SIOCTL_METHOD_BUFFERED) == METHOD_BUFFERED
    ensures MethodFromIoctl(IOCTL_SIOCTL_METHOD_NEITHER) == METHOD_NEITHER
    ensures FunctionOf(IOCTL_SIOCTL_METHOD_NEITHER) == 0x903 && DeviceTypeOf(IOCTL_SIOCTL_METHOD_NEITHER) == SIOCTL_TYPE
  {
    EncodeIoctlRoundTrip(SIOCTL_TYPE, 0x903, METHOD_NEITHER, FILE_ANY_ACCESS);
  }

  /** The reply lengths the byte counts are capped at. */
  lemma DataLengths()
    ensures |DATA| == 31 && |NEITHER_DATA| == 48
  {
  }

  function Min(a: int, b: int): int
  {
    if a < b then a else b
  }

  /**
   * What `method_neither` returns, given what IoAllocateMdl returned for
   * the input and the output buffer and the addresses a fresh mapping of
   * each would get. Both MDLs must be allocated and mapped; the count is
   * the output MDL's byte count capped at the reply's length.
   */
  function NeitherResult(inMdl: KernelMdl?, inMapped: Ptr, outMdl: KernelMdl?, outMapped: Ptr): Result<u64, SioctlError>
  {
    if inMdl == null then Err(FromMdlError(AllocateError))
    else if SystemAddress(inMdl, inMapped) == NULL then Err(MdlError)
    else if outMdl == null then Err(FromMdlError(AllocateError))
    else if SystemAddress(outMdl, outMapped) == NULL then Err(MdlError)
    else Ok(Min(outMdl.byteCount, |NEITHER_DATA|))
  }

  /**
   * `method_neither` succeeds exactly when both MDLs are allocated and
   * mapped; it then reports at most the output MDL's byte count and at
   * most the reply's length, and exactly the smaller one. Every failure is
   * MdlError.
   */
  lemma NeitherResultMeaning(inMdl: KernelMdl?, inMapped: Ptr, outMdl: KernelMdl?, outMapped: Ptr)
    ensures var r := NeitherResult(inMdl, inMapped, outMdl, outMapped);
      && (r.Ok? <==> inMdl != null && outMdl != null
                     && SystemAddress(inMdl, inMapped) != NULL && SystemAddress(outMdl, outMapped) != NULL)
      && (r.Err? ==> r.error == MdlError)
      && (r.Ok? ==> r.value <= outMdl.byteCount && r.value <= |NEITHER_DATA|
                    && (r.value == outMdl.byteCount || r.value == |NEITHER_DATA|))
  {
  }

  /**
   * When the output MDL describes the whole output buffer, as IoAllocateMdl
   * builds it from the length `method_neither` passes (the size truncated
   * to 32 bits), the count is that truncated size capped at 48 bytes.
   */
  lemma NeitherCountFromOutputSize(inMdl: KernelMdl, inMapped: Ptr, outMdl: KernelMdl, outMapped: Ptr, outSize: u64)
    requires outMdl.byteCount == outSize % 0x1_0000_0000
    requires SystemAddress(inMdl, inMapped) != NULL && SystemAddress(outMdl, outMapped) != NULL
    ensures NeitherResult(inMdl, inMapped, outMdl, outMapped) == Ok(Min(outSize % 0x1_0000_0000, 48))
  {
  }

  /**
   * `method_neither`; `mapped` is as for `device_control`. Each WduMdl it allocates is probed and locked; when
   * it goes out of scope, on the error return or at the end of its block,
   * its drop unlocks and frees it. `inReleased`/`outReleased` report that
   * drop.
   */
  method MethodNeither(req: WduDeviceControl, mapped: Ptr, inReturned: KernelMdl?, inMapped: Ptr,
                       outReturned: KernelMdl?, outMapped: Ptr)
    returns (r: Result<u64, SioctlError>, inReleased: bool, outReleased: bool)
    ensures r == NeitherResult(inReturned, inMapped, outReturned, outMapped)
    ensures inReleased <==> inReturned != null
    ensures outReleased <==> inReturned != null && SystemAddress(inReturned, inMapped) != NULL && outReturned != null
  {
    inReleased, outReleased := false, false;
    var allocation := WduMdl.Allocate(req.InputBuffer(), req.inBufLen % 0x1_0000_0000, false, inReturned);
    if allocation.Err? {
      return Err(FromMdlError(allocation.error)), inReleased, outReleased;
    }
    var inMdl := allocation.value;
    inMdl.ProbeAndLock(ModeToI8(UserMode), IoReadAccess);
    var inBuf := inMdl.GetSystemAddr(inMapped);
    var unlocked, freed := inMdl.Drop();
    inReleased := unlocked && freed;
    if inBuf == NULL {
      return Err(MdlError), inReleased, outReleased;
    }

    allocation := WduMdl.Allocate(req.OutputBuffer(mapped), req.outBufLen % 0x1_0000_0000, false, outReturned);
    if allocation.Err? {
      return Err(FromMdlError(allocation.error)), inReleased, outReleased;
    }
    var outMdl := allocation.value;
    outMdl.ProbeAndLock(ModeToI8(UserMode), IoWriteAccess);
    var outBuf := outMdl.GetSystemAddr(outMapped);
    if outBuf == NULL {
      unlocked, freed := outMdl.Drop();
      outReleased := unlocked && freed;
      return Err(MdlError), inReleased, outReleased;
    }
    var written := if outMdl.ByteCount() < |NEITHER_DATA| then outMdl.ByteCount() else |NEITHER_DATA|;
    unlocked, freed := outMdl.Drop();
    outReleased := unlocked && freed;
    r := Ok(written);
  }

  /**
   * The IO_STATUS_BLOCK `device_control` completes the request with, from
   * the control code, the two buffer sizes, the output buffer the decoded
   * request yields, its MDL byte count and what `method_neither` returns.
   */
  function Outcome(ioctl: bv32, inSize: u64, outSize: u64, outBuf: Ptr, mdlByteCount: u64,
                   neither: Result<u64, SioctlError>): (s: WduIoStatus)
    ensures s.status == STATUS_SUCCESS || s.info == 0
  {
    var ioStatus := SuccessNoInfo();
    if inSize == 0 || outSize == 0 then ioStatus.SetStatus(STATUS_INVALID_PARAMETER)
    else if outBuf == NULL then ioStatus.SetStatus(STATUS_INSUFFICIENT_RESOURCES)
    else if ioctl == IOCTL_SIOCTL_METHOD_BUFFERED || ioctl == IOCTL_SIOCTL_METHOD_OUT_DIRECT then
      ioStatus.SetInfo(if outSize < |DATA| then outSize else |DATA|).SetStatus(STATUS_SUCCESS)
    else if ioctl == IOCTL_SIOCTL_METHOD_IN_DIRECT then
      ioStatus.SetInfo(mdlByteCount).SetStatus(STATUS_SUCCESS)
    else if ioctl == IOCTL_SIOCTL_METHOD_NEITHER then
      if neither.Ok? then ioStatus.SetInfo(neither.value).SetStatus(STATUS_SUCCESS)
      else ioStatus.SetStatus(STATUS_INSUFFICIENT_RESOURCES)
    else ioStatus.SetStatus(STATUS_INVALID_DEVICE_REQUEST)
  }

  /** The known control codes. */
  predicate KnownIoctl(ioctl: bv32)
  {
    ioctl == IOCTL_SIOCTL_METHOD_BUFFERED || ioctl == IOCTL_SIOCTL_METHOD_OUT_DIRECT
    || ioctl == IOCTL_SIOCTL_METHOD_IN_DIRECT || ioctl == IOCTL_SIOCTL_METHOD_NEITHER
  }

  /**
   * The checks come in order: a zero size is reported before a missing
   * output buffer, and both before the control code is looked at.
   */
  lemma OutcomeRejections(ioctl: bv32, inSize: u64, outSize: u64, outBuf: Ptr, mdlByteCount: u64,
                          neither: Result<u64, SioctlError>)
    ensures var s := Outcome(ioctl, inSize, outSize, outBuf, mdlByteCount, neither);
      && (inSize == 0 || outSize == 0 ==> s == WduIoStatus(STATUS_INVALID_PARAMETER, 0))
      && (inSize != 0 && outSize != 0 && outBuf == NULL ==> s == WduIoStatus(STATUS_INSUFFICIENT_RESOURCES, 0))
      && (inSize != 0 && outSize != 0 && outBuf != NULL && !KnownIoctl(ioctl) ==>
            s == WduIoStatus(STATUS_INVALID_DEVICE_REQUEST, 0))
  {
  }

  /**
   * The request succeeds exactly when both sizes are non-zero, there is an
   * output buffer and the code is known (for METHOD_NEITHER, also when
   * `method_neither` succeeded); the status is always one of four values.
   */
  lemma OutcomeSucceedsExactly(ioctl: bv32, inSize: u64, outSize: u64, outBuf: Ptr, mdlByteCount: u64,
                               neither: Result<u64, SioctlError>)
    ensures var s := Outcome(ioctl, inSize, outSize, outBuf, mdlByteCount, neither);
      && (s.status == STATUS_SUCCESS <==>
            inSize != 0 && outSize != 0 && outBuf != NULL && KnownIoctl(ioctl)
            && (ioctl == IOCTL_SIOCTL_METHOD_NEITHER ==> neither.Ok?))
      && (s.status == STATUS_SUCCESS || s.status == STATUS_INVALID_PARAMETER
          || s.status == STATUS_INSUFFICIENT_RESOURCES || s.status == STATUS_INVALID_DEVICE_REQUEST)
  {
    IoctlCodes();
  }

  /**
   * On success the count is: the output size capped at the 31-byte reply
   * for BUFFERED and OUT_DIRECT, the MDL's byte count for IN_DIRECT, and
   * `method_neither`'s count for NEITHER. The buffered count never exceeds
   * the output buffer.
   */
  lemma OutcomeInformation(ioctl: bv32, inSize: u64, outSize: u64, outBuf: Ptr, mdlByteCount: u64,
                           neither: Result<u64, SioctlError>)
    requires inSize != 0 && outSize != 0 && outBuf != NULL
    ensures var s := Outcome(ioctl, inSize, outSize, outBuf, mdlByteCount, neither);
      && (ioctl == IOCTL_SIOCTL_METHOD_BUFFERED || ioctl == IOCTL_SIOCTL_METHOD_OUT_DIRECT ==>
            s.info == Min(outSize, |DATA|) && s.info <= outSize && s.info <= 31)
      && (ioctl == IOCTL_SIOCTL_METHOD_IN_DIRECT ==> s.info == mdlByteCount)
      && (ioctl == IOCTL_SIOCTL_METHOD_NEITHER && neither.Ok? ==> s.info == neither.value)
  {
    IoctlCodes();
  }

  /**
   * `device_control`. `mapped` is the address a mapping of the request's
   * own MDL would get; the remaining oracles feed `method_neither`. The
   * request is completed exactly once, and the status returned to the
   * I/O manager is the one stored in the completed IRP.
   */
  method HandleDeviceControl(request: WduIrp, req: WduDeviceControl, mapped: Ptr,
                             inReturned: KernelMdl?, inMapped: Ptr, outReturned: KernelMdl?, outMapped: Ptr)
    returns (status: NtStatus)
    requires request.irp != null
    modifies request.irp`ioStatus, request.irp`completions
    ensures request.irp.ioStatus == Outcome(req.ioctl, req.inBufLen, req.outBufLen, req.OutputBuffer(mapped),
                                            req.MdlByteCount(), NeitherResult(inReturned, inMapped, outReturned, outMapped))
    ensures status == request.irp.ioStatus.status
    ensures request.irp.completions == old(request.irp.completions) + 1
  {
    var ioStatus := SuccessNoInfo();
    if req.inBufLen == 0 || req.outBufLen == 0 {
      ioStatus := ioStatus.SetStatus(STATUS_INVALID_PARAMETER);
      request.Complete(ioStatus);
      return STATUS_INVALID_PARAMETER;
    }
    var outBuf := req.OutputBuffer(mapped);
    if outBuf == NULL {
      ioStatus := ioStatus.SetStatus(STATUS_INSUFFICIENT_RESOURCES);
      request.Complete(ioStatus);
      return STATUS_INSUFFICIENT_RESOURCES;
    }
    if req.ioctl == IOCTL_SIOCTL_METHOD_BUFFERED || req.ioctl == IOCTL_SIOCTL_METHOD_OUT_DIRECT {
      var writtenBytes := if req.outBufLen < |DATA| then req.outBufLen else |DATA|;
      ioStatus := ioStatus.SetInfo(writtenBytes);
      status := STATUS_SUCCESS;
    } else if req.ioctl == IOCTL_SIOCTL_METHOD_IN_DIRECT {
      ioStatus := ioStatus.SetInfo(req.MdlByteCount());
      status := STATUS_SUCCESS;
    } else if req.ioctl == IOCTL_SIOCTL_METHOD_NEITHER {
      var r, inReleased, outReleased := MethodNeither(req, mapped, inReturned, inMapped, outReturned, outMapped);
      if r.Ok? {
        ioStatus := ioStatus.SetInfo(r.value);
        status := STATUS_SUCCESS;
      } else {
        status := STATUS_INSUFFICIENT_RESOURCES;
      }
    } else {
      status := STATUS_INVALID_DEVICE_REQUEST;
    }
    ioStatus := ioStatus.SetStatus(status);
    request.Complete(ioStatus);
  }

  /** `create` and `close`: both complete the request with success and no information. */
  method CompleteSuccess(request: WduIrp)
    requires request.irp != null
    modifies request.irp`ioStatus, request.irp`completions
    ensures request.irp.ioStatus == WduIoStatus(STATUS_SUCCESS, 0)
    ensures request.irp.completions == old(request.irp.completions) + 1
  {
    request.Complete(SuccessNoInfo());
  }
}
