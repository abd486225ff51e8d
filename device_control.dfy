/**
 * src/io/device_control.rs: IOCTL code arithmetic and the buffer a
 * device-control request carries for each transfer method.
 */
module DeviceControl {
  import opened Types
  import opened Mdl

  const METHOD_BUFFERED: bv32 := 0
  const METHOD_IN_DIRECT: bv32 := 1
  const METHOD_OUT_DIRECT: bv32 := 2
  const METHOD_NEITHER: bv32 := 3

  const FILE_DEVICE_UNKNOWN: bv32 := 0x22
  const FILE_ANY_ACCESS: bv32 := 0

  /** `encode_ioctl!` (CTL_CODE) on u32 operands. */
  function EncodeIoctl(deviceType: bv32, functionCode: bv32, transferMethod: bv32, access: bv32): bv32
  {
    (deviceType << 16) | (access << 14) | (functionCode << 2) | transferMethod
  }

  /** `method_from_ioctl!`. */
  function MethodFromIoctl(ioctl: bv32): (m: bv32)
    ensures m <= 3
  {
    ioctl & 3
  }

  /** The other three fields of a CTL_CODE, read back. */
  function DeviceTypeOf(ioctl: bv32): bv32
  {
    ioctl >> 16
  }

  function AccessOf(ioctl: bv32): bv32
  {
    (ioctl >> 14) & 3
  }

  function FunctionOf(ioctl: bv32): bv32
  {
    (ioctl >> 2) & 0xFFF
  }

  /** Decoding the method of an encoded code gives back the method. */
  lemma MethodOfEncoded(deviceType: bv32, functionCode: bv32, transferMethod: bv32, access: bv32)
    requires transferMethod <= 3
    ensures MethodFromIoctl(EncodeIoctl(deviceType, functionCode, transferMethod, access)) == transferMethod
  {
  }

  /** With every field in range, all four fields come back unchanged. */
  lemma EncodeIoctlRoundTrip(deviceType: bv32, functionCode: bv32, transferMethod: bv32, access: bv32)
    requires deviceType < 0x1_0000 && functionCode < 0x1000 && transferMethod <= 3 && access <= 3
    ensures DeviceTypeOf(EncodeIoctl(deviceType, functionCode, transferMethod, access)) == deviceType
    ensures FunctionOf(EncodeIoctl(deviceType, functionCode, transferMethod, access)) == functionCode
    ensures AccessOf(EncodeIoctl(deviceType, functionCode, transferMethod, access)) == access
    ensures MethodFromIoctl(EncodeIoctl(deviceType, functionCode, transferMethod, access)) == transferMethod
  {
  }

  datatype WduIoctlBuffers =
    | Unknown
    | Buffered(buffer: Ptr)
    | Direct(input: Ptr, mdl: WduMdl)
    | Neither(input: Ptr, output: Ptr)

  /**
   * A decoded IOCTL request. `ioctl`, `inBufLen` and `outBufLen` are what
   * the getters `ioctl`, `input_buffer_size` and `output_buffer_size` return.
   */
  datatype WduDeviceControl = WduDeviceControl(ioctl: bv32, outBufLen: u64, inBufLen: u64, buffer: WduIoctlBuffers)
  {
    /** `input_buffer`. */
    function InputBuffer(): Ptr
    {
      match buffer
      case Buffered(b) => b
      case Neither(input, _) => input
      case Direct(input, _) => input
      case Unknown => NULL
    }

    /** `output_buffer`; `mapped` is the MDL mapping the kernel would make. */
    function OutputBuffer(mapped: Ptr): Ptr
    {
      match buffer
      case Buffered(b) => b
      case Neither(_, output) => output
      case Direct(_, mdl) => mdl.GetSystemAddr(mapped)
      case Unknown => NULL
    }

    /** `mdl_byte_count`. */
    function MdlByteCount(): u64
    {
      match buffer
      case Direct(_, mdl) => mdl.ByteCount()
      case _ => 0
    }
  }

  /**
   * `WduDeviceControl::new`, from the current stack location's
   * DeviceIoControl parameters and the IRP's buffers. `mdl` is the wrapper
   * `mdl_address` makes around Irp->MdlAddress. The IoControlCode is a
   * `usize` that is truncated to u32.
   */
  function NewDeviceControl(ioControlCode: bv64, inputBufferLength: u64, outputBufferLength: u64,
                            type3InputBuffer: Ptr, systemBuffer: Ptr, userBuffer: Ptr, mdl: WduMdl): (r: WduDeviceControl)
    ensures r.ioctl as bv64 == ioControlCode & 0xFFFF_FFFF
    ensures r.inBufLen == inputBufferLength && r.outBufLen == outputBufferLength
    ensures r.buffer.Buffered? <==> MethodFromIoctl(r.ioctl) == METHOD_BUFFERED
    ensures r.buffer.Direct? <==> MethodFromIoctl(r.ioctl) == METHOD_IN_DIRECT || MethodFromIoctl(r.ioctl) == METHOD_OUT_DIRECT
    ensures r.buffer.Neither? <==> MethodFromIoctl(r.ioctl) == METHOD_NEITHER
    ensures !r.buffer.Unknown?
  {
    var ioctl := (ioControlCode & 0xFFFF_FFFF) as bv32;
    var methodBits := MethodFromIoctl(ioctl);
    var buffer :=
      if methodBits == METHOD_BUFFERED then Buffered(systemBuffer)
      else if methodBits == METHOD_IN_DIRECT || methodBits == METHOD_OUT_DIRECT then Direct(systemBuffer, mdl)
      else if methodBits == METHOD_NEITHER then Neither(type3InputBuffer, userBuffer)
      else Unknown;
    WduDeviceControl(ioctl, outputBufferLength, inputBufferLength, buffer)
  }

  /**
   * What the driver sees through the getters of a decoded request: the
   * input is Type3InputBuffer for METHOD_NEITHER and the system buffer
   * otherwise; the output is the system buffer, the MDL's system address
   * or the user buffer; only direct requests report an MDL byte count.
   */
  lemma BuffersOfNewDeviceControl(ioControlCode: bv64, inputBufferLength: u64, outputBufferLength: u64,
                                  type3InputBuffer: Ptr, systemBuffer: Ptr, userBuffer: Ptr, mdl: WduMdl, mapped: Ptr)
    ensures var r := NewDeviceControl(ioControlCode, inputBufferLength, outputBufferLength,
                                      type3InputBuffer, systemBuffer, userBuffer, mdl);
            var m := MethodFromIoctl(r.ioctl);
            && r.InputBuffer() == (if m == METHOD_NEITHER then type3InputBuffer else systemBuffer)
            && r.OutputBuffer(mapped) == (if m == METHOD_BUFFERED then systemBuffer
                                          else if m == METHOD_NEITHER then userBuffer
                                          else mdl.GetSystemAddr(mapped))
            && r.MdlByteCount() == (if m == METHOD_IN_DIRECT || m == METHOD_OUT_DIRECT then mdl.ByteCount() else 0)
            && (m == METHOD_BUFFERED ==> r.InputBuffer() == r.OutputBuffer(mapped))
  {
  }

  /** The Unknown variant, which `new` never builds, has null buffers and no byte count. */
  lemma UnknownBuffers(r: WduDeviceControl, mapped: Ptr)
    requires r.buffer.Unknown?
    ensures r.InputBuffer() == NULL && r.OutputBuffer(mapped) == NULL && r.MdlByteCount() == 0
  {
  }
}
