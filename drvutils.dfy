/**
 * src/lib.rs: processor-mode conversions, the status-to-Result mapping of
 * `ref_by_handle`, `get_system_routine_addr` and the `bug_check` arguments.
 */
module DrvUtils {
  import opened Types
  import opened Wrappers
  import opened NtStatus

  const WDU_BUGCHECK_CODE: u32 := 0x0694_1393

  /** KPROCESSOR_MODE. */
  datatype ProcessorMode = UserMode | KernelMode

  /** `From<i8>`: only 0 and 1 are handled, anything else is `unreachable!()`. */
  function ModeFromI8(value: i8): (m: ProcessorMode)
    requires value == 0 || value == 1
    ensures ModeToI8(m) == value
  {
    if value == 0 then KernelMode else UserMode
  }

  /** `Into<i8>`. */
  function ModeToI8(m: ProcessorMode): i8
  {
    match m
    case KernelMode => 0
    case UserMode => 1
  }

  /** `into` never leaves the domain of `from`, and `from(into(m)) == m`. */
  lemma ModeRoundTrip(m: ProcessorMode)
    ensures var v := ModeToI8(m); (v == 0 || v == 1) && ModeFromI8(v) == m
  {
  }

  datatype WduError = NtStatusError(status: NtStatus)

  /**
   * `ref_by_handle`: `status` is what ObReferenceObjectByHandle returned
   * and `referenced` the object it stored on success.
   */
  function RefByHandle(status: NtStatus, referenced: Ptr): (r: Result<Ptr, WduError>)
    ensures r.Err? <==> status != STATUS_SUCCESS
    ensures r.Err? ==> r.error == NtStatusError(status)
    ensures r.Ok? ==> r.value == referenced
  {
    if status != STATUS_SUCCESS then Err(NtStatusError(status)) else Ok(referenced)
  }

  /** `get_system_routine_addr`: `resolved` is what MmGetSystemRoutineAddress returned. */
  function GetSystemRoutineAddr(resolved: Ptr): (r: Option<Ptr>)
    ensures r.None? <==> resolved == NULL
    ensures r.Some? ==> r.value == resolved
  {
    if resolved == NULL then None else Some(resolved)
  }

  /** The five arguments `bug_check` passes to KeBugCheckEx. */
  datatype BugCheckArgs = BugCheckArgs(code: u32, message: Ptr, param2: u64, param3: u64, param4: u64)

  function UnwrapOrZero(p: Option<u64>): u64
  {
    match p
    case None => 0
    case Some(v) => v
  }

  /** `bug_check`: `message` is the address of the formatted panic message. */
  function BugCheck(code: Option<u32>, message: Ptr, param2: Option<u64>, param3: Option<u64>, param4: Option<u64>): (a: BugCheckArgs)
    ensures a.code == (if code.Some? then code.value else WDU_BUGCHECK_CODE)
    ensures a.message == message
    ensures param2.None? ==> a.param2 == 0
    ensures param3.None? ==> a.param3 == 0
    ensures param4.None? ==> a.param4 == 0
    ensures param2.Some? ==> a.param2 == param2.value
    ensures param3.Some? ==> a.param3 == param3.value
    ensures param4.Some? ==> a.param4 == param4.value
  {
    BugCheckArgs(if code.Some? then code.value else WDU_BUGCHECK_CODE,
                 message, UnwrapOrZero(param2), UnwrapOrZero(param3), UnwrapOrZero(param4))
  }
}
