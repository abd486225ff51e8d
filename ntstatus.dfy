/**
 * The NTSTATUS values the core returns or compares against. NTSTATUS is a
 * signed 32-bit integer, so error codes with the top bit set are negative.
 */
module NtStatus {
  import opened Types

  type NtStatus = i32

  const STATUS_SUCCESS: NtStatus := 0
  const STATUS_PENDING: NtStatus := 0x103
  const STATUS_UNSUCCESSFUL: NtStatus := 0xC000_0001 - 0x1_0000_0000
  const STATUS_NOT_IMPLEMENTED: NtStatus := 0xC000_0002 - 0x1_0000_0000
  const STATUS_INVALID_PARAMETER: NtStatus := 0xC000_000D - 0x1_0000_0000
  const STATUS_INVALID_DEVICE_REQUEST: NtStatus := 0xC000_0010 - 0x1_0000_0000
  const STATUS_INSUFFICIENT_RESOURCES: NtStatus := 0xC000_009A - 0x1_0000_0000
  const STATUS_INTERNAL_ERROR: NtStatus := 0xC000_00E5 - 0x1_0000_0000
  const STATUS_CANCELLED: NtStatus := 0xC000_0120 - 0x1_0000_0000
  const STATUS_NOT_FOUND: NtStatus := 0xC000_0225 - 0x1_0000_0000
}
