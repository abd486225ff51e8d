/** src/callbacks/mod.rs: the error enum shared by the callback wrappers. */
module Callbacks {
  import opened NtStatus

  datatype WduCallbackError =
    | InsufficientResources
    | NotRegistered
    | RegisterError(status: NtStatus)
    | UnregisterError(status: NtStatus)
    | StatusError(status: NtStatus)
    | CreateError(status: NtStatus)
    | OpenError(status: NtStatus)
}
