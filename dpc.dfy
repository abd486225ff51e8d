/**
 * src/common/dpc.rs: a DPC object that carries the driver's routine and
 * context next to the kernel's KDPC.
 */
module Dpc {
  import opened Types
  import opened Wrappers

  /** The trampoline `init` registers with KeInitializeDpc. */
  const CUSTOM_DPC: FnPtr := FnPtr("WduDpc::custom_dpc")

  class WduDpc<T> {
    /** The KDPC's DeferredRoutine, as KeInitializeDpc stores it. */
    var kdpcRoutine: Option<FnPtr>
    var context: Option<T>
    var routine: Option<FnPtr>

    /** `new`: a zeroed KDPC and both slots empty. */
    constructor ()
      ensures kdpcRoutine == None && context == None && routine == None
    {
      kdpcRoutine := None;
      context := None;
      routine := None;
    }

    /** `init(r, c)`: stores both slots and points the KDPC at the trampoline. */
    method Init(r: FnPtr, c: Option<T>)
      modifies this
      ensures routine == Some(r) && context == c && kdpcRoutine == Some(CUSTOM_DPC)
    {
      routine := Some(r);
      context := c;
      kdpcRoutine := Some(CUSTOM_DPC);
    }

    /** `context_as_ref` and `context_as_mut_ref`: the stored context. */
    function ContextAsRef(): Option<T>
      reads this
    {
      context
    }

    /**
     * `custom_dpc`: the trampoline calls the stored routine when there is
     * one. The routine it calls is reported.
     */
    method CustomDpc() returns (called: Option<FnPtr>)
      ensures called.Some? <==> routine.Some?
      ensures routine.Some? ==> called == routine
    {
      match routine {
        case None =>
          called := None;
        case Some(rtn) =>
          called := Some(rtn);
      }
    }
  }

  /** After `init(r, c)` the getter returns `c` and the trampoline would call `r`. */
  method InitThenDispatch<T>(d: WduDpc<T>, r: FnPtr, c: Option<T>) returns (called: Option<FnPtr>)
    modifies d
    ensures d.ContextAsRef() == c && called == Some(r)
  {
    d.Init(r, c);
    called := d.CustomDpc();
  }
}
