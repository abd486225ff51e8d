/**
 * src/sync/spinlock.rs: `WduSpinLock` and its three acquire/release pairs.
 * Each pair's debug assertions on the current IRQL become preconditions;
 * what the kernel routine does to the IRQL is written out in the body.
 */
module Spinlock {
  import opened Types
  import opened Wrappers
  import opened Irql

  /** KLOCK_QUEUE_HANDLE: the kernel keeps the caller's IRQL in it. */
  datatype LockHandle = LockHandle(oldIrql: u8)

  class WduSpinLock {
    var oldIrql: u8
    /** The KSPIN_LOCK word itself. */
    var spinlock: u64
    var lockhandle: Option<LockHandle>
    /** Whether the caller holds the lock (the state the kernel keeps in the lock word). */
    ghost var held: bool

    constructor ()
      ensures oldIrql == 0 && spinlock == 0 && lockhandle == None && !held
    {
      oldIrql := 0;
      spinlock := 0;
      lockhandle := None;
      held := false;
    }

    /** `init`: KeInitializeSpinLock clears the lock word. */
    method Init()
      modifies this`spinlock, this`held
      ensures spinlock == 0 && !held
    {
      spinlock := 0;
      held := false;
    }

    /** `acquire`: KeAcquireSpinLockRaiseToDpc returns the IRQL it raised from. */
    method Acquire(cpu: Processor)
      requires cpu.irql <= DISPATCH_LEVEL
      modifies this`oldIrql, this`held, cpu
      ensures oldIrql == old(cpu.irql) && cpu.irql == DISPATCH_LEVEL && held
    {
      oldIrql := cpu.irql;
      cpu.irql := DISPATCH_LEVEL;
      held := true;
    }

    /** `release`: KeReleaseSpinLock lowers the IRQL back to `old_irql`. */
    method Release(cpu: Processor)
      requires cpu.irql == DISPATCH_LEVEL
      modifies this`held, cpu
      ensures cpu.irql == oldIrql && !held
    {
      cpu.irql := oldIrql;
      held := false;
    }

    /** `acquire_at_dpc`: the IRQL is left alone and `old_irql` is not touched. */
    method AcquireAtDpc(cpu: Processor)
      requires cpu.irql >= DISPATCH_LEVEL
      modifies this`held
      ensures held
    {
      held := true;
    }

    method ReleaseFromDpc(cpu: Processor)
      requires cpu.irql >= DISPATCH_LEVEL
      modifies this`held
      ensures !held
    {
      held := false;
    }

    /** `acquire_in_stack`: a fresh handle is stored and the kernel saves the IRQL in it. */
    method AcquireInStack(cpu: Processor)
      requires cpu.irql <= DISPATCH_LEVEL
      requires lockhandle.None?
      modifies this`lockhandle, this`held, cpu
      ensures lockhandle == Some(LockHandle(old(cpu.irql)))
      ensures cpu.irql == DISPATCH_LEVEL && held
    {
      lockhandle := Some(LockHandle(cpu.irql));
      cpu.irql := DISPATCH_LEVEL;
      held := true;
    }

    /** `release_in_stack`: the kernel restores the IRQL saved in the handle, which is then dropped. */
    method ReleaseInStack(cpu: Processor)
      requires lockhandle.Some?
      modifies this`lockhandle, this`held, cpu
      ensures cpu.irql == old(lockhandle.value.oldIrql)
      ensures lockhandle == None && !held
    {
      cpu.irql := lockhandle.value.oldIrql;
      lockhandle := None;
      held := false;
    }

    /** `acquire_for_dpc`: KeAcquireSpinLockForDpc returns the IRQL it raised from. */
    method AcquireForDpc(cpu: Processor)
      requires cpu.irql <= DISPATCH_LEVEL
      modifies this`oldIrql, this`held, cpu
      ensures oldIrql == old(cpu.irql) && cpu.irql == DISPATCH_LEVEL && held
    {
      oldIrql := cpu.irql;
      cpu.irql := DISPATCH_LEVEL;
      held := true;
    }

    method ReleaseForDpc(cpu: Processor)
      requires cpu.irql == DISPATCH_LEVEL
      modifies this`held, cpu
      ensures cpu.irql == oldIrql && !held
    {
      cpu.irql := oldIrql;
      held := false;
    }
  }

  /** A full acquire/release bracket returns the processor to the IRQL it started at. */
  method AcquireReleaseRestores(lock: WduSpinLock, cpu: Processor)
    requires cpu.irql <= DISPATCH_LEVEL
    modifies lock, cpu
    ensures cpu.irql == old(cpu.irql) && !lock.held
    ensures lock.lockhandle == old(lock.lockhandle)
  {
    lock.Acquire(cpu);
    lock.Release(cpu);
  }

  /** The same for the in-stack pair, which leaves the handle slot empty again. */
  method InStackBracketRestores(lock: WduSpinLock, cpu: Processor)
    requires cpu.irql <= DISPATCH_LEVEL && lock.lockhandle.None?
    modifies lock, cpu
    ensures cpu.irql == old(cpu.irql) && lock.lockhandle.None? && !lock.held
    ensures lock.oldIrql == old(lock.oldIrql)
  {
    lock.AcquireInStack(cpu);
    lock.ReleaseInStack(cpu);
  }
}

/**
 * The `lock_api` wrappers: each one delegates to one acquire/release pair
 * of the spinlock it wraps.
 */
module SpinlockLockApi {
  import opened Types
  import opened Wrappers
  import opened Irql
  import opened Spinlock

  class SpinLock {
    const inner: WduSpinLock

    constructor (inner: WduSpinLock)
      ensures this.inner == inner
    {
      this.inner := inner;
    }

    method Lock(cpu: Processor)
      requires cpu.irql <= DISPATCH_LEVEL
      modifies inner, cpu
      ensures inner.oldIrql == old(cpu.irql) && cpu.irql == DISPATCH_LEVEL && inner.held
      ensures inner.lockhandle == old(inner.lockhandle) && inner.spinlock == old(inner.spinlock)
    {
      inner.Acquire(cpu);
    }

    method Unlock(cpu: Processor)
      requires cpu.irql == DISPATCH_LEVEL
      modifies inner, cpu
      ensures cpu.irql == inner.oldIrql && !inner.held
      ensures inner.oldIrql == old(inner.oldIrql) && inner.lockhandle == old(inner.lockhandle)
    {
      inner.Release(cpu);
    }
  }

  class StackSpinLock {
    const inner: WduSpinLock

    constructor (inner: WduSpinLock)
      ensures this.inner == inner
    {
      this.inner := inner;
    }

    method Lock(cpu: Processor)
      requires cpu.irql <= DISPATCH_LEVEL && inner.lockhandle.None?
      modifies inner, cpu
      ensures inner.lockhandle == Some(LockHandle(old(cpu.irql))) && cpu.irql == DISPATCH_LEVEL && inner.held
      ensures inner.oldIrql == old(inner.oldIrql)
    {
      inner.AcquireInStack(cpu);
    }

    method Unlock(cpu: Processor)
      requires inner.lockhandle.Some?
      modifies inner, cpu
      ensures cpu.irql == old(inner.lockhandle.value.oldIrql) && inner.lockhandle == None && !inner.held
      ensures inner.oldIrql == old(inner.oldIrql)
    {
      inner.ReleaseInStack(cpu);
    }
  }

  class DpcSpinLock {
    const inner: WduSpinLock

    constructor (inner: WduSpinLock)
      ensures this.inner == inner
    {
      this.inner := inner;
    }

    method Lock(cpu: Processor)
      requires cpu.irql >= DISPATCH_LEVEL
      modifies inner
      ensures inner.held && inner.oldIrql == old(inner.oldIrql) && inner.lockhandle == old(inner.lockhandle)
    {
      inner.AcquireAtDpc(cpu);
    }

    method Unlock(cpu: Processor)
      requires cpu.irql >= DISPATCH_LEVEL
      modifies inner
      ensures !inner.held && inner.oldIrql == old(inner.oldIrql) && inner.lockhandle == old(inner.lockhandle)
    {
      inner.ReleaseFromDpc(cpu);
    }
  }
}
