# win-drvutils-rs, modelled in Dafny

win-drvutils-rs is a Rust library for Windows kernel-mode drivers. It wraps
the kernel's records in types with their own methods:

- IRP, IO_STATUS_BLOCK and the device-control stack location;
- DRIVER_OBJECT and its major-function table;
- MDL, FILE_OBJECT and UNICODE_STRING;
- KDPC;
- the notify-routine registrations for processes, threads and images;
- the object-manager callbacks;
- spin locks, remove locks and push locks.

Three sample drivers sit beside the library:

- `sioctl` copies data through the four IOCTL transfer methods;
- `event` queues timer-driven notifications and completes or signals them later;
- `obcallback` strips the terminate right from handles opened to a protected process.

This project models that core:

- **Kernel records.** Those the library writes in place are classes, and
  their methods carry `modifies` frames. Examples are `IoIrp.Irp`,
  `Mdl.KernelMdl`, the FILE_OBJECT and `ObCallbacks.PreOperationInfo`.
- **Clone wrappers.** Wrappers that the library passes around as Clone
  values are datatypes: `IoIrp.WduIrp`, `FileObj.WduFileObject`,
  `IoIrp.WduIoStatus` and the object-callback registration.
- **Kernel routine results.** What a kernel routine returns is a parameter
  of the member that calls it. This covers:
  - an allocation's address, an NTSTATUS and a referenced object;
  - whether a timer could be cancelled;
  - what RtlCompareMemory counted.
- **IRQL.** The processor's IRQL is the field `Irql.Processor.irql`. The
  lock methods raise it and restore it.
- **Panics.**
  - Library code: `unreachable!`, `assert!` and `todo!` become
    preconditions.
  - Sample handlers, panics on the queue: these become a `panicked`
    result, so that the input reaching them is visible. This covers
    `cancel_routine`'s `unwrap` of the record's position, `driver_unload`'s
    assertion and `timer_dpc`'s out-of-bounds `swap_remove`.
  - Sample handlers, panics on what the I/O manager and the driver's own
    setup guarantee: these become preconditions. They are `cleanup`'s
    `assert!(file_obj.is_valid())`, its `unwrap()` of the file context and
    its `assert!` on the rundown acquire's status
    (examples/event/src/lib.rs:284-289); `device_control`'s
    `assert!(fo.is_valid())` and `unwrap()` of the file context (lib.rs:345,
    348); and `timer_dpc`'s `unwrap()` of the DPC context (lib.rs:532).
  - The `debug_assert!(false)` arms (lib.rs:364, 535) are compiled out of a
    release build and are modelled as the plain return that follows them.

The modules follow the source files. The shared modules are:

- `Types`: integer widths, pointers and function pointers;
- `Wrappers`: `Option` and `Result`;
- `NtStatus`: status values;
- `Vec`: the `position` and `swap_remove` the queue relies on.

`Callbacks` holds the callback error type shared by the callback
registrations.

The event sample's handlers are split across four modules:

- `EventTypes`: the data model;
- `EventSpec`: pure specification functions, and lemmas about them;
- `EventHandlers`: the handlers, proved against those functions;
- `EventFindings`: the discrepancies listed under Findings below.

## Model

| member | source | states |
|---|---|---|
| Irql.Processor.constructor | src/lib.rs:221-223 | The processor starts at the IRQL KeGetCurrentIrql would report. |
| IoIrp.MajorFromCode | src/io/irp.rs:51-63 | Every major code the library handles decodes to the major function whose code it is. |
| IoIrp.MajorFromCodeRoundTrip | src/io/irp.rs:51-63 | Decoding a major function's own code gives that function back, and that code is always a handled one. |
| IoIrp.MajorPartition | src/io/irp.rs:65-79 | Read, write and device control are the I/O majors; create, close and cleanup are the file-object majors; every handled major is exactly one of the two. |
| IoIrp.WduIoStatus.SetStatus | src/io/irp.rs:118-120 | Setting the status changes the status and keeps the information field. |
| IoIrp.WduIoStatus.SetInfo | src/io/irp.rs:126-128 | Setting the information changes it and keeps the status. |
| IoIrp.IoStatusConstructors | src/io/irp.rs:89-128 | `new` is UNSUCCESSFUL with no information. Success-without-info equals success with info 0. The setters commute and rebuild the other constructors. |
| IoIrp.Wrap | src/io/irp.rs:133-140 | A wrapped IRP refers to that IRP, has no cancel routine of its own, and carries the IRP's major function. |
| IoIrp.WduIrp.Complete | src/io/irp.rs:175-186 | Completing writes the given IoStatus into the IRP and completes it exactly once more; a null IRP is left alone. |
| IoIrp.WduIrp.MarkPending | src/io/irp.rs:241-245 | The current stack location gains SL_PENDING_RETURNED and keeps its other control bits. |
| IoIrp.WduIrp.ReleaseCancelLock | src/io/irp.rs:247-251 | Releasing the cancel spin lock returns the processor to the IRP's CancelIrql. |
| IoIrp.WduIrp.SetCancelRtn | src/io/irp.rs:281-299 | Returns the wrapper copy's previous routine; the copy now holds the new one. Setting installs the library's trampoline and stores the updated copy as the IRP's DriverContext; clearing empties both fields. |
| IoIrp.CancelRoutineTrampoline | src/io/irp.rs:302-311 | The trampoline rebuilds the wrapper from the IRP and calls the routine stored in the DriverContext copy, exactly when that copy holds one. |
| DeviceControl.MethodFromIoctl | src/io/device_control.rs:18-22 | The transfer method is one of the four METHOD_ values. |
| DeviceControl.MethodOfEncoded | src/io/device_control.rs:12-22 | The method read back from an encoded IOCTL is the method it was encoded with. |
| DeviceControl.EncodeIoctlRoundTrip | src/io/device_control.rs:12-22 | `encode_ioctl` is injective on in-range fields: device type, function, access and method all read back unchanged. |
| DeviceControl.NewDeviceControl | src/io/device_control.rs:54-86 | The IOCTL code is truncated to 32 bits; the buffer lengths are kept; the buffer shape is chosen by the method (buffered, direct for IN/OUT_DIRECT, neither). |
| DeviceControl.BuffersOfNewDeviceControl | src/io/device_control.rs:54-129 | The input is Type3InputBuffer for NEITHER and SystemBuffer otherwise. The output is SystemBuffer for BUFFERED, the user buffer for NEITHER, and the MDL's system address for direct. Only direct requests report an MDL byte count, and for BUFFERED input and output coincide. |
| DeviceControl.UnknownBuffers | src/io/device_control.rs:101-129 | A request whose buffer shape is unknown offers no buffer and a zero MDL byte count. |
| Dpc.WduDpc.constructor | src/common/dpc.rs:20-26 | A new DPC has no KDPC routine, no context and no routine. |
| Dpc.WduDpc.Init | src/common/dpc.rs:73-86 | `init` stores the routine and context and points the KDPC at the library's custom DPC. |
| Dpc.WduDpc.CustomDpc | src/common/dpc.rs:104-113 | The custom DPC calls the stored routine exactly when one is stored. |
| Dpc.InitThenDispatch | src/common/dpc.rs:29-36 | After `init`, `context_as_ref` sees the stored context and the dispatch calls the routine given to `init`. |
| FileObj.WduFileObject.SetContext | src/io/file_obj.rs:31-35 | FsContext becomes the given context; FsContext2 is untouched. |
| FileObj.WduFileObject.SetContext2 | src/io/file_obj.rs:45-49 | FsContext2 becomes the given context; FsContext is untouched. |
| FileObj.WrapFileObject | src/io/file_obj.rs:16-22 | A wrapped file object is valid exactly when its pointer is not null. |
| FileObj.FileObjectEqualityIsPointerEquality | src/io/file_obj.rs:16-22 | Two wrappers are equal exactly when they wrap the same FILE_OBJECT. |
| DrvUtils.ModeFromI8 | src/lib.rs:87-95 | The two accepted KPROCESSOR_MODE values convert to a mode that `into` maps back to the same value. |
| DrvUtils.ModeRoundTrip | src/lib.rs:87-104 | Every mode converts to 0 or 1 and back to itself. |
| DrvUtils.RefByHandle | src/lib.rs:189-211 | Fails with the kernel's status exactly when ObReferenceObjectByHandle fails; otherwise returns the referenced object. |
| DrvUtils.GetSystemRoutineAddr | src/lib.rs:116-124 | None exactly when MmGetSystemRoutineAddress returns null; otherwise that address. |
| DrvUtils.BugCheck | src/lib.rs:164-183 | The bug check code defaults to the library's own code; the message is passed through; each missing parameter becomes 0 and each given one is passed through. |
| Vec.FirstIndex | examples/event/src/lib.rs:506-515 | `position`: the index found satisfies the predicate and no earlier element does; None means no element does. |
| Vec.Position | examples/event/src/lib.rs:545-548 | The scanning loop returns what `FirstIndex` specifies. |
| Vec.SwapRemove | examples/event/src/lib.rs:516 | `swap_remove(i)` shortens the queue by one. The last element takes slot `i`, and every other slot keeps its element. |
| Vec.SwapRemovePermutes | examples/event/src/lib.rs:516 | As multisets, the result plus the removed element is the original queue. |
| Vec.FirstIndexSamePredicate | examples/event/src/lib.rs:506-515 | Two searches whose predicates agree on every element find the same index. |
| Spinlock.WduSpinLock.constructor | src/sync/spinlock.rs:65-71 | A new spin lock is zeroed and not held, with no saved IRQL and no in-stack handle. |
| Spinlock.WduSpinLock.Init | src/sync/spinlock.rs:73-76 | `init` leaves the lock free. |
| Spinlock.WduSpinLock.Acquire | src/sync/spinlock.rs:78-82 | From IRQL at most DISPATCH_LEVEL, the lock is held at DISPATCH_LEVEL and the previous IRQL is saved. |
| Spinlock.WduSpinLock.Release | src/sync/spinlock.rs:85-91 | Releasing frees the lock and restores the saved IRQL. |
| Spinlock.WduSpinLock.AcquireAtDpc | src/sync/spinlock.rs:94-100 | At DISPATCH_LEVEL or above the lock is taken without changing the IRQL. |
| Spinlock.WduSpinLock.ReleaseFromDpc | src/sync/spinlock.rs:101-107 | Releasing from a DPC frees the lock and leaves the IRQL as it was. |
| Spinlock.WduSpinLock.AcquireInStack | src/sync/spinlock.rs:110-119 | The in-stack queued acquire holds the lock at DISPATCH_LEVEL and records the old IRQL in the queue handle. |
| Spinlock.WduSpinLock.ReleaseInStack | src/sync/spinlock.rs:120-129 | The in-stack release frees the lock and restores the IRQL recorded in the handle. |
| Spinlock.WduSpinLock.AcquireForDpc | src/sync/spinlock.rs:132-138 | The for-DPC acquire, from IRQL at most DISPATCH_LEVEL, holds the lock at DISPATCH_LEVEL and saves the old IRQL. |
| Spinlock.WduSpinLock.ReleaseForDpc | src/sync/spinlock.rs:139-145 | The for-DPC release frees the lock and returns to the IRQL the acquire saw. |
| Spinlock.AcquireReleaseRestores | src/sync/spinlock.rs:78-91 | An acquire followed by a release leaves the lock free at the starting IRQL. |
| Spinlock.InStackBracketRestores | src/sync/spinlock.rs:110-129 | An in-stack acquire and release pair does the same. |
| SpinlockLockApi.SpinLock.constructor | src/sync/spinlock.rs:154-156 | The `lock_api` mutex wraps the given spin lock. |
| SpinlockLockApi.SpinLock.Lock | src/sync/spinlock.rs:216-221 | Locking is the plain acquire: held at DISPATCH_LEVEL with the old IRQL saved, and the in-stack handle untouched. |
| SpinlockLockApi.SpinLock.Unlock | src/sync/spinlock.rs:223-228 | Unlocking is the plain release: the lock is freed and the saved IRQL restored. |
| SpinlockLockApi.StackSpinLock.constructor | src/sync/spinlock.rs:154-156 | The in-stack mutex wraps the given spin lock. |
| SpinlockLockApi.StackSpinLock.Lock | src/sync/spinlock.rs:243-248 | Its lock is the in-stack acquire: the old IRQL goes into the handle, and the plain saved IRQL is untouched. |
| SpinlockLockApi.StackSpinLock.Unlock | src/sync/spinlock.rs:250-255 | Its unlock is the in-stack release, restoring the IRQL from the handle. |
| SpinlockLockApi.DpcSpinLock.constructor | src/sync/spinlock.rs:154-156 | The at-DPC mutex wraps the given spin lock. |
| SpinlockLockApi.DpcSpinLock.Lock | src/sync/spinlock.rs:270-275 | Its lock takes the spin lock without changing the IRQL. |
| SpinlockLockApi.DpcSpinLock.Unlock | src/sync/spinlock.rs:277-282 | Its unlock frees the lock and leaves the IRQL. |
| RemoveLock.WduRemoveLock.constructor | src/sync/remove_lock.rs:33-38 | A new remove lock has no recorded tag. |
| RemoveLock.WduRemoveLock.Acquire | src/sync/remove_lock.rs:52-64 | The tag is recorded whatever happens, and IoAcquireRemoveLock's status is returned. |
| RemoveLock.WduRemoveLock.Release | src/sync/remove_lock.rs:66-76 | The release passes the recorded tag to the kernel and then clears it. |
| RemoveLock.WduRemoveLock.ReleaseAndWait | src/sync/remove_lock.rs:78-88 | Release-and-wait also passes the recorded tag and clears it. |
| RemoveLock.AcquireReleasePairsTags | src/sync/remove_lock.rs:52-76 | The release after an acquire passes the tag that acquire was given, and leaves no tag recorded. |
| PushLock.WduPushLock.constructor | src/sync/pushlock.rs:35-40 | A new push lock is zeroed and not held. |
| PushLock.WduPushLock.AcquiredShared | src/sync/pushlock.rs:48-53 | The lock is held shared. |
| PushLock.WduPushLock.AcquireExclusive | src/sync/pushlock.rs:55-60 | The lock is held exclusively. |
| PushLock.WduPushLock.Release | src/sync/pushlock.rs:62-74 | Release calls the kernel release that matches the mode held, shared or exclusive, and nothing when not held. |
| PushLock.WduPushLock.RawLockShared | src/sync/pushlock.rs:92-97 | The `lock_api` shared lock enters a critical region and then holds the lock shared. |
| PushLock.WduPushLock.RawLockExclusive | src/sync/pushlock.rs:132-135 | The `lock_api` exclusive lock enters a critical region and then holds the lock exclusively. |
| PushLock.WduPushLock.RawUnlock | src/sync/pushlock.rs:127-144 | The `lock_api` unlock releases in the mode held and leaves the critical region. |
| PushLock.RawSharedPairIsBalanced | src/sync/pushlock.rs:118-130 | A shared lock and unlock leave the critical region depth as it was, and release shared. |
| PushLock.RawExclusivePairIsBalanced | src/sync/pushlock.rs:132-144 | An exclusive lock and unlock leave the depth as it was, and release exclusively. |
| Mdl.LockOperation.Code | src/memory/mdl.rs:51-59 | The lock operation is one of the three LOCK_OPERATION values 0..2. |
| Mdl.LockOperationCodesDistinct | src/memory/mdl.rs:51-59 | Distinct operations have distinct codes. |
| Mdl.WduMdl.Wrap | src/memory/mdl.rs:74-80 | A wrapped MDL is neither locked nor owned. |
| Mdl.WduMdl.Allocate | src/memory/mdl.rs:82-107 | Fails with AllocateError exactly when IoAllocateMdl returns null. Otherwise the wrapper owns the returned MDL and has not locked it. |
| Mdl.WduMdl.GetSystemAddr | src/memory/mdl.rs:116-126 | Null for no MDL; MappedSystemVa when the MDL is already mapped or from non-paged pool; otherwise the new mapping. |
| Mdl.WduMdl.GetVa | src/memory/mdl.rs:143-150 | StartVa plus ByteOffset, wrapping at 64 bits; null for no MDL. |
| Mdl.WduMdl.GetBaseVa | src/memory/mdl.rs:155-160 | StartVa; null for no MDL. |
| Mdl.WduMdl.ByteCount | src/memory/mdl.rs:186-192 | ByteCount; 0 for no MDL. |
| Mdl.WduMdl.ProbeAndLock | src/memory/mdl.rs:171-177 | After probing, the pages are locked. |
| Mdl.WduMdl.Unlock | src/memory/mdl.rs:179-184 | After unlocking, they are not. |
| Mdl.WduMdl.Drop | src/memory/mdl.rs:61-70 | The drop unlocks exactly a locked MDL and frees exactly an owned one. |
| Mdl.WrappedMdlIsNotReleased | src/memory/mdl.rs:61-80 | Dropping a wrapped MDL unlocks and frees nothing. |
| Mdl.AllocatedLockedMdlIsReleased | src/memory/mdl.rs:61-107 | Dropping an allocated, locked MDL both unlocks and frees it. |
| Memory.DiscriminantsAreDistinctBits | src/memory/mod.rs:12-20 | Each POOL_FLAG discriminant is one distinct bit. |
| Memory.FromPoolType | src/memory/mod.rs:22-33 | NonPagedPool, NonPagedPoolExecute and NonPagedPoolNx map to non-paged; every other pool type maps to paged. |
| Memory.FromPoolTypeConverts | src/memory/mod.rs:22-43 | Every flag `From<POOL_TYPE>` yields converts to a u64 without reaching `unreachable!`: 0x40 for non-paged, 0x100 for paged. |
| Memory.IntoU64IsDiscriminant | src/memory/mod.rs:35-43 | On the accepted flags the u64 conversion is the discriminant and tells the two apart. |
| Unicode.ToUnicodeLen | src/strings/unicode.rs:79-81 | The byte length is even, and twice the unit count below 0x8000 units. |
| Unicode.ToUnicodeLenHalves | src/strings/unicode.rs:79-81 | Halving it gives the unit count modulo 0x8000: the u16 truncation is explicit. |
| Unicode.WduUnicodeStr.AsUnicodeString | src/strings/unicode.rs:109-115 | Length and MaximumLength are both the slice's byte length, and Buffer is the slice. |
| Unicode.StrFromPtr | src/strings/unicode.rs:90-103 | A null source gives the empty default; otherwise the slice covers MaximumLength / 2 units at Buffer. |
| Unicode.StrRoundTrip | src/strings/unicode.rs:90-115 | A slice under 0x8000 units, described and read back, is the same slice. |
| Unicode.WduUnicodeString.constructor | src/strings/unicode.rs:205-216 | The default string is empty and owns no buffer. |
| Unicode.WduUnicodeString.NpCompare | src/strings/unicode.rs:628-642 | Equal exactly when Length and MaximumLength agree and RtlCompareMemory counted all Length bytes. |
| Unicode.WduUnicodeString.Contains | src/strings/unicode.rs:714-729 | A needle longer than the string is never found; otherwise the search decides. |
| Unicode.WduUnicodeString.Drop | src/strings/unicode.rs:218-233 | The drop frees through the recorded allocator: nothing when there is none; RtlFreeUnicodeString for the OS; the Box for Rust; the pool free with the string tag for pool. |
| Unicode.Wrap | src/strings/unicode.rs:460-469 | A null source gives the default; otherwise the record is copied and owns nothing. |
| Unicode.Take | src/strings/unicode.rs:476-481 | A taken string is owned by the OS. |
| Unicode.Create | src/strings/unicode.rs:483-511 | Fails with InsufficientResources exactly when the pool allocation fails. Otherwise the string is pool-owned and both lengths equal the source's byte length. |
| Unicode.AllocPredicatesExclusive | src/strings/unicode.rs:441-454 | The three allocator predicates are mutually exclusive and cover every owned string. |
| Unicode.CreatedStringGetters | src/strings/unicode.rs:414-454 | A created string reports its unit count, twice that as bytes and as capacity, pool ownership, and emptiness exactly for an empty source. |
| Unicode.CreatedMatchesStr | src/strings/unicode.rs:109-115 | A string created from a slice has the lengths the slice's UNICODE_STRING description has. |
| Unicode.DefaultIsEmpty | src/strings/unicode.rs:205-233 | The default string is empty, owns nothing and frees nothing. |
| Unicode.DropFollowsOrigin | src/strings/unicode.rs:218-233 | Wrapped, taken and created strings are freed in three different ways: nothing, RtlFreeUnicodeString, and the pool free with the tag. |
| Unicode.WrapNullIsDefault | src/strings/unicode.rs:460-469 | Wrapping null gives an empty, unowned string of length 0. |
| PsCallbacks.WduPsCreateNotifyInfo.SetStatus | src/callbacks/process.rs:34-36 | The creation status the callback returns is written into the notify record. |
| PsCallbacks.WduPsCreateNotifyInfo.OpenNameAvailable | src/callbacks/process.rs:59-61 | True exactly when bit 0 of Flags (FileOpenNameAvailable) is set. |
| PsCallbacks.ExitHasNoRecord | src/callbacks/process.rs:22-24 | An exit notification is exactly one without a record. |
| PsCallbacks.ControlCallbacks | src/callbacks/process.rs:113-125 | Each callback version goes through its own PsSetCreateProcessNotifyRoutine variant, with the same routine and the given remove flag. |
| PsCallbacks.RemoveMirrorsAdd | src/callbacks/process.rs:113-125 | Removing calls the same routine with the same callback as adding, with only the remove flag flipped. |
| PsCallbacks.WduPsCallback.constructor | src/callbacks/process.rs:108-111 | Nothing is registered at first. |
| PsCallbacks.WduPsCallback.Register | src/callbacks/process.rs:127-136 | Succeeds exactly when the kernel does; only then is the callback stored. A failure reports the kernel's status. |
| PsCallbacks.WduPsCallback.Unregister | src/callbacks/process.rs:138-152 | Without a registration: NotRegistered and no call. With one: the removal call is made; its failure keeps the registration, its success clears it. |
| PsCallbacks.WduPsCallback.Drop | src/callbacks/process.rs:99-105 | The drop unregisters, ignores the outcome and removes the routine that was registered. |
| PsCallbacks.RegisterThenUnregister | src/callbacks/process.rs:99-152 | Registering and then unregistering names the same routine through the same API. A second removal reports NotRegistered, or the kernel's failure. A dropped, never-registered wrapper removes nothing. |
| ThCallbacks.RegisterCall | src/callbacks/thread.rs:33-49 | Each version registers through its own routine, PsSetCreateThreadNotifyRoutine or the Ex variant with its notify type. |
| ThCallbacks.RemovedRoutine | src/callbacks/thread.rs:51-71 | The routine removed is the one that the registered version wraps, legacy or Ex. |
| ThCallbacks.RemoveMirrorsRegister | src/callbacks/thread.rs:33-71 | The routine removed is the routine the registration passed to the kernel. |
| ThCallbacks.WduThCallback.constructor | src/callbacks/thread.rs:29-31 | Nothing is registered at first. |
| ThCallbacks.WduThCallback.Register | src/callbacks/thread.rs:33-49 | Succeeds exactly when the kernel does; only then is the callback stored. |
| ThCallbacks.WduThCallback.Unregister | src/callbacks/thread.rs:51-71 | NotRegistered without a registration. Otherwise the removal is made, and the slot is emptied exactly when it succeeds. |
| ThCallbacks.WduThCallback.Drop | src/callbacks/thread.rs:19-25 | The drop unregisters and ignores the outcome. |
| ThCallbacks.RegisterThenUnregister | src/callbacks/thread.rs:33-71 | After a successful registration, unregistering removes the routine registered. A second removal reports NotRegistered, or the kernel's failure if the first removal failed. |
| ImageCallbacks.WduImageCallback.constructor | src/callbacks/image.rs:23-26 | Nothing is registered at first. |
| ImageCallbacks.WduImageCallback.Register | src/callbacks/image.rs:28-40 | Succeeds exactly when PsSetLoadImageNotifyRoutine does; only then is the callback stored. |
| ImageCallbacks.WduImageCallback.Unregister | src/callbacks/image.rs:42-56 | NotRegistered without a registration. Otherwise the stored routine is removed, and the slot is emptied exactly when that succeeds. |
| ImageCallbacks.WduImageCallback.Drop | src/callbacks/image.rs:14-20 | The drop unregisters and ignores the outcome. |
| ImageCallbacks.RegisterThenDrop | src/callbacks/image.rs:14-56 | A failed registration leaves nothing for the drop to remove. After a successful one, the drop removes the registered routine. |
| ObCallbacks.ObjectTypeRoundTrip | src/callbacks/ob.rs:205-231 | On distinct kernel object types, a known type converts to its POBJECT_TYPE and back. A pointer is Unknown exactly when it is none of the three. |
| ObCallbacks.PreOperationInfo.SetDesiredAccess | src/callbacks/ob.rs:124-141 | The desired access of the create or duplicate parameters becomes the given mask. |
| ObCallbacks.PreOperationInfo.IsKernelHandle | src/callbacks/ob.rs:143-145 | True exactly when the KernelHandle flag bit is set. |
| ObCallbacks.PreOperationInfo.SetContext | src/callbacks/ob.rs:56-60 | The call context becomes the boxed context; the source asserts that none was set. |
| ObCallbacks.PostOperationInfo.CallContext | src/callbacks/ob.rs:157-162 | None exactly when CallContext is null; otherwise that context. |
| ObCallbacks.BuilderSetsFields | src/callbacks/ob.rs:243-283 | The default registration is empty. Each builder step sets its own field, whatever the order of the steps. |
| ObCallbacks.IntoNative | src/callbacks/ob.rs:285-303 | The native registration keeps the operations. It installs the library's internal pre and post routines exactly where the wrapper has callbacks. |
| ObCallbacks.IntoNativeObjectType | src/callbacks/ob.rs:285-303 | The native object type converts back to the registration's type. |
| ObCallbacks.CallsOfOne | src/callbacks/ob.rs:385-437 | A single registration is invoked exactly when its type, operation and phase match. |
| ObCallbacks.CallsAppend | src/callbacks/ob.rs:385-437 | Filtering a concatenation concatenates the filtered parts, in registration order. |
| ObCallbacks.CallsCount | src/callbacks/ob.rs:385-437 | The number of invocations is the number of matching registrations, never more than the registrations. None match means no invocation. |
| ObCallbacks.WduObCallback.constructor | src/callbacks/ob.rs:311-327 | No handle and no registrations at first. |
| ObCallbacks.WduObCallback.PushOpRegistration | src/callbacks/ob.rs:329-333 | The registration is appended at the end. |
| ObCallbacks.WduObCallback.Register | src/callbacks/ob.rs:335-364 | No registrations gives INVALID_PARAMETER; a failed array allocation gives InsufficientResources; otherwise ObRegisterCallbacks' status decides. The handle is set only on success. |
| ObCallbacks.WduObCallback.Unregister | src/callbacks/ob.rs:366-378 | Without a handle the error is INTERNAL_ERROR. With one, it is unregistered. Either way the handle is null afterwards. |
| ObCallbacks.WduObCallback.PreOpInternal | src/callbacks/ob.rs:385-412 | The pre-operation dispatcher calls exactly the matching registrations' pre callbacks, in order, and returns OB_PREOP_SUCCESS. |
| ObCallbacks.WduObCallback.PostOpInternal | src/callbacks/ob.rs:414-437 | The post-operation dispatcher calls exactly the matching post callbacks. |
| ObCallbacks.RunFiltered | src/callbacks/ob.rs:385-412 | The dispatch loop produces exactly the filtered invocation list. |
| ObCallbacks.CallsAfterPush | src/callbacks/ob.rs:329-333 | After a push, the invocations are the old ones plus those of the new registration. |
| Driver.SettersRegisterOneMajor | src/common/driver.rs:67-106 | Each dispatch setter registers its handler for exactly its own major function. The defaults register none. |
| Driver.DriverObject.constructor | src/common/driver.rs:109-118 | A fresh DRIVER_OBJECT has an empty table of 0x1c major functions, no unload, no AddDevice and no extension. |
| Driver.WduDriver.constructor | src/common/driver.rs:109-118 | `new` records the DRIVER_OBJECT, not yet built, with no handlers. |
| Driver.WduDriver.DeviceAdd | src/common/driver.rs:130-141 | The handler is recorded. AddDevice is pointed at the library's routine only when the driver has an extension. |
| Driver.WduDriver.Unload | src/common/driver.rs:143-151 | The handler is recorded, and DriverUnload is pointed at the library's routine. |
| Driver.WduDriver.InstallDispatcher | src/common/driver.rs:153-180 | The loop installs the dispatch handler in exactly the given slots and leaves the others unchanged. |
| Driver.WduDriver.FileObject | src/common/driver.rs:153-166 | The file-object handlers are recorded, and the create, close and cleanup slots are installed. |
| Driver.WduDriver.Io | src/common/driver.rs:168-180 | The I/O handlers are recorded, and the read, write and device-control slots are installed. |
| Driver.WduDriver.AllocExt | src/common/driver.rs:316-342 | Fails with DriverExtAllocFailed exactly when the allocation fails. Otherwise the driver is initialised and its state is stored as the extension. |
| Driver.WduDriver.Build | src/common/driver.rs:190-200 | Building twice gives AlreadyInit. A first build succeeds exactly when the extension is allocated, and then stores the initialised state. |
| Driver.FileObjectThenIo | src/common/driver.rs:153-180 | After both setters, every handled major points at the dispatch handler and every other slot is as before. |
| Driver.FoDispatch | src/common/driver.rs:212-228 | A file-object major calls the handler registered for it, if any. |
| Driver.IoDispatchStatus | src/common/driver.rs:230-242 | An I/O major calls its registered handler and returns its status; without a handler the status is SUCCESS. |
| Driver.DispatchHandler | src/common/driver.rs:280-314 | Without an extension nothing is called and the status is SUCCESS. Otherwise the registered handler is called; file-object majors return SUCCESS and I/O majors the handler's status. |
| Driver.DispatchStatusSource | src/common/driver.rs:280-314 | A status other than SUCCESS can only come from a registered I/O handler. |
| Driver.AddDeviceInternal | src/common/driver.rs:203-206 | The registered AddDevice handler's status, or SUCCESS without one. |
| Driver.AddDevice | src/common/driver.rs:263-278 | SUCCESS without an extension; otherwise the internal routine's status. |
| Driver.DriverUnloadCall | src/common/driver.rs:252-261 | Without an extension nothing is called; otherwise the registered unload handler is. |
| Driver.BuildThenDispatch | src/common/driver.rs:190-314 | After a successful build, dispatching a major reaches the handler registered for it, and unload reaches the registered unload. A failed build dispatches as a driver without an extension. |
| Sioctl.FromMdlError | examples/sioctl/src/lib.rs:83-87 | Every MDL error becomes the sample's MdlError. |
| Sioctl.IoctlCodes | examples/sioctl/src/lib.rs:92-100 | The four IOCTL codes have their encoded values, and each carries its transfer method. |
| Sioctl.DataLengths | examples/sioctl/src/lib.rs:206-311 | The buffered and direct reply is 31 bytes; the neither reply is 48. |
| Sioctl.NeitherResultMeaning | examples/sioctl/src/lib.rs:265-322 | METHOD_NEITHER succeeds exactly when both MDLs are allocated and mapped; otherwise it gives MdlError. The count is the output MDL's byte count or 48, whichever is smaller. |
| Sioctl.NeitherCountFromOutputSize | examples/sioctl/src/lib.rs:265-322 | The count is the output buffer length truncated to 32 bits, capped at 48. |
| Sioctl.MethodNeither | examples/sioctl/src/lib.rs:265-322 | The handler returns the specified result and releases exactly the MDLs it obtained. |
| Sioctl.Outcome | examples/sioctl/src/lib.rs:170-263 | Information is non-zero only on success. |
| Sioctl.OutcomeRejections | examples/sioctl/src/lib.rs:170-200 | Empty buffers give INVALID_PARAMETER. Then a null output buffer gives INSUFFICIENT_RESOURCES. Only then does an unknown IOCTL give INVALID_DEVICE_REQUEST. |
| Sioctl.OutcomeSucceedsExactly | examples/sioctl/src/lib.rs:170-263 | Succeeds exactly when both buffers are non-empty, the output buffer exists, the IOCTL is known and, for NEITHER, `method_neither` succeeded. The status is one of four values. |
| Sioctl.OutcomeInformation | examples/sioctl/src/lib.rs:200-263 | For BUFFERED and OUT_DIRECT, the information is the output size capped at the 31-byte reply. For IN_DIRECT it is the MDL byte count; for NEITHER, the neither count. |
| Sioctl.HandleDeviceControl | examples/sioctl/src/lib.rs:170-263 | The request is completed once, with the specified status and information, and the same status is returned. |
| Sioctl.CompleteSuccess | examples/sioctl/src/lib.rs:160-168 | Create and close complete once, with success and no information. |
| EventTypes.DeviceExtension.constructor | examples/event/src/lib.rs:222-224 | The extension starts with an initialised, free queue lock and an empty queue. |
| EventSpec.NormalizeDueTime | examples/event/src/lib.rs:428-431 | The due time passed to the timer is never positive, so it is always relative. |
| EventSpec.DueTimeIsRelative | examples/event/src/lib.rs:428-431 | A non-positive due time passes through and a positive one is negated, so the magnitude is kept; normalising twice is normalising once. |
| EventSpec.SameIsEquivalence | examples/event/src/lib.rs:135-154 | `NotifyData::eq` is reflexive, symmetric and transitive. |
| EventSpec.SameIgnoresCopyState | examples/event/src/lib.rs:135-154 | Copies that differ in extension or cancel slot compare equal; different variants never do. |
| EventSpec.MatchesIrpIsMatchesData | examples/event/src/lib.rs:506-548 | The cancel routine's lookup and the DPC's lookup for the same IRP find the same record. |
| EventSpec.SwapRemoveWellFormed | examples/event/src/lib.rs:516 | Removing a record keeps every IRP record's IRP real. |
| EventSpec.RegisterResultCases | examples/event/src/lib.rs:379-496 | A short or null buffer or an unknown type is INVALID_PARAMETER. An uncancelled IRP registration gives PENDING, a cancelled one CANCELLED. An event registration succeeds or fails with the kernel's status. |
| EventSpec.PendingExactlyWhenQueued | examples/event/src/lib.rs:335-496 | `device_control` returns PENDING exactly when it queued an IRP registration, and SUCCESS exactly when it queued an event registration. |
| EventSpec.CleanupVisit | examples/event/src/lib.rs:297-322 | The retain closure as written keeps a record of another file object whose timer it could not cancel. It drops an event after dereferencing it. It collects an IRP only when its copy's slot was empty. |
| EventSpec.CleanupVisitPartition | examples/event/src/lib.rs:297-322 | Keep, collect and drop are exclusive, and each concerns the record given. |
| EventSpec.CleanupUpTo | examples/event/src/lib.rs:297-322 | Every record of the prefix ends up in exactly one of kept, collected and dereferenced: the three lengths add up to the prefix length. |
| EventSpec.IrpsBelowIsUpTo | examples/event/src/lib.rs:297-325 | The queue's IRPs as a set comprehension equal their record-by-record union. |
| EventSpec.IrpInQueue | examples/event/src/lib.rs:297-325 | A record's IRP is among the queue's IRPs. |
| EventSpec.TouchedByInQueue | examples/event/src/lib.rs:297-322 | The IRP the closure clears for a record is one of the queue's. |
| EventSpec.TouchedInQueue | examples/event/src/lib.rs:297-322 | Every IRP the closure clears is one of the queue's. |
| EventSpec.CleanupKeepsUntouched | examples/event/src/lib.rs:297-303 | Every record of another file object whose timer could not be cancelled is among the records kept. |
| EventSpec.CleanupResultFromQueue | examples/event/src/lib.rs:297-325 | What cleanup keeps stays well formed. Each IRP it collects is a real IRP of the queue, with its copy's slot cleared. |
| EventSpec.CleanupCollectsNothingWhenArmed | examples/event/src/lib.rs:297-322 | On a queue where every copy still holds its cancel routine, cleanup collects no IRP. |
| EventSpec.OccAbsent | examples/event/src/lib.rs:325-330 | An IRP no collected wrapper refers to is never completed. |
| EventHandlers.NewRecord | examples/event/src/lib.rs:414-434 | The record has an initialised DPC bound to `timer_dpc` with its data, and a timer armed with the normalised due time. |
| EventHandlers.IrpNotification | examples/event/src/lib.rs:405-453 | A cancelled IRP is refused with CANCELLED and the queue is unchanged. Otherwise the IRP is marked pending, its cancel routine installed, exactly one record pushed and PENDING returned. The IRQL is restored and the lock freed. |
| EventHandlers.EventNotification | examples/event/src/lib.rs:456-496 | The handle is referenced with the requestor's mode. A failed reference returns its status with the queue unchanged. Otherwise exactly one event record is pushed and SUCCESS returned. |
| EventHandlers.HandleRegisterEvent | examples/event/src/lib.rs:379-403 | The result is the specified registration result, and the queue changes exactly when it succeeds. |
| EventHandlers.DeviceControl | examples/event/src/lib.rs:335-376 | The specified status is returned. The request is completed once unless it is PENDING, and the rundown tag is kept only when the acquire failed. |
| EventHandlers.CancelRoutine | examples/event/src/lib.rs:499-526 | A missing record panics, leaving everything as it was. Otherwise the first record of this IRP is removed and dropped whatever the timer's cancel returned, the IRP completed once as CANCELLED, and the IRQL returned to CancelIrql. |
| EventHandlers.TimerDpcBegin | examples/event/src/lib.rs:529-581 | The DPC's own record is found by equality. An event record is signalled, dereferenced and removed. An armed IRP record is completed with success and the index resumed; a disarmed one is left for the cancel routine. |
| EventHandlers.TimerDpcEnd | examples/event/src/lib.rs:562-584 | Panics exactly when the stale index is out of bounds; otherwise it removes whatever record is at that index now. |
| EventHandlers.TimerDpc | examples/event/src/lib.rs:529-584 | With no concurrent change to the queue, `timer_dpc` never panics and removes its own record. |
| EventHandlers.DriverUnload | examples/event/src/lib.rs:230-245 | The unload assertion fails exactly when registrations are left in the queue. |
| EventHandlers.VisitForCleanup | examples/event/src/lib.rs:297-322 | One call of the closure produces the specified outcome, and clears the IRP's cancel fields when it takes an IRP. |
| EventHandlers.RetainStep | examples/event/src/lib.rs:297-322 | One iteration extends the result and the cleared set as the specification says, and leaves the other IRPs untouched. |
| EventHandlers.RetainLoop | examples/event/src/lib.rs:297-322 | The loop produces the specified result, clears exactly the IRPs it takes, and leaves the queue's other IRPs as they were. |
| EventHandlers.RetainForCleanup | examples/event/src/lib.rs:297-322 | `retain_mut` replaces the queue with the kept records and clears exactly the taken IRPs. |
| EventHandlers.CompleteCancelled | examples/event/src/lib.rs:325-330 | Each collected IRP is completed as CANCELLED once per occurrence; the other IRPs are unchanged. |
| EventHandlers.LockedRetain | examples/event/src/lib.rs:294-323 | The retain runs under the lock, which is freed afterwards at the starting IRQL, and collects only the queue's IRPs. |
| EventHandlers.CompleteAfterCleanup | examples/event/src/lib.rs:325-333 | The collected IRPs are completed as cancelled, then the request itself with success. |
| EventHandlers.FilterAndComplete | examples/event/src/lib.rs:294-333 | The queue is filtered as specified and the collected IRPs completed; each other IRP of the queue is untouched, and the request completes with success. |
| EventHandlers.Cleanup | examples/event/src/lib.rs:279-333 | Cleanup drains the file object's rundown, then filters and completes. |
| EventFindings.RetainTestTakesOtherFiles | examples/event/src/lib.rs:297-300 | As written, a record of another file object whose timer is cancelled is taken by this file object's cleanup. |
| EventFindings.IntendedCleanupSparesOtherFiles | examples/event/src/lib.rs:297-300 | With the intended test every other file object's record survives unchanged, whatever its timer would answer. |
| EventFindings.ArmedIrpIsKeptNotCompleted | examples/event/src/lib.rs:305-318 | As written, an owned IRP whose copy holds the cancel routine is kept uncompleted, with its routine cleared. |
| EventFindings.IntendedCleanupVisitOutcomes | examples/event/src/lib.rs:305-318 | With the branches right, an owned IRP whose timer was cancelled is collected exactly when the kernel's exchange says its routine was still set. |
| EventFindings.IntendedCleanupCollectsOwned | examples/event/src/lib.rs:297-325 | Over a whole queue, every owned IRP that is still ours to complete is collected. |
| EventFindings.StaleIndexRemovesWrongRecord | examples/event/src/lib.rs:545-580 | As written, a cleanup between the two locked sections makes `timer_dpc` remove another record and keep its own. |
| EventFindings.IntendedTimerDpcEndRemovesOwnRecord | examples/event/src/lib.rs:562-581 | Looking the record up again removes exactly the DPC's own record, or nothing when it is gone. |
| EventFindings.IntendedTimerDpcEndInScenario | examples/event/src/lib.rs:545-580 | In the scenario above, the intended end removes the DPC's record and keeps the other. |
| EventFindings.CopiesBothClaim | src/io/irp.rs:281-299 | As written, two clones of an armed wrapper both get Some from clearing their slot. |
| EventFindings.ExchangeCancelRoutine | src/io/irp.rs:278-299 | The intended exchange returns the IRP's own CancelRoutine and replaces it. |
| EventFindings.ClearTwiceClaimsOnce | src/io/irp.rs:278-299 | With the shared slot, of two parties clearing the routine at most one sees it set. |
| EventFindings.CancelDropsPendingTimer | examples/event/src/lib.rs:515-520 | As written, a record whose timer is armed and could not be cancelled is removed and dropped. |
| EventFindings.IntendedCancelSparesPendingTimer | examples/event/src/lib.rs:504-520 | With the intended section the record leaves the queue either way, is dropped exactly when its timer was cancelled and is otherwise left to its DPC, never both. |
| ObProtect.FromCallbackError | examples/obcallback/src/lib.rs:91-95 | Every callback error becomes the sample's CallbackError. |
| ObProtect.FromUnicodeError | examples/obcallback/src/lib.rs:97-101 | Every string error becomes the sample's UnicodeError. |
| ObProtect.ProtectRegistrationsCallOnce | examples/obcallback/src/callback.rs:133-160 | One registration pair invokes the pre callback exactly once, for a process or thread handle operation, and never for other types. |
| ObProtect.ReprotectCallsPreTwice | examples/obcallback/src/callback.rs:133-160 | Registering a second time without clearing the list makes every process or thread open invoke the pre callback twice. |
| ObProtect.TargetMeaning | examples/obcallback/src/callback.rs:193-255 | A handle is targeted exactly when it is to the protected process, or to one of its threads, from another process. |
| ObProtect.ClearBitIsTerminate | examples/obcallback/src/callback.rs:258-262 | Both object types clear the terminate right, bit 0x0001. |
| ObProtect.FilterClearsBit | examples/obcallback/src/callback.rs:263-265 | The filtered access lacks the terminate right. |
| ObProtect.FilterKeepsOtherBits | examples/obcallback/src/callback.rs:263-265 | Every other right is kept. |
| ObProtect.FilterIdempotent | examples/obcallback/src/callback.rs:263-265 | Filtering twice is filtering once. |
| ObProtect.FilterClearsTerminateOnly | examples/obcallback/src/callback.rs:258-265 | The filter removes exactly the terminate right, and is idempotent. |
| ObProtect.PreOperationCb | examples/obcallback/src/callback.rs:188-295 | Untargeted handles are left untouched. A targeted one gets the call context boxed, and a user-mode handle loses the terminate right. |
| ObProtect.Protect.constructor | examples/obcallback/src/callback.rs:88-95 | Not installed, no target, an empty name and no registrations. |
| ObProtect.Protect.RegisterCallback | examples/obcallback/src/callback.rs:133-160 | Appends the process and thread registrations to whatever was there. Succeeds exactly when the kernel does, and only then is the callback installed. |
| ObProtect.Protect.RegisterCallbackOnce | examples/obcallback/src/callback.rs:133-160 | The corrected registration leaves exactly one pair in the list. |
| ObProtect.Protect.DeleteProtectNameCb | examples/obcallback/src/callback.rs:162-166 | Succeeds exactly when a handle was registered, and then uninstalls; the handle is null afterwards. |
| ObProtect.Protect.CheckProcessMatch | examples/obcallback/src/callback.rs:168-186 | On a name match the process and its id become the target. Otherwise the target is unchanged. |
| ObProtect.Protect.ProtectNameCb | examples/obcallback/src/callback.rs:101-131 | A null input is INVALID_PARAMETER, a failed name allocation a UnicodeError, a failed registration a CallbackError. Otherwise protect and reject follow the operation, and an unknown operation is INVALID_PARAMETER with the callback installed. |

## Left out

- **Concurrency.** The queue lock is modelled as one atomic locked section,
  in which the handler is the only actor. The interleaving that breaks
  `timer_dpc` is written out by hand in
  `EventFindings.StaleIndexRemovesWrongRecord`.
- **Oracles.** The kernel's own behaviour comes in as parameters: timers
  firing, KeCancelTimer, KeSetEvent, allocations, ObReferenceObjectByHandle
  and RtlCompareMemory. So does the Rust string search that `contains`
  runs, `to_string().to_lowercase().contains(..)` when case-insensitive
  (src/strings/unicode.rs:714-729), which is the `found` parameter of
  `Unicode.WduUnicodeString.Contains`.
  The library routines that only forward to the kernel are not modelled:
  `try_from_u32`, `try_from_u64`, `try_from_utf8`, `duplicate`,
  `new_lower`, `new_upper` (RtlUpcaseUnicodeString), `compare` and
  `validate`.
- **Memory copies.** Byte copies into user and system buffers are not
  modelled; only their lengths are. That includes `copy_from` in the sioctl
  handlers, which copies `data.len()` bytes whatever the output size
  (examples/sioctl/src/lib.rs:210, 233). It also includes `create`, which
  copies `len` u16 units where `len` is a byte count
  (src/strings/unicode.rs:502).
- **Ownership.** Box lifetimes, use after free and `copy()`'s boxed Vec
  pointer are not modelled. Neither is the push lock's `lock_api` cast of
  `&self` (src/sync/pushlock.rs:118-145), which passes the address of a
  reference.
- **Post-operation callback.** The obcallback `post_operation_cb` is not
  modelled: it only logs and frees the boxed context, and its inverted
  comparisons change nothing but a log line.
- **Power and PnP.** Their `todo!()` dispatch routines are not modelled.
- **Sample drivers' entry and unload glue.** Device creation, symbolic
  links and the obcallback lib.rs setup are not modelled. The protect and
  unprotect IOCTLs (examples/obcallback/src/lib.rs:288-317) appear only as
  the scenario of Finding 5.
- **Getters left out.** `device()`, `get_wdu_driver`, and the Ps*
  getters for the command line, the image file name and the file object.
- PsCallbacks.WduPsCallback.Register: a second registration overwrites the
  stored one as the source does. The routine registered first is not
  tracked, and its removal is lost.
- PsCallbacks.ControlCallbacks: the legacy routine's `remove` argument is
  a u8 in the source. Here it is a bool, because only 0 and 1 are passed.
- ObCallbacks.WduObCallback.Register: on failure the handle is assumed to
  be left as it was.
- EventHandlers.CancelRoutine: the removed record, which owns the KTIMER
  and KDPC, is dropped even when its timer could not be cancelled, so a
  DPC still queued or running refers to freed storage. The model reports
  the dropped record; the freeing itself and the DPC's later accesses are
  not modelled. The sixth row under Findings states the discrepancy.
- **Findings behaviour.** The handlers keep the behaviour as written. The
  corrected definitions stand beside them in `EventFindings` and
  `ObProtect`.

## Findings

| source | as written | input that shows it | evidently intended | confidence | as-written member | corrected member |
|---|---|---|---|---|---|---|
| examples/event/src/lib.rs:297-300 | `x.file_object != file_obj && !x.timer.cancel()` keeps only another file object's record whose timer cannot be cancelled; it takes every other record of other file objects. The closing file object's own records are taken without `timer.cancel()` ever being asked, because `&&` stops at the first operand, as `EventSpec.CleanupVisit` states. | Two handles, each with a pending event registration. Closing the first dereferences and drops the second's event. | Spare other file objects' records; cancel only this file object's timers. | not executed | EventFindings.RetainTestTakesOtherFiles | EventFindings.IntendedCleanupSparesOtherFiles |
| examples/event/src/lib.rs:305-318 | Collects an IRP when `set_cancel_rtn(None)` returns None, and keeps it when Some. This is the opposite of the comment. | An owned IRP registration whose copy holds the cancel routine: cleanup clears the routine and keeps the IRP, never completing it. | Collect when the routine was still set; keep it for the running cancel routine otherwise. | not executed | EventFindings.ArmedIrpIsKeptNotCompleted | EventFindings.IntendedCleanupVisitOutcomes |
| examples/event/src/lib.rs:545-580 | `timer_dpc` keeps the index found in the first locked section across the release and uses it in `swap_remove` later. | Queue [a, b, c]: b's DPC finds index 1; cleanup drops a; `swap_remove(1)` on [b, c] removes c. | Look the record up again under the lock and remove it if it is still there. | not executed | EventFindings.StaleIndexRemovesWrongRecord | EventFindings.IntendedTimerDpcEndRemovesOwnRecord |
| src/io/irp.rs:281-299 | `set_cancel_rtn` exchanges a field of the cloned wrapper rather than the IRP's CancelRoutine. | Two clones of an armed wrapper: both get Some on clearing, so the cleanup and DPC paths can both claim the request. | An atomic exchange on the IRP's own CancelRoutine, shared by every copy. | not executed | EventFindings.CopiesBothClaim | EventFindings.ClearTwiceClaimsOnce |
| examples/obcallback/src/callback.rs:133-160 | `register_callback` pushes two more registrations each time it is called, and `unregister` does not clear the list. | Protect, unprotect, protect, then open the protected process from another process. The pre callback runs twice, and the second `set_context` finds a context already set. | Clear the list before pushing, so each registration holds one pair. | not executed | ObProtect.ReprotectCallsPreTwice | ObProtect.Protect.RegisterCallbackOnce |
| examples/event/src/lib.rs:515-520 | `cancel_routine` swap-removes the record and drops it whatever `timer.cancel()` returned; the record owns the KTIMER and KDPC (lib.rs:156-161), and WduTimer has no Drop that cancels. | A registration whose timer fires while the IRP is being cancelled: KeCancelTimer returns false, the record is freed, and the queued DPC then reads the freed KDPC and context. | Drop the record only when the timer was cancelled; otherwise leave it to the DPC, which finds no queued record and frees it. | not executed | EventFindings.CancelDropsPendingTimer | EventFindings.IntendedCancelSparesPendingTimer |
