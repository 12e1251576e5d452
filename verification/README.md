# sleepy_penguin: a verified model

sleepy_penguin gives Ruby access to epoll, kqueue and inotify. Its high-level objects keep userspace
state beside kernel state, and most of what can go wrong lies between the two. This project models
that state in Dafny and proves what holds over every run.

* **Epoll as a cache** (`epoll_model`, `epoll_calls`, `epoll_world`, `epoll_theorems`, `epoll_wait`,
  `epoll_limits`). `epoll_model` gives each call of an Epoll object as a function on what the call can
  see: its process, the kernel's instances, the arrays shared by all dups, and its own `@io` and `@pid`.
  `epoll_world` is the tree of processes: any interleaving of calls, forks, dups, closes, file opens and
  closes, descriptor reuse, aliased IO objects, ONESHOT deliveries, failing system calls and failing
  re-initialisations is a sequence of steps, and `After` is the world it leads to.
* **The objects** (`epoll_object`, `kqueue_object`). The classes as they are written, with fields that are
  updated in place and loops over `@copies`; every method is proved against its function in `epoll_model`.
* **The buffer pool** (`tls_pool`), **interrupted waits** (`epoll_deadline`, `kevent_wait`), **inotify**
  (`inotify`), **timespec conversion** (`timespec`), and the glob and `$name` languages of `setup.rb`
  (`setup_glob`, `setup_config`).

`dafny verify dfyconfig.toml` checks everything.

## What the kernel and the runtime are taken to do

* `epoll_ctl` is keyed by (open file, descriptor), fails with ENOENT, EEXIST or EBADF exactly when the entry
  is absent, present, or the descriptor is not open, and may fail otherwise at any time without effect.
* Closing a descriptor drops the file's entries when no process has the file open any more.
* `fork` copies a process's descriptors, handles and Ruby objects. Process ids are not reused, files get
  fresh identities, and nobody calls `epoll_ctl` or `close` on the raw epoll descriptor.
* A world holds one dup family: families share no state but the process's descriptors. Epoll handles are named by
  identity; their own descriptor numbers are not in the descriptor table of watched files.
* Calls on one dup family exclude each other (`@mtx`), so a call is one step.
* The allocator returns an address that is not in use. CLOCK_MONOTONIC does not go back.
* `kevent` is interrupted by a signal only after it has taken its changes.

## What the proofs turned up

* Agreement of cache and kernel holds at any fork depth for an object that was never dup'ed, in the process
  that created the family, and in every process it forks; it can fail after a dup that follows a fork, once
  the child forks again. The exact condition, at the moment of a fork, is that either one handle of the
  family is open or every open one is in `@copies` (`Covered`): then nothing the child does can break agreement
  (`CacheKernelAgreement`), otherwise four steps of the child do (`UncoveredForkCanBreak`). The cause is that
  re-initialisation leaves the new `@io` out of `@copies` (lib/sleepy_penguin/epoll.rb:32-35). Coverage is
  decided at the fork and never changes afterwards (`CoverageDecidedAtFork`).
* Retention during `wait` holds for entries the process can address (`RetainedWhenYielded`), and only for
  those: where a child keeps a file open whose descriptor the parent has closed, two steps of the parent leave
  a deliverable entry whose object nothing marks (`OrphanedCanBeUnmarked`; a run from the start is in
  `SurvivingFileIsNotRetained`).
* A failed allocation that was to replace the cached buffer leaves the thread-local pointer on freed memory;
  every other failure leaves the pool intact (`FailureExactly`).
* When clock and timeout nanoseconds add up to exactly 10^9, the kevent deadline is not normalised, and an
  interruption on a full second asks the kernel for 10^9 nanoseconds (`NormalisedExactly`, `UnnormalisedRetry`).
* The expression compiled from an empty glob list matches the empty name (`GlobCompilation`).
* Where code and documentation differ the model follows the code: `mod` returns the mask, not zero;
  `set` takes an Integer only; six-element arrays in a kevent changelist raise TypeError; growing the inotify
  buffer ends in the exception meant for a negative length.

## Model

| member | source | states |
|---|---|---|
| EpollTheorems.CacheKernelAgreement | lib/sleepy_penguin/epoll.rb:77-187 | After every run, for every active object of a covered process: each kernel entry the process can address has its object and mask in the slot of its descriptor, is armed or ONESHOT, and its object is usable; a slot has an object exactly when it has a mask; without aliases every slot of a usable object is backed by an entry. |
| EpollTheorems.SoloIsCovered | lib/sleepy_penguin/epoll.rb:26-37 | An object never dup'ed is covered in every descendant, at any fork depth. |
| EpollTheorems.RootIsCovered | lib/sleepy_penguin/epoll.rb:9-17 | A family, dup'ed or not, is covered in the process that created it. |
| EpollTheorems.FirstForkIsCovered | lib/sleepy_penguin/epoll.rb:26-37 | A family, dup'ed or not, is covered in every process forked by its creator, from the fork on and whatever happens afterwards. |
| EpollTheorems.CoverageDecidedAtFork | lib/sleepy_penguin/epoll.rb:26-37 | Over every continuation, a forked child is covered if and only if its parent, at the fork, had one open handle of the family or all open ones in `@copies`. |
| EpollTheorems.ForkIsolation | lib/sleepy_penguin/epoll.rb:19-37 | Over any tree of forks, dups and calls, for Epoll and Kqueue: every system call of a request targets an instance the calling process created, and no instance of another process changes. |
| EpollTheorems.DupAndCloseIsolation | lib/sleepy_penguin/epoll.rb:194-199 | Neither dup nor close writes into an existing instance. |
| EpollTheorems.SetInEveryRun | lib/sleepy_penguin/epoll.rb:160-187 | In every run of a covered process without aliases, `set` raises only for a closed io, a failing fork check or another kernel fault; when it returns it leaves an armed entry (io, events) and every other entry and instance as the fork check left them, with or without a system call. |
| EpollTheorems.DeleteInEveryRun | lib/sleepy_penguin/epoll.rb:114-125 | In every run of a covered process, `delete` raises only for a closed io, a failing fork check or another kernel fault; when it returns it leaves no entry for the io, drops nothing else, and is non-nil exactly when there was one. |
| EpollTheorems.WaitInEveryRun | lib/sleepy_penguin/epoll.rb:57-69 | After any run, for Epoll and Kqueue: a wait on an open object whose fork check succeeds issues exactly one blocking system call, on an instance its own process created (in a forked child a new, empty one); on a closed object it raises IOError and issues none; a failing check is passed on. |
| EpollTheorems.DupInEveryRun | lib/sleepy_penguin/epoll.rb:260-270 | After any run, for Epoll and Kqueue: a dup of an open object adds one object of this process, on a handle of its own on the source's instance (after a fork, the new one), entered in `@copies`, and every other object keeps its `@io` and `@pid`; a dup of a closed one copies it; a failure adds none. |
| EpollTheorems.CloseInEveryRun | lib/sleepy_penguin/epoll.rb:194-199 | After any run, for Epoll and Kqueue: close closes exactly the object's handle, removes exactly its entries from `@copies`, leaves the arrays alone, and raises exactly on a handle already closed. |
| EpollTheorems.CheckFirst | lib/sleepy_penguin/epoll.rb:19-24 | Every call does what it would do on the state after its fork check. |
| EpollTheorems.CheckFailsFirst | lib/sleepy_penguin/epoll.rb:26-37 | A failing fork check ends every call with its exception, without a system call. |
| EpollTheorems.ChildLooksUpNothing | lib/sleepy_penguin/epoll.rb:222-228 | The first lookup in a forked child answers nil for every descriptor, and re-initialises. |
| EpollTheorems.ReinitSpoilsSibling | lib/sleepy_penguin/epoll.rb:26-37 | When one object re-initialises, an active sibling stays usable if and only if its handle is not in `@copies`, and then the emptied cache agrees with its list if and only if the list holds nothing addressable. |
| EpollTheorems.DupFamilyShares | lib/sleepy_penguin/epoll.rb:260-270 | Over every run, in the creating process: `@copies` maps exactly the open handles to their owners, all name one instance, and without forks the instance lives exactly while some copy is open. |
| EpollTheorems.SeenThroughEveryCopy | lib/sleepy_penguin/epoll.rb:222-228 | After any run, an add, mod or set through one copy that returns is found through any other, in the slot and (if it reached the kernel, or without aliases) in the interest list with its mask; after a del, or a delete that answers the io, neither is found through any. |
| EpollTheorems.SameThroughCopies | lib/sleepy_penguin/epoll.rb:260-270 | After any request through one open copy, every other open copy has the same slots and the same interest list as the receiver. |
| EpollWorld.RunKeeps | lib/sleepy_penguin/epoll.rb:19-37 | The invariant (isolation, coverage, agreement) holds in every process after every sequence of steps. |
| EpollWorld.ReinitHandles | lib/sleepy_penguin/kqueue.rb:35-48 | Re-initialisation closes exactly the old handles in `@copies` (Epoll) or none (Kqueue), and the receiver ends on its old handle or on the new instance. |
| EpollWorld.ReinitEffect | lib/sleepy_penguin/epoll.rb:26-37 | At every point of failure: arrays empty, a fresh empty instance with the receiver on it, one fresh handle on it for each owner in `@copies` in order up to the dup that failed; the receiver belongs to the process exactly when nothing failed. |
| EpollCalls.CallShape | lib/sleepy_penguin/epoll.rb:77-187 | Whatever fails, a call changes nothing beyond the fork check, or writes entry and slot together, or drops both together. |
| EpollCalls.SetRefinesUpsert | lib/sleepy_penguin/epoll.rb:160-187 | From an agreeing state without aliases, every normal return of `set` is an upsert of one armed entry. |
| EpollCalls.SetRearms | lib/sleepy_penguin/epoll.rb:165-170 | For a disarmed entry, `set` with the same mask issues exactly one CTL_MOD and re-arms it: the ONESHOT test keeps the shortcut sound. |
| EpollCalls.SetHeals | lib/sleepy_penguin/epoll.rb:164-184 | From any cache and kernel, aliases included: a `set` that reaches the kernel and returns makes slot and entry agree and touches no other; one that raises changes nothing. |
| EpollCalls.SetDecides | lib/sleepy_penguin/epoll.rb:164-184 | From any cache and kernel, without another fault, `set` on a usable io returns; it skips the kernel exactly for an unchanged mask without ONESHOT, and otherwise issues CTL_MOD with fallback CTL_ADD for a cached io, CTL_ADD with fallback CTL_MOD for another. |
| EpollCalls.SetRaises | lib/sleepy_penguin/epoll.rb:160-187 | Exactly when `set` raises, and what: a closed io, a descriptor not open, or another kernel fault in a system call it makes; never ENOENT or EEXIST. |
| EpollCalls.OneshotIsBit30 | lib/sleepy_penguin/epoll.rb:167 | ONESHOT is bit 30 of the mask and no other. |
| EpollCalls.DeleteRefinesRemoval | lib/sleepy_penguin/epoll.rb:114-125 | From an agreeing state, aliases included, `delete` is a kernel removal with the right answer, also on its exits without a system call; it raises only for a closed io or another kernel fault. |
| EpollCalls.DeleteDecides | lib/sleepy_penguin/epoll.rb:114-125 | From any cache and kernel: nil without a system call when the slot retains no open object, otherwise one CTL_DEL, the io exactly when an entry was dropped, nil when entry or descriptor is missing, and an exception only for another fault. |
| EpollCalls.DeleteNeverReportsMissing | lib/sleepy_penguin/epoll.rb:121-124 | In any state whatever, `delete` raises neither ENOENT nor EBADF. |
| EpollCalls.RaiseChangesNothing | lib/sleepy_penguin/epoll.rb:77-187 | A call that raises leaves everything as the fork check left it. |
| EpollCalls.PlainOutcomes | lib/sleepy_penguin/epoll.rb:77-141 | add, mod and del succeed exactly when no fault occurs and the entry is absent, present, present, and then write or drop entry and slot together; otherwise they raise EEXIST, ENOENT, EBADF or the fault and change nothing. |
| EpollCalls.ClosedIoRaises | lib/sleepy_penguin/epoll.rb:77-187 | Every operation on a closed io raises IOError before anything else happens. |
| EpollCalls.ClosedReceiver | ext/sleepy_penguin/epoll.c:110-126 | On a closed object nothing changes and no system call is issued; add, mod, del and wait raise IOError, set and delete do unless the cache answers. |
| EpollCalls.DelUndoesAdd | lib/sleepy_penguin/epoll.rb:77-101 | del after add restores the interest list and empties the slot. |
| EpollWaiting.RetainedWhenYielded | lib/sleepy_penguin/epoll.rb:57-73 | For every interleaving during a wait: the object of a delivered addressable entry is in the snapshot, or still marked when yielded, or a call that returned registered it after the snapshot and before the delivery, and between delivery and yield a call removed or replaced that very object on its descriptor, or re-initialised the family. |
| EpollWaiting.MarkChanges | lib/sleepy_penguin/epoll.rb:77-187 | An object enters `@marks` only through an add, mod or set of it that returns, and leaves it only through a del or delete on the descriptor whose slot holds it, an add, mod or set of another object there, or the first call or dup after a fork. |
| EpollWaiting.FirstProcessOnlyEvicts | lib/sleepy_penguin/epoll.rb:19-37 | In the creating process no removal of a mark is a re-initialisation: each is a call on the very descriptor whose slot held the object. |
| EpollWaiting.NamedRun | lib/sleepy_penguin/epoll.rb:77-187 | After every run, every slot names an object of its own descriptor, and so does every kernel entry in the process that created the instance. |
| EpollWaiting.UnforkedEntriesAreCurrent | lib/sleepy_penguin/epoll.rb:57-73 | Without forks every entry of an interest list is addressable, through any descriptor reuse. |
| EpollLimits.UncoveredForkCanBreak | lib/sleepy_penguin/epoll.rb:26-37 | After any run, a fork of a process that is not covered can be followed by four steps of the child that leave an active object whose cache and kernel disagree: coverage is necessary as well as sufficient. |
| EpollLimits.NestedForkBreaksAgreement | lib/sleepy_penguin/epoll.rb:32-35 | A run of seven steps after which an active object's kernel entry has a nil slot. |
| EpollLimits.SurvivingFileIsNotRetained | lib/sleepy_penguin/epoll.rb:57-73 | A run of six steps after which a deliverable entry's object is not marked. |
| EpollLimits.OrphanedCanBeUnmarked | lib/sleepy_penguin/epoll.rb:57-73 | After any run, if an interest list holds an entry the process cannot address, a new object on that descriptor and a `set` of it leave the entry unchanged in the list while nothing marks its object: addressability is necessary for retention as well as sufficient. |
| EpollObject.Process.NewHandle | ext/sleepy_penguin/epoll.c:80-96 | A new handle names a new, empty instance created by this process. |
| EpollObject.Epoll.constructor | lib/sleepy_penguin/epoll.rb:9-17 | A new object: empty caches, `@copies` with itself, the current pid. |
| EpollObject.Epoll.EpollCtl | ext/sleepy_penguin/epoll.c:110-126 | The in-place system call has the outcome and kernel effect of `Ctl`. |
| EpollObject.Epoll.CheckFork | lib/sleepy_penguin/epoll.rb:19-37 | The loops over `@copies` compute the closed form of re-initialisation, at every point of failure. |
| EpollObject.Process.RedupCopies | lib/sleepy_penguin/epoll.rb:32-35 | Every object of the family gets a fresh dup in `@copies`, in order, up to the dup that fails; Epoll and Kqueue share the loop. |
| EpollObject.Process.DupHandle | lib/sleepy_penguin/epoll.rb:265-267 | A fresh handle on the same instance, entered in `@copies` for the new object. |
| EpollObject.Process.CloseHandle | lib/sleepy_penguin/epoll.rb:194-199 | Every `@copies` entry of the handle goes, the handle is closed, and only a handle already closed raises. |
| EpollObject.Epoll.CloseCopies | lib/sleepy_penguin/epoll.rb:30 | Exactly the handles in `@copies` are closed. |
| EpollObject.Epoll.Add | lib/sleepy_penguin/epoll.rb:77-87 | In place, `add` reaches the state and outcome that the run theorems and PlainOutcomes are about, on every path: closed io, failed re-initialisation, refused system call, success. |
| EpollObject.Epoll.Del | lib/sleepy_penguin/epoll.rb:93-101 | In place, `del` reaches the state and outcome of the modelled call; slot and entry go together. |
| EpollObject.Epoll.Delete | lib/sleepy_penguin/epoll.rb:114-125 | In place, `delete` reaches the state and outcome of the modelled call, with ENOENT and EBADF turned into nil. |
| EpollObject.Epoll.Mod | lib/sleepy_penguin/epoll.rb:132-141 | In place, `mod` reaches the state and outcome of the modelled call; it answers the mask. |
| EpollObject.Epoll.Set | lib/sleepy_penguin/epoll.rb:160-187 | In place, `set` reaches the state and outcome of the modelled call: the shortcut, both orders of system calls, and every failure. |
| EpollObject.Epoll.ModOrAdd | lib/sleepy_penguin/epoll.rb:168-181 | The first system call and its fallback have the combined outcome and effect of `SetCtl`. |
| EpollObject.Epoll.StartWait | lib/sleepy_penguin/epoll.rb:57-69 | State, outcome and system call of the wait that WaitInEveryRun is about; the snapshot holds every object marked after the fork check. |
| EpollObject.Epoll.IoFor | lib/sleepy_penguin/epoll.rb:222-228 | The slot's object after the fork check. |
| EpollObject.Epoll.CloseHandle | lib/sleepy_penguin/epoll.rb:194-199 | The handle is closed and leaves `@copies`; a second close raises. |
| EpollObject.Epoll.InitializeCopy | lib/sleepy_penguin/epoll.rb:260-270 | A fresh handle on the checked instance, entered in `@copies`, unless the source is closed; when its own dup fails, the re-initialised caches stay and no entry is made. |
| EpollObject.Epoll.Dup | lib/sleepy_penguin/epoll.rb:260-270 | The source object keeps its `@io` and `@pid`; the copy shares its caches; every failure of the re-initialisation and of the dup is an outcome. |
| KqueueObject.Kqueue.constructor | lib/sleepy_penguin/kqueue.rb:16-21 | A new Kqueue: its own instance, `@copies` with itself. |
| KqueueObject.Kqueue.CheckFork | lib/sleepy_penguin/kqueue.rb:31-48 | The Kqueue fork check computes the same protocol without closing inherited handles. |
| KqueueObject.Kqueue.StartKevent | lib/sleepy_penguin/kqueue.rb:58-59 | State, outcome and system call of the kevent that WaitInEveryRun is about. |
| KqueueObject.Kqueue.InitializeCopy | lib/sleepy_penguin/kqueue.rb:89-99 | A fresh handle on the checked instance, entered in `@copies`, unless the source is closed or the dup fails. |
| KqueueObject.Kqueue.CloseHandle | lib/sleepy_penguin/kqueue.rb:106-111 | The handle is closed and leaves `@copies`; a second close raises. |
| KqueueObject.TranslateUdata | lib/sleepy_penguin/kqueue.rb:60-80 | Copies with object ids go to the kernel in order, the caller's structs are untouched, and every id leads back to its object. |
| TlsPool.PoolSafety | ext/sleepy_penguin/init.c:99-171 | For every sequence of gets and puts, at any depth and in any release order: no assertion fires, nothing freed is touched, outstanding buffers are live, large enough and distinct, and when all are returned at most the slot buffer remains. |
| TlsPool.SlotNeverShrinks | ext/sleepy_penguin/init.c:128-143 | The slot's capacity never decreases over the life of a thread. |
| TlsPool.GetEffect | ext/sleepy_penguin/init.c:115-144 | A get returns a buffer nobody holds with room for the request and no 32-bit truncation, and touches no buffer in use. |
| TlsPool.GetDecides | ext/sleepy_penguin/init.c:115-144 | A get fails exactly when it must allocate and the size does not fit 32 bits, there is no memory, or the slot cannot be set; a ready slot that is large enough is reused, a nested request gets its own buffer, otherwise the new buffer takes the slot. |
| TlsPool.PutEffect | ext/sleepy_penguin/init.c:149-171 | A put of a held buffer fires no assertion, frees or readies that buffer only. |
| TlsPool.PutDecides | ext/sleepy_penguin/init.c:149-171 | For any pool and pointer: NULL is ignored, the slot buffer becomes ready, a nested one is freed, and exactly which pointers trip an assertion. |
| TlsPool.FailureExactly | ext/sleepy_penguin/init.c:133-140 | A failing get leaves a usable pool if and only if it was not replacing the slot buffer; otherwise every later get touches freed memory. |
| TlsPool.ThreadLocal.AllocTlsBuf | ext/sleepy_penguin/init.c:99-113 | Allocation fails for sizes that do not fit 32 bits; otherwise the stored capacity is the size asked for. |
| TlsPool.ThreadLocal.GetTlsBuf | ext/sleepy_penguin/init.c:115-144 | On any pool, the in-place get reaches the pool and outcome that PoolSafety is about, crash and assertion included; on a sound pool it returns a buffer or fails. |
| TlsPool.ThreadLocal.PutTlsBuf | ext/sleepy_penguin/init.c:149-171 | On any pointer, the in-place put reaches the pool and outcome that PoolSafety is about, assertions included; on a sound pool no held buffer trips one. |
| TlsPool.ThreadLocal.EptGet | ext/sleepy_penguin/epoll.c:52-71 | EINVAL for a non-positive count before anything is allocated; otherwise the get of 24 + 12 * maxevents bytes, so the header and all event records fit. |
| EpollDeadline.NowMsRounds | ext/sleepy_penguin/epoll.c:13-20 | The millisecond clock is within half a millisecond of the true clock. |
| EpollDeadline.NowMsMonotone | ext/sleepy_penguin/epoll.c:13-20 | The rounded clock does not go back. |
| EpollDeadline.RetryOnTime | ext/sleepy_penguin/epoll.c:150-163 | A retry wakes less than 1 ms from the true deadline on either side, or the deadline has passed and it does not sleep; its timeout is within 0..T. |
| EpollDeadline.RealEpwait | ext/sleepy_penguin/epoll.c:173-185 | For any number of signals: every retry is on time in that sense and follows a signal on an open descriptor, negative timeouts stay infinite, zero stays zero, and the last attempt decides: events, IOError exactly if closed meanwhile, SystemError otherwise. |
| KeventWait.DeadlineConserved | ext/sleepy_penguin/kqueue.c:172-200 | In nanoseconds, now + remaining = start + timeout exactly and remaining is not negative; a wait resumes if and only if the deadline is not past (in the exact-second case: not reached). |
| KeventWait.NormalisedExactly | ext/sleepy_penguin/kqueue.c:221-230 | The deadline and each remaining timespec are normalised except in the exact-second case, for the latter only on a full second. |
| KeventWait.UnnormalisedRetry | ext/sleepy_penguin/kqueue.c:226-229 | A start, a timeout and an interruption for which the retry asks for 10^9 nanoseconds. |
| KeventWait.KqPerThread.constructor | ext/sleepy_penguin/kqueue.c:79-98 | The array has room for the changes and for the events. |
| KeventWait.KqPerThread.Prepare | ext/sleepy_penguin/kqueue.c:320-327 | The array holds the changelist in order, or some element is not a Kevent struct and TypeError is raised. |
| KeventWait.KqPerThread.DoKevent | ext/sleepy_penguin/kqueue.c:213-237 | Over any number of signals, with or without a timeout: the changelist is handed to the kernel once and in order although the array is overwritten; a retry follows only an interruption, sends nothing and has exactly the remaining time; the last attempt decides the result: its events, IOError exactly if closed, SystemError, or expiry after the deadline (in the exact-second case: not before it). |
| Inotify.ParseInvertsSerialise | ext/sleepy_penguin/inotify.c:197-207 | The walk over any serialised list of events rebuilds that list. |
| Inotify.RecordRoundTrip | ext/sleepy_penguin/inotify.c:113-134 | Whatever surrounds it, a record reads back with its fields, its NUL-stripped name (nil exactly for length 0) and its length. |
| Inotify.RecordAt | ext/sleepy_penguin/inotify.c:198-207 | At each record boundary the walk reads that record inside the data and moves to the next boundary, the last being the end. |
| Inotify.InotifyIO.Advance | ext/sleepy_penguin/inotify.c:199-206 | One turn of the pointer loop yields the record at the boundary, reads nothing past the data, and stops exactly at the end. |
| Inotify.InotifyIO.Unpack | ext/sleepy_penguin/inotify.c:197-207 | The loop returns the first event and appends the others to the queue in order. |
| Inotify.InotifyIO.TakeOne | ext/sleepy_penguin/inotify.c:176-243 | Reading bytes into a buffer and walking them in place has the queue, answer and events read of `Take` on the kernel's records. |
| Inotify.TakeConserves | ext/sleepy_penguin/inotify.c:176-243 | One call: event answered and queue after are queue before and events read, in order; a call that answers no event consumed none. |
| Inotify.TakeDecides | ext/sleepy_penguin/inotify.c:183-209 | The first read that is not retried decides between event, nil and exception; retried are exactly a buffer too small whose data another thread took, and an error the caller can wait on. |
| Inotify.TakeIsFifo | ext/sleepy_penguin/inotify.c:221-243 | Over any run of one thread, events answered followed by events queued are the events read. |
| Inotify.ThreadsConserve | ext/sleepy_penguin/inotify.c:176-212 | For any interleaving of threads, events answered, queued and in flight are as multisets the events read. |
| Inotify.EveryReadLands | ext/sleepy_penguin/inotify.c:197-207 | After any interleaving, every read in flight lands: its first event is answered and the others are queued in order; a shift answers the oldest queued event. |
| TimespecConversion.ValueToTimespec | ext/sleepy_penguin/value2timespec.h:16-50 | The branches compute the nearest nanosecond total, split like a clock, with RangeError and TypeError where they belong. |
| TimespecConversion.ConvertsExactly | ext/sleepy_penguin/value2timespec.h:16-50 | Which inputs convert: integers of 64 bits, floats above -(2^63 + half a nanosecond) and below 2^63; RangeError for other numbers and TypeError for anything else. |
| TimespecConversion.WholeFloats | ext/sleepy_penguin/value2timespec.h:19-42 | A whole number converts alike as a float and as an integer. |
| TimespecConversion.WithinHalfANanosecond | ext/sleepy_penguin/value2timespec.h:24-42 | The result is within half a nanosecond, halves away from zero, 0 <= nsec <= 10^9, and nsec is 10^9 exactly when a non-negative fraction rounds up to a second. |
| TimespecConversion.TimespecRoundTrip | ext/sleepy_penguin/value2timespec.h:56-62 | Every normalised timespec survives conversion to a number and back; the number is an integer exactly for whole seconds. |
| SetupGlob.GlobCompilation | setup.rb:1436-1447 | For all pattern lists over the alphabet and all names without newline, the compiled expression, read as a regular expression, matches if and only if some pattern matches as a glob, or the list and the name are both empty. |
| SetupGlob.ReadJoin | setup.rb:1443-1447 | The compiled text reads back as exactly one alternative for each pattern. |
| SetupGlob.SelectRejectPartition | setup.rb:1426-1434 | select and reject with the same patterns, also with none, split any entry list by that match, losing and doubling nothing and keeping its order. |
| SetupConfig.ExpandIsClean | setup.rb:345-347 | A resolved value has no `$` left before anything but a slash. |
| SetupConfig.ExpandSubstitutes | setup.rb:345-347 | The resolved text is the value with each `$name` replaced by its item's resolved text and every other character kept, in order. |
| SetupConfig.ExpandFails | setup.rb:345-347 | The first reference that does not resolve decides the error. |
| SetupConfig.LookupDecides | setup.rb:76-94 | An unknown name and an item without a value are different errors; any other name stands for its resolved value. |
| SetupConfig.CutReads | setup.rb:346 | Every text reads as literal characters and references, a reference being `$` with the longest non-empty run of characters other than a slash. |
| SetupConfig.CutUnique | setup.rb:346 | There is only one such reading. |
| SetupConfig.ResolvedIsSolution | setup.rb:345-347 | A name resolves to a text if and only if it can be ranked and the table, read as equations between its names, has a solution with that text. |
| SetupConfig.ExpandIdempotent | setup.rb:345-347 | Resolving a resolved value, in any table, changes nothing. |
| SetupConfig.ExpandOk | setup.rb:345-347 | At any depth, a value resolves if and only if everything it refers to does. |
| SetupConfig.ExpandStable | setup.rb:345-347 | Neither the resolved text nor the error depends on the depth: once resolution ends, more depth gives the same answer. |
| SetupConfig.ResolvesExactly | setup.rb:76-98 | In any table, resolving a name ends with a text if and only if it can be ranked so that references go strictly down through value items. |
| SetupConfig.TerminatesExactly | setup.rb:76-98 | All value items of a table resolve if and only if their references name value items and have one acyclic rank; items without a value, such as installdirs, may be present as long as no value refers to them. |

## Left out

- eventfd, timerfd, signalfd, splice, tee, sendfile, copy_file_range, flag and constant tables: thin wrappers that would only add easy members.
- The rest of setup.rb (installation, hooks, usage), extconf.rb, makefiles and the missing_* headers: build plumbing.
- Conversion of event arrays by `__event_flags` (util.c): masks are taken as 32-bit integers; arguments `set` would refuse with TypeError or RangeError are not modelled.
- `to_io`: it hands out the raw descriptor; what a caller does with it is outside the model.
- `events_for`, `flags_for`, `include?` and `closed?`: the same lookup as `io_for`, or a field read.
- Calls on a closed Epoll object are modelled as written, and nothing is claimed for the answers they give from the cache.
- Readiness: which entries the kernel delivers, and edge-triggered re-notification after CTL_MOD, are not modelled; any addressable entry may be delivered at any time.
- Sibling dups after a fork stay closed (Epoll) or re-initialise on an instance of their own (Kqueue), as the code has it; agreement is claimed only for covered processes.
- Process exit is not a step of its own: it is a sequence of closes.
- Inotify as a user of the buffer pool: its cleanup argument is evaluated before the buffer exists, so its gets have no matching puts; the pool theorem is about matching puts.
- SetupConfig.ExpandOk: the recursion is bounded by a depth that the program leaves to the Ruby stack; ExpandStable shows that the text does not depend on it, and ResolvesExactly and TerminatesExactly cover unbounded depth.
- TimespecConversion.ValueToTimespec: reals instead of IEEE doubles, so no infinities, NaN or double rounding.
- KeventWait.KqPerThread.DoKevent: narrowing of struct fields to short and unsigned short is not modelled.
- SetupGlob.GlobCompilation: patterns with regular-expression syntax other than `. $ # *` are outside the claim.
- EpollObject.Epoll.StartWait: the blocking system call itself is the EpollDeadline and EpollWaiting modules' subject.
