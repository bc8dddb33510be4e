# The ICA stack: locking, loading, unloading and closing

The user-mode library `icaapi` keeps, for each terminal server connection, an *ICA stack*: a
last-in-first-out list of protocol modules held by the ICA device (protocol drivers, PDs, below; the
WinStation driver, WD, on top) and, optionally, a connection driver (CD) DLL that requests pass
through. One critical section protects the stack. Almost every call drops it in the middle of its
work, around the device, a callback or a CD wait, so a hand-written reference count, two events made
on demand and three flags (`fStackLoaded`, `fUnloading`, `fClosing`) keep unloading and closing
apart from the calls in progress. This project models that protocol in Dafny and proves it.

## How it is organised

- `IcaTypes.dfy` – status codes, ioctls, modules, configurations, the device's PUSH/POP contract.
- The concurrent model: any number of threads, every interleaving.
  - `Control.dfy` – what a thread still has to do, as a list of items (one per lock-dropping point of
    the source), and what each item counts for (references, unloads, closes).
  - `StackMachine.dfy` – the shared state, one step function per piece of `stack.c` and `cd.c`,
    `Step`, `Run` over a schedule, `Reachable`.
  - `Discipline.dfy`, `Steps.dfy`, `Invariant.dfy` – what each step keeps, and the inductive invariant.
  - `Lifecycle.dfy`, `DriverUse.dfy`, `Progress.dfy` – safety over all runs, and no deadlock.
  - `Work.dfy`, `Completion.dfy` – a measure of the work ahead, and that IcaStackClose can always end.
  - `Environment.dfy`, `Drain.dfy`, `Schedules.dfy`, `Undrained.dfy` – exactly when IcaStackClose finds
    the device empty: who calls what, the proof that it does, and the runs where it does not.
  - `Scripts.dfy`, `CallScripts.dfy` – what each call asks for, given how everything it asks for ends:
    the same requests, in the same order, with the same cleanup as in the sequential model.
  - `Rewaiting.dfy` – the race that stack.c:2280-2282 wonders about.
- The sequential model: the same calls as methods of a class that update one stack in place.
  - `DeviceLog.dfy` – the history of what the device served.
  - `Negotiation.dfy` – what the query loop of `IcaStackConnectionAccept` builds, as functions of the
    client's answers.
  - `IcaStack.dfy` – classes `Device`, `WinStation` and `Stack`, whose fields are those of the STACK
    record in `TERM-V1.0/TERM/icaapi/icaapip.h`, and the calls.
- `CycleCounter.dfy` – the cycle counters of `acpudefs.h`, a small independent piece.

In the sequential model `others` counts the references that other threads hold and `coming` those
they will still take while this thread sleeps; between sleeps nobody interferes. The wait loops are
therefore real loops there, and their bound is in terms of `coming`.

## What the environment is taken to do

- A PUSH or POP of the device is atomic. POP returns STATUS_SUCCESS exactly when there is a module to
  remove; every other request may return any status. A PUSH adds its module exactly when its status
  passes NT_SUCCESS.
- CD code (its ioctl routine and its thread procedures) is any sequence of the `IcaCd*` calls and may
  return any status. `pCdOpen` and `pCdClose` neither drop the lock nor call back. `CreateThread`
  succeeds. In the sequential model the CD forwards each request and returns its status.
- The callback makes any number of `IcaStackIoControl` calls with any codes and returns any status. In
  the sequential model it forwards its request once and returns that status.
- For draining (`TurnAllowed` in `Environment.dfy`) the callback and the CD each forward the request
  they are given, once, and return its status; the CD neither waits nor makes threads.
- `IcaStackClose` is called once. No call from outside starts after it, and none is still waiting for
  its first LOCK then (`MayCall`). Nested calls made by a callback go on.
- After a successful `IcaStackConnectionAccept` the owner of the lock may issue requests before it
  calls `IcaStackUnlock`.
- The client's answers to the query of Accept are finitely many; the query fails when they are used up.

## Where the code and its comments differ

The model follows the code.

- The header of `IcaStackConnectionWait` (stack.c:307) says that the stack is unloaded on an error; the
  code unloads only a stack that this call loaded (stack.c:395-398). `WaitOrQuery` states which.
- The remark at stack.c:2280-2282 wonders whether a reference can be taken between the signal and the
  LOCK. It can: `WaitAgainReachable` builds a run that gets there, `WaitsAgain` says what happens in
  every such state, and `BoundedRewaiting` how often it can matter.
- `acpudefs.h` numbers functions up to 17 (lines 37-42) and sets MAX_FNS to 12 (line 20). The counters
  of the model have MAX_FNS slots, and `UpdateCounter` asks for an index within them.

## Model

| member | source | states |
|---|---|---|
| Lifecycle.LockDiscipline | TERM-V1.0/TERM/icaapi/icaapip.h:66-84 | in every reachable state: no thread about to LOCK owns the lock, every thread at an UNLOCK or under ASSERTLOCK owns it, and a thread outside every call does not own it (a successful Accept stays inside, as owner, until IcaStackUnlock) |
| Lifecycle.LockProtects | TERM-V1.0/TERM/icaapi/icaapip.h:66-75 | while one thread owns the lock, no step of another one inside a call changes the count, the events, the flags or the CD |
| Lifecycle.RefCountEquation | TERM-V1.0/TERM/icaapi/stack.c:1696-1713 | RefCount is the number of open lock-dropped windows (a callback and its nested worker are two), plus live CD threads, plus one while an unloader is between its increment and decrement; it never underflows |
| Lifecycle.NoLostWakeup | TERM-V1.0/TERM/icaapi/stack.c:2461-2472 | a thread asleep on an unsignalled event sleeps on the current hUnloadEvent with RefCount > 1, or on the current hCloseEvent with RefCount > 0 |
| Lifecycle.NoStrandedSleeper | TERM-V1.0/TERM/icaapi/stack.c:2267-2290 | a sleeping unloader or closer can wake up as soon as no other reference is left |
| Lifecycle.BoundedRewaiting | TERM-V1.0/TERM/icaapi/stack.c:2267-2289 | the unload loop, `waitagain` included, goes round at most 1 + the references acquired since its own, the close loop (180-193) at most 1 + those acquired since it began |
| Lifecycle.QuiescentFree | TERM-V1.0/TERM/icaapi/stack.c:163-209 | in every reachable state in which IcaStackClose is about to leave its wait loop, every other thread, CD threads included, is outside every call, RefCount is 0 and the closer owns the lock |
| Lifecycle.FreedByCloser | TERM-V1.0/TERM/icaapi/stack.c:180-209 | no other step frees the stack |
| Lifecycle.NoUseAfterFree | TERM-V1.0/TERM/icaapi/stack.c:197-209 | once the context is freed no thread can take any step on it |
| Lifecycle.OneUnloader | TERM-V1.0/TERM/icaapi/stack.c:2244-2301 | at most one thread is in the body of _IcaPopStack, and fUnloading is set while it is |
| Lifecycle.FlagInvariant | TERM-V1.0/TERM/icaapi/stack.c:2044-2051 | whenever the lock is free, fClosing and fStackLoaded imply fUnloading |
| Lifecycle.ClosingIsFinal | TERM-V1.0/TERM/icaapi/stack.c:284-289 | once fClosing is set it stays set through every continuation of the run, and fStackLoaded is not set again |
| DriverUse.DriverNotInUse | TERM-V1.0/TERM/icaapi/stack.c:2269-2295 | when an unloader leaves its wait loop to call _CdClose, no thread is anywhere in CD code and no CD thread is left |
| DriverUse.FreedUnused | TERM-V1.0/TERM/icaapi/cd.c:456-480 | the only steps that let go of the CD library, in any run, find no thread in CD code and no CD thread |
| DriverUse.NoCodeWithoutDll | TERM-V1.0/TERM/icaapi/cd.c:468-479 | in every reachable state: the CD's entry points are set only while its library is held, and it is held while any thread is in CD code or a CD thread is left; so no request is sent into, or runs in, a library that was freed |
| DriverUse.UnloadEndsClean | TERM-V1.0/TERM/icaapi/stack.c:2290-2301 | whatever the run, the step that clears fUnloading is the unloader's last test; it leaves no CD entry points, no CD library, fStackLoaded clear, no unload event, and gives back exactly the unloader's reference |
| DriverUse.ClosingHidesFromCd | TERM-V1.0/TERM/icaapi/cd.c:100-165 | while the stack is closing, CD code that comes back from a wait or a request is told CLOSE_PENDING, whatever happened; only a POP, and everything while the stack is not closing, is reported as it was |
| Progress.NoDeadlock | TERM-V1.0/TERM/icaapi/stack.c:2244-2301 | in every reachable state, as long as a call is unfinished, some thread can take a step |
| Completion.CloseCanFinish | TERM-V1.0/TERM/icaapi/stack.c:163-209 | from every reachable state after the call of IcaStackClose there is a continuation (requests, callbacks and CD code come back, and the owner that Accept left calls IcaStackUnlock) that frees the stack: no interleaving of callers, callbacks, CD threads and unloaders leads into a dead end |
| Completion.Advances | TERM-V1.0/TERM/icaapi/stack.c:2244-2301 | every step of a thread that is not asleep, when requests other than POP fail, removes a module or leaves less code ahead in all threads together |
| Completion.UnloaderIsLast | TERM-V1.0/TERM/icaapi/stack.c:2267-2290 | when everybody inside sleeps, a sleeping unloader holds the last reference |
| Drain.ConcurrentDrain | TERM-V1.0/TERM/icaapi/stack.c:2015-2076 | where nobody issues PUSH from outside and, if there is anything to load, no configuration has a CD, nobody accepts and loading calls do not overlap, with a callback that forwards once: the device holds no module when IcaStackClose frees the stack, whatever the interleaving with IcaStackTerminate, IcaStackIoControl (POP included) and nested calls |
| Undrained.DrainsExactly | TERM-V1.0/TERM/icaapi/stack.c:170-197 | that condition is exact: in every environment of forwarding callbacks and CDs, all allowed runs drain the device if and only if it holds |
| Undrained.LoadThroughCdStays | TERM-V1.0/TERM/icaapi/stack.c:1782-1783 | for every configuration with a CD there is an allowed run that leaves a module: the PUSH in flight is reported as CLOSE_PENDING, and the loader leaves the unload to the closer, which has popped already |
| Undrained.OverlapStays | TERM-V1.0/TERM/icaapi/stack.c:2244-2301 | for every configuration without a CD there is one when loads may overlap: a failing load has popped and sleeps, the other completes, and IcaStackClose relies on the unload under way |
| Undrained.AcceptStays | TERM-V1.0/TERM/icaapi/stack.c:845-881 | and one when a thread accepts: its PUSH slips past the closer's POPs, and the query loop does not test fClosing |
| Undrained.OutsidePushStays | TERM-V1.0/TERM/icaapi/stack.c:1453-1488 | and one when IcaStackIoControl may issue PUSH |
| Rewaiting.WaitAgainReachable | TERM-V1.0/TERM/icaapi/stack.c:2280-2285 | a reachable state has an unloader that was signalled, waits for the lock, and finds more references than its own |
| Rewaiting.WaitsAgain | TERM-V1.0/TERM/icaapi/stack.c:2269-2285 | in every such state the unloader goes back to sleep on a new event, and the handle it slept on is lost |
| Schedules.PopsAll | TERM-V1.0/TERM/icaapi/stack.c:2251-2262 | the concurrent model, one thread moving: an unload of any number of modules reaches its wait with the device empty, as PopStack of the sequential one says |
| Schedules.PushesRest | TERM-V1.0/TERM/icaapi/stack.c:2021-2051 | the same for the PUSHes of a load: every module in order, fStackLoaded set, as PushStack says |
| CallScripts.CallFollows | TERM-V1.0/TERM/icaapi/stack.c:334-607 | for every call that takes the lock other than Close, Terminate and Accept, and however what it asks for ends: it works through its plan (the load and endpoint it needs, then its own request) up to the first failure, unloads what it loaded itself iff something failed after that or it is ConnectionClose, but never in IcaPushConsoleStack, and returns the failing status; lines 1041-1170, 1453-1566 too |
| CallScripts.ShadowRefused | TERM-V1.0/TERM/icaapi/stack.c:1057-1067 | a loaded stack is not asked for another endpoint |
| CallScripts.AcceptFollows | TERM-V1.0/TERM/icaapi/stack.c:642-931 | for every negotiation that nothing blocks, Accept in the concurrent model loads with OPEN_ENDPOINT if need be, makes request by request what the sequential Accept logs (`TalkLog`), and ends owning the lock, with success |
| CallScripts.AcceptLoadFails | TERM-V1.0/TERM/icaapi/stack.c:676-686 | a load or endpoint that fails makes Accept unload and return that status |
| Scripts.RoundFollows | TERM-V1.0/TERM/icaapi/stack.c:790-895 | one round of the query loop in the concurrent model makes the requests of RoundLog and queries again iff the WD names differ |
| Scripts.StopFollows | TERM-V1.0/TERM/icaapi/stack.c:798-927 | a request that blocks (any failure but that of SET_CONFIG or of a PD the host lacks), or an answer of the wrong size, ends Accept: it unloads, unlocks and returns that status, or INVALID_BUFFER_SIZE |
| Scripts.StopsExactly | TERM-V1.0/TERM/icaapi/stack.c:798-927 | and nothing else makes it give up |
| Scripts.TalkMatches | TERM-V1.0/TERM/icaapi/stack.c:704-927 | the requests of the concurrent Accept are, one by one, those of the sequential one |
| Invariant.RunKeeps | TERM-V1.0/TERM/icaapi/stack.c:1675-1812 | the invariant behind the theorems above (counts, lock owner, events, flags) is kept through every run of any threads |
| IcaStack.Stack.DecrementStackRef | TERM-V1.0/TERM/icaapi/stack.c:2461-2472 | which event is signalled at which count |
| IcaStack.Stack.CallDevice | TERM-V1.0/TERM/icaapi/stack.c:1790-1809 | a window serves the request once, without the lock and with one more reference held, and leaves every field of the stack as it was |
| IcaStack.Stack.CdIoControl | TERM-V1.0/TERM/icaapi/cd.c:67-110 | through the CD, fClosing hides the result of every request but POP |
| IcaStack.Stack.Worker | TERM-V1.0/TERM/icaapi/stack.c:1759-1813 | the request is served once; it is masked exactly when a CD is open and the stack is closing |
| IcaStack.Stack.StackIoControl | TERM-V1.0/TERM/icaapi/stack.c:1453-1488 | the same, from unlocked to unlocked |
| IcaStack.Stack.IoControl | TERM-V1.0/TERM/icaapi/stack.c:1675-1727 | the same with the callback's extra window around it: two references are held instead of one, the effect is the same |
| IcaStack.Stack.AwaitOthers | TERM-V1.0/TERM/icaapi/stack.c:2268-2290 | given that a sleep ends when the other references are gone (proved for all interleavings by NoLostWakeup, NoStrandedSleeper and BoundedRewaiting), the wait ends with this thread's reference only, in at most 1 + the references taken meanwhile rounds |
| IcaStack.Stack.PopAll | TERM-V1.0/TERM/icaapi/stack.c:2251-2253 | from n modules, masked or not, the loop issues n + 1 POPs and empties the device |
| DeviceLog.PopsAt | TERM-V1.0/TERM/icaapi/stack.c:2324-2343 | the i-th of those POPs removes the i-th module from the top: reverse push order |
| DeviceLog.UnloadRefusesNothing | TERM-V1.0/TERM/icaapi/stack.c:2251-2262 | counting the requests a call makes for itself (not the POPs and the CD_CANCEL_IO of an unload), an unload leaves it open whether one was refused exactly as it was |
| IcaStack.Stack.PopStack | TERM-V1.0/TERM/icaapi/stack.c:2236-2304 | does nothing at all while another unload is under way; otherwise ends with no modules, no CD, all flags of the load clear and no other reference, and with exactly the POPs and the cancel in the log |
| IcaStack.Stack.CdOpen | TERM-V1.0/TERM/icaapi/cd.c:352-437 | opens the CD or, failing, leaves no new entry point behind (those of an earlier CD go iff a library was found); succeeds iff the environment refused nothing, else returns what was refused |
| IcaStack.Stack.PushModule | TERM-V1.0/TERM/icaapi/stack.c:2104-2215 | exactly this module is pushed, once; the caller learns the device's status, or CLOSE_PENDING through a CD while closing |
| IcaStack.Stack.PushOrUnload | TERM-V1.0/TERM/icaapi/stack.c:2021-2046 | each exit of the push loop other than success leaves the stack unloaded; the status is CLOSE_PENDING if the stack is closing and the push passed or went through a CD, else the device's |
| IcaStack.Stack.PushStack | TERM-V1.0/TERM/icaapi/stack.c:1994-2076 | all or nothing: succeeds iff the stack is not closing and nothing was refused; then, slot by slot, the PD of every template slot before the first SdNone (or MAX_PDCONFIG) and the WD are on top of what was there (`LoadedOn`), and the log is exactly the CD and those pushes (`LoadLogged`); else, unless only the CD did not open, which changes nothing, the stack is unloaded, CD closed; a failure says what was refused, or CLOSE_PENDING while closing |
| IcaTypes.LoadListAt | TERM-V1.0/TERM/icaapi/stack.c:2014-2036 | with n slots before the first SdNone, the list pushed has n + 1 entries: the PD of slot i at index i, and the WD last |
| IcaTypes.LoadListLoads | TERM-V1.0/TERM/icaapi/stack.c:2014-2051 | pushing that list is what `LoadedOn` says slot by slot |
| IcaStack.Stack.LoadAndOpen | TERM-V1.0/TERM/icaapi/stack.c:1843-1967 | the same with the endpoint request included, which is last in the log; success is STATUS_SUCCESS, whatever passing status the device gave |
| IcaStack.Stack.WaitOrQuery | TERM-V1.0/TERM/icaapi/stack.c:334-509 | a stack loaded before is left untouched by every outcome and asked once; one loaded here stays iff the call succeeds, and then the log is the load, CREATE_ENDPOINT and the request |
| IcaStack.Stack.ConnectionRequest | TERM-V1.0/TERM/icaapi/stack.c:545-607 | success adds the configured stack, slot by slot, with the request last in the log; failure unloads, except when the CD does not open, which changes no module |
| IcaStack.Stack.CreateShadowEndpoint | TERM-V1.0/TERM/icaapi/stack.c:1041-1083 | refuses a loaded stack without touching it; all or nothing otherwise, and on success the log is the load and CREATE_ENDPOINT |
| IcaStack.Stack.ConnectionClose | TERM-V1.0/TERM/icaapi/stack.c:1110-1170 | returns with the loaded flag and the modules it entered with, for every outcome; for a stack that was not loaded the log is a load, OPEN_ENDPOINT of the endpoint given, CLOSE_ENDPOINT and the unload of everything, nothing else |
| IcaStack.Stack.PushConsoleStack | TERM-V1.0/TERM/icaapi/stack.c:1515-1566 | a failed load leaves what a failed ConnectionRequest does, a failed console connection leaves the stack loaded; the log is the load and the console request |
| IcaStack.Stack.Terminate | TERM-V1.0/TERM/icaapi/stack.c:267-300 | sets fClosing and unloads with exactly the POPs and the cancel, or leaves the unload to the thread that is at it |
| IcaStack.Stack.Close | TERM-V1.0/TERM/icaapi/stack.c:153-209 | given that a sleep ends when the references are gone and that another thread's unload is over by then (for all interleavings: NoLostWakeup, BoundedRewaiting, QuiescentFree), leaves its loop with no reference held, after at most 1 + the references taken meanwhile rounds, and with the stack unloaded if the unload was its own, by exactly the POPs and the cancel |
| IcaStack.Stack.QueryClient | TERM-V1.0/TERM/icaapi/stack.c:798-818 | succeeds iff the device grants the query and the answer is whole, and hands over the client's next answer; fails with the device's status or INVALID_BUFFER_SIZE |
| IcaStack.Stack.PushOptional | TERM-V1.0/TERM/icaapi/stack.c:853-874 | pushes the requested PDs in order and passes over those the host does not have, and only those: it fails iff a push is refused with another status, which is then the last one made and the status returned |
| IcaStack.Stack.Rebuild | TERM-V1.0/TERM/icaapi/stack.c:845-881 | the top comes off; the PDs found and the configured WD take its place; fails iff one of these requests blocks |
| IcaStack.Stack.AcceptRound | TERM-V1.0/TERM/icaapi/stack.c:790-895 | one round of the loop computes AfterRound and issues RoundLog; it asks for another iff the WD name differs, up to case; it succeeds iff nothing blocks and the answer is whole |
| IcaTypes.SameNameExactly | TERM-V1.0/TERM/icaapi/stack.c:825-827 | the comparison of WD names: equal iff both names, cut at DLLNAME_LENGTH, have the same length and agree character by character or are the two cases of one ASCII letter |
| IcaTypes.CaseIgnored | TERM-V1.0/TERM/icaapi/stack.c:825-827 | rewriting the case of letters, or anything past DLLNAME_LENGTH characters, changes no answer |
| IcaTypes.ToldApart | TERM-V1.0/TERM/icaapi/stack.c:825-827 | any other difference, also in length, tells two names apart |
| IcaStack.Stack.Negotiate | TERM-V1.0/TERM/icaapi/stack.c:790-895 | the loop ends, uses up one answer a round, goes on exactly while the client names another WD, and computes AfterRounds and RoundsLog; it succeeds iff nothing blocks and every answer used up is whole |
| Negotiation.NextRound | TERM-V1.0/TERM/icaapi/stack.c:825-846 | a round extends the negotiation and ends it iff it does not change the WD |
| Negotiation.WdAfter | TERM-V1.0/TERM/icaapi/stack.c:830-836 | while every round changes the WD the configuration names the last answer's |
| Negotiation.ShapeWhileMoving | TERM-V1.0/TERM/icaapi/stack.c:790-895 | over all rounds so far: the start without its top, the PDs found in order, one WD |
| Negotiation.AcceptShape | TERM-V1.0/TERM/icaapi/stack.c:790-895 | the finished stack is the start without its top, every PD found in all rounds in order and one WD, or the start itself if the one round asked for nothing |
| Negotiation.AcceptAgreement | TERM-V1.0/TERM/icaapi/stack.c:825-842 | however many rounds changed it, the final WD is the last one named before the last round and agrees with the last answer but for the case of letters (`EqualUpToCase`) |
| Negotiation.FoundAt | TERM-V1.0/TERM/icaapi/stack.c:866-874 | a module is added iff it is a requested PD whose push succeeded |
| Negotiation.AllFoundArePds | TERM-V1.0/TERM/icaapi/stack.c:853-874 | nothing but PDs is added under the WD |
| Negotiation.TalkOrder | TERM-V1.0/TERM/icaapi/stack.c:704-927 | a reconnect sets the state before the query loop and again after it, and neither sends a configuration nor waits; a new client gets SET_CONFIG, then the wait, and no state; CONNECTION_SEND is last and once |
| IcaStack.Stack.Greet | TERM-V1.0/TERM/icaapi/stack.c:704-743 | a reconnect sets the state; otherwise the configuration is sent, whatever its status, and the client waited for; fails iff the state or the wait is refused |
| IcaStack.Stack.Conclude | TERM-V1.0/TERM/icaapi/stack.c:901-927 | a reconnect sets the state again, then the host module data is sent; fails iff one of these is refused |
| IcaStack.Stack.Accept | TERM-V1.0/TERM/icaapi/stack.c:642-949 | succeeds iff there is an endpoint, the stack is not closing, the load was refused nothing, no request after it blocks and every answer used up is whole; success: owns the lock, modules are the template PDs (or, for a stack loaded before, its own below the top) + all PDs found + the WD named in the configuration, which agrees with the last answer but for case, and the log is the load with OPEN_ENDPOINT, if there was one, and then TalkLog; every failure after LOCK ends unloaded, CD closed, lock released, by exactly one more unload; no endpoint: nothing changes |
| IcaStack.Stack.UnlockStack | TERM-V1.0/TERM/icaapi/stack.c:233-246 | releases the lock Accept left owned and nothing else |
| CycleCounter.Elapsed | TERM-V1.0/TERM/inc/acpudefs.h:78-88 | subtraction with borrow over two words is the difference modulo 2^64 |
| CycleCounter.Accumulate | TERM-V1.0/TERM/inc/acpudefs.h:90-97 | addition with carry over two words is the sum modulo 2^64 |
| CycleCounter.Counters.UpdateCounter | TERM-V1.0/TERM/inc/acpudefs.h:75-98 | every counter remains the sum of its function's intervals modulo 2^64 and its number of calls modulo 2^32 |
| CycleCounter.Counters.ResetCounters | TERM-V1.0/TERM/inc/acpudefs.h:100-113 | all counters start over |
| CycleCounter.ExactTotal | TERM-V1.0/TERM/inc/acpudefs.h:75-98 | if time does not run backwards the counter is the exact time spent iff that is below 2^64 |

## Left out

- Accept: its module shape is proved for runs without interference, because its loop does not test fClosing (`AcceptStays`).
- UnloadRefusesNothing: says nothing about failures of POP and CD_CANCEL_IO, which the code ignores.
- AwaitOthers: is given by SleepForUnload that the event is signalled once the others are gone; the concurrent model proves that.
- Close: is given by SleepForClose the same, and that another thread's unload has ended; the concurrent model proves that.
- UpdateCounter: asks for an index below MAX_FNS, as the arrays do; the declarations of the arrays are not part of this model.
- Event handles: `waitagain` (stack.c:2283-2285) overwrites hUnloadEvent without closing the handle; conservation of handles is not claimed.
- Fairness: `NoDeadlock` and `CloseCanFinish` say that the threads can go on, and to the end, not that a given scheduler makes them; `BoundedRewaiting` bounds the waits.
- A proof that every sequential method refines a run of the concurrent model: what is proved is that both make the same requests (`CallFollows`, `AcceptFollows`) and that undisturbed loads and unloads end alike (`PushesRest`, `PopsAll`).
- RefCount is unbounded here; wrap-around of the ULONG would need 2^32 open calls.
- IcaCdCreateThread when CreateThread fails: its increment is not undone (cd.c:288-301).
- IcaStackOpen, IcaStackQueryState, IcaStackCallback, IcaStackDisconnect and IcaStackReconnect: straight lines around one request; the concurrent model has them as `Wrapped`.
- The SET_TRACE request to the ICA handle in Accept, which goes around the stack, and all tracing.
- The contents of request buffers other than the module name, the client's configuration and the WD name; output buffers are not cleared on failure in the model.
- The branches compiled out by `notdef`, and the ASSERT(FALSE) branches beside them.
- Case folding is that of ASCII; `_wcsnicmp` uses the C locale's rules.
- `apisub.c`, `channel.c`, `memory.c`, `icaapi.c`, `icakey.c` and `dload`.
