/**
 One thread's step: what it may assume about the shared state and what it leaves behind,
 whatever item it runs. The shared side is stated over a View of the thread, the control side
 over the items.
 */
module Discipline {
  import opened IcaTypes
  import opened Control
  import opened StackMachine

  // ---------- views ----------

  datatype Waiting =
    | NoWait
    | WaitsUnload(phase: Phase, rounds: nat, since: nat)
    | WaitsClose(phase: Phase, rounds: nat, since: nat)

  /** What the shared state needs to know of a thread. */
  datatype View = View(mode: Mode, tally: Tally, unloadNext: bool, waiting: Waiting) {
    predicate Owns() {
      mode.Held? || mode.InCdCode? || mode.AtWait?
    }
  }

  function WaitingOf(c: Ctl): Waiting {
    if c.Nil? then NoWait
    else
      match c.top
      case UnloadWait(p, rounds, since) => WaitsUnload(p, rounds, since)
      case CloseWait(p, rounds, since) => WaitsClose(p, rounds, since)
      case _ => NoWait
  }

  function ViewOf(c: Ctl): View {
    View(ModeOf(c), TallyOf(c), c.Cons? && c.top.PopStack?, WaitingOf(c))
  }

  /** A thread that is not in a wait loop and not about to unload. */
  function Plain(mode: Mode, tally: Tally): View {
    View(mode, tally, false, NoWait)
  }

  // ---------- what a thread in a wait loop relies on ----------

  /** `rounds` trips through a wait loop need that many references acquired, less one. */
  predicate Paid(sh: Shared, rounds: nat, since: nat, more: bool) {
    since <= sh.acquired && rounds <= sh.acquired - since + (if more then 0 else 1)
  }

  predicate WaitOk(sh: Shared, w: Waiting) {
    match w
    case NoWait => true
    case WaitsUnload(AtHead, rounds, since) =>
      Paid(sh, rounds, since, sh.refCount > 1) && (sh.hUnload.Some? ==> sh.refCount > 1)
    case WaitsUnload(Asleep(e), rounds, since) =>
      && sh.hUnload == Some(e)
      && (e !in sh.signalled ==> sh.refCount > 1)
      && Paid(sh, rounds, since, e in sh.signalled && sh.refCount > 1)
    case WaitsUnload(Awake(e), rounds, since) =>
      && sh.hUnload == Some(e)
      && e in sh.signalled
      && Paid(sh, rounds, since, sh.refCount > 1)
    case WaitsClose(AtHead, rounds, since) =>
      Paid(sh, rounds, since, sh.refCount > 0) && sh.hClose.None?
    case WaitsClose(Asleep(e), rounds, since) =>
      && sh.hClose == Some(e)
      && (e !in sh.signalled ==> sh.refCount > 0)
      && Paid(sh, rounds, since, e in sh.signalled && sh.refCount > 0)
    case WaitsClose(Awake(e), rounds, since) =>
      && sh.hClose == Some(e)
      && e in sh.signalled
      && Paid(sh, rounds, since, sh.refCount > 0)
  }

  /** The events are live handles, at most one per purpose. */
  predicate EventsOk(sh: Shared) {
    && (sh.hUnload.Some? ==> sh.hUnload.value < sh.nextEvent)
    && (sh.hClose.Some? ==> sh.hClose.value < sh.nextEvent)
    && (sh.hUnload.Some? && sh.hClose.Some? ==> sh.hUnload.value != sh.hClose.value)
    && (forall e :: e in sh.signalled ==> e < sh.nextEvent)
  }

  /** fClosing and fStackLoaded without fUnloading: the owner is about to call _IcaPopStack. */
  predicate FlagsPending(sh: Shared) {
    sh.closing && sh.loaded && !sh.unloading
  }

  /** What thread t may assume when it takes a step. */
  predicate StepPre(sh: Shared, t: nat, v: View) {
    && (v.Owns() <==> sh.owner == Some(t))
    && WaitOk(sh, v.waiting)
    && EventsOk(sh)
    && v.tally.refs <= sh.refCount
    && v.tally.unloads <= Bit(sh.unloading)
    && v.tally.closes <= 1
    && (v.tally.unloads == 1 && v.tally.unloadWaits == 0 ==> sh.hUnload.None?)
    && (v.tally.closes == 1 && v.tally.closeWaits == 0 ==> sh.hClose.None?)
    && (FlagsPending(sh) ==> sh.owner.Some?)
    && (FlagsPending(sh) && sh.owner == Some(t) ==> v.unloadNext)
    && !sh.freed
  }

  /** The effect of a step on the counts. */
  predicate Balanced(sh: Shared, v: Tally, sh1: Shared, v1: Tally, spawns: bool) {
    && sh1.refCount - sh.refCount == v1.refs + Bit(spawns) - v.refs
    && Bit(sh1.unloading) - Bit(sh.unloading) == v1.unloads - v.unloads
    && Bit(sh.freed) - Bit(sh1.freed) == v1.closes - v.closes
    && (sh1.hUnload.Some? ==> v1.unloadWaits == 1 || (sh1.hUnload == sh.hUnload && v1.unloadWaits >= v.unloadWaits))
    && (sh1.hClose.Some? ==> v1.closeWaits == 1 || (sh1.hClose == sh.hClose && v1.closeWaits >= v.closeWaits))
  }

  /** The effect of a step on what other threads wait for. */
  predicate Signals(sh: Shared, sh1: Shared) {
    && (|| sh1.signalled == sh.signalled
        || (sh1.refCount == 1 && sh1.hUnload.Some? && sh1.signalled == sh.signalled + {sh1.hUnload.value})
        || (sh1.refCount == 0 && sh1.hClose.Some? && sh1.signalled == sh.signalled + {sh1.hClose.value}))
    && (sh1.refCount <= 1 < sh.refCount && sh.hUnload.Some? && sh1.hUnload == sh.hUnload ==>
          sh.hUnload.value in sh1.signalled)
    && (sh1.refCount <= 0 < sh.refCount && sh.hClose.Some? && sh1.hClose == sh.hClose ==>
          sh.hClose.value in sh1.signalled)
    && (sh1.refCount > sh.refCount ==> sh1.refCount == sh.refCount + 1)
    && sh1.acquired == sh.acquired + Bit(sh1.refCount > sh.refCount)
    && sh.nextEvent <= sh1.nextEvent
  }

  /** The effect of a step on the lock, the flags and the rest. */
  predicate Orderly(sh: Shared, t: nat, v: View, sh1: Shared, v1: View) {
    && (sh1.owner == sh.owner || (sh.owner.None? && sh1.owner == Some(t)) || (sh.owner == Some(t) && sh1.owner.None?))
    && (v1.Owns() <==> sh1.owner == Some(t))
    && (sh1.hUnload != sh.hUnload ==> v.tally.unloads == 1)
    && (sh1.hClose != sh.hClose ==> v.tally.closes == 1)
    && (FlagsPending(sh1) ==> sh1.owner.Some? && if sh1.owner == Some(t) then v1.unloadNext else FlagsPending(sh))
    && (sh.closing ==> sh1.closing)
    && (sh1.closing && sh1.loaded ==> sh.loaded)
    && (sh.owner.Some? && sh.owner != Some(t) ==> sh1 == sh.(modules := sh1.modules))
    && sh1.closeCalled == sh.closeCalled
    && sh1.hasCallback == sh.hasCallback
    && (sh1.freed ==> sh.refCount == 0 && sh1.refCount == 0 && v.waiting.WaitsClose? && v1 == Plain(Outside, NOTHING))
  }

  predicate StepPost(sh: Shared, t: nat, v: View, sh1: Shared, v1: View, spawns: bool) {
    && WaitOk(sh1, v1.waiting)
    && EventsOk(sh1)
    && Balanced(sh, v.tally, sh1, v1.tally, spawns)
    && Signals(sh, sh1)
    && Orderly(sh, t, v, sh1, v1)
  }

  // ---------- the shared side ----------

  /** Nothing the discipline speaks of changes. */
  lemma QuietOk(sh: Shared, t: nat, v: View, sh1: Shared, v1: View)
    requires StepPre(sh, t, v)
    requires sh1 == sh.(modules := sh1.modules, cd := sh1.cd, cdDll := sh1.cdDll)
    requires v.Owns() || sh1 == sh.(modules := sh1.modules)
    requires v1.waiting.NoWait? && v1.Owns() == v.Owns() && v1.tally == v.tally && !v.unloadNext
    ensures StepPost(sh, t, v, sh1, v1, false)
  {
  }

  lemma OpenWindowOk(sh: Shared, t: nat, v: View, v1: View)
    requires StepPre(sh, t, v) && v.Owns() && !v.unloadNext
    requires v1.waiting.NoWait? && !v1.Owns() && v1.tally == AddRef(v.tally)
    ensures StepPost(sh, t, v, OpenWindow(sh), v1, false)
  {
  }

  lemma DropRefSignals(sh: Shared)
    requires EventsOk(sh)
    ensures EventsOk(DropRef(sh)) && Signals(sh, DropRef(sh))
    ensures DropRef(sh) == sh.(refCount := sh.refCount - 1, signalled := DropRef(sh).signalled)
  {
  }

  lemma CloseWindowOk(sh: Shared, t: nat, v: View, v1: View)
    requires StepPre(sh, t, v) && sh.owner.None?
    requires v1.waiting.NoWait? && v1.Owns() && v.tally == AddRef(v1.tally)
    ensures StepPost(sh, t, v, CloseWindow(sh, t), v1, false)
  {
    DropRefSignals(sh.(owner := Some(t)));
  }

  lemma LockOk(sh: Shared, t: nat, v: View, v1: View)
    requires StepPre(sh, t, v) && sh.owner.None?
    requires v1.waiting.NoWait? && v1.Owns() && v1.tally == v.tally
    ensures StepPost(sh, t, v, sh.(owner := Some(t)), v1, false)
  {
  }

  lemma UnlockOk(sh: Shared, t: nat, v: View, v1: View)
    requires StepPre(sh, t, v) && v.Owns() && !v.unloadNext
    requires v1.waiting.NoWait? && !v1.Owns() && v1.tally == v.tally
    ensures StepPost(sh, t, v, sh.(owner := None), v1, false)
  {
  }

  // the changes only one item makes

  lemma EnterOk(sh: Shared, t: nat, v: View, v1: View, closing: bool)
    requires StepPre(sh, t, v) && sh.owner.None?
    requires v1.waiting.NoWait? && v1.Owns() && v1.tally == v.tally
    requires closing ==> v1.unloadNext
    ensures StepPost(sh, t, v, sh.(owner := Some(t), closing := sh.closing || closing), v1, false)
  {
  }

  lemma SpawnOk(sh: Shared, t: nat, v: View)
    requires StepPre(sh, t, v) && v.mode == InCdCode && v.waiting.NoWait? && !v.unloadNext
    ensures StepPost(sh, t, v, TakeRef(sh), v, true)
  {
  }

  lemma CdThreadExitOk(sh: Shared, t: nat, v: View, v1: View)
    requires StepPre(sh, t, v) && v.Owns() && !v.unloadNext
    requires v1.waiting.NoWait? && !v1.Owns() && v.tally == AddRef(v1.tally)
    ensures StepPost(sh, t, v, DropRef(sh).(owner := None), v1, false)
  {
    DropRefSignals(sh);
  }

  lemma LoadedOk(sh: Shared, t: nat, v: View, v1: View)
    requires StepPre(sh, t, v) && v.Owns() && !v.unloadNext && !sh.closing
    requires v1.waiting.NoWait? && v1.Owns() && v1.tally == v.tally
    ensures StepPost(sh, t, v, sh.(loaded := true), v1, false)
  {
  }

  lemma UnloadSkippedOk(sh: Shared, t: nat, v: View, v1: View)
    requires StepPre(sh, t, v) && v.Owns() && sh.unloading
    requires v1.waiting.NoWait? && v1.Owns() && v1.tally == v.tally
    ensures StepPost(sh, t, v, sh, v1, false)
  {
  }

  lemma UnloadBeginsOk(sh: Shared, t: nat, v: View, v1: View)
    requires StepPre(sh, t, v) && v.Owns() && !sh.unloading
    requires v1.waiting.NoWait? && v1.Owns() && v1.tally == AddUnload(v.tally)
    ensures StepPost(sh, t, v, sh.(unloading := true), v1, false)
  {
  }

  lemma UnloadRefOk(sh: Shared, t: nat, v: View, rest: Tally)
    requires StepPre(sh, t, v) && v.mode.Held? && !v.unloadNext
    requires v.tally == AddUnload(rest) && rest.unloadWaits <= rest.unloads
    ensures StepPost(sh, t, v, TakeRef(sh),
                     View(AtWait, AddUnloadWait(rest), false, WaitsUnload(AtHead, 0, sh.acquired + 1)), false)
  {
  }

  lemma UnloadSleepsOk(sh: Shared, t: nat, v: View, rounds: nat, since: nat)
    requires StepPre(sh, t, v) && v.mode.AtWait? && !v.unloadNext && v.waiting == WaitsUnload(AtHead, rounds, since)
    requires v.tally.unloads == 1 && v.tally.unloadWaits == 1 && sh.refCount > 1
    ensures StepPost(sh, t, v, SleepUnload(sh),
                     View(Free, v.tally, false, WaitsUnload(Asleep(sh.nextEvent), rounds + 1, since)), false)
  {
  }

  lemma UnloadFinishesOk(sh: Shared, t: nat, v: View, rounds: nat, since: nat, v1: View)
    requires StepPre(sh, t, v) && v.mode.AtWait? && !v.unloadNext && v.waiting == WaitsUnload(AtHead, rounds, since)
    requires v1.waiting.NoWait? && v1.Owns() && v.tally == AddUnloadWait(v1.tally) && sh.refCount <= 1
    ensures StepPost(sh, t, v, FinishUnload(sh), v1, false)
  {
    DropRefSignals(sh);
  }

  lemma UnloadWakesOk(sh: Shared, t: nat, v: View, e: nat, rounds: nat, since: nat)
    requires StepPre(sh, t, v) && v.mode.Free? && v.waiting == WaitsUnload(Asleep(e), rounds, since) && !v.unloadNext
    requires e in sh.signalled
    ensures StepPost(sh, t, v, sh, v.(waiting := WaitsUnload(Awake(e), rounds, since)), false)
  {
  }

  lemma UnloadRelocksOk(sh: Shared, t: nat, v: View, e: nat, rounds: nat, since: nat)
    requires StepPre(sh, t, v) && v.mode.Free? && v.waiting == WaitsUnload(Awake(e), rounds, since) && !v.unloadNext
    requires v.tally.unloads == 1 && v.tally.unloadWaits == 1 && sh.owner.None?
    ensures StepPost(sh, t, v, sh.(owner := Some(t), hUnload := if sh.refCount > 1 then sh.hUnload else None),
                     View(AtWait, v.tally, false, WaitsUnload(AtHead, rounds, since)), false)
  {
  }

  lemma CloseBeginsOk(sh: Shared, t: nat, v: View)
    requires StepPre(sh, t, v) && v.mode.Held? && !v.unloadNext && v.tally == AddClose(NOTHING, 0)
    ensures StepPost(sh, t, v, sh, View(AtWait, v.tally, false, WaitsClose(AtHead, 0, sh.acquired)), false)
  {
  }

  lemma CloseSleepsOk(sh: Shared, t: nat, v: View, rounds: nat, since: nat)
    requires StepPre(sh, t, v) && v.mode.AtWait? && !v.unloadNext && v.waiting == WaitsClose(AtHead, rounds, since)
    requires v.tally == AddClose(NOTHING, 0) && sh.refCount > 0
    ensures StepPost(sh, t, v, SleepClose(sh),
                     View(Free, AddClose(NOTHING, 1), false, WaitsClose(Asleep(sh.nextEvent), rounds + 1, since)),
                         false)
  {
  }

  lemma CloseFreesOk(sh: Shared, t: nat, v: View, rounds: nat, since: nat)
    requires StepPre(sh, t, v) && v.mode.AtWait? && !v.unloadNext && v.waiting == WaitsClose(AtHead, rounds, since)
    requires v.tally == AddClose(NOTHING, 0) && sh.refCount <= 0
    ensures StepPost(sh, t, v, sh.(owner := None, freed := true), Plain(Outside, NOTHING), false)
  {
  }

  lemma CloseWakesOk(sh: Shared, t: nat, v: View, e: nat, rounds: nat, since: nat)
    requires StepPre(sh, t, v) && v.mode.Free? && v.waiting == WaitsClose(Asleep(e), rounds, since) && !v.unloadNext
    requires e in sh.signalled
    ensures StepPost(sh, t, v, sh, v.(waiting := WaitsClose(Awake(e), rounds, since)), false)
  {
  }

  lemma CloseRelocksOk(sh: Shared, t: nat, v: View, e: nat, rounds: nat, since: nat)
    requires StepPre(sh, t, v) && v.mode.Free? && v.waiting == WaitsClose(Awake(e), rounds, since) && !v.unloadNext
    requires v.tally == AddClose(NOTHING, 1) && sh.owner.None?
    ensures StepPost(sh, t, v, sh.(owner := Some(t), hClose := None),
                     View(AtWait, AddClose(NOTHING, 0), false, WaitsClose(AtHead, rounds, since)), false)
  {
  }

  // ---------- what a step means for the other threads ----------

  /** Another thread's wait stays sound across a step of t. */
  lemma OthersWait(sh: Shared, t: nat, v: View, sh1: Shared, v1: View, spawns: bool, w: Waiting)
    requires StepPre(sh, t, v) && StepPost(sh, t, v, sh1, v1, spawns) && WaitOk(sh, w)
    requires w.WaitsUnload? ==> v.tally.unloads == 0
    requires w.WaitsClose? ==> v.tally.closes == 0
    requires !w.NoWait? && w.phase.AtHead? ==> sh.owner.Some? && sh.owner != Some(t)
    ensures WaitOk(sh1, w)
  {
  }
}
