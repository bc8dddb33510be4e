/**
 What holds in every run of the ICA stack, whatever the schedule, the device, the callback and
 the connection driver do.
 */
module Lifecycle {
  import opened IcaTypes
  import opened Control
  import opened StackMachine
  import opened Discipline
  import opened Steps
  import opened Invariant

  // ---------- the lock ----------

  /** Code whose next act is LOCK, which asserts that the caller does not own the lock yet. */
  predicate TakesLock(i: Item) {
    || i.Enter? || i.EnterNested? || i.Relock? || i.CdRelock? || i == CdThread(false)
    || (i.UnloadWait? && i.phase.Awake?) || (i.CloseWait? && i.phase.Awake?)
  }

  /** Code that runs under ASSERTLOCK, or whose next act is UNLOCK. */
  predicate RunsLocked(i: Item) {
    || i.Leave? || i.AwaitUnlock? || i.Io? || i.CdCode? || i == CdThread(true) || i.PushStack? || i.Load? || i.Call?
    || i.Accept? || i.PopStack? || i.Unload? || i.CloseBegin?
    || (i.UnloadWait? && i.phase.AtHead?) || (i.CloseWait? && i.phase.AtHead?)
  }

  lemma LockedItems(c: Ctl)
    requires WellFormed(c) && c.Cons?
    ensures TakesLock(c.top) ==> !Owns(c)
    ensures RunsLocked(c.top) ==> Owns(c)
  {
  }

  /** No LOCK by the owner, no UNLOCK by another, every ASSERTLOCK holds; outside, nobody owns the lock. */
  lemma LockDiscipline(s: State, t: nat)
    requires Reachable(s) && t < |s.threads|
    ensures s.threads[t].ctl.Nil? ==> s.sh.owner != Some(t)
    ensures s.threads[t].ctl.Cons? ==>
              && (TakesLock(s.threads[t].ctl.top) ==> s.sh.owner != Some(t))
              && (RunsLocked(s.threads[t].ctl.top) ==> s.sh.owner == Some(t))
  {
    ReachableInv(s);
    assert Owns(s.threads[t].ctl) <==> s.sh.owner == Some(t);
    if s.threads[t].ctl.Cons? {
      LockedItems(s.threads[t].ctl);
    }
  }

  /** While a thread owns the lock, a step of any other thread inside a call changes nothing but
      what the device holds. */
  lemma LockProtects(s: State, t: nat, a: Action)
    requires Reachable(s) && Step(s, t, a).Some? && !a.Calls?
    requires s.sh.owner.Some? && s.sh.owner != Some(t)
    ensures Step(s, t, a).value.sh == s.sh.(modules := Step(s, t, a).value.sh.modules)
  {
    ReachableInv(s);
    InvGivesReady(s, t);
    ThreadStepOk(s.sh, t, s.threads[t], a);
  }

  // ---------- the reference count ----------

  /** Lock-dropped windows a thread has open; a callback's ioctl and its nested worker are two. */
  function Windows(c: Ctl): nat {
    if c.Nil? then 0
    else
      var i := c.top;
      Bit(i.InCallback? || i.InDevice? || i.Relock? || i.CdDevice? || i.CdWaiting? || i.CdRelock?) + Windows(c.rest)
  }

  /** 1 for a live CD thread. */
  function CdThreads(c: Ctl): nat {
    if c.Nil? then 0 else Bit(c.top.CdThread?) + CdThreads(c.rest)
  }

  function OpenWindows(ts: seq<Thread>): nat {
    if ts == [] then 0 else OpenWindows(ts[..|ts| - 1]) + Windows(ts[|ts| - 1].ctl)
  }

  function LiveCdThreads(ts: seq<Thread>): nat {
    if ts == [] then 0 else LiveCdThreads(ts[..|ts| - 1]) + CdThreads(ts[|ts| - 1].ctl)
  }

  lemma RefsOfThread(c: Ctl)
    ensures TallyOf(c).refs == Windows(c) + CdThreads(c) + TallyOf(c).unloadWaits
  {
  }

  lemma RefsOfThreads(ts: seq<Thread>)
    ensures Total(Refs, ts) == OpenWindows(ts) + LiveCdThreads(ts) + Total(UnloadWaits, ts)
  {
    if ts == [] {
    } else {
      RefsOfThreads(ts[..|ts| - 1]);
      RefsOfThread(ts[|ts| - 1].ctl);
    }
  }

  /** RefCount is exactly the open windows, plus the live CD threads, plus one while an unloader
      sits between its own increment and decrement. */
  lemma RefCountEquation(s: State)
    requires Reachable(s)
    ensures s.sh.refCount == OpenWindows(s.threads) + LiveCdThreads(s.threads) + Total(UnloadWaits, s.threads)
    ensures Total(UnloadWaits, s.threads) <= Bit(s.sh.unloading)
    ensures s.sh.refCount >= 0
  {
    ReachableInv(s);
    RefsOfThreads(s.threads);
    WaitersAreIn(s.threads);
  }

  // ---------- wakeups ----------

  predicate SleepsUnload(c: Ctl, e: nat) {
    c.Cons? && c.top.UnloadWait? && c.top.phase == Asleep(e)
  }

  predicate SleepsClose(c: Ctl, e: nat) {
    c.Cons? && c.top.CloseWait? && c.top.phase == Asleep(e)
  }

  /** Whoever sleeps on an unsignalled event sleeps on the current one, and somebody still holds
      the reference whose release will signal it. */
  lemma NoLostWakeup(s: State, t: nat, e: nat)
    requires Reachable(s) && t < |s.threads| && e !in s.sh.signalled
    ensures SleepsUnload(s.threads[t].ctl, e) ==> s.sh.hUnload == Some(e) && s.sh.refCount > 1
    ensures SleepsClose(s.threads[t].ctl, e) ==> s.sh.hClose == Some(e) && s.sh.refCount > 0
  {
    ReachableInv(s);
    assert WaitOk(s.sh, WaitingOf(s.threads[t].ctl));
  }

  /** A sleeper is never stranded: once nobody else holds a reference it can wake up. */
  lemma NoStrandedSleeper(s: State, t: nat, e: nat)
    requires Reachable(s) && t < |s.threads|
    requires SleepsUnload(s.threads[t].ctl, e) || SleepsClose(s.threads[t].ctl, e)
    requires s.sh.refCount <= (if SleepsUnload(s.threads[t].ctl, e) then 1 else 0)
    ensures Step(s, t, Go).Some?
  {
    if e !in s.sh.signalled {
      NoLostWakeup(s, t, e);
    }
  }

  // ---------- bounded waiting ----------

  /** The unload loop goes round at most once more than references were acquired since the
      unloader took its own; the close loop at most once more than since the closer began. */
  lemma BoundedRewaiting(s: State, t: nat)
    requires Reachable(s) && t < |s.threads| && s.threads[t].ctl.Cons?
    ensures var i := s.threads[t].ctl.top;
            i.UnloadWait? || i.CloseWait? ==> i.since <= s.sh.acquired && i.rounds <= 1 + (s.sh.acquired - i.since)
  {
    ReachableInv(s);
    assert WaitOk(s.sh, WaitingOf(s.threads[t].ctl));
  }

  // ---------- closing ----------

  /** The step in which IcaStackClose leaves its wait loop and frees the stack. */
  predicate Frees(s: State, t: nat, a: Action) {
    Step(s, t, a).Some? && !s.sh.freed && Step(s, t, a).value.sh.freed
  }

  /** IcaStackClose at the test of its wait loop, with no reference left. */
  predicate AboutToFree(s: State, t: nat) {
    && t < |s.threads|
    && s.threads[t].ctl.Cons?
    && s.threads[t].ctl.top.CloseWait?
    && s.threads[t].ctl.top.phase.AtHead?
    && s.sh.refCount <= 0
  }

  /** When IcaStackClose is about to free the stack, every other thread is outside every call and no
      CD thread is live. */
  lemma QuiescentFree(s: State, t: nat, u: nat)
    requires Reachable(s) && AboutToFree(s, t) && u < |s.threads| && u != t
    ensures s.threads[u].ctl.Nil? && s.sh.refCount == 0 && s.sh.owner == Some(t)
  {
    ReachableInv(s);
    CloserAloneAtLast(s, t, u);
    WaitersAreIn(s.threads);
    assert Owns(s.threads[t].ctl) <==> s.sh.owner == Some(t);
  }

  /** Nothing else frees it. */
  lemma FreedByCloser(s: State, t: nat, a: Action)
    requires Reachable(s)
    ensures Frees(s, t, a) ==> AboutToFree(s, t)
  {
    if Frees(s, t, a) {
      ReachableInv(s);
      InvGivesReady(s, t);
      ThreadStepOk(s.sh, t, s.threads[t], a);
      assert s.threads[t].ctl.top.CloseWait?;
    }
  }

  /** Nothing touches the stack after it is freed. */
  lemma NoUseAfterFree(s: State, t: nat, a: Action)
    requires Reachable(s) && s.sh.freed
    ensures Step(s, t, a).None?
  {
    ReachableInv(s);
  }

  // ---------- unloading ----------

  /** At most one thread is in the body of _IcaPopStack, and fUnloading is set while it is. */
  lemma OneUnloader(s: State, t: nat, u: nat)
    requires Reachable(s) && t < |s.threads| && u < |s.threads| && u != t
    requires TallyOf(s.threads[t].ctl).unloads > 0
    ensures TallyOf(s.threads[u].ctl).unloads == 0 && s.sh.unloading
  {
    ReachableInv(s);
    TotalTwo(Unloads, s.threads, t, u);
  }

  // ---------- the flags ----------

  lemma FlagInvariant(s: State)
    requires Reachable(s) && s.sh.owner.None? && s.sh.closing && s.sh.loaded
    ensures s.sh.unloading
  {
    ReachableInv(s);
  }

  lemma ClosingStep(s: State, t: nat, a: Action)
    requires Inv(s) && Step(s, t, a).Some?
    ensures s.sh.closing ==> Step(s, t, a).value.sh.closing
    ensures Step(s, t, a).value.sh.closing && Step(s, t, a).value.sh.loaded ==> s.sh.loaded
  {
    if !a.Calls? {
      InvGivesReady(s, t);
      ThreadStepOk(s.sh, t, s.threads[t], a);
    }
  }

  lemma {:induction false} ClosingRun(s: State, schedule: seq<Turn>)
    requires Inv(s) && s.sh.closing && Run(s, schedule).Some?
    ensures Run(s, schedule).value.sh.closing
    ensures Run(s, schedule).value.sh.loaded ==> s.sh.loaded
    decreases |schedule|
  {
    if schedule == [] {
    } else {
      var last := |schedule| - 1;
      ClosingRun(s, schedule[..last]);
      RunKeeps(s, schedule[..last]);
      ClosingStep(Run(s, schedule[..last]).value, schedule[last].t, schedule[last].a);
    }
  }

  /** fClosing is final, and fStackLoaded is never set while it holds. */
  lemma ClosingIsFinal(s: State, schedule: seq<Turn>, s1: State)
    requires Reachable(s) && s.sh.closing
    ensures Run(s, schedule) == Some(s1) ==> s1.sh.closing && (s1.sh.loaded ==> s.sh.loaded)
  {
    if Run(s, schedule) == Some(s1) {
      ReachableInv(s);
      ClosingRun(s, schedule);
    }
  }
}
