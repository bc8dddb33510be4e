/**
 IcaStackClose can always finish: from every reachable state after its call there is a continuation
 that frees the stack.
 */
module Completion {
  import opened IcaTypes
  import opened Control
  import opened StackMachine
  import opened Discipline
  import opened Invariant
  import opened Lifecycle
  import opened Progress
  import opened Steps
  import Work

  /** What all threads still have to do. */
  function AllWork(ts: seq<Thread>): nat {
    if ts == [] then 0 else AllWork(ts[..|ts| - 1]) + Work.WorkOf(ts[|ts| - 1])
  }

  lemma {:induction false} AllWorkUpdate(ts: seq<Thread>, t: nat, th: Thread)
    requires t < |ts|
    ensures AllWork(ts[t := th]) == AllWork(ts) - Work.WorkOf(ts[t]) + Work.WorkOf(th)
  {
    var last := |ts| - 1;
    if t == last {
      assert ts[t := th][..last] == ts[..last];
    } else {
      assert ts[t := th][..last] == ts[..last][t := th];
      AllWorkUpdate(ts[..last], t, th);
    }
  }

  // ---------- continuations ----------

  ghost predicate CanFree(s: State) {
    exists schedule: seq<Turn> :: Run(s, schedule).Some? && Run(s, schedule).value.sh.freed
  }

  lemma {:induction false} RunAfter(s: State, t: nat, a: Action, schedule: seq<Turn>)
    requires Step(s, t, a).Some?
    ensures Run(s, [Turn(t, a)] + schedule) == Run(Step(s, t, a).value, schedule)
    decreases |schedule|
  {
    var longer := [Turn(t, a)] + schedule;
    if schedule == [] {
      assert longer[..0] == [] && Run(s, []) == Some(s);
    } else {
      var last := |schedule| - 1;
      assert longer[..|longer| - 1] == [Turn(t, a)] + schedule[..last];
      RunAfter(s, t, a, schedule[..last]);
    }
  }

  lemma StepFrees(s: State, t: nat, a: Action)
    requires Step(s, t, a).Some? && (Step(s, t, a).value.sh.freed || CanFree(Step(s, t, a).value))
    ensures CanFree(s)
  {
    var s1 := Step(s, t, a).value;
    if s1.sh.freed {
      assert Run(s1, []) == Some(s1);
    }
    var schedule :| Run(s1, schedule).Some? && Run(s1, schedule).value.sh.freed;
    RunAfter(s, t, a, schedule);
  }

  // ---------- when everybody sleeps ----------

  predicate IsAsleep(c: Ctl) {
    c.Cons? && (c.top.UnloadWait? || c.top.CloseWait?) && c.top.phase.Asleep?
  }

  ghost predicate AllSleep(s: State) {
    forall t :: 0 <= t < |s.threads| && s.threads[t].ctl.Cons? ==> IsAsleep(s.threads[t].ctl)
  }

  /** An unloader that sleeps on while everybody else sleeps or is outside holds the last reference. */
  lemma UnloaderIsLast(s: State, t: nat)
    requires Inv(s) && AllFlat(s) && AllSleep(s) && t < |s.threads|
    requires s.threads[t].ctl.Cons? && s.threads[t].ctl.top.UnloadWait?
    ensures s.sh.refCount <= 1
  {
    SleeperRefs(s.threads[t].ctl);
    if s.sh.refCount > 1 {
      var u := OtherHolder(s, t);
      if s.threads[u].ctl.Cons? {
        SleeperRefs(s.threads[u].ctl);
      }
      TotalTwo(Unloads, s.threads, t, u);
    }
  }

  /** Without an unloader nobody holds a reference, and the closer is among the sleepers. */
  lemma CloserIsLast(s: State) returns (t: nat)
    requires Inv(s) && AllFlat(s) && AllSleep(s) && s.sh.closeCalled && !s.sh.freed
    requires forall u :: 0 <= u < |s.threads| && s.threads[u].ctl.Cons? ==> !s.threads[u].ctl.top.UnloadWait?
    ensures t < |s.threads| && s.threads[t].ctl.Cons? && s.threads[t].ctl.top.CloseWait? && s.sh.refCount == 0
  {
    if s.sh.refCount > 0 {
      var u := TotalWitness(Refs, s.threads);
      SleeperRefs(s.threads[u].ctl);
    }
    t := TotalWitness(Closes, s.threads);
  }

  // ---------- one stretch of the continuation ----------

  /** What the induction needs of a state after the call of IcaStackClose. */
  ghost predicate Closing(s: State) {
    Inv(s) && AllFlat(s) && s.sh.closeCalled
  }

  lemma ClosingKept(s: State, t: nat, a: Action)
    requires Closing(s) && Step(s, t, a).Some? && !a.Calls?
    ensures Closing(Step(s, t, a).value)
  {
    InvGivesReady(s, t);
    ThreadStepOk(s.sh, t, s.threads[t], a);
    MoveKeeps(s, t, a);
    FlatKept(s, t, a);
  }

  predicate Smaller(s1: State, s: State) {
    |s1.sh.modules| < |s.sh.modules| || (|s1.sh.modules| == |s.sh.modules| && AllWork(s1.threads) < AllWork(s.threads))
  }

  /** A thread that is not asleep takes its next step. */
  lemma Advances(s: State, t: nat)
    requires Closing(s) && t < |s.threads| && Work.Moves(s.sh, s.threads[t].ctl)
    ensures var a := Work.Ending(s.threads[t]);
            Step(s, t, a).Some? && Closing(Step(s, t, a).value) && Smaller(Step(s, t, a).value, s)
  {
    var th, a := s.threads[t], Work.Ending(s.threads[t]);
    Work.EndingShrinks(s.sh, t, th);
    ClosingKept(s, t, a);
    var o := ThreadStep(s.sh, t, th, a).value;
    assert Step(s, t, a).value.threads == s.threads[t := o.th];
    AllWorkUpdate(s.threads, t, o.th);
  }

  function Waking(c: Ctl, e: nat): Ctl
    requires IsAsleep(c)
  {
    if c.top.UnloadWait? then Cons(UnloadWait(Awake(e), c.top.rounds, c.top.since), c.rest)
    else Cons(CloseWait(Awake(e), c.top.rounds, c.top.since), c.rest)
  }

  function AtTest(c: Ctl): Ctl
    requires IsAsleep(c)
  {
    if c.top.UnloadWait? then Cons(UnloadWait(AtHead, c.top.rounds, c.top.since), c.rest)
    else Cons(CloseWait(AtHead, c.top.rounds, c.top.since), c.rest)
  }

  lemma Stirs(s: State, t: nat) returns (s1: State)
    requires Closing(s) && t < |s.threads| && IsAsleep(s.threads[t].ctl)
    requires s.threads[t].ctl.top.phase.event in s.sh.signalled
    ensures CanFree(s1) ==> CanFree(s)
    ensures Closing(s1) && s1.sh == s.sh
    ensures var c := s.threads[t].ctl;
            s1.threads == s.threads[t := s.threads[t].(ctl := Waking(c, c.top.phase.event))]
  {
    var c := s.threads[t].ctl;
    assert ThreadStep(s.sh, t, s.threads[t], Go)
        == Some(Outcome(s.sh, s.threads[t].(ctl := Waking(c, c.top.phase.event)), false));
    s1 := Step(s, t, Go).value;
    ClosingKept(s, t, Go);
    if CanFree(s1) {
      StepFrees(s, t, Go);
    }
  }

  /** A sleeper whose event is signalled gets to the test of its loop, with nothing but the lock and
      the handle changed. */
  lemma GetsUp(s: State, t: nat) returns (s1: State)
    requires Closing(s) && t < |s.threads| && IsAsleep(s.threads[t].ctl) && s.sh.owner.None?
    requires s.threads[t].ctl.top.phase.event in s.sh.signalled
    ensures CanFree(s1) ==> CanFree(s)
    ensures Closing(s1) && s1.sh == s.sh.(owner := Some(t), hUnload := s1.sh.hUnload, hClose := s1.sh.hClose)
    ensures s1.threads == s.threads[t := s.threads[t].(ctl := AtTest(s.threads[t].ctl))]
  {
    var m := Stirs(s, t);
    s1 := Locks(m, t, s.threads[t].ctl);
  }

  lemma LockStep(sh: Shared, t: nat, th: Thread, c: Ctl)
    requires IsAsleep(c) && th.ctl == Waking(c, c.top.phase.event) && sh.owner.None?
    ensures ThreadStep(sh, t, th, Go).Some? && LocksOnly(sh, t, th, c, ThreadStep(sh, t, th, Go).value)
  {
    if c.top.UnloadWait? {
      UnloaderLocks(sh, t, th, c);
    } else {
      CloserLocks(sh, t, th, c);
    }
  }

  /** The lock is taken; at most a handle is closed. */
  predicate LocksOnly(sh: Shared, t: nat, th: Thread, c: Ctl, o: Outcome)
    requires IsAsleep(c)
  {
    && o.th == th.(ctl := AtTest(c))
    && !o.spawns
    && o.sh == sh.(owner := Some(t), hUnload := o.sh.hUnload, hClose := o.sh.hClose)
  }

  lemma UnloaderLocks(sh: Shared, t: nat, th: Thread, c: Ctl)
    requires IsAsleep(c) && c.top.UnloadWait? && th.ctl == Waking(c, c.top.phase.event) && sh.owner.None?
    ensures ThreadStep(sh, t, th, Go).Some? && LocksOnly(sh, t, th, c, ThreadStep(sh, t, th, Go).value)
  {
  }

  lemma CloserLocks(sh: Shared, t: nat, th: Thread, c: Ctl)
    requires IsAsleep(c) && c.top.CloseWait? && th.ctl == Waking(c, c.top.phase.event) && sh.owner.None?
    ensures ThreadStep(sh, t, th, Go).Some? && LocksOnly(sh, t, th, c, ThreadStep(sh, t, th, Go).value)
  {
  }

  lemma Locks(s: State, t: nat, c: Ctl) returns (s1: State)
    requires Closing(s) && t < |s.threads| && IsAsleep(c) && s.threads[t].ctl == Waking(c, c.top.phase.event)
             && s.sh.owner.None?
    ensures CanFree(s1) ==> CanFree(s)
    ensures Closing(s1) && s1.sh == s.sh.(owner := Some(t), hUnload := s1.sh.hUnload, hClose := s1.sh.hClose)
    ensures s1.threads == s.threads[t := s.threads[t].(ctl := AtTest(c))]
  {
    LockStep(s.sh, t, s.threads[t], c);
    s1 := Step(s, t, Go).value;
    ClosingKept(s, t, Go);
    if CanFree(s1) {
      StepFrees(s, t, Go);
    }
  }

  /** At the test with no other reference left, the unload is over. */
  lemma Finishes(s: State, t: nat)
    requires Closing(s) && t < |s.threads| && s.threads[t].ctl.Cons? && s.threads[t].ctl.top.UnloadWait?
    requires s.threads[t].ctl.top.phase.AtHead? && s.sh.refCount <= 1
    ensures Step(s, t, Go) == Some(State(FinishUnload(s.sh),
                s.threads[t := s.threads[t].(ctl := s.threads[t].ctl.rest)]))
    ensures Closing(Step(s, t, Go).value)
  {
    var th := s.threads[t];
    assert ThreadStep(s.sh, t, th, Go) == Some(Outcome(FinishUnload(s.sh), th.(ctl := th.ctl.rest), false));
    assert s.threads[t := th.(ctl := th.ctl.rest)] + [] == s.threads[t := th.(ctl := th.ctl.rest)];
    ClosingKept(s, t, Go);
  }

  /** When everybody sleeps, an unloader among them can end its unload. */
  lemma UnloaderEnds(s: State, t: nat) returns (s1: State)
    requires Closing(s) && AllSleep(s) && s.sh.owner.None? && t < |s.threads|
    requires s.threads[t].ctl.Cons? && s.threads[t].ctl.top.UnloadWait?
    ensures CanFree(s1) ==> CanFree(s)
    ensures Closing(s1) && Smaller(s1, s) && s1.sh.freed == s.sh.freed
  {
    UnloaderIsLast(s, t);
    assert WaitOk(s.sh, WaitingOf(s.threads[t].ctl));
    var th := s.threads[t];
    var m := GetsUp(s, t);
    Finishes(m, t);
    s1 := Step(m, t, Go).value;
    assert s1.threads == s.threads[t := th.(ctl := th.ctl.rest)];
    Work.Drops(th, th.(ctl := th.ctl.rest));
    AllWorkUpdate(s.threads, t, th.(ctl := th.ctl.rest));
    if CanFree(s1) {
      StepFrees(m, t, Go);
    }
  }

  /** When only the closer sleeps, it can free the stack. */
  lemma CloserEnds(s: State, t: nat)
    requires Closing(s) && s.sh.owner.None? && t < |s.threads| && IsAsleep(s.threads[t].ctl)
    requires s.threads[t].ctl.top.CloseWait? && s.sh.refCount == 0
    ensures CanFree(s)
  {
    assert WaitOk(s.sh, WaitingOf(s.threads[t].ctl));
    var m := GetsUp(s, t);
    LastStep(m, t);
    StepFrees(m, t, Go);
  }

  lemma LastStep(s: State, t: nat)
    requires t < |s.threads| && s.threads[t].ctl.Cons? && s.threads[t].ctl.top.CloseWait?
    requires s.threads[t].ctl.top.phase.AtHead? && s.sh.refCount == 0
    ensures Step(s, t, Go).Some? && Step(s, t, Go).value.sh.freed
  {
  }

  // ---------- to the end ----------

  lemma SomebodyMoves(s: State, t: nat) returns (u: nat)
    requires Closing(s) && t < |s.threads|
    requires s.sh.owner.Some? || (s.threads[t].ctl.Cons? && !IsAsleep(s.threads[t].ctl))
    ensures u < |s.threads| && Work.Moves(s.sh, s.threads[u].ctl)
  {
    if s.sh.owner.Some? {
      u := s.sh.owner.value;
      assert Owns(s.threads[u].ctl);
    } else {
      u := t;
    }
  }

  lemma Completes(s: State)
    requires Closing(s) && !s.sh.freed
    ensures CanFree(s)
    decreases |s.sh.modules|, AllWork(s.threads), 1
  {
    var c := TotalWitness(Closes, s.threads);
    if s.sh.owner.Some? {
      var u := SomebodyMoves(s, c);
      CompletesFrom(s, u);
    } else if t :| 0 <= t < |s.threads| && s.threads[t].ctl.Cons? && !IsAsleep(s.threads[t].ctl) {
      var u := SomebodyMoves(s, t);
      CompletesFrom(s, u);
    } else if t :| 0 <= t < |s.threads| && s.threads[t].ctl.Cons? && s.threads[t].ctl.top.UnloadWait? {
      var s1 := UnloaderEnds(s, t);
      Completes(s1);
    } else {
      var u := CloserIsLast(s);
      CloserEnds(s, u);
    }
  }

  lemma CompletesFrom(s: State, t: nat)
    requires Closing(s) && !s.sh.freed && t < |s.threads| && Work.Moves(s.sh, s.threads[t].ctl)
    ensures CanFree(s)
    decreases |s.sh.modules|, AllWork(s.threads), 0
  {
    var a := Work.Ending(s.threads[t]);
    Advances(s, t);
    var s1 := Step(s, t, a).value;
    if !s1.sh.freed {
      Completes(s1);
    }
    StepFrees(s, t, a);
  }

  /** Once IcaStackClose was called, whatever state the stack is in, there is a continuation in which
      it frees the stack: no interleaving leads into a dead end. */
  lemma CloseCanFinish(s: State)
    requires Reachable(s) && s.sh.closeCalled && !s.sh.freed
    ensures exists schedule: seq<Turn> :: Run(s, schedule).Some? && Run(s, schedule).value.sh.freed
  {
    ReachableInv(s);
    ReachableFlat(s);
    Completes(s);
  }
}
