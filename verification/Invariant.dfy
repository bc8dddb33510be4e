/**
 The invariant of all runs: the discipline of single steps lifted to any number of threads and
 any schedule.
 */
module Invariant {
  import opened IcaTypes
  import opened Control
  import opened StackMachine
  import opened Discipline
  import opened Steps

  // ---------- sums over threads ----------

  datatype Measure = Refs | Unloads | UnloadWaits | Closes | CloseWaits

  function Field(m: Measure, v: Tally): nat {
    match m
    case Refs => v.refs
    case Unloads => v.unloads
    case UnloadWaits => v.unloadWaits
    case Closes => v.closes
    case CloseWaits => v.closeWaits
  }

  function Of(m: Measure, th: Thread): nat {
    Field(m, TallyOf(th.ctl))
  }

  function Total(m: Measure, ts: seq<Thread>): nat {
    if ts == [] then 0 else Total(m, ts[..|ts| - 1]) + Of(m, ts[|ts| - 1])
  }

  lemma {:induction false} TotalUpdate(m: Measure, ts: seq<Thread>, t: nat, th: Thread)
    requires t < |ts|
    ensures Total(m, ts[t := th]) == Total(m, ts) - Of(m, ts[t]) + Of(m, th)
    decreases |ts|
  {
    var last := |ts| - 1;
    if t == last {
      assert ts[t := th][..last] == ts[..last];
    } else {
      assert ts[t := th][..last] == ts[..last][t := th];
      TotalUpdate(m, ts[..last], t, th);
    }
  }

  lemma TotalAppend(m: Measure, ts: seq<Thread>, th: Thread)
    ensures Total(m, ts + [th]) == Total(m, ts) + Of(m, th)
  {
    assert (ts + [th])[..|ts|] == ts;
  }

  lemma {:induction false} TotalMember(m: Measure, ts: seq<Thread>, t: nat)
    requires t < |ts|
    ensures Of(m, ts[t]) <= Total(m, ts)
    decreases |ts|
  {
    if t < |ts| - 1 {
      TotalMember(m, ts[..|ts| - 1], t);
    }
  }

  lemma TotalTwo(m: Measure, ts: seq<Thread>, t: nat, u: nat)
    requires t < |ts| && u < |ts| && t != u
    ensures Of(m, ts[t]) + Of(m, ts[u]) <= Total(m, ts)
  {
    var idle := NewThread(Nil);
    TotalUpdate(m, ts, t, idle);
    TotalMember(m, ts[t := idle], u);
  }

  /** Somebody accounts for a positive total. */
  lemma {:induction false} TotalWitness(m: Measure, ts: seq<Thread>) returns (t: nat)
    requires Total(m, ts) > 0
    ensures t < |ts| && Of(m, ts[t]) > 0
    decreases |ts|
  {
    if Of(m, ts[|ts| - 1]) > 0 {
      t := |ts| - 1;
    } else {
      t := TotalWitness(m, ts[..|ts| - 1]);
    }
  }

  // ---------- the invariant ----------

  ghost predicate ThreadsOk(s: State) {
    forall t :: 0 <= t < |s.threads| ==>
      && WellFormed(s.threads[t].ctl)
      && (Owns(s.threads[t].ctl) <==> s.sh.owner == Some(t))
      && WaitOk(s.sh, WaitingOf(s.threads[t].ctl))
  }

  predicate CountsOk(s: State) {
    && s.sh.refCount == Total(Refs, s.threads)
    && Bit(s.sh.unloading) == Total(Unloads, s.threads)
    && Bit(s.sh.closeCalled && !s.sh.freed) == Total(Closes, s.threads)
    && (s.sh.hUnload.Some? ==> Total(UnloadWaits, s.threads) > 0)
    && (s.sh.hClose.Some? ==> Total(CloseWaits, s.threads) > 0)
  }

  predicate LockOk(s: State) {
    && (s.sh.owner.Some? ==> s.sh.owner.value < |s.threads|)
    && (FlagsPending(s.sh) ==> s.sh.owner.Some? && ViewOf(s.threads[s.sh.owner.value].ctl).unloadNext)
  }

  ghost predicate ClosingOk(s: State) {
    && (s.sh.closeCalled ==>
          forall t :: 0 <= t < |s.threads| && AtEntry(s.threads[t].ctl) ==> s.threads[t].ctl.top.api.Close?)
    && (s.sh.freed ==> s.sh.closeCalled && forall t :: 0 <= t < |s.threads| ==> s.threads[t].ctl.Nil?)
  }

  ghost predicate Inv(s: State) {
    ThreadsOk(s) && EventsOk(s.sh) && CountsOk(s) && LockOk(s) && ClosingOk(s)
  }

  // ---------- what one thread may conclude ----------

  lemma WaitersAreIn(ts: seq<Thread>)
    ensures Total(UnloadWaits, ts) <= Total(Unloads, ts)
    ensures Total(CloseWaits, ts) <= Total(Closes, ts)
  {
    if ts == [] {
    } else {
      WaitersAreIn(ts[..|ts| - 1]);
      WaitsWithin(ts[|ts| - 1].ctl);
    }
  }

  /** Without thread t, nobody else is in charge of an unload (close) that t is in charge of. */
  lemma OnlyOneInCharge(s: State, t: nat)
    requires CountsOk(s) && t < |s.threads|
    ensures Of(Unloads, s.threads[t]) == 1 && Of(UnloadWaits, s.threads[t]) == 0 ==> s.sh.hUnload.None?
    ensures Of(Closes, s.threads[t]) == 1 && Of(CloseWaits, s.threads[t]) == 0 ==> s.sh.hClose.None?
  {
    var idle := NewThread(Nil);
    TotalUpdate(Unloads, s.threads, t, idle);
    TotalUpdate(UnloadWaits, s.threads, t, idle);
    TotalUpdate(Closes, s.threads, t, idle);
    TotalUpdate(CloseWaits, s.threads, t, idle);
    WaitersAreIn(s.threads[t := idle]);
  }

  lemma InvGivesReady(s: State, t: nat)
    requires Inv(s) && t < |s.threads| && s.threads[t].ctl.Cons?
    ensures Ready(s.sh, t, s.threads[t].ctl)
  {
    OnlyOneInCharge(s, t);
    TotalMember(Refs, s.threads, t);
    TotalMember(Unloads, s.threads, t);
    TotalMember(Closes, s.threads, t);
  }

  /** A thread that holds no reference and not the lock is outside, or at the door. */
  lemma {:induction false} Quiescent(c: Ctl)
    requires WellFormed(c) && !Owns(c) && TallyOf(c).refs == 0
    ensures c.Nil? || AtEntry(c) || c.top.CloseWait?
  {
    if c.Cons? {
      PreOf(c.top);
      if c.top.EnterNested? {
        PreOf(c.rest.top);
      }
    }
  }

  // ---------- every step keeps the invariant ----------

  /** The parts of a step of thread t, seen from the whole system. */
  ghost predicate StepOf(s: State, t: nat, o: Outcome, s1: State) {
    && t < |s.threads|
    && s1.sh == o.sh
    && s1.threads == s.threads[t := o.th] + if o.spawns then [NewThread(Cons(CdThread(false), Nil))] else []
  }

  lemma TotalStep(m: Measure, s: State, t: nat, o: Outcome, s1: State)
    requires StepOf(s, t, o, s1)
    ensures Total(m, s1.threads)
         == Total(m, s.threads) - Of(m, s.threads[t]) + Of(m, o.th) + Bit(o.spawns && m.Refs?)
  {
    TotalUpdate(m, s.threads, t, o.th);
    if o.spawns {
      TotalAppend(m, s.threads[t := o.th], NewThread(Cons(CdThread(false), Nil)));
      NewThreadTally();
    } else {
      assert s1.threads == s.threads[t := o.th];
    }
  }

  lemma NewThreadTally()
    ensures TallyOf(Cons(CdThread(false), Nil)) == AddRef(NOTHING)
    ensures WellFormed(Cons(CdThread(false), Nil))
  {
  }

  lemma CountsKept(s: State, t: nat, o: Outcome, s1: State)
    requires Inv(s) && StepOf(s, t, o, s1) && s.threads[t].ctl.Cons?
    requires OutcomeOk(s.sh, t, s.threads[t], o)
    ensures CountsOk(s1)
  {
    TotalStep(Refs, s, t, o, s1);
    TotalStep(Unloads, s, t, o, s1);
    TotalStep(UnloadWaits, s, t, o, s1);
    TotalStep(Closes, s, t, o, s1);
    TotalStep(CloseWaits, s, t, o, s1);
    TotalMember(UnloadWaits, s1.threads, t);
    TotalMember(CloseWaits, s1.threads, t);
  }

  lemma OtherKept(s: State, t: nat, o: Outcome, s1: State, u: nat)
    requires Inv(s) && StepOf(s, t, o, s1) && s.threads[t].ctl.Cons? && u < |s.threads| && u != t
    requires OutcomeOk(s.sh, t, s.threads[t], o)
    ensures WaitOk(s1.sh, WaitingOf(s.threads[u].ctl))
    ensures Owns(s.threads[u].ctl) <==> s1.sh.owner == Some(u)
  {
    InvGivesReady(s, t);
    TotalTwo(Unloads, s.threads, t, u);
    TotalTwo(Closes, s.threads, t, u);
    OthersWait(s.sh, t, ViewOf(s.threads[t].ctl), o.sh, ViewOf(o.th.ctl), o.spawns, WaitingOf(s.threads[u].ctl));
  }

  lemma ThreadsKept(s: State, t: nat, o: Outcome, s1: State)
    requires Inv(s) && StepOf(s, t, o, s1) && s.threads[t].ctl.Cons?
    requires OutcomeOk(s.sh, t, s.threads[t], o)
    ensures ThreadsOk(s1)
  {
    NewThreadTally();
    forall u | 0 <= u < |s1.threads|
      ensures WellFormed(s1.threads[u].ctl) && (Owns(s1.threads[u].ctl) <==> s1.sh.owner == Some(u))
      ensures WaitOk(s1.sh, WaitingOf(s1.threads[u].ctl))
    {
      if u < |s.threads| && u != t {
        OtherKept(s, t, o, s1, u);
      }
    }
  }

  /** When IcaStackClose finds no reference left, every other thread is outside. */
  lemma CloserAloneAtLast(s: State, t: nat, u: nat)
    requires Inv(s) && t < |s.threads| && u < |s.threads| && u != t
    requires s.threads[t].ctl.Cons? && s.threads[t].ctl.top.CloseWait? && Owns(s.threads[t].ctl) && s.sh.refCount <= 0
    ensures s.threads[u].ctl.Nil?
  {
    OneClosesElse(s, t, u);
    TotalMember(Refs, s.threads, u);
    Quiescent(s.threads[u].ctl);
  }

  lemma FreedAlone(s: State, t: nat, o: Outcome, u: nat)
    requires Inv(s) && t < |s.threads| && u < |s.threads| && u != t && s.threads[t].ctl.Cons?
    requires OutcomeOk(s.sh, t, s.threads[t], o) && o.sh.freed
    ensures s.threads[u].ctl.Nil?
  {
    InvGivesReady(s, t);
    OneClosesElse(s, t, u);
    TotalMember(Refs, s.threads, u);
    Quiescent(s.threads[u].ctl);
  }

  lemma OneClosesElse(s: State, t: nat, u: nat)
    requires Inv(s) && t < |s.threads| && u < |s.threads| && u != t
    requires s.threads[t].ctl.Cons? && s.threads[t].ctl.top.CloseWait?
    ensures s.sh.closeCalled && Of(Closes, s.threads[u]) == 0 && !AtEntry(s.threads[u].ctl)
  {
    TotalTwo(Closes, s.threads, t, u);
  }

  lemma ClosingKept(s: State, t: nat, o: Outcome, s1: State)
    requires Inv(s) && StepOf(s, t, o, s1) && s.threads[t].ctl.Cons?
    requires OutcomeOk(s.sh, t, s.threads[t], o)
    ensures ClosingOk(s1)
  {
    InvGivesReady(s, t);
    if o.sh.freed {
      TotalMember(Closes, s.threads, t);
      forall u | 0 <= u < |s1.threads| ensures s1.threads[u].ctl.Nil? {
        if u < |s.threads| && u != t {
          FreedAlone(s, t, o, u);
        }
      }
    }
  }

  lemma LockKept(s: State, t: nat, o: Outcome, s1: State)
    requires Inv(s) && StepOf(s, t, o, s1) && s.threads[t].ctl.Cons?
    requires OutcomeOk(s.sh, t, s.threads[t], o)
    ensures LockOk(s1)
  {
    InvGivesReady(s, t);
  }

  lemma MoveKeeps(s: State, t: nat, a: Action)
    requires Inv(s) && !a.Calls? && Step(s, t, a).Some?
    ensures Inv(Step(s, t, a).value)
  {
    var s1 := Step(s, t, a).value;
    var o := ThreadStep(s.sh, t, s.threads[t], a).value;
    InvGivesReady(s, t);
    ThreadStepOk(s.sh, t, s.threads[t], a);
    ThreadsKept(s, t, o, s1);
    CountsKept(s, t, o, s1);
    LockKept(s, t, o, s1);
    ClosingKept(s, t, o, s1);
  }

  lemma EnterTally(api: Api)
    ensures WellFormed(Cons(Enter(api), Nil))
    ensures TallyOf(Cons(Enter(api), Nil)) == if api.Close? then AddClose(NOTHING, 0) else NOTHING
  {
  }

  lemma CallTotal(m: Measure, s: State, t: nat, api: Api)
    requires Step(s, t, Calls(api)).Some?
    ensures Total(m, Step(s, t, Calls(api)).value.threads) == Total(m, s.threads) + Bit(m.Closes? && api.Close?)
  {
    EnterTally(api);
    TotalUpdate(m, s.threads, t, Step(s, t, Calls(api)).value.threads[t]);
  }

  lemma CallCounts(s: State, t: nat, api: Api)
    requires CountsOk(s) && !s.sh.freed && Step(s, t, Calls(api)).Some?
    ensures CountsOk(Step(s, t, Calls(api)).value)
  {
    CallTotal(Refs, s, t, api);
    CallTotal(Unloads, s, t, api);
    CallTotal(UnloadWaits, s, t, api);
    CallTotal(Closes, s, t, api);
    CallTotal(CloseWaits, s, t, api);
  }

  lemma CallThreads(s: State, t: nat, api: Api)
    requires Inv(s) && Step(s, t, Calls(api)).Some?
    ensures ThreadsOk(Step(s, t, Calls(api)).value)
  {
    EnterTally(api);
  }

  lemma CallKeeps(s: State, t: nat, api: Api)
    requires Inv(s) && Step(s, t, Calls(api)).Some?
    ensures Inv(Step(s, t, Calls(api)).value)
  {
    CallCounts(s, t, api);
    CallThreads(s, t, api);
  }

  lemma StepKeeps(s: State, t: nat, a: Action)
    requires Inv(s) && Step(s, t, a).Some?
    ensures Inv(Step(s, t, a).value)
  {
    if a.Calls? {
      CallKeeps(s, t, a.api);
    } else {
      MoveKeeps(s, t, a);
    }
  }

  lemma IdleTotal(m: Measure, ts: seq<Thread>)
    requires forall i :: 0 <= i < |ts| ==> ts[i].ctl.Nil?
    ensures Total(m, ts) == 0
  {
  }

  lemma InitialInv(n: nat, hasCallback: bool)
    ensures Inv(Initial(n, hasCallback))
  {
    var s := Initial(n, hasCallback);
    IdleTotal(Refs, s.threads);
    IdleTotal(Unloads, s.threads);
    IdleTotal(Closes, s.threads);
  }

  lemma {:induction false} RunKeeps(s: State, schedule: seq<Turn>)
    requires Inv(s) && Run(s, schedule).Some?
    ensures Inv(Run(s, schedule).value)
    decreases |schedule|
  {
    if schedule == [] {
    } else {
      var last := |schedule| - 1;
      RunKeeps(s, schedule[..last]);
      StepKeeps(Run(s, schedule[..last]).value, schedule[last].t, schedule[last].a);
    }
  }

  lemma ReachableInv(s: State)
    requires Reachable(s)
    ensures Inv(s)
  {
    var n: nat, hasCallback: bool, schedule: seq<Turn> :| Run(Initial(n, hasCallback), schedule) == Some(s);
    InitialInv(n, hasCallback);
    RunKeeps(Initial(n, hasCallback), schedule);
  }
}
