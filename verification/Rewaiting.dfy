/**
 The race that the remark at stack.c:2280-2282 wonders about: between the signal and the LOCK of an
 unloader another thread can take the lock and a reference.
 */
module Rewaiting {
  import opened IcaTypes
  import opened Control
  import opened Environment
  import Invariant
  import opened Schedules
  import opened StackMachine

  /** An unloader was signalled, and before it has the lock again there are more references. */
  predicate MustWaitAgain(s: State, t: nat, e: nat) {
    && t < |s.threads|
    && s.threads[t].ctl.Cons?
    && s.threads[t].ctl.top.UnloadWait?
    && s.threads[t].ctl.top.phase == Awake(e)
    && s.sh.owner.None?
    && s.sh.refCount > 1
  }

  /** The first ioctl is over, and so the event of the unloader is signalled. */
  lemma Unloader(env: Env) returns (p: Point)
    ensures Leads(env, Initial(2, false), p) && p.t == 0 && |p.threads| == 2 && p.th.ctl.Nil? && p.past == Past(2, {})
    ensures p.sh.hUnload.Some? && p.sh.hUnload.value in p.sh.signalled && p.sh.refCount == 1 && p.sh.owner.None?
    ensures Sleeps(p.threads[1].ctl, p.sh.hUnload.value, TERMINATING) && !p.sh.closeCalled && !p.sh.cd
  {
    var s0, code := Initial(2, false), OtherCode(0);
    Starts(env, 2, 0);
    var a := SendsOutside(env, s0, Point(s0.threads, 0, s0.sh, NewThread(Nil), Past(2, {})), code);
    Switched(env, s0, a, 1);
    var b := a.From(1);
    StartsTerminate(env, s0, b);
    var c := Unloads(env, s0, b.Goes(Cons(PopStack, TERMINATING)).(sh := b.sh.(owner := Some(1), closing := true)),
        TERMINATING);
    Switched(env, s0, c, 0);
    var d := c.From(0);
    Receives(env, s0, d, code, LEAVE, StatusSuccess, d.th.reply);
    var f := Received(d, code, LEAVE, StatusSuccess, d.th.reply);
    Leaves(env, s0, f);
    p := f.Goes(Nil).(sh := f.sh.(owner := None));
  }

  /** The unloader has woken up, and waits for the lock. */
  lemma Stirring(env: Env) returns (p: Point)
    ensures Leads(env, Initial(2, false), p) && p.t == 1 && |p.threads| == 2 && p.threads[0].ctl.Nil?
            && p.past == Past(2, {})
    ensures p.sh.refCount == 1 && p.sh.owner.None? && !p.sh.closeCalled && !p.sh.cd
    ensures p.th.ctl.Cons? && p.th.ctl.top.UnloadWait? && p.th.ctl.top.phase.Awake?
  {
    var s0 := Initial(2, false);
    var a := Unloader(env);
    Switched(env, s0, a, 1);
    var b := a.From(1);
    var e, i := b.sh.hUnload.value, b.th.ctl.top;
    Stirs(env, s0, b, e, TERMINATING);
    p := b.Goes(Cons(UnloadWait(Awake(e), i.rounds, i.since), TERMINATING));
  }

  /** Two threads, an ioctl in the device, a Terminate that waits for it, and a second ioctl. */
  lemma WaitAgainReachable()
    ensures exists s: State, t: nat, e: nat :: Reachable(s) && MustWaitAgain(s, t, e)
  {
    var env, s0 := Env({}, false, false, false), Initial(2, false);
    var p := Stirring(env);
    Switched(env, s0, p, 0);
    var q := SendsOutside(env, s0, p.From(0), OtherCode(1));
    assert MustWaitAgain(q.AsState(), 1, p.th.ctl.top.phase.event);
    var schedule :| Run(s0, schedule) == Some(q.AsState());
    assert Reachable(q.AsState());
  }

  /** What the unloader then does: it goes to sleep once more, on a new event, and the handle it slept
      on is lost. */
  lemma WaitsAgain(s: State, t: nat, e: nat)
    requires Reachable(s) && MustWaitAgain(s, t, e)
    ensures var s2 := Run(s, [Turn(t, Go), Turn(t, Go)]);
            && s2.Some? && s2.value.sh.hUnload.Some? && s2.value.sh.hUnload.value != e
            && Sleeps(s2.value.threads[t].ctl, s2.value.sh.hUnload.value, s.threads[t].ctl.rest)
  {
    Invariant.ReachableInv(s);
    Invariant.InvGivesReady(s, t);
    var s1 := Step(s, t, Go).value;
    assert s1.sh.owner == Some(t) && s1.sh.refCount > 1;
    RunTwice(s, t, t, Go, Go);
  }

  lemma RunTwice(s: State, t: nat, u: nat, a: Action, b: Action)
    requires Step(s, t, a).Some?
    ensures Run(s, [Turn(t, a), Turn(u, b)]) == Step(Step(s, t, a).value, u, b)
  {
    var two := [Turn(t, a), Turn(u, b)];
    assert two[..1] == [Turn(t, a)] && [Turn(t, a)][..0] == [];
    assert Run(s, []) == Some(s);
    assert Run(s, [Turn(t, a)]) == Step(s, t, a);
  }
}
