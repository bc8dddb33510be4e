/**
 When IcaStackClose drains the device, exactly: where the condition of Environment fails, a run
 allowed there frees the stack with a module left, for every configuration in use.
 */
module Undrained {
  import opened IcaTypes
  import opened Control
  import Drain
  import opened Environment
  import opened Lifecycle
  import opened Schedules
  import opened StackMachine

  // ---------- an unload that a PUSH slips past ----------

  /** Thread t closes and has emptied the device; the event it sleeps on is signalled. */
  predicate CloserSleeps(p: Point, t: nat) {
    && t < |p.threads| && t != p.t
    && p.sh.hUnload.Some? && Sleeps(p.threads[t].ctl, p.sh.hUnload.value, CLOSING)
    && p.sh.hUnload.value in p.sh.signalled
    && p.sh.unloading && p.sh.closing && p.sh.refCount == 1 && !p.sh.freed
  }

  /** From there on, what is on the device stays. */
  lemma CloserFrees(env: Env, n: nat, p: Point, t: nat)
    requires Leads(env, Initial(n, false), p) && CloserSleeps(p, t) && p.sh.owner.None? && p.sh.modules != []
    ensures !Drains(env)
  {
    Switched(env, Initial(n, false), p, t);
    Wakes(env, Initial(n, false), p.From(t), p.sh.hUnload.value, CLOSING);
    CloserEnds(env, n, Woken(p.From(t), CLOSING));
  }

  lemma CloserEnds(env: Env, n: nat, p: Point)
    requires Leads(env, Initial(n, false), p) && p.th.ctl == CLOSING && p.sh.refCount == 0 && !p.sh.freed
    requires p.sh.modules != []
    ensures !Drains(env)
  {
    var q := p.Goes(Cons(CloseWait(AtHead, 0, p.sh.acquired), Nil));
    GoesOn(env, Initial(n, false), p, q.th.ctl);
    LastTest(q);
    NotDrained(env, n, q);
  }

  lemma LastTest(p: Point)
    requires p.Fits() && p.th.ctl.Cons? && p.th.ctl.top.CloseWait? && p.th.ctl.top.phase.AtHead?
    requires p.sh.refCount == 0 && !p.sh.freed
    ensures Frees(p.AsState(), p.t, Go)
  {
  }

  lemma NotDrained(env: Env, n: nat, p: Point)
    requires Leads(env, Initial(n, false), p) && Frees(p.AsState(), p.t, Go) && p.sh.modules != []
    ensures !Drains(env)
  {
    var schedule :| Run(Initial(n, false), schedule) == Some(p.AsState())
      && ScheduleAllowed(env, Initial(n, false), schedule) && PastOf(n, schedule) == p.past;
  }

  /** Nobody but the thread of p is inside, and its one reference is that of a PUSH in flight. */
  predicate OnlyPushing(p: Point, m: Module, rest: Ctl) {
    && p.Fits() && p.th.ctl == Flight(p.sh.cd, Push(m), rest)
    && (p.sh.cd <==> p.t in p.past.forwarded) && p.past.forwarded <= {p.t}
    && (forall u :: 0 <= u < |p.threads| && u != p.t ==> p.threads[u].ctl.Nil?)
    && p.sh.owner.None? && p.sh.refCount == 1 && !p.sh.hasCallback
    && !p.sh.unloading && !p.sh.closeCalled && !p.sh.freed
  }

  /** Thread t closes the stack while a PUSH is in flight, and only then does the device serve it. */
  lemma Overtaken(env: Env, s0: State, p: Point, m: Module, rest: Ctl, t: nat) returns (q: Point)
    requires Leads(env, s0, p) && OnlyPushing(p, m, rest) && t < |p.threads| && t != p.t
    ensures Leads(env, s0, q) && CloserSleeps(q, t) && q.t == p.t && q.Ready() && q.sh.modules == [m]
    ensures q.th == Thread(rest, if p.sh.cd then ClosePending else StatusSuccess, p.th.reply) && q.sh.cd == p.sh.cd
  {
    q := Overtakes(env, s0, p, m, rest, t);
    Switched(env, s0, q, p.t);
    q := q.From(p.t);
    assert q.th == p.th;
    Receives(env, s0, q, Push(m), rest, StatusSuccess, p.th.reply);
    q := Received(q, Push(m), rest, StatusSuccess, p.th.reply);
  }

  lemma Overtakes(env: Env, s0: State, p: Point, m: Module, rest: Ctl, t: nat) returns (q: Point)
    requires Leads(env, s0, p) && OnlyPushing(p, m, rest) && t < |p.threads| && t != p.t
    ensures Leads(env, s0, q) && q.t == t && q.threads == p.AsState().threads && q.past == p.past
    ensures Sleeps(q.th.ctl, p.sh.nextEvent, CLOSING)
    ensures q.sh == p.sh.(refCount := 2, hUnload := Some(p.sh.nextEvent), nextEvent := p.sh.nextEvent + 1,
                unloading := true,
                          closing := true, closeCalled := true, modules := [],
                          acquired := q.sh.acquired, signalled := q.sh.signalled)
  {
    Switched(env, s0, p, t);
    var a := p.From(t);
    StartsClose(env, s0, a);
    q := Unloads(env, s0, a.Goes(Cons(PopStack, CLOSING)).(
                   sh := a.sh.(owner := Some(t), closing := true, closeCalled := true)), CLOSING);
  }

  // ---------- a PUSH from outside ----------

  /** IcaStackIoControl with a PUSH, overtaken by IcaStackClose. */
  lemma OutsidePushStays(env: Env)
    requires env.pushes
    ensures !Drains(env)
  {
    var s0 := Initial(2, false);
    Starts(env, 2, 0);
    var p := SendsOutside(env, s0, Point(s0.threads, 0, s0.sh, NewThread(Nil), Past(2, {})), Push(Pd("pd")));
    var q := Overtaken(env, s0, p, Pd("pd"), LEAVE, 1);
    Leaves(env, s0, q);
    CloserFrees(env, 2, q.Goes(Nil).(sh := q.sh.(owner := None)), 1);
  }

  // ---------- a connection driver ----------

  lemma IssuesFirst(env: Env, s0: State, p: Point, cfg: Config) returns (q: Point)
    requires Leads(env, s0, p) && p.th.ctl == FirstPush(cfg, CONNECTING) && !p.sh.hasCallback
             && p.t !in p.past.forwarded
    ensures Leads(env, s0, q) && q.threads == p.threads && q.t == p.t && q.sh == OpenWindow(p.sh)
    ensures var list := LoadList(cfg);
            q.th == p.th.(ctl := Flight(p.sh.cd, Push(list[0]), Cons(Load(AfterPush(list[1..])), CONNECTING)))
    ensures q.past == p.past.(forwarded := if p.sh.cd then p.past.forwarded + {p.t} else p.past.forwarded)
  {
    var list := LoadList(cfg);
    var after := Cons(Load(AfterPush(list[1..])), CONNECTING);
    GoesOn(env, s0, p, Cons(Io(IoControl(Push(list[0]))), after));
    q := SendsFrom(env, s0, p.Goes(Cons(Io(IoControl(Push(list[0]))), after)), Push(list[0]), after);
  }

  /** The first PUSH of a load, in the device. */
  lemma LoadInFlight(env: Env, s0: State, p: Point, cfg: Config) returns (q: Point)
    requires Leads(env, s0, p) && p.th.ctl.Nil? && p.sh.owner.None? && !p.sh.closeCalled && !p.sh.hasCallback
    requires cfg in env.configs && (env.overlap || Alone(p.AsState(), p.past.loader, p.t)) && p.t !in p.past.forwarded
    ensures Leads(env, s0, q) && q.threads == p.threads && q.t == p.t
    ensures var list := LoadList(cfg);
            q.th == p.th.(ctl := Flight(q.sh.cd, Push(list[0]), Cons(Load(AfterPush(list[1..])), CONNECTING)))
    ensures q.sh == OpenWindow(WithCd(p.sh.(owner := Some(p.t)), cfg))
    ensures q.past == Past(p.t, if q.sh.cd then p.past.forwarded + {p.t} else p.past.forwarded)
  {
    var a := StartsLoad(env, s0, p, cfg);
    q := IssuesFirst(env, s0, a, cfg);
  }

  lemma SendsFrom(env: Env, s0: State, p: Point, code: Ioctl, rest: Ctl) returns (q: Point)
    requires Leads(env, s0, p) && p.th.ctl == Cons(Io(IoControl(code)), rest) && !p.sh.hasCallback
             && p.t !in p.past.forwarded
    ensures Leads(env, s0, q) && q.threads == p.threads && q.t == p.t
    ensures q.th == p.th.(ctl := Flight(p.sh.cd, code, rest)) && q.sh == OpenWindow(p.sh)
    ensures q.past == p.past.(forwarded := if p.sh.cd then p.past.forwarded + {p.t} else p.past.forwarded)
  {
    Sends(env, s0, p, code, rest);
    q := Sent(p, code, rest);
  }

  lemma DecidesToUnload(env: Env, s0: State, p: Point, list: seq<Module>)
    requires Leads(env, s0, p) && !p.th.status.Ok() && p.th.ctl == Cons(Load(AfterPush(list)), CONNECTING)
    ensures Leads(env, s0, p.Goes(Cons(PopStack, Cons(Call(Return(p.th.status)), CONNECTING))))
  {
    assert DecideLoad(p.sh.closing, p.th.status, AfterPush(list)) == LoadUnload(p.th.status);
    GoesOn(env, s0, p, Cons(PopStack, Cons(Call(Return(p.th.status)), CONNECTING)));
  }

  lemma Returns(env: Env, s0: State, p: Point, st: Status, rest: Ctl)
    requires Leads(env, s0, p) && p.th.ctl == Cons(Call(Return(st)), rest)
    ensures Leads(env, s0, p.(th := Thread(rest, st, p.th.reply)))
  {
    StepsTo(env, s0, p, Go, p.sh, Thread(rest, st, p.th.reply));
  }

  /** A load whose PUSH failed while another thread unloads leaves the unload to it. */
  lemma GivesUp(env: Env, s0: State, p: Point, list: seq<Module>)
    requires Leads(env, s0, p) && p.sh.unloading && !p.th.status.Ok()
    requires p.th.ctl == Cons(Load(AfterPush(list)), CONNECTING)
    ensures Leads(env, s0, p.Goes(CONNECTING))
  {
    var ending := Cons(Call(Return(p.th.status)), CONNECTING);
    DecidesToUnload(env, s0, p, list);
    SkipsUnload(env, s0, p.Goes(Cons(PopStack, ending)), ending);
    Returns(env, s0, p.Goes(ending), p.th.status, CONNECTING);
  }

  lemma ConnectsNot(env: Env, s0: State, p: Point)
    requires Leads(env, s0, p) && p.th.ctl == CONNECTING && !p.th.status.Ok()
    ensures Leads(env, s0, p.Goes(Nil).(sh := p.sh.(owner := None)))
  {
    assert DecideCall(p.th.status, IfLoadedConsole) == CallDone(p.th.status);
    GoesOn(env, s0, p, LEAVE);
    Leaves(env, s0, p.Goes(LEAVE));
  }

  /** With a CD the PUSH in flight is reported as CLOSE_PENDING although the device has the module,
      and the loader leaves the unload to the closer, which has popped already. */
  lemma LoadThroughCdStays(env: Env, cfg: Config)
    requires cfg in env.configs && !cfg.cdNone
    ensures !Drains(env)
  {
    var s0 := Initial(2, false);
    Starts(env, 2, 0);
    var p := LoadInFlight(env, s0, Point(s0.threads, 0, s0.sh, NewThread(Nil), Past(2, {})), cfg);
    var rest := LoadList(cfg)[1..];
    var q := Overtaken(env, s0, p, LoadList(cfg)[0], Cons(Load(AfterPush(rest)), CONNECTING), 1);
    GivesUp(env, s0, q, rest);
    ConnectsNot(env, s0, q.Goes(CONNECTING));
    CloserFrees(env, 2, q.Goes(Nil).(sh := q.sh.(owner := None)), 1);
  }

  // ---------- two loads ----------

  const FAILED := OtherError(0)
  const FAILING := Cons(Call(Return(FAILED)), CONNECTING)

  /** A load whose first PUSH fails while another one holds a reference: it unloads, and sleeps. */
  lemma FailsAndUnloads(env: Env, s0: State, p: Point, m: Module, list: seq<Module>) returns (q: Point)
    requires Leads(env, s0, p) && p.th.ctl == Flight(false, Push(m), Cons(Load(AfterPush(list)), CONNECTING))
    requires !p.sh.cd && !p.sh.hasCallback && p.sh.owner.None? && p.sh.refCount > 1 && !p.sh.unloading
    requires p.t !in p.past.forwarded
    ensures Leads(env, s0, q) && Sleeps(q.th.ctl, p.sh.nextEvent, FAILING)
    ensures q.threads == p.threads && q.t == p.t && q.past == p.past
    ensures q.sh == p.sh.(hUnload := Some(p.sh.nextEvent), nextEvent := p.sh.nextEvent + 1, unloading := true,
                modules := [],
                          acquired := q.sh.acquired, signalled := q.sh.signalled)
  {
    var after := Cons(Load(AfterPush(list)), CONNECTING);
    Receives(env, s0, p, Push(m), after, FAILED, p.th.reply);
    var a := Received(p, Push(m), after, FAILED, p.th.reply);
    assert a.past == p.past;
    DecidesToUnload(env, s0, a, list);
    q := Unloads(env, s0, a.Goes(Cons(PopStack, FAILING)), FAILING);
  }

  lemma Connects(env: Env, s0: State, p: Point) returns (q: Point)
    requires Leads(env, s0, p) && p.Ready() && p.th.ctl == CONNECTING && p.th.status.Ok()
    ensures Leads(env, s0, q) && q.th.ctl.Nil? && Later(p.(sh := p.sh.(owner := None)), q)
            && q.sh.modules == p.sh.modules
  {
    assert DecideCall(p.th.status, IfLoadedConsole) == CallIssueLast(ConsoleConnect);
    GoesOn(env, s0, p, Cons(Io(IoControl(ConsoleConnect)), LEAVE));
    var a := Requests(env, s0, p.Goes(Cons(Io(IoControl(ConsoleConnect)), LEAVE)), ConsoleConnect, LEAVE, StatusSuccess,
                      p.th.reply);
    Leaves(env, s0, a);
    q := a.Goes(Nil).(sh := a.sh.(owner := None));
  }

  /** The other load goes on to its end, as the unloader sleeps on. */
  lemma LoadCompletes(env: Env, s0: State, p: Point, m: Module, list: seq<Module>) returns (q: Point)
    requires Leads(env, s0, p) && p.th.ctl == Flight(false, Push(m), Cons(Load(AfterPush(list)), CONNECTING))
    requires !p.sh.cd && !p.sh.hasCallback && p.sh.owner.None? && p.sh.refCount == 2 && p.sh.hUnload.Some?
             && !p.sh.closing
    requires p.t !in p.past.forwarded
    ensures Leads(env, s0, q) && q.th.ctl.Nil? && q.threads == p.threads && q.t == p.t && q.past == p.past
    ensures q.sh == p.sh.(refCount := 1, loaded := true, modules := p.sh.modules + [m] + list,
                          acquired := q.sh.acquired, signalled := q.sh.signalled)
    ensures p.sh.hUnload.value in q.sh.signalled
  {
    var after := Cons(Load(AfterPush(list)), CONNECTING);
    Receives(env, s0, p, Push(m), after, StatusSuccess, p.th.reply);
    var a := Received(p, Push(m), after, StatusSuccess, p.th.reply);
    assert a.past == p.past;
    var b := PushesRest(env, s0, a, list, CONNECTING);
    q := Connects(env, s0, b);
  }

  /** Asleep in the wait loop of IcaStackClose. */
  predicate SleepsClosing(c: Ctl, e: nat) {
    c.Cons? && c.top.CloseWait? && c.top.phase == Asleep(e) && c.rest.Nil?
  }

  lemma CloseFallsAsleep(env: Env, s0: State, p: Point) returns (q: Point)
    requires Leads(env, s0, p) && p.th.ctl == CLOSING && p.sh.refCount > 0
    ensures Leads(env, s0, q) && SleepsClosing(q.th.ctl, p.sh.nextEvent)
    ensures q == Point(p.threads, p.t, SleepClose(p.sh), q.th, p.past)
  {
    var a := p.Goes(Cons(CloseWait(AtHead, 0, p.sh.acquired), Nil));
    GoesOn(env, s0, p, a.th.ctl);
    q := p.Goes(Cons(CloseWait(Asleep(p.sh.nextEvent), 1, p.sh.acquired), Nil)).(sh := SleepClose(p.sh));
    StepsTo(env, s0, a, Go, q.sh, q.th);
  }

  /** IcaStackClose while another thread unloads: no POP of its own, only the wait. */
  lemma ClosesBehind(env: Env, s0: State, p: Point) returns (q: Point)
    requires Leads(env, s0, p) && p.th.ctl.Nil? && p.sh.owner.None? && p.sh.unloading && p.sh.refCount > 0
    requires !p.sh.closeCalled && forall u :: 0 <= u < |p.threads| && u != p.t ==> !AtEntry(p.threads[u].ctl)
    ensures Leads(env, s0, q) && SleepsClosing(q.th.ctl, p.sh.nextEvent)
    ensures q == Point(p.threads, p.t, q.sh, q.th, p.past)
    ensures q.sh == p.sh.(closing := true, closeCalled := true, hClose := Some(p.sh.nextEvent),
                nextEvent := p.sh.nextEvent + 1)
  {
    StartsClose(env, s0, p);
    var a := p.Goes(Cons(PopStack, CLOSING)).(sh := p.sh.(owner := Some(p.t), closing := true, closeCalled := true));
    SkipsUnload(env, s0, a, CLOSING);
    q := CloseFallsAsleep(env, s0, a.Goes(CLOSING));
  }

  /** The unloader ends its unload, which signals the closer, and its call. */
  lemma UnloadEnds(env: Env, s0: State, p: Point, e: nat) returns (q: Point)
    requires Leads(env, s0, p) && Sleeps(p.th.ctl, e, FAILING) && e in p.sh.signalled
    requires p.sh.owner.None? && p.sh.refCount == 1 && p.sh.hClose.Some? && !p.sh.freed
    ensures Leads(env, s0, q) && q.threads == p.threads && q.t == p.t && q.sh.owner.None? && q.sh.refCount == 0
    ensures q.sh.modules == p.sh.modules && q.sh.hClose == p.sh.hClose && p.sh.hClose.value in q.sh.signalled
            && !q.sh.freed
  {
    Wakes(env, s0, p, e, FAILING);
    var a := Woken(p, FAILING);
    Returns(env, s0, a, FAILED, CONNECTING);
    var b := a.(th := Thread(CONNECTING, FAILED, a.th.reply));
    ConnectsNot(env, s0, b);
    q := b.Goes(Nil).(sh := b.sh.(owner := None));
  }

  lemma CloserStirs(env: Env, s0: State, p: Point, e: nat)
    requires Leads(env, s0, p) && SleepsClosing(p.th.ctl, e) && e in p.sh.signalled
    ensures Leads(env, s0, p.Goes(Cons(CloseWait(Awake(e), p.th.ctl.top.rounds, p.th.ctl.top.since), Nil)))
  {
    GoesOn(env, s0, p, Cons(CloseWait(Awake(e), p.th.ctl.top.rounds, p.th.ctl.top.since), Nil));
  }

  lemma CloserLocks(env: Env, s0: State, p: Point, e: nat, rounds: nat, since: nat)
    requires Leads(env, s0, p) && p.th.ctl == Cons(CloseWait(Awake(e), rounds, since), Nil) && p.sh.owner.None?
    ensures Leads(env, s0,
                p.Goes(Cons(CloseWait(AtHead, rounds, since), Nil)).(sh := p.sh.(owner := Some(p.t), hClose := None)))
  {
    StepsTo(env, s0, p, Go, p.sh.(owner := Some(p.t), hClose := None),
        p.th.(ctl := Cons(CloseWait(AtHead, rounds, since), Nil)));
  }

  lemma CloserWakes(env: Env, n: nat, p: Point, e: nat)
    requires Leads(env, Initial(n, false), p) && SleepsClosing(p.th.ctl, e) && e in p.sh.signalled
    requires p.sh.owner.None? && p.sh.refCount == 0 && !p.sh.freed && p.sh.modules != []
    ensures !Drains(env)
  {
    var s0, i := Initial(n, false), p.th.ctl.top;
    var a := p.Goes(Cons(CloseWait(Awake(e), i.rounds, i.since), Nil));
    CloserStirs(env, s0, p, e);
    CloserLocks(env, s0, a, e, i.rounds, i.since);
    var b := a.Goes(Cons(CloseWait(AtHead, i.rounds, i.since), Nil)).(sh := p.sh.(owner := Some(p.t), hClose := None));
    LastTest(b);
    NotDrained(env, n, b);
  }

  /** Two loads are under way; the second fails and unloads, the first slips past and completes. */
  lemma SlipsPast(env: Env, cfg: Config) returns (p: Point, e: nat)
    requires cfg in env.configs && cfg.cdNone && env.overlap
    ensures Leads(env, Initial(3, false), p) && p.t == 0 && |p.threads| == 3 && p.th.ctl.Nil? && p.threads[2].ctl.Nil?
    ensures Sleeps(p.threads[1].ctl, e, FAILING) && e in p.sh.signalled && p.sh.unloading
    ensures p.sh.owner.None? && p.sh.refCount == 1 && !p.sh.closeCalled && !p.sh.freed && p.sh.modules == LoadList(cfg)
  {
    var s0, list := Initial(3, false), LoadList(cfg);
    Starts(env, 3, 0);
    var a := LoadInFlight(env, s0, Point(s0.threads, 0, s0.sh, NewThread(Nil), Past(3, {})), cfg);
    Switched(env, s0, a, 1);
    var b := LoadInFlight(env, s0, a.From(1), cfg);
    e := b.sh.nextEvent;
    var c := FailsAndUnloads(env, s0, b, list[0], list[1..]);
    Switched(env, s0, c, 0);
    HeadFirst([], list);
    p := LoadCompletes(env, s0, c.From(0), list[0], list[1..]);
  }

  /** Thread 2 closes meanwhile; seen from the unloader. */
  lemma ClosesMeanwhile(env: Env, p: Point, e: nat) returns (q: Point)
    requires Leads(env, Initial(3, false), p) && p.t == 0 && |p.threads| == 3 && p.th.ctl.Nil? && p.threads[2].ctl.Nil?
    requires Sleeps(p.threads[1].ctl, e, FAILING) && e in p.sh.signalled && p.sh.unloading
    requires p.sh.owner.None? && p.sh.refCount == 1 && !p.sh.closeCalled && !p.sh.freed
    ensures Leads(env, Initial(3, false), q) && q.t == 1 && |q.threads| == 3 && Sleeps(q.th.ctl, e, FAILING)
    ensures e in q.sh.signalled && q.sh.owner.None? && q.sh.refCount == 1 && !q.sh.freed && q.sh.modules == p.sh.modules
    ensures q.sh.hClose.Some? && SleepsClosing(q.threads[2].ctl, q.sh.hClose.value)
  {
    var s0 := Initial(3, false);
    Switched(env, s0, p, 2);
    NobodyEnters(p.From(2).threads, e);
    var a := ClosesBehind(env, s0, p.From(2));
    Switched(env, s0, a, 1);
    q := a.From(1);
    assert q.threads[2] == a.th;
  }

  lemma NobodyEnters(threads: seq<Thread>, e: nat)
    requires |threads| == 3 && threads[0].ctl.Nil? && Sleeps(threads[1].ctl, e, FAILING)
    ensures forall u :: 0 <= u < |threads| && u != 2 ==> !AtEntry(threads[u].ctl)
  {
  }

  /** IcaStackClose then relies on an unload that is over. */
  lemma ReliesOnIt(env: Env, p: Point, e: nat)
    requires Leads(env, Initial(3, false), p) && p.t == 1 && |p.threads| == 3 && Sleeps(p.th.ctl, e, FAILING)
    requires e in p.sh.signalled && p.sh.owner.None? && p.sh.refCount == 1 && !p.sh.freed && p.sh.modules != []
    requires p.sh.hClose.Some? && SleepsClosing(p.threads[2].ctl, p.sh.hClose.value)
    ensures !Drains(env)
  {
    var a := UnloadEnds(env, Initial(3, false), p, e);
    Switched(env, Initial(3, false), a, 2);
    CloserWakes(env, 3, a.From(2), p.sh.hClose.value);
  }

  lemma OverlapStays(env: Env, cfg: Config)
    requires cfg in env.configs && cfg.cdNone && env.overlap
    ensures !Drains(env)
  {
    var p, e := SlipsPast(env, cfg);
    var q := ClosesMeanwhile(env, p, e);
    ReliesOnIt(env, q, e);
  }

  // ---------- IcaStackConnectionAccept ----------

  const SLOT := Slot(1, "pd")
  const PD := Pd("pd")

  /** The client keeps the WD and asks for one more PD. */
  function AsksForPd(cfg: Config): Reply {
    Reply(true, StackConfig(NoSlots(SD_CLASS_MAXIMUM)[0 := SLOT], cfg.wd))
  }

  function OneOf(acc: AcceptItem): Ctl {
    Cons(Accept(acc), Nil)
  }

  function Opening(cfg: Config): Ctl {
    Cons(Call(OpenEndpointBy(OpenEndpoint)), OneOf(AcceptOpened(cfg, true)))
  }

  lemma AcceptGoes(env: Env, s0: State, p: Point, acc: AcceptItem, next: AcceptItem)
    requires Leads(env, s0, p) && p.th.ctl == OneOf(acc)
             && DecideAccept(p.th.status, p.th.reply, acc) == AcceptGoto(next)
    ensures Leads(env, s0, p.Goes(OneOf(next)))
  {
    GoesOn(env, s0, p, OneOf(next));
  }

  lemma AcceptRequests(env: Env, s0: State, p: Point, acc: AcceptItem, code: Ioctl, next: AcceptItem, raw: Status,
      reply: Reply)
    returns (q: Point)
    requires Leads(env, s0, p) && p.Ready() && p.th.ctl == OneOf(acc)
    requires DecideAccept(p.th.status, p.th.reply, acc) == AcceptIssue(code, next)
    ensures Leads(env, s0, q) && Later(p, q)
    ensures var st := DeviceStatus(code, p.sh.modules, raw);
            q.sh.modules == DeviceModules(code, p.sh.modules, st)
                && q.th == Thread(OneOf(next), Reported(p.sh, code, st), reply)
  {
    GoesOn(env, s0, p, Cons(Io(IoControl(code)), OneOf(next)));
    q := Requests(env, s0, p.Goes(Cons(Io(IoControl(code)), OneOf(next))), code, OneOf(next), raw, reply);
  }

  lemma EntersAccept(env: Env, s0: State, p: Point, cfg: Config)
    requires Leads(env, s0, p) && p.th.ctl.Nil? && p.sh.owner.None? && !p.sh.closeCalled && !p.sh.loaded
    requires cfg in env.configs && env.accepts && (env.overlap || Alone(p.AsState(), p.past.loader, p.t))
    ensures Leads(env, s0,
                Point(p.threads, p.t, p.sh.(owner := Some(p.t)), p.th.(ctl := OneOf(AcceptBegin(cfg, true, false))),
                                 p.past.(loader := p.t)))
  {
    var api := ConnectionAccept(cfg, true, true);
    Called(env, s0, p, api);
    var a := p.Goes(Cons(Enter(api), Nil)).(past := p.past.(loader := p.t));
    StepsTo(env, s0, a, Go, p.sh.(owner := Some(p.t)), p.th.(ctl := OneOf(AcceptBegin(cfg, true, false))));
  }

  lemma AcceptBegins(env: Env, s0: State, p: Point, cfg: Config)
    requires Leads(env, s0, p) && p.th.ctl == OneOf(AcceptBegin(cfg, true, false))
    ensures Leads(env, s0, p.Goes(Cons(PushStack(cfg), Opening(cfg))))
  {
    var begin := AcceptBegin(cfg, true, false);
    assert DecideAccept(p.th.status, p.th.reply, begin) == AcceptLoad(cfg, AcceptOpened(cfg, true));
    GoesOn(env, s0, p, Cons(PushStack(cfg), Opening(cfg)));
  }

  /** All of a load that nothing disturbs. */
  lemma LoadsAll(env: Env, s0: State, p: Point, list: seq<Module>, rest: Ctl) returns (q: Point)
    requires Leads(env, s0, p) && p.Ready() && !p.sh.closing && list != []
    requires p.th.ctl == Cons(Load(PushNext(list[0], list[1..])), rest)
    ensures Leads(env, s0, q) && Later(p.(sh := p.sh.(loaded := true)), q)
    ensures q.sh.modules == p.sh.modules + list && q.th.ctl == rest && q.th.status == StatusSuccess
  {
    var a := Pushed(env, s0, p, list[0], list[1..], rest);
    q := PushesRest(env, s0, a, list[1..], rest);
    HeadFirst(p.sh.modules, list);
  }

  /** Accept loads the stack ... */
  lemma AcceptLoads(env: Env, s0: State, p: Point, cfg: Config) returns (q: Point)
    requires Leads(env, s0, p) && p.Ready() && p.th.ctl == OneOf(AcceptBegin(cfg, true, false)) && cfg.cdNone
             && !p.sh.closing
    ensures Leads(env, s0, q) && Later(p.(sh := p.sh.(loaded := true)), q)
    ensures q.sh.modules == p.sh.modules + LoadList(cfg) && q.th.ctl == Opening(cfg) && q.th.status == StatusSuccess
  {
    AcceptBegins(env, s0, p, cfg);
    var a := OpensCd(env, s0, p.Goes(Cons(PushStack(cfg), Opening(cfg))), cfg, Opening(cfg));
    q := LoadsAll(env, s0, a, LoadList(cfg), Opening(cfg));
  }

  /** ... opens the endpoint ... */
  lemma OpensEndpoint(env: Env, s0: State, p: Point, cfg: Config) returns (q: Point)
    requires Leads(env, s0, p) && p.Ready() && p.th.ctl == Opening(cfg) && p.th.status.Ok() && !p.sh.closing
    ensures Leads(env, s0, q) && Later(p, q) && q.sh.modules == p.sh.modules
    ensures q.th.ctl == OneOf(AcceptOpened(cfg, true)) && q.th.status == StatusSuccess
  {
    var done := Cons(Call(EndpointDone), OneOf(AcceptOpened(cfg, true)));
    assert DecideCall(p.th.status, OpenEndpointBy(OpenEndpoint)) == CallIssue(OpenEndpoint, EndpointDone);
    GoesOn(env, s0, p, Cons(Io(IoControl(OpenEndpoint)), done));
    var a := Requests(env, s0, p.Goes(Cons(Io(IoControl(OpenEndpoint)), done)), OpenEndpoint, done, StatusSuccess,
        p.th.reply);
    q := a.(th := Thread(OneOf(AcceptOpened(cfg, true)), StatusSuccess, a.th.reply));
    StepsTo(env, s0, a, Go, q.sh, q.th);
  }

  /** ... sets the state, and gets the client's answer. */
  lemma Queries(env: Env, s0: State, p: Point, cfg: Config) returns (q: Point)
    requires Leads(env, s0, p) && p.Ready() && !p.sh.closing
    requires p.th.ctl == OneOf(AcceptOpened(cfg, true)) && p.th.status == StatusSuccess
    ensures Leads(env, s0, q) && Later(p, q) && q.sh.modules == p.sh.modules
    ensures q.th == Thread(OneOf(AcceptReply(cfg, true)), StatusSuccess, AsksForPd(cfg))
  {
    AcceptGoes(env, s0, p, AcceptOpened(cfg, true), AcceptSetup(cfg, true));
    var a := AcceptRequests(env, s0, p.Goes(OneOf(AcceptSetup(cfg, true))), AcceptSetup(cfg, true), SetState,
                            AcceptQuery(cfg, true), StatusSuccess, p.th.reply);
    q := AcceptRequests(env, s0, a, AcceptQuery(cfg, true), ConnectionQuery, AcceptReply(cfg, true), StatusSuccess,
                        AsksForPd(cfg));
  }

  lemma AsksForOne(cfg: Config)
    ensures DecideReply(StatusSuccess, AsksForPd(cfg), cfg, true)
         == AcceptIssue(Pop, AcceptPopped(cfg, true, [SLOT], false))
  {
    var slots := NoSlots(SD_CLASS_MAXIMUM)[0 := SLOT];
    assert slots[1..][0].sdClass == SD_NONE;
    assert Used(slots) == [SLOT];
  }

  /** The WD comes off, and the PUSH of the PD is in the device. */
  lemma PushesPd(env: Env, s0: State, p: Point, cfg: Config) returns (q: Point)
    requires Leads(env, s0, p) && p.Ready() && !p.sh.cd && p.sh.modules != []
    requires p.th == Thread(OneOf(AcceptReply(cfg, true)), StatusSuccess, AsksForPd(cfg))
    ensures Leads(env, s0, q) && q.threads == p.threads && q.t == p.t && q.past == p.past
    ensures q.th.ctl == Flight(false, Push(PD), OneOf(AcceptPdPushed(cfg, true, [], false)))
    ensures q.sh == p.sh.(owner := None, refCount := p.sh.refCount + 1, modules := q.sh.modules,
                acquired := q.sh.acquired,
                          signalled := q.sh.signalled)
  {
    AsksForOne(cfg);
    var a := AcceptRequests(env, s0, p, AcceptReply(cfg, true), Pop, AcceptPopped(cfg, true, [SLOT], false),
        StatusSuccess,
                            p.th.reply);
    AcceptGoes(env, s0, a, AcceptPopped(cfg, true, [SLOT], false), AcceptPds(cfg, true, [SLOT], false));
    q := IssuesPd(env, s0, a.Goes(OneOf(AcceptPds(cfg, true, [SLOT], false))), cfg);
  }

  lemma IssuesPd(env: Env, s0: State, p: Point, cfg: Config) returns (q: Point)
    requires Leads(env, s0, p) && p.Ready() && !p.sh.cd && p.th.ctl == OneOf(AcceptPds(cfg, true, [SLOT], false))
    ensures Leads(env, s0, q) && q.threads == p.threads && q.t == p.t && q.past == p.past && q.sh == OpenWindow(p.sh)
    ensures q.th.ctl == Flight(false, Push(PD), OneOf(AcceptPdPushed(cfg, true, [], false)))
  {
    var rest := OneOf(AcceptPdPushed(cfg, true, [], false));
    assert [SLOT][1..] == [];
    GoesOn(env, s0, p, Cons(Io(IoControl(Push(PD))), rest));
    q := SendsFrom(env, s0, p.Goes(Cons(Io(IoControl(Push(PD))), rest)), Push(PD), rest);
  }

  /** The stack closes meanwhile; Accept pushes on, fails with the WD, and leaves the unload to the
      closer. */
  lemma AcceptFails(env: Env, s0: State, p: Point, cfg: Config) returns (q: Point)
    requires Leads(env, s0, p) && p.Ready() && !p.sh.cd && p.sh.unloading && p.th.status == StatusSuccess
    requires p.th.ctl == OneOf(AcceptPdPushed(cfg, true, [], false))
    ensures Leads(env, s0, q) && Later(p.(sh := p.sh.(owner := None)), q) && q.sh.modules == p.sh.modules
            && q.th.ctl.Nil?
  {
    AcceptGoes(env, s0, p, AcceptPdPushed(cfg, true, [], false), AcceptPds(cfg, true, [], false));
    var a := AcceptRequests(env, s0, p.Goes(OneOf(AcceptPds(cfg, true, [], false))), AcceptPds(cfg, true, [], false),
                            Push(Wd(cfg.wd)), AcceptWdPushed(cfg, true, false), FAILED, p.th.reply);
    q := AcceptGivesUp(env, s0, a, cfg);
  }

  lemma AcceptGivesUp(env: Env, s0: State, p: Point, cfg: Config) returns (q: Point)
    requires Leads(env, s0, p) && p.sh.unloading && p.th.ctl == OneOf(AcceptWdPushed(cfg, true, false))
             && p.th.status == FAILED
    ensures Leads(env, s0, q) && q == p.Goes(Nil).(sh := p.sh.(owner := None))
  {
    var c := Cons(PopStack, Cons(Call(Return(FAILED)), LEAVE));
    assert DecideAccept(FAILED, p.th.reply, AcceptWdPushed(cfg, true, false)) == AcceptMove.Refused(FAILED);
    GoesOn(env, s0, p, c);
    SkipsUnload(env, s0, p.Goes(c), c.rest);
    Returns(env, s0, p.Goes(c.rest), FAILED, LEAVE);
    Leaves(env, s0, p.Goes(LEAVE));
    q := p.Goes(Nil).(sh := p.sh.(owner := None));
  }

  lemma AcceptInFlight(env: Env, s0: State, p: Point, cfg: Config) returns (q: Point)
    requires Leads(env, s0, p) && p.th.ctl.Nil? && p.sh.owner.None? && !p.sh.closeCalled && !p.sh.loaded
             && !p.sh.closing
    requires !p.sh.cd && !p.sh.hasCallback && p.t !in p.past.forwarded
    requires cfg in env.configs && cfg.cdNone && env.accepts && (env.overlap || Alone(p.AsState(), p.past.loader, p.t))
    ensures Leads(env, s0, q) && q.threads == p.threads && q.t == p.t && q.past == p.past.(loader := p.t)
    ensures q.th.ctl == Flight(false, Push(PD), OneOf(AcceptPdPushed(cfg, true, [], false)))
    ensures q.sh == p.sh.(refCount := p.sh.refCount + 1, loaded := true, modules := q.sh.modules,
                acquired := q.sh.acquired,
                          signalled := q.sh.signalled)
  {
    EntersAccept(env, s0, p, cfg);
    q := Point(p.threads, p.t, p.sh.(owner := Some(p.t)), p.th.(ctl := OneOf(AcceptBegin(cfg, true, false))),
               p.past.(loader := p.t));
    q := AcceptLoads(env, s0, q, cfg);
    q := OpensEndpoint(env, s0, q, cfg);
    q := Queries(env, s0, q, cfg);
    q := PushesPd(env, s0, q, cfg);
  }

  /** The query loop of Accept does not test fClosing, so its PUSH is not taken back. */
  lemma AcceptStays(env: Env, cfg: Config)
    requires cfg in env.configs && cfg.cdNone && env.accepts
    ensures !Drains(env)
  {
    var s0 := Initial(2, false);
    Starts(env, 2, 0);
    var p := AcceptInFlight(env, s0, Point(s0.threads, 0, s0.sh, NewThread(Nil), Past(2, {})), cfg);
    var q := Overtaken(env, s0, p, PD, OneOf(AcceptPdPushed(cfg, true, [], false)), 1);
    q := AcceptFails(env, s0, q, cfg);
    CloserFrees(env, 2, q, 1);
  }

  // ---------- the condition ----------

  /** IcaStackClose drains the device in every allowed run exactly when nobody pushes from outside
      and, if there is anything to load, no configuration has a CD, nobody accepts and loading calls
      do not overlap. */
  lemma DrainsExactly(env: Env)
    ensures Drains(env) <==> DrainCondition(env)
  {
    if DrainCondition(env) {
      forall n: nat, hasCallback: bool, schedule: seq<Turn>, s: State, t: nat |
        ScheduleAllowed(env, Initial(n, hasCallback), schedule) &&
        Run(Initial(n, hasCallback), schedule) == Some(s) && Frees(s, t, Go)
        ensures s.sh.modules == []
      {
        Drain.ConcurrentDrain(env, n, hasCallback, schedule, s, t);
      }
    } else if env.pushes {
      OutsidePushStays(env);
    } else {
      var cfg :| cfg in env.configs && (!cfg.cdNone || env.overlap || env.accepts);
      if !cfg.cdNone {
        LoadThroughCdStays(env, cfg);
      } else if env.overlap {
        OverlapStays(env, cfg);
      } else {
        AcceptStays(env, cfg);
      }
    }
  }
}
