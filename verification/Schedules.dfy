/**
 Building allowed runs piece by piece: one thread at a time, one stretch of code at a time. The
 stretches are those of the protocol itself: a request through the device or the CD, the POPs of an
 unload, the sleep and the wakeup of an unloader, the PUSHes of a load.
 */
module Schedules {
  import opened IcaTypes
  import opened Control
  import opened Environment
  import opened StackMachine

  /** A state seen from thread t: the shared part, t itself, all threads (t's entry is stale), and
      what of the past matters. */
  datatype Point = Point(threads: seq<Thread>, t: nat, sh: Shared, th: Thread, past: Past)
  {
    predicate Fits() {
      t < |threads|
    }

    function AsState(): State
      requires Fits()
    {
      State(sh, threads[t := th])
    }

    /** The same state seen from thread u. */
    function From(u: nat): Point
      requires Fits() && u < |threads|
    {
      Point(AsState().threads, u, sh, AsState().threads[u], past)
    }

    function Goes(ctl: Ctl): Point {
      this.(th := th.(ctl := ctl))
    }

    /** The thread owns the lock, and its requests go straight to the device or through an idle CD. */
    predicate Ready() {
      Fits() && sh.owner == Some(t) && !sh.hasCallback && t !in past.forwarded
    }
  }

  ghost predicate Leads(env: Env, s0: State, p: Point) {
    p.Fits() && exists schedule: seq<Turn> ::
      Run(s0, schedule) == Some(p.AsState()) && ScheduleAllowed(env, s0, schedule)
      && PastOf(|s0.threads|, schedule) == p.past
  }

  lemma Starts(env: Env, n: nat, t: nat)
    requires t < n
    ensures var s0 := Initial(n, false); Leads(env, s0, Point(s0.threads, t, s0.sh, NewThread(Nil), Past(n, {})))
  {
    var s0 := Initial(n, false);
    assert s0.threads[t := NewThread(Nil)] == s0.threads;
    assert Run(s0, []) == Some(s0);
  }

  lemma Extended(env: Env, s0: State, p: Point, a: Action, q: Point)
    requires Leads(env, s0, p) && q.Fits() && TurnAllowed(env, p.AsState(), p.past, Turn(p.t, a))
    requires Step(p.AsState(), p.t, a) == Some(q.AsState()) && q.past == Next(p.past, Turn(p.t, a))
    ensures Leads(env, s0, q)
  {
    var schedule :| Run(s0, schedule) == Some(p.AsState()) && ScheduleAllowed(env, s0, schedule)
      && PastOf(|s0.threads|, schedule) == p.past;
    var longer := schedule + [Turn(p.t, a)];
    assert longer[..|schedule|] == schedule && longer[|schedule|] == Turn(p.t, a);
    assert Run(s0, longer) == Step(p.AsState(), p.t, a);
    assert ScheduleAllowed(env, s0, longer);
  }

  lemma Switched(env: Env, s0: State, p: Point, u: nat)
    requires Leads(env, s0, p) && u < |p.threads|
    ensures Leads(env, s0, p.From(u))
    ensures u != p.t ==> p.From(u).th == p.threads[u]
  {
    assert p.From(u).AsState() == p.AsState();
  }

  /** One more step of the thread, which its environment allows. */
  lemma Acts(env: Env, s0: State, p: Point, a: Action, q: Point)
    requires Leads(env, s0, p) && !a.Calls? && TurnAllowed(env, p.AsState(), p.past, Turn(p.t, a))
    requires ThreadStep(p.sh, p.t, p.th, a) == Some(Outcome(q.sh, q.th, false))
    requires q == Point(p.threads, p.t, q.sh, q.th, Next(p.past, Turn(p.t, a)))
    ensures Leads(env, s0, q)
  {
    assert p.threads[p.t := p.th][p.t := q.th] + [] == p.threads[p.t := q.th];
    Extended(env, s0, p, a, q);
  }

  /** A step that its environment has no say in. */
  lemma StepsTo(env: Env, s0: State, p: Point, a: Action, sh: Shared, th: Thread)
    requires Leads(env, s0, p) && (a.Go? || a.DeviceReturns? || a.CdOpens?)
    requires ThreadStep(p.sh, p.t, p.th, a) == Some(Outcome(sh, th, false))
    ensures Leads(env, s0, p.(sh := sh, th := th))
  {
    Acts(env, s0, p, a, p.(sh := sh, th := th));
  }

  lemma GoesOn(env: Env, s0: State, p: Point, ctl: Ctl)
    requires Leads(env, s0, p) && ThreadStep(p.sh, p.t, p.th, Go) == Some(Outcome(p.sh, p.th.(ctl := ctl), false))
    ensures Leads(env, s0, p.Goes(ctl))
  {
    StepsTo(env, s0, p, Go, p.sh, p.th.(ctl := ctl));
  }

  lemma Called(env: Env, s0: State, p: Point, api: Api)
    requires Leads(env, s0, p) && p.th.ctl.Nil? && ApiAllowed(env, api) && MayCall(p.AsState(), api)
    requires Loads(api) ==> env.overlap || Alone(p.AsState(), p.past.loader, p.t)
    ensures Leads(env, s0, p.Goes(Cons(Enter(api), Nil)).(sh := p.sh.(closeCalled := p.sh.closeCalled || api.Close?),
                                                          past := Next(p.past, Turn(p.t, Calls(api)))))
  {
    var q := p.Goes(Cons(Enter(api), Nil)).(sh := p.sh.(closeCalled := p.sh.closeCalled || api.Close?),
                                            past := Next(p.past, Turn(p.t, Calls(api))));
    assert p.threads[p.t := p.th][p.t := q.th] == p.threads[p.t := q.th];
    Extended(env, s0, p, Calls(api), q);
  }

  // ---------- a request ----------

  /** The control state of a thread whose request is in the device. */
  function Flight(cd: bool, code: Ioctl, rest: Ctl): Ctl {
    if cd then Cons(CdDevice(code), Cons(CdCode, Cons(Io(CdMask(code)), rest))) else Cons(InDevice(code), rest)
  }

  function Forwarding(past: Past, cd: bool, t: nat): Past {
    if cd then past.(forwarded := past.forwarded + {t}) else past
  }

  function Sent(p: Point, code: Ioctl, rest: Ctl): Point {
    Point(p.threads, p.t, OpenWindow(p.sh), p.th.(ctl := Flight(p.sh.cd, code, rest)), Forwarding(p.past, p.sh.cd, p.t))
  }

  lemma WorkerSends(env: Env, s0: State, p: Point, code: Ioctl, rest: Ctl)
    requires Leads(env, s0, p) && p.th.ctl == Cons(Io(Worker(code)), rest)
    requires p.sh.cd ==> p.t !in p.past.forwarded
    ensures Leads(env, s0, Sent(p, code, rest))
  {
    if p.sh.cd {
      var q := p.Goes(Cons(CdCode, Cons(Io(CdMask(code)), rest)));
      GoesOn(env, s0, p, q.th.ctl);
      Acts(env, s0, q, CdForwards(code), Sent(p, code, rest));
    } else {
      StepsTo(env, s0, p, Go, OpenWindow(p.sh), p.th.(ctl := Flight(false, code, rest)));
    }
  }

  lemma Sends(env: Env, s0: State, p: Point, code: Ioctl, rest: Ctl)
    requires Leads(env, s0, p) && p.th.ctl == Cons(Io(IoControl(code)), rest) && !p.sh.hasCallback
    requires p.sh.cd ==> p.t !in p.past.forwarded
    ensures Leads(env, s0, Sent(p, code, rest))
  {
    GoesOn(env, s0, p, Cons(Io(Worker(code)), rest));
    WorkerSends(env, s0, p.Goes(Cons(Io(Worker(code)), rest)), code, rest);
  }

  /** The shared part once the device has answered with `st` and the lock is owned again. */
  function Served(sh: Shared, t: nat, code: Ioctl, st: Status): Shared {
    CloseWindow(sh.(modules := DeviceModules(code, sh.modules, st)), t)
  }

  /** The status a request ends in: with a CD, fClosing hides it. */
  function Reported(sh: Shared, code: Ioctl, st: Status): Status {
    if sh.cd && sh.closing && !code.Pop? then ClosePending else st
  }

  function Received(p: Point, code: Ioctl, rest: Ctl, raw: Status, reply: Reply): Point {
    var st := DeviceStatus(code, p.sh.modules, raw);
    Point(p.threads, p.t, Served(p.sh, p.t, code, st), Thread(rest, Reported(p.sh, code, st), reply),
          p.past.(forwarded := p.past.forwarded - {p.t}))
  }

  lemma ReceivesDirectly(env: Env, s0: State, p: Point, code: Ioctl, rest: Ctl, raw: Status, reply: Reply)
    requires Leads(env, s0, p) && !p.sh.cd && p.th.ctl == Flight(false, code, rest) && p.sh.owner.None?
    requires p.t !in p.past.forwarded
    ensures Leads(env, s0, Received(p, code, rest, raw, reply))
  {
    var st := DeviceStatus(code, p.sh.modules, raw);
    var sh1 := p.sh.(modules := DeviceModules(code, p.sh.modules, st));
    StepsTo(env, s0, p, DeviceReturns(raw, reply), sh1, Thread(Cons(Relock, rest), st, reply));
    var q := p.(sh := sh1, th := Thread(Cons(Relock, rest), st, reply));
    StepsTo(env, s0, q, Go, Served(p.sh, p.t, code, st), Thread(rest, st, reply));
    assert p.past.forwarded - {p.t} == p.past.forwarded;
  }

  lemma ReceivesFromCd(env: Env, s0: State, p: Point, code: Ioctl, rest: Ctl, raw: Status, reply: Reply)
    requires Leads(env, s0, p) && p.sh.cd && p.th.ctl == Flight(true, code, rest) && p.sh.owner.None?
    requires p.t in p.past.forwarded
    ensures Leads(env, s0, Received(p, code, rest, raw, reply))
  {
    var st := DeviceStatus(code, p.sh.modules, raw);
    var c := Cons(CdCode, Cons(Io(CdMask(code)), rest));
    var q := p.(sh := p.sh.(modules := DeviceModules(code, p.sh.modules, st)),
                th := Thread(Cons(CdRelock(!code.Pop?), c), st, reply));
    StepsTo(env, s0, p, DeviceReturns(raw, reply), q.sh, q.th);
    CdLocks(env, s0, q, !code.Pop?, c);
    CdHandsBack(env, s0, p.(sh := Served(p.sh, p.t, code, st), th := Thread(c, Reported(p.sh, code, st), reply)),
        code, rest);
  }

  lemma CdLocks(env: Env, s0: State, p: Point, mask: bool, rest: Ctl)
    requires Leads(env, s0, p) && p.th.ctl == Cons(CdRelock(mask), rest) && p.sh.owner.None?
    ensures Leads(env, s0, p.(sh := CloseWindow(p.sh, p.t),
                              th := p.th.(ctl := rest, status := MaskClosing(p.sh, mask, p.th.status))))
  {
    StepsTo(env, s0, p, Go, CloseWindow(p.sh, p.t), p.th.(ctl := rest, status := MaskClosing(p.sh, mask, p.th.status)));
  }

  lemma CdHandsBack(env: Env, s0: State, p: Point, code: Ioctl, rest: Ctl)
    requires Leads(env, s0, p) && p.th.ctl == Cons(CdCode, Cons(Io(CdMask(code)), rest)) && p.t in p.past.forwarded
    requires Reported(p.sh.(cd := true), code, p.th.status) == p.th.status
    ensures Leads(env, s0, p.Goes(rest).(past := p.past.(forwarded := p.past.forwarded - {p.t})))
  {
    var q := p.Goes(Cons(Io(CdMask(code)), rest)).(past := p.past.(forwarded := p.past.forwarded - {p.t}));
    Acts(env, s0, p, CdReturns(p.th.status), q);
    GoesOn(env, s0, q, rest);
  }

  lemma Receives(env: Env, s0: State, p: Point, code: Ioctl, rest: Ctl, raw: Status, reply: Reply)
    requires Leads(env, s0, p) && p.th.ctl == Flight(p.sh.cd, code, rest) && p.sh.owner.None?
    requires p.sh.cd <==> p.t in p.past.forwarded
    ensures Leads(env, s0, Received(p, code, rest, raw, reply))
  {
    if p.sh.cd {
      ReceivesFromCd(env, s0, p, code, rest, raw, reply);
    } else {
      ReceivesDirectly(env, s0, p, code, rest, raw, reply);
    }
  }

  /** Since p, this thread has only made requests: the count and the flags are as before. */
  predicate Later(p: Point, q: Point) {
    && q.threads == p.threads && q.t == p.t && q.past == p.past
    && q.sh == p.sh.(modules := q.sh.modules, acquired := q.sh.acquired, signalled := q.sh.signalled)
    && p.sh.signalled <= q.sh.signalled
  }

  lemma SameAfterRequest(p: Point, code: Ioctl, rest: Ctl, raw: Status, reply: Reply)
    requires p.Ready()
    ensures var q := Received(Sent(p, code, rest), code, rest, raw, reply);
            var st := DeviceStatus(code, p.sh.modules, raw);
            Later(p, q) && q.sh.modules == DeviceModules(code, p.sh.modules, st)
                && q.th == Thread(rest, Reported(p.sh, code, st), reply)
  {
    assert p.past.forwarded + {p.t} - {p.t} == p.past.forwarded - {p.t} == p.past.forwarded;
  }

  /** A whole request, with nobody else moving meanwhile. */
  lemma Requests(env: Env, s0: State, p: Point, code: Ioctl, rest: Ctl, raw: Status, reply: Reply) returns (q: Point)
    requires Leads(env, s0, p) && p.Ready() && p.th.ctl == Cons(Io(IoControl(code)), rest)
    ensures Leads(env, s0, q) && Later(p, q)
    ensures var st := DeviceStatus(code, p.sh.modules, raw);
            q.sh.modules == DeviceModules(code, p.sh.modules, st)
                && q.th == Thread(rest, Reported(p.sh, code, st), reply)
  {
    Sends(env, s0, p, code, rest);
    Receives(env, s0, Sent(p, code, rest), code, rest, raw, reply);
    q := Received(Sent(p, code, rest), code, rest, raw, reply);
    SameAfterRequest(p, code, rest, raw, reply);
  }

  // ---------- an unload ----------

  lemma PopsOne(env: Env, s0: State, p: Point, rest: Ctl) returns (q: Point)
    requires Leads(env, s0, p) && p.Ready() && p.th.ctl == Cons(Unload(PopLoop), rest)
    ensures Leads(env, s0, q) && Later(p, q) && q.th.ctl == Cons(Unload(PopTest), rest)
    ensures p.sh.modules != [] ==> q.th.status == StatusSuccess && |q.sh.modules| == |p.sh.modules| - 1
    ensures p.sh.modules == [] ==> q.th.status == OtherError(0) && q.sh.modules == []
  {
    var popped := Cons(Unload(PopTest), rest);
    GoesOn(env, s0, p, Cons(Io(IoControl(Pop)), popped));
    q := Requests(env, s0, p.Goes(Cons(Io(IoControl(Pop)), popped)), Pop, popped, OtherError(0), p.th.reply);
  }

  lemma Cancels(env: Env, s0: State, p: Point, rest: Ctl) returns (q: Point)
    requires Leads(env, s0, p) && p.Ready() && p.th.ctl == Cons(Unload(PopTest), rest) && p.th.status != StatusSuccess
    ensures Leads(env, s0, q) && Later(p, q) && q.sh.modules == p.sh.modules
            && q.th.ctl == Cons(Unload(PopCancelled), rest)
  {
    var next := Cons(Unload(PopCancelled), rest);
    GoesOn(env, s0, p, Cons(Io(IoControl(CdCancelIo)), next));
    q := Requests(env, s0, p.Goes(Cons(Io(IoControl(CdCancelIo)), next)), CdCancelIo, next, StatusSuccess, p.th.reply);
  }

  lemma PopsAgain(env: Env, s0: State, p: Point, rest: Ctl) returns (q: Point)
    requires Leads(env, s0, p) && p.Ready() && p.th.ctl == Cons(Unload(PopLoop), rest) && p.sh.modules != []
    ensures Leads(env, s0, q) && Later(p, q) && q.th.ctl == Cons(Unload(PopLoop), rest)
    ensures |q.sh.modules| < |p.sh.modules|
  {
    q := PopsOne(env, s0, p, rest);
    GoesOn(env, s0, q, Cons(Unload(PopLoop), rest));
    q := q.Goes(Cons(Unload(PopLoop), rest));
  }

  /** The POPs of an unload, as many as there are modules and one more, and the cancel. */
  lemma PopsAll(env: Env, s0: State, p: Point, rest: Ctl) returns (q: Point)
    requires Leads(env, s0, p) && p.Ready() && p.th.ctl == Cons(Unload(PopLoop), rest)
    ensures Leads(env, s0, q) && Later(p, q) && q.sh.modules == [] && q.th.ctl == Cons(Unload(PopCancelled), rest)
    decreases |p.sh.modules|
  {
    if p.sh.modules == [] {
      q := PopsOne(env, s0, p, rest);
      q := Cancels(env, s0, q, rest);
    } else {
      q := PopsAgain(env, s0, p, rest);
      q := PopsAll(env, s0, q, rest);
    }
  }

  /** Asleep in the wait loop of _IcaPopStack. */
  predicate Sleeps(c: Ctl, e: nat, rest: Ctl) {
    c.Cons? && c.top.UnloadWait? && c.top.phase == Asleep(e) && c.rest == rest
  }

  lemma TakesReference(env: Env, s0: State, p: Point, rest: Ctl)
    requires Leads(env, s0, p) && p.th.ctl == Cons(Unload(PopCancelled), rest)
    ensures Leads(env, s0, p.Goes(Cons(UnloadWait(AtHead, 0, p.sh.acquired + 1), rest)).(sh := TakeRef(p.sh)))
  {
    StepsTo(env, s0, p, Go, TakeRef(p.sh), p.th.(ctl := Cons(UnloadWait(AtHead, 0, p.sh.acquired + 1), rest)));
  }

  lemma FallsAsleep(env: Env, s0: State, p: Point, rest: Ctl) returns (q: Point)
    requires Leads(env, s0, p) && p.sh.refCount > 1
    requires p.th.ctl.Cons? && p.th.ctl.top.UnloadWait? && p.th.ctl.top.phase.AtHead? && p.th.ctl.rest == rest
    ensures Leads(env, s0, q) && Sleeps(q.th.ctl, p.sh.nextEvent, rest)
    ensures q == Point(p.threads, p.t, SleepUnload(p.sh), q.th, p.past)
  {
    var i := p.th.ctl.top;
    q := p.Goes(Cons(UnloadWait(Asleep(p.sh.nextEvent), i.rounds + 1, i.since), rest)).(sh := SleepUnload(p.sh));
    StepsTo(env, s0, p, Go, q.sh, q.th);
  }

  /** While others hold references an unload empties the device and falls asleep. */
  lemma Unloads(env: Env, s0: State, p: Point, rest: Ctl) returns (q: Point)
    requires Leads(env, s0, p) && p.Ready() && !p.sh.unloading && p.sh.refCount > 0 && p.th.ctl == Cons(PopStack, rest)
    ensures Leads(env, s0, q) && Sleeps(q.th.ctl, p.sh.nextEvent, rest)
    ensures q.threads == p.threads && q.t == p.t && q.past == p.past
    ensures q.sh == p.sh.(owner := None, refCount := p.sh.refCount + 1, hUnload := Some(p.sh.nextEvent),
                          nextEvent := p.sh.nextEvent + 1, unloading := true, modules := [],
                          acquired := q.sh.acquired, signalled := q.sh.signalled)
  {
    var a := p.Goes(Cons(Unload(PopLoop), rest)).(sh := p.sh.(unloading := true));
    StepsTo(env, s0, p, Go, a.sh, a.th);
    var b := PopsAll(env, s0, a, rest);
    TakesReference(env, s0, b, rest);
    q := FallsAsleep(env, s0, b.Goes(Cons(UnloadWait(AtHead, 0, b.sh.acquired + 1), rest)).(sh := TakeRef(b.sh)), rest);
  }

  lemma Stirs(env: Env, s0: State, p: Point, e: nat, rest: Ctl)
    requires Leads(env, s0, p) && Sleeps(p.th.ctl, e, rest) && e in p.sh.signalled
    ensures Leads(env, s0, p.Goes(Cons(UnloadWait(Awake(e), p.th.ctl.top.rounds, p.th.ctl.top.since), rest)))
  {
    GoesOn(env, s0, p, Cons(UnloadWait(Awake(e), p.th.ctl.top.rounds, p.th.ctl.top.since), rest));
  }

  function Woken(p: Point, rest: Ctl): Point {
    p.Goes(rest).(sh := FinishUnload(p.sh.(owner := Some(p.t), hUnload := None)))
  }

  /** Once its reference is the last one, the unloader wakes up and ends the unload. */
  lemma Wakes(env: Env, s0: State, p: Point, e: nat, rest: Ctl)
    requires Leads(env, s0, p) && Sleeps(p.th.ctl, e, rest) && e in p.sh.signalled
    requires p.sh.owner.None? && p.sh.refCount == 1
    ensures Leads(env, s0, Woken(p, rest))
  {
    var i := p.th.ctl.top;
    Stirs(env, s0, p, e, rest);
    var a := p.Goes(Cons(UnloadWait(Awake(e), i.rounds, i.since), rest));
    var b := p.Goes(Cons(UnloadWait(AtHead, i.rounds, i.since), rest)).(sh := p.sh.(owner := Some(p.t),
        hUnload := None));
    StepsTo(env, s0, a, Go, b.sh, b.th);
    StepsTo(env, s0, b, Go, Woken(p, rest).sh, Woken(p, rest).th);
  }

  // ---------- a load ----------

  lemma Completes(env: Env, s0: State, p: Point, rest: Ctl)
    requires Leads(env, s0, p) && !p.sh.closing && p.th.ctl == Cons(Load(AfterPush([])), rest) && p.th.status.Ok()
    ensures Leads(env, s0, p.(sh := p.sh.(loaded := true), th := Thread(rest, StatusSuccess, p.th.reply)))
  {
    StepsTo(env, s0, p, Go, p.sh.(loaded := true), Thread(rest, StatusSuccess, p.th.reply));
  }

  /** The PUSHes of a load that nothing disturbs, from the end of one that succeeded. */
  lemma PushesRest(env: Env, s0: State, p: Point, list: seq<Module>, rest: Ctl) returns (q: Point)
    requires Leads(env, s0, p) && p.Ready() && !p.sh.closing
    requires p.th.ctl == Cons(Load(AfterPush(list)), rest) && p.th.status.Ok()
    ensures Leads(env, s0, q) && Later(p.(sh := p.sh.(loaded := true)), q)
    ensures q.sh.modules == p.sh.modules + list && q.th.ctl == rest && q.th.status == StatusSuccess
    decreases |list|
  {
    if list == [] {
      Completes(env, s0, p, rest);
      q := p.(sh := p.sh.(loaded := true), th := Thread(rest, StatusSuccess, p.th.reply));
    } else {
      HeadFirst(p.sh.modules, list);
      q := PushesNext(env, s0, p, list[0], list[1..], rest);
      q := PushesRest(env, s0, q, list[1..], rest);
    }
  }

  lemma PushesNext(env: Env, s0: State, p: Point, m: Module, list: seq<Module>, rest: Ctl) returns (q: Point)
    requires Leads(env, s0, p) && p.Ready() && !p.sh.closing
    requires p.th.ctl == Cons(Load(AfterPush([m] + list)), rest) && p.th.status.Ok()
    ensures Leads(env, s0, q) && Later(p, q) && q.sh.modules == p.sh.modules + [m]
    ensures q.th.ctl == Cons(Load(AfterPush(list)), rest) && q.th.status == StatusSuccess
  {
    assert ([m] + list)[1..] == list;
    GoesOn(env, s0, p, Cons(Load(PushNext(m, list)), rest));
    q := Pushed(env, s0, p.Goes(Cons(Load(PushNext(m, list)), rest)), m, list, rest);
  }

  lemma Pushed(env: Env, s0: State, p: Point, m: Module, list: seq<Module>, rest: Ctl) returns (q: Point)
    requires Leads(env, s0, p) && p.Ready() && !p.sh.closing && p.th.ctl == Cons(Load(PushNext(m, list)), rest)
    ensures Leads(env, s0, q) && Later(p, q) && q.sh.modules == p.sh.modules + [m]
    ensures q.th.ctl == Cons(Load(AfterPush(list)), rest) && q.th.status == StatusSuccess
  {
    var after := Cons(Load(AfterPush(list)), rest);
    GoesOn(env, s0, p, Cons(Io(IoControl(Push(m))), after));
    q := Requests(env, s0, p.Goes(Cons(Io(IoControl(Push(m))), after)), Push(m), after, StatusSuccess, p.th.reply);
  }

  function WithCd(sh: Shared, cfg: Config): Shared {
    if cfg.cdNone then sh else sh.(cd := true, cdDll := true)
  }

  /** _IcaPushStack up to its first PUSH. */
  lemma OpensCd(env: Env, s0: State, p: Point, cfg: Config, rest: Ctl) returns (q: Point)
    requires Leads(env, s0, p) && p.th.ctl == Cons(PushStack(cfg), rest)
    ensures Leads(env, s0, q)
    ensures q == p.Goes(FirstPush(cfg, rest)).(sh := WithCd(p.sh, cfg))
  {
    q := p.Goes(FirstPush(cfg, rest)).(sh := WithCd(p.sh, cfg));
    StepsTo(env, s0, p, if cfg.cdNone then Go else CdOpens(Opens(StatusSuccess)), q.sh, q.th);
  }

  const LEAVE := Cons(Leave(false), Nil)
  const CONNECTING := Cons(Call(IfLoadedConsole), LEAVE)

  /** A call that the callers' contract allows takes the lock. */
  lemma Begins(env: Env, s0: State, p: Point, api: Api, rest: Ctl)
    requires Leads(env, s0, p) && p.th.ctl == Cons(Enter(api), rest) && p.sh.owner.None?
    requires !api.Close? && !api.Terminate? && !api.ConnectionAccept?
    ensures Leads(env, s0,
                p.Goes(Cons(Call(Begin(api, p.sh.loaded)), Cons(Leave(false), rest))).(sh := p.sh.(owner := Some(p.t))))
  {
    StepsTo(env, s0, p, Go, p.sh.(owner := Some(p.t)),
        p.th.(ctl := Cons(Call(Begin(api, p.sh.loaded)), Cons(Leave(false), rest))));
  }

  /** IcaPushConsoleStack enters ... */
  lemma EntersLoad(env: Env, s0: State, p: Point, cfg: Config)
    requires Leads(env, s0, p) && p.th.ctl.Nil? && p.sh.owner.None? && !p.sh.closeCalled
    requires cfg in env.configs && (env.overlap || Alone(p.AsState(), p.past.loader, p.t))
    ensures Leads(env, s0, Point(p.threads, p.t, p.sh.(owner := Some(p.t)),
                                 p.th.(ctl := Cons(Call(Begin(PushConsoleStack(cfg), p.sh.loaded)), LEAVE)),
                                 p.past.(loader := p.t)))
  {
    var api := PushConsoleStack(cfg);
    Called(env, s0, p, api);
    Begins(env, s0, p.Goes(Cons(Enter(api), Nil)).(past := p.past.(loader := p.t)), api, Nil);
  }

  lemma DecidesLoad(env: Env, s0: State, p: Point, cfg: Config, loaded: bool)
    requires Leads(env, s0, p) && p.th.ctl == Cons(Call(Begin(PushConsoleStack(cfg), loaded)), LEAVE)
    ensures Leads(env, s0, p.Goes(Cons(PushStack(cfg), CONNECTING)))
  {
    assert DecideCall(p.th.status, Begin(PushConsoleStack(cfg), loaded)) == CallLoad(cfg, IfLoadedConsole);
    GoesOn(env, s0, p, Cons(PushStack(cfg), CONNECTING));
  }

  /** ... and is about to make its first PUSH. */
  lemma StartsLoad(env: Env, s0: State, p: Point, cfg: Config) returns (q: Point)
    requires Leads(env, s0, p) && p.th.ctl.Nil? && p.sh.owner.None? && !p.sh.closeCalled
    requires cfg in env.configs && (env.overlap || Alone(p.AsState(), p.past.loader, p.t))
    ensures Leads(env, s0, q)
    ensures q.threads == p.threads && q.t == p.t && q.past == p.past.(loader := p.t)
    ensures q.th == p.th.(ctl := FirstPush(cfg, CONNECTING))
    ensures q.sh == WithCd(p.sh.(owner := Some(p.t)), cfg)
  {
    EntersLoad(env, s0, p, cfg);
    q := Point(p.threads, p.t, p.sh.(owner := Some(p.t)),
               p.th.(ctl := Cons(Call(Begin(PushConsoleStack(cfg), p.sh.loaded)), LEAVE)), p.past.(loader := p.t));
    DecidesLoad(env, s0, q, cfg, p.sh.loaded);
    q := OpensCd(env, s0, q.Goes(Cons(PushStack(cfg), CONNECTING)), cfg, CONNECTING);
  }

  // ---------- a request from outside ----------

  lemma DecidesRequest(env: Env, s0: State, p: Point, code: Ioctl, loaded: bool)
    requires Leads(env, s0, p) && p.th.ctl == Cons(Call(Begin(StackIoControl(code), loaded)), LEAVE)
    ensures Leads(env, s0, p.Goes(Cons(Io(Worker(code)), LEAVE)))
  {
    assert DecideCall(p.th.status, Begin(StackIoControl(code), loaded)) == CallWork(code);
    GoesOn(env, s0, p, Cons(Io(Worker(code)), LEAVE));
  }

  lemma EntersRequest(env: Env, s0: State, p: Point, code: Ioctl)
    requires Leads(env, s0, p) && p.th.ctl.Nil? && p.sh.owner.None? && !p.sh.closeCalled && MayIssue(env, code)
    ensures Leads(env, s0, Point(p.threads, p.t, p.sh.(owner := Some(p.t)),
                                 p.th.(ctl := Cons(Call(Begin(StackIoControl(code), p.sh.loaded)), LEAVE)), p.past))
  {
    var api := StackIoControl(code);
    Called(env, s0, p, api);
    assert p.past == Next(p.past, Turn(p.t, Calls(api)));
    Begins(env, s0, p.Goes(Cons(Enter(api), Nil)), api, Nil);
  }

  /** IcaStackIoControl, up to the device. */
  lemma SendsOutside(env: Env, s0: State, p: Point, code: Ioctl) returns (q: Point)
    requires Leads(env, s0, p) && p.th.ctl.Nil? && p.sh.owner.None? && !p.sh.closeCalled && MayIssue(env, code)
    requires !p.sh.cd
    ensures Leads(env, s0, q)
    ensures q == Point(p.threads, p.t, OpenWindow(p.sh), p.th.(ctl := Flight(false, code, LEAVE)), p.past)
  {
    EntersRequest(env, s0, p, code);
    var a := Point(p.threads, p.t, p.sh.(owner := Some(p.t)),
                   p.th.(ctl := Cons(Call(Begin(StackIoControl(code), p.sh.loaded)), LEAVE)), p.past);
    DecidesRequest(env, s0, a, code, p.sh.loaded);
    q := WorkerEnters(env, s0, a.Goes(Cons(Io(Worker(code)), LEAVE)), code);
  }

  lemma WorkerEnters(env: Env, s0: State, p: Point, code: Ioctl) returns (q: Point)
    requires Leads(env, s0, p) && !p.sh.cd && p.th.ctl == Cons(Io(Worker(code)), LEAVE)
    ensures Leads(env, s0, q)
    ensures q == Point(p.threads, p.t, OpenWindow(p.sh), p.th.(ctl := Flight(false, code, LEAVE)), p.past)
  {
    q := Point(p.threads, p.t, OpenWindow(p.sh), p.th.(ctl := Flight(false, code, LEAVE)), p.past);
    StepsTo(env, s0, p, Go, q.sh, q.th);
  }

  lemma Leaves(env: Env, s0: State, p: Point)
    requires Leads(env, s0, p) && p.th.ctl == LEAVE
    ensures Leads(env, s0, p.Goes(Nil).(sh := p.sh.(owner := None)))
  {
    StepsTo(env, s0, p, Go, p.sh.(owner := None), p.th.(ctl := Nil));
  }

  // ---------- closing ----------

  const CLOSING := Cons(CloseBegin, Nil)

  /** IcaStackClose takes the lock. */
  lemma StartsClose(env: Env, s0: State, p: Point)
    requires Leads(env, s0, p) && p.th.ctl.Nil? && p.sh.owner.None? && !p.sh.closeCalled
    requires forall u :: 0 <= u < |p.threads| && u != p.t ==> !AtEntry(p.threads[u].ctl)
    ensures Leads(env, s0, p.Goes(Cons(PopStack, CLOSING)).(
                      sh := p.sh.(owner := Some(p.t), closing := true, closeCalled := true)))
  {
    Called(env, s0, p, Close);
    var a := p.Goes(Cons(Enter(Close), Nil)).(sh := p.sh.(closeCalled := true));
    StepsTo(env, s0, a, Go, p.sh.(owner := Some(p.t), closing := true, closeCalled := true),
          p.th.(ctl := Cons(PopStack, CLOSING)));
  }

  const TERMINATING := Cons(Call(Return(StatusSuccess)), LEAVE)

  /** IcaStackTerminate takes the lock. */
  lemma StartsTerminate(env: Env, s0: State, p: Point)
    requires Leads(env, s0, p) && p.th.ctl.Nil? && p.sh.owner.None? && !p.sh.closeCalled
    ensures Leads(env, s0, p.Goes(Cons(PopStack, TERMINATING)).(sh := p.sh.(owner := Some(p.t), closing := true)))
  {
    Called(env, s0, p, Terminate);
    StepsTo(env, s0, p.Goes(Cons(Enter(Terminate), Nil)), Go, p.sh.(owner := Some(p.t), closing := true),
          p.th.(ctl := Cons(PopStack, TERMINATING)));
  }

  /** A second unload leaves everything to the first. */
  lemma SkipsUnload(env: Env, s0: State, p: Point, rest: Ctl)
    requires Leads(env, s0, p) && p.sh.unloading && p.th.ctl == Cons(PopStack, rest)
    ensures Leads(env, s0, p.Goes(rest))
  {
    GoesOn(env, s0, p, rest);
  }
}
