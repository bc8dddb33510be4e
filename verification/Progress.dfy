/**
 No deadlock: as long as some call has not returned, some thread can take a step.
 */
module Progress {
  import opened IcaTypes
  import opened Control
  import opened StackMachine
  import opened Discipline
  import opened Steps
  import opened Invariant
  import opened Lifecycle

  /** Code of the calls themselves, as opposed to the ioctl underneath them. */
  predicate OfCall(i: Item) {
    || i.PushStack? || i.Load? || i.Call? || i.Accept? || i.PopStack? || i.Unload? || i.UnloadWait?
    || i.CloseBegin? || i.CloseWait?
  }

  predicate NoneBelow(c: Ctl) {
    TallyOf(c).refs == 0 && TallyOf(c).unloads == 0
  }

  /** A call's own code has no reference and no unload of the same thread beneath it, so an
      unloader never waits for itself. */
  predicate Flat(c: Ctl) {
    c.Cons? ==> (OfCall(c.top) ==> NoneBelow(c.rest)) && Flat(c.rest)
  }

  predicate HoldsNone(i: Item) {
    i.Io? || i.Load? || i.Call? || i.Accept? || i.PopStack? || i.Leave? || i.CloseBegin? || i.AwaitUnlock?
  }

  lemma FlatDo2(a: Item, b: Item, rest: Ctl)
    requires Flat(rest) && NoneBelow(rest) && HoldsNone(b)
    ensures Flat(Do2(a, b, rest))
  {
    assert Flat(Cons(b, rest)) && NoneBelow(Cons(b, rest));
  }

  lemma FlatDo3(a: Item, b: Item, c: Item, rest: Ctl)
    requires Flat(rest) && NoneBelow(rest) && HoldsNone(b) && HoldsNone(c)
    ensures Flat(Do3(a, b, c, rest))
  {
    FlatDo2(b, c, rest);
    assert NoneBelow(Do2(b, c, rest));
  }

  lemma FlatLoad(sh: Shared, th: Thread, move: LoadMove, pushed: bool, rest: Ctl)
    requires Flat(rest) && NoneBelow(rest)
    ensures Flat(MoveLoad(sh, th, move, pushed, rest).th.ctl)
  {
    match move
    case LoadGoto(_) =>
    case LoadIssue(code, next) => FlatDo2(Io(IoControl(code)), Load(next), rest);
    case LoadUnload(st) => FlatDo2(PopStack, Call(Return(st)), rest);
    case LoadReturn(_) =>
  }

  lemma FlatCall(th: Thread, move: CallMove, rest: Ctl)
    requires Flat(rest) && NoneBelow(rest)
    ensures Flat(MoveCall(th, move, rest).ctl)
  {
    match move
    case CallIssue(code, next) => FlatDo2(Io(IoControl(code)), Call(next), rest);
    case CallLoad(cfg, next) => FlatDo2(PushStack(cfg), Call(next), rest);
    case CallLoadOpen(cfg, code, next) => FlatDo3(PushStack(cfg), Call(OpenEndpointBy(code)), Call(next), rest);
    case CallUnload(st) => FlatDo2(PopStack, Call(Return(st)), rest);
    case _ =>
  }

  lemma FlatAccept(th: Thread, move: AcceptMove, rest: Ctl)
    requires Flat(rest) && NoneBelow(rest)
    ensures Flat(MoveAccept(th, move, rest).ctl)
  {
    match move
    case AcceptIssue(code, next) => FlatDo2(Io(IoControl(code)), Accept(next), rest);
    case AcceptIssueTwo(c1, c2, next) => FlatDo3(Io(IoControl(c1)), Io(IoControl(c2)), Accept(next), rest);
    case AcceptLoad(cfg, next) => FlatDo3(PushStack(cfg), Call(OpenEndpointBy(OpenEndpoint)), Accept(next), rest);
    case Refused(st) => FlatDo3(PopStack, Call(Return(st)), Leave(false), rest);
    case _ =>
  }

  lemma FlatBody(loaded: bool, api: Api)
    ensures Flat(Body(loaded, api, Nil))
  {
    match api
    case Close => FlatDo2(PopStack, CloseBegin, Nil);
    case Terminate => FlatDo3(PopStack, Call(Return(StatusSuccess)), Leave(false), Nil);
    case ConnectionAccept(_, _, _) =>
    case _ => FlatDo2(Call(Begin(api, loaded)), Leave(false), Nil);
  }

  lemma FlatUnload(sh: Shared, th: Thread, unl: UnloadItem, rest: Ctl)
    requires Flat(rest) && NoneBelow(rest)
    ensures Flat(UnloadStep(sh, th, unl, rest).value.th.ctl)
  {
    assert Flat(Cons(Unload(PopTest), rest)) && Flat(Cons(Unload(PopCancelled), rest));
  }

  lemma FlatIo(sh: Shared, th: Thread, io: IoItem, rest: Ctl)
    requires Flat(rest)
    ensures Flat(IoStep(sh, th, io, rest).value.th.ctl)
  {
  }

  lemma FlatUnloadWait(sh: Shared, t: nat, th: Thread, p: Phase, rounds: nat, since: nat, rest: Ctl)
    requires Flat(rest) && NoneBelow(rest) && UnloadWaitStep(sh, t, th, p, rounds, since, rest).Some?
    ensures Flat(UnloadWaitStep(sh, t, th, p, rounds, since, rest).value.th.ctl)
  {
  }

  lemma FlatCloseWait(sh: Shared, t: nat, th: Thread, p: Phase, rounds: nat, since: nat, rest: Ctl)
    requires Flat(rest) && NoneBelow(rest) && CloseWaitStep(sh, t, th, p, rounds, since, rest).Some?
    ensures Flat(CloseWaitStep(sh, t, th, p, rounds, since, rest).value.th.ctl)
  {
  }

  lemma FlatBegin(sh: Shared, th: Thread, rest: Ctl)
    requires Flat(rest) && NoneBelow(rest)
    ensures Flat(PopStackStep(sh, th, rest).value.th.ctl)
    ensures Flat(Cons(CloseWait(AtHead, 0, sh.acquired), rest))
  {
  }

  lemma FlatLocking(sh: Shared, t: nat, th: Thread, code: Ioctl, rest: Ctl)
    requires Flat(rest)
    ensures EnterNestedStep(sh, t, th, code, rest).Some? ==> Flat(EnterNestedStep(sh, t, th, code, rest).value.th.ctl)
    ensures CdThreadStep(sh, t, th, false, rest).Some? ==> Flat(CdThreadStep(sh, t, th, false, rest).value.th.ctl)
    ensures CdThreadStep(sh, t, th, true, rest).value.th.ctl == rest
  {
  }

  lemma FlatGo(sh: Shared, t: nat, th: Thread)
    requires th.ctl.Cons? && WellFormed(th.ctl) && Flat(th.ctl) && GoStep(sh, t, th).Some?
    ensures Flat(GoStep(sh, t, th).value.th.ctl)
  {
    var rest := th.ctl.rest;
    AfterTop(th.ctl);
    match th.ctl.top
    case Enter(api) => FlatBody(sh.loaded, api);
    case Load(load) => FlatLoad(sh, th, DecideLoad(sh.closing, th.status, load), load.AfterPush?, rest);
    case Call(call) => FlatCall(th, DecideCall(th.status, call), rest);
    case Accept(acc) => FlatAccept(th, DecideAccept(th.status, th.reply, acc), rest);
    case Unload(unl) => FlatUnload(sh, th, unl, rest);
    case Io(io) => FlatIo(sh, th, io, rest);
    case UnloadWait(p, rounds, since) => FlatUnloadWait(sh, t, th, p, rounds, since, rest);
    case CloseWait(p, rounds, since) => FlatCloseWait(sh, t, th, p, rounds, since, rest);
    case PopStack => FlatBegin(sh, th, rest);
    case CloseBegin => FlatBegin(sh, th, rest);
    case EnterNested(code) => FlatLocking(sh, t, th, code, rest);
    case CdThread(_) => FlatLocking(sh, t, th, Pop, rest);
    case _ =>
  }

  lemma FlatCdOpen(sh: Shared, th: Thread, cfg: Config, rest: Ctl, a: Action)
    requires Flat(rest) && NoneBelow(rest) && CdOpenStep(sh, th, cfg, rest, a).Some?
    ensures Flat(CdOpenStep(sh, th, cfg, rest, a).value.th.ctl)
  {
    if !cfg.cdNone {
      CdOpenedResults(sh, th, cfg, rest, a.outcome);
    }
  }

  lemma FlatCallback(sh: Shared, th: Thread, code: Ioctl, rest: Ctl, a: Action)
    requires Flat(rest) && CallbackStep(sh, th, code, rest, a).Some?
    ensures Flat(CallbackStep(sh, th, code, rest, a).value.th.ctl)
  {
  }

  lemma FlatCd(sh: Shared, th: Thread, rest: Ctl, a: Action)
    requires Flat(rest) && th.ctl == Cons(CdCode, rest) && CdCodeStep(sh, th, rest, a).Some?
    ensures Flat(CdCodeStep(sh, th, rest, a).value.th.ctl)
  {
  }

  lemma FlatStep(sh: Shared, t: nat, th: Thread, a: Action)
    requires th.ctl.Cons? && WellFormed(th.ctl) && Flat(th.ctl) && ThreadStep(sh, t, th, a).Some?
    ensures Flat(ThreadStep(sh, t, th, a).value.th.ctl)
  {
    var rest := th.ctl.rest;
    match th.ctl.top
    case PushStack(cfg) => FlatCdOpen(sh, th, cfg, rest, a);
    case AwaitUnlock =>
    case InCallback(code, _) => FlatCallback(sh, th, code, rest, a);
    case InDevice(_) =>
    case CdDevice(_) =>
    case CdWaiting =>
    case CdCode => FlatCd(sh, th, rest, a);
    case _ => FlatGo(sh, t, th);
  }

  ghost predicate AllFlat(s: State) {
    forall t :: 0 <= t < |s.threads| ==> Flat(s.threads[t].ctl)
  }

  lemma FlatKept(s: State, t: nat, a: Action)
    requires Inv(s) && AllFlat(s) && Step(s, t, a).Some?
    ensures AllFlat(Step(s, t, a).value)
  {
    if !a.Calls? {
      FlatStep(s.sh, t, s.threads[t], a);
    }
  }

  lemma {:induction false} RunFlat(s: State, schedule: seq<Turn>)
    requires Inv(s) && AllFlat(s) && Run(s, schedule).Some?
    ensures AllFlat(Run(s, schedule).value)
    decreases |schedule|
  {
    if schedule == [] {
    } else {
      var last := |schedule| - 1;
      RunFlat(s, schedule[..last]);
      RunKeeps(s, schedule[..last]);
      FlatKept(Run(s, schedule[..last]).value, schedule[last].t, schedule[last].a);
    }
  }

  lemma ReachableFlat(s: State)
    requires Reachable(s)
    ensures AllFlat(s)
  {
    var n: nat, hasCallback: bool, schedule: seq<Turn> :| Run(Initial(n, hasCallback), schedule) == Some(s);
    InitialInv(n, hasCallback);
    RunFlat(Initial(n, hasCallback), schedule);
  }

  // ---------- somebody can move ----------

  predicate SoundAsleep(sh: Shared, c: Ctl) {
    c.Cons? && (c.top.UnloadWait? || c.top.CloseWait?) && c.top.phase.Asleep? && c.top.phase.event !in sh.signalled
  }

  /** An action by which thread t can move, unless it sleeps or waits for the lock. */
  function WayOn(th: Thread): Action {
    if th.ctl.Nil? then Go
    else
      match th.ctl.top
      case InCallback(_, _) => CallbackReturns(StatusSuccess)
      case InDevice(_) => DeviceReturns(StatusSuccess, th.reply)
      case CdDevice(_) => DeviceReturns(StatusSuccess, th.reply)
      case CdWaiting => DeviceReturns(StatusSuccess, th.reply)
      case CdCode => CdReturns(StatusSuccess)
      case PushStack(cfg) => if cfg.cdNone then Go else CdOpens(Opens(StatusSuccess))
      case _ => Go
  }

  lemma CanMove(sh: Shared, t: nat, th: Thread)
    requires th.ctl.Cons? && !SoundAsleep(sh, th.ctl)
    requires sh.owner.None? || Owns(th.ctl)
    ensures ThreadStep(sh, t, th, WayOn(th)).Some?
  {
  }

  lemma SleeperRefs(c: Ctl)
    requires WellFormed(c) && Flat(c) && c.Cons?
    ensures c.top.UnloadWait? ==> TallyOf(c).refs == 1 && TallyOf(c).unloads > 0
    ensures c.top.CloseWait? ==> TallyOf(c).refs == 0
  {
    AfterTop(c);
  }

  /** Somebody other than t holds a reference when there are more than t holds. */
  lemma OtherHolder(s: State, t: nat) returns (u: nat)
    requires CountsOk(s) && t < |s.threads| && Of(Refs, s.threads[t]) < s.sh.refCount
    ensures u < |s.threads| && u != t && Of(Refs, s.threads[u]) > 0
  {
    var idle := NewThread(Nil);
    TotalUpdate(Refs, s.threads, t, idle);
    u := TotalWitness(Refs, s.threads[t := idle]);
  }

  /** With t sound asleep and the lock free, somebody else can move. */
  lemma BehindSleeper(s: State, t: nat) returns (u: nat)
    requires Inv(s) && AllFlat(s) && t < |s.threads| && SoundAsleep(s.sh, s.threads[t].ctl)
    ensures u < |s.threads| && s.threads[u].ctl.Cons? && !SoundAsleep(s.sh, s.threads[u].ctl)
  {
    SleeperRefs(s.threads[t].ctl);
    assert WaitOk(s.sh, WaitingOf(s.threads[t].ctl));
    u := OtherHolder(s, t);
    if SoundAsleep(s.sh, s.threads[u].ctl) {
      SleeperRefs(s.threads[u].ctl);
      assert WaitOk(s.sh, WaitingOf(s.threads[u].ctl));
      var w := OtherHolder(s, u);
      TotalTwo(Unloads, s.threads, u, w);
      if s.threads[w].ctl.Cons? {
        SleeperRefs(s.threads[w].ctl);
      }
      u := w;
    }
  }

  /** A thread that can move, when t is inside a call. */
  lemma Mover(s: State, t: nat) returns (u: nat)
    requires Inv(s) && AllFlat(s) && t < |s.threads| && s.threads[t].ctl.Cons?
    ensures u < |s.threads| && s.threads[u].ctl.Cons? && !SoundAsleep(s.sh, s.threads[u].ctl)
    ensures s.sh.owner.None? || Owns(s.threads[u].ctl)
  {
    if s.sh.owner.Some? {
      u := s.sh.owner.value;
      assert Owns(s.threads[u].ctl);
    } else if SoundAsleep(s.sh, s.threads[t].ctl) {
      u := BehindSleeper(s, t);
    } else {
      u := t;
    }
  }

  /** In every reachable state, unless all calls have returned, some thread can take a step. */
  lemma NoDeadlock(s: State, t: nat)
    requires Reachable(s) && t < |s.threads| && s.threads[t].ctl.Cons?
    ensures exists u: nat, a: Action :: !a.Calls? && Step(s, u, a).Some?
  {
    ReachableInv(s);
    ReachableFlat(s);
    var u := Mover(s, t);
    CanMove(s.sh, u, s.threads[u]);
    assert Step(s, u, WayOn(s.threads[u])).Some?;
  }
}
