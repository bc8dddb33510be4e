/**
 The connection driver's library is never freed while something of it runs, and nothing of it runs
 once it is freed.
 */
module DriverUse {
  import opened IcaTypes
  import opened Control
  import opened StackMachine
  import opened Discipline
  import opened Steps
  import opened Invariant

  /** CD code, running or in one of its windows, or a CD thread. */
  predicate OfCd(i: Item) {
    i.CdCode? || i.CdDevice? || i.CdWaiting? || i.CdRelock? || i.CdThread?
  }

  /** CD code on the control state. */
  predicate UsesCd(c: Ctl) {
    c.Cons? && (OfCd(c.top) || UsesCd(c.rest))
  }

  lemma UsesAbove(a: Item, b: Item, c: Item, rest: Ctl)
    requires !OfCd(a) && !OfCd(b) && !OfCd(c)
    ensures UsesCd(Cons(c, rest)) <==> UsesCd(rest)
    ensures UsesCd(Do2(b, c, rest)) <==> UsesCd(rest)
    ensures UsesCd(Do3(a, b, c, rest)) <==> UsesCd(rest)
  {
  }

  lemma {:induction false} NoRefsNoCd(c: Ctl)
    requires WellFormed(c) && TallyOf(c).refs == 0 && ModeOf(c) != InCdCode
    ensures !UsesCd(c)
    decreases c
  {
    if c.Nil? {
    } else {
      NoRefsNoCd(c.rest);
    }
  }

  /** The last round of the unload loop: the thread that is about to drop its own reference and
      close the CD. */
  predicate AboutToCloseCd(s: State, t: nat) {
    && t < |s.threads|
    && s.threads[t].ctl.Cons?
    && s.threads[t].ctl.top.UnloadWait?
    && s.threads[t].ctl.top.phase.AtHead?
    && s.sh.refCount <= 1
  }

  /** _CdClose frees the CD library only when no thread runs CD code and no CD thread is left. */
  lemma DriverNotInUse(s: State, t: nat, u: nat)
    requires Reachable(s) && AboutToCloseCd(s, t) && u < |s.threads|
    ensures !UsesCd(s.threads[u].ctl)
  {
    ReachableInv(s);
    InvGivesReady(s, t);
    var c := s.threads[t].ctl;
    AfterTop(c);
    if u == t {
      NoRefsNoCd(c.rest);
    } else {
      TotalTwo(Refs, s.threads, t, u);
      PreOfCd(s, t, u);
      NoRefsNoCd(s.threads[u].ctl);
    }
  }

  lemma PreOfCd(s: State, t: nat, u: nat)
    requires Inv(s) && t < |s.threads| && u < |s.threads| && u != t && Owns(s.threads[t].ctl)
    ensures ModeOf(s.threads[u].ctl) != InCdCode
  {
    assert Owns(s.threads[u].ctl) <==> s.sh.owner == Some(u);
  }

  /** What every step but that of an unloader's last round keeps: it lets go neither of the CD's
      library nor of fUnloading, sets the entry points only with the library, and brings CD code onto
      a thread only through them, or from CD code. */
  predicate CdKept(sh: Shared, th: Thread, o: Option<Outcome>) {
    o.Some? ==>
      && (sh.cdDll ==> o.value.sh.cdDll)
      && (sh.unloading ==> o.value.sh.unloading)
      && (o.value.sh.cd ==> sh.cd || o.value.sh.cdDll)
      && (UsesCd(o.value.th.ctl) || o.value.spawns ==> UsesCd(th.ctl) || sh.cd)
  }

  lemma CdCodeKept(sh: Shared, t: nat, th: Thread, a: Action)
    requires th.ctl.Cons? && OfCd(th.ctl.top)
    ensures CdKept(sh, th, CdCodeStep(sh, th, th.ctl.rest, a))
    ensures CdKept(sh, th, CdWaitingStep(sh, th, th.ctl.rest, a))
  {
  }

  lemma CdThreadKept(sh: Shared, t: nat, th: Thread)
    requires th.ctl.Cons? && th.ctl.top.CdThread?
    ensures CdKept(sh, th, CdThreadStep(sh, t, th, th.ctl.top.started, th.ctl.rest))
  {
  }

  lemma FirstPushUses(cfg: Config, rest: Ctl)
    ensures UsesCd(FirstPush(cfg, rest)) <==> UsesCd(rest)
  {
  }

  lemma OpenedKept(sh: Shared, th: Thread, cfg: Config, outcome: CdOutcome)
    requires th.ctl.Cons?
    ensures CdKept(sh, th, CdOpened(sh, th, cfg, th.ctl.rest, outcome))
  {
    FirstPushUses(cfg, th.ctl.rest);
  }

  lemma OpenKept(sh: Shared, th: Thread, cfg: Config, a: Action)
    requires th.ctl.Cons?
    ensures CdKept(sh, th, CdOpenStep(sh, th, cfg, th.ctl.rest, a))
  {
    FirstPushUses(cfg, th.ctl.rest);
    if a.CdOpens? {
      OpenedKept(sh, th, cfg, a.outcome);
    }
  }

  lemma LoadKept(sh: Shared, th: Thread, load: LoadItem)
    requires th.ctl.Cons?
    ensures CdKept(sh, th, Some(LoadStep(sh, th, load, th.ctl.rest)))
  {
    var rest := th.ctl.rest;
    match DecideLoad(sh.closing, th.status, load)
    case LoadGoto(next) => UsesAbove(PopStack, PopStack, Load(next), rest);
    case LoadIssue(code, next) => UsesAbove(PopStack, Io(IoControl(code)), Load(next), rest);
    case LoadUnload(st) => UsesAbove(PopStack, PopStack, Call(Return(st)), rest);
    case LoadReturn(_) =>
  }

  lemma CallKept(sh: Shared, th: Thread, call: CallItem)
    requires th.ctl.Cons?
    ensures CdKept(sh, th, Some(Outcome(sh, CallStep(th, call, th.ctl.rest), false)))
  {
    CallMoveUses(th, DecideCall(th.status, call), th.ctl.rest);
  }

  lemma CallMoveUses(th: Thread, move: CallMove, rest: Ctl)
    ensures UsesCd(MoveCall(th, move, rest).ctl) <==> UsesCd(rest)
  {
    match move
    case CallDone(_) =>
    case CallIssue(code, next) => UsesAbove(PopStack, Io(IoControl(code)), Call(next), rest);
    case CallIssueLast(code) => UsesAbove(PopStack, PopStack, Io(IoControl(code)), rest);
    case CallWork(code) => UsesAbove(PopStack, PopStack, Io(Worker(code)), rest);
    case CallLoad(cfg, next) => UsesAbove(PopStack, PushStack(cfg), Call(next), rest);
    case CallLoadOpen(cfg, code, next) => UsesAbove(PushStack(cfg), Call(OpenEndpointBy(code)), Call(next), rest);
    case CallUnload(st) => UsesAbove(PopStack, PopStack, Call(Return(st)), rest);
  }

  lemma AcceptKept(sh: Shared, th: Thread, acc: AcceptItem)
    requires th.ctl.Cons?
    ensures CdKept(sh, th, Some(Outcome(sh, AcceptStep(th, acc, th.ctl.rest), false)))
  {
    AcceptMoveUses(th, DecideAccept(th.status, th.reply, acc), th.ctl.rest);
  }

  lemma AcceptMoveUses(th: Thread, move: AcceptMove, rest: Ctl)
    ensures UsesCd(MoveAccept(th, move, rest).ctl) <==> UsesCd(rest)
  {
    match move
    case AcceptGoto(next) => UsesAbove(PopStack, PopStack, Accept(next), rest);
    case AcceptIssue(code, next) => UsesAbove(PopStack, Io(IoControl(code)), Accept(next), rest);
    case AcceptIssueTwo(code1, code2, next) =>
      UsesAbove(Io(IoControl(code1)), Io(IoControl(code2)), Accept(next), rest);
    case AcceptLoad(cfg, next) => UsesAbove(PushStack(cfg), Call(OpenEndpointBy(OpenEndpoint)), Accept(next), rest);
    case Accepted => UsesAbove(PopStack, PopStack, AwaitUnlock, rest);
    case Refused(st) => UsesAbove(PopStack, Call(Return(st)), Leave(false), rest);
  }

  lemma IoKept(sh: Shared, th: Thread, io: IoItem)
    requires th.ctl.Cons?
    ensures CdKept(sh, th, IoStep(sh, th, io, th.ctl.rest))
  {
  }

  lemma WindowKept(sh: Shared, t: nat, th: Thread, code: Ioctl, mask: bool, a: Action)
    requires th.ctl.Cons?
    ensures CdKept(sh, th, RelockStep(sh, t, th, mask, th.ctl.rest))
    ensures CdKept(sh, th, DeviceStep(sh, th, code, Cons(Relock, th.ctl.rest), a))
    ensures OfCd(th.ctl.top) ==> CdKept(sh, th, DeviceStep(sh, th, code, Cons(CdRelock(mask), th.ctl.rest), a))
  {
  }

  lemma CallbackKept(sh: Shared, th: Thread, code: Ioctl, a: Action)
    requires th.ctl.Cons?
    ensures CdKept(sh, th, CallbackStep(sh, th, code, th.ctl.rest, a))
  {
    UsesAbove(PopStack, EnterNested(if a.CallbackCalls? then a.code else code), InCallback(code, true), th.ctl.rest);
  }

  lemma UnloadKept(sh: Shared, th: Thread, unl: UnloadItem)
    requires th.ctl.Cons?
    ensures CdKept(sh, th, UnloadStep(sh, th, unl, th.ctl.rest))
  {
    var rest := th.ctl.rest;
    match unl
    case PopLoop => UsesAbove(PopStack, Io(IoControl(Pop)), Unload(PopTest), rest);
    case PopTest =>
      UsesAbove(PopStack, PopStack, Unload(PopLoop), rest);
      UsesAbove(PopStack, Io(IoControl(CdCancelIo)), Unload(PopCancelled), rest);
    case PopCancelled => UsesAbove(PopStack, PopStack, UnloadWait(AtHead, 0, sh.acquired + 1), rest);
  }

  lemma PopStackKept(sh: Shared, th: Thread)
    requires th.ctl.Cons?
    ensures CdKept(sh, th, PopStackStep(sh, th, th.ctl.rest))
  {
  }

  lemma WaitKept(sh: Shared, t: nat, th: Thread, p: Phase, rounds: nat, since: nat)
    requires th.ctl.Cons? && !(p.AtHead? && sh.refCount <= 1)
    ensures CdKept(sh, th, UnloadWaitStep(sh, t, th, p, rounds, since, th.ctl.rest))
  {
  }

  lemma CloseKept(sh: Shared, t: nat, th: Thread, p: Phase, rounds: nat, since: nat)
    requires th.ctl.Cons?
    ensures CdKept(sh, th, CloseWaitStep(sh, t, th, p, rounds, since, th.ctl.rest))
  {
  }

  lemma EnterKept(sh: Shared, t: nat, th: Thread, api: Api)
    requires th.ctl.Cons?
    ensures CdKept(sh, th, EnterStep(sh, t, th, api, th.ctl.rest))
  {
    BodyUses(sh.loaded, api, th.ctl.rest);
  }

  lemma BodyUses(loaded: bool, api: Api, rest: Ctl)
    ensures UsesCd(Body(loaded, api, rest)) <==> UsesCd(rest)
  {
    match api
    case Close => UsesAbove(PopStack, PopStack, CloseBegin, rest);
    case Terminate => UsesAbove(PopStack, Call(Return(StatusSuccess)), Leave(false), rest);
    case ConnectionAccept(cfg, _, rc) => UsesAbove(PopStack, PopStack, Accept(AcceptBegin(cfg, rc, loaded)), rest);
    case _ => UsesAbove(PopStack, Call(Begin(api, loaded)), Leave(false), rest);
  }

  lemma NestedKept(sh: Shared, t: nat, th: Thread, code: Ioctl)
    requires th.ctl.Cons?
    ensures CdKept(sh, th, EnterNestedStep(sh, t, th, code, th.ctl.rest))
  {
    UsesAbove(PopStack, Io(Worker(code)), Leave(true), th.ctl.rest);
  }

  lemma LeaveKept(sh: Shared, th: Thread)
    requires th.ctl.Cons?
    ensures CdKept(sh, th, LeaveStep(sh, th, th.ctl.rest))
  {
  }

  lemma AwaitUnlockKept(sh: Shared, th: Thread, a: Action)
    requires th.ctl.Cons?
    ensures CdKept(sh, th, AwaitUnlockStep(sh, th, th.ctl.rest, a))
  {
    UsesAbove(PopStack, PopStack, Io(IoControl(if a.CallsLocked? then a.code else Pop)), th.ctl);
  }

  lemma LockedKept(sh: Shared, t: nat, th: Thread)
    requires th.ctl.Cons?
    requires th.ctl.top.Io? || th.ctl.top.Load? || th.ctl.top.Call? || th.ctl.top.Accept? || th.ctl.top.PopStack?
    ensures CdKept(sh, th, GoStep(sh, t, th))
  {
    match th.ctl.top
    case Io(io) => IoKept(sh, th, io);
    case Load(load) => LoadKept(sh, th, load);
    case Call(call) => CallKept(sh, th, call);
    case Accept(acc) => AcceptKept(sh, th, acc);
    case PopStack => PopStackKept(sh, th);
  }

  lemma WaitingKept(sh: Shared, t: nat, th: Thread)
    requires th.ctl.Cons? && !(th.ctl.top.UnloadWait? && th.ctl.top.phase.AtHead? && sh.refCount <= 1)
    requires th.ctl.top.Unload? || th.ctl.top.UnloadWait? || th.ctl.top.CloseBegin? || th.ctl.top.CloseWait?
    ensures CdKept(sh, th, GoStep(sh, t, th))
  {
    match th.ctl.top
    case Unload(unl) => UnloadKept(sh, th, unl);
    case UnloadWait(p, rounds, since) => WaitKept(sh, t, th, p, rounds, since);
    case CloseBegin => UsesAbove(PopStack, PopStack, CloseWait(AtHead, 0, sh.acquired), th.ctl.rest);
    case CloseWait(p, rounds, since) => CloseKept(sh, t, th, p, rounds, since);
  }

  lemma GoKept(sh: Shared, t: nat, th: Thread)
    requires th.ctl.Cons? && !(th.ctl.top.UnloadWait? && th.ctl.top.phase.AtHead? && sh.refCount <= 1)
    ensures CdKept(sh, th, GoStep(sh, t, th))
  {
    match th.ctl.top
    case Enter(api) => EnterKept(sh, t, th, api);
    case EnterNested(code) => NestedKept(sh, t, th, code);
    case Leave(_) => LeaveKept(sh, th);
    case Relock => WindowKept(sh, t, th, Pop, false, Go);
    case CdRelock(mask) => WindowKept(sh, t, th, Pop, mask, Go);
    case CdThread(_) => CdThreadKept(sh, t, th);
    case Io(_) => LockedKept(sh, t, th);
    case Load(_) => LockedKept(sh, t, th);
    case Call(_) => LockedKept(sh, t, th);
    case Accept(_) => LockedKept(sh, t, th);
    case PopStack => LockedKept(sh, t, th);
    case Unload(_) => WaitingKept(sh, t, th);
    case UnloadWait(_, _, _) => WaitingKept(sh, t, th);
    case CloseBegin => WaitingKept(sh, t, th);
    case CloseWait(_, _, _) => WaitingKept(sh, t, th);
    case _ =>
  }

  lemma ThreadKept(sh: Shared, t: nat, th: Thread, a: Action)
    requires th.ctl.Cons? && !(th.ctl.top.UnloadWait? && th.ctl.top.phase.AtHead? && sh.refCount <= 1)
    ensures CdKept(sh, th, ThreadStep(sh, t, th, a))
  {
    match th.ctl.top
    case AwaitUnlock => AwaitUnlockKept(sh, th, a);
    case InCallback(code, _) => CallbackKept(sh, th, code, a);
    case InDevice(code) => WindowKept(sh, t, th, code, false, a);
    case CdDevice(code) => WindowKept(sh, t, th, code, !code.Pop?, a);
    case CdWaiting => CdCodeKept(sh, t, th, a);
    case CdCode => CdCodeKept(sh, t, th, a);
    case PushStack(cfg) => OpenKept(sh, th, cfg, a);
    case _ => GoKept(sh, t, th);
  }

  // ---------- over all runs ----------

  /** The CD's entry points are set only while its library is held, and so is it while any thread runs
      CD code or a CD thread is left. */
  ghost predicate CdInv(s: State) {
    && (s.sh.cd ==> s.sh.cdDll)
    && forall u :: 0 <= u < |s.threads| && UsesCd(s.threads[u].ctl) ==> s.sh.cdDll
  }

  lemma LastRoundKeeps(s: State, t: nat, a: Action)
    requires Reachable(s) && AboutToCloseCd(s, t) && Step(s, t, a).Some? && !a.Calls?
    ensures CdInv(Step(s, t, a).value)
  {
    var s1 := Step(s, t, a).value;
    forall u | 0 <= u < |s1.threads|
      ensures !UsesCd(s1.threads[u].ctl)
    {
      DriverNotInUse(s, t, u);
    }
  }

  lemma OtherStepKeeps(s: State, t: nat, a: Action)
    requires CdInv(s) && !AboutToCloseCd(s, t) && Step(s, t, a).Some? && !a.Calls?
    ensures CdInv(Step(s, t, a).value)
  {
    ThreadKept(s.sh, t, s.threads[t], a);
  }

  lemma CallKeepsCd(s: State, t: nat, api: Api)
    requires CdInv(s) && Step(s, t, Calls(api)).Some?
    ensures CdInv(Step(s, t, Calls(api)).value)
  {
    UsesAbove(PopStack, PopStack, Enter(api), Nil);
  }

  lemma {:induction false} RunKeepsCd(n: nat, hasCallback: bool, schedule: seq<Turn>)
    requires Run(Initial(n, hasCallback), schedule).Some?
    ensures CdInv(Run(Initial(n, hasCallback), schedule).value)
    decreases |schedule|
  {
    if schedule == [] {
    } else {
      var last := |schedule| - 1;
      RunKeepsCd(n, hasCallback, schedule[..last]);
      var s := Run(Initial(n, hasCallback), schedule[..last]).value;
      var t, a := schedule[last].t, schedule[last].a;
      assert Reachable(s);
      if a.Calls? {
        CallKeepsCd(s, t, a.api);
      } else if AboutToCloseCd(s, t) {
        LastRoundKeeps(s, t, a);
      } else {
        OtherStepKeeps(s, t, a);
      }
    }
  }

  /** No call is ever sent into a library that is not held, and none is there. */
  lemma NoCodeWithoutDll(s: State, u: nat)
    requires Reachable(s) && u < |s.threads|
    ensures s.sh.cd ==> s.sh.cdDll
    ensures UsesCd(s.threads[u].ctl) ==> s.sh.cdDll
  {
    var n: nat, hasCallback: bool, schedule: seq<Turn> :| Run(Initial(n, hasCallback), schedule) == Some(s);
    RunKeepsCd(n, hasCallback, schedule);
  }

  /** The step lets go of the CD's library. */
  predicate FreesCd(s: State, t: nat, a: Action) {
    Step(s, t, a).Some? && s.sh.cdDll && !Step(s, t, a).value.sh.cdDll
  }

  /** The CD's library is let go only in a step that finds no thread in CD code and no CD thread. */
  lemma FreedUnused(s: State, t: nat, a: Action, u: nat)
    requires Reachable(s) && u < |s.threads|
    ensures FreesCd(s, t, a) ==> !UsesCd(s.threads[u].ctl)
  {
    if FreesCd(s, t, a) {
      if AboutToCloseCd(s, t) {
        DriverNotInUse(s, t, u);
      } else if !a.Calls? {
        ThreadKept(s.sh, t, s.threads[t], a);
      }
    }
  }

  /** The step ends an unload. */
  predicate EndsUnload(s: State, t: nat, a: Action) {
    Step(s, t, a).Some? && s.sh.unloading && !Step(s, t, a).value.sh.unloading
  }

  /** The CD is closed, its entry points are gone, nothing is loaded, no unload event and no reference
      is left, and thread t has the lock. */
  predicate Clean(sh: Shared, t: nat) {
    !sh.cd && !sh.cdDll && !sh.loaded && sh.hUnload.None? && sh.refCount == 0 && sh.owner == Some(t)
  }

  /** An unload ends, in whatever run, cleanly, and in the single step in which the unloader finds its own
      reference to be the last and gives it back. */
  lemma UnloadEndsClean(s: State, t: nat, a: Action)
    requires Reachable(s)
    ensures EndsUnload(s, t, a) ==>
              && AboutToCloseCd(s, t) && s.sh.refCount == 1
              && Clean(Step(s, t, a).value.sh, t)
              && Step(s, t, a).value.sh.modules == s.sh.modules
  {
    if EndsUnload(s, t, a) {
      if !AboutToCloseCd(s, t) {
        ThreadKept(s.sh, t, s.threads[t], a);
      }
      ReachableInv(s);
      InvGivesReady(s, t);
    }
  }

  // ---------- what CD code gets to see ----------

  /** The state after thread t's request (or wait) has ended and it has the lock again. */
  function BackInCd(s: State, t: nat, st: Status, reply: Reply): Option<State> {
    match Step(s, t, DeviceReturns(st, reply))
    case None => None
    case Some(s1) => Step(s1, t, Go)
  }

  /** While the stack is closing, CD code is told CLOSE_PENDING, whatever its wait or its request came
      to; only of a POP, and while the stack is not closing, does it see the status itself. */
  lemma ClosingHidesFromCd(s: State, t: nat, st: Status, reply: Reply)
    requires t < |s.threads| && s.threads[t].ctl.Cons? && s.sh.owner.None?
    requires s.threads[t].ctl.top.CdWaiting? || s.threads[t].ctl.top.CdDevice?
    ensures var c, r := s.threads[t].ctl, BackInCd(s, t, st, reply);
            && r.Some? && r.value.threads[t].ctl == c.rest
            && r.value.sh.owner == Some(t) && r.value.sh.refCount == s.sh.refCount - 1
            && r.value.threads[t].status ==
               (if s.sh.closing && !(c.top.CdDevice? && c.top.code.Pop?) then ClosePending
                else if c.top.CdWaiting? then st
                else DeviceStatus(c.top.code, s.sh.modules, st))
  {
    var s1 := Step(s, t, DeviceReturns(st, reply)).value;
    assert s1.threads[t].ctl.top.CdRelock? && s1.sh.owner.None? && s1.sh.closing == s.sh.closing;
  }
}
