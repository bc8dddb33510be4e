/**
 Each item's step keeps the discipline: the control state it leaves is well formed, and seen
 from outside it is one of the changes of module Discipline.
 */
module Steps {
  import opened IcaTypes
  import opened Control
  import opened StackMachine
  import opened Discipline

  predicate Ready(sh: Shared, t: nat, c: Ctl) {
    c.Cons? && WellFormed(c) && StepPre(sh, t, ViewOf(c))
  }

  predicate OutcomeOk(sh: Shared, t: nat, th: Thread, o: Outcome) {
    && WellFormed(o.th.ctl)
    && !AtEntry(o.th.ctl)
    && StepPost(sh, t, ViewOf(th.ctl), o.sh, ViewOf(o.th.ctl), o.spawns)
  }

  lemma WaitsWithin(c: Ctl)
    ensures TallyOf(c).unloadWaits <= TallyOf(c).unloads && TallyOf(c).closeWaits <= TallyOf(c).closes
  {
  }

  lemma PostOf(i: Item)
    ensures !Post(i).Free? && !Post(i).AtWait?
  {
  }

  lemma PreOf(i: Item)
    ensures !Pre(i).Outside?
    ensures i.Enter? || i.UnloadWait? || i.CloseWait? ==> Pre(i).Free? || Pre(i).AtWait?
  {
  }

  /** What the rest of a well-formed control state looks like once the top item is done. */
  lemma AfterTop(c: Ctl)
    requires c.Cons? && WellFormed(c)
    ensures WellFormed(c.rest) && ModeOf(c.rest) == Post(c.top) && WaitingOf(c.rest).NoWait? && !AtEntry(c.rest)
    ensures Post(c.top).Outside? ==> c.rest.Nil?
    ensures TallyOf(c) == Add(c.top, TallyOf(c.rest))
    ensures c.rest.Nil? ==> TallyOf(c.rest) == NOTHING
    ensures TallyOf(c.rest).unloadWaits <= TallyOf(c.rest).unloads
  {
    WaitsWithin(c.rest);
    PostOf(c.top);
    if c.rest.Cons? {
      PreOf(c.rest.top);
    }
  }

  /** c1 continues a thread that owns the lock: same charge, nothing special on top. */
  predicate Continues(mode: Mode, tally: Tally, c1: Ctl) {
    && WellFormed(c1)
    && !AtEntry(c1)
    && WaitingOf(c1).NoWait?
    && ModeOf(c1) == mode
    && TallyOf(c1) == tally
  }

  lemma BodyFits(loaded: bool, api: Api, rest: Ctl)
    requires WellFormed(Cons(Enter(api), rest))
    ensures Continues(Held, TallyOf(Cons(Enter(api), rest)), Body(loaded, api, rest))
    ensures api.Close? || api.Terminate? ==> ViewOf(Body(loaded, api, rest)).unloadNext
  {
  }

  lemma FirstPushFits(cfg: Config, rest: Ctl)
    requires WellFormed(rest) && ModeOf(rest) == Held
    ensures Continues(Held, TallyOf(rest), FirstPush(cfg, rest))
  {
  }

  lemma LoadFits(sh: Shared, th: Thread, move: LoadMove, pushed: bool, rest: Ctl)
    requires WellFormed(rest) && ModeOf(rest) == Held && WaitingOf(rest).NoWait? && !AtEntry(rest)
    ensures Continues(Held, TallyOf(rest), MoveLoad(sh, th, move, pushed, rest).th.ctl)
  {
  }

  lemma CallFits(th: Thread, move: CallMove, rest: Ctl)
    requires WellFormed(rest) && ModeOf(rest) == Held && WaitingOf(rest).NoWait? && !AtEntry(rest)
    ensures Continues(Held, TallyOf(rest), MoveCall(th, move, rest).ctl)
  {
  }

  lemma AcceptFits(th: Thread, move: AcceptMove, rest: Ctl)
    requires WellFormed(rest) && ModeOf(rest) == Outside
    ensures Continues(Held, TallyOf(rest), MoveAccept(th, move, rest).ctl)
  {
  }

  lemma EnterStepOk(sh: Shared, t: nat, th: Thread)
    requires Ready(sh, t, th.ctl) && th.ctl.top.Enter?
    requires EnterStep(sh, t, th, th.ctl.top.api, th.ctl.rest).Some?
    ensures OutcomeOk(sh, t, th, EnterStep(sh, t, th, th.ctl.top.api, th.ctl.rest).value)
  {
    AfterTop(th.ctl);
    var c1 := EnterStep(sh, t, th, th.ctl.top.api, th.ctl.rest).value.th.ctl;
    BodyFits(sh.loaded, th.ctl.top.api, th.ctl.rest);
    if !th.ctl.top.api.ConnectionAccept? || th.ctl.top.api.endpoint {
      EnterOk(sh, t, ViewOf(th.ctl), ViewOf(c1), th.ctl.top.api.Close? || th.ctl.top.api.Terminate?);
    } else {
      QuietOk(sh, t, ViewOf(th.ctl), sh, ViewOf(c1));
    }
  }

  lemma EnterNestedStepOk(sh: Shared, t: nat, th: Thread)
    requires Ready(sh, t, th.ctl) && th.ctl.top.EnterNested?
    requires EnterNestedStep(sh, t, th, th.ctl.top.code, th.ctl.rest).Some?
    ensures OutcomeOk(sh, t, th, EnterNestedStep(sh, t, th, th.ctl.top.code, th.ctl.rest).value)
  {
    AfterTop(th.ctl);
    LockOk(sh, t, ViewOf(th.ctl), ViewOf(EnterNestedStep(sh, t, th, th.ctl.top.code, th.ctl.rest).value.th.ctl));
  }

  lemma LeaveStepOk(sh: Shared, t: nat, th: Thread)
    requires Ready(sh, t, th.ctl) && th.ctl.top.Leave?
    requires LeaveStep(sh, th, th.ctl.rest).Some?
    ensures OutcomeOk(sh, t, th, LeaveStep(sh, th, th.ctl.rest).value)
  {
    AfterTop(th.ctl);
    UnlockOk(sh, t, ViewOf(th.ctl), ViewOf(th.ctl.rest));
  }

  lemma AwaitUnlockStepOk(sh: Shared, t: nat, th: Thread, a: Action)
    requires Ready(sh, t, th.ctl) && th.ctl.top.AwaitUnlock?
    requires AwaitUnlockStep(sh, th, th.ctl.rest, a).Some?
    ensures OutcomeOk(sh, t, th, AwaitUnlockStep(sh, th, th.ctl.rest, a).value)
  {
    AfterTop(th.ctl);
    if a.Go? {
      UnlockOk(sh, t, ViewOf(th.ctl), ViewOf(th.ctl.rest));
    } else {
      QuietOk(sh, t, ViewOf(th.ctl), sh, ViewOf(AwaitUnlockStep(sh, th, th.ctl.rest, a).value.th.ctl));
    }
  }

  lemma IoStepOk(sh: Shared, t: nat, th: Thread)
    requires Ready(sh, t, th.ctl) && th.ctl.top.Io?
    requires IoStep(sh, th, th.ctl.top.io, th.ctl.rest).Some?
    ensures OutcomeOk(sh, t, th, IoStep(sh, th, th.ctl.top.io, th.ctl.rest).value)
  {
    AfterTop(th.ctl);
    var v1 := ViewOf(IoStep(sh, th, th.ctl.top.io, th.ctl.rest).value.th.ctl);
    if (th.ctl.top.io.IoControl? && sh.hasCallback) || (th.ctl.top.io.Worker? && !sh.cd) {
      OpenWindowOk(sh, t, ViewOf(th.ctl), v1);
    } else {
      QuietOk(sh, t, ViewOf(th.ctl), sh, v1);
    }
  }

  lemma CallbackStepOk(sh: Shared, t: nat, th: Thread, a: Action)
    requires Ready(sh, t, th.ctl) && th.ctl.top.InCallback?
    requires CallbackStep(sh, th, th.ctl.top.code, th.ctl.rest, a).Some?
    ensures OutcomeOk(sh, t, th, CallbackStep(sh, th, th.ctl.top.code, th.ctl.rest, a).value)
  {
    AfterTop(th.ctl);
    QuietOk(sh, t, ViewOf(th.ctl), sh, ViewOf(CallbackStep(sh, th, th.ctl.top.code, th.ctl.rest, a).value.th.ctl));
  }

  lemma DeviceStepOk(sh: Shared, t: nat, th: Thread, a: Action)
    requires Ready(sh, t, th.ctl) && th.ctl.top.InDevice?
    requires DeviceStep(sh, th, th.ctl.top.code, Cons(Relock, th.ctl.rest), a).Some?
    ensures OutcomeOk(sh, t, th, DeviceStep(sh, th, th.ctl.top.code, Cons(Relock, th.ctl.rest), a).value)
  {
    AfterTop(th.ctl);
    var c1 := Cons(Relock, th.ctl.rest);
    QuietOk(sh, t, ViewOf(th.ctl), DeviceStep(sh, th, th.ctl.top.code, c1, a).value.sh, ViewOf(c1));
  }

  lemma CdDeviceStepOk(sh: Shared, t: nat, th: Thread, a: Action)
    requires Ready(sh, t, th.ctl) && th.ctl.top.CdDevice?
    requires DeviceStep(sh, th, th.ctl.top.code, Cons(CdRelock(!th.ctl.top.code.Pop?), th.ctl.rest), a).Some?
    ensures OutcomeOk(sh, t, th,
                DeviceStep(sh, th, th.ctl.top.code, Cons(CdRelock(!th.ctl.top.code.Pop?), th.ctl.rest), a).value)
  {
    AfterTop(th.ctl);
    var c1 := Cons(CdRelock(!th.ctl.top.code.Pop?), th.ctl.rest);
    QuietOk(sh, t, ViewOf(th.ctl), DeviceStep(sh, th, th.ctl.top.code, c1, a).value.sh, ViewOf(c1));
  }

  lemma CdWaitingStepOk(sh: Shared, t: nat, th: Thread, a: Action)
    requires Ready(sh, t, th.ctl) && th.ctl.top.CdWaiting?
    requires CdWaitingStep(sh, th, th.ctl.rest, a).Some?
    ensures OutcomeOk(sh, t, th, CdWaitingStep(sh, th, th.ctl.rest, a).value)
  {
    AfterTop(th.ctl);
    QuietOk(sh, t, ViewOf(th.ctl), sh, ViewOf(Cons(CdRelock(true), th.ctl.rest)));
  }

  lemma RelockStepOk(sh: Shared, t: nat, th: Thread)
    requires Ready(sh, t, th.ctl) && th.ctl.top.Relock?
    requires RelockStep(sh, t, th, false, th.ctl.rest).Some?
    ensures OutcomeOk(sh, t, th, RelockStep(sh, t, th, false, th.ctl.rest).value)
  {
    AfterTop(th.ctl);
    CloseWindowOk(sh, t, ViewOf(th.ctl), ViewOf(th.ctl.rest));
  }

  lemma CdRelockStepOk(sh: Shared, t: nat, th: Thread)
    requires Ready(sh, t, th.ctl) && th.ctl.top.CdRelock?
    requires RelockStep(sh, t, th, th.ctl.top.mask, th.ctl.rest).Some?
    ensures OutcomeOk(sh, t, th, RelockStep(sh, t, th, th.ctl.top.mask, th.ctl.rest).value)
  {
    AfterTop(th.ctl);
    CloseWindowOk(sh, t, ViewOf(th.ctl), ViewOf(th.ctl.rest));
  }

  lemma CdCodeStepOk(sh: Shared, t: nat, th: Thread, a: Action)
    requires Ready(sh, t, th.ctl) && th.ctl.top.CdCode?
    requires CdCodeStep(sh, th, th.ctl.rest, a).Some?
    ensures OutcomeOk(sh, t, th, CdCodeStep(sh, th, th.ctl.rest, a).value)
  {
    AfterTop(th.ctl);
    var v1 := ViewOf(CdCodeStep(sh, th, th.ctl.rest, a).value.th.ctl);
    match a
    case CdForwards(_) => OpenWindowOk(sh, t, ViewOf(th.ctl), v1);
    case CdWaits => OpenWindowOk(sh, t, ViewOf(th.ctl), v1);
    case CdSpawns => SpawnOk(sh, t, ViewOf(th.ctl));
    case CdReturns(_) => QuietOk(sh, t, ViewOf(th.ctl), sh, v1);
  }

  lemma CdThreadStepOk(sh: Shared, t: nat, th: Thread)
    requires Ready(sh, t, th.ctl) && th.ctl.top.CdThread?
    requires CdThreadStep(sh, t, th, th.ctl.top.started, th.ctl.rest).Some?
    ensures OutcomeOk(sh, t, th, CdThreadStep(sh, t, th, th.ctl.top.started, th.ctl.rest).value)
  {
    AfterTop(th.ctl);
    if th.ctl.top.started {
      CdThreadExitOk(sh, t, ViewOf(th.ctl), ViewOf(th.ctl.rest));
    } else {
      LockOk(sh, t, ViewOf(th.ctl), ViewOf(CdThreadStep(sh, t, th, th.ctl.top.started, th.ctl.rest).value.th.ctl));
    }
  }

  lemma CdOpenedResults(sh: Shared, th: Thread, cfg: Config, rest: Ctl, outcome: CdOutcome)
    requires CdOpened(sh, th, cfg, rest, outcome).Some?
    ensures var o := CdOpened(sh, th, cfg, rest, outcome).value;
            && (o.th.ctl == FirstPush(cfg, rest) || o.th.ctl == rest)
            && o.sh == sh.(cd := o.sh.cd, cdDll := o.sh.cdDll)
            && !o.spawns
  {
  }

  lemma CdOpenStepOk(sh: Shared, t: nat, th: Thread, a: Action)
    requires Ready(sh, t, th.ctl) && th.ctl.top.PushStack?
    requires CdOpenStep(sh, th, th.ctl.top.cfg, th.ctl.rest, a).Some?
    ensures OutcomeOk(sh, t, th, CdOpenStep(sh, th, th.ctl.top.cfg, th.ctl.rest, a).value)
  {
    AfterTop(th.ctl);
    if !th.ctl.top.cfg.cdNone {
      CdOpenedResults(sh, th, th.ctl.top.cfg, th.ctl.rest, a.outcome);
    }
    FirstPushFits(th.ctl.top.cfg, th.ctl.rest);
    var o := CdOpenStep(sh, th, th.ctl.top.cfg, th.ctl.rest, a).value;
    QuietOk(sh, t, ViewOf(th.ctl), o.sh, ViewOf(o.th.ctl));
  }

  lemma LoadStepOk(sh: Shared, t: nat, th: Thread)
    requires Ready(sh, t, th.ctl) && th.ctl.top.Load?
    ensures OutcomeOk(sh, t, th, LoadStep(sh, th, th.ctl.top.load, th.ctl.rest))
  {
    AfterTop(th.ctl);
    LoadFits(sh, th, DecideLoad(sh.closing, th.status, th.ctl.top.load), th.ctl.top.load.AfterPush?, th.ctl.rest);
    var o := LoadStep(sh, th, th.ctl.top.load, th.ctl.rest);
    if o.sh == sh {
      QuietOk(sh, t, ViewOf(th.ctl), sh, ViewOf(o.th.ctl));
    } else {
      LoadedOk(sh, t, ViewOf(th.ctl), ViewOf(o.th.ctl));
    }
  }

  lemma CallStepOk(sh: Shared, t: nat, th: Thread)
    requires Ready(sh, t, th.ctl) && th.ctl.top.Call?
    ensures OutcomeOk(sh, t, th, Outcome(sh, CallStep(th, th.ctl.top.call, th.ctl.rest), false))
  {
    AfterTop(th.ctl);
    CallFits(th, DecideCall(th.status, th.ctl.top.call), th.ctl.rest);
    QuietOk(sh, t, ViewOf(th.ctl), sh, ViewOf(CallStep(th, th.ctl.top.call, th.ctl.rest).ctl));
  }

  lemma AcceptStepOk(sh: Shared, t: nat, th: Thread)
    requires Ready(sh, t, th.ctl) && th.ctl.top.Accept?
    ensures OutcomeOk(sh, t, th, Outcome(sh, AcceptStep(th, th.ctl.top.acc, th.ctl.rest), false))
  {
    AfterTop(th.ctl);
    AcceptFits(th, DecideAccept(th.status, th.reply, th.ctl.top.acc), th.ctl.rest);
    QuietOk(sh, t, ViewOf(th.ctl), sh, ViewOf(AcceptStep(th, th.ctl.top.acc, th.ctl.rest).ctl));
  }

  lemma PopStackStepOk(sh: Shared, t: nat, th: Thread)
    requires Ready(sh, t, th.ctl) && th.ctl.top.PopStack?
    requires PopStackStep(sh, th, th.ctl.rest).Some?
    ensures OutcomeOk(sh, t, th, PopStackStep(sh, th, th.ctl.rest).value)
  {
    AfterTop(th.ctl);
    var v1 := ViewOf(PopStackStep(sh, th, th.ctl.rest).value.th.ctl);
    if sh.unloading {
      UnloadSkippedOk(sh, t, ViewOf(th.ctl), v1);
    } else {
      UnloadBeginsOk(sh, t, ViewOf(th.ctl), v1);
    }
  }

  lemma PopCancelledOk(sh: Shared, t: nat, th: Thread)
    requires Ready(sh, t, th.ctl) && th.ctl.top == Unload(PopCancelled)
    ensures OutcomeOk(sh, t, th, UnloadStep(sh, th, PopCancelled, th.ctl.rest).value)
  {
    AfterTop(th.ctl);
    UnloadRefOk(sh, t, ViewOf(th.ctl), TallyOf(th.ctl.rest));
  }

  lemma UnloadFits(sh: Shared, th: Thread, unl: UnloadItem, rest: Ctl)
    requires WellFormed(rest) && ModeOf(rest) == Held && !unl.PopCancelled?
    ensures Continues(Held, AddUnload(TallyOf(rest)), UnloadStep(sh, th, unl, rest).value.th.ctl)
    ensures UnloadStep(sh, th, unl, rest).value.sh == sh && !UnloadStep(sh, th, unl, rest).value.spawns
  {
  }

  lemma UnloadStepOk(sh: Shared, t: nat, th: Thread)
    requires Ready(sh, t, th.ctl) && th.ctl.top.Unload? && !th.ctl.top.unl.PopCancelled?
    ensures OutcomeOk(sh, t, th, UnloadStep(sh, th, th.ctl.top.unl, th.ctl.rest).value)
  {
    AfterTop(th.ctl);
    UnloadFits(sh, th, th.ctl.top.unl, th.ctl.rest);
    QuietOk(sh, t, ViewOf(th.ctl), sh, ViewOf(UnloadStep(sh, th, th.ctl.top.unl, th.ctl.rest).value.th.ctl));
  }

  lemma UnloadTestOk(sh: Shared, t: nat, th: Thread)
    requires Ready(sh, t, th.ctl) && th.ctl.top.UnloadWait? && th.ctl.top.phase.AtHead?
    requires UnloadWaitStep(sh, t, th, th.ctl.top.phase, th.ctl.top.rounds, th.ctl.top.since, th.ctl.rest).Some?
    ensures OutcomeOk(sh, t, th,
                UnloadWaitStep(sh, t, th, th.ctl.top.phase, th.ctl.top.rounds, th.ctl.top.since, th.ctl.rest).value)
  {
    AfterTop(th.ctl);
    var i := th.ctl.top;
    if sh.refCount > 1 {
      UnloadSleepsOk(sh, t, ViewOf(th.ctl), i.rounds, i.since);
    } else {
      UnloadFinishesOk(sh, t, ViewOf(th.ctl), i.rounds, i.since, ViewOf(th.ctl.rest));
    }
  }

  lemma UnloadWakeOk(sh: Shared, t: nat, th: Thread)
    requires Ready(sh, t, th.ctl) && th.ctl.top.UnloadWait? && !th.ctl.top.phase.AtHead?
    requires UnloadWaitStep(sh, t, th, th.ctl.top.phase, th.ctl.top.rounds, th.ctl.top.since, th.ctl.rest).Some?
    ensures OutcomeOk(sh, t, th,
                UnloadWaitStep(sh, t, th, th.ctl.top.phase, th.ctl.top.rounds, th.ctl.top.since, th.ctl.rest).value)
  {
    AfterTop(th.ctl);
    var i := th.ctl.top;
    if i.phase.Asleep? {
      UnloadWakesOk(sh, t, ViewOf(th.ctl), i.phase.event, i.rounds, i.since);
    } else {
      UnloadRelocksOk(sh, t, ViewOf(th.ctl), i.phase.event, i.rounds, i.since);
    }
  }

  lemma CloseBeginStepOk(sh: Shared, t: nat, th: Thread)
    requires Ready(sh, t, th.ctl) && th.ctl.top.CloseBegin?
    requires To(sh, th, Cons(CloseWait(AtHead, 0, sh.acquired), th.ctl.rest)).Some?
    ensures OutcomeOk(sh, t, th, To(sh, th, Cons(CloseWait(AtHead, 0, sh.acquired), th.ctl.rest)).value)
  {
    AfterTop(th.ctl);
    CloseBeginsOk(sh, t, ViewOf(th.ctl));
  }

  lemma CloserAlone(c: Ctl)
    requires c.Cons? && c.top.CloseWait? && c.rest.Nil?
    ensures WellFormed(c) && !AtEntry(c)
    ensures TallyOf(c) == AddClose(NOTHING, Bit(!c.top.phase.AtHead?))
  {
  }

  lemma CloseTestOk(sh: Shared, t: nat, th: Thread)
    requires Ready(sh, t, th.ctl) && th.ctl.top.CloseWait? && th.ctl.top.phase.AtHead?
    ensures OutcomeOk(sh, t, th,
                CloseWaitStep(sh, t, th, AtHead, th.ctl.top.rounds, th.ctl.top.since, th.ctl.rest).value)
  {
    AfterTop(th.ctl);
    CloserAlone(th.ctl);
    var i := th.ctl.top;
    if sh.refCount > 0 {
      CloserAlone(Cons(CloseWait(Asleep(sh.nextEvent), i.rounds + 1, i.since), Nil));
      CloseSleepsOk(sh, t, ViewOf(th.ctl), i.rounds, i.since);
    } else {
      CloseFreesOk(sh, t, ViewOf(th.ctl), i.rounds, i.since);
    }
  }

  lemma CloseWakeOk(sh: Shared, t: nat, th: Thread)
    requires Ready(sh, t, th.ctl) && th.ctl.top.CloseWait? && th.ctl.top.phase.Asleep?
    requires CloseWaitStep(sh, t, th, th.ctl.top.phase, th.ctl.top.rounds, th.ctl.top.since, th.ctl.rest).Some?
    ensures OutcomeOk(sh, t, th,
                CloseWaitStep(sh, t, th, th.ctl.top.phase, th.ctl.top.rounds, th.ctl.top.since, th.ctl.rest).value)
  {
    AfterTop(th.ctl);
    CloserAlone(th.ctl);
    var i := th.ctl.top;
    CloserAlone(Cons(CloseWait(Awake(i.phase.event), i.rounds, i.since), Nil));
    CloseWakesOk(sh, t, ViewOf(th.ctl), i.phase.event, i.rounds, i.since);
  }

  lemma CloseRelockOk(sh: Shared, t: nat, th: Thread)
    requires Ready(sh, t, th.ctl) && th.ctl.top.CloseWait? && th.ctl.top.phase.Awake?
    requires CloseWaitStep(sh, t, th, th.ctl.top.phase, th.ctl.top.rounds, th.ctl.top.since, th.ctl.rest).Some?
    ensures OutcomeOk(sh, t, th,
                CloseWaitStep(sh, t, th, th.ctl.top.phase, th.ctl.top.rounds, th.ctl.top.since, th.ctl.rest).value)
  {
    AfterTop(th.ctl);
    var i := th.ctl.top;
    var c1 := Cons(CloseWait(AtHead, i.rounds, i.since), Nil);
    CloserAlone(c1);
    CloseRelocksOk(sh, t, ViewOf(th.ctl), i.phase.event, i.rounds, i.since);
  }

  /** Every step a thread can take keeps the discipline. */
  lemma ThreadStepOk(sh: Shared, t: nat, th: Thread, a: Action)
    requires Ready(sh, t, th.ctl) && ThreadStep(sh, t, th, a).Some?
    ensures OutcomeOk(sh, t, th, ThreadStep(sh, t, th, a).value)
  {
    match th.ctl.top
    case Enter(_) => EnterStepOk(sh, t, th);
    case EnterNested(_) => EnterNestedStepOk(sh, t, th);
    case Leave(_) => LeaveStepOk(sh, t, th);
    case AwaitUnlock => AwaitUnlockStepOk(sh, t, th, a);
    case Io(_) => IoStepOk(sh, t, th);
    case InCallback(_, _) => CallbackStepOk(sh, t, th, a);
    case InDevice(_) => DeviceStepOk(sh, t, th, a);
    case CdDevice(_) => CdDeviceStepOk(sh, t, th, a);
    case CdWaiting => CdWaitingStepOk(sh, t, th, a);
    case Relock => RelockStepOk(sh, t, th);
    case CdRelock(_) => CdRelockStepOk(sh, t, th);
    case CdCode => CdCodeStepOk(sh, t, th, a);
    case CdThread(_) => CdThreadStepOk(sh, t, th);
    case PushStack(_) => CdOpenStepOk(sh, t, th, a);
    case Load(_) => LoadStepOk(sh, t, th);
    case Call(_) => CallStepOk(sh, t, th);
    case Accept(_) => AcceptStepOk(sh, t, th);
    case PopStack => PopStackStepOk(sh, t, th);
    case Unload(unl) => if unl.PopCancelled? { PopCancelledOk(sh, t, th); } else { UnloadStepOk(sh, t, th); }
    case UnloadWait(p, _, _) => if p.AtHead? { UnloadTestOk(sh, t, th); } else { UnloadWakeOk(sh, t, th); }
    case CloseBegin => CloseBeginStepOk(sh, t, th);
    case CloseWait(p, _, _) => 
      if p.AtHead? {
        CloseTestOk(sh, t, th);
      } else if p.Asleep? {
        CloseWakeOk(sh, t, th);
      } else {
        CloseRelockOk(sh, t, th);
      }
  }
}
