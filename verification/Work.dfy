/**
 How much a thread still has to do when every request but POP fails and neither the callback nor the
 connection driver asks for more: a measure that each of its steps makes smaller, unless it sleeps.
 */
module Work {
  import opened IcaTypes
  import opened Control
  import opened StackMachine

  const FAILED := OtherError(0)

  /** The action that ends a thread's stay outside the lock without further requests. */
  function Ending(th: Thread): Action {
    if th.ctl.Nil? then Go
    else
      match th.ctl.top
      case InCallback(_, _) => CallbackReturns(FAILED)
      case InDevice(_) => DeviceReturns(FAILED, th.reply)
      case CdDevice(_) => DeviceReturns(FAILED, th.reply)
      case CdWaiting => DeviceReturns(FAILED, th.reply)
      case CdCode => CdReturns(FAILED)
      case PushStack(cfg) => if cfg.cdNone then Go else CdOpens(LoadFails)
      case _ => Go
  }

  // ---------- how much is left to do ----------

  /** A status that lets a call go on. */
  predicate Good(st: Status) {
    st.Ok() || st.ObjectNameNotFound?
  }

  function LoadWork(load: LoadItem, good: bool): nat {
    match load
    case PushNext(_, _) => 55
    case AfterPush(_) => if good then 56 else 44
    case StackClosing => 12
    case StackClosingTest => if good then 13 else 1
  }

  function CallWork(call: CallItem): nat {
    match call
    case Begin(_, _) => 170
    case OpenEndpointBy(_) => 55
    case EndpointDone => 44
    case IfLoaded(_) => 55
    case AfterIoctl(_) => 44
    case IfLoadedClose => 55
    case IfLoadedConsole => 11
    case UnloadKeepingStatus => 44
    case Return(_) => 1
  }

  function AcceptWork(acc: AcceptItem, good: bool): nat {
    match acc
    case AcceptBegin(_, _, _) => 180
    case AcceptSetup(_, _) => 66
    case AcceptQueried(_) => 57
    case AcceptPds(_, _, _, _) => 56
    case _ => if good then 67 else 45
  }

  function UnloadWork(unl: UnloadItem, good: bool): nat {
    match unl
    case PopLoop => 40
    case PopTest => if good then 41 else 25
    case PopCancelled => 10
  }

  function PhaseWork(p: Phase): nat {
    match p
    case AtHead => 3
    case Asleep(_) => 2
    case Awake(_) => 4
  }

  /** The steps an item may still cost when every request fails; `good` tells whether the status it
      starts from lets it go on. */
  function Work(i: Item, good: bool): nat {
    match i
    case Enter(_) => 200
    case EnterNested(_) => 12
    case Leave(_) => 1
    case AwaitUnlock => 1
    case Io(io) => if io.IoControl? then 10 else if io.Worker? then 9 else 2
    case InCallback(_, _) => 6
    case InDevice(_) => 5
    case Relock => 1
    case CdCode => 3
    case CdDevice(_) => 5
    case CdWaiting => 5
    case CdRelock(_) => 1
    case CdThread(started) => if started then 1 else 6
    case PushStack(_) => 57
    case Load(load) => LoadWork(load, good)
    case Call(call) => CallWork(call)
    case Accept(acc) => AcceptWork(acc, good)
    case PopStack => 42
    case Unload(unl) => UnloadWork(unl, good)
    case UnloadWait(p, _, _) => PhaseWork(p)
    case CloseBegin => 5
    case CloseWait(p, _, _) => PhaseWork(p)
  }

  /** Whether the status may be good once an item is done. */
  predicate After(i: Item, good: bool) {
    match i
    case EnterNested(_) => false
    case Io(io) => io.CdMask? && good
    case InCallback(_, _) => false
    case InDevice(_) => false
    case Relock => good
    case CdCode => false
    case CdDevice(_) => false
    case CdWaiting => false
    case CdRelock(_) => good
    case PushStack(_) => false
    case Load(load) => load.AfterPush? && good
    case Call(call) => call.Return? ==> Good(call.status)
    case Leave(_) => good
    case _ => true
  }

  function WorkLeft(c: Ctl, good: bool): nat {
    if c.Nil? then 0 else Work(c.top, good) + WorkLeft(c.rest, After(c.top, good))
  }

  lemma WorkGrows(c: Ctl, good: bool)
    ensures WorkLeft(c, false) <= WorkLeft(c, good) <= WorkLeft(c, true)
    decreases c
  {
    if c.Nil? {
    } else {
      WorkGrows(c.rest, After(c.top, false));
      WorkGrows(c.rest, After(c.top, true));
    }
  }

  function WorkOf(th: Thread): nat {
    WorkLeft(th.ctl, Good(th.status))
  }

  /** Less is left to do: a module fewer, or the same modules and less code ahead. */
  predicate Shrinks(sh: Shared, th: Thread, o: Outcome) {
    && !o.spawns
    && |o.sh.modules| <= |sh.modules|
    && (|o.sh.modules| == |sh.modules| ==> WorkOf(o.th) < WorkOf(th))
  }

  // ---------- replacing the item on top ----------

  lemma Drops(th: Thread, th1: Thread)
    requires th.ctl.Cons? && th1.ctl == th.ctl.rest && Work(th.ctl.top, Good(th.status)) > 0
    requires Good(th1.status) ==> After(th.ctl.top, Good(th.status))
    ensures WorkOf(th1) < WorkOf(th)
  {
    WorkGrows(th1.ctl, Good(th1.status));
    WorkGrows(th1.ctl, After(th.ctl.top, Good(th.status)));
  }

  lemma Becomes(th: Thread, th1: Thread, a: Item)
    requires th.ctl.Cons? && th1.ctl == Cons(a, th.ctl.rest)
    requires Work(a, Good(th1.status)) < Work(th.ctl.top, Good(th.status))
    requires After(a, Good(th1.status)) ==> After(th.ctl.top, Good(th.status))
    ensures WorkOf(th1) < WorkOf(th)
  {
    WorkGrows(th.ctl.rest, After(a, Good(th1.status)));
    WorkGrows(th.ctl.rest, After(th.ctl.top, Good(th.status)));
  }

  lemma BecomesTwo(th: Thread, th1: Thread, a: Item, b: Item)
    requires th.ctl.Cons? && th1.ctl == Do2(a, b, th.ctl.rest)
    requires Work(a, Good(th1.status)) + Work(b, After(a, Good(th1.status))) < Work(th.ctl.top, Good(th.status))
    requires After(b, After(a, Good(th1.status))) ==> After(th.ctl.top, Good(th.status))
    ensures WorkOf(th1) < WorkOf(th)
  {
    var g := After(a, Good(th1.status));
    assert WorkLeft(Cons(b, th.ctl.rest), g) == Work(b, g) + WorkLeft(th.ctl.rest, After(b, g));
    WorkGrows(th.ctl.rest, After(b, g));
    WorkGrows(th.ctl.rest, After(th.ctl.top, Good(th.status)));
  }

  lemma BecomesThree(th: Thread, th1: Thread, a: Item, b: Item, c: Item)
    requires th.ctl.Cons? && th1.ctl == Do3(a, b, c, th.ctl.rest)
    requires var g := After(a, Good(th1.status));
             Work(a, Good(th1.status)) + Work(b, g) + Work(c, After(b, g)) < Work(th.ctl.top, Good(th.status))
    requires After(c, After(b, After(a, Good(th1.status)))) ==> After(th.ctl.top, Good(th.status))
    ensures WorkOf(th1) < WorkOf(th)
  {
    var g := After(a, Good(th1.status));
    var h := After(b, g);
    assert WorkLeft(Cons(c, th.ctl.rest), h) == Work(c, h) + WorkLeft(th.ctl.rest, After(c, h));
    assert WorkLeft(Do2(b, c, th.ctl.rest), g) == Work(b, g) + WorkLeft(Cons(c, th.ctl.rest), h);
    WorkGrows(th.ctl.rest, After(c, h));
    WorkGrows(th.ctl.rest, After(th.ctl.top, Good(th.status)));
  }

  // ---------- item by item ----------

  lemma EnterToClose(sh: Shared, t: nat, th: Thread, api: Api)
    requires th.ctl.Cons? && th.ctl.top.Enter? && sh.owner.None? && (api.Close? || api.Terminate?)
    ensures Shrinks(sh, th, EnterStep(sh, t, th, api, th.ctl.rest).value)
  {
    var o := EnterStep(sh, t, th, api, th.ctl.rest).value;
    if api.Close? {
      BecomesTwo(th, o.th, PopStack, CloseBegin);
    } else {
      BecomesThree(th, o.th, PopStack, Call(Return(StatusSuccess)), Leave(false));
    }
  }

  lemma EnterToAccept(sh: Shared, t: nat, th: Thread, api: Api)
    requires th.ctl.Cons? && th.ctl.top.Enter? && api.ConnectionAccept? && EnterStep(sh, t, th, api, th.ctl.rest).Some?
    ensures Shrinks(sh, th, EnterStep(sh, t, th, api, th.ctl.rest).value)
  {
    var o := EnterStep(sh, t, th, api, th.ctl.rest).value;
    if api.endpoint {
      Becomes(th, o.th, Accept(AcceptBegin(api.cfg, api.reconnect, sh.loaded)));
    } else {
      Drops(th, o.th);
    }
  }

  lemma EnterToCall(sh: Shared, t: nat, th: Thread, api: Api)
    requires th.ctl.Cons? && th.ctl.top.Enter? && sh.owner.None? && !api.Close? && !api.Terminate?
             && !api.ConnectionAccept?
    ensures Shrinks(sh, th, EnterStep(sh, t, th, api, th.ctl.rest).value)
  {
    var c := Do2(Call(Begin(api, sh.loaded)), Leave(false), th.ctl.rest);
    assert Body(sh.loaded, api, th.ctl.rest) == c;
    BecomesTwo(th, th.(ctl := c), Call(Begin(api, sh.loaded)), Leave(false));
  }

  lemma EnterShrinks(sh: Shared, t: nat, th: Thread)
    requires th.ctl.Cons? && th.ctl.top.Enter? && EnterStep(sh, t, th, th.ctl.top.api, th.ctl.rest).Some?
    ensures Shrinks(sh, th, EnterStep(sh, t, th, th.ctl.top.api, th.ctl.rest).value)
  {
    var api := th.ctl.top.api;
    if api.Close? || api.Terminate? {
      EnterToClose(sh, t, th, api);
    } else if api.ConnectionAccept? {
      EnterToAccept(sh, t, th, api);
    } else {
      EnterToCall(sh, t, th, api);
    }
  }

  lemma NestedShrinks(sh: Shared, t: nat, th: Thread)
    requires th.ctl.Cons? && th.ctl.top.EnterNested? && EnterNestedStep(sh, t, th, th.ctl.top.code, th.ctl.rest).Some?
    ensures Shrinks(sh, th, EnterNestedStep(sh, t, th, th.ctl.top.code, th.ctl.rest).value)
  {
    BecomesTwo(th, EnterNestedStep(sh, t, th, th.ctl.top.code, th.ctl.rest).value.th, Io(Worker(th.ctl.top.code)),
        Leave(true));
  }

  lemma IoControlShrinks(sh: Shared, th: Thread, code: Ioctl)
    requires th.ctl.Cons? && th.ctl.top == Io(IoControl(code))
    ensures Shrinks(sh, th, IoStep(sh, th, IoControl(code), th.ctl.rest).value)
  {
    var o := IoStep(sh, th, IoControl(code), th.ctl.rest).value;
    if sh.hasCallback {
      Becomes(th, o.th, InCallback(code, false));
    } else {
      Becomes(th, o.th, Io(Worker(code)));
    }
  }

  lemma WorkerShrinks(sh: Shared, th: Thread, code: Ioctl)
    requires th.ctl.Cons? && th.ctl.top == Io(Worker(code))
    ensures Shrinks(sh, th, IoStep(sh, th, Worker(code), th.ctl.rest).value)
  {
    var o := IoStep(sh, th, Worker(code), th.ctl.rest).value;
    if sh.cd {
      BecomesTwo(th, o.th, CdCode, Io(CdMask(code)));
    } else {
      Becomes(th, o.th, InDevice(code));
    }
  }

  lemma MaskShrinks(sh: Shared, th: Thread, code: Ioctl)
    requires th.ctl.Cons? && th.ctl.top == Io(CdMask(code))
    ensures Shrinks(sh, th, IoStep(sh, th, CdMask(code), th.ctl.rest).value)
  {
    Drops(th, IoStep(sh, th, CdMask(code), th.ctl.rest).value.th);
  }

  lemma CallbackShrinks(sh: Shared, th: Thread)
    requires th.ctl.Cons? && th.ctl.top.InCallback?
    ensures Shrinks(sh, th, CallbackStep(sh, th, th.ctl.top.code, th.ctl.rest, CallbackReturns(FAILED)).value)
  {
    Becomes(th, CallbackStep(sh, th, th.ctl.top.code, th.ctl.rest, CallbackReturns(FAILED)).value.th, Relock);
  }

  lemma RelockShrinks(sh: Shared, t: nat, th: Thread, mask: bool)
    requires th.ctl.Cons? && (th.ctl.top.Relock? || th.ctl.top.CdRelock?) && sh.owner.None?
    ensures Shrinks(sh, th, RelockStep(sh, t, th, mask, th.ctl.rest).value)
  {
    Drops(th, RelockStep(sh, t, th, mask, th.ctl.rest).value.th);
  }

  /** A request in the device fails, or is a POP that removes a module. */
  lemma DeviceShrinks(sh: Shared, th: Thread, code: Ioctl, i: Item)
    requires th.ctl.Cons? && (th.ctl.top.InDevice? || th.ctl.top.CdDevice?) && (i.Relock? || i.CdRelock?)
    ensures Shrinks(sh, th, DeviceStep(sh, th, code, Cons(i, th.ctl.rest), DeviceReturns(FAILED, th.reply)).value)
  {
    var o := DeviceStep(sh, th, code, Cons(i, th.ctl.rest), DeviceReturns(FAILED, th.reply)).value;
    if code.Pop? && sh.modules != [] {
    } else {
      Becomes(th, o.th, i);
    }
  }

  lemma CdWaitShrinks(sh: Shared, th: Thread)
    requires th.ctl.Cons? && th.ctl.top.CdWaiting?
    ensures Shrinks(sh, th, CdWaitingStep(sh, th, th.ctl.rest, DeviceReturns(FAILED, th.reply)).value)
  {
    Becomes(th, CdWaitingStep(sh, th, th.ctl.rest, DeviceReturns(FAILED, th.reply)).value.th, CdRelock(true));
  }

  lemma CdShrinks(sh: Shared, t: nat, th: Thread)
    requires th.ctl.Cons? && th.ctl.top.CdCode?
    ensures Shrinks(sh, th, CdCodeStep(sh, th, th.ctl.rest, CdReturns(FAILED)).value)
  {
    Drops(th, CdCodeStep(sh, th, th.ctl.rest, CdReturns(FAILED)).value.th);
  }

  lemma CdThreadShrinks(sh: Shared, t: nat, th: Thread)
    requires th.ctl.Cons? && th.ctl.top.CdThread? && CdThreadStep(sh, t, th, th.ctl.top.started, th.ctl.rest).Some?
    ensures Shrinks(sh, th, CdThreadStep(sh, t, th, th.ctl.top.started, th.ctl.rest).value)
  {
    var o := CdThreadStep(sh, t, th, th.ctl.top.started, th.ctl.rest).value;
    if th.ctl.top.started {
      Drops(th, o.th);
    } else {
      BecomesTwo(th, o.th, CdCode, CdThread(true));
    }
  }

  lemma OpenShrinks(sh: Shared, th: Thread)
    requires th.ctl.Cons? && th.ctl.top.PushStack?
    ensures Shrinks(sh, th, CdOpenStep(sh, th, th.ctl.top.cfg, th.ctl.rest, Ending(th)).value)
  {
    var cfg, o := th.ctl.top.cfg, CdOpenStep(sh, th, th.ctl.top.cfg, th.ctl.rest, Ending(th)).value;
    if cfg.cdNone {
      Becomes(th, o.th, FirstPush(cfg, th.ctl.rest).top);
    } else {
      Drops(th, o.th);
    }
  }

  lemma LoadMoveFits(closing: bool, status: Status, load: LoadItem)
    ensures var g := Good(status);
            match DecideLoad(closing, status, load)
            case LoadGoto(next) => LoadWork(next, g) < LoadWork(load, g)
                && (next.AfterPush? && g ==> load.AfterPush? && g)
            case LoadIssue(code, next) => 10 + LoadWork(next, false) < LoadWork(load, g)
            case LoadUnload(st) => 43 < LoadWork(load, g) && (Good(st) ==> load.AfterPush? && g)
            case LoadReturn(st) => 0 < LoadWork(load, g) && (Good(st) ==> load.AfterPush? && g)
  {
  }

  lemma LoadShrinks(sh: Shared, th: Thread)
    requires th.ctl.Cons? && th.ctl.top.Load?
    ensures Shrinks(sh, th, LoadStep(sh, th, th.ctl.top.load, th.ctl.rest))
  {
    LoadMoveFits(sh.closing, th.status, th.ctl.top.load);
    MoveLoadShrinks(sh, th, DecideLoad(sh.closing, th.status, th.ctl.top.load), th.ctl.top.load);
  }

  lemma MoveLoadShrinks(sh: Shared, th: Thread, move: LoadMove, load: LoadItem)
    requires th.ctl.Cons? && th.ctl.top == Load(load)
    requires var g := Good(th.status);
             match move
             case LoadGoto(next) => LoadWork(next, g) < LoadWork(load, g)
                 && (next.AfterPush? && g ==> load.AfterPush? && g)
             case LoadIssue(code, next) => 10 + LoadWork(next, false) < LoadWork(load, g)
             case LoadUnload(st) => 43 < LoadWork(load, g) && (Good(st) ==> load.AfterPush? && g)
             case LoadReturn(st) => 0 < LoadWork(load, g) && (Good(st) ==> load.AfterPush? && g)
    ensures Shrinks(sh, th, MoveLoad(sh, th, move, load.AfterPush?, th.ctl.rest))
  {
    var o := MoveLoad(sh, th, move, load.AfterPush?, th.ctl.rest);
    match move
    case LoadGoto(next) => Becomes(th, o.th, Load(next));
    case LoadIssue(code, next) => BecomesTwo(th, o.th, Io(IoControl(code)), Load(next));
    case LoadUnload(st) => BecomesTwo(th, o.th, PopStack, Call(Return(st)));
    case LoadReturn(_) => Drops(th, o.th);
  }

  predicate CallMoveFits(call: CallItem, move: CallMove) {
    var work := CallWork(call);
    var after := After(Call(call), true);
    match move
    case CallDone(st) => 0 < work && (Good(st) ==> after)
    case CallIssue(code, next) => 10 + CallWork(next) < work && after
    case CallIssueLast(code) => 10 < work
    case CallWork(code) => 9 < work
    case CallLoad(cfg, next) => 57 + CallWork(next) < work && after
    case CallLoadOpen(cfg, code, next) => 112 + CallWork(next) < work && after
    case CallUnload(st) => 43 < work && after
  }

  lemma CallDecisionFits(status: Status, call: CallItem)
    ensures CallMoveFits(call, DecideCall(status, call))
  {
  }

  lemma CallShrinks(sh: Shared, th: Thread)
    requires th.ctl.Cons? && th.ctl.top.Call?
    ensures Shrinks(sh, th, Outcome(sh, CallStep(th, th.ctl.top.call, th.ctl.rest), false))
  {
    CallDecisionFits(th.status, th.ctl.top.call);
    MoveCallShrinks(th, th.ctl.top.call, DecideCall(th.status, th.ctl.top.call));
  }

  lemma MoveCallShrinks(th: Thread, call: CallItem, move: CallMove)
    requires th.ctl.Cons? && th.ctl.top == Call(call) && CallMoveFits(call, move)
    ensures WorkOf(MoveCall(th, move, th.ctl.rest)) < WorkOf(th)
  {
    var th1 := MoveCall(th, move, th.ctl.rest);
    match move
    case CallDone(_) => Drops(th, th1);
    case CallIssue(code, next) => BecomesTwo(th, th1, Io(IoControl(code)), Call(next));
    case CallIssueLast(code) => Becomes(th, th1, Io(IoControl(code)));
    case CallWork(code) => Becomes(th, th1, Io(Worker(code)));
    case CallLoad(cfg, next) => BecomesTwo(th, th1, PushStack(cfg), Call(next));
    case CallLoadOpen(cfg, code, next) => BecomesThree(th, th1, PushStack(cfg), Call(OpenEndpointBy(code)), Call(next));
    case CallUnload(st) => BecomesTwo(th, th1, PopStack, Call(Return(st)));
  }

  predicate AcceptMoveFits(status: Status, acc: AcceptItem, move: AcceptMove) {
    var work := AcceptWork(acc, Good(status));
    match move
    case AcceptGoto(next) => AcceptWork(next, Good(status)) < work
    case AcceptIssue(code, next) => 10 + AcceptWork(next, false) < work
    case AcceptIssueTwo(code1, code2, next) => 20 + AcceptWork(next, false) < work
    case AcceptLoad(cfg, next) => 112 + AcceptWork(next, true) < work
    case Accepted => 1 < work
    case Refused(st) => 44 < work
  }

  lemma ReplyFits(status: Status, reply: Reply, cfg: Config, rc: bool)
    ensures AcceptMoveFits(status, AcceptReply(cfg, rc), DecideReply(status, reply, cfg, rc))
  {
  }

  /** Decisions that do not look at the status. */
  predicate Untested(acc: AcceptItem) {
    acc.AcceptBegin? || acc.AcceptSetup? || acc.AcceptQueried? || acc.AcceptPds?
  }

  lemma UntestedFits(status: Status, reply: Reply, acc: AcceptItem)
    requires Untested(acc)
    ensures AcceptMoveFits(status, acc, DecideAccept(status, reply, acc))
  {
  }

  lemma TestedFits(status: Status, reply: Reply, acc: AcceptItem)
    requires !Untested(acc) && !acc.AcceptReply?
    ensures AcceptMoveFits(status, acc, DecideAccept(status, reply, acc))
  {
  }

  lemma AcceptDecisionFits(status: Status, reply: Reply, acc: AcceptItem)
    ensures AcceptMoveFits(status, acc, DecideAccept(status, reply, acc))
  {
    if acc.AcceptReply? {
      ReplyFits(status, reply, acc.cfg, acc.reconnect);
    } else if Untested(acc) {
      UntestedFits(status, reply, acc);
    } else {
      TestedFits(status, reply, acc);
    }
  }

  lemma AcceptShrinks(sh: Shared, th: Thread)
    requires th.ctl.Cons? && th.ctl.top.Accept?
    ensures Shrinks(sh, th, Outcome(sh, AcceptStep(th, th.ctl.top.acc, th.ctl.rest), false))
  {
    AcceptDecisionFits(th.status, th.reply, th.ctl.top.acc);
    MoveAcceptShrinks(th, th.ctl.top.acc, DecideAccept(th.status, th.reply, th.ctl.top.acc));
  }

  lemma MoveAcceptShrinks(th: Thread, acc: AcceptItem, move: AcceptMove)
    requires th.ctl.Cons? && th.ctl.top == Accept(acc) && AcceptMoveFits(th.status, acc, move)
    ensures WorkOf(MoveAccept(th, move, th.ctl.rest)) < WorkOf(th)
  {
    var th1 := MoveAccept(th, move, th.ctl.rest);
    match move
    case AcceptGoto(next) => Becomes(th, th1, Accept(next));
    case AcceptIssue(code, next) => BecomesTwo(th, th1, Io(IoControl(code)), Accept(next));
    case Accepted => Becomes(th, th1, AwaitUnlock);
    case AcceptIssueTwo(code1, code2, next) => IssueTwoShrinks(th, th1, code1, code2, next);
    case AcceptLoad(cfg, next) => AcceptLoadShrinks(th, th1, cfg, next);
    case Refused(st) => RefusedShrinks(th, th1, st);
  }

  lemma IssueTwoShrinks(th: Thread, th1: Thread, code1: Ioctl, code2: Ioctl, next: AcceptItem)
    requires th.ctl.Cons? && th.ctl.top.Accept? && 20 + AcceptWork(next, false) < Work(th.ctl.top, Good(th.status))
    requires th1 == th.(ctl := Do3(Io(IoControl(code1)), Io(IoControl(code2)), Accept(next), th.ctl.rest))
    ensures WorkOf(th1) < WorkOf(th)
  {
    BecomesThree(th, th1, Io(IoControl(code1)), Io(IoControl(code2)), Accept(next));
  }

  lemma AcceptLoadShrinks(th: Thread, th1: Thread, cfg: Config, next: AcceptItem)
    requires th.ctl.Cons? && th.ctl.top.Accept? && 112 + AcceptWork(next, true) < Work(th.ctl.top, Good(th.status))
    requires th1 == th.(ctl := Do3(PushStack(cfg), Call(OpenEndpointBy(OpenEndpoint)), Accept(next), th.ctl.rest))
    ensures WorkOf(th1) < WorkOf(th)
  {
    BecomesThree(th, th1, PushStack(cfg), Call(OpenEndpointBy(OpenEndpoint)), Accept(next));
  }

  lemma RefusedShrinks(th: Thread, th1: Thread, st: Status)
    requires th.ctl.Cons? && th.ctl.top.Accept? && 44 < Work(th.ctl.top, Good(th.status))
    requires th1 == th.(ctl := Do3(PopStack, Call(Return(st)), Leave(false), th.ctl.rest), status := st)
    ensures WorkOf(th1) < WorkOf(th)
  {
    BecomesThree(th, th1, PopStack, Call(Return(st)), Leave(false));
  }

  lemma PopStackShrinks(sh: Shared, th: Thread)
    requires th.ctl.Cons? && th.ctl.top.PopStack?
    ensures Shrinks(sh, th, PopStackStep(sh, th, th.ctl.rest).value)
  {
    var o := PopStackStep(sh, th, th.ctl.rest).value;
    if sh.unloading {
      Drops(th, o.th);
    } else {
      Becomes(th, o.th, Unload(PopLoop));
    }
  }

  lemma PopTestShrinks(sh: Shared, th: Thread)
    requires th.ctl.Cons? && th.ctl.top == Unload(PopTest)
    ensures Shrinks(sh, th, UnloadStep(sh, th, PopTest, th.ctl.rest).value)
  {
    var o := UnloadStep(sh, th, PopTest, th.ctl.rest).value;
    if th.status == StatusSuccess {
      Becomes(th, o.th, Unload(PopLoop));
    } else {
      BecomesTwo(th, o.th, Io(IoControl(CdCancelIo)), Unload(PopCancelled));
    }
  }

  lemma PopLoopShrinks(sh: Shared, th: Thread)
    requires th.ctl.Cons? && th.ctl.top == Unload(PopLoop)
    ensures Shrinks(sh, th, UnloadStep(sh, th, PopLoop, th.ctl.rest).value)
  {
    BecomesTwo(th, UnloadStep(sh, th, PopLoop, th.ctl.rest).value.th, Io(IoControl(Pop)), Unload(PopTest));
  }

  lemma PopCancelledShrinks(sh: Shared, th: Thread)
    requires th.ctl.Cons? && th.ctl.top == Unload(PopCancelled)
    ensures Shrinks(sh, th, UnloadStep(sh, th, PopCancelled, th.ctl.rest).value)
  {
    Becomes(th, UnloadStep(sh, th, PopCancelled, th.ctl.rest).value.th, UnloadWait(AtHead, 0, sh.acquired + 1));
  }

  lemma UnloadWakeShrinks(sh: Shared, t: nat, th: Thread, e: nat, rounds: nat, since: nat)
    requires th.ctl.Cons? && th.ctl.top == UnloadWait(Awake(e), rounds, since) && sh.owner.None?
    ensures Shrinks(sh, th, UnloadWaitStep(sh, t, th, Awake(e), rounds, since, th.ctl.rest).value)
  {
    Becomes(th, UnloadWaitStep(sh, t, th, Awake(e), rounds, since, th.ctl.rest).value.th,
        UnloadWait(AtHead, rounds, since));
  }

  lemma UnloadTestShrinks(sh: Shared, t: nat, th: Thread, rounds: nat, since: nat)
    requires th.ctl.Cons? && th.ctl.top == UnloadWait(AtHead, rounds, since)
    ensures Shrinks(sh, th, UnloadWaitStep(sh, t, th, AtHead, rounds, since, th.ctl.rest).value)
  {
    Drops(th, th.(ctl := th.ctl.rest));
    var asleep := UnloadWait(Asleep(sh.nextEvent), rounds + 1, since);
    Becomes(th, th.(ctl := Cons(asleep, th.ctl.rest)), asleep);
  }

  lemma CloseWakeShrinks(sh: Shared, t: nat, th: Thread, e: nat, rounds: nat, since: nat)
    requires th.ctl.Cons? && th.ctl.top == CloseWait(Awake(e), rounds, since) && sh.owner.None?
    ensures Shrinks(sh, th, CloseWaitStep(sh, t, th, Awake(e), rounds, since, th.ctl.rest).value)
  {
    Becomes(th, CloseWaitStep(sh, t, th, Awake(e), rounds, since, th.ctl.rest).value.th,
        CloseWait(AtHead, rounds, since));
  }

  lemma CloseTestShrinks(sh: Shared, t: nat, th: Thread, rounds: nat, since: nat)
    requires th.ctl.Cons? && th.ctl.top == CloseWait(AtHead, rounds, since)
    ensures Shrinks(sh, th, CloseWaitStep(sh, t, th, AtHead, rounds, since, th.ctl.rest).value)
  {
    Drops(th, th.(ctl := th.ctl.rest));
    var asleep := CloseWait(Asleep(sh.nextEvent), rounds + 1, since);
    Becomes(th, th.(ctl := Cons(asleep, th.ctl.rest)), asleep);
  }

  /** Awake with the lock free, or not asleep at all: the thread's next step gets it closer to its end. */
  predicate Moves(sh: Shared, c: Ctl) {
    c.Cons? && !((c.top.UnloadWait? || c.top.CloseWait?) && c.top.phase.Asleep?) && (sh.owner.None? || Owns(c))
  }

  lemma WaitGoShrinks(sh: Shared, t: nat, th: Thread)
    requires Moves(sh, th.ctl) && (th.ctl.top.UnloadWait? || th.ctl.top.CloseWait?)
    ensures th.ctl.top.UnloadWait? ==>
              var i := th.ctl.top;
              Shrinks(sh, th, UnloadWaitStep(sh, t, th, i.phase, i.rounds, i.since, th.ctl.rest).value)
    ensures th.ctl.top.CloseWait? ==>
              var i := th.ctl.top;
              Shrinks(sh, th, CloseWaitStep(sh, t, th, i.phase, i.rounds, i.since, th.ctl.rest).value)
  {
    match th.ctl.top
    case UnloadWait(AtHead, rounds, since) => UnloadTestShrinks(sh, t, th, rounds, since);
    case UnloadWait(Awake(e), rounds, since) => UnloadWakeShrinks(sh, t, th, e, rounds, since);
    case CloseWait(AtHead, rounds, since) => CloseTestShrinks(sh, t, th, rounds, since);
    case CloseWait(Awake(e), rounds, since) => CloseWakeShrinks(sh, t, th, e, rounds, since);
  }

  lemma IoShrinks(sh: Shared, th: Thread)
    requires th.ctl.Cons? && th.ctl.top.Io?
    ensures Shrinks(sh, th, IoStep(sh, th, th.ctl.top.io, th.ctl.rest).value)
  {
    match th.ctl.top.io
    case IoControl(code) => IoControlShrinks(sh, th, code);
    case Worker(code) => WorkerShrinks(sh, th, code);
    case CdMask(code) => MaskShrinks(sh, th, code);
  }

  lemma UnloadShrinks(sh: Shared, th: Thread)
    requires th.ctl.Cons? && th.ctl.top.Unload?
    ensures Shrinks(sh, th, UnloadStep(sh, th, th.ctl.top.unl, th.ctl.rest).value)
  {
    match th.ctl.top.unl
    case PopLoop => PopLoopShrinks(sh, th);
    case PopTest => PopTestShrinks(sh, th);
    case PopCancelled => PopCancelledShrinks(sh, th);
  }

  lemma PlumbingShrinks(sh: Shared, t: nat, th: Thread)
    requires th.ctl.Cons? && GoStep(sh, t, th).Some? && (sh.owner.None? || Owns(th.ctl))
    requires var i := th.ctl.top;
             i.EnterNested? || i.Leave? || i.Io? || i.Relock? || i.CdRelock? || i.CdThread?
    ensures Shrinks(sh, th, GoStep(sh, t, th).value)
  {
    match th.ctl.top
    case EnterNested(_) => NestedShrinks(sh, t, th);
    case Leave(_) => Drops(th, GoStep(sh, t, th).value.th);
    case Io(_) => IoShrinks(sh, th);
    case Relock => RelockShrinks(sh, t, th, false);
    case CdRelock(mask) => RelockShrinks(sh, t, th, mask);
    case CdThread(_) => CdThreadShrinks(sh, t, th);
  }

  lemma CloseBeginShrinks(sh: Shared, t: nat, th: Thread)
    requires th.ctl.Cons? && th.ctl.top.CloseBegin?
    ensures Shrinks(sh, th, Outcome(sh, th.(ctl := Cons(CloseWait(AtHead, 0, sh.acquired), th.ctl.rest)), false))
  {
    Becomes(th, th.(ctl := Cons(CloseWait(AtHead, 0, sh.acquired), th.ctl.rest)), CloseWait(AtHead, 0, sh.acquired));
  }

  lemma GoShrinks(sh: Shared, t: nat, th: Thread)
    requires Moves(sh, th.ctl) && GoStep(sh, t, th).Some?
    ensures Shrinks(sh, th, GoStep(sh, t, th).value)
  {
    match th.ctl.top
    case Enter(_) => EnterShrinks(sh, t, th);
    case Load(_) => LoadShrinks(sh, th);
    case Call(_) => CallShrinks(sh, th);
    case Accept(_) => AcceptShrinks(sh, th);
    case PopStack => PopStackShrinks(sh, th);
    case Unload(_) => UnloadShrinks(sh, th);
    case UnloadWait(_, _, _) => WaitGoShrinks(sh, t, th);
    case CloseBegin => CloseBeginShrinks(sh, t, th);
    case CloseWait(_, _, _) => WaitGoShrinks(sh, t, th);
    case _ => PlumbingShrinks(sh, t, th);
  }

  /** The top item ends by the answer of somebody else. */
  predicate Answered(i: Item) {
    i.AwaitUnlock? || i.InCallback? || i.InDevice? || i.CdDevice? || i.CdWaiting? || i.CdCode? || i.PushStack?
  }

  lemma AnswerShrinks(sh: Shared, t: nat, th: Thread)
    requires th.ctl.Cons? && Answered(th.ctl.top)
    ensures ThreadStep(sh, t, th, Ending(th)).Some? && Shrinks(sh, th, ThreadStep(sh, t, th, Ending(th)).value)
  {
    match th.ctl.top
    case AwaitUnlock => Drops(th, ThreadStep(sh, t, th, Go).value.th);
    case InCallback(_, _) => CallbackShrinks(sh, th);
    case InDevice(code) => DeviceShrinks(sh, th, code, Relock);
    case CdDevice(code) => DeviceShrinks(sh, th, code, CdRelock(!code.Pop?));
    case CdWaiting => CdWaitShrinks(sh, th);
    case CdCode => CdShrinks(sh, t, th);
    case PushStack(_) => OpenShrinks(sh, th);
  }

  lemma EndingShrinks(sh: Shared, t: nat, th: Thread)
    requires Moves(sh, th.ctl)
    ensures ThreadStep(sh, t, th, Ending(th)).Some? && Shrinks(sh, th, ThreadStep(sh, t, th, Ending(th)).value)
  {
    if Answered(th.ctl.top) {
      AnswerShrinks(sh, t, th);
    } else {
      CanGo(sh, t, th);
      GoShrinks(sh, t, th);
    }
  }

  lemma CanGo(sh: Shared, t: nat, th: Thread)
    requires Moves(sh, th.ctl) && !Answered(th.ctl.top)
    ensures Ending(th) == Go && ThreadStep(sh, t, th, Go) == GoStep(sh, t, th) && GoStep(sh, t, th).Some?
  {
  }
}
