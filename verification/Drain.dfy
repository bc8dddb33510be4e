/**
 Where the condition of Environment holds, IcaStackClose finds the device's module stack empty, whichever side
 pops each module: without a connection driver, without Accept, with one loading call at a time and
 no PUSH from outside, but with any number of IcaStackTerminate, IcaStackIoControl (POP included)
 and nested calls.
 */
module Drain {
  import opened IcaTypes
  import opened Control
  import opened StackMachine
  import opened Discipline
  import opened Environment
  import opened Steps
  import opened Invariant
  import opened Lifecycle
  import opened Progress

  // ---------- the calls ----------

  predicate Harmless(code: Ioctl) {
    !code.Push? && !code.Pop?
  }

  predicate ApiFits(isLoader: bool, api: Api) {
    match api
    case Close => true
    case Terminate => true
    case ConnectionAccept(_, _, _) => false
    case StackIoControl(code) => !code.Push?
    case Wrapped(code) => !code.Push?
    case _ => isLoader && api.cfg.cdNone
  }

  lemma AllowedApiFits(env: Env, api: Api)
    requires DrainCondition(env) && ApiAllowed(env, api)
    ensures ApiFits(Loads(api), api)
  {
  }

  // ---------- what these runs keep on the control state ----------

  predicate CallAllowed(isLoader: bool, call: CallItem) {
    match call
    case Begin(api, _) => ApiFits(isLoader, api)
    case Return(_) => true
    case _ => isLoader && (call.OpenEndpointBy? || call.IfLoaded? ==> Harmless(call.code))
  }

  predicate ItemAllowed(closing: bool, isLoader: bool, i: Item) {
    match i
    case Enter(api) => ApiFits(isLoader, api)
    case EnterNested(_) => true
    case Leave(_) => true
    case AwaitUnlock => false
    case Io(io) => !io.CdMask?
    case InCallback(_, _) => true
    case InDevice(_) => true
    case Relock => true
    case CdCode => false
    case CdDevice(_) => false
    case CdWaiting => false
    case CdRelock(_) => false
    case CdThread(_) => false
    case PushStack(cfg) => isLoader && cfg.cdNone
    case Load(_) => isLoader
    case Call(call) => CallAllowed(isLoader, call)
    case Accept(_) => false
    case PopStack => isLoader || closing
    case Unload(_) => isLoader || closing
    case UnloadWait(_, _, _) => isLoader || closing
    case CloseBegin => closing
    case CloseWait(_, _, _) => closing
  }

  /** The request on top of the control state that the device has not served yet. */
  function Pending(c: Ctl): Option<Ioctl> {
    if c.Nil? then None
    else
      match c.top
      case EnterNested(code) => Some(code)
      case Io(io) => Some(io.code)
      case InCallback(code, forwarded) => if forwarded then None else Some(code)
      case InDevice(code) => Some(code)
      case _ => None
  }

  /** Code between a call and the device. */
  predicate Plumbing(i: Item) {
    i.EnterNested? || i.Io? || i.InCallback? || i.InDevice? || i.Relock? || i == Leave(true)
  }

  /** What a call's own code returns to. */
  predicate Resumes(c: Ctl) {
    c.Nil? || c.top.Call? || c.top == Leave(false) || c.top.CloseBegin?
  }

  predicate AllAllowed(closing: bool, isLoader: bool, c: Ctl) {
    c.Cons? ==>
      && ItemAllowed(closing, isLoader, c.top)
      && (OfCall(c.top) ==> Resumes(c.rest))
      && (Plumbing(c.top) ==> Pending(c.rest).None?)
      && AllAllowed(closing, isLoader, c.rest)
  }

  /** What the code that issued the request on top, or would continue otherwise, is after. */
  datatype Role = WantsPop | TestsPop | Pushes | Otherwise

  function RoleOf(c: Ctl): Role {
    if c.Nil? then Otherwise
    else if Plumbing(c.top) then RoleOf(c.rest)
    else
      match c.top
      case Unload(unl) => if unl.PopLoop? then WantsPop else if unl.PopTest? then TestsPop else Otherwise
      case Load(load) =>
        if load.StackClosing? then WantsPop
        else if load.StackClosingTest? then TestsPop
        else if load.AfterPush? then Pushes
        else Otherwise
      case _ => Otherwise
  }

  /** PUSH is issued by the load only; the two pop loops issue nothing but POP. */
  predicate RequestFits(c: Ctl) {
    Pending(c).Some? ==>
      && (Pending(c).value.Push? <==> RoleOf(c).Pushes?)
      && (RoleOf(c).TestsPop? ==> Pending(c).value.Pop?)
  }

  predicate RoleWillPop(role: Role, pending: bool, status: Status) {
    || role.WantsPop?
    || (role.TestsPop? && (pending || status == StatusSuccess))
    || (role.Pushes? && !pending && status.Ok())
  }

  /** The thread will go on popping modules until the device has none. */
  predicate WillPop(unloading: bool, th: Thread) {
    || (th.ctl.Cons? && th.ctl.top.PopStack? && !unloading)
    || RoleWillPop(RoleOf(th.ctl), Pending(th.ctl).Some?, th.status)
  }

  lemma AllowedDo2(closing: bool, isLoader: bool, a: Item, b: Item, rest: Ctl)
    requires ItemAllowed(closing, isLoader, a) && ItemAllowed(closing, isLoader, b)
        && AllAllowed(closing, isLoader, rest)
    requires (OfCall(b) ==> Resumes(rest)) && (Plumbing(b) ==> Pending(rest).None?)
    requires (OfCall(a) ==> Resumes(Cons(b, Nil))) && (Plumbing(a) ==> Pending(Cons(b, Nil)).None?)
    ensures AllAllowed(closing, isLoader, Do2(a, b, rest))
  {
    assert AllAllowed(closing, isLoader, Cons(b, rest));
  }

  lemma AllowedDo3(closing: bool, isLoader: bool, a: Item, b: Item, c: Item, rest: Ctl)
    requires ItemAllowed(closing, isLoader, a) && ItemAllowed(closing, isLoader, b) && ItemAllowed(closing, isLoader, c)
    requires AllAllowed(closing, isLoader, rest)
    requires !Plumbing(a) && !Plumbing(b) && !Plumbing(c) && (OfCall(c) ==> Resumes(rest))
    requires (OfCall(a) ==> Resumes(Cons(b, Nil))) && (OfCall(b) ==> Resumes(Cons(c, Nil)))
    ensures AllAllowed(closing, isLoader, Do3(a, b, c, rest))
  {
    AllowedDo2(closing, isLoader, b, c, rest);
  }

  lemma ClosingAllowsMore(isLoader: bool, c: Ctl)
    requires AllAllowed(false, isLoader, c)
    ensures AllAllowed(true, isLoader, c)
  {
  }

  // ---------- one step ----------

  predicate DrainPre(sh: Shared, isLoader: bool, th: Thread) {
    && th.ctl.Cons?
    && WellFormed(th.ctl)
    && AllAllowed(sh.closing, isLoader, th.ctl)
    && RequestFits(th.ctl)
    && !sh.cd
    && (th.ctl.top.Load? && !sh.closing ==> !sh.unloading)
  }

  /** Modules that are left while the stack closes or unloads are somebody's business: this
      thread's, or still that of whoever was in charge before. */
  predicate Accounted(sh: Shared, th: Thread, o: Outcome) {
    || o.sh.modules == []
    || !(o.sh.closing || o.sh.unloading)
    || WillPop(o.sh.unloading, o.th)
    || (sh.modules != [] && (sh.closing || sh.unloading) && !WillPop(sh.unloading, th))
  }

  predicate DrainPost(sh: Shared, isLoader: bool, th: Thread, o: Outcome) {
    && AllAllowed(o.sh.closing, isLoader, o.th.ctl)
    && RequestFits(o.th.ctl)
    && !o.sh.cd
    && !o.spawns
    && Accounted(sh, th, o)
    && (o.sh.unloading && !sh.unloading ==> WillPop(true, o.th))
  }

  // the control side

  /** c1 is an allowed continuation that has role `role` and waits for request `pending`. */
  predicate Goes(closing: bool, isLoader: bool, c1: Ctl, role: Role, pending: Option<Ioctl>) {
    AllAllowed(closing, isLoader, c1) && RoleOf(c1) == role && Pending(c1) == pending
  }

  lemma GoesBack(closing: bool, isLoader: bool, c: Ctl)
    requires c.Cons? && AllAllowed(closing, isLoader, c)
    ensures OfCall(c.top) ==> Goes(closing, isLoader, c.rest, Otherwise, None)
    ensures Plumbing(c.top) ==> Goes(closing, isLoader, c.rest, RoleOf(c), None)
  {
  }

  lemma OwnItem(i: Item, rest: Ctl)
    requires OfCall(i)
    ensures RoleOf(Cons(i, rest)) == RoleOf(Cons(i, Nil)) && Pending(Cons(i, rest)).None?
  {
  }

  lemma NotPlumbing(i: Item)
    requires OfCall(i)
    ensures !Plumbing(i)
  {
  }

  lemma OwnItemAllowed(closing: bool, isLoader: bool, i: Item, rest: Ctl)
    requires OfCall(i) && ItemAllowed(closing, isLoader, i) && Resumes(rest) && AllAllowed(closing, isLoader, rest)
    ensures AllAllowed(closing, isLoader, Cons(i, rest))
  {
    NotPlumbing(i);
  }

  /** An item of a call's own code takes over from another. */
  lemma GoesOn(closing: bool, isLoader: bool, i: Item, rest: Ctl)
    requires OfCall(i) && ItemAllowed(closing, isLoader, i) && Resumes(rest) && AllAllowed(closing, isLoader, rest)
    ensures Goes(closing, isLoader, Cons(i, rest), RoleOf(Cons(i, Nil)), None)
  {
    OwnItem(i, rest);
    OwnItemAllowed(closing, isLoader, i, rest);
  }

  /** A call's own code issues a request and continues with i. */
  lemma GoesIssuing(closing: bool, isLoader: bool, code: Ioctl, i: Item, rest: Ctl)
    requires OfCall(i) && ItemAllowed(closing, isLoader, i) && Resumes(rest) && AllAllowed(closing, isLoader, rest)
    ensures Goes(closing, isLoader, Do2(Io(IoControl(code)), i, rest), RoleOf(Cons(i, Nil)), Some(code))
  {
    GoesOn(closing, isLoader, i, rest);
    AllowedDo2(closing, isLoader, Io(IoControl(code)), i, rest);
    assert RoleOf(Do2(Io(IoControl(code)), i, rest)) == RoleOf(Cons(i, rest));
  }

  /** Another piece of plumbing takes over. */
  lemma GoesPlumbing(closing: bool, isLoader: bool, i: Item, rest: Ctl)
    requires Plumbing(i) && ItemAllowed(closing, isLoader, i) && Pending(rest).None?
        && AllAllowed(closing, isLoader, rest)
    ensures Goes(closing, isLoader, Cons(i, rest), RoleOf(rest), Pending(Cons(i, Nil)))
  {
  }

  // the shared side

  /** Any step that leaves the modules and the flags alone. */
  lemma NeutralStep(sh: Shared, isLoader: bool, th: Thread, o: Outcome, role: Role, pending: Option<Ioctl>)
    requires DrainPre(sh, isLoader, th)
    requires o.sh.modules == sh.modules && o.sh.closing == sh.closing && o.sh.cd == sh.cd && !o.spawns
    requires o.sh.unloading ==> sh.unloading
    requires Goes(sh.closing, isLoader, o.th.ctl, role, pending)
    requires pending.Some? ==> (pending.value.Push? <==> role.Pushes?) && (role.TestsPop? ==> pending.value.Pop?)
    requires WillPop(sh.unloading, th) ==>
                 RoleWillPop(role, pending.Some?, o.th.status) || !(sh.closing || o.sh.unloading)
    ensures DrainPost(sh, isLoader, th, o)
  {
  }

  /** Entering a call: one that starts to close comes with an unload. */
  lemma EnteringStep(sh: Shared, t: nat, isLoader: bool, th: Thread, c1: Ctl, closing: bool)
    requires DrainPre(sh, isLoader, th) && th.ctl.top.Enter?
    requires AllAllowed(sh.closing || closing, isLoader, c1) && RoleOf(c1) == Otherwise && Pending(c1).None?
    requires closing ==> c1.Cons? && c1.top.PopStack?
    ensures DrainPost(sh, isLoader, th,
                      Outcome(sh.(owner := Some(t), closing := sh.closing || closing), th.(ctl := c1), false))
  {
  }

  // item by item

  lemma PostOfEnter(c: Ctl)
    requires c.Cons? && c.top.Enter? && WellFormed(c)
    ensures c.rest.Nil?
  {
    AfterTop(c);
  }

  /** A call's own code is neither a request nor a pop loop, whatever it is followed by. */
  lemma OwnCodeIsQuiet(i: Item, rest: Ctl)
    requires i.PopStack? || i.Call? || i.PushStack?
    ensures RoleOf(Cons(i, rest)) == Otherwise && Pending(Cons(i, rest)).None?
  {
  }

  lemma BodyAllowed(closing: bool, isLoader: bool, loaded: bool, api: Api, rest: Ctl)
    requires ApiFits(isLoader, api) && (api.Close? || api.Terminate? ==> closing) && rest.Nil?
    ensures AllAllowed(closing, isLoader, Body(loaded, api, rest))
  {
    if api.Close? {
      AllowedDo2(closing, isLoader, PopStack, CloseBegin, rest);
    } else if api.Terminate? {
      AllowedDo3(closing, isLoader, PopStack, Call(Return(StatusSuccess)), Leave(false), rest);
    } else {
      AllowedDo2(closing, isLoader, Call(Begin(api, loaded)), Leave(false), rest);
    }
  }

  lemma BodyIsQuiet(isLoader: bool, loaded: bool, api: Api, rest: Ctl)
    requires ApiFits(isLoader, api)
    ensures RoleOf(Body(loaded, api, rest)) == Otherwise && Pending(Body(loaded, api, rest)).None?
  {
    var c := Body(loaded, api, rest);
    OwnCodeIsQuiet(c.top, c.rest);
  }

  lemma BodyGoes(closing: bool, isLoader: bool, loaded: bool, api: Api, rest: Ctl)
    requires ApiFits(isLoader, api) && (api.Close? || api.Terminate? ==> closing) && rest.Nil?
    ensures Goes(closing, isLoader, Body(loaded, api, rest), Otherwise, None)
    ensures api.Close? || api.Terminate? ==> Body(loaded, api, rest).Cons? && Body(loaded, api, rest).top.PopStack?
  {
    BodyAllowed(closing, isLoader, loaded, api, rest);
    BodyIsQuiet(isLoader, loaded, api, rest);
  }

  lemma EnterIs(sh: Shared, t: nat, isLoader: bool, th: Thread, api: Api, rest: Ctl)
    requires ApiFits(isLoader, api) && EnterStep(sh, t, th, api, rest).Some?
    ensures EnterStep(sh, t, th, api, rest).value ==
            Outcome(sh.(owner := Some(t), closing := sh.closing || (api.Close? || api.Terminate?)),
                    th.(ctl := Body(sh.loaded, api, rest)), false)
  {
  }

  lemma EnterBodyDrains(sh: Shared, t: nat, isLoader: bool, th: Thread, api: Api, rest: Ctl)
    requires DrainPre(sh, isLoader, th) && th.ctl.top.Enter? && ApiFits(isLoader, api) && rest.Nil?
    requires EnterStep(sh, t, th, api, rest).Some?
    ensures DrainPost(sh, isLoader, th, EnterStep(sh, t, th, api, rest).value)
  {
    var closing := api.Close? || api.Terminate?;
    EnterIs(sh, t, isLoader, th, api, rest);
    BodyGoes(sh.closing || closing, isLoader, sh.loaded, api, rest);
    EnteringStep(sh, t, isLoader, th, Body(sh.loaded, api, rest), closing);
  }

  lemma EnterDrains(sh: Shared, t: nat, isLoader: bool, th: Thread)
    requires DrainPre(sh, isLoader, th) && th.ctl.top.Enter?
    requires EnterStep(sh, t, th, th.ctl.top.api, th.ctl.rest).Some?
    ensures DrainPost(sh, isLoader, th, EnterStep(sh, t, th, th.ctl.top.api, th.ctl.rest).value)
  {
    PostOfEnter(th.ctl);
    EnterBodyDrains(sh, t, isLoader, th, th.ctl.top.api, th.ctl.rest);
  }

  lemma NestedDrains(sh: Shared, t: nat, isLoader: bool, th: Thread)
    requires DrainPre(sh, isLoader, th) && th.ctl.top.EnterNested?
    requires EnterNestedStep(sh, t, th, th.ctl.top.code, th.ctl.rest).Some?
    ensures DrainPost(sh, isLoader, th, EnterNestedStep(sh, t, th, th.ctl.top.code, th.ctl.rest).value)
  {
    var rest := th.ctl.rest;
    GoesBack(sh.closing, isLoader, th.ctl);
    var o := EnterNestedStep(sh, t, th, th.ctl.top.code, rest).value;
    GoesPlumbing(sh.closing, isLoader, Leave(true), rest);
    GoesPlumbing(sh.closing, isLoader, Io(Worker(th.ctl.top.code)), Cons(Leave(true), rest));
    NeutralStep(sh, isLoader, th, o, RoleOf(th.ctl), Pending(th.ctl));
  }

  lemma LeaveDrains(sh: Shared, t: nat, isLoader: bool, th: Thread)
    requires DrainPre(sh, isLoader, th) && th.ctl.top.Leave?
    requires LeaveStep(sh, th, th.ctl.rest).Some?
    ensures DrainPost(sh, isLoader, th, LeaveStep(sh, th, th.ctl.rest).value)
  {
    var rest := th.ctl.rest;
    GoesBack(sh.closing, isLoader, th.ctl);
    AfterTop(th.ctl);
  }

  lemma IoControlDrains(sh: Shared, t: nat, isLoader: bool, th: Thread)
    requires DrainPre(sh, isLoader, th) && th.ctl.top.Io? && th.ctl.top.io.IoControl?
    ensures DrainPost(sh, isLoader, th, IoStep(sh, th, th.ctl.top.io, th.ctl.rest).value)
  {
    var rest, code := th.ctl.rest, th.ctl.top.io.code;
    GoesBack(sh.closing, isLoader, th.ctl);
    GoesPlumbing(sh.closing, isLoader, Io(Worker(code)), rest);
    GoesPlumbing(sh.closing, isLoader, InCallback(code, false), rest);
    NeutralStep(sh, isLoader, th, IoStep(sh, th, th.ctl.top.io, rest).value, RoleOf(th.ctl), Some(code));
  }

  lemma WorkerDrains(sh: Shared, t: nat, isLoader: bool, th: Thread)
    requires DrainPre(sh, isLoader, th) && th.ctl.top.Io? && th.ctl.top.io.Worker?
    ensures DrainPost(sh, isLoader, th, IoStep(sh, th, th.ctl.top.io, th.ctl.rest).value)
  {
    var rest, code := th.ctl.rest, th.ctl.top.io.code;
    GoesBack(sh.closing, isLoader, th.ctl);
    GoesPlumbing(sh.closing, isLoader, InDevice(code), rest);
    NeutralStep(sh, isLoader, th, IoStep(sh, th, th.ctl.top.io, rest).value, RoleOf(th.ctl), Some(code));
  }

  lemma CallbackDrains(sh: Shared, t: nat, isLoader: bool, th: Thread, a: Action)
    requires DrainPre(sh, isLoader, th) && th.ctl.top.InCallback?
    requires a.CallbackCalls? ==> th.ctl.top == InCallback(a.code, false)
    requires a.CallbackReturns? ==> th.ctl.top.forwarded && a.status == th.status
    requires CallbackStep(sh, th, th.ctl.top.code, th.ctl.rest, a).Some?
    ensures DrainPost(sh, isLoader, th, CallbackStep(sh, th, th.ctl.top.code, th.ctl.rest, a).value)
  {
    var rest := th.ctl.rest;
    GoesBack(sh.closing, isLoader, th.ctl);
    var o := CallbackStep(sh, th, th.ctl.top.code, rest, a).value;
    if a.CallbackCalls? {
      GoesPlumbing(sh.closing, isLoader, InCallback(th.ctl.top.code, true), rest);
      GoesPlumbing(sh.closing, isLoader, EnterNested(a.code), Cons(InCallback(th.ctl.top.code, true), rest));
    } else {
      GoesPlumbing(sh.closing, isLoader, Relock, rest);
    }
    NeutralStep(sh, isLoader, th, o, RoleOf(th.ctl), Pending(th.ctl));
  }

  lemma DeviceDrains(sh: Shared, t: nat, isLoader: bool, th: Thread, a: Action)
    requires DrainPre(sh, isLoader, th) && th.ctl.top.InDevice?
    requires DeviceStep(sh, th, th.ctl.top.code, Cons(Relock, th.ctl.rest), a).Some?
    ensures DrainPost(sh, isLoader, th, DeviceStep(sh, th, th.ctl.top.code, Cons(Relock, th.ctl.rest), a).value)
  {
    var rest := th.ctl.rest;
    GoesBack(sh.closing, isLoader, th.ctl);
  }

  lemma RelockDrains(sh: Shared, t: nat, isLoader: bool, th: Thread)
    requires DrainPre(sh, isLoader, th) && th.ctl.top.Relock?
    requires RelockStep(sh, t, th, false, th.ctl.rest).Some?
    ensures DrainPost(sh, isLoader, th, RelockStep(sh, t, th, false, th.ctl.rest).value)
  {
    var rest := th.ctl.rest;
    GoesBack(sh.closing, isLoader, th.ctl);
  }

  lemma CdOpenDrains(sh: Shared, t: nat, isLoader: bool, th: Thread, a: Action)
    requires DrainPre(sh, isLoader, th) && th.ctl.top.PushStack?
    requires CdOpenStep(sh, th, th.ctl.top.cfg, th.ctl.rest, a).Some?
    ensures DrainPost(sh, isLoader, th, CdOpenStep(sh, th, th.ctl.top.cfg, th.ctl.rest, a).value)
  {
    var rest := th.ctl.rest;
    GoesBack(sh.closing, isLoader, th.ctl);
  }

  lemma PushNextDrains(sh: Shared, isLoader: bool, th: Thread)
    requires DrainPre(sh, isLoader, th) && th.ctl.top.Load? && th.ctl.top.load.PushNext?
    ensures DrainPost(sh, isLoader, th, LoadStep(sh, th, th.ctl.top.load, th.ctl.rest))
  {
    var load := th.ctl.top.load;
    GoesBack(sh.closing, isLoader, th.ctl);
    GoesIssuing(sh.closing, isLoader, Push(load.m), Load(AfterPush(load.list)), th.ctl.rest);
  }

  lemma AfterPushDrains(sh: Shared, isLoader: bool, th: Thread)
    requires DrainPre(sh, isLoader, th) && th.ctl.top.Load? && th.ctl.top.load.AfterPush?
    ensures DrainPost(sh, isLoader, th, LoadStep(sh, th, th.ctl.top.load, th.ctl.rest))
  {
    var rest := th.ctl.rest;
    GoesBack(sh.closing, isLoader, th.ctl);
    match DecideLoad(sh.closing, th.status, th.ctl.top.load)
    case LoadGoto(next) => GoesOn(sh.closing, isLoader, Load(next), rest);
    case LoadUnload(st) => AllowedDo2(sh.closing, isLoader, PopStack, Call(Return(st)), rest);
    case _ =>
  }

  lemma StackClosingDrains(sh: Shared, isLoader: bool, th: Thread)
    requires DrainPre(sh, isLoader, th) && th.ctl.top.Load?
        && (th.ctl.top.load.StackClosing? || th.ctl.top.load.StackClosingTest?)
    ensures DrainPost(sh, isLoader, th, LoadStep(sh, th, th.ctl.top.load, th.ctl.rest))
  {
    var rest := th.ctl.rest;
    GoesBack(sh.closing, isLoader, th.ctl);
    if th.ctl.top.load.StackClosing? {
      GoesIssuing(sh.closing, isLoader, Pop, Load(StackClosingTest), rest);
    } else if th.status == StatusSuccess {
      GoesOn(sh.closing, isLoader, Load(StackClosing), rest);
    }
  }

  lemma LoadDrains(sh: Shared, t: nat, isLoader: bool, th: Thread)
    requires DrainPre(sh, isLoader, th) && th.ctl.top.Load?
    ensures DrainPost(sh, isLoader, th, LoadStep(sh, th, th.ctl.top.load, th.ctl.rest))
  {
    match th.ctl.top.load
    case PushNext(_, _) => PushNextDrains(sh, isLoader, th);
    case AfterPush(_) => AfterPushDrains(sh, isLoader, th);
    case _ => StackClosingDrains(sh, isLoader, th);
  }

  predicate CallMoveAllowed(isLoader: bool, move: CallMove) {
    match move
    case CallDone(_) => true
    case CallIssue(code, next) => isLoader && Harmless(code) && CallAllowed(isLoader, next)
    case CallIssueLast(code) => !code.Push?
    case CallWork(code) => !code.Push?
    case CallLoad(cfg, next) => isLoader && cfg.cdNone && CallAllowed(isLoader, next)
    case CallLoadOpen(cfg, code, next) => isLoader && cfg.cdNone && Harmless(code) && CallAllowed(isLoader, next)
    case CallUnload(_) => isLoader
  }

  lemma DecisionAllowed(isLoader: bool, status: Status, call: CallItem)
    requires CallAllowed(isLoader, call)
    ensures CallMoveAllowed(isLoader, DecideCall(status, call))
  {
  }

  lemma CallGoes(closing: bool, isLoader: bool, th: Thread, move: CallMove, rest: Ctl)
    requires CallMoveAllowed(isLoader, move) && Resumes(rest) && Goes(closing, isLoader, rest, Otherwise, None)
    ensures AllAllowed(closing, isLoader, MoveCall(th, move, rest).ctl) && RequestFits(MoveCall(th, move, rest).ctl)
  {
    match move
    case CallDone(_) =>
    case CallIssue(code, next) => GoesIssuing(closing, isLoader, code, Call(next), rest);
    case CallIssueLast(code) => GoesPlumbing(closing, isLoader, Io(IoControl(code)), rest);
    case CallWork(code) => GoesPlumbing(closing, isLoader, Io(Worker(code)), rest);
    case CallLoad(cfg, next) => AllowedDo2(closing, isLoader, PushStack(cfg), Call(next), rest);
    case CallLoadOpen(cfg, code, next) =>
      AllowedDo3(closing, isLoader, PushStack(cfg), Call(OpenEndpointBy(code)), Call(next), rest);
    case CallUnload(st) => AllowedDo2(closing, isLoader, PopStack, Call(Return(st)), rest);
  }

  lemma CallDrains(sh: Shared, t: nat, isLoader: bool, th: Thread)
    requires DrainPre(sh, isLoader, th) && th.ctl.top.Call?
    ensures DrainPost(sh, isLoader, th, Outcome(sh, CallStep(th, th.ctl.top.call, th.ctl.rest), false))
  {
    var rest := th.ctl.rest;
    GoesBack(sh.closing, isLoader, th.ctl);
    DecisionAllowed(isLoader, th.status, th.ctl.top.call);
    CallGoes(sh.closing, isLoader, th, DecideCall(th.status, th.ctl.top.call), rest);
  }

  lemma PopStackDrains(sh: Shared, t: nat, isLoader: bool, th: Thread)
    requires DrainPre(sh, isLoader, th) && th.ctl.top.PopStack?
    requires PopStackStep(sh, th, th.ctl.rest).Some?
    ensures DrainPost(sh, isLoader, th, PopStackStep(sh, th, th.ctl.rest).value)
  {
    var rest := th.ctl.rest;
    GoesBack(sh.closing, isLoader, th.ctl);
  }

  lemma PopLoopDrains(sh: Shared, t: nat, isLoader: bool, th: Thread)
    requires DrainPre(sh, isLoader, th) && th.ctl.top == Unload(PopLoop)
    ensures DrainPost(sh, isLoader, th, UnloadStep(sh, th, PopLoop, th.ctl.rest).value)
  {
    var rest := th.ctl.rest;
    GoesBack(sh.closing, isLoader, th.ctl);
    var o := UnloadStep(sh, th, PopLoop, rest).value;
    GoesIssuing(sh.closing, isLoader, Pop, Unload(PopTest), rest);
    NeutralStep(sh, isLoader, th, o, TestsPop, Some(Pop));
  }

  lemma PopTestDrains(sh: Shared, t: nat, isLoader: bool, th: Thread)
    requires DrainPre(sh, isLoader, th) && th.ctl.top == Unload(PopTest)
    ensures DrainPost(sh, isLoader, th, UnloadStep(sh, th, PopTest, th.ctl.rest).value)
  {
    var rest := th.ctl.rest;
    GoesBack(sh.closing, isLoader, th.ctl);
    var o := UnloadStep(sh, th, PopTest, rest).value;
    if th.status == StatusSuccess {
      GoesOn(sh.closing, isLoader, Unload(PopLoop), rest);
      NeutralStep(sh, isLoader, th, o, WantsPop, None);
    } else {
      GoesIssuing(sh.closing, isLoader, CdCancelIo, Unload(PopCancelled), rest);
      NeutralStep(sh, isLoader, th, o, Otherwise, Some(CdCancelIo));
    }
  }

  lemma PopCancelledDrains(sh: Shared, t: nat, isLoader: bool, th: Thread)
    requires DrainPre(sh, isLoader, th) && th.ctl.top == Unload(PopCancelled)
    ensures DrainPost(sh, isLoader, th, UnloadStep(sh, th, PopCancelled, th.ctl.rest).value)
  {
    var rest := th.ctl.rest;
    GoesBack(sh.closing, isLoader, th.ctl);
    var o := UnloadStep(sh, th, PopCancelled, rest).value;
    GoesOn(sh.closing, isLoader, UnloadWait(AtHead, 0, sh.acquired + 1), rest);
    NeutralStep(sh, isLoader, th, o, Otherwise, None);
  }

  /** Nothing that draining is about changes, except that an unload may be over. */
  predicate Keeps(sh: Shared, s1: Shared) {
    s1.modules == sh.modules && s1.closing == sh.closing && (s1.cd ==> sh.cd) && (s1.unloading ==> sh.unloading)
  }

  lemma WaitsKeep(sh: Shared)
    ensures Keeps(sh, FinishUnload(sh)) && Keeps(sh, SleepUnload(sh)) && Keeps(sh, SleepClose(sh))
  {
  }

  lemma UnloadWaitShared(sh: Shared, t: nat, th: Thread, p: Phase, rounds: nat, since: nat, rest: Ctl)
    requires UnloadWaitStep(sh, t, th, p, rounds, since, rest).Some?
    ensures var o := UnloadWaitStep(sh, t, th, p, rounds, since, rest).value; Keeps(sh, o.sh) && !o.spawns
  {
    WaitsKeep(sh);
  }

  lemma UnloadWaitContinues(sh: Shared, t: nat, th: Thread, p: Phase, rounds: nat, since: nat, rest: Ctl)
      returns (p1: Phase, rounds1: nat)
    requires UnloadWaitStep(sh, t, th, p, rounds, since, rest).Some?
    ensures var c1 := UnloadWaitStep(sh, t, th, p, rounds, since, rest).value.th.ctl;
            c1 == rest || c1 == Cons(UnloadWait(p1, rounds1, since), rest)
  {
    match p
    case AtHead => p1, rounds1 := Asleep(sh.nextEvent), rounds + 1;
    case Asleep(e) => p1, rounds1 := Awake(e), rounds;
    case Awake(_) => p1, rounds1 := AtHead, rounds;
  }

  lemma UnloadWaitGoes(closing: bool, isLoader: bool, sh: Shared, t: nat, th: Thread, p: Phase, rounds: nat,
      since: nat, rest: Ctl)
    requires UnloadWaitStep(sh, t, th, p, rounds, since, rest).Some?
    requires (isLoader || closing) && Resumes(rest) && Goes(closing, isLoader, rest, Otherwise, None)
    ensures Goes(closing, isLoader, UnloadWaitStep(sh, t, th, p, rounds, since, rest).value.th.ctl, Otherwise, None)
  {
    var p1, rounds1 := UnloadWaitContinues(sh, t, th, p, rounds, since, rest);
    GoesOn(closing, isLoader, UnloadWait(p1, rounds1, since), rest);
  }

  lemma UnloadWaitDrains(sh: Shared, t: nat, isLoader: bool, th: Thread)
    requires DrainPre(sh, isLoader, th) && th.ctl.top.UnloadWait?
    requires UnloadWaitStep(sh, t, th, th.ctl.top.phase, th.ctl.top.rounds, th.ctl.top.since, th.ctl.rest).Some?
    ensures DrainPost(sh, isLoader, th,
                UnloadWaitStep(sh, t, th, th.ctl.top.phase, th.ctl.top.rounds, th.ctl.top.since, th.ctl.rest).value)
  {
    var i, rest := th.ctl.top, th.ctl.rest;
    var o := UnloadWaitStep(sh, t, th, i.phase, i.rounds, i.since, rest).value;
    GoesBack(sh.closing, isLoader, th.ctl);
    UnloadWaitShared(sh, t, th, i.phase, i.rounds, i.since, rest);
    UnloadWaitGoes(sh.closing, isLoader, sh, t, th, i.phase, i.rounds, i.since, rest);
    NeutralStep(sh, isLoader, th, o, Otherwise, None);
  }

  lemma CloseBeginDrains(sh: Shared, t: nat, isLoader: bool, th: Thread)
    requires DrainPre(sh, isLoader, th) && th.ctl.top.CloseBegin?
    requires To(sh, th, Cons(CloseWait(AtHead, 0, sh.acquired), th.ctl.rest)).Some?
    ensures DrainPost(sh, isLoader, th, To(sh, th, Cons(CloseWait(AtHead, 0, sh.acquired), th.ctl.rest)).value)
  {
    var rest := th.ctl.rest;
    GoesBack(sh.closing, isLoader, th.ctl);
    GoesOn(sh.closing, isLoader, CloseWait(AtHead, 0, sh.acquired), rest);
    NeutralStep(sh, isLoader, th, To(sh, th, Cons(CloseWait(AtHead, 0, sh.acquired), rest)).value, Otherwise, None);
  }

  lemma CloseWaitShared(sh: Shared, t: nat, th: Thread, p: Phase, rounds: nat, since: nat, rest: Ctl)
    requires CloseWaitStep(sh, t, th, p, rounds, since, rest).Some?
    ensures var o := CloseWaitStep(sh, t, th, p, rounds, since, rest).value; Keeps(sh, o.sh) && !o.spawns
  {
    match p
    case AtHead => WaitsKeep(sh);
    case Asleep(_) =>
    case Awake(_) =>
  }

  lemma CloseWaitContinues(sh: Shared, t: nat, th: Thread, p: Phase, rounds: nat, since: nat, rest: Ctl)
      returns (p1: Phase, rounds1: nat)
    requires CloseWaitStep(sh, t, th, p, rounds, since, rest).Some?
    ensures var c1 := CloseWaitStep(sh, t, th, p, rounds, since, rest).value.th.ctl;
            c1 == rest || c1 == Cons(CloseWait(p1, rounds1, since), rest)
  {
    match p
    case AtHead => p1, rounds1 := Asleep(sh.nextEvent), rounds + 1;
    case Asleep(e) => p1, rounds1 := Awake(e), rounds;
    case Awake(_) => p1, rounds1 := AtHead, rounds;
  }

  lemma CloseWaitGoes(closing: bool, isLoader: bool, sh: Shared, t: nat, th: Thread, p: Phase, rounds: nat,
      since: nat, rest: Ctl)
    requires CloseWaitStep(sh, t, th, p, rounds, since, rest).Some?
    requires closing && Resumes(rest) && Goes(closing, isLoader, rest, Otherwise, None)
    ensures Goes(closing, isLoader, CloseWaitStep(sh, t, th, p, rounds, since, rest).value.th.ctl, Otherwise, None)
  {
    var p1, rounds1 := CloseWaitContinues(sh, t, th, p, rounds, since, rest);
    GoesOn(closing, isLoader, CloseWait(p1, rounds1, since), rest);
  }

  lemma CloseWaitDrains(sh: Shared, t: nat, isLoader: bool, th: Thread)
    requires DrainPre(sh, isLoader, th) && th.ctl.top.CloseWait?
    requires CloseWaitStep(sh, t, th, th.ctl.top.phase, th.ctl.top.rounds, th.ctl.top.since, th.ctl.rest).Some?
    ensures DrainPost(sh, isLoader, th,
                CloseWaitStep(sh, t, th, th.ctl.top.phase, th.ctl.top.rounds, th.ctl.top.since, th.ctl.rest).value)
  {
    var i, rest := th.ctl.top, th.ctl.rest;
    var o := CloseWaitStep(sh, t, th, i.phase, i.rounds, i.since, rest).value;
    GoesBack(sh.closing, isLoader, th.ctl);
    CloseWaitShared(sh, t, th, i.phase, i.rounds, i.since, rest);
    CloseWaitGoes(sh.closing, isLoader, sh, t, th, i.phase, i.rounds, i.since, rest);
    NeutralStep(sh, isLoader, th, o, Otherwise, None);
  }

  lemma StepDrains(sh: Shared, t: nat, isLoader: bool, th: Thread, a: Action)
    requires DrainPre(sh, isLoader, th) && ThreadStep(sh, t, th, a).Some?
    requires a.CallbackCalls? ==> th.ctl.top == InCallback(a.code, false)
    requires a.CallbackReturns? ==> th.ctl.top.InCallback? && th.ctl.top.forwarded && a.status == th.status
    ensures DrainPost(sh, isLoader, th, ThreadStep(sh, t, th, a).value)
  {
    match th.ctl.top
    case Enter(_) => EnterDrains(sh, t, isLoader, th);
    case EnterNested(_) => NestedDrains(sh, t, isLoader, th);
    case Leave(_) => LeaveDrains(sh, t, isLoader, th);
    case Io(io) =>
      if io.IoControl? {
        IoControlDrains(sh, t, isLoader, th);
      } else {
        WorkerDrains(sh, t, isLoader, th);
      }
    case InCallback(_, _) => CallbackDrains(sh, t, isLoader, th, a);
    case InDevice(_) => DeviceDrains(sh, t, isLoader, th, a);
    case Relock => RelockDrains(sh, t, isLoader, th);
    case PushStack(_) => CdOpenDrains(sh, t, isLoader, th, a);
    case Load(_) => LoadDrains(sh, t, isLoader, th);
    case Call(_) => CallDrains(sh, t, isLoader, th);
    case PopStack => PopStackDrains(sh, t, isLoader, th);
    case Unload(unl) =>
      match unl {
        case PopLoop => PopLoopDrains(sh, t, isLoader, th);
        case PopTest => PopTestDrains(sh, t, isLoader, th);
        case PopCancelled => PopCancelledDrains(sh, t, isLoader, th);
      }
    case UnloadWait(_, _, _) => UnloadWaitDrains(sh, t, isLoader, th);
    case CloseBegin => CloseBeginDrains(sh, t, isLoader, th);
    case CloseWait(_, _, _) => CloseWaitDrains(sh, t, isLoader, th);
    case _ => assert false;
  }

  // ---------- all runs ----------

  ghost predicate SomebodyWillPop(s: State) {
    exists t :: 0 <= t < |s.threads| && WillPop(s.sh.unloading, s.threads[t])
  }

  ghost predicate ThreadsAllowed(s: State, loader: nat) {
    forall t :: 0 <= t < |s.threads| ==>
      AllAllowed(s.sh.closing, t == loader, s.threads[t].ctl) && RequestFits(s.threads[t].ctl)
  }

  ghost predicate DrainInv(s: State, loader: nat) {
    && Inv(s)
    && AllFlat(s)
    && !s.sh.cd
    && ThreadsAllowed(s, loader)
    && ((s.sh.closing || s.sh.unloading) && s.sh.modules != [] ==> SomebodyWillPop(s))
  }

  lemma OnlyTheLoaderUnloads(c: Ctl)
    requires AllAllowed(false, false, c)
    ensures TallyOf(c).unloads == 0
  {
  }

  lemma LoadOverNoUnload(c: Ctl)
    requires Flat(c) && c.Cons? && c.top.Load?
    ensures TallyOf(c).unloads == 0
  {
  }

  /** Before the stack closes, only the loader unloads, and not in the middle of a load. */
  lemma LoadingIsNotUnloading(s: State, loader: nat, t: nat)
    requires DrainInv(s, loader) && t < |s.threads| && s.threads[t].ctl.Cons? && s.threads[t].ctl.top.Load?
    requires !s.sh.closing
    ensures !s.sh.unloading
  {
    LoadOverNoUnload(s.threads[t].ctl);
    if s.sh.unloading {
      var u := TotalWitness(Unloads, s.threads);
      if u != loader {
        OnlyTheLoaderUnloads(s.threads[u].ctl);
      }
    }
  }

  lemma OthersStillPop(s: State, t: nat, o: Outcome, s1: State)
    requires Inv(s) && StepOf(s, t, o, s1) && SomebodyWillPop(s) && !WillPop(s.sh.unloading, s.threads[t])
    requires o.sh.unloading ==> s.sh.unloading
    ensures SomebodyWillPop(s1)
  {
    var w :| 0 <= w < |s.threads| && WillPop(s.sh.unloading, s.threads[w]);
    assert s1.threads[w] == s.threads[w];
    assert WillPop(s1.sh.unloading, s1.threads[w]);
  }

  lemma SomebodyStillPops(s: State, t: nat, o: Outcome, s1: State)
    requires Inv(s) && StepOf(s, t, o, s1) && s1.sh == o.sh && s.threads[t].ctl.Cons?
    requires (s.sh.closing || s.sh.unloading) && s.sh.modules != [] ==> SomebodyWillPop(s)
    requires Accounted(s.sh, s.threads[t], o) && (o.sh.unloading && !s.sh.unloading ==> WillPop(true, o.th))
    requires (o.sh.closing || o.sh.unloading) && o.sh.modules != []
    ensures SomebodyWillPop(s1)
  {
    if WillPop(o.sh.unloading, o.th) {
      assert s1.threads[t] == o.th;
    } else {
      OthersStillPop(s, t, o, s1);
    }
  }

  lemma MoveDrains(env: Env, s: State, past: Past, loader: nat, turn: Turn)
    requires DrainInv(s, loader) && TurnAllowed(env, s, past, turn) && !turn.a.Calls?
    requires Step(s, turn.t, turn.a).Some?
    ensures DrainInv(Step(s, turn.t, turn.a).value, loader)
  {
    var t, a := turn.t, turn.a;
    var th := s.threads[t];
    var s1 := Step(s, t, a).value;
    var o := ThreadStep(s.sh, t, th, a).value;
    if th.ctl.top.Load? && !s.sh.closing {
      LoadingIsNotUnloading(s, loader, t);
    }
    StepDrains(s.sh, t, t == loader, th, a);
    MoveKeeps(s, t, a);
    FlatKept(s, t, a);
    InvGivesReady(s, t);
    ThreadStepOk(s.sh, t, th, a);
    OthersAllowed(s, loader, t, o, s1);
    if (s1.sh.closing || s1.sh.unloading) && s1.sh.modules != [] {
      SomebodyStillPops(s, t, o, s1);
    }
  }

  lemma OthersAllowed(s: State, loader: nat, t: nat, o: Outcome, s1: State)
    requires DrainInv(s, loader) && StepOf(s, t, o, s1) && s.threads[t].ctl.Cons?
    requires DrainPost(s.sh, t == loader, s.threads[t], o) && (s.sh.closing ==> o.sh.closing)
    ensures forall u :: 0 <= u < |s1.threads| ==>
              AllAllowed(s1.sh.closing, u == loader, s1.threads[u].ctl) && RequestFits(s1.threads[u].ctl)
  {
    forall u | 0 <= u < |s1.threads|
      ensures AllAllowed(s1.sh.closing, u == loader, s1.threads[u].ctl) && RequestFits(s1.threads[u].ctl)
    {
      if u != t && s1.sh.closing && !s.sh.closing {
        ClosingAllowsMore(u == loader, s.threads[u].ctl);
      }
    }
  }

  lemma EntryAllowed(closing: bool, isLoader: bool, api: Api)
    requires ApiFits(isLoader, api)
    ensures AllAllowed(closing, isLoader, Cons(Enter(api), Nil)) && RequestFits(Cons(Enter(api), Nil))
  {
  }

  lemma StillSomebody(s: State, t: nat, th: Thread, s1: State)
    requires SomebodyWillPop(s) && t < |s.threads| && s.threads[t].ctl.Nil?
    requires s1.threads == s.threads[t := th] && s1.sh.unloading == s.sh.unloading
    ensures SomebodyWillPop(s1)
  {
    var w :| 0 <= w < |s.threads| && WillPop(s.sh.unloading, s.threads[w]);
    assert s1.threads[w] == s.threads[w];
  }

  lemma EnteredAllowed(s: State, loader: nat, t: nat, api: Api, th: Thread, s1: State, u: nat)
    requires DrainInv(s, loader) && ApiFits(t == loader, api) && t < |s.threads| && u < |s.threads|
    requires th.ctl == Cons(Enter(api), Nil) && s1.threads == s.threads[t := th] && s1.sh.closing == s.sh.closing
    ensures AllAllowed(s1.sh.closing, u == loader, s1.threads[u].ctl) && RequestFits(s1.threads[u].ctl)
  {
    if u == t {
      EntryAllowed(s.sh.closing, t == loader, api);
    } else {
      assert s1.threads[u] == s.threads[u];
    }
  }

  lemma Entered(s: State, loader: nat, t: nat, api: Api, th: Thread, s1: State)
    requires DrainInv(s, loader) && ApiFits(t == loader, api) && t < |s.threads| && s.threads[t].ctl.Nil?
    requires th.ctl == Cons(Enter(api), Nil)
    requires s1.threads == s.threads[t := th] && s1.sh == s.sh.(closeCalled := s1.sh.closeCalled)
    requires Inv(s1) && AllFlat(s1)
    ensures DrainInv(s1, loader)
  {
    forall u | 0 <= u < |s1.threads|
      ensures AllAllowed(s1.sh.closing, u == loader, s1.threads[u].ctl) && RequestFits(s1.threads[u].ctl)
    {
      EnteredAllowed(s, loader, t, api, th, s1, u);
    }
    if (s1.sh.closing || s1.sh.unloading) && s1.sh.modules != [] {
      StillSomebody(s, t, th, s1);
    }
  }

  lemma NoLoaderNeeded(closing: bool, c: Ctl)
    requires AllAllowed(closing, false, c)
    ensures AllAllowed(closing, true, c)
  {
  }

  lemma SwitchedAllowed(closing: bool, was: bool, now: bool, c: Ctl)
    requires AllAllowed(closing, was, c) && (was && !now ==> c.Nil?)
    ensures AllAllowed(closing, now, c)
  {
    if now && !was {
      NoLoaderNeeded(closing, c);
    }
  }

  lemma SwitchThreads(s: State, loader: nat, t: nat)
    requires ThreadsAllowed(s, loader) && Alone(s, loader, t)
    ensures ThreadsAllowed(s, t)
  {
    forall u | 0 <= u < |s.threads|
      ensures AllAllowed(s.sh.closing, u == t, s.threads[u].ctl)
    {
      SwitchedAllowed(s.sh.closing, u == loader, u == t, s.threads[u].ctl);
    }
  }

  /** Once the last loader is outside, another thread may take its role. */
  lemma SwitchLoader(s: State, loader: nat, t: nat)
    requires DrainInv(s, loader) && Alone(s, loader, t)
    ensures DrainInv(s, t)
  {
    SwitchThreads(s, loader, t);
  }

  lemma CallDrained(env: Env, s: State, past: Past, turn: Turn)
    requires DrainInv(s, past.loader) && DrainCondition(env) && TurnAllowed(env, s, past, turn) && turn.a.Calls?
    requires Step(s, turn.t, turn.a).Some?
    ensures DrainInv(Step(s, turn.t, turn.a).value, Next(past, turn).loader)
  {
    var s1 := Step(s, turn.t, turn.a).value;
    CallKeeps(s, turn.t, turn.a.api);
    FlatKept(s, turn.t, turn.a);
    AllowedApiFits(env, turn.a.api);
    if Loads(turn.a.api) {
      SwitchLoader(s, past.loader, turn.t);
    }
    Entered(s, Next(past, turn).loader, turn.t, turn.a.api, s1.threads[turn.t], s1);
  }

  lemma InitialDrains(n: nat, hasCallback: bool, loader: nat)
    ensures DrainInv(Initial(n, hasCallback), loader)
  {
    InitialInv(n, hasCallback);
  }

  lemma {:induction false} RunDrains(env: Env, s: State, schedule: seq<Turn>)
    requires DrainInv(s, |s.threads|) && DrainCondition(env) && ScheduleAllowed(env, s, schedule)
             && Run(s, schedule).Some?
    ensures DrainInv(Run(s, schedule).value, PastOf(|s.threads|, schedule).loader)
    decreases |schedule|
  {
    if schedule == [] {
    } else {
      var last := |schedule| - 1;
      RunDrains(env, s, schedule[..last]);
      var m, past := Run(s, schedule[..last]).value, PastOf(|s.threads|, schedule[..last]);
      if schedule[last].a.Calls? {
        CallDrained(env, m, past, schedule[last]);
      } else {
        MoveDrains(env, m, past, past.loader, schedule[last]);
      }
    }
  }

  /** Whoever is in charge of the modules left is not the closer on its way to NtClose. */
  lemma FreeingDoesNotPop(s: State, t: nat, o: Outcome)
    requires Inv(s) && t < |s.threads| && s.threads[t].ctl.Cons?
    requires OutcomeOk(s.sh, t, s.threads[t], o) && o.sh.freed
    ensures !WillPop(s.sh.unloading, s.threads[t])
  {
    assert s.threads[t].ctl.top.CloseWait?;
  }

  lemma FreeingIsDrained(s: State, loader: nat, t: nat, o: Outcome)
    requires DrainInv(s, loader) && t < |s.threads| && s.threads[t].ctl.Cons?
    requires OutcomeOk(s.sh, t, s.threads[t], o) && o.sh.freed
    ensures s.sh.modules == []
  {
    FreeingDoesNotPop(s, t, o);
    if s.sh.modules != [] {
      var w :| 0 <= w < |s.threads| && WillPop(s.sh.unloading, s.threads[w]);
      FreedAlone(s, t, o, w);
    }
  }

  /** When IcaStackClose reaches NtClose, the device holds no module, whatever the interleaving. */
  lemma ConcurrentDrain(env: Env, n: nat, hasCallback: bool, schedule: seq<Turn>, s: State, t: nat)
    requires DrainCondition(env) && ScheduleAllowed(env, Initial(n, hasCallback), schedule)
    requires Run(Initial(n, hasCallback), schedule) == Some(s)
    ensures Frees(s, t, Go) ==> s.sh.modules == []
  {
    InitialDrains(n, hasCallback, n);
    RunDrains(env, Initial(n, hasCallback), schedule);
    if Frees(s, t, Go) {
      InvGivesReady(s, t);
      ThreadStepOk(s.sh, t, s.threads[t], Go);
      FreeingIsDrained(s, PastOf(n, schedule).loader, t, ThreadStep(s.sh, t, s.threads[t], Go).value);
    }
  }
}
