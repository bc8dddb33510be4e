/**
 The ICA stack as a transition system: any number of threads run the calls of icaapi on one
 STACK, interleaved at every point where the code releases or waits for the critical section.
 */
module StackMachine {
  import opened IcaTypes
  import opened Control

  /** A thread: its control state and the values of `Status` and of the last reply buffer. */
  datatype Thread = Thread(ctl: Ctl, status: Status, reply: Reply)

  /**
   The STACK structure, its device and the kernel's event objects. `acquired` counts every
   reference ever taken; `closeCalled` and `freed` say how far IcaStackClose has come.
   */
  datatype Shared = Shared(
    owner: Option<nat>,
    refCount: int,
    hUnload: Option<nat>,
    hClose: Option<nat>,
    signalled: set<nat>,
    nextEvent: nat,
    hasCallback: bool,
    cd: bool,                    // the CD's entry points are set
    cdDll: bool,                 // hCdDLL is set
    loaded: bool,
    unloading: bool,
    closing: bool,
    modules: seq<Module>,
    acquired: nat,
    closeCalled: bool,
    freed: bool)

  datatype State = State(sh: Shared, threads: seq<Thread>)

  datatype CdOutcome = LoadFails | EntryPointMissing | OpenFails(status: Status) | Opens(status: Status)

  /** What decides a step: nothing, the device, the callback, the CD or a caller. */
  datatype Action =
    | Go
    | DeviceReturns(status: Status, reply: Reply)
    | CallbackCalls(code: Ioctl)
    | CallbackReturns(status: Status)
    | CdOpens(outcome: CdOutcome)
    | CdForwards(code: Ioctl)
    | CdWaits
    | CdSpawns
    | CdReturns(status: Status)
    | Calls(api: Api)
    | CallsLocked(code: Ioctl)   // _IcaStackIoControl called between a successful Accept and IcaStackUnlock

  /** The result of a thread's step; `spawns` when a CD thread was created. */
  datatype Outcome = Outcome(sh: Shared, th: Thread, spawns: bool)

  function To(sh: Shared, th: Thread, ctl: Ctl): Option<Outcome> {
    Some(Outcome(sh, th.(ctl := ctl), false))
  }

  // ---------- the primitives of icaapip.h, stack.c and the kernel ----------

  function TakeRef(sh: Shared): Shared {
    sh.(refCount := sh.refCount + 1, acquired := sh.acquired + 1)
  }

  /** The event _DecrementStackRef sets when it leaves n references. */
  function EventFor(sh: Shared, n: int): Option<nat> {
    if n == 1 && sh.hUnload.Some? then sh.hUnload
    else if n == 0 then sh.hClose
    else None
  }

  function WithEvent(signalled: set<nat>, e: Option<nat>): set<nat> {
    if e.Some? then signalled + {e.value} else signalled
  }

  /** _DecrementStackRef */
  function DropRef(sh: Shared): Shared {
    sh.(refCount := sh.refCount - 1, signalled := WithEvent(sh.signalled, EventFor(sh, sh.refCount - 1)))
  }

  /** RefCount++; UNLOCK */
  function OpenWindow(sh: Shared): Shared {
    TakeRef(sh).(owner := None)
  }

  /** LOCK; _DecrementStackRef */
  function CloseWindow(sh: Shared, t: nat): Shared {
    DropRef(sh.(owner := Some(t)))
  }

  function MaskClosing(sh: Shared, mask: bool, st: Status): Status {
    if sh.closing && mask then ClosePending else st
  }

  // ---------- entering and leaving ----------

  /** What is left to do once a call owns the critical section. */
  function Body(loaded: bool, api: Api, rest: Ctl): Ctl {
    match api
    case Close => Do2(PopStack, CloseBegin, rest)
    case Terminate => Do3(PopStack, Call(Return(StatusSuccess)), Leave(false), rest)
    case ConnectionAccept(cfg, _, reconnect) => Cons(Accept(AcceptBegin(cfg, reconnect, loaded)), rest)
    case _ => Do2(Call(Begin(api, loaded)), Leave(false), rest)
  }

  function EnterStep(sh: Shared, t: nat, th: Thread, api: Api, rest: Ctl): Option<Outcome> {
    if api.ConnectionAccept? && !api.endpoint then
      Some(Outcome(sh, th.(ctl := rest, status := InvalidParameter), false))
    else if sh.owner.Some? then None
    else
      To(sh.(owner := Some(t), closing := sh.closing || api.Close? || api.Terminate?), th, Body(sh.loaded, api, rest))
  }

  /** IcaStackIoControl as the callback calls it. */
  function EnterNestedStep(sh: Shared, t: nat, th: Thread, code: Ioctl, rest: Ctl): Option<Outcome> {
    if sh.owner.Some? then None
    else To(sh.(owner := Some(t)), th, Do2(Io(Worker(code)), Leave(true), rest))
  }

  /** UNLOCK and return; also IcaStackUnlock. */
  function LeaveStep(sh: Shared, th: Thread, rest: Ctl): Option<Outcome> {
    To(sh.(owner := None), th, rest)
  }

  function AwaitUnlockStep(sh: Shared, th: Thread, rest: Ctl, a: Action): Option<Outcome> {
    if a.Go? then LeaveStep(sh, th, rest)
    else if a.CallsLocked? then To(sh, th, Cons(Io(IoControl(a.code)), th.ctl))
    else None
  }

  // ---------- issuing an ioctl ----------

  function IoStep(sh: Shared, th: Thread, io: IoItem, rest: Ctl): Option<Outcome> {
    match io
    case IoControl(code) =>
      if sh.hasCallback then To(OpenWindow(sh), th, Cons(InCallback(code, false), rest))
      else To(sh, th, Cons(Io(Worker(code)), rest))
    case Worker(code) =>
      if sh.cd then To(sh, th, Do2(CdCode, Io(CdMask(code)), rest))
      else To(OpenWindow(sh), th, Cons(InDevice(code), rest))
    case CdMask(code) => Some(Outcome(sh, th.(ctl := rest, status := MaskClosing(sh, !code.Pop?, th.status)), false))
  }

  function CallbackStep(sh: Shared, th: Thread, code: Ioctl, rest: Ctl, a: Action): Option<Outcome> {
    if a.CallbackCalls? then To(sh, th, Do2(EnterNested(a.code), InCallback(code, true), rest))
    else if a.CallbackReturns? then Some(Outcome(sh, th.(ctl := Cons(Relock, rest), status := a.status), false))
    else None
  }

  /** IcaIoControl: the device serves the request, and the thread is on its way back to the lock. */
  function DeviceStep(sh: Shared, th: Thread, code: Ioctl, ctl: Ctl, a: Action): Option<Outcome> {
    if !a.DeviceReturns? then None
    else
      var st := DeviceStatus(code, sh.modules, a.status);
      Some(Outcome(sh.(modules := DeviceModules(code, sh.modules, st)), Thread(ctl, st, a.reply), false))
  }

  function RelockStep(sh: Shared, t: nat, th: Thread, mask: bool, rest: Ctl): Option<Outcome> {
    if sh.owner.Some? then None
    else Some(Outcome(CloseWindow(sh, t), th.(ctl := rest, status := MaskClosing(sh, mask, th.status)), false))
  }

  // ---------- the connection driver: any sequence of IcaCd* calls ----------

  function CdCodeStep(sh: Shared, th: Thread, rest: Ctl, a: Action): Option<Outcome> {
    match a
    case CdForwards(code) => To(OpenWindow(sh), th, Cons(CdDevice(code), th.ctl))
    case CdWaits => To(OpenWindow(sh), th, Cons(CdWaiting, th.ctl))
    case CdSpawns => Some(Outcome(TakeRef(sh), th, true))
    case CdReturns(status) => Some(Outcome(sh, th.(ctl := rest, status := status), false))
    case _ => None
  }

  function CdWaitingStep(sh: Shared, th: Thread, rest: Ctl, a: Action): Option<Outcome> {
    if a.DeviceReturns? then Some(Outcome(sh, th.(ctl := Cons(CdRelock(true), rest), status := a.status), false))
    else None
  }

  /** _CdThread: before and after the CD's thread procedure. */
  function CdThreadStep(sh: Shared, t: nat, th: Thread, started: bool, rest: Ctl): Option<Outcome> {
    if started then To(DropRef(sh).(owner := None), th, rest)
    else if sh.owner.Some? then None
    else To(sh.(owner := Some(t)), th, Do2(CdCode, CdThread(true), rest))
  }

  // ---------- loading ----------

  function FirstPush(cfg: Config, rest: Ctl): Ctl {
    var list := LoadList(cfg);
    Cons(Load(PushNext(list[0], list[1..])), rest)
  }

  /** _CdOpen; the CD's open routine is taken not to call back. */
  function CdOpenStep(sh: Shared, th: Thread, cfg: Config, rest: Ctl, a: Action): Option<Outcome> {
    if cfg.cdNone then
      if a.Go? then To(sh, th, FirstPush(cfg, rest)) else None
    else if a.CdOpens? then CdOpened(sh, th, cfg, rest, a.outcome)
    else None
  }

  function CdOpened(sh: Shared, th: Thread, cfg: Config, rest: Ctl, outcome: CdOutcome): Option<Outcome> {
    match outcome
    case LoadFails => Some(Outcome(sh, th.(ctl := rest, status := PdNotFound), false))
    case EntryPointMissing => Some(Outcome(sh.(cd := false), th.(ctl := rest, status := InvalidPd), false))
    case OpenFails(st) =>
      if st.Ok() then None else Some(Outcome(sh.(cd := false), th.(ctl := rest, status := st), false))
    case Opens(st) =>
      if st.Ok() then To(sh.(cd := true, cdDll := true), th, FirstPush(cfg, rest)) else None
  }

  /** What _IcaPushStack does next, after the CD is open. */
  datatype LoadMove =
    | LoadGoto(load: LoadItem)
    | LoadIssue(code: Ioctl, load: LoadItem)
    | LoadUnload(status: Status)
    | LoadReturn(status: Status)

  function DecideLoad(closing: bool, status: Status, load: LoadItem): LoadMove {
    match load
    case PushNext(m, list) => LoadIssue(Push(m), AfterPush(list))
    case AfterPush(list) =>
      if !status.Ok() then LoadUnload(status)
      else if closing then LoadGoto(StackClosing)
      else if list != [] then LoadGoto(PushNext(list[0], list[1..]))
      else LoadReturn(StatusSuccess)
    case StackClosing => LoadIssue(Pop, StackClosingTest)
    case StackClosingTest => if status == StatusSuccess then LoadGoto(StackClosing) else LoadReturn(ClosePending)
  }

  function LoadStep(sh: Shared, th: Thread, load: LoadItem, rest: Ctl): Outcome {
    MoveLoad(sh, th, DecideLoad(sh.closing, th.status, load), load.AfterPush?, rest)
  }

  /** `pushed`: the decision was taken after a push, so returning means that the load is complete. */
  function MoveLoad(sh: Shared, th: Thread, move: LoadMove, pushed: bool, rest: Ctl): Outcome {
    match move
    case LoadGoto(next) => Outcome(sh, th.(ctl := Cons(Load(next), rest)), false)
    case LoadIssue(code, next) => Outcome(sh, th.(ctl := Do2(Io(IoControl(code)), Load(next), rest)), false)
    case LoadUnload(st) => Outcome(sh, th.(ctl := Do2(PopStack, Call(Return(st)), rest)), false)
    case LoadReturn(st) =>
      Outcome(sh.(loaded := sh.loaded || pushed), th.(ctl := rest, status := st), false)
  }

  // ---------- the calls around a load ----------

  datatype CallMove =
    | CallDone(status: Status)
    | CallIssue(code: Ioctl, then_: CallItem)
    | CallIssueLast(code: Ioctl)
    | CallWork(code: Ioctl)
    | CallLoad(cfg: Config, then_: CallItem)
    | CallLoadOpen(cfg: Config, code: Ioctl, then_: CallItem)
    | CallUnload(status: Status)

  function DecideBegin(api: Api, loaded: bool): CallMove {
    match api
    case ConnectionWait(cfg) =>
      if loaded then CallIssue(WaitForConnection, AfterIoctl(false))
      else CallLoadOpen(cfg, CreateEndpoint, IfLoaded(WaitForConnection))
    case QueryLocal(cfg) =>
      if loaded then CallIssue(QueryLocalAddress, AfterIoctl(false))
      else CallLoadOpen(cfg, CreateEndpoint, IfLoaded(QueryLocalAddress))
    case ConnectionRequest(cfg) => CallLoad(cfg, IfLoaded(RequestConnection))
    case CreateShadowEndpoint(cfg) =>
      if loaded then CallDone(AddressAlreadyAssociated) else CallLoad(cfg, OpenEndpointBy(CreateEndpoint))
    case ConnectionClose(cfg) =>
      if loaded then CallIssueLast(CloseEndpoint) else CallLoadOpen(cfg, OpenEndpoint, IfLoadedClose)
    case PushConsoleStack(cfg) => CallLoad(cfg, IfLoadedConsole)
    case StackIoControl(code) => CallWork(code)
    case Wrapped(code) => CallIssueLast(code)
    case _ => CallDone(StatusSuccess)
  }

  function DecideCall(status: Status, call: CallItem): CallMove {
    match call
    case Begin(api, loaded) => DecideBegin(api, loaded)
    case OpenEndpointBy(code) => if status.Ok() then CallIssue(code, EndpointDone) else CallDone(status)
    case EndpointDone => if status.Ok() then CallDone(StatusSuccess) else CallUnload(status)
    case IfLoaded(code) => if status.Ok() then CallIssue(code, AfterIoctl(true)) else CallDone(status)
    case AfterIoctl(unload) =>
      if status.Ok() then CallDone(StatusSuccess) else if unload then CallUnload(status) else CallDone(status)
    case IfLoadedClose => if status.Ok() then CallIssue(CloseEndpoint, UnloadKeepingStatus) else CallDone(status)
    case IfLoadedConsole => if status.Ok() then CallIssueLast(ConsoleConnect) else CallDone(status)
    case UnloadKeepingStatus => CallUnload(status)
    case Return(st) => CallDone(st)
  }

  function CallStep(th: Thread, call: CallItem, rest: Ctl): Thread {
    MoveCall(th, DecideCall(th.status, call), rest)
  }

  function MoveCall(th: Thread, move: CallMove, rest: Ctl): Thread {
    match move
    case CallDone(st) => th.(ctl := rest, status := st)
    case CallIssue(code, next) => th.(ctl := Do2(Io(IoControl(code)), Call(next), rest))
    case CallIssueLast(code) => th.(ctl := Cons(Io(IoControl(code)), rest))
    case CallWork(code) => th.(ctl := Cons(Io(Worker(code)), rest))
    case CallLoad(cfg, next) => th.(ctl := Do2(PushStack(cfg), Call(next), rest))
    case CallLoadOpen(cfg, code, next) =>
      th.(ctl := Do3(PushStack(cfg), Call(OpenEndpointBy(code)), Call(next), rest))
    case CallUnload(st) => th.(ctl := Do2(PopStack, Call(Return(st)), rest))
  }

  // ---------- accepting ----------

  datatype AcceptMove =
    | AcceptGoto(acc: AcceptItem)
    | AcceptIssue(code: Ioctl, acc: AcceptItem)
    | AcceptIssueTwo(code1: Ioctl, code2: Ioctl, acc: AcceptItem)
    | AcceptLoad(cfg: Config, acc: AcceptItem)
    | Accepted
    | Refused(status: Status)

  function DecideReply(status: Status, reply: Reply, cfg: Config, rc: bool): AcceptMove {
    if !status.Ok() then Refused(status)
    else if !reply.full then Refused(InvalidBufferSize)
    else
      var again := !SameName(reply.config.wd, cfg.wd);
      var cfg1 := if again then cfg.(wd := reply.config.wd) else cfg;
      var sd := Used(reply.config.sd);
      if !again && sd == [] then AcceptGoto(AcceptQueried(rc))
      else AcceptIssue(Pop, AcceptPopped(cfg1, rc, sd, again))
  }

  function DecideAccept(st: Status, reply: Reply, acc: AcceptItem): AcceptMove {
    match acc
    case AcceptBegin(cfg, rc, loaded) =>
      if loaded then AcceptGoto(AcceptSetup(cfg, rc)) else AcceptLoad(cfg, AcceptOpened(cfg, rc))
    case AcceptOpened(cfg, rc) => if st.Ok() then AcceptGoto(AcceptSetup(cfg, rc)) else Refused(st)
    case AcceptSetup(cfg, rc) =>
      if rc then AcceptIssue(SetState, AcceptQuery(cfg, rc))
      else AcceptIssueTwo(SetConfig, WaitForIca, AcceptQuery(cfg, rc))
    case AcceptQuery(cfg, rc) => if st.Ok() then AcceptIssue(ConnectionQuery, AcceptReply(cfg, rc)) else Refused(st)
    case AcceptReply(cfg, rc) => DecideReply(st, reply, cfg, rc)
    case AcceptPopped(cfg, rc, sd, again) => if st.Ok() then AcceptGoto(AcceptPds(cfg, rc, sd, again)) else Refused(st)
    case AcceptPds(cfg, rc, sd, again) =>
      if sd == [] then AcceptIssue(Push(Wd(cfg.wd)), AcceptWdPushed(cfg, rc, again))
      else AcceptIssue(Push(Pd(sd[0].dll)), AcceptPdPushed(cfg, rc, sd[1..], again))
    case AcceptPdPushed(cfg, rc, sd, again) =>
      if st.Ok() || st == ObjectNameNotFound then AcceptGoto(AcceptPds(cfg, rc, sd, again)) else Refused(st)
    case AcceptWdPushed(cfg, rc, again) =>
      if !st.Ok() then Refused(st)
      else if again then AcceptIssue(ConnectionQuery, AcceptReply(cfg, rc))
      else AcceptGoto(AcceptQueried(rc))
    case AcceptQueried(rc) =>
      if rc then AcceptIssue(SetState, AcceptStateSet) else AcceptIssue(ConnectionSend, AcceptSent)
    case AcceptStateSet => if st.Ok() then AcceptIssue(ConnectionSend, AcceptSent) else Refused(st)
    case AcceptSent => if st.Ok() then Accepted else Refused(st)
  }

  function AcceptStep(th: Thread, acc: AcceptItem, rest: Ctl): Thread {
    MoveAccept(th, DecideAccept(th.status, th.reply, acc), rest)
  }

  function MoveAccept(th: Thread, move: AcceptMove, rest: Ctl): Thread {
    match move
    case AcceptGoto(next) => th.(ctl := Cons(Accept(next), rest))
    case AcceptIssue(code, next) => th.(ctl := Do2(Io(IoControl(code)), Accept(next), rest))
    case AcceptIssueTwo(code1, code2, next) =>
      th.(ctl := Do3(Io(IoControl(code1)), Io(IoControl(code2)), Accept(next), rest))
    case AcceptLoad(cfg, next) =>
      th.(ctl := Do3(PushStack(cfg), Call(OpenEndpointBy(OpenEndpoint)), Accept(next), rest))
    case Accepted => th.(ctl := Cons(AwaitUnlock, rest), status := StatusSuccess)
    case Refused(st) => th.(ctl := Do3(PopStack, Call(Return(st)), Leave(false), rest), status := st)
  }

  // ---------- unloading ----------

  /** hUnloadEvent = CreateEvent(...); UNLOCK */
  function SleepUnload(sh: Shared): Shared {
    sh.(hUnload := Some(sh.nextEvent), nextEvent := sh.nextEvent + 1, owner := None)
  }

  /** The end of _IcaPopStack: drop the own reference, close the CD, clear the flags. */
  function FinishUnload(sh: Shared): Shared {
    DropRef(sh).(cd := false, cdDll := false, loaded := false, unloading := false)
  }

  /** _IcaPopStack up to the fUnloading test. */
  function PopStackStep(sh: Shared, th: Thread, rest: Ctl): Option<Outcome> {
    if sh.unloading then To(sh, th, rest) else To(sh.(unloading := true), th, Cons(Unload(PopLoop), rest))
  }

  function UnloadStep(sh: Shared, th: Thread, unl: UnloadItem, rest: Ctl): Option<Outcome> {
    match unl
    case PopLoop => To(sh, th, Do2(Io(IoControl(Pop)), Unload(PopTest), rest))
    case PopTest =>
      if th.status == StatusSuccess then To(sh, th, Cons(Unload(PopLoop), rest))
      else To(sh, th, Do2(Io(IoControl(CdCancelIo)), Unload(PopCancelled), rest))
    case PopCancelled => To(TakeRef(sh), th, Cons(UnloadWait(AtHead, 0, sh.acquired + 1), rest))
  }

  function UnloadWaitStep(sh: Shared, t: nat, th: Thread, p: Phase, rounds: nat, since: nat, rest: Ctl)
    : Option<Outcome>
  {
    match p
    case AtHead =>
      if sh.refCount > 1 then To(SleepUnload(sh), th, Cons(UnloadWait(Asleep(sh.nextEvent), rounds + 1, since), rest))
      else To(FinishUnload(sh), th, rest)
    case Asleep(e) =>
      if e in sh.signalled then To(sh, th, Cons(UnloadWait(Awake(e), rounds, since), rest)) else None
    case Awake(e) =>
      if sh.owner.Some? then None
      else
        // with other references left the old handle stays in hUnloadEvent until the next round
        var sh1 := sh.(owner := Some(t), hUnload := if sh.refCount > 1 then sh.hUnload else None);
        To(sh1, th, Cons(UnloadWait(AtHead, rounds, since), rest))
  }

  // ---------- closing ----------

  function SleepClose(sh: Shared): Shared {
    sh.(hClose := Some(sh.nextEvent), nextEvent := sh.nextEvent + 1, owner := None)
  }

  function CloseWaitStep(sh: Shared, t: nat, th: Thread, p: Phase, rounds: nat, since: nat, rest: Ctl)
    : Option<Outcome>
  {
    match p
    case AtHead =>
      if sh.refCount > 0 then To(SleepClose(sh), th, Cons(CloseWait(Asleep(sh.nextEvent), rounds + 1, since), rest))
      else To(sh.(owner := None, freed := true), th, rest)   // NtClose; UNLOCK; DELETELOCK; free
    case Asleep(e) =>
      if e in sh.signalled then To(sh, th, Cons(CloseWait(Awake(e), rounds, since), rest)) else None
    case Awake(e) =>
      if sh.owner.Some? then None
      else To(sh.(owner := Some(t), hClose := None), th, Cons(CloseWait(AtHead, rounds, since), rest))
  }

  // ---------- threads and runs ----------

  /** The items that move without anybody else's decision. */
  function GoStep(sh: Shared, t: nat, th: Thread): Option<Outcome>
    requires th.ctl.Cons?
  {
    var rest := th.ctl.rest;
    match th.ctl.top
    case Enter(api) => EnterStep(sh, t, th, api, rest)
    case EnterNested(code) => EnterNestedStep(sh, t, th, code, rest)
    case Leave(_) => LeaveStep(sh, th, rest)
    case Io(io) => IoStep(sh, th, io, rest)
    case Relock => RelockStep(sh, t, th, false, rest)
    case CdRelock(mask) => RelockStep(sh, t, th, mask, rest)
    case CdThread(started) => CdThreadStep(sh, t, th, started, rest)
    case Load(load) => Some(LoadStep(sh, th, load, rest))
    case Call(call) => Some(Outcome(sh, CallStep(th, call, rest), false))
    case Accept(acc) => Some(Outcome(sh, AcceptStep(th, acc, rest), false))
    case PopStack => PopStackStep(sh, th, rest)
    case Unload(unl) => UnloadStep(sh, th, unl, rest)
    case UnloadWait(p, rounds, since) => UnloadWaitStep(sh, t, th, p, rounds, since, rest)
    case CloseBegin => To(sh, th, Cons(CloseWait(AtHead, 0, sh.acquired), rest))
    case CloseWait(p, rounds, since) => CloseWaitStep(sh, t, th, p, rounds, since, rest)
    case _ => None
  }

  /** One step of a thread that is inside a call; None when it cannot move, or not by this action. */
  function ThreadStep(sh: Shared, t: nat, th: Thread, a: Action): Option<Outcome> {
    if th.ctl.Nil? then None
    else
      var rest := th.ctl.rest;
      match th.ctl.top
      case AwaitUnlock => AwaitUnlockStep(sh, th, rest, a)
      case InCallback(code, _) => CallbackStep(sh, th, code, rest, a)
      case InDevice(code) => DeviceStep(sh, th, code, Cons(Relock, rest), a)
      case CdDevice(code) => DeviceStep(sh, th, code, Cons(CdRelock(!code.Pop?), rest), a)
      case CdWaiting => CdWaitingStep(sh, th, rest, a)
      case CdCode => CdCodeStep(sh, th, rest, a)
      case PushStack(cfg) => CdOpenStep(sh, th, cfg, rest, a)
      case _ => if a.Go? then GoStep(sh, t, th) else None
  }

  function NewThread(ctl: Ctl): Thread {
    Thread(ctl, StatusSuccess, Reply(false, StackConfig(NoSlots(SD_CLASS_MAXIMUM), "")))
  }

  /** A thread still waiting for the first LOCK of a call. */
  predicate AtEntry(ctl: Ctl) {
    ctl.Cons? && ctl.top.Enter?
  }

  /** The callers' contract: nothing starts once IcaStackClose was called, and IcaStackClose is
      called when nobody is still on the way in. */
  predicate MayCall(s: State, api: Api) {
    && !s.sh.closeCalled
    && (api.Close? ==> forall u :: 0 <= u < |s.threads| ==> !AtEntry(s.threads[u].ctl))
  }

  function Step(s: State, t: nat, a: Action): Option<State> {
    if t >= |s.threads| then None
    else if a.Calls? then
      if s.threads[t].ctl.Nil? && MayCall(s, a.api) then
        var th := s.threads[t].(ctl := Cons(Enter(a.api), Nil));
        Some(State(s.sh.(closeCalled := s.sh.closeCalled || a.api.Close?), s.threads[t := th]))
      else None
    else
      match ThreadStep(s.sh, t, s.threads[t], a)
      case None => None
      case Some(o) =>
        Some(State(o.sh, s.threads[t := o.th] + if o.spawns then [NewThread(Cons(CdThread(false), Nil))] else []))
  }

  /** A freshly opened stack, and n threads that may call it. */
  function Initial(n: nat, hasCallback: bool): State {
    State(Shared(None, 0, None, None, {}, 0, hasCallback, false, false, false, false, false, [], 0, false, false),
          seq(n, _ => NewThread(Nil)))
  }

  datatype Turn = Turn(t: nat, a: Action)

  /** The state after a schedule, if every turn in it is possible. */
  function Run(s: State, schedule: seq<Turn>): Option<State>
    decreases |schedule|
  {
    if schedule == [] then Some(s)
    else
      var last := |schedule| - 1;
      match Run(s, schedule[..last])
      case None => None
      case Some(m) => Step(m, schedule[last].t, schedule[last].a)
  }

  ghost predicate Reachable(s: State) {
    exists n: nat, hasCallback: bool, schedule: seq<Turn> :: Run(Initial(n, hasCallback), schedule) == Some(s)
  }
}
