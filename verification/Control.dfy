/**
 The control state of a thread inside icaapi: what it still has to do, innermost first. Each
 item is one stretch of code; a call pushes the callee's items and a return pops. The items
 that run in the device, in the callback, in a wait of the connection driver (CD) or asleep on
 an event are the windows in which the critical section is free.
 */
module Control {
  import opened IcaTypes

  /** The entry points, with the arguments the code looks at. */
  datatype Api =
    | Close
    | Terminate
    | ConnectionWait(cfg: Config)
    | QueryLocal(cfg: Config)
    | ConnectionRequest(cfg: Config)
    | ConnectionAccept(cfg: Config, endpoint: bool, reconnect: bool)
    | CreateShadowEndpoint(cfg: Config)
    | ConnectionClose(cfg: Config)
    | PushConsoleStack(cfg: Config)
    | StackIoControl(code: Ioctl)
    | Wrapped(code: Ioctl)       // LOCK; _IcaStackIoControl; UNLOCK: query state, callback, disconnect, reconnect

  datatype IoItem = IoControl(code: Ioctl) | Worker(code: Ioctl) | CdMask(code: Ioctl)

  /** _IcaPushStack after _CdOpen: the module to push, and those still to come. */
  datatype LoadItem =
    | PushNext(m: Module, list: seq<Module>)
    | AfterPush(list: seq<Module>)
    | StackClosing
    | StackClosingTest

  /** The code around a load: endpoints, a call's own ioctl, and what happens when one fails. */
  datatype CallItem =
    | Begin(api: Api, loaded: bool)
    | OpenEndpointBy(code: Ioctl)
    | EndpointDone
    | IfLoaded(code: Ioctl)
    | AfterIoctl(unload: bool)
    | IfLoadedClose
    | IfLoadedConsole
    | UnloadKeepingStatus
    | Return(status: Status)

  /** IcaStackConnectionAccept, between its ioctls. */
  datatype AcceptItem =
    | AcceptBegin(cfg: Config, reconnect: bool, loaded: bool)
    | AcceptOpened(cfg: Config, reconnect: bool)
    | AcceptSetup(cfg: Config, reconnect: bool)
    | AcceptQuery(cfg: Config, reconnect: bool)
    | AcceptReply(cfg: Config, reconnect: bool)
    | AcceptPopped(cfg: Config, reconnect: bool, sd: seq<Slot>, again: bool)
    | AcceptPds(cfg: Config, reconnect: bool, sd: seq<Slot>, again: bool)
    | AcceptPdPushed(cfg: Config, reconnect: bool, sd: seq<Slot>, again: bool)
    | AcceptWdPushed(cfg: Config, reconnect: bool, again: bool)
    | AcceptQueried(reconnect: bool)
    | AcceptStateSet
    | AcceptSent

  /** The body of _IcaPopStack after the fUnloading test, up to its wait loop. */
  datatype UnloadItem = PopLoop | PopTest | PopCancelled

  /** A wait loop: at its test, asleep on its event, or woken and waiting for the lock. */
  datatype Phase = AtHead | Asleep(event: nat) | Awake(event: nat)

  datatype Item =
    | Enter(api: Api)
    | EnterNested(code: Ioctl)   // IcaStackIoControl called by the callback
    | Leave(nested: bool)
    | AwaitUnlock                // a successful Accept, until IcaStackUnlock
    | Io(io: IoItem)
    | InCallback(code: Ioctl, forwarded: bool)
    | InDevice(code: Ioctl)
    | Relock
    | CdCode                     // CD code that owns the lock
    | CdDevice(code: Ioctl)
    | CdWaiting
    | CdRelock(mask: bool)
    | CdThread(started: bool)
    | PushStack(cfg: Config)
    | Load(load: LoadItem)
    | Call(call: CallItem)
    | Accept(acc: AcceptItem)
    | PopStack
    | Unload(unl: UnloadItem)
    | UnloadWait(phase: Phase, rounds: nat, since: nat)
    | CloseBegin
    | CloseWait(phase: Phase, rounds: nat, since: nat)

  datatype Ctl = Nil | Cons(top: Item, rest: Ctl)

  /**
   Where a thread stands: outside every call, running without the critical section, in the
   callback, owning the critical section, owning it inside CD code, or owning it at the test of
   a wait loop.
   */
  datatype Mode = Outside | Free | InCallbackCode | Held | InCdCode | AtWait

  function Pre(i: Item): Mode {
    match i
    case Enter(_) => Free
    case EnterNested(_) => Free
    case Leave(_) => Held
    case AwaitUnlock => Held
    case Io(_) => Held
    case InCallback(_, _) => InCallbackCode
    case InDevice(_) => Free
    case Relock => Free
    case CdCode => InCdCode
    case CdDevice(_) => Free
    case CdWaiting => Free
    case CdRelock(_) => Free
    case CdThread(started) => if started then Held else Free
    case PushStack(_) => Held
    case Load(_) => Held
    case Call(_) => Held
    case Accept(_) => Held
    case PopStack => Held
    case Unload(_) => Held
    case UnloadWait(p, _, _) => if p.AtHead? then AtWait else Free
    case CloseBegin => Held
    case CloseWait(p, _, _) => if p.AtHead? then AtWait else Free
  }

  function Post(i: Item): Mode {
    match i
    case Enter(_) => Outside
    case EnterNested(_) => InCallbackCode
    case Leave(nested) => if nested then InCallbackCode else Outside
    case AwaitUnlock => Outside
    case Io(_) => Held
    case InCallback(_, _) => Held
    case InDevice(_) => Held
    case Relock => Held
    case CdCode => Held
    case CdDevice(_) => InCdCode
    case CdWaiting => InCdCode
    case CdRelock(_) => InCdCode
    case CdThread(_) => Outside
    case PushStack(_) => Held
    case Load(_) => Held
    case Call(_) => Held
    case Accept(_) => Outside
    case PopStack => Held
    case Unload(_) => Held
    case UnloadWait(_, _, _) => Held
    case CloseBegin => Outside
    case CloseWait(_, _, _) => Outside
  }

  function ModeOf(c: Ctl): Mode {
    if c.Nil? then Outside else Pre(c.top)
  }

  /** Every item leaves the thread where the next one expects it. */
  predicate WellFormed(c: Ctl) {
    c.Cons? ==> Post(c.top) == ModeOf(c.rest) && WellFormed(c.rest)
  }

  predicate Owns(c: Ctl) {
    ModeOf(c).Held? || ModeOf(c).InCdCode? || ModeOf(c).AtWait?
  }

  /**
   What a stretch of control state is in charge of. refs: references held. unloads: bodies of
   _IcaPopStack past the fUnloading test. unloadWaits: those of them in the wait loop.
   closes: calls of IcaStackClose. closeWaits: those of them that wait.
   */
  datatype Tally = Tally(refs: nat, unloads: nat, unloadWaits: nat, closes: nat, closeWaits: nat)

  const NOTHING := Tally(0, 0, 0, 0, 0)

  function AddRef(t: Tally): Tally { t.(refs := t.refs + 1) }
  function AddUnload(t: Tally): Tally { t.(unloads := t.unloads + 1) }
  function AddUnloadWait(t: Tally): Tally {
    t.(refs := t.refs + 1, unloads := t.unloads + 1, unloadWaits := t.unloadWaits + 1)
  }
  function AddClose(t: Tally, waiting: nat): Tally { t.(closes := t.closes + 1, closeWaits := t.closeWaits + waiting) }

  /** t and what item i is in charge of. */
  function Add(i: Item, t: Tally): Tally {
    match i
    case Enter(api) => if api.Close? then AddClose(t, 0) else t
    case InCallback(_, _) => AddRef(t)
    case InDevice(_) => AddRef(t)
    case Relock => AddRef(t)
    case CdDevice(_) => AddRef(t)
    case CdWaiting => AddRef(t)
    case CdRelock(_) => AddRef(t)
    case CdThread(_) => AddRef(t)
    case Unload(_) => AddUnload(t)
    case UnloadWait(_, _, _) => AddUnloadWait(t)
    case CloseBegin => AddClose(t, 0)
    case CloseWait(p, _, _) => AddClose(t, Bit(!p.AtHead?))
    case _ => t
  }

  function TallyOf(c: Ctl): Tally {
    if c.Nil? then NOTHING else Add(c.top, TallyOf(c.rest))
  }

  function Bit(b: bool): nat { if b then 1 else 0 }

  // Pushing several items at once.

  function Do2(a: Item, b: Item, rest: Ctl): (r: Ctl)
    ensures WellFormed(r) <==> Post(a) == Pre(b) && Post(b) == ModeOf(rest) && WellFormed(rest)
    ensures TallyOf(r) == Add(a, Add(b, TallyOf(rest)))
  {
    Cons(a, Cons(b, rest))
  }

  function Do3(a: Item, b: Item, c: Item, rest: Ctl): (r: Ctl)
    ensures WellFormed(r) <==> Post(a) == Pre(b) && Post(b) == Pre(c) && Post(c) == ModeOf(rest) && WellFormed(rest)
    ensures TallyOf(r) == Add(a, Add(b, Add(c, TallyOf(rest))))
  {
    Cons(a, Do2(b, c, rest))
  }
}
