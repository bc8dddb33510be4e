/**
 The surroundings in which draining is decided: who makes which calls with which configurations,
 and a callback and a connection driver that do nothing but forward.
 */
module Environment {
  import opened IcaTypes
  import opened Control
  import opened StackMachine
  import opened Lifecycle

  /**
   What callers may do. `configs` are the WinStation configurations in use; `overlap` lets one
   loading call start while another thread is inside one; `accepts` lets threads call
   IcaStackConnectionAccept; `pushes` lets them issue PUSH through the calls that take a request.
   */
  datatype Env = Env(configs: set<Config>, overlap: bool, accepts: bool, pushes: bool)

  /** Calls that may run _IcaPushStack. */
  predicate Loads(api: Api) {
    !api.Close? && !api.Terminate? && !api.StackIoControl? && !api.Wrapped?
  }

  predicate MayIssue(env: Env, code: Ioctl) {
    code.Push? ==> env.pushes
  }

  predicate ApiAllowed(env: Env, api: Api) {
    match api
    case Close => true
    case Terminate => true
    case StackIoControl(code) => MayIssue(env, code)
    case Wrapped(code) => MayIssue(env, code)
    case _ => api.cfg in env.configs && (api.ConnectionAccept? ==> env.accepts)
  }

  /** What of the past matters: the thread that made the last loading call (|threads| for nobody),
      and the threads whose CD has forwarded the request it is working on. */
  datatype Past = Past(loader: nat, forwarded: set<nat>)

  function Next(past: Past, turn: Turn): Past {
    match turn.a
    case Calls(api) => if Loads(api) then past.(loader := turn.t) else past
    case CdForwards(_) => past.(forwarded := past.forwarded + {turn.t})
    case CdReturns(_) => past.(forwarded := past.forwarded - {turn.t})
    case _ => past
  }

  function PastOf(n: nat, schedule: seq<Turn>): Past
    decreases |schedule|
  {
    if schedule == [] then Past(n, {})
    else Next(PastOf(n, schedule[..|schedule| - 1]), schedule[|schedule| - 1])
  }

  /** No thread but t is inside a loading call. */
  predicate Alone(s: State, loader: nat, t: nat) {
    t == loader || loader >= |s.threads| || s.threads[loader].ctl.Nil?
  }

  /** The CD's ioctl routine, asked for `code`, is about to act. */
  predicate AskedFor(c: Ctl, code: Ioctl) {
    c.Cons? && c.top.CdCode? && c.rest.Cons? && c.rest.top == Io(CdMask(code))
  }

  /** The callback and the CD forward the request they are given, once, and return its status. */
  predicate TurnAllowed(env: Env, s: State, past: Past, turn: Turn) {
    turn.t < |s.threads| &&
    var th := s.threads[turn.t];
    match turn.a
    case Calls(api) => ApiAllowed(env, api) && (Loads(api) && !env.overlap ==> Alone(s, past.loader, turn.t))
    case CallsLocked(code) => MayIssue(env, code)
    case CallbackCalls(code) => th.ctl.Cons? && th.ctl.top == InCallback(code, false)
    case CallbackReturns(st) => th.ctl.Cons? && th.ctl.top.InCallback? && th.ctl.top.forwarded && st == th.status
    case CdForwards(code) => turn.t !in past.forwarded && AskedFor(th.ctl, code)
    case CdReturns(st) => turn.t in past.forwarded && st == th.status
    case CdWaits => false
    case CdSpawns => false
    case _ => true
  }

  predicate ScheduleAllowed(env: Env, s: State, schedule: seq<Turn>)
    decreases |schedule|
  {
    if schedule == [] then true
    else
      var last := |schedule| - 1;
      && ScheduleAllowed(env, s, schedule[..last])
      && (Run(s, schedule[..last]).Some? ==>
            TurnAllowed(env, Run(s, schedule[..last]).value, PastOf(|s.threads|, schedule[..last]), schedule[last]))
  }

  /** In every allowed run, IcaStackClose finds the device empty when it frees the stack. */
  ghost predicate Drains(env: Env) {
    forall n: nat, hasCallback: bool, schedule: seq<Turn>, s: State, t: nat ::
      ScheduleAllowed(env, Initial(n, hasCallback), schedule) &&
      Run(Initial(n, hasCallback), schedule) == Some(s) && Frees(s, t, Go) ==>
        s.sh.modules == []
  }

  /** Nobody pushes from outside and, as far as there is anything to load, there is no CD, no Accept
      and no overlap of loading calls. */
  predicate DrainCondition(env: Env) {
    && !env.pushes
    && (env.configs != {} ==> !env.overlap && !env.accepts)
    && forall cfg :: cfg in env.configs ==> cfg.cdNone
  }
}
