/**
 What each call asks for in the concurrent model, and how it cleans up.
 */
module CallScripts {
  import opened IcaTypes
  import opened Control
  import opened StackMachine
  import opened Scripts
  import Negotiation

  datatype Work = ToLoad(cfg: Config) | ToAsk(code: Ioctl) | ToAskAround(code: Ioctl)

  /** What a call does as long as everything passes. */
  function Plan(api: Api, loaded: bool): seq<Work> {
    match api
    case ConnectionWait(cfg) => Ensuring(cfg, CreateEndpoint, loaded) + [ToAsk(WaitForConnection)]
    case QueryLocal(cfg) => Ensuring(cfg, CreateEndpoint, loaded) + [ToAsk(QueryLocalAddress)]
    case ConnectionRequest(cfg) => [ToLoad(cfg), ToAsk(RequestConnection)]
    case CreateShadowEndpoint(cfg) => Ensuring(cfg, CreateEndpoint, loaded)
    case ConnectionClose(cfg) => Ensuring(cfg, OpenEndpoint, loaded) + [ToAsk(CloseEndpoint)]
    case PushConsoleStack(cfg) => [ToLoad(cfg), ToAsk(ConsoleConnect)]
    case StackIoControl(code) => [ToAskAround(code)]
    case Wrapped(code) => [ToAsk(code)]
    case _ => []
  }

  /** A stack with an endpoint. */
  function Ensuring(cfg: Config, code: Ioctl, loaded: bool): seq<Work> {
    if loaded then [] else [ToLoad(cfg), ToAsk(code)]
  }

  function EventOf(w: Work, st: Status, reply: Reply): Event {
    match w
    case ToLoad(cfg) => Loads(cfg, st)
    case ToAsk(code) => Asks(code, st, reply)
    case ToAskAround(code) => AsksAround(code, st, reply)
  }

  /** The answers end the plan: all of it was done, or the last thing done failed. */
  predicate Settles(plan: seq<Work>, answers: seq<Status>) {
    && 0 < |answers| <= |plan|
    && (forall i :: 0 <= i < |answers| - 1 ==> answers[i].Ok())
    && (|answers| < |plan| ==> !answers[|answers| - 1].Ok())
  }

  /** A stack that the call itself loaded is unloaded again if anything fails after that, and by
      IcaStackConnectionClose anyway; but IcaPushConsoleStack leaves it. */
  predicate UnloadsAfter(api: Api, plan: seq<Work>, answers: seq<Status>) {
    && 1 < |answers| <= |plan|
    && plan[0].ToLoad?
    && !api.PushConsoleStack?
    && (api.ConnectionClose? || !answers[|answers| - 1].Ok())
  }

  /** Whether the call returns a passing status of its last request as it is. */
  predicate PassesOn(api: Api) {
    api.ConnectionClose? || api.PushConsoleStack? || api.StackIoControl? || api.Wrapped?
  }

  /** What a call asks for, given how it ended. */
  function CallScript(api: Api, loaded: bool, answers: seq<Status>, reply: Reply, popped: Status): seq<Event>
    requires |answers| <= |Plan(api, loaded)|
  {
    seq(|answers|, i requires 0 <= i < |answers| => EventOf(Plan(api, loaded)[i], answers[i], reply))
    + Cleanup(UnloadsAfter(api, Plan(api, loaded), answers), popped)
  }

  function Cleanup(unload: bool, popped: Status): seq<Event> {
    if unload then [Unloads(popped)] else []
  }

  lemma CallScriptIs(api: Api, loaded: bool, answers: seq<Status>, reply: Reply, popped: Status)
    requires 0 < |answers| <= |Plan(api, loaded)|
    ensures var plan := Plan(api, loaded);
            var e0 := EventOf(plan[0], answers[0], reply);
            CallScript(api, loaded, answers, reply, popped) ==
              (if |answers| == 1 then [e0]
               else if |answers| == 2 then [e0, EventOf(plan[1], answers[1], reply)]
               else [e0, EventOf(plan[1], answers[1], reply), EventOf(plan[2], answers[2], reply)])
              + Cleanup(UnloadsAfter(api, plan, answers), popped)
  {
  }

  /** A decision to issue a request, and its end. */
  lemma CallIssues(now: Thread, script: seq<Event>, mid: Thread, code: Ioctl, rest: Ctl, st: Status, reply: Reply)
      returns (done: Thread)
    requires Follows(now, script, mid) && AtDecision(mid.ctl) && Decided(mid).ctl == Cons(Io(IoControl(code)), rest)
    ensures Follows(now, script + [Asks(code, st, reply)], done) && done == Thread(rest, st, reply)
  {
    GoesOn(now, script, mid);
    Works(now, script, Decided(mid), Asks(code, st, reply));
    done := Ended(Decided(mid), Asks(code, st, reply));
  }

  /** A request whose failure unloads, or does not. */
  lemma AskFollows(th: Thread, script: seq<Event>, now: Thread, code: Ioctl, unload: bool, st: Status, reply: Reply,
      popped: Status, rest: Ctl) returns (done: Thread)
    requires Follows(th, script, now) && now.ctl == Do2(Io(IoControl(code)), Call(AfterIoctl(unload)), rest)
    ensures Follows(th, script + [Asks(code, st, reply)] + Cleanup(unload && !st.Ok(), popped), done)
    ensures done.ctl == rest && done.status == if st.Ok() then StatusSuccess else st
  {
    var asked := script + [Asks(code, st, reply)];
    Works(th, script, now, Asks(code, st, reply));
    done := Ended(now, Asks(code, st, reply));
    GoesOn(th, asked, done);
    done := Decided(done);
    if unload && !st.Ok() {
      done := UnloadFollows(th, asked, done, st, rest, popped);
    } else {
      assert asked + [] == asked;
    }
  }

  lemma EndpointEnds(th: Thread, script: seq<Event>, now: Thread, popped: Status, rest: Ctl) returns (done: Thread)
    requires Follows(th, script, now) && now.ctl == Cons(Call(EndpointDone), rest)
    ensures Follows(th, script + Cleanup(!now.status.Ok(), popped), done)
    ensures done.ctl == rest && done.status == if now.status.Ok() then StatusSuccess else now.status
  {
    GoesOn(th, script, now);
    done := Decided(now);
    if !now.status.Ok() {
      done := UnloadFollows(th, script, done, now.status, rest, popped);
    } else {
      assert script + [] == script;
    }
  }

  /** The endpoint request after a load that succeeded. */
  lemma EndpointFollows(th: Thread, script: seq<Event>, now: Thread, code: Ioctl, st: Status, reply: Reply,
      popped: Status, rest: Ctl) returns (done: Thread)
    requires Follows(th, script, now) && now.ctl == Cons(Call(OpenEndpointBy(code)), rest) && now.status.Ok()
    ensures Follows(th, script + [Asks(code, st, reply)] + Cleanup(!st.Ok(), popped), done)
    ensures done.ctl == rest && done.status == if st.Ok() then StatusSuccess else st
  {
    done := CallIssues(th, script, now, code, Cons(Call(EndpointDone), rest), st, reply);
    done := EndpointEnds(th, script + [Asks(code, st, reply)], done, popped, rest);
  }

  lemma LoadFollows(th: Thread, script: seq<Event>, now: Thread, cfg: Config, st: Status, rest: Ctl)
      returns (done: Thread)
    requires Follows(th, script, now) && now.ctl == Cons(PushStack(cfg), rest)
    ensures Follows(th, script + [Loads(cfg, st)], done) && done == now.(ctl := rest, status := st)
  {
    Works(th, script, now, Loads(cfg, st));
    done := Ended(now, Loads(cfg, st));
  }

  /** The load and the endpoint request, up to where the call itself goes on. */
  lemma EnsuringFollows(th: Thread, now: Thread, cfg: Config, code: Ioctl, answers: seq<Status>, reply: Reply,
      popped: Status, rest: Ctl) returns (done: Thread)
    requires Follows(th, [], now) && now.ctl == Do2(PushStack(cfg), Call(OpenEndpointBy(code)), rest)
    requires 0 < |answers| && (|answers| > 1 <==> answers[0].Ok())
    ensures done.ctl == rest
    ensures |answers| == 1 ==> Follows(th, [Loads(cfg, answers[0])], done) && done.status == answers[0]
    ensures |answers| > 1 ==>
              && Follows(th, [Loads(cfg, answers[0]), Asks(code, answers[1], reply)]
                             + Cleanup(!answers[1].Ok(), popped), done)
              && done.status == if answers[1].Ok() then StatusSuccess else answers[1]
  {
    done := LoadFollows(th, [], now, cfg, answers[0], Cons(Call(OpenEndpointBy(code)), rest));
    assert [] + [Loads(cfg, answers[0])] == [Loads(cfg, answers[0])];
    if |answers| == 1 {
      GoesOn(th, [Loads(cfg, answers[0])], done);
      done := Decided(done);
    } else {
      done := EndpointFollows(th, [Loads(cfg, answers[0])], done, code, answers[1], reply, popped, rest);
      assert [Loads(cfg, answers[0])] + [Asks(code, answers[1], reply)]
          == [Loads(cfg, answers[0]), Asks(code, answers[1], reply)];
    }
  }

  /** The last request of a call that has loaded. */
  lemma IfLoadedFollows(th: Thread, script: seq<Event>, now: Thread, code: Ioctl, st: Status, reply: Reply,
      popped: Status, rest: Ctl) returns (done: Thread)
    requires Follows(th, script, now) && now.ctl == Cons(Call(IfLoaded(code)), rest) && now.status.Ok()
    ensures Follows(th, script + [Asks(code, st, reply)] + Cleanup(!st.Ok(), popped), done)
    ensures done.ctl == rest && done.status == if st.Ok() then StatusSuccess else st
  {
    GoesOn(th, script, now);
    done := AskFollows(th, script, Decided(now), code, true, st, reply, popped, rest);
  }

  /** A call is through when a thread that was about to begin it has done all it asks for and returns. */
  ghost predicate Through(now: Thread, api: Api, loaded: bool, answers: seq<Status>, reply: Reply, popped: Status,
      done: Thread)
    requires 0 < |answers| <= |Plan(api, loaded)| && now.ctl.Cons?
  {
    && Follows(now, CallScript(api, loaded, answers, reply, popped), done)
    && done.ctl == now.ctl.rest
    && done.status == (if answers[|answers| - 1].Ok() && !PassesOn(api) then StatusSuccess else answers[|answers| - 1])
  }

  /** A load whose failure a call only passes on. */
  lemma LoadEnds(now: Thread, script: seq<Event>, mid: Thread, rest: Ctl) returns (done: Thread)
    requires Follows(now, script, mid) && !mid.status.Ok()
    requires exists code :: mid.ctl in {Cons(Call(IfLoaded(code)), rest), Cons(Call(OpenEndpointBy(code)), rest),
                                        Cons(Call(IfLoadedClose), rest), Cons(Call(IfLoadedConsole), rest)}
    ensures Follows(now, script, done) && done.ctl == rest && done.status == mid.status
  {
    GoesOn(now, script, mid);
    done := Decided(mid);
  }

  lemma AsksThird(now: Thread, e: Event, f: Event, mid: Thread, code: Ioctl, st: Status, reply: Reply, popped: Status,
      rest: Ctl) returns (done: Thread)
    requires Follows(now, [e, f] + Cleanup(false, popped), mid)
    requires mid.ctl == Cons(Call(IfLoaded(code)), rest) && mid.status.Ok()
    ensures Follows(now, [e, f, Asks(code, st, reply)] + Cleanup(!st.Ok(), popped), done)
    ensures done.ctl == rest && done.status == if st.Ok() then StatusSuccess else st
  {
    assert [e, f] + Cleanup(false, popped) == [e, f];
    done := IfLoadedFollows(now, [e, f], mid, code, st, reply, popped, rest);
    assert [e, f] + [Asks(code, st, reply)] == [e, f, Asks(code, st, reply)];
  }

  lemma WaitFollows(now: Thread, api: Api, cfg: Config, code: Ioctl, answers: seq<Status>, reply: Reply,
      popped: Status, rest: Ctl) returns (done: Thread)
    requires (api == ConnectionWait(cfg) && code == WaitForConnection)
          || (api == QueryLocal(cfg) && code == QueryLocalAddress)
    requires now.ctl == Cons(Call(Begin(api, false)), rest) && Settles(Plan(api, false), answers)
    ensures Through(now, api, false, answers, reply, popped, done)
  {
    Starts(now);
    GoesOn(now, [], now);
    CallScriptIs(api, false, answers, reply, popped);
    done := EnsuringFollows(now, Decided(now), cfg, CreateEndpoint, answers, reply, popped,
      Cons(Call(IfLoaded(code)), rest));
    if |answers| == 3 {
      done := AsksThird(now, Loads(cfg, answers[0]), Asks(CreateEndpoint, answers[1], reply), done, code, answers[2],
        reply, popped, rest);
    } else {
      done := LoadEnds(now, CallScript(api, false, answers, reply, popped), done, rest);
    }
  }

  lemma WaitLoadedFollows(now: Thread, api: Api, code: Ioctl, answers: seq<Status>, reply: Reply, popped: Status,
      rest: Ctl) returns (done: Thread)
    requires (api.ConnectionWait? && code == WaitForConnection) || (api.QueryLocal? && code == QueryLocalAddress)
    requires now.ctl == Cons(Call(Begin(api, true)), rest) && Settles(Plan(api, true), answers)
    ensures Through(now, api, true, answers, reply, popped, done)
  {
    CallScriptIs(api, true, answers, reply, popped);
    Starts(now);
    GoesOn(now, [], now);
    var begun := Decided(now);
    assert begun.ctl == Do2(Io(IoControl(code)), Call(AfterIoctl(false)), rest);
    done := AskFollows(now, [], begun, code, false, answers[0], reply, popped, rest);
    assert [] + [Asks(code, answers[0], reply)] == [Asks(code, answers[0], reply)];
  }

  lemma RequestFollows(now: Thread, cfg: Config, loaded: bool, answers: seq<Status>, reply: Reply, popped: Status,
      rest: Ctl) returns (done: Thread)
    requires now.ctl == Cons(Call(Begin(ConnectionRequest(cfg), loaded)), rest)
    requires Settles(Plan(ConnectionRequest(cfg), loaded), answers)
    ensures Through(now, ConnectionRequest(cfg), loaded, answers, reply, popped, done)
  {
    var api := ConnectionRequest(cfg);
    Starts(now);
    GoesOn(now, [], now);
    CallScriptIs(api, loaded, answers, reply, popped);
    done := LoadFollows(now, [], Decided(now), cfg, answers[0], Cons(Call(IfLoaded(RequestConnection)), rest));
    if |answers| == 1 {
      done := LoadEnds(now, CallScript(api, loaded, answers, reply, popped), done, rest);
    } else {
      done := IfLoadedFollows(now, [] + [Loads(cfg, answers[0])], done, RequestConnection, answers[1], reply, popped,
        rest);
    }
  }

  lemma ShadowFollows(now: Thread, cfg: Config, answers: seq<Status>, reply: Reply, popped: Status, rest: Ctl)
      returns (done: Thread)
    requires now.ctl == Cons(Call(Begin(CreateShadowEndpoint(cfg), false)), rest)
    requires Settles(Plan(CreateShadowEndpoint(cfg), false), answers)
    ensures Through(now, CreateShadowEndpoint(cfg), false, answers, reply, popped, done)
  {
    Starts(now);
    GoesOn(now, [], now);
    CallScriptIs(CreateShadowEndpoint(cfg), false, answers, reply, popped);
    done := EnsuringFollows(now, Decided(now), cfg, CreateEndpoint, answers, reply, popped, rest);
  }

  /** The close of the endpoint, and the unload of what was loaded for it. */
  lemma ClosesThird(now: Thread, e: Event, f: Event, mid: Thread, st: Status, reply: Reply, popped: Status, rest: Ctl)
      returns (done: Thread)
    requires Follows(now, [e, f] + Cleanup(false, popped), mid)
    requires mid.ctl == Cons(Call(IfLoadedClose), rest) && mid.status.Ok()
    ensures Follows(now, [e, f, Asks(CloseEndpoint, st, reply)] + Cleanup(true, popped), done)
    ensures done.ctl == rest && done.status == st
  {
    var script := [e, f, Asks(CloseEndpoint, st, reply)];
    assert [e, f] + Cleanup(false, popped) == [e, f];
    done := CallIssues(now, [e, f], mid, CloseEndpoint, Cons(Call(UnloadKeepingStatus), rest), st, reply);
    assert [e, f] + [Asks(CloseEndpoint, st, reply)] == script;
    done := UnloadsKeeping(now, script, done, rest, popped);
  }

  lemma UnloadsKeeping(now: Thread, script: seq<Event>, mid: Thread, rest: Ctl, popped: Status)
      returns (done: Thread)
    requires Follows(now, script, mid) && mid.ctl == Cons(Call(UnloadKeepingStatus), rest)
    ensures Follows(now, script + Cleanup(true, popped), done) && done.ctl == rest && done.status == mid.status
  {
    GoesOn(now, script, mid);
    done := UnloadFollows(now, script, Decided(mid), mid.status, rest, popped);
  }

  lemma CloseFollows(now: Thread, cfg: Config, answers: seq<Status>, reply: Reply, popped: Status, rest: Ctl)
      returns (done: Thread)
    requires now.ctl == Cons(Call(Begin(ConnectionClose(cfg), false)), rest)
    requires Settles(Plan(ConnectionClose(cfg), false), answers)
    ensures Through(now, ConnectionClose(cfg), false, answers, reply, popped, done)
  {
    var api := ConnectionClose(cfg);
    Starts(now);
    GoesOn(now, [], now);
    CallScriptIs(api, false, answers, reply, popped);
    done := EnsuringFollows(now, Decided(now), cfg, OpenEndpoint, answers, reply, popped,
      Cons(Call(IfLoadedClose), rest));
    if |answers| == 3 {
      done := ClosesThird(now, Loads(cfg, answers[0]), Asks(OpenEndpoint, answers[1], reply), done, answers[2], reply,
        popped, rest);
    } else {
      done := LoadEnds(now, CallScript(api, false, answers, reply, popped), done, rest);
    }
  }

  lemma ConsoleAsks(now: Thread, e: Event, mid: Thread, st: Status, reply: Reply, popped: Status, rest: Ctl)
      returns (done: Thread)
    requires Follows(now, [] + [e], mid) && mid.ctl == Cons(Call(IfLoadedConsole), rest) && mid.status.Ok()
    ensures Follows(now, [e, Asks(ConsoleConnect, st, reply)] + Cleanup(false, popped), done)
    ensures done.ctl == rest && done.status == st
  {
    done := CallIssues(now, [] + [e], mid, ConsoleConnect, rest, st, reply);
    assert [] + [e] + [Asks(ConsoleConnect, st, reply)]
        == [e, Asks(ConsoleConnect, st, reply)] + Cleanup(false, popped);
  }

  lemma ConsoleFollows(now: Thread, cfg: Config, loaded: bool, answers: seq<Status>, reply: Reply, popped: Status,
      rest: Ctl) returns (done: Thread)
    requires now.ctl == Cons(Call(Begin(PushConsoleStack(cfg), loaded)), rest)
    requires Settles(Plan(PushConsoleStack(cfg), loaded), answers)
    ensures Through(now, PushConsoleStack(cfg), loaded, answers, reply, popped, done)
  {
    var api := PushConsoleStack(cfg);
    Starts(now);
    GoesOn(now, [], now);
    CallScriptIs(api, loaded, answers, reply, popped);
    done := LoadFollows(now, [], Decided(now), cfg, answers[0], Cons(Call(IfLoadedConsole), rest));
    if |answers| == 1 {
      done := LoadEnds(now, CallScript(api, loaded, answers, reply, popped), done, rest);
    } else {
      done := ConsoleAsks(now, Loads(cfg, answers[0]), done, answers[1], reply, popped, rest);
    }
  }

  /** The calls that are one request. */
  lemma OneRequestFollows(now: Thread, api: Api, loaded: bool, answers: seq<Status>, reply: Reply, popped: Status,
      rest: Ctl) returns (done: Thread)
    requires now.ctl == Cons(Call(Begin(api, loaded)), rest) && Settles(Plan(api, loaded), answers)
    requires api.StackIoControl? || api.Wrapped? || (api.ConnectionClose? && loaded)
    ensures Through(now, api, loaded, answers, reply, popped, done)
  {
    var e := EventOf(Plan(api, loaded)[0], answers[0], reply);
    Starts(now);
    GoesOn(now, [], now);
    CallScriptIs(api, loaded, answers, reply, popped);
    Works(now, [], Decided(now), e);
    done := Ended(Decided(now), e);
    assert [] + [e] == [e] + Cleanup(false, popped);
  }

  /** Thread `now` has just entered a call, with the lock, and the stack was `loaded` or not then. */
  ghost predicate Entered(api: Api, loaded: bool, rest: Ctl, now: Thread) {
    exists sh: Shared, t: nat, th: Thread ::
      sh.loaded == loaded && EnterStep(sh, t, th, api, rest).Some?
      && EnterStep(sh, t, th, api, rest).value.sh.owner == Some(t) && EnterStep(sh, t, th, api, rest).value.th == now
  }

  lemma EntersCall(api: Api, loaded: bool, rest: Ctl, now: Thread)
    requires Entered(api, loaded, rest, now) && !api.ConnectionAccept? && !api.Close? && !api.Terminate?
    ensures now.ctl == Cons(Call(Begin(api, loaded)), Cons(Leave(false), rest))
  {
  }

  /** Every call but IcaStackClose, IcaStackTerminate and IcaStackConnectionAccept, given how what it asks
      for ends, does as much of its plan as passes, cleans up after itself and returns. */
  lemma CallFollows(now: Thread, api: Api, loaded: bool, answers: seq<Status>, reply: Reply, popped: Status, rest: Ctl)
      returns (done: Thread)
    requires Entered(api, loaded, rest, now) && !api.ConnectionAccept? && Settles(Plan(api, loaded), answers)
    ensures Follows(now, CallScript(api, loaded, answers, reply, popped), done)
    ensures done.ctl == Cons(Leave(false), rest)
    ensures done.status == if answers[|answers| - 1].Ok() && !PassesOn(api) then StatusSuccess
                            else answers[|answers| - 1]
  {
    EntersCall(api, loaded, rest, now);
    done := BegunFollows(now, api, loaded, answers, reply, popped, Cons(Leave(false), rest));
  }

  lemma BegunFollows(now: Thread, api: Api, loaded: bool, answers: seq<Status>, reply: Reply, popped: Status, rest: Ctl)
      returns (done: Thread)
    requires now.ctl == Cons(Call(Begin(api, loaded)), rest) && Settles(Plan(api, loaded), answers)
    ensures Through(now, api, loaded, answers, reply, popped, done)
  {
    match api
    case ConnectionWait(cfg) =>
      if loaded {
        done := WaitLoadedFollows(now, api, WaitForConnection, answers, reply, popped, rest);
      } else {
        done := WaitFollows(now, api, cfg, WaitForConnection, answers, reply, popped, rest);
      }
    case QueryLocal(cfg) =>
      if loaded {
        done := WaitLoadedFollows(now, api, QueryLocalAddress, answers, reply, popped, rest);
      } else {
        done := WaitFollows(now, api, cfg, QueryLocalAddress, answers, reply, popped, rest);
      }
    case ConnectionRequest(cfg) => done := RequestFollows(now, cfg, loaded, answers, reply, popped, rest);
    case CreateShadowEndpoint(cfg) => done := ShadowFollows(now, cfg, answers, reply, popped, rest);
    case ConnectionClose(cfg) =>
      if loaded {
        done := OneRequestFollows(now, api, loaded, answers, reply, popped, rest);
      } else {
        done := CloseFollows(now, cfg, answers, reply, popped, rest);
      }
    case PushConsoleStack(cfg) => done := ConsoleFollows(now, cfg, loaded, answers, reply, popped, rest);
    case StackIoControl(_) => done := OneRequestFollows(now, api, loaded, answers, reply, popped, rest);
    case Wrapped(_) => done := OneRequestFollows(now, api, loaded, answers, reply, popped, rest);
    case _ =>
  }

  /** A loaded stack gets no second endpoint, and is not asked for one. */
  lemma ShadowRefused(now: Thread, cfg: Config, rest: Ctl)
    requires Entered(CreateShadowEndpoint(cfg), true, rest, now)
    ensures Follows(now, [], now.(ctl := Cons(Leave(false), rest), status := AddressAlreadyAssociated))
  {
    EntersCall(CreateShadowEndpoint(cfg), true, rest, now);
    Starts(now);
    GoesOn(now, [], now);
  }

  // ---------- IcaStackConnectionAccept ----------

  /** Accept gets itself a stack with the client's endpoint, unless it finds one loaded. */
  function AcceptLoads(cfg: Config, loaded: bool, load: Status, open: Status, reply: Reply): seq<Event> {
    if loaded then [] else [Loads(cfg, load), Asks(OpenEndpoint, open, reply)]
  }

  lemma EntersAccept(cfg: Config, rc: bool, loaded: bool, rest: Ctl, now: Thread)
    requires Entered(ConnectionAccept(cfg, true, rc), loaded, rest, now)
    ensures now.ctl == Cons(Accept(AcceptBegin(cfg, rc, loaded)), rest)
  {
  }

  lemma AcceptLoadFollows(now: Thread, cfg: Config, rc: bool, loaded: bool, load: Status, open: Status, reply: Reply,
      rest: Ctl) returns (done: Thread)
    requires now.ctl == Cons(Accept(AcceptBegin(cfg, rc, loaded)), rest) && load.Ok() && open.Ok()
    ensures Follows(now, AcceptLoads(cfg, loaded, load, open, reply), done)
    ensures done.ctl == Cons(Accept(AcceptSetup(cfg, rc)), rest)
  {
    Starts(now);
    GoesOn(now, [], now);
    done := Decided(now);
    if !loaded {
      done := EnsuringFollows(now, done, cfg, OpenEndpoint, [load, open], reply, StatusSuccess,
        Cons(Accept(AcceptOpened(cfg, rc)), rest));
      assert AcceptLoads(cfg, loaded, load, open, reply) + Cleanup(false, StatusSuccess)
          == AcceptLoads(cfg, loaded, load, open, reply);
      GoesOn(now, AcceptLoads(cfg, loaded, load, open, reply), done);
      done := Decided(done);
    }
  }

  /** Accept in the concurrent model: for every negotiation that nothing blocks it loads if need be, asks
      for exactly what the sequential Accept logs, and succeeds. */
  lemma AcceptFollows(now: Thread, b: Negotiation.Built, cfg: Config, rc: bool, loaded: bool, load: Status,
      open: Status, rounds: seq<Negotiation.Round>, talk: Negotiation.Talk, rest: Ctl, reply: Reply)
      returns (done: Thread, script: seq<Event>)
    requires Entered(ConnectionAccept(cfg, true, rc), loaded, rest, now) && load.Ok() && open.Ok() && cfg.wd == b.wd
    requires Negotiation.Negotiated(b.wd, rounds) && AllPass(b, rounds) && TalkPasses(rc, talk)
    ensures done.ctl == Cons(AwaitUnlock, rest) && done.status == StatusSuccess
    ensures Follows(now, AcceptLoads(cfg, loaded, load, open, reply) + script, done)
    ensures Matches(script, Negotiation.TalkLog(b, rc, rounds, talk)[|talk.loading|..])
  {
    EntersAccept(cfg, rc, loaded, rest, now);
    done := AcceptLoadFollows(now, cfg, rc, loaded, load, open, reply, rest);
    script := TalkScript(b, rc, rounds, talk, done.reply, reply);
    TalkMatches(b, rc, rounds, talk, done.reply, reply);
    done := TalkFollows(now, AcceptLoads(cfg, loaded, load, open, reply), done, b, cfg, rc, rounds, talk, rest,
        reply);
  }

  function LoadFailing(cfg: Config, answers: seq<Status>, reply: Reply, popped: Status): seq<Event>
    requires 1 <= |answers| <= 2
  {
    if |answers| == 1 then [Loads(cfg, answers[0])]
    else [Loads(cfg, answers[0]), Asks(OpenEndpoint, answers[1], reply)] + Cleanup(true, popped)
  }

  /** A load or an endpoint that fails ends Accept: it unloads, once more if the endpoint's failure did
      already, and returns that status. */
  lemma AcceptLoadFails(now: Thread, cfg: Config, rc: bool, answers: seq<Status>, reply: Reply, popped: Status,
      rest: Ctl) returns (done: Thread)
    requires Entered(ConnectionAccept(cfg, true, rc), false, rest, now)
    requires Settles(Ensuring(cfg, OpenEndpoint, false), answers) && !answers[|answers| - 1].Ok()
    ensures Follows(now, LoadFailing(cfg, answers, reply, popped) + [Unloads(popped)], done)
    ensures done.ctl == Cons(Leave(false), rest) && done.status == answers[|answers| - 1]
  {
    EntersAccept(cfg, rc, false, rest, now);
    done := AcceptLoadTried(now, cfg, rc, answers, reply, popped, rest);
    done := AcceptGivesUp(now, LoadFailing(cfg, answers, reply, popped), done, cfg, rc, popped, rest);
  }

  lemma AcceptLoadTried(now: Thread, cfg: Config, rc: bool, answers: seq<Status>, reply: Reply, popped: Status,
      rest: Ctl) returns (done: Thread)
    requires now.ctl == Cons(Accept(AcceptBegin(cfg, rc, false)), rest)
    requires Settles(Ensuring(cfg, OpenEndpoint, false), answers) && !answers[|answers| - 1].Ok()
    ensures Follows(now, LoadFailing(cfg, answers, reply, popped), done)
    ensures done.ctl == Cons(Accept(AcceptOpened(cfg, rc)), rest) && done.status == answers[|answers| - 1]
  {
    Starts(now);
    GoesOn(now, [], now);
    done := EnsuringFollows(now, Decided(now), cfg, OpenEndpoint, answers, reply, popped,
      Cons(Accept(AcceptOpened(cfg, rc)), rest));
  }

  lemma AcceptGivesUp(now: Thread, script: seq<Event>, mid: Thread, cfg: Config, rc: bool, popped: Status, rest: Ctl)
      returns (done: Thread)
    requires Follows(now, script, mid) && mid.ctl == Cons(Accept(AcceptOpened(cfg, rc)), rest) && !mid.status.Ok()
    ensures Follows(now, script + [Unloads(popped)], done)
    ensures done.ctl == Cons(Leave(false), rest) && done.status == mid.status
  {
    GoesOn(now, script, mid);
    done := UnloadFollows(now, script, Decided(mid), mid.status, Cons(Leave(false), rest), popped);
  }

  // ---------- the end of a load ----------

  /** _IcaPushStack returns a passing status exactly when its last PUSH passed and the stack is not
      closing, and only then is fStackLoaded set. */
  lemma LoadReturns(sh: Shared, th: Thread, load: LoadItem, rest: Ctl)
    requires DecideLoad(sh.closing, th.status, load).LoadReturn?
    ensures var o := LoadStep(sh, th, load, rest);
            && o.th.ctl == rest
            && (o.th.status.Ok() <==> load == AfterPush([]) && th.status.Ok() && !sh.closing)
            && (!o.th.status.Ok() ==> o.th.status == ClosePending && sh == o.sh)
            && (o.th.status.Ok() ==> o.sh == sh.(loaded := true))
  {
  }
}
