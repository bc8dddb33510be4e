/**
 One call of the concurrent model on its own: what the decisions of its thread make it ask for, given
 how everything it asked for ended. Decisions look at nothing that other threads change, so this is
 what a call does in every interleaving; it is compared with what the sequential model logs.
 */
module Scripts {
  import opened IcaTypes
  import opened Control
  import opened StackMachine
  import DeviceLog
  import Negotiation

  /** A piece of work and how it ended, as the thread sees it: a request, through the callback if there
      is one or around it, _IcaPushStack, _IcaPopStack. */
  datatype Event =
    | Asks(code: Ioctl, status: Status, reply: Reply)
    | AsksAround(code: Ioctl, status: Status, reply: Reply)
    | Loads(cfg: Config, status: Status)
    | Unloads(status: Status)

  /** The control state calls for the work that ended in e. */
  predicate CallsFor(c: Ctl, e: Event) {
    c.Cons? &&
    match e
    case Asks(code, _, _) => c.top == Io(IoControl(code))
    case AsksAround(code, _, _) => c.top == Io(Worker(code))
    case Loads(cfg, _) => c.top == PushStack(cfg)
    case Unloads(_) => c.top == PopStack
  }

  function Ended(th: Thread, e: Event): Thread
    requires th.ctl.Cons?
  {
    match e
    case Asks(_, st, reply) => Thread(th.ctl.rest, st, reply)
    case AsksAround(_, st, reply) => Thread(th.ctl.rest, st, reply)
    case Loads(_, st) => th.(ctl := th.ctl.rest, status := st)
    case Unloads(st) => th.(ctl := th.ctl.rest, status := st)
  }

  predicate AtDecision(c: Ctl) {
    c.Cons? && (c.top.Call? || c.top.Accept?)
  }

  function Decided(th: Thread): Thread
    requires AtDecision(th.ctl)
  {
    if th.ctl.top.Call? then CallStep(th, th.ctl.top.call, th.ctl.rest)
    else AcceptStep(th, th.ctl.top.acc, th.ctl.rest)
  }

  /** A decision is a step of the thread, whatever the shared state, which it leaves alone. */
  lemma DecisionIsLocal(sh: Shared, t: nat, th: Thread)
    requires AtDecision(th.ctl)
    ensures ThreadStep(sh, t, th, Go) == Some(Outcome(sh, Decided(th), false))
  {
  }

  datatype Move = Decides | Ends(e: Event)

  function Play(th: Thread, moves: seq<Move>): Option<Thread> {
    if moves == [] then Some(th)
    else
      var last := moves[|moves| - 1];
      match Play(th, moves[..|moves| - 1])
      case None => None
      case Some(mid) =>
        if last.Decides? then if AtDecision(mid.ctl) then Some(Decided(mid)) else None
        else if CallsFor(mid.ctl, last.e) then Some(Ended(mid, last.e)) else None
  }

  function EventsOf(moves: seq<Move>): seq<Event> {
    if moves == [] then []
    else EventsOf(moves[..|moves| - 1]) + if moves[|moves| - 1].Ends? then [moves[|moves| - 1].e] else []
  }

  /** From `th` the thread asks for the work of the script, in order, and comes to `now`. */
  ghost predicate Follows(th: Thread, script: seq<Event>, now: Thread) {
    exists moves: seq<Move> :: Play(th, moves) == Some(now) && EventsOf(moves) == script
  }

  lemma Starts(th: Thread)
    ensures Follows(th, [], th)
  {
    assert Play(th, []) == Some(th) && EventsOf([]) == [];
  }

  lemma GoesOn(th: Thread, script: seq<Event>, now: Thread)
    requires Follows(th, script, now) && AtDecision(now.ctl)
    ensures Follows(th, script, Decided(now))
  {
    var moves :| Play(th, moves) == Some(now) && EventsOf(moves) == script;
    assert (moves + [Decides])[..|moves|] == moves;
    assert Play(th, moves + [Decides]) == Some(Decided(now)) && EventsOf(moves + [Decides]) == script;
  }

  lemma Works(th: Thread, script: seq<Event>, now: Thread, e: Event)
    requires Follows(th, script, now) && CallsFor(now.ctl, e)
    ensures Follows(th, script + [e], Ended(now, e))
  {
    var moves :| Play(th, moves) == Some(now) && EventsOf(moves) == script;
    assert (moves + [Ends(e)])[..|moves|] == moves;
    assert Play(th, moves + [Ends(e)]) == Some(Ended(now, e)) && EventsOf(moves + [Ends(e)]) == script + [e];
  }

  // ---------- accepting ----------

  /** The requests of a log, all made while the reply buffer holds `reply`. */
  function RequestsOf(log: seq<DeviceLog.Entry>, reply: Reply): (r: seq<Event>)
    requires forall i :: 0 <= i < |log| ==> log[i].Served?
    ensures |r| == |log|
  {
    seq(|log|, i requires 0 <= i < |log| => Asks(log[i].code, log[i].status, reply))
  }

  /** A decision to issue a request, and its end. */
  lemma Issues(th: Thread, script: seq<Event>, now: Thread, code: Ioctl, acc: AcceptItem, st: Status, reply: Reply)
      returns (done: Thread)
    requires Follows(th, script, now) && now.ctl.Cons? && now.ctl.top.Accept?
    requires DecideAccept(now.status, now.reply, now.ctl.top.acc) == AcceptIssue(code, acc)
    ensures done == Thread(Cons(Accept(acc), now.ctl.rest), st, reply)
    ensures Follows(th, script + [Asks(code, st, reply)], done)
  {
    GoesOn(th, script, now);
    Works(th, script, Decided(now), Asks(code, st, reply));
    done := Ended(Decided(now), Asks(code, st, reply));
  }

  predicate PassedOver(st: Status) {
    st.Ok() || st.ObjectNameNotFound?
  }

  lemma {:induction false} PushesPds(th: Thread, script: seq<Event>, now: Thread, cfg: Config, rc: bool, sd: seq<Slot>,
      again: bool, answers: seq<Status>, rest: Ctl) returns (done: Thread)
    requires Follows(th, script, now) && now.ctl == Cons(Accept(AcceptPds(cfg, rc, sd, again)), rest)
    requires |sd| == |answers| && forall k :: 0 <= k < |sd| ==> PassedOver(answers[k])
    ensures done.ctl == Cons(Accept(AcceptPds(cfg, rc, [], again)), rest) && done.reply == now.reply
    ensures Follows(th, script + RequestsOf(Negotiation.PushLog(sd, answers), now.reply), done)
    decreases |sd|
  {
    if sd == [] {
      done := now;
      assert script + RequestsOf(Negotiation.PushLog(sd, answers), now.reply) == script;
    } else {
      var e := Asks(Push(Pd(sd[0].dll)), answers[0], now.reply);
      done := Issues(th, script, now, e.code, AcceptPdPushed(cfg, rc, sd[1..], again), e.status, e.reply);
      assert PassedOver(answers[0]);
      GoesOn(th, script + [e], done);
      done := PushesPds(th, script + [e], Decided(done), cfg, rc, sd[1..], again, answers[1..], rest);
      assert script + [e] + RequestsOf(Negotiation.PushLog(sd[1..], answers[1..]), now.reply)
          == script + RequestsOf(Negotiation.PushLog(sd, answers), now.reply);
    }
  }

  /** The round changes the stack. */
  predicate Rebuilds(b: Negotiation.Built, r: Negotiation.Round) {
    !(SameName(r.config.wd, b.wd) && Used(r.config.sd) == [])
  }

  /** Nothing in the round ends Accept. */
  predicate Passes(b: Negotiation.Built, r: Negotiation.Round) {
    && r.Wf()
    && r.query.Ok()
    && (Rebuilds(b, r) ==>
          && r.popped.Ok()
          && r.pushed.Ok()
          && forall k :: 0 <= k < |r.answers| ==> PassedOver(r.answers[k]))
  }

  function Query(cfg: Config, rc: bool, rest: Ctl): Ctl {
    Do2(Io(IoControl(ConnectionQuery)), Accept(AcceptReply(cfg, rc)), rest)
  }

  /** The part of a round after its query, where it rebuilds the top of the stack. */
  lemma RebuildFollows(th: Thread, script: seq<Event>, now: Thread, cfg: Config, rc: bool, again: bool,
      r: Negotiation.Round, rest: Ctl) returns (done: Thread)
    requires Follows(th, script, now) && r.Wf() && r.popped.Ok()
    requires forall k :: 0 <= k < |r.answers| ==> PassedOver(r.answers[k])
    requires now.ctl.Cons? && now.ctl.top.Accept? && now.ctl.rest == rest
    requires DecideAccept(now.status, now.reply, now.ctl.top.acc)
          == AcceptIssue(Pop, AcceptPopped(cfg, rc, Used(r.config.sd), again))
    ensures done == Thread(Cons(Accept(AcceptWdPushed(cfg, rc, again)), rest), r.pushed, now.reply)
    ensures Follows(th, script + [Asks(Pop, r.popped, now.reply)]
                        + RequestsOf(Negotiation.PushLog(Used(r.config.sd), r.answers), now.reply)
                        + [Asks(Push(Wd(cfg.wd)), r.pushed, now.reply)], done)
  {
    var popped := script + [Asks(Pop, r.popped, now.reply)];
    done := Issues(th, script, now, Pop, AcceptPopped(cfg, rc, Used(r.config.sd), again), r.popped, now.reply);
    GoesOn(th, popped, done);
    done := PushesPds(th, popped, Decided(done), cfg, rc, Used(r.config.sd), again, r.answers, rest);
    done := Issues(th, popped + RequestsOf(Negotiation.PushLog(Used(r.config.sd), r.answers), now.reply), done,
        Push(Wd(cfg.wd)), AcceptWdPushed(cfg, rc, again), r.pushed, now.reply);
  }

  function RebuildScript(wd: DllName, r: Negotiation.Round): seq<Event>
    requires r.Wf()
  {
    var reply := Reply(true, r.config);
    [Asks(Pop, r.popped, reply)] + RequestsOf(Negotiation.PushLog(Used(r.config.sd), r.answers), reply)
    + [Asks(Push(Wd(wd)), r.pushed, reply)]
  }

  function RoundScript(b: Negotiation.Built, r: Negotiation.Round): seq<Event>
    requires r.Wf()
  {
    RequestsOf(Negotiation.RoundLog(b, r), Reply(true, r.config))
  }

  lemma RoundScriptIs(b: Negotiation.Built, r: Negotiation.Round)
    requires r.Wf()
    ensures RoundScript(b, r) == [Asks(ConnectionQuery, r.query, Reply(true, r.config))]
                                 + if Rebuilds(b, r) then RebuildScript(Negotiation.AfterRound(b, r).wd, r) else []
  {
  }

  lemma ReplyDecides(r: Negotiation.Round, cfg: Config, rc: bool, b: Negotiation.Built)
    requires r.query.Ok() && cfg.wd == b.wd && r.Wf()
    ensures var again := !SameName(r.config.wd, b.wd);
            DecideReply(r.query, Reply(true, r.config), cfg, rc) ==
              if Rebuilds(b, r) then
                AcceptIssue(Pop, AcceptPopped(cfg.(wd := Negotiation.AfterRound(b, r).wd), rc, Used(r.config.sd),
                    again))
              else AcceptGoto(AcceptQueried(rc))
  {
  }

  /** A round of the concurrent model makes the requests of RoundLog, and queries again iff the client
      names another WD. */
  lemma RoundFollows(th: Thread, script: seq<Event>, now: Thread, b: Negotiation.Built, cfg: Config, rc: bool,
      r: Negotiation.Round, rest: Ctl) returns (done: Thread)
    requires Follows(th, script, now) && now.ctl == Query(cfg, rc, rest) && cfg.wd == b.wd && Passes(b, r)
    ensures done.ctl == if SameName(r.config.wd, b.wd) then Cons(Accept(AcceptQueried(rc)), rest)
                         else Query(cfg.(wd := Negotiation.AfterRound(b, r).wd), rc, rest)
    ensures Follows(th, script + RoundScript(b, r), done)
  {
    var asked := Asks(ConnectionQuery, r.query, Reply(true, r.config));
    Works(th, script, now, asked);
    done := Ended(now, asked);
    RoundScriptIs(b, r);
    ReplyDecides(r, cfg, rc, b);
    if Rebuilds(b, r) {
      done := RoundRebuilds(th, script + [asked], done, b, cfg, rc, r, rest);
      assert script + [asked] + RebuildScript(Negotiation.AfterRound(b, r).wd, r) == script + RoundScript(b, r);
    } else {
      GoesOn(th, script + [asked], done);
      assert script + RoundScript(b, r) == script + [asked];
      done := Decided(done);
    }
  }

  lemma RoundRebuilds(th: Thread, script: seq<Event>, now: Thread, b: Negotiation.Built, cfg: Config, rc: bool,
      r: Negotiation.Round, rest: Ctl) returns (done: Thread)
    requires Follows(th, script, now) && cfg.wd == b.wd && Passes(b, r) && Rebuilds(b, r)
    requires now == Thread(Cons(Accept(AcceptReply(cfg, rc)), rest), r.query, Reply(true, r.config))
    ensures done.ctl == if SameName(r.config.wd, b.wd) then Cons(Accept(AcceptQueried(rc)), rest)
                         else Query(cfg.(wd := Negotiation.AfterRound(b, r).wd), rc, rest)
    ensures Follows(th, script + RebuildScript(Negotiation.AfterRound(b, r).wd, r), done)
  {
    var cfg1 := cfg.(wd := Negotiation.AfterRound(b, r).wd);
    var again := !SameName(r.config.wd, b.wd);
    ReplyDecides(r, cfg, rc, b);
    done := RebuildFollows(th, script, now, cfg1, rc, again, r, rest);
    var whole := script + RebuildScript(cfg1.wd, r);
    assert whole == script + [Asks(Pop, r.popped, now.reply)]
                           + RequestsOf(Negotiation.PushLog(Used(r.config.sd), r.answers), now.reply)
                           + [Asks(Push(Wd(cfg1.wd)), r.pushed, now.reply)];
    done := WdDecides(th, whole, done, cfg1, rc, again, rest);
  }

  lemma WdDecides(th: Thread, script: seq<Event>, now: Thread, cfg: Config, rc: bool, again: bool, rest: Ctl)
      returns (done: Thread)
    requires Follows(th, script, now) && now.ctl == Cons(Accept(AcceptWdPushed(cfg, rc, again)), rest)
             && now.status.Ok()
    ensures done.ctl == if again then Query(cfg, rc, rest) else Cons(Accept(AcceptQueried(rc)), rest)
    ensures Follows(th, script, done)
  {
    GoesOn(th, script, now);
    done := Decided(now);
  }

  /** Every round passes, each from what those before it have built. */
  ghost predicate AllPass(b: Negotiation.Built, rounds: seq<Negotiation.Round>) {
    && Negotiation.AllWf(rounds)
    && forall k :: 0 <= k < |rounds| ==> Passes(Negotiation.AfterRounds(b, rounds[..k]), rounds[k])
  }

  function RoundsScript(b: Negotiation.Built, rounds: seq<Negotiation.Round>): seq<Event>
    requires Negotiation.AllWf(rounds)
  {
    if rounds == [] then []
    else
      var n := |rounds| - 1;
      RoundsScript(b, rounds[..n]) + RoundScript(Negotiation.AfterRounds(b, rounds[..n]), rounds[n])
  }

  lemma PassEarlier(b: Negotiation.Built, rounds: seq<Negotiation.Round>, n: nat)
    requires n < |rounds| && AllPass(b, rounds)
    ensures AllPass(b, rounds[..n]) && Passes(Negotiation.AfterRounds(b, rounds[..n]), rounds[n])
  {
    forall k | 0 <= k < n
      ensures Passes(Negotiation.AfterRounds(b, rounds[..n][..k]), rounds[..n][k])
    {
      assert rounds[..n][..k] == rounds[..k];
    }
  }

  /** While every round names another WD, the thread keeps querying. */
  lemma {:induction false} RoundsFollow(th: Thread, script: seq<Event>, now: Thread, b: Negotiation.Built, cfg: Config,
      rc: bool, rounds: seq<Negotiation.Round>, rest: Ctl) returns (done: Thread)
    requires Follows(th, script, now) && now.ctl == Query(cfg, rc, rest) && cfg.wd == b.wd
    requires Negotiation.AllMove(b.wd, rounds) && AllPass(b, rounds)
    ensures done.ctl == Query(cfg.(wd := Negotiation.AfterRounds(b, rounds).wd), rc, rest)
    ensures Follows(th, script + RoundsScript(b, rounds), done)
    decreases |rounds|
  {
    if rounds == [] {
      assert script + [] == script;
      done := now;
    } else {
      var n := |rounds| - 1;
      Negotiation.MovesInPrefix(b.wd, rounds, n);
      PassEarlier(b, rounds, n);
      done := RoundsFollow(th, script, now, b, cfg, rc, rounds[..n], rest);
      Negotiation.WdAfter(b, rounds[..n]);
      assert Negotiation.Moves(b.wd, rounds, n);
      var c := Negotiation.AfterRounds(b, rounds[..n]);
      done := RoundFollows(th, script + RoundsScript(b, rounds[..n]), done, c, cfg.(wd := c.wd), rc, rounds[n], rest);
      Assoc(script, RoundsScript(b, rounds[..n]), RoundScript(c, rounds[n]));
    }
  }

  /** ... and the round that names the same WD ends the loop. */
  lemma LoopFollows(th: Thread, script: seq<Event>, now: Thread, b: Negotiation.Built, cfg: Config, rc: bool,
      rounds: seq<Negotiation.Round>, rest: Ctl) returns (done: Thread)
    requires Follows(th, script, now) && now.ctl == Query(cfg, rc, rest) && cfg.wd == b.wd
    requires Negotiation.Negotiated(b.wd, rounds) && AllPass(b, rounds)
    ensures done.ctl == Cons(Accept(AcceptQueried(rc)), rest)
    ensures Follows(th, script + RoundsScript(b, rounds), done)
  {
    var n := |rounds| - 1;
    Negotiation.MovesInPrefix(b.wd, rounds, n);
    PassEarlier(b, rounds, n);
    done := RoundsFollow(th, script, now, b, cfg, rc, rounds[..n], rest);
    Negotiation.WdAfter(b, rounds[..n]);
    assert !Negotiation.Moves(b.wd, rounds, n);
    var c := Negotiation.AfterRounds(b, rounds[..n]);
    done := RoundFollows(th, script + RoundsScript(b, rounds[..n]), done, c, cfg.(wd := c.wd), rc, rounds[n], rest);
    Assoc(script, RoundsScript(b, rounds[..n]), RoundScript(c, rounds[n]));
  }

  lemma GreetFollows(th: Thread, script: seq<Event>, now: Thread, cfg: Config, rc: bool, sent: Status, greeted: Status,
      rest: Ctl) returns (done: Thread)
    requires Follows(th, script, now) && now.ctl == Cons(Accept(AcceptSetup(cfg, rc)), rest) && greeted.Ok()
    ensures done.ctl == Query(cfg, rc, rest)
    ensures Follows(th, script + RequestsOf(Negotiation.GreetLog(rc, sent, greeted), now.reply), done)
  {
    var asked := RequestsOf(Negotiation.GreetLog(rc, sent, greeted), now.reply);
    GoesOn(th, script, now);
    done := Decided(now);
    if rc {
      Works(th, script, done, asked[0]);
      done := Ended(done, asked[0]);
      assert script + asked == script + [asked[0]];
    } else {
      Works(th, script, done, asked[0]);
      done := Ended(done, asked[0]);
      Works(th, script + [asked[0]], done, asked[1]);
      done := Ended(done, asked[1]);
      assert script + asked == script + [asked[0]] + [asked[1]];
    }
    GoesOn(th, script + asked, done);
    done := Decided(done);
  }

  lemma ConcludeFollows(th: Thread, script: seq<Event>, now: Thread, rc: bool, state: Status, concluded: Status,
      rest: Ctl, reply: Reply) returns (done: Thread)
    requires Follows(th, script, now) && now.ctl == Cons(Accept(AcceptQueried(rc)), rest)
    requires (rc ==> state.Ok()) && concluded.Ok()
    ensures done.ctl == Cons(AwaitUnlock, rest) && done.status == StatusSuccess
    ensures Follows(th, script + RequestsOf(Negotiation.ConcludeLog(rc, state, concluded), reply), done)
  {
    var asked := RequestsOf(Negotiation.ConcludeLog(rc, state, concluded), reply);
    if rc {
      done := Issues(th, script, now, SetState, AcceptStateSet, state, reply);
      done := Issues(th, script + [asked[0]], done, ConnectionSend, AcceptSent, concluded, reply);
      assert script + asked == script + [asked[0]] + [asked[1]];
    } else {
      done := Issues(th, script, now, ConnectionSend, AcceptSent, concluded, reply);
      assert script + asked == script + [asked[0]];
    }
    GoesOn(th, script + asked, done);
    done := Decided(done);
  }

  /** Everything Accept asks for once the stack is loaded. */
  function TalkScript(b: Negotiation.Built, rc: bool, rounds: seq<Negotiation.Round>, talk: Negotiation.Talk,
      before: Reply, after: Reply): seq<Event>
    requires Negotiation.AllWf(rounds)
  {
    RequestsOf(Negotiation.GreetLog(rc, talk.sent, talk.greeted), before) + RoundsScript(b, rounds)
    + RequestsOf(Negotiation.ConcludeLog(rc, talk.state, talk.concluded), after)
  }

  predicate TalkPasses(rc: bool, talk: Negotiation.Talk) {
    talk.greeted.Ok() && (rc ==> talk.state.Ok()) && talk.concluded.Ok()
  }

  /** Accept in the concurrent model, on a loaded stack: for every negotiation that nothing blocks it
      asks for TalkScript, and succeeds. */
  lemma TalkFollows(th: Thread, script: seq<Event>, now: Thread, b: Negotiation.Built, cfg: Config, rc: bool,
      rounds: seq<Negotiation.Round>, talk: Negotiation.Talk, rest: Ctl, after: Reply) returns (done: Thread)
    requires Follows(th, script, now) && now.ctl == Cons(Accept(AcceptSetup(cfg, rc)), rest) && cfg.wd == b.wd
    requires Negotiation.Negotiated(b.wd, rounds) && AllPass(b, rounds) && TalkPasses(rc, talk)
    ensures done.ctl == Cons(AwaitUnlock, rest) && done.status == StatusSuccess
    ensures Follows(th, script + TalkScript(b, rc, rounds, talk, now.reply, after), done)
  {
    var greet := RequestsOf(Negotiation.GreetLog(rc, talk.sent, talk.greeted), now.reply);
    var conclude := RequestsOf(Negotiation.ConcludeLog(rc, talk.state, talk.concluded), after);
    done := GreetFollows(th, script, now, cfg, rc, talk.sent, talk.greeted, rest);
    done := LoopFollows(th, script + greet, done, b, cfg, rc, rounds, rest);
    done := ConcludeFollows(th, script + greet + RoundsScript(b, rounds), done, rc, talk.state, talk.concluded, rest,
      after);
    Assoc(script, greet, RoundsScript(b, rounds));
    Assoc(script, greet + RoundsScript(b, rounds), conclude);
  }

  /** The events of a script are the requests of a log, each with its code and its status. */
  predicate Matches(script: seq<Event>, log: seq<DeviceLog.Entry>) {
    && |script| == |log|
    && forall i :: 0 <= i < |log| ==>
         script[i].Asks? && log[i].Served? && script[i].code == log[i].code && script[i].status == log[i].status
  }

  lemma OneRoundMatches(x: seq<Event>, a: seq<DeviceLog.Entry>, b: Negotiation.Built, r: Negotiation.Round)
    requires r.Wf() && Matches(x, a)
    ensures Matches(x + RoundScript(b, r), a + Negotiation.RoundLog(b, r))
  {
    assert Matches(RoundScript(b, r), Negotiation.RoundLog(b, r));
    MatchesFurther(x, a, RoundScript(b, r), Negotiation.RoundLog(b, r));
  }

  lemma {:induction false} RoundsMatch(b: Negotiation.Built, rounds: seq<Negotiation.Round>)
    requires Negotiation.AllWf(rounds)
    ensures Matches(RoundsScript(b, rounds), Negotiation.RoundsLog(b, rounds))
  {
    if rounds == [] {
    } else {
      var n := |rounds| - 1;
      RoundsMatch(b, rounds[..n]);
      OneRoundMatches(RoundsScript(b, rounds[..n]), Negotiation.RoundsLog(b, rounds[..n]),
        Negotiation.AfterRounds(b, rounds[..n]), rounds[n]);
    }
  }

  lemma MatchesFurther(x: seq<Event>, a: seq<DeviceLog.Entry>, y: seq<Event>, b: seq<DeviceLog.Entry>)
    requires Matches(x, a) && Matches(y, b)
    ensures Matches(x + y, a + b)
  {
  }

  /** The requests are, one by one, those that a successful Accept of the sequential model logs. */
  lemma TalkMatches(b: Negotiation.Built, rc: bool, rounds: seq<Negotiation.Round>, talk: Negotiation.Talk,
      before: Reply, after: Reply)
    requires Negotiation.AllWf(rounds)
    ensures Matches(TalkScript(b, rc, rounds, talk, before, after),
                    Negotiation.TalkLog(b, rc, rounds, talk)[|talk.loading|..])
  {
    var greet, rest := Negotiation.GreetLog(rc, talk.sent, talk.greeted), Negotiation.RoundsLog(b, rounds);
    var conclude := Negotiation.ConcludeLog(rc, talk.state, talk.concluded);
    RoundsMatch(b, rounds);
    MatchesFurther(RequestsOf(greet, before), greet, RoundsScript(b, rounds), rest);
    MatchesFurther(RequestsOf(greet, before) + RoundsScript(b, rounds), greet + rest, RequestsOf(conclude, after),
      conclude);
    TalkSplits(b, rc, rounds, talk);
  }

  lemma TalkSplits(b: Negotiation.Built, rc: bool, rounds: seq<Negotiation.Round>, talk: Negotiation.Talk)
    requires Negotiation.AllWf(rounds)
    ensures Negotiation.TalkLog(b, rc, rounds, talk)[|talk.loading|..]
         == Negotiation.GreetLog(rc, talk.sent, talk.greeted) + Negotiation.RoundsLog(b, rounds)
            + Negotiation.ConcludeLog(rc, talk.state, talk.concluded)
  {
  }

  // ---------- what ends Accept ----------

  /** The request whose end this part of Accept looks at. */
  predicate Expects(acc: AcceptItem, code: Ioctl) {
    match acc
    case AcceptQuery(_, rc) => code == if rc then SetState else WaitForIca
    case AcceptReply(_, _) => code.ConnectionQuery?
    case AcceptPopped(_, _, _, _) => code.Pop?
    case AcceptPdPushed(_, _, _, _) => code.Push? && code.m.Pd?
    case AcceptWdPushed(cfg, _, _) => code == Push(Wd(cfg.wd))
    case AcceptStateSet => code.SetState?
    case AcceptSent => code.ConnectionSend?
    case _ => false
  }

  /** Every request that Accept makes is looked at, but for SET_CONFIG. */
  lemma DecisionExpects(st: Status, reply: Reply, acc: AcceptItem)
    ensures var move := DecideAccept(st, reply, acc);
            && (move.AcceptIssue? ==> Expects(move.acc, move.code))
            && (move.AcceptIssueTwo? ==> move.code1.SetConfig? && Expects(move.acc, move.code2))
  {
  }

  /** Accept gives up exactly when what it looks at blocks, or an answer is not whole. */
  lemma StopsExactly(st: Status, reply: Reply, acc: AcceptItem, code: Ioctl)
    requires Expects(acc, code)
    ensures DecideAccept(st, reply, acc).Refused? <==>
            DeviceLog.Blocks(DeviceLog.Served(code, st, None)) || (code.ConnectionQuery? && !reply.full)
    ensures DecideAccept(st, reply, acc).Refused? ==>
              DecideAccept(st, reply, acc).status == if st.Ok() then InvalidBufferSize else st
  {
  }

  /** ... and then it unloads, and returns what stopped it. */
  lemma StopFollows(th: Thread, script: seq<Event>, now: Thread, acc: AcceptItem, code: Ioctl, st: Status, reply: Reply,
      rest: Ctl, popped: Status) returns (done: Thread)
    requires Follows(th, script, now) && now.ctl == Do2(Io(IoControl(code)), Accept(acc), rest) && Expects(acc, code)
    requires DeviceLog.Blocks(DeviceLog.Served(code, st, None)) || (code.ConnectionQuery? && !reply.full)
    ensures Follows(th, script + [Asks(code, st, reply), Unloads(popped)], done)
    ensures done.ctl == Cons(Leave(false), rest) && done.status == if st.Ok() then InvalidBufferSize else st
  {
    var asked := Asks(code, st, reply);
    Works(th, script, now, asked);
    done := Ended(now, asked);
    StopDecides(done, acc, code, rest);
    GoesOn(th, script + [asked], done);
    done := UnloadFollows(th, script + [asked], Decided(done), Decided(done).status, Cons(Leave(false), rest),
        popped);
    Assoc(script, [asked], [Unloads(popped)]);
  }

  lemma StopDecides(now: Thread, acc: AcceptItem, code: Ioctl, rest: Ctl)
    requires now.ctl == Cons(Accept(acc), rest) && Expects(acc, code)
    requires DeviceLog.Blocks(DeviceLog.Served(code, now.status, None)) || (code.ConnectionQuery? && !now.reply.full)
    ensures Decided(now).status == if now.status.Ok() then InvalidBufferSize else now.status
    ensures Decided(now).ctl == Do3(PopStack, Call(Return(Decided(now).status)), Leave(false), rest)
  {
    StopsExactly(now.status, now.reply, acc, code);
  }

  lemma UnloadFollows(th: Thread, script: seq<Event>, now: Thread, st: Status, rest: Ctl, popped: Status)
      returns (done: Thread)
    requires Follows(th, script, now) && now.ctl == Do2(PopStack, Call(Return(st)), rest)
    ensures Follows(th, script + [Unloads(popped)], done) && done.ctl == rest && done.status == st
  {
    Works(th, script, now, Unloads(popped));
    done := Ended(now, Unloads(popped));
    GoesOn(th, script + [Unloads(popped)], done);
    done := Decided(done);
  }
}
