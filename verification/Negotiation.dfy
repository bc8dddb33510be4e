/**
 What IcaStackConnectionAccept builds out of the client's answers, as functions of those answers.
 */
module Negotiation {
  import opened IcaTypes
  import opened DeviceLog

  lemma UsedIs(slots: seq<Slot>, i: nat)
    requires i <= |slots| && (forall j :: 0 <= j < i ==> slots[j].sdClass != SD_NONE)
    requires i == |slots| || slots[i].sdClass == SD_NONE
    ensures Used(slots) == slots[..i]
  {
    if i < |slots| && |Used(slots)| > i {
      assert false;
    }
  }

  lemma UsedGoesOn(slots: seq<Slot>, i: nat)
    requires i < |slots| && (forall j :: 0 <= j <= i ==> slots[j].sdClass != SD_NONE)
    ensures |Used(slots)| > i
  {
  }

  /** A round of Accept's query loop: the client's answer, and how the host answered the query, the
      POP of the WD, the push of each optional PD and the push of the WD. */
  datatype Round = Round(config: StackConfig, query: Status, popped: Status, answers: seq<Status>, pushed: Status)
  {
    predicate Wf() {
      |answers| == |Used(config.sd)|
    }
  }

  /** The device's modules and the WD named in the WinStation configuration. */
  datatype Built = Built(modules: seq<Module>, wd: DllName)

  function DropTop(modules: seq<Module>): seq<Module> {
    if modules == [] then [] else modules[..|modules| - 1]
  }

  /** The optional PDs that the host has, in the order of the request. */
  function FoundPds(slots: seq<Slot>, answers: seq<Status>): seq<Module>
    requires |slots| == |answers|
    decreases |slots|
  {
    if slots == [] then []
    else
      var n := |slots| - 1;
      FoundPds(slots[..n], answers[..n]) + (if answers[n].Ok() then [Pd(slots[n].dll)] else [])
  }

  function PushLog(slots: seq<Slot>, answers: seq<Status>): seq<Entry>
    requires |slots| == |answers|
  {
    seq(|slots|, k requires 0 <= k < |slots| => Served(Push(Pd(slots[k].dll)), answers[k], None))
  }

  lemma OneMorePush(slots: seq<Slot>, i: nat, answers: seq<Status>, st: Status)
    requires i < |slots| && |answers| == i
    ensures FoundPds(slots[..i + 1], answers + [st])
         == FoundPds(slots[..i], answers) + if st.Ok() then [Pd(slots[i].dll)] else []
    ensures PushLog(slots[..i + 1], answers + [st])
         == PushLog(slots[..i], answers) + [Served(Push(Pd(slots[i].dll)), st, None)]
  {
    assert slots[..i + 1][..i] == slots[..i] && (answers + [st])[..i] == answers;
  }

  /** One more optional PD was pushed, or passed over. */
  lemma OneMoreTried(modules: seq<Module>, log: seq<Entry>, slots: seq<Slot>, i: nat, answers: seq<Status>, st: Status)
    requires i < |slots| && |answers| == i
    ensures modules + FoundPds(slots[..i + 1], answers + [st])
         == modules + FoundPds(slots[..i], answers) + if st.Ok() then [Pd(slots[i].dll)] else []
    ensures log + PushLog(slots[..i + 1], answers + [st])
         == log + PushLog(slots[..i], answers) + [Served(Push(Pd(slots[i].dll)), st, None)]
  {
    OneMorePush(slots, i, answers, st);
    Assoc(modules, FoundPds(slots[..i], answers), if st.Ok() then [Pd(slots[i].dll)] else []);
    Assoc(log, PushLog(slots[..i], answers), [Served(Push(Pd(slots[i].dll)), st, None)]);
  }

  /** A round that neither changes the WD nor asks for PDs leaves the stack alone. */
  function AfterRound(b: Built, r: Round): Built
    requires r.Wf()
  {
    if SameName(r.config.wd, b.wd) then
      if Used(r.config.sd) == [] then b
      else Built(DropTop(b.modules) + FoundPds(Used(r.config.sd), r.answers) + [Wd(b.wd)], b.wd)
    else Built(DropTop(b.modules) + FoundPds(Used(r.config.sd), r.answers) + [Wd(r.config.wd)], r.config.wd)
  }

  /** The requests of a round that starts from `b`. */
  function RoundLog(b: Built, r: Round): seq<Entry>
    requires r.Wf()
  {
    [Served(ConnectionQuery, r.query, None)] +
    if SameName(r.config.wd, b.wd) && Used(r.config.sd) == [] then []
    else [Served(Pop, r.popped, Gone(Pop, b.modules))] + PushLog(Used(r.config.sd), r.answers)
         + [Served(Push(Wd(AfterRound(b, r).wd)), r.pushed, None)]
  }

  lemma RebuildLogged(before: seq<Entry>, b: Built, r: Round)
    requires r.Wf() && !(SameName(r.config.wd, b.wd) && Used(r.config.sd) == [])
    ensures before + [Served(ConnectionQuery, r.query, None)] + [Served(Pop, r.popped, Gone(Pop, b.modules))]
            + PushLog(Used(r.config.sd), r.answers) + [Served(Push(Wd(AfterRound(b, r).wd)), r.pushed, None)]
         == before + RoundLog(b, r)
  {
  }

  predicate AllWf(rounds: seq<Round>) {
    forall k :: 0 <= k < |rounds| ==> rounds[k].Wf()
  }

  function AfterRounds(b: Built, rounds: seq<Round>): Built
    requires AllWf(rounds)
  {
    if rounds == [] then b
    else AfterRound(AfterRounds(b, rounds[..|rounds| - 1]), rounds[|rounds| - 1])
  }

  function RoundsLog(b: Built, rounds: seq<Round>): seq<Entry>
    requires AllWf(rounds)
  {
    if rounds == [] then []
    else RoundsLog(b, rounds[..|rounds| - 1]) + RoundLog(AfterRounds(b, rounds[..|rounds| - 1]), rounds[|rounds| - 1])
  }

  function GreetLog(reconnect: bool, sent: Status, status: Status): seq<Entry> {
    if reconnect then [Served(SetState, status, None)]
    else [Served(SetConfig, sent, None), Served(WaitForIca, status, None)]
  }

  function ConcludeLog(reconnect: bool, state: Status, status: Status): seq<Entry> {
    (if reconnect then [Served(SetState, state, None)] else []) + [Served(ConnectionSend, status, None)]
  }

  /** The log when Accept starts to talk to the client, and how the requests around the query loop
      ended. */
  datatype Talk = Talk(loading: seq<Entry>, sent: Status, greeted: Status, state: Status, concluded: Status)

  /** Every request of a successful Accept. */
  function TalkLog(b: Built, reconnect: bool, rounds: seq<Round>, talk: Talk): seq<Entry>
    requires AllWf(rounds)
  {
    talk.loading + GreetLog(reconnect, talk.sent, talk.greeted) + RoundsLog(b, rounds)
    + ConcludeLog(reconnect, talk.state, talk.concluded)
  }

  /** The rounds used up the client's answers in order, and every answer was a whole configuration. */
  predicate Consumed(before: seq<Reply>, rounds: seq<Round>, after: seq<Reply>) {
    && |before| == |rounds| + |after|
    && after == before[|rounds|..]
    && forall k :: 0 <= k < |rounds| ==> before[k] == Reply(true, rounds[k].config)
  }

  lemma ConsumeOne(before: seq<Reply>, rounds: seq<Round>, mid: seq<Reply>, r: Round, after: seq<Reply>)
    requires Consumed(before, rounds, mid) && mid != [] && mid[0] == Reply(true, r.config) && after == mid[1..]
    ensures Consumed(before, rounds + [r], after)
  {
  }

  /** Every answer used up was a whole configuration. */
  predicate AllWhole(before: seq<Reply>, after: seq<Reply>) {
    && |after| <= |before|
    && forall k :: 0 <= k < |before| - |after| ==> before[k].full
  }

  lemma WholeFurther(before: seq<Reply>, rounds: seq<Round>, mid: seq<Reply>, after: seq<Reply>)
    requires Consumed(before, rounds, mid) && |after| <= |mid|
    ensures AllWhole(before, after) <==> AllWhole(mid, after)
  {
    forall k | 0 <= k < |mid| - |after|
      ensures mid[k] == before[|rounds| + k]
    {
    }
  }

  /** The WD that the configuration names when round k starts, if all earlier rounds changed it. */
  function WdBefore(wd: DllName, rounds: seq<Round>, k: nat): DllName
    requires k <= |rounds|
  {
    if k == 0 then wd else rounds[k - 1].config.wd
  }

  /** In round k the client names another WD, up to case, than the configuration. */
  predicate Moves(wd: DllName, rounds: seq<Round>, k: nat)
    requires k < |rounds|
  {
    !SameName(rounds[k].config.wd, WdBefore(wd, rounds, k))
  }

  /** Every round but the last changes the WD, and the last does not. */
  predicate Negotiated(wd: DllName, rounds: seq<Round>) {
    && rounds != []
    && AllWf(rounds)
    && forall k :: 0 <= k < |rounds| ==> (Moves(wd, rounds, k) <==> k < |rounds| - 1)
  }

  /** The one round found nothing to change. */
  predicate Idle(rounds: seq<Round>) {
    |rounds| == 1 && Used(rounds[0].config.sd) == []
  }

  /** The optional PDs found in all rounds, in order. */
  function AllFound(rounds: seq<Round>): seq<Module>
    requires AllWf(rounds)
  {
    if rounds == [] then []
    else
      var r := rounds[|rounds| - 1];
      AllFound(rounds[..|rounds| - 1]) + FoundPds(Used(r.config.sd), r.answers)
  }

  /** Every round so far changed the WD. */
  predicate AllMove(wd: DllName, rounds: seq<Round>) {
    && AllWf(rounds)
    && forall k :: 0 <= k < |rounds| ==> Moves(wd, rounds, k)
  }

  lemma MovesInPrefix(wd: DllName, rounds: seq<Round>, n: nat)
    requires n <= |rounds|
    ensures forall k :: 0 <= k < n ==> (Moves(wd, rounds[..n], k) <==> Moves(wd, rounds, k))
  {
  }

  /** While every round changes the WD, the configuration names the WD of the last answer. */
  lemma {:induction false} WdAfter(b: Built, rounds: seq<Round>)
    requires AllMove(b.wd, rounds)
    ensures AfterRounds(b, rounds).wd == WdBefore(b.wd, rounds, |rounds|)
  {
    if rounds == [] {
    } else {
      MovesInPrefix(b.wd, rounds, |rounds| - 1);
      WdAfter(b, rounds[..|rounds| - 1]);
      assert Moves(b.wd, rounds, |rounds| - 1);
    }
  }

  lemma MovesInNext(wd: DllName, rounds: seq<Round>, r: Round)
    ensures forall k :: 0 <= k < |rounds| ==> (Moves(wd, rounds + [r], k) <==> Moves(wd, rounds, k))
    ensures Moves(wd, rounds + [r], |rounds|) <==> !SameName(r.config.wd, WdBefore(wd, rounds, |rounds|))
  {
  }

  lemma OneRoundFurther(b: Built, rounds: seq<Round>, r: Round)
    requires AllWf(rounds) && r.Wf()
    ensures AllWf(rounds + [r])
    ensures AfterRounds(b, rounds + [r]) == AfterRound(AfterRounds(b, rounds), r)
    ensures RoundsLog(b, rounds + [r]) == RoundsLog(b, rounds) + RoundLog(AfterRounds(b, rounds), r)
  {
    assert (rounds + [r])[..|rounds|] == rounds;
  }

  lemma GoesOn(wd: DllName, rounds: seq<Round>, r: Round)
    requires AllMove(wd, rounds) && r.Wf() && Moves(wd, rounds + [r], |rounds|)
    ensures AllMove(wd, rounds + [r])
  {
    MovesInNext(wd, rounds, r);
  }

  lemma Ends(wd: DllName, rounds: seq<Round>, r: Round)
    requires AllMove(wd, rounds) && r.Wf() && !Moves(wd, rounds + [r], |rounds|)
    ensures Negotiated(wd, rounds + [r])
  {
    MovesInNext(wd, rounds, r);
  }

  /** A further round ends the negotiation iff it does not change the WD. */
  lemma NextRound(b: Built, rounds: seq<Round>, r: Round)
    requires AllMove(b.wd, rounds) && r.Wf()
    ensures !SameName(r.config.wd, AfterRounds(b, rounds).wd) ==> AllMove(b.wd, rounds + [r])
    ensures SameName(r.config.wd, AfterRounds(b, rounds).wd) ==> Negotiated(b.wd, rounds + [r])
  {
    WdAfter(b, rounds);
    MovesInNext(b.wd, rounds, r);
    if Moves(b.wd, rounds + [r], |rounds|) {
      GoesOn(b.wd, rounds, r);
    } else {
      Ends(b.wd, rounds, r);
    }
  }

  lemma LoadWithoutTop(cfg: Config)
    ensures DropTop(LoadList(cfg)) == TemplatePds(cfg)
  {
  }

  /** A round that rebuilds puts the PDs it found and the WD where the top was. */
  lemma Rebuilt(b: Built, r: Round)
    requires r.Wf() && !(SameName(r.config.wd, b.wd) && Used(r.config.sd) == [])
    ensures DropTop(AfterRound(b, r).modules) == DropTop(b.modules) + FoundPds(Used(r.config.sd), r.answers)
    ensures AfterRound(b, r).modules == DropTop(AfterRound(b, r).modules) + [Wd(AfterRound(b, r).wd)]
  {
  }

  /** ... and so adds the PDs it found to those of the rounds before. */
  lemma OneMoreRound(b: Built, rounds: seq<Round>, c: Built, r: Round)
    requires AllWf(rounds) && rounds != [] && r == rounds[|rounds| - 1] && c == AfterRounds(b, rounds[..|rounds| - 1])
    requires !(SameName(r.config.wd, c.wd) && Used(r.config.sd) == [])
    requires DropTop(c.modules) == DropTop(b.modules) + AllFound(rounds[..|rounds| - 1])
    ensures DropTop(AfterRounds(b, rounds).modules) == DropTop(b.modules) + AllFound(rounds)
    ensures AfterRounds(b, rounds).modules == DropTop(AfterRounds(b, rounds).modules) + [Wd(AfterRounds(b, rounds).wd)]
  {
    Rebuilt(c, r);
    Assoc(DropTop(b.modules), AllFound(rounds[..|rounds| - 1]), FoundPds(Used(r.config.sd), r.answers));
  }

  /** While every round changes the WD, the stack under its top is the one at the start, under its
      top, and the PDs found so far. */
  lemma {:induction false} ShapeWhileMoving(b: Built, rounds: seq<Round>)
    requires AllMove(b.wd, rounds)
    ensures DropTop(AfterRounds(b, rounds).modules) == DropTop(b.modules) + AllFound(rounds)
    ensures rounds != [] ==>
              var now := AfterRounds(b, rounds);
              now.modules == DropTop(now.modules) + [Wd(now.wd)]
  {
    if rounds == [] {
    } else {
      var n := |rounds| - 1;
      MovesInPrefix(b.wd, rounds, n);
      WdAfter(b, rounds[..n]);
      assert Moves(b.wd, rounds, n);
      ShapeWhileMoving(b, rounds[..n]);
      OneMoreRound(b, rounds, AfterRounds(b, rounds[..n]), rounds[n]);
    }
  }

  /** The WD that a finished negotiation agreed on: the last one named before the last round, which
      is, up to case, the one of the last answer. */
  lemma AcceptAgreement(b: Built, rounds: seq<Round>)
    requires Negotiated(b.wd, rounds)
    ensures AfterRounds(b, rounds).wd == WdBefore(b.wd, rounds, |rounds| - 1)
    ensures EqualUpToCase(rounds[|rounds| - 1].config.wd, AfterRounds(b, rounds).wd)
  {
    var n := |rounds| - 1;
    MovesInPrefix(b.wd, rounds, n);
    WdAfter(b, rounds[..n]);
    assert !Moves(b.wd, rounds, n);
    assert AfterRounds(b, rounds).wd == WdBefore(b.wd, rounds, n);
    SameNameExactly(rounds[n].config.wd, WdBefore(b.wd, rounds, n));
  }

  /** The shape that it leaves: under the WD lie the modules it started from without their top, then
      every optional PD found, in order. */
  lemma AcceptShape(b: Built, rounds: seq<Round>)
    requires Negotiated(b.wd, rounds)
    ensures AfterRounds(b, rounds).modules ==
            if Idle(rounds) then b.modules
            else DropTop(b.modules) + AllFound(rounds) + [Wd(AfterRounds(b, rounds).wd)]
    ensures Idle(rounds) ==> AllFound(rounds) == []
  {
    var n := |rounds| - 1;
    MovesInPrefix(b.wd, rounds, n);
    WdAfter(b, rounds[..n]);
    assert !Moves(b.wd, rounds, n);
    ShapeWhileMoving(b, rounds[..n]);
    if Used(rounds[n].config.sd) != [] {
      OneMoreRound(b, rounds, AfterRounds(b, rounds[..n]), rounds[n]);
    } else {
      LastFindsNothing(rounds);
    }
  }

  lemma LastFindsNothing(rounds: seq<Round>)
    requires AllWf(rounds) && rounds != [] && Used(rounds[|rounds| - 1].config.sd) == []
    ensures AllFound(rounds) == AllFound(rounds[..|rounds| - 1])
  {
  }

  lemma {:induction false} FoundAt(slots: seq<Slot>, answers: seq<Status>, m: Module)
    requires |slots| == |answers|
    ensures m in FoundPds(slots, answers) <==> exists k :: 0 <= k < |slots| && answers[k].Ok() && m == Pd(slots[k].dll)
  {
    if slots == [] {
    } else {
      var n := |slots| - 1;
      FoundAt(slots[..n], answers[..n], m);
    }
  }

  /** Only protocol drivers are added under the WD. */
  lemma {:induction false} AllFoundArePds(rounds: seq<Round>, m: Module)
    requires AllWf(rounds) && m in AllFound(rounds)
    ensures m.Pd?
  {
    var r := rounds[|rounds| - 1];
    if m in AllFound(rounds[..|rounds| - 1]) {
      AllFoundArePds(rounds[..|rounds| - 1], m);
    } else {
      FoundAt(Used(r.config.sd), r.answers, m);
    }
  }

  // ---------- the order of the requests ----------

  /** A request of the query loop. */
  predicate OfRound(e: Entry) {
    e.Served? && (e.code.ConnectionQuery? || e.code.Pop? || e.code.Push?)
  }

  lemma {:induction false} RoundsAsk(b: Built, rounds: seq<Round>, i: nat)
    requires AllWf(rounds) && i < |RoundsLog(b, rounds)|
    ensures OfRound(RoundsLog(b, rounds)[i])
  {
    if rounds == [] {
    } else {
      var earlier := rounds[..|rounds| - 1];
      if i < |RoundsLog(b, earlier)| {
        RoundsAsk(b, earlier, i);
      } else {
        RoundAsks(AfterRounds(b, earlier), rounds[|rounds| - 1], i - |RoundsLog(b, earlier)|);
      }
    }
  }

  lemma RoundAsks(b: Built, r: Round, i: nat)
    requires r.Wf() && i < |RoundLog(b, r)|
    ensures OfRound(RoundLog(b, r)[i])
  {
  }

  /** The device served request number i, which was `code`. */
  predicate Asked(log: seq<Entry>, i: int, code: Ioctl) {
    0 <= i < |log| && log[i].Served? && log[i].code == code
  }

  /** A reconnected session gets its state before the query loop and again after it, and is neither
      sent a configuration nor waited for; a new client is sent the configuration and then waited for,
      and gets no state. Either way the host's module data goes out last, and once. */
  lemma TalkOrder(b: Built, reconnect: bool, rounds: seq<Round>, talk: Talk, i: nat)
    requires AllWf(rounds) && |talk.loading| <= i < |TalkLog(b, reconnect, rounds, talk)|
    ensures var log, n := TalkLog(b, reconnect, rounds, talk), |talk.loading|;
            && Asked(log, |log| - 1, ConnectionSend)
            && (Asked(log, i, ConnectionSend) <==> i == |log| - 1)
            && (Asked(log, i, SetState) <==> reconnect && (i == n || i == |log| - 2))
            && (Asked(log, i, SetConfig) <==> !reconnect && i == n)
            && (Asked(log, i, WaitForIca) <==> !reconnect && i == n + 1)
  {
    var g, r := GreetLog(reconnect, talk.sent, talk.greeted), RoundsLog(b, rounds);
    var log := TalkLog(b, reconnect, rounds, talk);
    var k := i - |talk.loading| - |g|;
    if 0 <= k < |r| {
      assert log[i] == r[k];
      RoundsAsk(b, rounds, k);
    } else if k < 0 {
      assert log[i] == g[i - |talk.loading|];
    } else {
      assert log[i] == ConcludeLog(reconnect, talk.state, talk.concluded)[k - |r|];
    }
  }
}
