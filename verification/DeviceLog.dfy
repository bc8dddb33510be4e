/**
 What a caller of icaapi can see of the device: the requests it served, in order.
 */
module DeviceLog {
  import opened IcaTypes

  /** What the environment did: a request the device served (and the module it removed), or an
      attempt to open the connection driver: whether its library was found, whether it had every
      entry point, and what its open routine returned. */
  datatype Entry =
    | Served(code: Ioctl, status: Status, gone: Option<Module>)
    | CdTried(found: bool, complete: bool, status: Status)

  function Gone(code: Ioctl, modules: seq<Module>): Option<Module> {
    if code.Pop? && modules != [] then Some(modules[|modules| - 1]) else None
  }

  function Last(log: seq<Entry>): Entry
    requires log != []
  {
    log[|log| - 1]
  }

  /** The status that an entry stands for. */
  function StatusOf(e: Entry): Status {
    match e
    case Served(_, status, _) => status
    case CdTried(found, complete, status) => if !found then PdNotFound else if !complete then InvalidPd else status
  }

  /** The requests that make POPs and the release of CD threads; the others are a call's own. */
  predicate Refusal(e: Entry) {
    !StatusOf(e).Ok() && (e.Served? ==> !e.code.Pop? && !e.code.CdCancelIo?)
  }

  /** Since `before`, the environment refused something that a call asked for. */
  ghost predicate Refused(before: seq<Entry>, after: seq<Entry>) {
    exists i :: |before| <= i < |after| && Refusal(after[i])
  }

  /** A call that fails with `st` says what was refused, or that the stack is closing. */
  ghost predicate Explained(st: Status, closing: bool, before: seq<Entry>, after: seq<Entry>) {
    || (closing && st == ClosePending)
    || exists i :: |before| <= i < |after| && Refusal(after[i]) && StatusOf(after[i]) == st
  }

  // ---------- loading ----------

  /** The device took module m. */
  predicate Took(e: Entry, m: Module) {
    e.Served? && e.code == Push(m) && e.status.Ok() && e.gone.None?
  }

  /** The device took the modules of the list, in order, and served nothing else. */
  ghost predicate Pushed(list: seq<Module>, before: seq<Entry>, after: seq<Entry>) {
    && |after| == |before| + |list|
    && before <= after
    && forall i :: 0 <= i < |list| ==> Took(after[|before| + i], list[i])
  }

  lemma PushedOne(list: seq<Module>, m: Module, before: seq<Entry>, after: seq<Entry>, e: Entry)
    requires Pushed(list, before, after) && Took(e, m)
    ensures Pushed(list + [m], before, after + [e])
  {
  }

  predicate CdOpened(e: Entry) {
    e.CdTried? && StatusOf(e).Ok()
  }

  /** The log of a load that succeeded: the CD was opened, if there is one, and the device took the
      configured modules. */
  ghost predicate LoadLogged(cfg: Config, before: seq<Entry>, after: seq<Entry>) {
    if cfg.cdNone then Pushed(LoadList(cfg), before, after)
    else
      && before < after
      && CdLogged(cfg, before, after[..|before| + 1])
      && Pushed(LoadList(cfg), after[..|before| + 1], after)
  }

  /** ... and of the request after it, which the device granted. */
  ghost predicate LoadLoggedThen(cfg: Config, code: Ioctl, before: seq<Entry>, after: seq<Entry>) {
    && |before| < |after|
    && Last(after).Served? && Last(after).code == code && Last(after).status.Ok() && Last(after).gone.None?
    && LoadLogged(cfg, before, after[..|after| - 1])
  }

  /** ... and of one that created an endpoint, and then of a last request. */
  ghost predicate EndpointThen(cfg: Config, code: Ioctl, raw: Status, before: seq<Entry>, after: seq<Entry>) {
    && |before| < |after|
    && Last(after) == Served(code, raw, None)
    && LoadLoggedThen(cfg, CreateEndpoint, before, after[..|after| - 1])
  }

  lemma AskedAfterEndpoint(cfg: Config, code: Ioctl, raw: Status, before: seq<Entry>, mid: seq<Entry>)
    requires LoadLoggedThen(cfg, CreateEndpoint, before, mid)
    ensures EndpointThen(cfg, code, raw, before, mid + [Served(code, raw, None)])
  {
    assert (mid + [Served(code, raw, None)])[..|mid|] == mid;
  }

  predicate OneMore(before: seq<Entry>, after: seq<Entry>) {
    |after| == |before| + 1 && before <= after
  }

  /** Only the CD was tried, and it did not open. */
  predicate CdRefused(cfg: Config, before: seq<Entry>, after: seq<Entry>) {
    !cfg.cdNone && OneMore(before, after) && Last(after).CdTried? && Refusal(Last(after))
  }

  /** The CD, if there is one, was opened. */
  predicate CdLogged(cfg: Config, before: seq<Entry>, after: seq<Entry>) {
    if cfg.cdNone then after == before else OneMore(before, after) && CdOpened(Last(after))
  }

  /** A load that succeeded: what it added to the device's modules and to the log. */
  ghost predicate LoadDone(cfg: Config, modules0: seq<Module>, before: seq<Entry>, modules: seq<Module>,
      after: seq<Entry>)
  {
    && modules == modules0 + LoadList(cfg)
    && LoadedOn(cfg, modules0, modules)
    && LoadLogged(cfg, before, after)
  }

  lemma LoadIsDone(cfg: Config, modules0: seq<Module>, before: seq<Entry>, start: seq<Entry>, after: seq<Entry>)
    requires CdLogged(cfg, before, start) && Pushed(LoadList(cfg), start, after)
    ensures LoadDone(cfg, modules0, before, modules0 + LoadList(cfg), after)
  {
    assert after[..|start|] == start;
    LoadListLoads(cfg, modules0);
  }

  lemma CdDidOpen(cfg: Config, before: seq<Entry>, start: seq<Entry>, after: seq<Entry>)
    requires CdLogged(cfg, before, start) && start <= after
    ensures !CdRefused(cfg, before, after)
  {
    if !cfg.cdNone {
      assert after[|before|] == start[|before|];
    }
  }

  lemma LoadIsNoRefusal(cfg: Config, before: seq<Entry>, loading: seq<Entry>, after: seq<Entry>)
    requires LoadLogged(cfg, before, loading) && loading <= after
    ensures !CdRefused(cfg, before, after)
  {
    if !cfg.cdNone {
      assert loading[..|before| + 1] == after[..|before| + 1];
      CdDidOpen(cfg, before, loading[..|before| + 1], after);
    }
  }

  // ---------- unloading ----------

  /** The log of popping a whole module stack: every module, top first. */
  function Pops(modules: seq<Module>): (r: seq<Entry>)
    ensures |r| == |modules|
  {
    if modules == [] then []
    else [Served(Pop, StatusSuccess, Some(modules[|modules| - 1]))] + Pops(modules[..|modules| - 1])
  }

  /** Pops in closed form: the i-th POP removes the i-th module from the top. */
  lemma {:induction false} PopsAt(modules: seq<Module>, i: nat)
    requires i < |modules|
    ensures Pops(modules)[i] == Served(Pop, StatusSuccess, Some(modules[|modules| - 1 - i]))
    decreases i
  {
    if i == 0 {
    } else {
      PopsAt(modules[..|modules| - 1], i - 1);
    }
  }

  /** The log of an unload of `modules`. */
  function UnloadLog(before: seq<Entry>, modules: seq<Module>, failed: Status, cancelled: Status): seq<Entry> {
    before + Pops(modules) + [Served(Pop, failed, None), Served(CdCancelIo, cancelled, None)]
  }

  lemma UnloadRefusesNothing(since: seq<Entry>, before: seq<Entry>, modules: seq<Module>, failed: Status,
      cancelled: Status)
    requires since <= before
    ensures Refused(since, UnloadLog(before, modules, failed, cancelled)) <==> Refused(since, before)
    ensures before <= UnloadLog(before, modules, failed, cancelled)
  {
    var after := UnloadLog(before, modules, failed, cancelled);
    RefusedStays(since, before, after);
    forall i | |before| <= i < |after|
      ensures !Refusal(after[i])
    {
      if i - |before| < |modules| {
        PopsAt(modules, i - |before|);
      }
    }
    forall i | |since| <= i < |before|
      ensures after[i] == before[i]
    {
    }
  }

  lemma RefusedGrows(a: seq<Entry>, b: seq<Entry>, e: Entry)
    requires a <= b
    ensures Refused(a, b + [e]) <==> Refused(a, b) || Refusal(e)
    ensures Refusal(e) ==> Explained(StatusOf(e), false, a, b + [e])
  {
    RefusedStays(a, b, b + [e]);
    assert (b + [e])[|b|] == e;
  }

  lemma RefusedStays(a: seq<Entry>, b: seq<Entry>, c: seq<Entry>)
    requires b <= c
    ensures Refused(a, b) ==> Refused(a, c)
  {
    if Refused(a, b) {
      var i :| |a| <= i < |b| && Refusal(b[i]);
      assert Refusal(c[i]);
    }
  }

  lemma ExplainedStays(st: Status, closing: bool, a: seq<Entry>, b: seq<Entry>, c: seq<Entry>)
    requires b <= c && Explained(st, closing, a, b)
    ensures Explained(st, closing, a, c)
  {
    if !(closing && st == ClosePending) {
      var i :| |a| <= i < |b| && Refusal(b[i]) && StatusOf(b[i]) == st;
      assert c[i] == b[i];
    }
  }

  // ---------- what ends Accept ----------

  /** A refusal that Accept does not pass over: it tolerates a refused SET_CONFIG, and a PD that the
      host does not have. */
  predicate Blocks(e: Entry) {
    && !StatusOf(e).Ok()
    && (e.Served? ==> !e.code.SetConfig? && !(e.code.Push? && e.code.m.Pd? && e.status.ObjectNameNotFound?))
  }

  /** Since `before`, something happened that ends Accept. */
  ghost predicate Blocked(before: seq<Entry>, after: seq<Entry>) {
    exists i :: |before| <= i < |after| && Blocks(after[i])
  }

  lemma BlockedGrows(a: seq<Entry>, b: seq<Entry>, e: Entry)
    requires a <= b
    ensures Blocked(a, b + [e]) <==> Blocked(a, b) || Blocks(e)
  {
    assert (b + [e])[|b|] == e;
    if Blocked(a, b) {
      var i :| |a| <= i < |b| && Blocks(b[i]);
      assert (b + [e])[i] == b[i];
    }
  }

  lemma BlockedSplits(a: seq<Entry>, b: seq<Entry>, c: seq<Entry>)
    requires a <= b <= c
    ensures Blocked(a, c) <==> Blocked(a, b) || Blocked(b, c)
  {
    if Blocked(a, b) {
      var i :| |a| <= i < |b| && Blocks(b[i]);
      assert c[i] == b[i];
    }
    if Blocked(a, c) && !Blocked(b, c) {
      var i :| |a| <= i < |c| && Blocks(c[i]);
      assert i < |b| && b[i] == c[i];
    }
  }
}
