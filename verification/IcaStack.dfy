/**
 The calls of icaapi as methods that update one STACK in place, run by a thread that nobody
 disturbs: other threads only hold references, let go of them while this thread waits, and may
 take a bounded number of new ones meanwhile.
 */
module IcaStack {
  import opened IcaTypes
  import opened DeviceLog
  import opened Negotiation

  /** The ICA device behind hStack. `replies` are the client's answers still to come. */
  class Device {
    var modules: seq<Module>
    var replies: seq<Reply>
    ghost var log: seq<Entry>
    ghost var held: seq<int>         // the references that the thread held at each request it made

    constructor (replies: seq<Reply>)
      ensures modules == [] && this.replies == replies && log == [] && held == []
    {
      modules, this.replies, log, held := [], replies, [], [];
    }

    /** IcaIoControl, called with `refs` references of the calling thread and without the lock. */
    method Serve(code: Ioctl, ghost refs: int, ghost locked: bool) returns (status: Status, reply: Reply)
      requires !locked
      modifies this
      ensures held == old(held) + [refs]
      ensures code.Pop? ==> (status == StatusSuccess <==> old(modules) != [])
      ensures modules == DeviceModules(code, old(modules), status)
      ensures log == old(log) + [Served(code, status, Gone(code, old(modules)))]
      ensures code.ConnectionQuery? && old(replies) == [] ==> !status.Ok() && replies == []
      ensures code.ConnectionQuery? && old(replies) != [] ==> reply == old(replies)[0] && replies == old(replies)[1..]
      ensures !code.ConnectionQuery? ==> replies == old(replies)
    {
      var chosen: Status := *;
      reply := *;
      if code.ConnectionQuery? {
        if replies == [] {
          chosen := OtherError(0);
        } else {
          reply, replies := replies[0], replies[1..];
        }
      }
      status := DeviceStatus(code, modules, chosen);
      log, held := log + [Served(code, status, Gone(code, modules))], held + [refs];
      modules := DeviceModules(code, modules, status);
    }

    /** LoadLibrary, GetProcAddress and the CD's open routine. */
    method TryCd() returns (found: bool, complete: bool, status: Status)
      modifies this`log
      ensures log == old(log) + [CdTried(found, complete, status)]
    {
      found, complete, status := *, *, *;
      log := log + [CdTried(found, complete, status)];
    }
  }

  /** PWINSTATIONCONFIG2, which Accept updates. */
  class WinStation {
    var config: Config

    constructor (config: Config)
      ensures this.config == config
    {
      this.config := config;
    }
  }

  /** Everything of STACK that an ioctl leaves alone. */
  datatype Fields = Fields(
    locked: bool, refCount: nat, others: nat, coming: nat, hUnload: Option<bool>, hClose: Option<bool>,
    cd: bool, cdDll: bool, loaded: bool, unloading: bool, closing: bool, open: bool)

  /** What Accept finds: the load state, the device, the client's answers and the configuration. */
  datatype Before = Before(loaded: bool, modules: seq<Module>, replies: seq<Reply>, log: seq<Entry>, config: Config)
  {
    /** What it negotiates over. */
    function Ground(): Built {
      Built(if loaded then modules else LoadList(config), config.wd)
    }
  }

  /** Accept's result in closed form: the optional PDs that were found and the WD agreed on replace
      the top of what was negotiated over. */
  predicate Agreed(was: Before, rounds: seq<Round>, now: Built) {
    && Negotiated(was.config.wd, rounds)
    && now.wd == WdBefore(was.config.wd, rounds, |rounds| - 1)
    && EqualUpToCase(rounds[|rounds| - 1].config.wd, now.wd)
    && now.modules == if !was.loaded then TemplatePds(was.config) + AllFound(rounds) + [Wd(now.wd)]
                      else if Idle(rounds) then was.modules
                      else DropTop(was.modules) + AllFound(rounds) + [Wd(now.wd)]
  }

  lemma NegotiationAgrees(was: Before, rounds: seq<Round>)
    requires Negotiated(was.config.wd, rounds)
    ensures Agreed(was, rounds, AfterRounds(was.Ground(), rounds))
  {
    AcceptAgreement(was.Ground(), rounds);
    AcceptShape(was.Ground(), rounds);
    LoadWithoutTop(was.config);
  }

  class Stack {
    const device: Device
    const hasCallback: bool
    var locked: bool                 // this thread owns CritSec
    var refCount: nat
    var hUnload: Option<bool>        // hUnloadEvent, and whether it is signalled
    var hClose: Option<bool>         // hCloseEvent, and whether it is signalled
    var cd: bool                     // the CD's entry points are set
    var cdDll: bool                  // hCdDLL is set
    var loaded: bool
    var unloading: bool
    var closing: bool
    var open: bool                   // hStack is open
    var others: nat                  // references other threads hold
    var coming: nat                  // references other threads will still take while this one sleeps

    constructor (device: Device, hasCallback: bool, coming: nat)
      requires device.modules == []
      ensures Valid() && this.device == device && this.hasCallback == hasCallback
      ensures !loaded && !closing && others == 0 && this.coming == coming
    {
      this.device, this.hasCallback := device, hasCallback;
      locked, refCount := false, 0;
      hUnload, hClose := None, None;
      cd, cdDll, loaded, unloading, closing, open := false, false, false, false, false, true;
      others, this.coming := 0, coming;
    }

    function Snap(): Fields
      reads this
    {
      Fields(locked, refCount, others, coming, hUnload, hClose, cd, cdDll, loaded, unloading, closing, open)
    }

    /** The lock is owned and nobody waits. */
    predicate Calm()
      reads this
    {
      locked && open && hUnload.None? && hClose.None?
    }

    /** The lock is owned by this thread, which holds no reference. */
    predicate Held()
      reads this
    {
      locked && open && hClose.None? && refCount == others
    }

    /** Calm, outside every window of this thread. */
    predicate Quiet()
      reads this
    {
      Calm() && refCount == others
    }

    /** What holds of the load state between calls. */
    predicate Settled()
      reads this, device
    {
      && !unloading
      && (!loaded ==> device.modules == [] && !cd)
      && (closing ==> !loaded)
    }

    /** Between calls. */
    predicate Valid()
      reads this, device
    {
      && !locked && open && hUnload.None? && hClose.None? && refCount == others
      && Settled()
    }

    /** The stack holds nothing. */
    predicate Unloaded()
      reads this, device
    {
      !loaded && !unloading && !cd && device.modules == []
    }

    /** The device served `code` once, with status raw and `windows` windows of this thread open, and
        nothing else changed. */
    twostate predicate Issued(code: Ioctl, raw: Status, windows: nat)
      reads this, device
    {
      && Snap() == old(Snap())
      && device.held == old(device.held) + [refCount - others + windows]
      && (code.Pop? ==> (raw == StatusSuccess <==> old(device.modules) != []))
      && device.modules == DeviceModules(code, old(device.modules), raw)
      && device.log == old(device.log) + [Served(code, raw, Gone(code, old(device.modules)))]
      && (code.ConnectionQuery? && raw.Ok() ==> old(device.replies) != [])
      && device.replies == (if code.ConnectionQuery? && old(device.replies) != [] then old(device.replies)[1..]
                            else old(device.replies))
    }

    // ---------- the lock, the count and the events ----------

    /** LOCK: asserts that the caller does not own the lock. */
    method Lock()
      requires !locked
      modifies this`locked
      ensures locked
    {
      locked := true;
    }

    /** UNLOCK: asserts that the caller owns the lock. */
    method Unlock()
      requires locked
      modifies this`locked
      ensures !locked
    {
      locked := false;
    }

    /** _DecrementStackRef: signals the unloader at one reference left, the closer at none. */
    method DecrementStackRef()
      requires refCount > 0
      modifies this`refCount, this`hUnload, this`hClose
      ensures refCount == old(refCount) - 1
      ensures hUnload == if refCount == 1 && old(hUnload).Some? then Some(true) else old(hUnload)
      ensures hClose == if refCount == 0 && old(hClose).Some? then Some(true) else old(hClose)
    {
      refCount := refCount - 1;
      if refCount == 1 && hUnload.Some? {
        hUnload := Some(true);
      } else if refCount == 0 && hClose.Some? {
        hClose := Some(true);
      }
    }

    /** WaitForSingleObject(hUnloadEvent): the references of others went away, and some may have
        been taken since. */
    method SleepForUnload()
      requires !locked && hUnload == Some(false) && refCount == 1 + others && others > 0
      modifies this`refCount, this`others, this`coming, this`hUnload
      ensures hUnload == Some(true) && refCount == 1 + others && others + coming == old(coming)
    {
      var taken: nat :| taken <= coming;
      hUnload := Some(true);
      others, coming, refCount := taken, coming - taken, 1 + taken;
    }

    // ---------- issuing an ioctl ----------

    /** A window around the device: RefCount++; UNLOCK; IcaIoControl; LOCK; _DecrementStackRef. */
    method CallDevice(code: Ioctl) returns (st: Status, reply: Reply)
      requires Calm()
      modifies this, device
      ensures Issued(code, st, 1)
      ensures code.ConnectionQuery? && st.Ok() ==> reply == old(device.replies)[0]
    {
      refCount := refCount + 1;
      Unlock();
      st, reply := device.Serve(code, refCount - others, locked);
      Lock();
      DecrementStackRef();
    }

    /** IcaCdIoControl, as the connection driver forwards a request. */
    method CdIoControl(code: Ioctl) returns (st: Status, reply: Reply, ghost raw: Status)
      requires Calm() && cd
      modifies this, device
      ensures Issued(code, raw, 1)
      ensures st == if closing && !code.Pop? then ClosePending else raw
      ensures code.ConnectionQuery? && raw.Ok() ==> reply == old(device.replies)[0]
    {
      st, reply := CallDevice(code);
      raw := st;
      if closing && !code.Pop? {
        st := ClosePending;
      }
    }

    /** _IcaStackIoControlWorker */
    method Worker(code: Ioctl) returns (st: Status, reply: Reply, ghost raw: Status)
      requires Calm()
      modifies this, device
      ensures Issued(code, raw, 1)
      ensures st == if cd && closing && !code.Pop? then ClosePending else raw
      ensures code.ConnectionQuery? && raw.Ok() ==> reply == old(device.replies)[0]
    {
      if cd {
        st, reply, raw := CdIoControl(code);
        if closing && !code.Pop? {
          st := ClosePending;
        }
      } else {
        st, reply := CallDevice(code);
        raw := st;
      }
    }

    /** IcaStackIoControl: the entry point, also called by the callback inside its window. */
    method StackIoControl(code: Ioctl) returns (st: Status, reply: Reply, ghost raw: Status)
      requires !locked && open && hUnload.None? && hClose.None?
      modifies this, device
      ensures Issued(code, raw, 1)
      ensures st == if cd && closing && !code.Pop? then ClosePending else raw
      ensures code.ConnectionQuery? && raw.Ok() ==> reply == old(device.replies)[0]
    {
      Lock();
      st, reply, raw := Worker(code);
      Unlock();
    }

    /** _IcaStackIoControl: through the callback, which forwards, or directly. */
    method IoControl(code: Ioctl) returns (st: Status, reply: Reply, ghost raw: Status)
      requires Calm()
      modifies this, device
      ensures Issued(code, raw, if hasCallback then 2 else 1)
      ensures st == if cd && closing && !code.Pop? then ClosePending else raw
      ensures code.ConnectionQuery? && raw.Ok() ==> reply == old(device.replies)[0]
    {
      if hasCallback {
        refCount := refCount + 1;
        Unlock();
        st, reply, raw := StackIoControl(code);
        Lock();
        DecrementStackRef();
      } else {
        st, reply, raw := Worker(code);
      }
    }

    // ---------- unloading ----------

    /** Waiting for all other references, as _IcaPopStack does: each further round is paid for by
        a reference that another thread took meanwhile. */
    method AwaitOthers() returns (ghost rounds: nat)
      requires Calm() && refCount == 1 + others
      modifies this
      ensures Snap() == old(Snap()).(refCount := 1, others := 0, coming := coming)
      ensures coming <= old(coming) && rounds <= 1 + (old(coming) - coming)
    {
      rounds := 0;
      while refCount > 1
        invariant locked && open && hClose.None? && refCount == 1 + others && coming <= old(coming)
        invariant Snap() == old(Snap()).(refCount := refCount, others := others, coming := coming, hUnload := hUnload)
        invariant hUnload.Some? ==> refCount > 1
        invariant rounds <= old(coming) - coming + (if refCount > 1 then 0 else 1)
        decreases coming, others
      {
        rounds := rounds + 1;
        hUnload := Some(false);
        Unlock();
        SleepForUnload();
        Lock();
        if refCount <= 1 {
          hUnload := None;
        }
      }
    }

    /** _CdClose */
    method CdClose()
      requires locked
      modifies this`cd, this`cdDll
      ensures !cd && !cdDll
    {
      cd, cdDll := false, false;
    }

    /** _IcaPopSd */
    method PopSd() returns (st: Status)
      requires Quiet()
      modifies this, device
      ensures Issued(Pop, st, if hasCallback then 2 else 1)
    {
      var reply: Reply;
      ghost var raw: Status;
      st, reply, raw := IoControl(Pop);
    }

    /** The POPs of an unload: n modules take n + 1, from the top, whatever is masked. */
    method PopAll() returns (ghost failed: Status)
      requires Quiet()
      modifies this, device
      ensures Snap() == old(Snap()) && device.modules == [] && device.replies == old(device.replies)
      ensures failed != StatusSuccess
      ensures device.log == old(device.log) + Pops(old(device.modules)) + [Served(Pop, failed, None)]
    {
      ghost var all := old(device.log) + Pops(old(device.modules));
      var st := PopSd();
      while st == StatusSuccess
        invariant Snap() == old(Snap()) && device.replies == old(device.replies)
        invariant st == StatusSuccess ==> device.log + Pops(device.modules) == all
        invariant st != StatusSuccess ==> device.modules == [] && device.log == all + [Served(Pop, st, None)]
        decreases |device.modules| + (if st == StatusSuccess then 1 else 0)
      {
        ghost var before := device.log;
        ghost var held := device.modules;
        st := PopSd();
        assert st == StatusSuccess ==> Pops(held) == [Served(Pop, st, Gone(Pop, held))] + Pops(device.modules);
      }
      failed := st;
    }

    /** The end of _IcaPopStack: wait for the others, close the CD, clear the flags. */
    method Release()
      requires Quiet() && unloading
      modifies this
      ensures Snap() == old(Snap()).(refCount := 0, others := 0, coming := coming, cd := false, cdDll := false,
                                     loaded := false, unloading := false)
      ensures coming <= old(coming)
    {
      refCount := refCount + 1;
      ghost var rounds := AwaitOthers();
      DecrementStackRef();
      CdClose();
      loaded, unloading := false, false;
    }

    /** _IcaPopStack: empties the stack, unless an unload is under way. */
    method PopStack() returns (ghost failed: Status, ghost cancelled: Status)
      requires Held() && (!unloading ==> hUnload.None?)
      modifies this, device
      ensures closing == old(closing) && device.replies == old(device.replies)
      ensures old(unloading) ==>
                Snap() == old(Snap()) && device.modules == old(device.modules) && device.log == old(device.log)
      ensures !old(unloading) ==> Quiet() && Unloaded() && !cdDll && others == 0 && coming <= old(coming)
      ensures !old(unloading) ==> failed != StatusSuccess
                                  && device.log == UnloadLog(old(device.log), old(device.modules), failed, cancelled)
    {
      if unloading {
        failed, cancelled := StatusSuccess, StatusSuccess;
        return;
      }
      unloading := true;
      failed := PopAll();
      ghost var popped := device.log;
      var _, _, raw := IoControl(CdCancelIo);
      cancelled := raw;
      assert device.log == popped + [Served(CdCancelIo, cancelled, None)];
      Release();
    }

    /** _IcaPopStack where no other thread is unloading. */
    method Unload(ghost since: seq<Entry>) returns (ghost failed: Status, ghost cancelled: Status)
      requires Quiet() && !unloading && since <= device.log
      modifies this, device
      ensures Quiet() && Settled() && Unloaded() && closing == old(closing)
      ensures device.replies == old(device.replies) && since <= old(device.log) <= device.log
      ensures Refused(since, device.log) <==> Refused(since, old(device.log))
      ensures device.log == UnloadLog(old(device.log), old(device.modules), failed, cancelled)
    {
      ghost var log0, modules0 := device.log, device.modules;
      failed, cancelled := PopStack();
      UnloadRefusesNothing(since, log0, modules0, failed, cancelled);
    }

    // ---------- loading ----------

    /** _CdOpen: a library that was found, but is incomplete or does not open, takes the entry points
        of the one before with it. */
    method CdOpen(cfg: Config) returns (st: Status)
      requires locked
      modifies this`cd, this`cdDll, device`log
      ensures cfg.cdNone ==> st == StatusSuccess && cd == old(cd) && cdDll == old(cdDll)
                             && device.log == old(device.log)
      ensures !cfg.cdNone ==> OneMore(old(device.log), device.log) && Last(device.log).CdTried?
      ensures st.Ok() ==> CdLogged(cfg, old(device.log), device.log)
      ensures !cfg.cdNone && st.Ok() ==> st == StatusSuccess && cd && cdDll
      ensures !st.Ok() ==> CdRefused(cfg, old(device.log), device.log) && st == StatusOf(Last(device.log))
                           && cd == (old(cd) && !Last(device.log).found) && cdDll == old(cdDll)
      ensures !st.Ok() <==> Refused(old(device.log), device.log)
    {
      if cfg.cdNone {
        return StatusSuccess;
      }
      ghost var log0 := device.log;
      var found, complete, status := device.TryCd();
      RefusedGrows(log0, log0, CdTried(found, complete, status));
      if !found {
        return PdNotFound;
      }
      if !complete {
        cd := false;
        return InvalidPd;
      }
      if !status.Ok() {
        cd := false;
        return status;
      }
      cd, cdDll := true, true;
      return StatusSuccess;
    }

    /** A request of a call's own, other than PUSH, POP and the client query. */
    method Request(code: Ioctl, ghost since: seq<Entry>) returns (st: Status)
      requires Quiet() && since <= device.log
      requires !code.Push? && !code.Pop? && !code.CdCancelIo? && !code.ConnectionQuery?
      modifies this, device
      ensures Snap() == old(Snap()) && device.modules == old(device.modules) && device.replies == old(device.replies)
      ensures since <= device.log
      ensures !(cd && closing) ==> (Refused(since, device.log) <==> Refused(since, old(device.log)) || !st.Ok())
      ensures !(cd && closing) ==> device.log == old(device.log) + [Served(code, st, None)]
      ensures !st.Ok() ==> Explained(st, closing, since, device.log)
      ensures cd && closing ==> st == ClosePending
    {
      ghost var log0 := device.log;
      ghost var raw: Status;
      var reply: Reply;
      st, reply, raw := IoControl(code);
      RefusedGrows(since, log0, Served(code, raw, None));
    }

    /** _IcaPushPd and _IcaPushWd */
    method PushModule(m: Module, ghost since: seq<Entry>) returns (st: Status, ghost raw: Status)
      requires Quiet() && since <= device.log
      modifies this, device
      ensures Snap() == old(Snap()) && device.replies == old(device.replies) && since <= device.log
      ensures st == if cd && closing then ClosePending else raw
      ensures device.modules == old(device.modules) + if raw.Ok() then [m] else []
      ensures device.log == old(device.log) + [Served(Push(m), raw, None)]
      ensures Refused(since, device.log) <==> Refused(since, old(device.log)) || !raw.Ok()
      ensures !st.Ok() ==> Explained(st, closing, since, device.log)
    {
      ghost var log0 := device.log;
      var reply: Reply;
      st, reply, raw := IoControl(Push(m));
      RefusedGrows(since, log0, Served(Push(m), raw, None));
    }

    /** The stackclosing path of _IcaPushStack; it is taken without a connection driver only. */
    method UnloadAfterClosing(ghost since: seq<Entry>) returns (st: Status)
      requires Quiet() && closing && !cd && since <= device.log
      modifies this, device
      ensures Snap() == old(Snap()) && device.replies == old(device.replies)
      ensures since <= old(device.log) <= device.log && device.modules == [] && st == ClosePending
    {
      ghost var failed := PopAll();
      st := ClosePending;
    }

    /** One push of _IcaPushStack, with its exits: a push that fails, and a push that returns while
        fClosing is set, both end with the stack unloaded. */
    method PushOrUnload(m: Module, ghost since: seq<Entry>) returns (st: Status, ghost raw: Status)
      requires Quiet() && !unloading && (closing ==> !loaded) && since <= device.log
      modifies this, device
      ensures st == if closing && (old(cd) || raw.Ok()) then ClosePending else raw
      ensures st.Ok() ==> Snap() == old(Snap()) && !closing && device.modules == old(device.modules) + [m]
                          && device.log == old(device.log) + [Served(Push(m), raw, None)]
      ensures !st.Ok() ==> Quiet() && Settled() && Unloaded() && closing == old(closing)
      ensures !st.Ok() ==> Explained(st, closing, since, device.log)
      ensures !closing ==> (Refused(since, device.log) <==> Refused(since, old(device.log)) || !st.Ok())
      ensures device.replies == old(device.replies) && since <= old(device.log) <= device.log
    {
      st, raw := PushModule(m, since);
      if !st.Ok() {
        ghost var pushed := device.log;
        ghost var failed, cancelled := Unload(since);
        ExplainedStays(st, closing, since, pushed, device.log);
      } else if closing {
        st := UnloadAfterClosing(since);
      }
    }

    /** The pushes of _IcaPushStack: the template PDs, then the WD. */
    method PushModules(cfg: Config, ghost since: seq<Entry>) returns (st: Status)
      requires Quiet() && !unloading && (closing ==> !loaded) && since <= device.log && !Refused(since, device.log)
      modifies this, device
      ensures st.Ok() ==> Snap() == old(Snap()) && !closing && !Refused(since, device.log)
                          && device.modules == old(device.modules) + LoadList(cfg)
                          && Pushed(LoadList(cfg), old(device.log), device.log)
      ensures !st.Ok() ==> Quiet() && Settled() && Unloaded() && closing == old(closing)
      ensures !st.Ok() ==> Explained(st, closing, since, device.log) && (!closing ==> Refused(since, device.log))
      ensures device.replies == old(device.replies) && since <= old(device.log) <= device.log
    {
      ghost var log0, modules0 := device.log, device.modules;
      ghost var raw: Status;
      ghost var before: seq<Entry>;
      var i := 0;
      while i < MAX_PDCONFIG && cfg.pd[i].sdClass != SD_NONE
        invariant 0 <= i <= MAX_PDCONFIG && Snap() == old(Snap()) && device.replies == old(device.replies)
        invariant forall j :: 0 <= j < i ==> cfg.pd[j].sdClass != SD_NONE
        invariant device.modules == modules0 + AsPds(cfg.pd[..i])
        invariant Pushed(AsPds(cfg.pd[..i]), log0, device.log) && since <= log0 <= device.log
        invariant !Refused(since, device.log)
      {
        before := device.log;
        st, raw := PushOrUnload(Pd(cfg.pd[i].dll), since);
        if !st.Ok() {
          return;
        }
        Assoc(modules0, AsPds(cfg.pd[..i]), [Pd(cfg.pd[i].dll)]);
        PushedOne(AsPds(cfg.pd[..i]), Pd(cfg.pd[i].dll), log0, before, Last(device.log));
        OneMorePd(cfg.pd, i);
        i := i + 1;
      }
      UsedIs(cfg.pd, i);
      before := device.log;
      st, raw := PushOrUnload(Wd(cfg.wd), since);
      if st.Ok() {
        Assoc(modules0, TemplatePds(cfg), [Wd(cfg.wd)]);
        PushedOne(TemplatePds(cfg), Wd(cfg.wd), log0, before, Last(device.log));
      }
    }

    /** _IcaPushStack: all of the configured stack, or nothing. */
    method PushStack(cfg: Config) returns (st: Status)
      requires Quiet() && Settled()
      modifies this, device
      ensures Quiet() && Settled() && closing == old(closing) && device.replies == old(device.replies)
      ensures old(device.log) <= device.log
      ensures st.Ok() ==> st == StatusSuccess && loaded && !closing && (cd <==> old(cd) || !cfg.cdNone)
      ensures st.Ok() ==> LoadDone(cfg, old(device.modules), old(device.log), device.modules, device.log)
      ensures !st.Ok() ==> if CdRefused(cfg, old(device.log), device.log)
                           then loaded == old(loaded) && device.modules == old(device.modules) else Unloaded()
      ensures !st.Ok() && !old(loaded) ==> Unloaded()
      ensures !st.Ok() ==> Explained(st, closing, old(device.log), device.log)
      ensures st.Ok() <==> !closing && !Refused(old(device.log), device.log)
    {
      ghost var log0 := device.log;
      st := CdOpen(cfg);
      if !st.Ok() {
        return;
      }
      ghost var start, modules0 := device.log, device.modules;
      st := PushModules(cfg, log0);
      if st.Ok() {
        LoadIsDone(cfg, modules0, log0, start, device.log);
        loaded := true;
        st := StatusSuccess;
      } else {
        CdDidOpen(cfg, log0, start, device.log);
      }
    }

    /** _IcaPushStackAndCreateEndpoint and _IcaPushStackAndOpenEndpoint */
    method LoadAndOpen(cfg: Config, code: Ioctl) returns (st: Status, ghost raw: Status)
      requires Quiet() && Settled() && !loaded
      requires code.CreateEndpoint? || code.OpenEndpoint?
      modifies this, device
      ensures Quiet() && Settled() && closing == old(closing) && device.replies == old(device.replies)
      ensures old(device.log) <= device.log
      ensures st.Ok() <==> !closing && !Refused(old(device.log), device.log)
      ensures st.Ok() ==> st == StatusSuccess && loaded && LoadedOn(cfg, [], device.modules)
                          && device.modules == LoadList(cfg)
      ensures st.Ok() ==> LoadLoggedThen(cfg, code, old(device.log), device.log)
                          && Last(device.log) == Served(code, raw, None)
      ensures !st.Ok() ==> Unloaded() && Explained(st, closing, old(device.log), device.log)
    {
      ghost var log0 := device.log;
      st := PushStack(cfg);
      raw := st;
      if !st.Ok() {
        return;
      }
      st := Request(code, log0);
      raw := st;
      if !st.Ok() {
        ghost var asked := device.log;
        ghost var failed, cancelled := Unload(log0);
        ExplainedStays(st, closing, log0, asked, device.log);
        return;
      }
      st := StatusSuccess;
    }

    // ---------- calls ----------

    /** IcaStackConnectionWait and IcaStackQueryLocalAddress: the stack is left as it was found if
        it was loaded; one that this call loaded is unloaded again unless the call succeeds. */
    method WaitOrQuery(cfg: Config, code: Ioctl) returns (st: Status, ghost raw: Status)
      requires Valid()
      requires code.WaitForConnection? || code.QueryLocalAddress?
      modifies this, device
      ensures Valid() && closing == old(closing) && device.replies == old(device.replies)
      ensures old(device.log) <= device.log
      ensures st.Ok() <==> !closing && !Refused(old(device.log), device.log)
      ensures st == if raw.Ok() then StatusSuccess else raw
      ensures !st.Ok() ==> Explained(st, closing, old(device.log), device.log)
      ensures old(loaded) ==> loaded && device.modules == old(device.modules)
                              && device.log == old(device.log) + [Served(code, raw, None)]
      ensures !old(loaded) && st.Ok() ==> loaded && LoadedOn(cfg, [], device.modules)
      ensures !old(loaded) && st.Ok() ==> EndpointThen(cfg, code, raw, old(device.log), device.log)
      ensures !old(loaded) && !st.Ok() ==> Unloaded()
    {
      ghost var log0 := device.log;
      Lock();
      var wasLoaded := loaded;
      if !wasLoaded {
        ghost var create: Status;
        st, create := LoadAndOpen(cfg, CreateEndpoint);
        raw := st;
        if !st.Ok() {
          Unlock();
          return;
        }
      }
      ghost var mid := device.log;
      st := Request(code, log0);
      raw := st;
      if st.Ok() {
        if !wasLoaded {
          AskedAfterEndpoint(cfg, code, raw, log0, mid);
        }
        st := StatusSuccess;
      } else if !wasLoaded {
        ghost var asked := device.log;
        ghost var failed, cancelled := Unload(log0);
        ExplainedStays(st, closing, log0, asked, device.log);
      }
      Unlock();
    }

    /** IcaStackConnectionRequest: always loads, also on top of what is loaded. */
    method ConnectionRequest(cfg: Config) returns (st: Status, ghost raw: Status)
      requires Valid()
      modifies this, device
      ensures Valid() && closing == old(closing) && device.replies == old(device.replies)
      ensures old(device.log) <= device.log
      ensures st.Ok() <==> !closing && !Refused(old(device.log), device.log)
      ensures st == if raw.Ok() then StatusSuccess else raw
      ensures !st.Ok() ==> Explained(st, closing, old(device.log), device.log)
      ensures st.Ok() ==> loaded && LoadedOn(cfg, old(device.modules), device.modules)
                          && LoadLoggedThen(cfg, RequestConnection, old(device.log), device.log)
                          && Last(device.log).status == raw
      ensures !st.Ok() ==> if CdRefused(cfg, old(device.log), device.log)
                           then loaded == old(loaded) && device.modules == old(device.modules) else Unloaded()
    {
      ghost var log0 := device.log;
      Lock();
      st := PushStack(cfg);
      raw := st;
      if !st.Ok() {
        Unlock();
        return;
      }
      ghost var loading := device.log;
      st := Request(RequestConnection, log0);
      raw := st;
      if st.Ok() {
        st := StatusSuccess;
      } else {
        ghost var asked := device.log;
        ghost var failed, cancelled := Unload(log0);
        ExplainedStays(st, closing, log0, asked, device.log);
        assert !CdRefused(cfg, log0, device.log) by {
          LoadIsNoRefusal(cfg, log0, loading, device.log);
        }
      }
      Unlock();
    }

    /** IcaStackCreateShadowEndpoint */
    method CreateShadowEndpoint(cfg: Config) returns (st: Status, ghost raw: Status)
      requires Valid()
      modifies this, device
      ensures Valid() && closing == old(closing) && device.replies == old(device.replies)
      ensures old(loaded) ==> st == AddressAlreadyAssociated && Snap() == old(Snap())
                              && device.modules == old(device.modules) && device.log == old(device.log)
      ensures !old(loaded) ==> old(device.log) <= device.log
                               && (st.Ok() <==> !closing && !Refused(old(device.log), device.log))
      ensures !old(loaded) && st.Ok() ==> st == StatusSuccess && loaded && LoadedOn(cfg, [], device.modules)
                                          && LoadLoggedThen(cfg, CreateEndpoint, old(device.log), device.log)
                                          && Last(device.log).status == raw
      ensures !old(loaded) && !st.Ok() ==> Unloaded() && Explained(st, closing, old(device.log), device.log)
    {
      Lock();
      if loaded {
        st := AddressAlreadyAssociated;
        raw := st;
      } else {
        st, raw := LoadAndOpen(cfg, CreateEndpoint);
      }
      Unlock();
    }

    /** The log of a ConnectionClose that loaded the stack itself: the endpoint was opened, closed with
        status `closed`, and everything unloaded. */
    static ghost predicate ClosedAlone(cfg: Config, before: seq<Entry>, closed: Status, unload: (Status, Status),
        after: seq<Entry>)
    {
      exists mid: seq<Entry> :: LoadLoggedThen(cfg, OpenEndpoint, before, mid)
                             && after == UnloadLog(mid + [Served(CloseEndpoint, closed, None)], LoadList(cfg),
                                                   unload.0, unload.1)
    }

    /** IcaStackConnectionClose: returns with the load state it entered with, whatever happened. A
        stack that was not loaded has the given endpoint opened for the purpose. */
    method ConnectionClose(cfg: Config) returns (st: Status, ghost asked: bool, ghost unload: (Status, Status))
      requires Valid()
      modifies this, device
      ensures Valid() && closing == old(closing) && device.replies == old(device.replies)
      ensures loaded == old(loaded) && device.modules == old(device.modules)
      ensures old(device.log) <= device.log
      ensures st.Ok() <==> !closing && !Refused(old(device.log), device.log)
      ensures !st.Ok() ==> Explained(st, closing, old(device.log), device.log)
      ensures old(loaded) ==> device.log == old(device.log) + [Served(CloseEndpoint, st, None)]
      ensures st.Ok() ==> asked
      ensures !old(loaded) && asked ==> ClosedAlone(cfg, old(device.log), st, unload, device.log)
    {
      ghost var log0 := device.log;
      unload := (StatusSuccess, StatusSuccess);
      Lock();
      var pop := false;
      if !loaded {
        ghost var open: Status;
        st, open := LoadAndOpen(cfg, OpenEndpoint);
        if !st.Ok() {
          asked := false;
          Unlock();
          return;
        }
        pop := true;
      }
      asked := true;
      ghost var mid := device.log;
      st := Request(CloseEndpoint, log0);
      if pop {
        ghost var closed := device.log;
        ghost var failed, cancelled := Unload(log0);
        unload := (failed, cancelled);
        assert LoadLoggedThen(cfg, OpenEndpoint, log0, mid);
        if !st.Ok() {
          ExplainedStays(st, closing, log0, closed, device.log);
        }
      }
      Unlock();
    }

    /** IcaPushConsoleStack: a failed console connection leaves the stack loaded. */
    method PushConsoleStack(cfg: Config) returns (st: Status, ghost pushed: bool)
      requires Valid()
      modifies this, device
      ensures Valid() && closing == old(closing) && device.replies == old(device.replies)
      ensures old(device.log) <= device.log
      ensures st.Ok() <==> !closing && !Refused(old(device.log), device.log)
      ensures !st.Ok() ==> Explained(st, closing, old(device.log), device.log)
      ensures pushed ==> loaded && LoadedOn(cfg, old(device.modules), device.modules)
      ensures pushed ==> |old(device.log)| < |device.log| && Last(device.log) == Served(ConsoleConnect, st, None)
                         && LoadLogged(cfg, old(device.log), device.log[..|device.log| - 1])
      ensures !pushed ==> !st.Ok() && if CdRefused(cfg, old(device.log), device.log)
                                      then loaded == old(loaded) && device.modules == old(device.modules)
                                      else Unloaded()
    {
      ghost var log0 := device.log;
      Lock();
      st := PushStack(cfg);
      pushed := st.Ok();
      if st.Ok() {
        st := Request(ConsoleConnect, log0);
      }
      Unlock();
    }

    /** Between calls of this thread; another thread may be inside _IcaPopStack, holding a reference. */
    predicate Enterable()
      reads this, device
    {
      && !locked && open && hClose.None? && refCount == others
      && (if unloading then others > 0 else hUnload.None? && Settled())
    }

    /** IcaStackTerminate */
    method Terminate() returns (ghost failed: Status, ghost cancelled: Status)
      requires Enterable()
      modifies this, device
      ensures Enterable() && closing && device.replies == old(device.replies)
      ensures old(unloading) ==> Snap() == old(Snap()).(closing := true)
                                 && device.modules == old(device.modules) && device.log == old(device.log)
      ensures !old(unloading) ==> Valid() && Unloaded() && failed != StatusSuccess
      ensures !old(unloading) ==> device.log == UnloadLog(old(device.log), old(device.modules), failed, cancelled)
    {
      Lock();
      closing := true;
      failed, cancelled := PopStack();
      Unlock();
    }

    /** WaitForSingleObject(hCloseEvent). Whoever was unloading is done once nobody holds a reference. */
    method SleepForClose()
      requires !locked && closing && hClose == Some(false) && refCount == others && others > 0
      modifies this, device
      ensures !locked && closing && open == old(open) && hClose == Some(true) && refCount == others
      ensures others + coming == old(coming) && (others == 0 ==> !unloading)
    {
      var taken: nat :| taken <= coming;
      hClose := Some(true);
      others, coming, refCount := taken, coming - taken, taken;
      if taken == 0 {
        unloading, loaded, cd, cdDll, hUnload := false, false, false, false, None;
      }
      device.modules := *;
    }

    /** IcaStackClose, up to the release of the context: leaves its wait with no reference held, after
        at most one round more than references were taken meanwhile. */
    method Close() returns (ghost rounds: nat, ghost failed: Status, ghost cancelled: Status)
      requires Enterable()
      modifies this, device
      ensures !locked && !open && closing && !unloading && refCount == 0 && others == 0 && hClose.None?
      ensures coming <= old(coming) && rounds <= 1 + (old(coming) - coming)
      ensures !old(unloading) ==> Unloaded() && rounds == 0
      ensures !old(unloading) ==> device.log == UnloadLog(old(device.log), old(device.modules), failed, cancelled)
    {
      Lock();
      closing := true;
      failed, cancelled := PopStack();
      rounds := 0;
      while refCount > 0
        invariant locked && open && closing && hClose.None? && refCount == others && coming <= old(coming)
        invariant !old(unloading) ==> Unloaded() && refCount == 0 && rounds == 0
        invariant !old(unloading) ==>
                    device.log == UnloadLog(old(device.log), old(device.modules), failed, cancelled)
        invariant unloading ==> refCount > 0
        invariant rounds <= old(coming) - coming + (if refCount > 0 then 0 else 1)
        decreases coming, refCount
      {
        rounds := rounds + 1;
        hClose := Some(false);
        Unlock();
        SleepForClose();
        Lock();
        hClose := None;
      }
      open := false;
      Unlock();
    }

    // ---------- accepting a connection ----------

    /** IOCTL_ICA_STACK_CONNECTION_QUERY, and the check of the answer's size: it succeeds iff the
        device granted the query and the answer was whole. */
    method QueryClient() returns (st: Status, config: StackConfig)
      requires Quiet() && !closing
      modifies this, device
      ensures Snap() == old(Snap()) && device.modules == old(device.modules)
      ensures st.Ok() ==> old(device.replies) != [] && old(device.replies)[0] == Reply(true, config)
                          && device.replies == old(device.replies)[1..]
      ensures st.Ok() ==> device.log == old(device.log) + [Served(ConnectionQuery, st, None)]
      ensures !st.Ok() ==> exists raw :: device.log == old(device.log) + [Served(ConnectionQuery, raw, None)]
                                         && st == if raw.Ok() then InvalidBufferSize else raw
      ensures |device.replies| <= |old(device.replies)| <= |device.replies| + 1
      ensures st.Ok() <==> !Blocked(old(device.log), device.log) && AllWhole(old(device.replies), device.replies)
    {
      ghost var raw: Status;
      var reply: Reply;
      st, reply, raw := IoControl(ConnectionQuery);
      config := reply.config;
      BlockedGrows(old(device.log), old(device.log), Served(ConnectionQuery, raw, None));
      if st.Ok() && !reply.full {
        st := InvalidBufferSize;
      }
    }

    /** The loop over the optional PDs: one that the host does not have is passed over; any other
        refusal ends it, and nothing else does. */
    method PushOptional(config: StackConfig) returns (st: Status, ghost answers: seq<Status>)
      requires Quiet() && !closing
      modifies this, device
      ensures Snap() == old(Snap()) && device.replies == old(device.replies)
      ensures |answers| <= |Used(config.sd)|
      ensures forall k :: 0 <= k < |answers| ==> answers[k].Ok() || answers[k].ObjectNameNotFound?
      ensures st.Ok() <==> |answers| == |Used(config.sd)|
      ensures st.Ok() ==> device.modules == old(device.modules) + FoundPds(Used(config.sd), answers)
                          && device.log == old(device.log) + PushLog(Used(config.sd), answers)
      ensures !st.Ok() ==> !st.ObjectNameNotFound?
                           && device.log == old(device.log) + PushLog(config.sd[..|answers|], answers)
                                            + [Served(Push(Pd(config.sd[|answers|].dll)), st, None)]
      ensures st.Ok() <==> !Blocked(old(device.log), device.log)
    {
      answers := [];
      var i := 0;
      while i < SD_CLASS_MAXIMUM && config.sd[i].sdClass != SD_NONE
        invariant 0 <= i <= SD_CLASS_MAXIMUM && |answers| == i
        invariant Snap() == old(Snap()) && device.replies == old(device.replies)
        invariant forall j :: 0 <= j < i ==> config.sd[j].sdClass != SD_NONE
        invariant forall k :: 0 <= k < i ==> answers[k].Ok() || answers[k].ObjectNameNotFound?
        invariant device.modules == old(device.modules) + FoundPds(config.sd[..i], answers)
        invariant device.log == old(device.log) + PushLog(config.sd[..i], answers)
        invariant !Blocked(old(device.log), device.log)
      {
        ghost var raw: Status;
        ghost var log0 := device.log;
        st, raw := PushModule(Pd(config.sd[i].dll), old(device.log));
        BlockedGrows(old(device.log), log0, Served(Push(Pd(config.sd[i].dll)), raw, None));
        if !st.Ok() && !st.ObjectNameNotFound? {
          UsedGoesOn(config.sd, i);
          return;
        }
        OneMoreTried(old(device.modules), old(device.log), config.sd, i, answers, st);
        answers := answers + [st];
        i := i + 1;
      }
      UsedIs(config.sd, i);
      st := StatusSuccess;
    }

    /** The part of a round that rebuilds the top of the stack: the WD comes off, the optional PDs
        and the WD named in the configuration go on. */
    method Rebuild(config: StackConfig, wd: DllName)
        returns (st: Status, ghost popped: Status, ghost answers: seq<Status>)
      requires Quiet() && !closing
      modifies this, device
      ensures Snap() == old(Snap()) && device.replies == old(device.replies)
      ensures st.Ok() ==> |answers| == |Used(config.sd)|
                          && (forall k :: 0 <= k < |answers| ==> answers[k].Ok() || answers[k].ObjectNameNotFound?)
      ensures st.Ok() ==> device.modules == DropTop(old(device.modules)) + FoundPds(Used(config.sd), answers) + [Wd(wd)]
      ensures st.Ok() ==> device.log == old(device.log) + [Served(Pop, popped, Gone(Pop, old(device.modules)))]
                                          + PushLog(Used(config.sd), answers) + [Served(Push(Wd(wd)), st, None)]
      ensures old(device.log) <= device.log
      ensures st.Ok() <==> !Blocked(old(device.log), device.log)
    {
      answers := [];
      ghost var log0, gone := device.log, Gone(Pop, device.modules);
      st := PopSd();
      popped := st;
      ghost var log1 := device.log;
      BlockedGrows(log0, log0, Served(Pop, popped, gone));
      if !st.Ok() {
        return;
      }
      st, answers := PushOptional(config);
      ghost var log2 := device.log;
      BlockedSplits(log0, log1, log2);
      if !st.Ok() {
        return;
      }
      ghost var raw: Status;
      st, raw := PushModule(Wd(wd), log0);
      BlockedGrows(log0, log2, Served(Push(Wd(wd)), raw, None));
    }

    /** One round of the query loop: `again` iff the client named another WD than the configuration. */
    method AcceptRound(ws: WinStation) returns (st: Status, again: bool, ghost round: Round)
      requires Quiet() && !closing
      modifies this, device, ws
      ensures Snap() == old(Snap()) && ws.config == old(ws.config).(wd := ws.config.wd)
      ensures old(device.log) <= device.log && |device.replies| <= |old(device.replies)|
      ensures st.Ok() <==> !Blocked(old(device.log), device.log) && AllWhole(old(device.replies), device.replies)
      ensures st.Ok() ==> round.Wf() && old(device.replies) != [] && old(device.replies)[0] == Reply(true, round.config)
                          && device.replies == old(device.replies)[1..]
      ensures st.Ok() ==> again == !SameName(round.config.wd, old(ws.config.wd))
      ensures st.Ok() ==>
                Built(device.modules, ws.config.wd) == AfterRound(Built(old(device.modules), old(ws.config.wd)), round)
      ensures st.Ok() ==> device.log == old(device.log) + RoundLog(Built(old(device.modules), old(ws.config.wd)), round)
    {
      again := false;
      var config: StackConfig;
      ghost var log0 := device.log;
      st, config := QueryClient();
      ghost var query, log1 := st, device.log;
      round := Round(config, query, query, [], query);
      if !st.Ok() {
        return;
      }
      if !SameName(config.wd, ws.config.wd) {
        ws.config := ws.config.(wd := config.wd);
        again := true;
      }
      if !again && config.sd[0].sdClass == SD_NONE {
        return;
      }
      ghost var popped: Status, answers: seq<Status>;
      st, popped, answers := Rebuild(config, ws.config.wd);
      round := Round(config, query, popped, answers, st);
      BlockedSplits(log0, log1, device.log);
      if st.Ok() {
        RebuildLogged(old(device.log), Built(old(device.modules), old(ws.config.wd)), round);
      }
    }

    /** The query loop. It goes on as long as the client names another WD, and every round uses up
        one of the client's answers. */
    method Negotiate(ws: WinStation) returns (st: Status, ghost rounds: seq<Round>)
      requires Quiet() && !closing
      modifies this, device, ws
      ensures Snap() == old(Snap()) && ws.config == old(ws.config).(wd := ws.config.wd)
      ensures old(device.log) <= device.log && |device.replies| <= |old(device.replies)|
      ensures st.Ok() <==> !Blocked(old(device.log), device.log) && AllWhole(old(device.replies), device.replies)
      ensures st.Ok() ==> Consumed(old(device.replies), rounds, device.replies)
      ensures st.Ok() ==> Negotiated(old(ws.config.wd), rounds)
      ensures st.Ok() ==>
                var first := Built(old(device.modules), old(ws.config.wd));
                Built(device.modules, ws.config.wd) == AfterRounds(first, rounds)
      ensures st.Ok() ==>
                var first := Built(old(device.modules), old(ws.config.wd));
                device.log == old(device.log) + RoundsLog(first, rounds)
    {
      ghost var first := Built(device.modules, ws.config.wd);
      rounds := [];
      st := StatusSuccess;
      var again := true;
      while again
        invariant Snap() == old(Snap()) && ws.config == old(ws.config).(wd := ws.config.wd)
        invariant Consumed(old(device.replies), rounds, device.replies)
        invariant again ==> AllMove(first.wd, rounds)
        invariant !again ==> Negotiated(first.wd, rounds) && st.Ok()
        invariant AllWf(rounds) && Built(device.modules, ws.config.wd) == AfterRounds(first, rounds)
        invariant device.log == old(device.log) + RoundsLog(first, rounds)
        invariant !Blocked(old(device.log), device.log)
        decreases |device.replies|, again
      {
        ghost var round: Round;
        ghost var before, queue, log0 := rounds, device.replies, device.log;
        st, again, round := AcceptRound(ws);
        BlockedSplits(old(device.log), log0, device.log);
        WholeFurther(old(device.replies), before, queue, device.replies);
        if !st.Ok() {
          return;
        }
        rounds := rounds + [round];
        OneRoundFurther(first, before, round);
        NextRound(first, before, round);
        ConsumeOne(old(device.replies), before, queue, round, device.replies);
        Assoc(old(device.log), RoundsLog(first, before), RoundLog(AfterRounds(first, before), round));
      }
    }

    /** A reconnected session gets its state back; a new client is waited for, whatever becomes of
        the configuration sent first. */
    method Greet(reconnect: bool) returns (st: Status, ghost sent: Status)
      requires Quiet() && !closing
      modifies this, device
      ensures Snap() == old(Snap()) && device.modules == old(device.modules) && device.replies == old(device.replies)
      ensures reconnect ==> device.log == old(device.log) + [Served(SetState, st, None)]
      ensures !reconnect ==>
                device.log == old(device.log) + [Served(SetConfig, sent, None), Served(WaitForIca, st, None)]
      ensures st.Ok() <==> !Blocked(old(device.log), device.log)
    {
      sent := StatusSuccess;
      ghost var log0 := device.log;
      if reconnect {
        st := Request(SetState, log0);
        BlockedGrows(log0, log0, Served(SetState, st, None));
      } else {
        st := Request(SetConfig, log0);
        sent := st;
        ghost var log1 := device.log;
        BlockedGrows(log0, log0, Served(SetConfig, sent, None));
        st := Request(WaitForIca, log0);
        BlockedGrows(log0, log1, Served(WaitForIca, st, None));
      }
    }

    /** What Accept does after the query loop. */
    method Conclude(reconnect: bool) returns (st: Status, ghost state: Status)
      requires Quiet() && !closing
      modifies this, device
      ensures Snap() == old(Snap()) && device.modules == old(device.modules) && device.replies == old(device.replies)
      ensures reconnect && !state.Ok() ==>
                st == state && device.log == old(device.log) + [Served(SetState, state, None)]
      ensures reconnect && state.Ok() ==>
                device.log == old(device.log) + [Served(SetState, state, None), Served(ConnectionSend, st, None)]
      ensures !reconnect ==> device.log == old(device.log) + [Served(ConnectionSend, st, None)]
      ensures st.Ok() <==> !Blocked(old(device.log), device.log)
    {
      state := StatusSuccess;
      ghost var log0 := device.log;
      if reconnect {
        st := Request(SetState, log0);
        state := st;
        BlockedGrows(log0, log0, Served(SetState, state, None));
        if !st.Ok() {
          return;
        }
      }
      ghost var log1 := device.log;
      st := Request(ConnectionSend, log0);
      BlockedGrows(log0, log1, Served(ConnectionSend, st, None));
    }

    /** What Accept starts from. */
    ghost function Start(ws: WinStation): Before
      reads this, device, ws
    {
      Before(loaded, device.modules, device.replies, device.log, ws.config)
    }

    /** What a successful Accept has brought about since `was`. */
    ghost predicate Accepted(was: Before, ws: WinStation, reconnect: bool, rounds: seq<Round>, talk: Talk)
      reads this, device, ws
    {
      && loaded
      && Consumed(was.replies, rounds, device.replies)
      && Agreed(was, rounds, Built(device.modules, ws.config.wd))
      && talk.concluded.Ok()
      && device.log == TalkLog(was.Ground(), reconnect, rounds, talk)
    }

    /** `loading` is the log when Accept starts to talk to the client: of a stack that was loaded, as
        it was; else that of a load which opened the client's endpoint, unless the load failed. */
    static ghost predicate Loading(was: Before, closing: bool, loading: seq<Entry>) {
      && was.log <= loading
      && if was.loaded then loading == was.log
         else if closing || Refused(was.log, loading) then true
         else LoadLoggedThen(was.config, OpenEndpoint, was.log, loading)
    }

    /** Exactly when Accept succeeds: the load did, nothing blocked the talk, and every answer of the
        client was whole. `reached` is the log when it is decided. */
    static ghost predicate Succeeds(was: Before, closing: bool, loading: seq<Entry>, reached: seq<Entry>,
        replies: seq<Reply>)
    {
      && !closing
      && !Refused(was.log, loading)
      && !Blocked(loading, reached)
      && AllWhole(was.replies, replies)
    }

    /** Accept's talk with the client, on a loaded stack. */
    method TalkToClient(ws: WinStation, reconnect: bool)
        returns (st: Status, ghost rounds: seq<Round>, ghost talk: Talk)
      requires Quiet() && !closing
      modifies this, device, ws
      ensures Snap() == old(Snap()) && ws.config == old(ws.config).(wd := ws.config.wd)
      ensures talk.loading == old(device.log) <= device.log && |device.replies| <= |old(device.replies)|
      ensures st.Ok() <==> !Blocked(old(device.log), device.log) && AllWhole(old(device.replies), device.replies)
      ensures st.Ok() ==>
                var first := Built(old(device.modules), old(ws.config.wd));
                && Consumed(old(device.replies), rounds, device.replies)
                && Negotiated(old(ws.config.wd), rounds)
                && Built(device.modules, ws.config.wd) == AfterRounds(first, rounds)
                && talk.concluded == st && device.log == TalkLog(first, reconnect, rounds, talk)
    {
      rounds := [];
      ghost var sent, greeted, state: Status;
      ghost var loading := device.log;
      talk := Talk(loading, StatusSuccess, StatusSuccess, StatusSuccess, StatusSuccess);
      st, sent := Greet(reconnect);
      greeted := st;
      ghost var met := device.log;
      if !st.Ok() {
        return;
      }
      st, rounds := Negotiate(ws);
      ghost var agreed := device.log;
      BlockedSplits(loading, met, agreed);
      if !st.Ok() {
        return;
      }
      st, state := Conclude(reconnect);
      BlockedSplits(loading, agreed, device.log);
      talk := Talk(loading, sent, greeted, state, st);
    }

    /** Accept from its LOCK to its exit. */
    method AcceptLocked(ws: WinStation, reconnect: bool)
        returns (st: Status, ghost rounds: seq<Round>, ghost talk: Talk)
      requires Quiet() && Settled()
      modifies this, device, ws
      ensures Quiet() && Settled() && closing == old(closing) && ws.config == old(ws.config).(wd := ws.config.wd)
      ensures Loading(old(Start(ws)), closing, talk.loading) && talk.loading <= device.log
      ensures closing || Refused(old(device.log), talk.loading) ==> talk.loading == device.log
      ensures st.Ok() <==> Succeeds(old(Start(ws)), closing, talk.loading, device.log, device.replies)
      ensures st.Ok() ==> st == StatusSuccess && Accepted(old(Start(ws)), ws, reconnect, rounds, talk)
    {
      rounds := [];
      ghost var was := Start(ws);
      if !loaded {
        ghost var open: Status;
        st, open := LoadAndOpen(ws.config, OpenEndpoint);
        if !st.Ok() {
          talk := Talk(device.log, StatusSuccess, StatusSuccess, StatusSuccess, StatusSuccess);
          return;
        }
      }
      st, rounds, talk := TalkToClient(ws, reconnect);
      if st.Ok() {
        NegotiationAgrees(was, rounds);
        st := StatusSuccess;
      }
    }

    /** IcaStackConnectionAccept: on success the lock stays owned and the stack is the one the client
        and the host agreed on; on failure nothing stays loaded. `reached` is the log when it is
        decided which. */
    method Accept(ws: WinStation, endpoint: bool, reconnect: bool)
        returns (st: Status, ghost rounds: seq<Round>, ghost talk: Talk, ghost reached: seq<Entry>,
                 ghost left: (seq<Module>, Status, Status))
      requires Valid()
      modifies this, device, ws
      ensures !endpoint ==> st == InvalidParameter && Snap() == old(Snap()) && ws.config == old(ws.config)
                            && device.modules == old(device.modules) && device.log == old(device.log)
      ensures closing == old(closing) && ws.config == old(ws.config).(wd := ws.config.wd)
      ensures endpoint ==> Loading(old(Start(ws)), closing, talk.loading) && talk.loading <= reached
                           && (closing || Refused(old(device.log), talk.loading) ==> talk.loading == reached)
      ensures endpoint ==> (st.Ok() <==> Succeeds(old(Start(ws)), closing, talk.loading, reached, device.replies))
      ensures endpoint ==> device.log == if st.Ok() then reached else UnloadLog(reached, left.0, left.1, left.2)
      ensures endpoint && !st.Ok() ==> Valid() && Unloaded()
      ensures st.Ok() ==> st == StatusSuccess && Quiet() && Settled()
                          && Accepted(old(Start(ws)), ws, reconnect, rounds, talk)
    {
      rounds, talk := [], Talk([], StatusSuccess, StatusSuccess, StatusSuccess, StatusSuccess);
      reached, left := device.log, ([], StatusSuccess, StatusSuccess);
      if !endpoint {
        st := InvalidParameter;
        return;
      }
      Lock();
      st, rounds, talk := AcceptLocked(ws, reconnect);
      reached := device.log;
      if !st.Ok() {
        ghost var modules := device.modules;
        ghost var failed, cancelled := PopStack();
        left := (modules, failed, cancelled);
        Unlock();
      }
    }

    /** IcaStackUnlock: ends the ownership that a successful Accept left behind. */
    method UnlockStack()
      requires Quiet() && Settled()
      modifies this`locked
      ensures Valid() && Snap() == old(Snap()).(locked := false)
    {
      Unlock();
    }
  }
}
