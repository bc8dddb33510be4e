/**
 Values shared by the concurrent model (StackMachine) and the sequential one (IcaStack):
 status codes, I/O control codes, protocol modules, WinStation configurations and the
 contract of the ICA device's module stack.
 */
module IcaTypes {

  datatype Option<T> = None | Some(value: T)

  lemma Assoc<T>(a: seq<T>, b: seq<T>, c: seq<T>)
    ensures (a + b) + c == a + (b + c)
  {
  }

  lemma HeadFirst<T>(a: seq<T>, list: seq<T>)
    requires list != []
    ensures [list[0]] + list[1..] == list
    ensures a + [list[0]] + list[1..] == a + list
  {
  }

  // publish/inc/winsta.w and publish/inc/hydrix.w
  const DLLNAME_LENGTH := 32
  const MAX_PDCONFIG := 10
  const SD_CLASS_MAXIMUM := 20
  const SD_NONE := 0

  /** NTSTATUS values, as far as the code tells them apart. */
  datatype Status =
    | StatusSuccess
    | Informational(code: nat)   // passes NT_SUCCESS but is not STATUS_SUCCESS
    | ClosePending
    | ObjectNameNotFound
    | InvalidParameter
    | InvalidBufferSize
    | AddressAlreadyAssociated
    | PdNotFound
    | InvalidPd
    | OtherError(code: nat)
  {
    /** NT_SUCCESS */
    predicate Ok() {
      StatusSuccess? || Informational?
    }
  }

  /** A DLLNAME buffer: at most DLLNAME_LENGTH + 1 characters before the terminator. */
  type DllName = s: string | |s| <= DLLNAME_LENGTH + 1

  /** A protocol driver or the WinStation driver, as held on the device's stack (top last). */
  datatype Module = Pd(name: DllName) | Wd(name: DllName)

  /** A slot of PWINSTATIONCONFIG2.Pd, or one of the parallel SdClass/SdDLL slots of ICA_STACK_CONFIG. */
  datatype Slot = Slot(sdClass: nat, dll: DllName)

  function NoSlots(n: nat): (r: seq<Slot>)
    ensures |r| == n
  {
    seq(n, _ => Slot(SD_NONE, ""))
  }

  type PdArray = a: seq<Slot> | |a| == MAX_PDCONFIG witness NoSlots(MAX_PDCONFIG)

  type SdArray = a: seq<Slot> | |a| == SD_CLASS_MAXIMUM witness NoSlots(SD_CLASS_MAXIMUM)

  /** The part of PWINSTATIONCONFIG2 the stack code reads; Wd is also written by Accept. */
  datatype Config = Config(cdNone: bool, pd: PdArray, wd: DllName)

  /** ICA_STACK_CONFIG: the client's answer to IOCTL_ICA_STACK_CONNECTION_QUERY. */
  datatype StackConfig = StackConfig(sd: SdArray, wd: DllName)

  /** The output buffer of an ioctl: `full` says that the returned size is that of StackConfig. */
  datatype Reply = Reply(full: bool, config: StackConfig)

  datatype Ioctl =
    | Push(m: Module)
    | Pop
    | CdCancelIo
    | CreateEndpoint
    | OpenEndpoint
    | CloseEndpoint
    | WaitForConnection
    | QueryLocalAddress
    | RequestConnection
    | ConnectionQuery
    | ConnectionSend
    | SetState
    | SetConfig
    | WaitForIca
    | ConsoleConnect
    | OtherCode(n: nat)          // every code without a name here: query state, callback, disconnect, ...

  /** The slots before the first SdNone, i.e. the ones a loop over the array visits. */
  function Used(slots: seq<Slot>): (r: seq<Slot>)
    ensures |r| <= |slots| && r == slots[..|r|]
    ensures forall i :: 0 <= i < |r| ==> slots[i].sdClass != SD_NONE
    ensures |r| < |slots| ==> slots[|r|].sdClass == SD_NONE
  {
    if slots == [] || slots[0].sdClass == SD_NONE then []
    else [slots[0]] + Used(slots[1..])
  }

  function AsPds(slots: seq<Slot>): (r: seq<Module>)
    ensures |r| == |slots|
    ensures forall i :: 0 <= i < |r| ==> r[i] == Pd(slots[i].dll)
  {
    seq(|slots|, i requires 0 <= i < |slots| => Pd(slots[i].dll))
  }

  lemma OneMorePd(slots: seq<Slot>, i: nat)
    requires i < |slots|
    ensures AsPds(slots[..i + 1]) == AsPds(slots[..i]) + [Pd(slots[i].dll)]
  {
  }

  /** The protocol drivers of the template stack, bottom first. */
  function TemplatePds(cfg: Config): seq<Module> {
    AsPds(Used(cfg.pd))
  }

  /** Everything _IcaPushStack pushes: the template PDs, then the WD. */
  function LoadList(cfg: Config): (r: seq<Module>)
    ensures r != [] && r[|r| - 1] == Wd(cfg.wd)
  {
    TemplatePds(cfg) + [Wd(cfg.wd)]
  }

  function Fold(c: char): char {
    if 'A' <= c <= 'Z' then c - 'A' + 'a' else c
  }

  function FoldAll(s: string): (r: string)
    ensures |r| == |s|
  {
    seq(|s|, i requires 0 <= i < |s| => Fold(s[i]))
  }

  function Clip(s: string): (r: string)
    ensures |r| <= DLLNAME_LENGTH
  {
    if |s| <= DLLNAME_LENGTH then s else s[..DLLNAME_LENGTH]
  }

  /** _wcsnicmp(a, b, DLLNAME_LENGTH) == 0 */
  predicate SameName(a: DllName, b: DllName) {
    FoldAll(Clip(a)) == FoldAll(Clip(b))
  }

  /** The same letter but for its case, or the same character. */
  predicate SameLetter(c: char, d: char) {
    || c == d
    || ('A' <= c <= 'Z' && d as int == c as int + 32)
    || ('A' <= d <= 'Z' && c as int == d as int + 32)
  }

  /** How much of a name the comparison looks at. */
  function Compared(s: string): nat {
    if |s| < DLLNAME_LENGTH then |s| else DLLNAME_LENGTH
  }

  /** Two names agree up to the case of their letters, as far as the comparison looks. */
  predicate EqualUpToCase(a: string, b: string) {
    && Compared(a) == Compared(b)
    && forall i :: 0 <= i < Compared(a) ==> SameLetter(a[i], b[i])
  }

  lemma FoldedAlike(c: char, d: char)
    ensures Fold(c) == Fold(d) <==> SameLetter(c, d)
  {
  }

  /** What the comparison decides, without the folding it is made of. */
  lemma SameNameExactly(a: DllName, b: DllName)
    ensures SameName(a, b) <==> EqualUpToCase(a, b)
  {
    var x, y := FoldAll(Clip(a)), FoldAll(Clip(b));
    forall i | 0 <= i < |x| && i < |y|
      ensures x[i] == y[i] <==> SameLetter(a[i], b[i])
    {
      FoldedAlike(a[i], b[i]);
    }
    if SameName(a, b) {
      assert forall i :: 0 <= i < Compared(a) ==> x[i] == y[i];
    }
  }

  /** Rewriting the case of letters changes no answer, nor does any character past the first
      DLLNAME_LENGTH. */
  lemma CaseIgnored(a: DllName, a1: DllName, b: DllName)
    requires EqualUpToCase(a, a1)
    ensures SameName(a, b) <==> SameName(a1, b)
  {
    SameNameExactly(a, b);
    SameNameExactly(a1, b);
    forall i | 0 <= i < Compared(a) && i < Compared(b)
      ensures SameLetter(a[i], b[i]) <==> SameLetter(a1[i], b[i])
    {
      FoldedAlike(a[i], a1[i]);
      FoldedAlike(a[i], b[i]);
      FoldedAlike(a1[i], b[i]);
    }
  }

  /** Any other difference within them tells two names apart. */
  lemma ToldApart(a: DllName, b: DllName, i: nat)
    requires i < DLLNAME_LENGTH && i <= |a| && i <= |b| && !(i == |a| == |b|)
    requires i == |a| || i == |b| || !SameLetter(a[i], b[i])
    ensures !SameName(a, b)
  {
    SameNameExactly(a, b);
  }

  /** `now` is `before` with the configured stack on top, slot by slot: the PDs before the first
      SdNone, and the WD. */
  predicate LoadedOn(cfg: Config, before: seq<Module>, now: seq<Module>) {
    var n := |now| - |before| - 1;
    && 0 <= n <= MAX_PDCONFIG
    && now[..|before|] == before
    && (forall i :: 0 <= i < n ==> cfg.pd[i].sdClass != SD_NONE && now[|before| + i] == Pd(cfg.pd[i].dll))
    && (n == MAX_PDCONFIG || cfg.pd[n].sdClass == SD_NONE)
    && now[|before| + n] == Wd(cfg.wd)
  }

  /** LoadList holds the PD of every slot before the first SdNone, each at its own index, then the WD. */
  lemma LoadListAt(cfg: Config, n: nat)
    requires n <= MAX_PDCONFIG && (forall i :: 0 <= i < n ==> cfg.pd[i].sdClass != SD_NONE)
    requires n == MAX_PDCONFIG || cfg.pd[n].sdClass == SD_NONE
    ensures |LoadList(cfg)| == n + 1
    ensures forall i :: 0 <= i < n ==> LoadList(cfg)[i] == Pd(cfg.pd[i].dll)
    ensures LoadList(cfg)[n] == Wd(cfg.wd)
    ensures TemplatePds(cfg) == LoadList(cfg)[..n]
  {
    assert |Used(cfg.pd)| == n;
  }

  lemma LoadListLoads(cfg: Config, before: seq<Module>)
    ensures LoadedOn(cfg, before, before + LoadList(cfg))
  {
    LoadListAt(cfg, |Used(cfg.pd)|);
  }

  /** The status the device answers with: POP succeeds exactly when there is a module to remove;
      any other request may end in any status, here `chosen` by the device. */
  function DeviceStatus(code: Ioctl, modules: seq<Module>, chosen: Status): (st: Status)
    ensures code.Pop? ==> (st == StatusSuccess <==> modules != [])
    ensures !code.Pop? ==> st == chosen
  {
    if !code.Pop? then chosen
    else if modules != [] then StatusSuccess
    else if chosen.StatusSuccess? then OtherError(0)
    else chosen
  }

  /** The device's module stack after a request that ended in `st`. */
  function DeviceModules(code: Ioctl, modules: seq<Module>, st: Status): seq<Module> {
    if code.Push? && st.Ok() then modules + [code.m]
    else if code.Pop? && st.StatusSuccess? && modules != [] then modules[..|modules| - 1]
    else modules
  }
}
