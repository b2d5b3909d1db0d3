/** The adapter power cycle and its restoration journal
    (bluetooth_recovery.py:38-456). The worker's job is split at its D-Bus
    calls; GLib's signals and crashes fall between any two steps. */
module RestoreJournal {
  import opened Options

  /** BlueZ's PowerState; Unsettled is a transition or a missing value. */
  datatype PowerState = SwitchedOn | SwitchedOff | OffBlocked | Unsettled

  datatype AdapterState = AdapterState(
    owner: string, address: string, powered: bool, safe: bool, powerState: PowerState,
    revision: nat, incarnation: nat, leResetSafe: bool)

  /** `_PowerRestore` as a value. */
  datatype Txn = Txn(expected: AdapterState, busId: string, instance: string, sawOff: bool, completed: bool)

  datatype Phase = PhaseOff | PhaseOn | OtherPhase

  /** The journal as the settings hold it. */
  datatype Raw =
    | Junk
    | Record(version: int, path: string, device: string, owner: string, address: string, busId: string,
             instance: string, phase: Phase)

  /** Where the worker's job stands. */
  datatype Pc = Idle | Journaled | AwaitOff | Begun | Inspecting | FoundOff | Rechecking | AwaitOn

  datatype InstanceRead = NoDevice | StatFailed | Instance(id: string)

  datatype Reading = Gone | Failed | State(state: AdapterState)

  /** One look at the controller: its kernel device, then BlueZ's objects. */
  datatype Finding = Finding(instance: InstanceRead, reading: Reading)

  datatype Verdict = Changed | Retry | Current(state: AdapterState)

  // ---- the journal --------------------------------------------------------

  function RawOf(path: string, device: string, t: Txn, phase: Phase): Raw {
    Record(1, path, device, t.expected.owner, t.expected.address, t.busId, t.instance, phase)
  }

  predicate NameChar(c: char) { 'a' <= c <= 'z' || 'A' <= c <= 'Z' || '0' <= c <= '9' || c == '_' || c == '-' }

  /** A unique connection name (D-Bus Specification, "Valid Names"): a colon, then
      two or more non-empty elements separated by dots, 255 characters in all. */
  predicate UniqueName(s: string) {
    && 1 < |s| <= 255 && s[0] == ':' && s[1] != '.' && s[|s| - 1] != '.' && '.' in s
    && (forall i | 0 < i < |s| :: s[i] == '.' || NameChar(s[i]))
    && (forall i | 1 < i < |s| :: s[i] == '.' ==> s[i - 1] != '.')
  }

  /** `_load_restore` */
  function Load(raw: Option<Raw>, path: string, device: string): Option<Txn> {
    if raw.None? || raw.value.Junk? || raw.value.version != 1 then None
    else
      var r := raw.value;
      if r.path != path || r.device != device then None
      else if r.owner == "" || r.address == "" || r.busId == "" || r.instance == "" then None
      else if !UniqueName(r.owner) || r.phase.OtherPhase? then None
      else Some(Txn(AdapterState(r.owner, r.address, true, true, SwitchedOn, 0, 0, false), r.busId, r.instance,
                    r.phase.PhaseOn?, false))
  }

  /** What D-Bus and the kernel guarantee of the identities they hand out. */
  predicate Plausible(t: Txn) {
    && UniqueName(t.expected.owner) && t.expected.address != ""
    && t.busId != "" && t.instance != ""
  }

  /** A journal is found again exactly under its own adapter and phone; it
      then holds the same identity and knows whether power-on had begun. */
  lemma JournalRoundTrip(t: Txn, phase: Phase, path: string, device: string, path': string, device': string)
    requires phase != OtherPhase
    ensures var found := Load(Some(RawOf(path, device, t, phase)), path', device');
            && (found.Some? <==> path == path' && device == device' && Plausible(t))
            && (found.Some? ==>
                  && found.value.expected.owner == t.expected.owner
                  && found.value.expected.address == t.expected.address
                  && found.value.busId == t.busId && found.value.instance == t.instance
                  && found.value.sawOff == phase.PhaseOn? && !found.value.completed)
  {
  }

  // ---- the adapter as a value ---------------------------------------------

  /** `txn` is the transaction that `_restore` (while `attached`) or the
      worker's job refers to. */
  datatype Adapter = Adapter(
    path: string, device: string, revision: nat, incarnation: nat,
    txn: Option<Txn>, attached: bool, stale: bool, pc: Pc, journal: Option<Raw>)
  {
    predicate RestorePending() { attached && txn.Some? && !txn.value.completed }

    predicate CleanupPending() { stale || (attached && txn.Some? && txn.value.completed) }

    function Cleaned(ok: bool): Adapter {
      if !CleanupPending() || !ok then this
      else this.(attached := false, stale := false, journal := None, txn := if pc.Idle? then None else txn)
    }

    function Completed(ok: bool): Adapter {
      if txn.None? then this
      else
        var a := this.(txn := Some(txn.value.(completed := true)));
        if attached then a.Cleaned(ok) else a
    }

    function Ended(): Adapter { this.(pc := Idle, txn := if attached then txn else None) }

    /** `cycle` up to the recheck; `ok` if every step of it succeeds. */
    function Begin(t: Txn, ok: bool): Adapter {
      if RestorePending() || CleanupPending() || !ok then this
      else this.(txn := Some(t), attached := true, journal := Some(RawOf(path, device, t, PhaseOff)), pc := Journaled)
    }

    /** The recheck right before `Set(Powered, False)`. */
    predicate Unchanged(instance: InstanceRead, current: Option<AdapterState>, cancelled: bool)
      requires txn.Some?
    {
      && instance == Instance(txn.value.instance) && current == Some(txn.value.expected)
      && !cancelled && current.value.safe && revision == current.value.revision && !txn.value.completed
    }

    function Recheck(instance: InstanceRead, current: Option<AdapterState>, cancelled: bool, ok: bool): Adapter
      requires txn.Some?
    {
      if Unchanged(instance, current, cancelled) then this.(pc := AwaitOff) else Completed(ok).Ended()
    }

    /** The start of `restore`. */
    function Resume(ok: bool): Adapter {
      var a := Cleaned(ok);
      if a.RestorePending() then a.(pc := Begun) else a.Ended()
    }

    function CheckBus(id: Option<string>, ok: bool): Adapter
      requires txn.Some?
    {
      if id.None? then Ended()
      else if id.value != txn.value.busId then Completed(ok).Ended()
      else this.(pc := Inspecting)
    }

    /** `_restoration_state` */
    function Judge(f: Finding): Verdict
      requires txn.Some?
    {
      var expected := txn.value.expected;
      if f.instance.StatFailed? then Retry
      else if f.instance != Instance(txn.value.instance) || incarnation != expected.incarnation then Changed
      else match f.reading
        case Gone => Changed
        case Failed => Retry
        case State(s) =>
          if s.owner != expected.owner || s.address != expected.address || s.incarnation != expected.incarnation
             || s.powerState.OffBlocked? then Changed
          else Current(s)
    }

    function Inspect(f: Finding, ok: bool): Adapter
      requires txn.Some?
    {
      match Judge(f)
      case Changed => Completed(ok).Ended()
      case Retry => Ended()
      case Current(s) =>
        if s.powerState.Unsettled? then Ended()
        else if s.powered then Completed(ok).Ended()
        else this.(pc := FoundOff)
    }

    /** The locked step before power-on; a failed write is tolerated. */
    function Prepare(written: bool, ok: bool): Adapter
      requires txn.Some?
    {
      if txn.value.completed || incarnation != txn.value.expected.incarnation then Completed(ok).Ended()
      else
        var t := txn.value.(sawOff := true);
        this.(txn := Some(t), pc := Rechecking,
              journal := if written then Some(RawOf(path, device, t, PhaseOn)) else journal)
    }

    predicate StillOff(f: Finding)
      requires txn.Some?
    {
      Judge(f).Current? && !txn.value.completed && !Judge(f).state.powered && !Judge(f).state.powerState.Unsettled?
    }

    /** The last look before `Set(Powered, True)`. */
    function Reinspect(f: Finding, ok: bool): Adapter
      requires txn.Some?
    {
      match Judge(f)
      case Changed => Completed(ok).Ended()
      case Retry => Ended()
      case Current(s) =>
        if StillOff(f) then this.(pc := AwaitOn)
        else if txn.value.completed || (s.powered && !s.powerState.Unsettled?) then Completed(ok).Ended()
        else Ended()
    }

    function Acknowledge(acked: bool, ok: bool): Adapter {
      if acked then Completed(ok).Ended() else Ended()
    }

    /** A PropertiesChanged signal with the adapter's Powered. */
    function PoweredSignal(on: bool, ok: bool): Adapter {
      var a := this.(revision := revision + 1);
      if !attached || txn.None? then a
      else if !on then a.(txn := Some(txn.value.(sawOff := true)))
      else if txn.value.sawOff then a.Completed(ok)
      else a
    }

    /** The daemon starts again, perhaps for another adapter or phone. */
    function Restarted(path': string, device': string): Adapter {
      var t := Load(journal, path', device');
      Adapter(path', device', 0, 0, t, t.Some?, journal.Some? && t.None?, Idle, journal)
    }
  }

  // ---- runs ---------------------------------------------------------------

  datatype Event =
    | BeginCycle(txn: Txn, ok: bool)
    | RecheckAndSetOff(instance: InstanceRead, current: Option<AdapterState>, cancelled: bool, ok: bool)
    | Restore(ok: bool)
    | BusIdReply(id: Option<string>, ok: bool)
    | FirstLook(finding: Finding, ok: bool)
    | MarkOff(written: bool, ok: bool)
    | LastLookAndSetOn(finding: Finding, ok: bool)
    | SetOnReply(acked: bool, ok: bool)
    | Cleanup(ok: bool)
    | PoweredChanged(on: bool, ok: bool)
    | ControllerChanged
    | DeviceChanged
    | Restart(path: string, device: string)

  predicate Enabled(a: Adapter, e: Event) {
    match e
    case BeginCycle(t, _) => a.pc.Idle? && Plausible(t) && !t.sawOff && !t.completed
    case RecheckAndSetOff(_, _, _, _) => a.pc.Journaled?
    case Restore(_) => a.pc.Idle? || a.pc.AwaitOff?
    case BusIdReply(_, _) => a.pc.Begun?
    case FirstLook(_, _) => a.pc.Inspecting?
    case MarkOff(_, _) => a.pc.FoundOff?
    case LastLookAndSetOn(_, _) => a.pc.Rechecking?
    case SetOnReply(_, _) => a.pc.AwaitOn?
    case Cleanup(_) => true
    case PoweredChanged(_, _) => true
    case ControllerChanged => true
    case DeviceChanged => true
    case Restart(_, _) => true
  }

  function Step(a: Adapter, e: Event): Adapter
    requires Enabled(a, e) && Linked(a)
  {
    match e
    case BeginCycle(t, ok) => a.Begin(t, ok)
    case RecheckAndSetOff(instance, current, cancelled, ok) => a.Recheck(instance, current, cancelled, ok)
    case Restore(ok) => a.Resume(ok)
    case BusIdReply(id, ok) => a.CheckBus(id, ok)
    case FirstLook(f, ok) => a.Inspect(f, ok)
    case MarkOff(written, ok) => a.Prepare(written, ok)
    case LastLookAndSetOn(f, ok) => a.Reinspect(f, ok)
    case SetOnReply(acked, ok) => a.Acknowledge(acked, ok)
    case Cleanup(ok) => a.Cleaned(ok)
    case PoweredChanged(on, ok) => a.PoweredSignal(on, ok)
    case ControllerChanged => a.(revision := a.revision + 1, incarnation := a.incarnation + 1)
    case DeviceChanged => a.(revision := a.revision + 1)
    case Restart(path, device) => a.Restarted(path, device)
  }

  predicate SendsOff(a: Adapter, e: Event) {
    Enabled(a, e) && a.txn.Some? && e.RecheckAndSetOff? && a.Unchanged(e.instance, e.current, e.cancelled)
  }

  predicate SendsOn(a: Adapter, e: Event) {
    Enabled(a, e) && a.txn.Some? && e.LastLookAndSetOn? && a.StillOff(e.finding)
  }

  /** The event shows that the bus, BlueZ, the controller, the adapter or the
      phone is another one, or that rfkill blocks the radio. */
  predicate Elsewhere(a: Adapter, e: Event)
    requires Enabled(a, e)
  {
    a.txn.Some? &&
    match e
    case BusIdReply(id, _) => id.Some? && id.value != a.txn.value.busId
    case FirstLook(f, _) => a.Judge(f).Changed?
    case MarkOff(_, _) => a.incarnation != a.txn.value.expected.incarnation
    case LastLookAndSetOn(f, _) => a.Judge(f).Changed?
    case Restart(path, device) => path != a.path || device != a.device
    case _ => false
  }

  /** The event says that power is on: a look finds it on, power-on is
      acknowledged, or an on signal is dispatched after off was seen. Such a
      signal can be older than our power-off. */
  predicate SaysOn(a: Adapter, e: Event)
    requires Enabled(a, e)
  {
    a.txn.Some? &&
    match e
    case FirstLook(f, _) => SeenOn(a.Judge(f))
    case LastLookAndSetOn(f, _) => SeenOn(a.Judge(f))
    case SetOnReply(acked, _) => acked
    case PoweredChanged(on, _) => on && a.txn.value.sawOff
    case _ => false
  }

  /** As far as the daemon can tell, nothing is left to restore. */
  predicate NothingOwed(a: Adapter, e: Event)
    requires Enabled(a, e)
  {
    Elsewhere(a, e) || SaysOn(a, e)
  }

  predicate SeenOn(v: Verdict) { v.Current? && v.state.powered && !v.state.powerState.Unsettled? }

  /** `owed`: our power-off was sent, and nothing the daemon was told since
      says that there is nothing left to restore. This is history. */
  datatype World = World(a: Adapter, owed: bool)

  function Next(w: World, e: Event): World
    requires Enabled(w.a, e) && Linked(w.a)
  {
    World(Step(w.a, e), SendsOff(w.a, e) || (w.owed && !NothingOwed(w.a, e)))
  }

  predicate Linked(a: Adapter) {
    && (a.txn.Some? <==> a.attached || !a.pc.Idle?)
    && (a.stale ==> !a.attached)
  }

  predicate Written(a: Adapter, phase: Phase) {
    a.txn.Some? && a.journal == Some(RawOf(a.path, a.device, a.txn.value, phase))
  }

  predicate Safe(a: Adapter) {
    && Linked(a)
    && (a.txn.Some? ==> Plausible(a.txn.value))
    && (a.txn.Some? && !a.txn.value.completed ==> a.attached)
    && (a.RestorePending() ==> Written(a, PhaseOff) || (Written(a, PhaseOn) && a.txn.value.sawOff))
    && (a.RestorePending() && a.pc.Journaled? ==> Written(a, PhaseOff))
  }

  /** Before power-off nothing is owed; afterwards the duty is pending. */
  predicate Inv(w: World) { Safe(w.a) && (w.owed ==> w.a.RestorePending() && !w.a.pc.Journaled?) }

  lemma CompletedIsSafe(a: Adapter, ok: bool)
    requires Safe(a) && a.txn.Some?
    ensures Safe(a.Completed(ok).Ended()) && !a.Completed(ok).RestorePending()
    ensures !a.pc.Idle? || a.attached ==> Safe(a.Completed(ok))
  {
  }

  lemma RestartIsSafe(a: Adapter, path: string, device: string)
    ensures Safe(a.Restarted(path, device))
  {
  }

  lemma LooksAreSafe(a: Adapter, f: Finding, ok: bool)
    requires Safe(a) && a.txn.Some? && !a.pc.Idle? && !a.pc.Journaled?
    ensures Safe(a.Inspect(f, ok)) && Safe(a.Reinspect(f, ok))
  {
    CompletedIsSafe(a, ok);
  }

  lemma RepliesAreSafe(a: Adapter, id: Option<string>, acked: bool, ok: bool)
    requires Safe(a) && a.txn.Some? && !a.pc.Idle? && !a.pc.Journaled?
    ensures Safe(a.CheckBus(id, ok)) && Safe(a.Acknowledge(acked, ok))
  {
    CompletedIsSafe(a, ok);
  }

  lemma MarkOffIsSafe(a: Adapter, written: bool, ok: bool)
    requires Safe(a) && a.pc.FoundOff?
    ensures Safe(a.Prepare(written, ok))
  {
    CompletedIsSafe(a, ok);
  }

  lemma StepKeepsSafe(a: Adapter, e: Event)
    requires Safe(a) && Enabled(a, e)
    ensures Safe(Step(a, e))
  {
    match e {
      case BeginCycle(t, ok) =>
      case RecheckAndSetOff(instance, current, cancelled, ok) => CompletedIsSafe(a, ok);
      case Restore(ok) =>
      case BusIdReply(id, ok) => RepliesAreSafe(a, id, false, ok);
      case FirstLook(f, ok) => LooksAreSafe(a, f, ok);
      case MarkOff(written, ok) => MarkOffIsSafe(a, written, ok);
      case LastLookAndSetOn(f, ok) => LooksAreSafe(a, f, ok);
      case SetOnReply(acked, ok) => RepliesAreSafe(a, None, acked, ok);
      case Cleanup(ok) => CleanedIsSafe(a, ok);
      case PoweredChanged(on, ok) => PoweredIsSafe(a, on, ok);
      case ControllerChanged =>
      case DeviceChanged =>
      case Restart(path, device) => RestartIsSafe(a, path, device);
    }
  }

  lemma CleanedIsSafe(a: Adapter, ok: bool)
    requires Safe(a)
    ensures Safe(a.Cleaned(ok))
  {
  }

  lemma PoweredIsSafe(a: Adapter, on: bool, ok: bool)
    requires Safe(a)
    ensures Safe(a.PoweredSignal(on, ok))
  {
    var a' := a.(revision := a.revision + 1);
    assert Safe(a');
    if a'.attached {
      CompletedIsSafe(a', ok);
    }
  }

  /** The duty ends only when there is nothing left to restore. */
  lemma DutyKeepsPending(a: Adapter, e: Event)
    requires Safe(a) && Enabled(a, e)
    requires a.RestorePending() && !NothingOwed(a, e)
    requires !e.RecheckAndSetOff? || SendsOff(a, e)
    ensures Step(a, e).RestorePending()
  {
    if e.Restart? {
      JournalRoundTrip(a.txn.value, PhaseOff, a.path, a.device, e.path, e.device);
      JournalRoundTrip(a.txn.value, PhaseOn, a.path, a.device, e.path, e.device);
    }
  }

  lemma StepKeepsInv(w: World, e: Event)
    requires Inv(w) && Enabled(w.a, e)
    ensures Inv(Next(w, e))
  {
    StepKeepsSafe(w.a, e);
    if Next(w, e).owed {
      DutyKeepsPending(w.a, e);
    }
  }

  function Run(w: World, events: seq<Event>): World
    requires Inv(w)
    decreases |events|
  {
    if events == [] then w
    else if !Enabled(w.a, events[0]) then Run(w, events[1..])
    else
      StepKeepsInv(w, events[0]);
      Run(Next(w, events[0]), events[1..])
  }

  lemma {:induction false} RunKeepsInv(w: World, events: seq<Event>)
    requires Inv(w)
    ensures Inv(Run(w, events))
    decreases |events|
  {
    if events != [] {
      if Enabled(w.a, events[0]) {
        StepKeepsInv(w, events[0]);
        RunKeepsInv(Next(w, events[0]), events[1..]);
      } else {
        RunKeepsInv(w, events[1..]);
      }
    }
  }

  /** A daemon that has just started over whatever the settings hold. */
  function Started(path: string, device: string, journal: Option<Raw>): World {
    World(Adapter(path, device, 0, 0, None, false, false, Idle, journal).Restarted(path, device), false)
  }

  /** The duty is never dropped: over every run of D-Bus answers, signals, disk
      failures and crashes, from power-off until the daemon is told that
      nothing is left to restore the journal is on disk, and a crash at that
      very point would find it again. What the radio is doing meanwhile is
      the subject of RestoreRadio. */
  lemma {:induction false} DutyIsNeverDropped(path: string, device: string, journal: Option<Raw>,
                                              events: seq<Event>)
    ensures var start := Started(path, device, journal);
            && Inv(start)
            && var w := Run(start, events);
               w.owed ==>
                 && w.a.RestorePending()
                 && w.a.journal.Some?
                 && w.a.Restarted(w.a.path, w.a.device).RestorePending()
  {
    var start := Started(path, device, journal);
    RestartIsSafe(Adapter(path, device, 0, 0, None, false, false, Idle, journal), path, device);
    RunKeepsInv(start, events);
    var a := Run(start, events).a;
    if a.RestorePending() {
      JournalRoundTrip(a.txn.value, PhaseOff, a.path, a.device, a.path, a.device);
      JournalRoundTrip(a.txn.value, PhaseOn, a.path, a.device, a.path, a.device);
    }
  }

  /** Power-off is sent only with its journal written, for the very state the
      recovery decided on, with no topology signal since. */
  lemma PowerOffIsJournaled(w: World, e: Event)
    requires Inv(w) && SendsOff(w.a, e)
    ensures w.a.journal == Some(RawOf(w.a.path, w.a.device, w.a.txn.value, PhaseOff))
    ensures w.a.revision == w.a.txn.value.expected.revision && w.a.txn.value.expected.safe
    ensures !w.owed && Next(w, e).owed
  {
  }

  /** Events within one process before its next cycle. */
  predicate Later(e: Event) { !e.Restart? && !e.BeginCycle? }

  ghost predicate NeverSendsOn(w: World, events: seq<Event>)
    requires Inv(w)
    decreases |events|
  {
    events == []
    || (if !Enabled(w.a, events[0]) then NeverSendsOn(w, events[1..])
        else
          StepKeepsInv(w, events[0]);
          !SendsOn(w.a, events[0]) && NeverSendsOn(Next(w, events[0]), events[1..]))
  }

  /** Once completed, a transaction never turns power on again, however often
      cleaning up its journal fails and however late replies arrive. */
  lemma {:induction false} CompletedStaysQuiet(w: World, events: seq<Event>)
    requires Inv(w) && !w.a.RestorePending()
    requires forall i | 0 <= i < |events| :: Later(events[i])
    ensures NeverSendsOn(w, events)
    ensures !Run(w, events).a.RestorePending()
    decreases |events|
  {
    if events != [] {
      assert forall i | 0 <= i < |events[1..]| :: events[1..][i] == events[i + 1];
      if Enabled(w.a, events[0]) {
        StepKeepsInv(w, events[0]);
        CompletedStaysQuiet(Next(w, events[0]), events[1..]);
      } else {
        CompletedStaysQuiet(w, events[1..]);
      }
    }
  }

  /** The worker's job always moves on: every reply brings it closer to its end. */
  function Distance(pc: Pc): nat {
    match pc
    case Idle => 0
    case AwaitOn => 1
    case Rechecking => 2
    case FoundOff => 3
    case Inspecting => 4
    case Begun => 5
    case AwaitOff => 6
    case Journaled => 7
  }

  predicate WorkerStep(e: Event) {
    e.RecheckAndSetOff? || e.Restore? || e.BusIdReply? || e.FirstLook? || e.MarkOff? || e.LastLookAndSetOn?
    || e.SetOnReply?
  }

  lemma JobsEnd(a: Adapter, e: Event)
    requires Safe(a) && Enabled(a, e) && WorkerStep(e) && !a.pc.Idle?
    ensures Distance(Step(a, e).pc) < Distance(a.pc)
    ensures Step(a, e).pc.Idle? && Step(a, e).RestorePending() ==> !NothingOwed(a, e)
  {
  }

  // ---- the code -----------------------------------------------------------

  class PowerRestore {
    const expected: AdapterState
    const busId: string
    const instance: string
    var sawOff: bool
    var completed: bool

    constructor (expected: AdapterState, busId: string, instance: string, sawOff: bool)
      ensures Value() == Txn(expected, busId, instance, sawOff, false)
    {
      this.expected, this.busId, this.instance := expected, busId, instance;
      this.sawOff, completed := sawOff, false;
    }

    function Value(): Txn
      reads this
    {
      Txn(expected, busId, instance, sawOff, completed)
    }
  }

  /** `working` is the transaction the worker's job holds on to; GLib's thread
      only reaches `restore`. Settings writes are given as succeeding or not. */
  class BluezRecoveryAdapter {
    const path: string
    const device: string
    var revision: nat
    var incarnation: nat
    var restore: PowerRestore?
    var stale: bool
    var journal: Option<Raw>
    var working: PowerRestore?
    var pc: Pc

    ghost predicate Valid()
      reads this
    {
      && (working != null <==> !pc.Idle?)
      && (restore != null && working != null ==> restore == working)
      && (stale ==> restore == null)
    }

    function View(): Adapter
      reads this, restore, working
    {
      var txn := if restore != null then Some(restore.Value())
                 else if working != null then Some(working.Value())
                 else None;
      Adapter(path, device, revision, incarnation, txn, restore != null, stale, pc, journal)
    }

    constructor (path: string, device: string, journal: Option<Raw>)
      ensures Valid() && (restore != null ==> fresh(restore))
      ensures View() == Started(path, device, journal).a
    {
      this.path, this.device, this.journal := path, device, journal;
      revision, incarnation, restore, stale, working, pc := 0, 0, null, false, null, Idle;
      new;
      ReloadJournal();
    }

    method ReloadJournal()
      requires Valid() && pc.Idle?
      modifies this
      ensures Valid() && (restore != null ==> fresh(restore))
      ensures View() == old(View()).Restarted(path, device).(revision := old(revision), incarnation := old(incarnation))
    {
      var found := Load(journal, path, device);
      restore := null;
      if found.Some? {
        restore := new PowerRestore(found.value.expected, found.value.busId, found.value.instance, found.value.sawOff);
      }
      stale := journal.Some? && restore == null;
    }

    method CleanupJournal(ok: bool)
      requires Valid()
      modifies this
      ensures Valid() && View() == old(View()).Cleaned(ok)
      ensures pc == old(pc) && working == old(working) && restore in {null, old(restore)}
      ensures revision == old(revision) && incarnation == old(incarnation)
    {
      if !(stale || (restore != null && restore.completed)) {
        return;
      }
      if !ok {
        return;
      }
      journal := None;
      restore, stale := null, false;
    }

    method CompleteRestore(transaction: PowerRestore, ok: bool)
      requires Valid() && transaction in {restore, working}
      modifies this, transaction
      ensures Valid() && View() == old(View()).Completed(ok)
      ensures pc == old(pc) && working == old(working) && restore in {null, old(restore)}
    {
      transaction.completed := true;
      if restore == transaction {
        CleanupJournal(ok);
      }
    }

    method EndJob()
      requires Valid()
      modifies this
      ensures Valid() && View() == old(View()).Ended()
    {
      pc, working := Idle, null;
    }

    method CompleteAndEnd(ok: bool)
      requires Valid() && working != null
      modifies this, working
      ensures Valid() && View() == old(View()).Completed(ok).Ended()
    {
      CompleteRestore(working, ok);
      EndJob();
    }

    /** `cycle` up to its recheck; None is a D-Bus or sysfs error. */
    method BeginCycle(expected: AdapterState, busId: Option<string>, instance: Option<string>, written: bool)
      returns (raised: bool)
      requires Valid() && pc.Idle?
      modifies this
      ensures Valid()
      ensures raised <==> old(View()).RestorePending() || old(View()).CleanupPending()
                          || busId.None? || instance.None? || !written
      ensures raised ==> View() == old(View())
      ensures !raised ==>
        View() == old(View()).Begin(Txn(expected, busId.value, instance.value, false, false), true)
    {
      if restore != null && !restore.completed {
        return true;
      }
      if stale || restore != null {
        return true;
      }
      if busId.None? || instance.None? {
        return true;
      }
      var transaction := new PowerRestore(expected, busId.value, instance.value, false);
      if !written {
        return true;
      }
      journal := Some(RawOf(path, device, transaction.Value(), PhaseOff));
      restore, working, pc := transaction, transaction, Journaled;
      return false;
    }

    /** The recheck and, if it passes, `Set(Powered, False)`. */
    method Recheck(instance: InstanceRead, current: Option<AdapterState>, cancelled: bool, ok: bool)
      returns (sent: bool)
      requires Valid() && pc.Journaled?
      modifies this, working
      ensures Valid() && View() == old(View()).Recheck(instance, current, cancelled, ok)
      ensures sent == SendsOff(old(View()), RecheckAndSetOff(instance, current, cancelled, ok))
    {
      if instance != Instance(working.instance) || current.None? {
        CompleteAndEnd(ok);
        return false;
      }
      if cancelled || current.value != working.expected || !current.value.safe
         || revision != current.value.revision || working.completed {
        CompleteAndEnd(ok);
        return false;
      }
      pc := AwaitOff;
      return true;
    }

    /** The start of `restore`, also after `Set(Powered, False)` returns. */
    method Restore(ok: bool)
      requires Valid() && (pc.Idle? || pc.AwaitOff?)
      modifies this
      ensures Valid() && View() == old(View()).Resume(ok)
    {
      CleanupJournal(ok);
      var transaction := restore;
      if transaction == null || transaction.completed {
        EndJob();
        return;
      }
      working, pc := transaction, Begun;
    }

    method CheckBus(id: Option<string>, ok: bool)
      requires Valid() && pc.Begun?
      modifies this, working
      ensures Valid() && View() == old(View()).CheckBus(id, ok)
    {
      if id.None? {
        EndJob();
      } else if id.value != working.busId {
        CompleteAndEnd(ok);
      } else {
        pc := Inspecting;
      }
    }

    /** `_restoration_state`: None means that it raised and the job ended. */
    method RestorationState(f: Finding, ok: bool) returns (current: Option<AdapterState>)
      requires Valid() && !pc.Idle?
      modifies this, working
      ensures Valid()
      ensures current == match old(View()).Judge(f) case Current(s) => Some(s) case _ => None
      ensures View() == match old(View()).Judge(f)
                        case Current(_) => old(View())
                        case Retry => old(View()).Ended()
                        case Changed => old(View()).Completed(ok).Ended()
      ensures current.Some? ==> working == old(working) && pc == old(pc)
    {
      var expected := working.expected;
      if f.instance.StatFailed? {
        EndJob();
        return None;
      }
      if f.instance != Instance(working.instance) || incarnation != expected.incarnation {
        CompleteAndEnd(ok);
        return None;
      }
      match f.reading {
        case Gone =>
          CompleteAndEnd(ok);
          return None;
        case Failed =>
          EndJob();
          return None;
        case State(s) =>
          if s.owner != expected.owner || s.address != expected.address || s.incarnation != expected.incarnation {
            CompleteAndEnd(ok);
            return None;
          }
          if s.powerState.OffBlocked? {
            CompleteAndEnd(ok);
            return None;
          }
          return Some(s);
      }
    }

    method Inspect(f: Finding, ok: bool)
      requires Valid() && pc.Inspecting?
      modifies this, working
      ensures Valid() && View() == old(View()).Inspect(f, ok)
    {
      var current := RestorationState(f, ok);
      if current.None? {
        return;
      }
      if current.value.powerState.Unsettled? {
        EndJob();
      } else if !current.value.powered {
        pc := FoundOff;
      } else {
        CompleteAndEnd(ok);
      }
    }

    method Prepare(written: bool, ok: bool)
      requires Valid() && pc.FoundOff?
      modifies this, working
      ensures Valid() && View() == old(View()).Prepare(written, ok)
    {
      if working.completed || incarnation != working.expected.incarnation {
        CompleteAndEnd(ok);
        return;
      }
      working.sawOff := true;
      if written {
        journal := Some(RawOf(path, device, working.Value(), PhaseOn));
      }
      pc := Rechecking;
    }

    /** The last look and, if power is still off, `Set(Powered, True)`. */
    method Reinspect(f: Finding, ok: bool) returns (sent: bool)
      requires Valid() && pc.Rechecking?
      modifies this, working
      ensures Valid() && View() == old(View()).Reinspect(f, ok)
      ensures sent == SendsOn(old(View()), LastLookAndSetOn(f, ok))
    {
      var current := RestorationState(f, ok);
      if current.None? {
        return false;
      }
      var state := current.value;
      if working.completed || state.powered || state.powerState.Unsettled? {
        if working.completed || (state.powered && !state.powerState.Unsettled?) {
          CompleteAndEnd(ok);
        } else {
          EndJob();
        }
        return false;
      }
      pc := AwaitOn;
      return true;
    }

    method Acknowledge(acked: bool, ok: bool)
      requires Valid() && pc.AwaitOn?
      modifies this, working
      ensures Valid() && View() == old(View()).Acknowledge(acked, ok)
    {
      if acked {
        CompleteAndEnd(ok);
      } else {
        EndJob();
      }
    }

    /** `_properties_changed` for the adapter's Powered, on GLib's thread. */
    method PropertiesChanged(on: bool, ok: bool)
      requires Valid()
      modifies this, restore
      ensures Valid() && View() == old(View()).PoweredSignal(on, ok)
    {
      var transaction := restore;
      if transaction != null {
        if !on {
          transaction.sawOff := true;
        } else if transaction.sawOff {
          CompleteRestore(transaction, ok);
        }
      }
      revision := revision + 1;
    }

    /** `_interfaces_changed` for the adapter, and `_owner_changed`. */
    method ControllerReplaced()
      requires Valid()
      modifies this
      ensures Valid() && View() == Step(old(View()), ControllerChanged)
    {
      incarnation := incarnation + 1;
      revision := revision + 1;
    }
  }
}
