/** The restoration journal against the radio itself. BlueZ's signals reach the
    daemon's own connection and wait there for GLib, while the worker reads and
    writes on a connection of its own (bus.py:20-43), so a signal can be
    dispatched long after the state it tells of is gone. */
module RestoreRadio {
  import opened Options
  import opened RestoreJournal

  /** `queue` are the Powered signals sent and not yet dispatched, oldest first;
      `asked` is a Set(Powered) that BlueZ has not finished; `done` says that it
      carried out the last power-on it was sent. */
  datatype Radio = Radio(on: bool, queue: seq<bool>, asked: Option<bool>, done: bool)
  {
    function Turned(value: bool): Radio { if on == value then this else this.(on := value, queue := queue + [value]) }
  }

  /** Sent: our power-off is on its way. Dark: it switched the radio off, which
      nobody has switched on since, and nothing shows another controller. */
  datatype Duty = Free | Sent | Dark

  datatype System = System(a: Adapter, r: Radio, duty: Duty)

  datatype Happening =
    | Daemon(event: Event)
    | Dispatched(ok: bool)     // GLib takes the oldest signal
    | CarriedOut               // BlueZ carries out the request
    | Refused
    | Switched(value: bool)    // by the user or another program

  /** What a snapshot can say: BlueZ reports a transition until it is done with
      a request, a snapshot that a signal crossed is refused, and only a powered
      adapter in the state "on" is safe to cycle. */
  predicate Truthful(w: System, s: AdapterState) {
    && s.powered == w.r.on && (w.r.asked.Some? ==> s.powerState.Unsettled?)
    && s.revision == w.a.revision && s.incarnation == w.a.incarnation
    && (s.safe ==> s.powered && s.powerState.SwitchedOn?)
  }

  predicate Looks(w: System, f: Finding) { f.reading.State? ==> Truthful(w, f.reading.state) }

  predicate Possible(w: System, h: Happening) {
    match h
    case Daemon(e) =>
      && Enabled(w.a, e) && !e.PoweredChanged?
      && (e.RecheckAndSetOff? && e.current.Some? ==> Truthful(w, e.current.value))
      && (e.FirstLook? || e.LastLookAndSetOn? ==> Looks(w, e.finding))
      && (e.SetOnReply? && e.acked ==> w.r.done)
    case Dispatched(_) => w.r.queue != []
    case CarriedOut => w.r.asked.Some?
    case Refused => w.r.asked.Some?
    case Switched(_) => true
  }

  predicate PowersOff(w: System, h: Happening) { h.Daemon? && SendsOff(w.a, h.event) }

  function AfterDaemon(w: System, e: Event): System
    requires Enabled(w.a, e) && Linked(w.a)
  {
    var r := if e.Restart? then w.r.(queue := [])
             else if SendsOff(w.a, e) then w.r.(asked := Some(false))
             else if SendsOn(w.a, e) then w.r.(asked := Some(true), done := false)
             else w.r;
    System(Step(w.a, e), r, if SendsOff(w.a, e) then Sent else if Elsewhere(w.a, e) then Free else w.duty)
  }

  function AfterCarriedOut(w: System): System
    requires w.r.asked.Some?
  {
    var value := w.r.asked.value;
    var duty := if value then (if w.duty.Dark? then Free else w.duty)
                else if w.duty.Sent? then (if w.r.on then Dark else Free)
                else w.duty;
    System(w.a, w.r.Turned(value).(asked := None, done := w.r.done || value), duty)
  }

  function Next(w: System, h: Happening): System
    requires Possible(w, h) && Linked(w.a)
  {
    match h
    case Daemon(e) => AfterDaemon(w, e)
    case Dispatched(ok) => w.(a := Step(w.a, PoweredChanged(w.r.queue[0], ok)), r := w.r.(queue := w.r.queue[1..]))
    case CarriedOut => AfterCarriedOut(w)
    case Refused => System(w.a, w.r.(asked := None), if w.duty.Sent? then Free else w.duty)
    case Switched(value) =>
      w.(r := w.r.Turned(value), duty := if value && w.duty.Dark? then Free else w.duty)
  }

  /** The radio is off because of us and nothing will switch it on again. */
  predicate Stranded(w: System) { w.duty.Dark? && !w.a.RestorePending() }

  // ---- runs without an old on signal --------------------------------------

  /** Power-off is sent only with no on signal undelivered, and until BlueZ has
      carried it out nobody switches the radio off and on again. */
  predicate Clean(w: System, h: Happening) {
    && (PowersOff(w, h) ==> true !in w.r.queue)
    && (h == Switched(true) && !w.r.on ==> !w.duty.Sent?)
  }

  predicate InDuty(w: System) { w.a.RestorePending() && !w.a.pc.Journaled? && true !in w.r.queue }

  /** The worker has not seen the radio off. */
  predicate Underway(pc: Pc) { pc.Idle? || pc.AwaitOff? || pc.Begun? || pc.Inspecting? }

  predicate Sure(w: System) {
    && Safe(w.a)
    && (w.duty.Sent? ==> InDuty(w) && w.r.asked == Some(false) && Underway(w.a.pc))
    && (w.duty.Dark? ==> InDuty(w) && !w.r.on && (w.a.pc.AwaitOn? ==> !w.r.done))
  }

  lemma DaemonKeepsSure(w: System, e: Event)
    requires Sure(w) && Possible(w, Daemon(e)) && Clean(w, Daemon(e))
    ensures Sure(AfterDaemon(w, e))
  {
    StepKeepsSafe(w.a, e);
    if !w.duty.Free? && !Elsewhere(w.a, e) {
      DutyKeepsPending(w.a, e);
    }
  }

  lemma SignalKeepsSure(w: System, ok: bool)
    requires Sure(w) && w.r.queue != []
    ensures Sure(Next(w, Dispatched(ok)))
  {
    var e := PoweredChanged(w.r.queue[0], ok);
    StepKeepsSafe(w.a, e);
    if !w.duty.Free? {
      DutyKeepsPending(w.a, e);
    }
  }

  lemma StepKeepsSure(w: System, h: Happening)
    requires Sure(w) && Possible(w, h) && Clean(w, h)
    ensures Sure(Next(w, h))
  {
    match h {
      case Daemon(e) => DaemonKeepsSure(w, e);
      case Dispatched(ok) => SignalKeepsSure(w, ok);
      case CarriedOut =>
      case Refused =>
      case Switched(_) =>
    }
  }

  lemma StepIsSafe(w: System, h: Happening)
    requires Safe(w.a) && Possible(w, h)
    ensures Safe(Next(w, h).a)
  {
    match h {
      case Daemon(e) => StepKeepsSafe(w.a, e);
      case Dispatched(ok) => StepKeepsSafe(w.a, PoweredChanged(w.r.queue[0], ok));
      case CarriedOut =>
      case Refused =>
      case Switched(_) =>
    }
  }

  function Run(w: System, hs: seq<Happening>): System
    requires Safe(w.a)
    decreases |hs|
  {
    if hs == [] then w
    else if !Possible(w, hs[0]) then Run(w, hs[1..])
    else
      StepIsSafe(w, hs[0]);
      Run(Next(w, hs[0]), hs[1..])
  }

  predicate CleanRun(w: System, hs: seq<Happening>)
    requires Safe(w.a)
    decreases |hs|
  {
    hs == []
    || (if !Possible(w, hs[0]) then CleanRun(w, hs[1..])
        else
          StepIsSafe(w, hs[0]);
          Clean(w, hs[0]) && CleanRun(Next(w, hs[0]), hs[1..]))
  }

  lemma {:induction false} CleanRunKeepsSure(w: System, hs: seq<Happening>)
    requires Sure(w) && CleanRun(w, hs)
    ensures Sure(Run(w, hs))
    decreases |hs|
  {
    if hs != [] {
      if Possible(w, hs[0]) {
        StepKeepsSure(w, hs[0]);
        CleanRunKeepsSure(Next(w, hs[0]), hs[1..]);
      } else {
        CleanRunKeepsSure(w, hs[1..]);
      }
    }
  }

  /** A daemon that has just started over whatever the settings hold and
      whatever the radio does. */
  function Booted(path: string, device: string, journal: Option<Raw>, r: Radio): (w: System)
    ensures Sure(w)
  {
    RestartIsSafe(Adapter(path, device, 0, 0, None, false, false, Idle, journal), path, device);
    System(Started(path, device, journal).a, r, Free)
  }

  /** The radio is never left off: over every run in which no on signal is
      undelivered when power-off is sent and nobody switches the radio on before
      it is carried out, as long as the radio is off because of us the journal
      is on disk, and a crash at that very point would find it again. */
  lemma {:induction false} RadioIsNeverLeftOff(path: string, device: string, journal: Option<Raw>, r: Radio,
                                               hs: seq<Happening>)
    requires CleanRun(Booted(path, device, journal, r), hs)
    ensures var w := Run(Booted(path, device, journal, r), hs);
            w.duty.Dark? ==>
              && !w.r.on && w.a.RestorePending() && w.a.journal.Some?
              && w.a.Restarted(w.a.path, w.a.device).RestorePending()
  {
    CleanRunKeepsSure(Booted(path, device, journal, r), hs);
    var a := Run(Booted(path, device, journal, r), hs).a;
    if a.RestorePending() {
      JournalRoundTrip(a.txn.value, PhaseOff, a.path, a.device, a.path, a.device);
      JournalRoundTrip(a.txn.value, PhaseOn, a.path, a.device, a.path, a.device);
    }
  }

  // ---- an old on signal ---------------------------------------------------

  /** However the run goes on, as long as it is clean, the radio is not
      stranded. */
  ghost predicate Holds(w: System)
    requires Safe(w.a)
  {
    forall hs | CleanRun(w, hs) :: !Stranded(Run(w, hs))
  }

  lemma SureHolds(w: System)
    requires Sure(w)
    ensures Holds(w)
  {
    forall hs | CleanRun(w, hs)
      ensures !Stranded(Run(w, hs))
    {
      CleanRunKeepsSure(w, hs);
    }
  }

  lemma StrandedFails(w: System)
    requires Safe(w.a) && Stranded(w)
    ensures !Holds(w)
  {
    assert CleanRun(w, []) && Stranded(Run(w, []));
  }

  lemma FailsEarlier(w: System, h: Happening)
    requires Safe(w.a) && Possible(w, h) && Clean(w, h) && Safe(Next(w, h).a) && !Holds(Next(w, h))
    ensures !Holds(w)
  {
    var hs :| CleanRun(Next(w, h), hs) && Stranded(Run(Next(w, h), hs));
    var all := [h] + hs;
    assert all[0] == h && all[1..] == hs;
    assert CleanRun(w, all) && Run(w, all) == Run(Next(w, h), hs);
  }

  /** Off was seen and the radio is dark: the old signal ends the duty. */
  lemma {:induction false} OldSignalStrands(w: System)
    requires Safe(w.a) && w.duty.Dark? && w.a.RestorePending() && w.a.txn.value.sawOff && true in w.r.queue
    ensures !Holds(w)
    decreases |w.r.queue|
  {
    var h := Dispatched(true);
    StepIsSafe(w, h);
    if w.r.queue[0] {
      StrandedFails(Next(w, h));
    } else {
      assert true in w.r.queue[1..];
      OldSignalStrands(Next(w, h));
    }
    FailsEarlier(w, h);
  }

  /** Our power-off was carried out with an on signal still to be dispatched. */
  predicate Doomed(w: System) {
    && Safe(w.a) && w.duty.Dark? && !w.r.on && w.r.asked.None? && w.a.RestorePending() && true in w.r.queue
    && w.a.txn.value.expected.incarnation == w.a.incarnation
  }

  /** The look of the worker at the controller it switched off. */
  function OffSeen(w: System): Finding
    requires w.a.txn.Some?
  {
    var t := w.a.txn.value;
    Finding(Instance(t.instance),
            State(AdapterState(t.expected.owner, t.expected.address, false, false, SwitchedOff, w.a.revision,
                               w.a.incarnation, false)))
  }

  lemma FoundOffStrands(w: System)
    requires Doomed(w) && w.a.pc.FoundOff?
    ensures !Holds(w)
  {
    var h := Daemon(MarkOff(true, true));
    StepIsSafe(w, h);
    OldSignalStrands(Next(w, h));
    FailsEarlier(w, h);
  }

  lemma InspectingStrands(w: System)
    requires Doomed(w) && w.a.pc.Inspecting?
    ensures !Holds(w)
  {
    var h := Daemon(FirstLook(OffSeen(w), true));
    StepIsSafe(w, h);
    FoundOffStrands(Next(w, h));
    FailsEarlier(w, h);
  }

  lemma BegunStrands(w: System)
    requires Doomed(w) && w.a.pc.Begun?
    ensures !Holds(w)
  {
    var h := Daemon(BusIdReply(Some(w.a.txn.value.busId), true));
    StepIsSafe(w, h);
    InspectingStrands(Next(w, h));
    FailsEarlier(w, h);
  }

  lemma DoomedStrands(w: System)
    requires Doomed(w) && Underway(w.a.pc)
    ensures !Holds(w)
  {
    if w.a.pc.Inspecting? {
      InspectingStrands(w);
    } else if w.a.pc.Begun? {
      BegunStrands(w);
    } else {
      var h := Daemon(Restore(true));
      StepIsSafe(w, h);
      BegunStrands(Next(w, h));
      FailsEarlier(w, h);
    }
  }

  /** Power-off is on its way to a radio that is on. */
  lemma SentStrands(w: System)
    requires Safe(w.a) && w.duty.Sent? && w.r.on && w.r.asked == Some(false) && w.a.RestorePending()
    requires true in w.r.queue && w.a.txn.value.expected.incarnation == w.a.incarnation && Underway(w.a.pc)
    ensures !Holds(w)
  {
    StepIsSafe(w, CarriedOut);
    DoomedStrands(Next(w, CarriedOut));
    FailsEarlier(w, CarriedOut);
  }

  /** The exact condition, step by step, while no other controller was noticed:
      the radio cannot be stranded from here on exactly if power-off is sent
      with no on signal undelivered, and nobody switches the radio off and on
      again before it is carried out. */
  lemma HoldsExactlyIfClean(w: System, h: Happening)
    requires Sure(w) && Possible(w, h)
    requires w.duty.Sent? ==> w.a.txn.value.expected.incarnation == w.a.incarnation
    ensures Safe(Next(w, h).a)
    ensures Holds(Next(w, h)) <==> Clean(w, h)
  {
    StepIsSafe(w, h);
    if Clean(w, h) {
      StepKeepsSure(w, h);
      SureHolds(Next(w, h));
    } else {
      SentStrands(Next(w, h));
    }
  }

  /** The controller of the example. */
  function Example(revision: nat): AdapterState {
    AdapterState(":1.2", "A", true, true, SwitchedOn, revision, 0, true)
  }

  function ExampleRun(): seq<Happening> {
    [Switched(false), Switched(true), Daemon(BeginCycle(Txn(Example(0), "bus", "1:2", false, false), true))]
  }

  /** It happens: the radio went off and on just before the cycle, and GLib has
      not come to the signals when the worker sends power-off. */
  lemma OldSignalHappens() returns (w: System, h: Happening)
    ensures w == Run(Booted("hci0", "phone", None, Radio(true, [], None, false)), ExampleRun())
    ensures CleanRun(Booted("hci0", "phone", None, Radio(true, [], None, false)), ExampleRun())
    ensures Sure(w) && Possible(w, h) && PowersOff(w, h) && !Holds(Next(w, h))
  {
    var start := Booted("hci0", "phone", None, Radio(true, [], None, false));
    var hs := ExampleRun();
    var a, b := Next(start, hs[0]), Next(Next(start, hs[0]), hs[1]);
    assert hs[1..][0] == hs[1] && hs[1..][1..] == [hs[2]];
    w := Next(b, hs[2]);
    assert Run(b, [hs[2]]) == w;
    CleanRunKeepsSure(start, hs);
    h := Daemon(RecheckAndSetOff(Instance("1:2"), Some(Example(0)), false, true));
    HoldsExactlyIfClean(w, h);
  }
}
