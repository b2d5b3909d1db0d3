/** Runs of the whole recovery. In one the LE outage restarts while the MAP probe
    is still queued: the cycle then follows no LE reset of the outage that it
    ends. In another the power cycle goes as far as the radio being off. */
module RecoveryExample {
  import opened Options
  import opened RestoreJournal
  import opened Recovery
  import opened RecoveryHistory
  import opened RecoveryRuns
  import Air = RestoreRadio
  import W = RecoveryRadio

  const ORIGIN := Budget(Some("A"), Some("P"), true, true, Some(0))
  const RADIO := AdapterState(":1.2", "A", true, true, SwitchedOn, 0, 0, true)

  const IDLE := Adapter("hci0", "dev", 0, 0, None, false, false, Idle, None)

  function Visiting(healthy: bool): Visit {
    Visit(RADIO, Some(Observation(healthy, None, true, false)), false, Some(true), true, true)
  }

  /** The running daemon after its first check. */
  function Scene(now: int, w: Windows, probe: Option<Probe>, log: seq<Check>): Sys {
    Sys(IDLE,
        Ctl("P", 1, Some((":1.2", "A")), false, probe.Some?, w,
            Duty(true, false, false, false, false, false, false, NoJob, 0), ORIGIN),
        ORIGIN, probe, now, HOURLY_LIMIT_SECONDS, log, [], false)
  }

  const ON := Air.Radio(true, [], None, false)

  /** `s` is reached, beside a radio that is on and was left alone. */
  ghost predicate Calm(s: Sys) { W.Reached(Beside(s), ORIGIN) }

  function Beside(s: Sys): W.Whole { W.Whole(s, ON, Air.Free, false) }

  lemma {:induction false} LeadsToMore(w: W.Whole, ms: seq<W.Move>, t: W.Whole, m: W.Move)
    requires W.LeadsTo(w, ms, t) && Linked(t.s.a) && W.Allowed(t, m) && W.Clean(t, m)
    ensures W.LeadsTo(w, ms + [m], W.Next(t, m))
    decreases |ms|
  {
    if ms == [] {
      assert W.LeadsTo(W.Next(t, m), [], W.Next(t, m));
      assert [m][1..] == [];
    } else {
      LeadsToMore(W.Next(w, ms[0]), ms[1..], t, m);
      assert (ms + [m])[1..] == ms[1..] + [m];
    }
  }

  lemma MoveOn(w: W.Whole, m: W.Move)
    requires W.Reached(w, ORIGIN) && Linked(w.s.a) && W.Allowed(w, m) && W.Clean(w, m)
    ensures W.Reached(W.Next(w, m), ORIGIN)
  {
    var path, device, phone, journal, now, wall, r, ms :|
      W.LeadsTo(W.First(path, device, phone, ORIGIN, journal, now, wall, r), ms, w);
    LeadsToMore(W.First(path, device, phone, ORIGIN, journal, now, wall, r), ms, w, m);
  }

  lemma ReachMore(s: Sys, e: Happening)
    requires Calm(s) && Linked(s.a) && Possible(s, e)
    requires e.Advance? || e.Start? || e.SnapshotReady? || e.ProbeReturns?
    ensures Calm(After(s, e))
  {
    MoveOn(Beside(s), W.Main(e));
  }

  /** The daemon after it started, before its first check. */
  function Started(): Sys {
    Sys(IDLE,
        Ctl("P", 0, None, false, false, Windows(0, 0, None, None, None, None),
            Duty(true, false, false, false, false, false, false, NoJob, 0), ORIGIN),
        ORIGIN, None, 0, HOURLY_LIMIT_SECONDS, [], [], false)
  }

  lemma StartedIsCalm()
    ensures Calm(Started())
  {
    var first := W.First("hci0", "dev", "P", ORIGIN, None, 0, HOURLY_LIMIT_SECONDS, ON);
    assert W.LeadsTo(first, [], first);
    ReachMore(first.s, Start(true, false, true));
  }

  /** What the first check makes of the controller. */
  lemma FirstCheck()
    ensures Started().c.Snapshot(Visiting(false), 0, 0, HOURLY_LIMIT_SECONDS, false, false)
         == Scene(0, Windows(0, 0, Some(0), None, Some(0), None), None, []).c
  {
  }

  lemma Begin() returns (log: seq<Check>)
    ensures Calm(Scene(0, Windows(0, 0, Some(0), None, Some(0), None), None, log))
  {
    StartedIsCalm();
    var v := Visiting(false);
    ReachMore(Started(), SnapshotReady(0, v));
    FirstCheck();
    log := After(Started(), SnapshotReady(0, v)).log;
  }

  function Later(w: Windows, at: int): Windows { w.Observing(at).(healthySince := None).Unwell(true, at) }

  function WithReset(w: Windows, probing: bool, at: int): Windows {
    if !probing && w.ResetDue(at) then w.(softResetAt := Some(at)) else w
  }

  lemma Wait(now: int, w: Windows, probe: Option<Probe>, log: seq<Check>, at: int)
    requires Calm(Scene(now, w, probe, log)) && now <= at
    ensures Calm(Scene(at, w, probe, log))
  {
    ReachMore(Scene(now, w, probe, log), Advance(at, HOURLY_LIMIT_SECONDS));
  }

  function SceneLog(now: int, w: Windows, probe: Option<Probe>, log: seq<Check>, healthy: bool): seq<Check> {
    After(Scene(now, w, probe, log), SnapshotReady(1, Visiting(healthy))).log
  }

  lemma UnwellScene(w: Windows, probe: Option<Probe>, log: seq<Check>, at: int)
    ensures var u := Later(w, at);
            var submits := probe.None? && !u.ResetDue(at) && u.ProbeDue(at);
            After(Scene(at, w, probe, log), SnapshotReady(1, Visiting(false)))
            == Scene(at, WithReset(u, probe.Some?, at), if submits then Some(Probe(RADIO, at, None)) else probe,
                     SceneLog(at, w, probe, log, false))
  {
  }

  /** A check that finds the phone unwell. */
  lemma Unwell(now: int, w: Windows, probe: Option<Probe>, log: seq<Check>, at: int) returns (log': seq<Check>)
    requires Calm(Scene(now, w, probe, log)) && now <= at
    ensures var u := Later(w, at);
            var submits := probe.None? && !u.ResetDue(at) && u.ProbeDue(at);
            Calm(Scene(at, WithReset(u, probe.Some?, at),
                       if submits then Some(Probe(RADIO, at, None)) else probe, log'))
  {
    Wait(now, w, probe, log, at);
    ReachMore(Scene(at, w, probe, log), SnapshotReady(1, Visiting(false)));
    UnwellScene(w, probe, log, at);
    log' := SceneLog(at, w, probe, log, false);
  }

  /** A check that finds the phone well for a moment. */
  lemma Well(now: int, w: Windows, probe: Option<Probe>, log: seq<Check>, at: int) returns (log': seq<Check>)
    requires Calm(Scene(now, w, probe, log)) && now <= at
    ensures Calm(Scene(at, w.Observing(at).WithoutOutage(), probe, log'))
  {
    Wait(now, w, probe, log, at);
    ReachMore(Scene(at, w, probe, log), SnapshotReady(1, Visiting(true)));
    log' := SceneLog(at, w, probe, log, true);
  }

  /** The probe is submitted after five minutes of outage. */
  lemma OutageLasts() returns (log: seq<Check>)
    ensures Calm(Scene(300, Windows(300, 0, Some(0), None, Some(0), Some(180)), Some(Probe(RADIO, 300, None)), log))
  {
    log := Begin();
    log := Unwell(0, Windows(0, 0, Some(0), None, Some(0), None), None, log, 90);
    log := Unwell(90, Windows(90, 0, Some(0), None, Some(0), None), None, log, 180);
    log := Unwell(180, Windows(180, 0, Some(0), None, Some(0), Some(180)), None, log, 240);
    log := Unwell(240, Windows(240, 0, Some(0), None, Some(0), Some(180)), None, log, 300);
  }

  /** The phone is well at 310 seconds and unwell from 320 on, before the worker
      gets to the probe at 620. */
  lemma ProbeOutlivesOutage() returns (log: seq<Check>)
    ensures Calm(Scene(620, Windows(620, 0, Some(320), None, Some(320), None), Some(Probe(RADIO, 300, None)), log))
  {
    log := OutageLasts();
    var probe := Some(Probe(RADIO, 300, None));
    log := Well(300, Windows(300, 0, Some(0), None, Some(0), Some(180)), probe, log, 310);
    log := Unwell(310, Windows(310, 0, None, None, None, None), probe, log, 320);
    log := Unwell(320, Windows(320, 0, Some(320), None, Some(320), None), probe, log, 410);
    log := Unwell(410, Windows(410, 0, Some(320), None, Some(320), None), probe, log, 500);
    log := Unwell(500, Windows(500, 0, Some(320), None, Some(320), None), probe, log, 590);
    log := Unwell(590, Windows(590, 0, Some(320), None, Some(320), None), probe, log, 620);
  }

  /** The answer of the probe that decides to cycle. */
  function Decision(): Happening {
    ProbeAnswer(Some(RADIO), Some(Observation(false, None, true, false)), true, true, true)
  }

  /** The worker gets to the probe. */
  lemma Answers(now: int, w: Windows, submitted: int, log: seq<Check>)
    ensures After(Scene(now, w, Some(Probe(RADIO, submitted, None)), log), ProbeReturns)
         == Scene(now, w, Some(Probe(RADIO, submitted, Some(now))), log)
  {
  }

  /** Its answer decides to cycle. */
  predicate Deciding(s: Sys) {
    && Possible(s, Decision()) && s.a == IDLE && StartsCycle(s, Decision())
    && After(s, Decision()).a == IDLE
    && After(s, Decision()).c.duty.job == Queued(Some(RADIO)) && !After(s, Decision()).c.duty.cancelled
  }

  lemma Decides(now: int, w: Windows, submitted: int, log: seq<Check>)
    requires w.outageSince.Some? && now - w.outageSince.value >= OUTAGE_SECONDS
    ensures Deciding(Scene(now, w, Some(Probe(RADIO, submitted, Some(now))), log))
  {
  }

  /** So a cycle can start without an LE reset of its own outage. */
  lemma CycleWithoutReset() returns (s: Sys, e: Happening)
    ensures Reachable(s, ORIGIN) && StartsCycle(s, e)
    ensures s.c.w.softResetAt.None? && !ResetBehind(s.c.w, s.now)
  {
    var log := ProbeOutlivesOutage();
    var w := Windows(620, 0, Some(320), None, Some(320), None);
    ReachMore(Scene(620, w, Some(Probe(RADIO, 300, None)), log), ProbeReturns);
    Answers(620, w, 300, log);
    s := Scene(620, w, Some(Probe(RADIO, 300, Some(620))), log);
    W.ReachedIsReachable(Beside(s), ORIGIN);
    Decides(620, w, 300, log);
    e := Decision();
  }

  // ---- a power cycle ------------------------------------------------------

  const CYCLE := Txn(RADIO, "bus", "1:2", false, false)

  /** The cycle is on its way to its power-off. */
  ghost predicate Cycling(w: W.Whole, a: Adapter, job: Job) {
    W.Reached(w, ORIGIN) && w.r == ON && w.duty.Free? && w.s.a == a && w.s.c.duty.job == job && !w.s.c.duty.cancelled
  }

  lemma Submits() returns (w: W.Whole)
    ensures Cycling(w, IDLE, Queued(Some(RADIO)))
  {
    var log := OutageLasts();
    var w0 := Windows(300, 0, Some(0), None, Some(0), Some(180));
    ReachMore(Scene(300, w0, Some(Probe(RADIO, 300, None)), log), ProbeReturns);
    Answers(300, w0, 300, log);
    var s := Scene(300, w0, Some(Probe(RADIO, 300, Some(300))), log);
    Decides(300, w0, 300, log);
    var v := Beside(s);
    MoveOn(v, W.Main(Decision()));
    w := W.Next(v, W.Main(Decision()));
  }

  const JOURNALED :=
    IDLE.(txn := Some(CYCLE), attached := true, journal := Some(RawOf("hci0", "dev", CYCLE, PhaseOff)), pc := Journaled)

  lemma Journals(v: W.Whole) returns (w: W.Whole)
    requires Cycling(v, IDLE, Queued(Some(RADIO)))
    ensures Cycling(w, JOURNALED, Running)
  {
    var begin := W.Main(WorkerCycles(CYCLE, true));
    assert Plausible(CYCLE);
    MoveOn(v, begin);
    w := W.Next(v, begin);
    assert IDLE.Begin(CYCLE, true) == JOURNALED;
  }

  lemma PowersOff(v: W.Whole) returns (w: W.Whole)
    requires Cycling(v, JOURNALED, Running)
    ensures W.Reached(w, ORIGIN) && w.duty.Sent? && w.ours && w.r == ON.(asked := Some(false))
  {
    var off := W.Main(WorkerSteps(RecheckAndSetOff(Instance("1:2"), Some(RADIO), false, true)));
    MoveOn(v, off);
    w := W.Next(v, off);
  }

  /** The radio can be off because of us: the case above, then the cycle up to
      BlueZ carrying out its power-off. */
  lemma DarkHappens() returns (w: W.Whole)
    ensures W.Reached(w, ORIGIN) && w.duty.Dark? && w.ours
  {
    w := Submits();
    w := Journals(w);
    w := PowersOff(w);
    W.ReachedIsReachable(w, ORIGIN);
    MoveOn(w, W.Air(Air.CarriedOut));
    w := W.Next(w, W.Air(Air.CarriedOut));
  }
}
