/** Whole runs of the recovery: its main loop, the worker's job, the radio's
    signals, the settings file and crashes (bluetooth_recovery.py:320-859). */
module RecoveryRuns {
  import opened Options
  import J = RestoreJournal
  import opened RestoreJournal
  import opened Recovery
  import opened RecoveryHistory

  /** The outstanding MAP probe of the current generation. */
  datatype Probe = Probe(expected: AdapterState, submittedAt: int, answeredAt: Option<int>)

  /** `disk` and `a.journal` are the settings file; `log` holds the checks since
      the last invalidation, `history` what happened since the first start;
      `halted` says that the running daemon was told to stop. */
  datatype Sys = Sys(a: Adapter, c: Ctl, disk: Budget, probe: Option<Probe>, now: int, wall: int,
                     log: seq<Check>, history: seq<Mark>, halted: bool)

  datatype Happening =
    | Advance(now: int, wall: int)
    | Tick(blocked: bool, cleaned: bool, idle: bool, pauseRaises: bool, submitted: bool, readRaises: bool)
    | SnapshotReady(from: nat, visit: Visit)
    | SnapshotFails(from: nat)
    | ProbeReturns
    | ProbeFails
    | ProbeAnswer(current: Option<AdapterState>, seen: Option<Observation>, idle: bool, written: bool, begun: bool)
    | WorkerCycles(txn: Txn, ok: bool)
    | WorkerRestores(ok: bool)
    | WorkerSteps(step: J.Event)
    | Signal(step: J.Event)
    | JobReturns
    | Invalidate(suspend: Option<bool>)
    | Forget(written: bool)
    | Stop
    | Start(idle: bool, pauseRaises: bool, submitted: bool)
    | Crash(path: string, device: string, phone: string)

  predicate Possible(s: Sys, e: Happening) {
    match e
    case Advance(now, _) => now >= s.now
    case Tick(_, _, _, _, _, _) => true
    case SnapshotReady(_, _) => true
    case SnapshotFails(_) => true
    case ProbeReturns => s.probe.Some? && s.probe.value.answeredAt.None?
    case ProbeFails => s.probe.Some? && s.probe.value.answeredAt.None?
    case ProbeAnswer(_, _, _, _, _) => s.probe.Some? && s.probe.value.answeredAt.Some?
    case WorkerCycles(t, ok) =>
      && s.c.duty.job.Queued? && s.c.duty.job.cycle == Some(t.expected) && Enabled(s.a, BeginCycle(t, ok))
    case WorkerRestores(ok) => s.c.duty.job == Queued(None) && Enabled(s.a, Restore(ok))
    case WorkerSteps(step) =>
      && s.c.duty.job.Running? && WorkerStep(step) && Enabled(s.a, step) && !s.a.pc.Idle?
      && (step.RecheckAndSetOff? ==> step.cancelled == s.c.duty.cancelled)
    case Signal(step) => step.PoweredChanged? || step.ControllerChanged? || step.DeviceChanged? || step.Cleanup?
    case JobReturns => s.c.duty.job.Ended?
    case Invalidate(_) => true
    case Forget(_) => true
    case Stop => true
    case Start(_, _, _) => true
    case Crash(_, _, _) => true
  }

  /** Whether the tick gets as far as retrying the journal's cleanup. */
  predicate TickCleans(s: Sys, blocked: bool) {
    s.c.duty.running && !s.c.duty.suspended && !blocked && !s.c.duty.active && !s.a.RestorePending()
  }

  /** What a step of the main loop does to the adapter and the controller. */
  function Stepped(s: Sys, e: Happening): (Adapter, Ctl)
    requires Possible(s, e) && Linked(s.a)
  {
    var a, c, pending, cleanup := s.a, s.c, s.a.RestorePending(), s.a.CleanupPending();
    match e
    case Advance(_, _) => (a, c)
    case Tick(blocked, cleaned, idle, pauseRaises, submitted, readRaises) =>
      (if TickCleans(s, blocked) then a.Cleaned(cleaned) else a,
       c.Ticked(blocked, pending, idle, pauseRaises, submitted, readRaises, s.now))
    case SnapshotReady(from, v) => (a, c.Snapshot(v, from, s.now, s.wall, pending, cleanup))
    case SnapshotFails(from) => (a, c.SnapshotFailed(from, s.now))
    case ProbeReturns => (a, c)
    case ProbeFails => (a, c.ProbeFailed(c.generation))
    case ProbeAnswer(current, seen, idle, written, begun) =>
      (a, c.Answered(c.generation, s.probe.value.expected, s.probe.value.answeredAt.value, current, seen,
                     s.now, s.wall, pending, cleanup, idle, written, begun))
    case WorkerCycles(t, ok) => Worked(c, Step(a, BeginCycle(t, ok)))
    case WorkerRestores(ok) => Worked(c, Step(a, Restore(ok)))
    case WorkerSteps(step) => Worked(c, Step(a, step))
    case Signal(step) => (Step(a, step), c)
    case JobReturns => (a, c.Finished(pending, s.now))
    case Invalidate(suspend) => (a, c.Invalidated(s.now, suspend))
    case Forget(written) => (a, c.Forgotten(s.now, written))
    case Stop => (a, c.Stopped(s.now))
    case Start(idle, pauseRaises, submitted) => (a, c.Started(pending, idle, pauseRaises, submitted, s.now))
    case Crash(path, device, phone) => (a.Restarted(path, device), Fresh(phone, s.disk, s.now))
  }

  function Worked(c: Ctl, a: Adapter): (Adapter, Ctl) {
    (a, c.(duty := c.duty.(job := if a.pc.Idle? then Ended else Running)))
  }

  /** The checks since the last invalidation; a check that follows one of its
      own, because the controller is another one, starts a new list. */
  function LogAfter(s: Sys, e: Happening, c': Ctl): seq<Check> {
    if e.Crash? then []
    else if e.SnapshotReady? && Checks(s, e.from) then
      CheckedLog(s.c.(snapshotPending := false), s.log, e.visit, s.now, s.wall, s.a.CleanupPending())
    else if c'.generation == s.c.generation then s.log
    else []
  }

  function CheckedLog(c: Ctl, log: seq<Check>, v: Visit, now: int, wall: int, cleanup: bool): seq<Check> {
    var arrived := c.Arrived(v.state, now);
    if v.seen.None? || c.Checked(v, now, wall, cleanup).generation != arrived.generation then []
    else (if arrived.generation == c.generation then log else [])
         + [CheckOf(arrived, v.state, v.seen.value, now, wall, cleanup)]
  }

  predicate Checks(s: Sys, from: nat) {
    from == s.c.generation && s.c.duty.running && !s.c.duty.suspended && !s.c.duty.active && !s.a.RestorePending()
  }

  function CheckOf(c: Ctl, state: AdapterState, seen: Observation, now: int, wall: int, cleanup: bool): Check {
    Check(now, state, seen, c.budget.Permits(state.address, c.phone, wall) && !cleanup, c.w.proofFloor)
  }

  function ProbeAfter(s: Sys, e: Happening, c': Ctl): Option<Probe> {
    if !c'.probing then None
    else if e.ProbeReturns? && s.probe.Some? then Some(s.probe.value.(answeredAt := Some(s.now)))
    else if e.SnapshotReady? && !s.c.probing then Some(Probe(e.visit.state, s.now, None))
    else s.probe
  }

  /** What goes down in history. */
  function MarkOf(s: Sys, e: Happening, c': Ctl, log': seq<Check>): Option<Mark>
    requires Possible(s, e)
  {
    if e.SnapshotReady? && c'.budget != s.c.budget then
      Some(if s.c.budget.Known(e.visit.state.address, s.c.phone) then Rearmed(log')
           else Claimed(e.visit.state.address, s.c.phone))
    else if e.ProbeAnswer? && c'.budget != s.c.budget && e.current.Some? then
      Some(Attempt(s.wall, e.current.value.address, s.c.phone))
    else if e.Forget? && e.written then Some(Forgotten)
    else if e.WorkerSteps? && SendsOff(s.a, e.step) then Some(PowerOff)
    else None
  }

  function After(s: Sys, e: Happening): Sys
    requires Possible(s, e) && Linked(s.a)
  {
    var next := Stepped(s, e);
    var log' := LogAfter(s, e, next.1);
    var mark := MarkOf(s, e, next.1, log');
    Sys(next.0, next.1,
        if e.Crash? || next.1.budget == s.c.budget then s.disk else next.1.budget,
        ProbeAfter(s, e, next.1),
        if e.Advance? then e.now else s.now, if e.Advance? then e.wall else s.wall,
        log', if mark.Some? then s.history + [mark.value] else s.history,
        if e.Crash? then false else s.halted || e.Stop?)
  }

  // ---- what every step keeps ----------------------------------------------

  /** Pauses, the reservation and the worker's job belong together. */
  predicate Fair(d: Duty, halted: bool) {
    && d.reserved == d.active
    && d.opPending == !d.job.NoJob?
    && (d.opPending ==> d.active)
    && (!halted ==>
          && (d.resumeOwed ==> d.running && d.suspended && !d.active)
          && (d.active ==> d.running)
          && d.paused == if d.active || d.resumeOwed then 1 else 0)
  }

  /** An invalidation of the checks leaves an idle duty alone. */
  lemma ClearedKeepsDuty(d: Duty)
    requires !d.active
    ensures d.Invalidated(None) == d
  {
  }

  lemma HealthyKeepsDuty(c: Ctl, v: Visit, proof: Option<int>, now: int)
    requires !c.duty.active
    ensures c.HealthyCheck(v, proof, now).duty == c.duty
  {
    ClearedKeepsDuty(c.duty);
  }

  lemma UnwellKeepsDuty(c: Ctl, v: Visit, seen: Observation, now: int, wall: int, cleanup: bool)
    requires !c.duty.active
    ensures c.UnwellCheck(v, seen, now, wall, cleanup).duty == c.duty
  {
    ClearedKeepsDuty(c.duty);
  }

  lemma CheckedKeepsDuty(c: Ctl, v: Visit, now: int, wall: int, cleanup: bool)
    requires !c.duty.active
    ensures c.Checked(v, now, wall, cleanup).duty == c.duty
  {
    ClearedKeepsDuty(c.duty);
    var arrived := c.Arrived(v.state, now);
    var d := arrived.(w := arrived.w.Observing(now));
    if v.seen.Some? {
      HealthyKeepsDuty(d, v, v.seen.value.proof, now);
      UnwellKeepsDuty(d, v, v.seen.value, now, wall, cleanup);
    }
  }

  lemma SnapshotKeepsDuty(c: Ctl, v: Visit, from: nat, now: int, wall: int, pending: bool, cleanup: bool)
    ensures c.Snapshot(v, from, now, wall, pending, cleanup).duty == c.duty
  {
    if !c.duty.active {
      CheckedKeepsDuty(c.(snapshotPending := false), v, now, wall, cleanup);
    }
  }

  lemma FinishedIsFair(c: Ctl, pending: bool, now: int, halted: bool)
    requires Fair(c.duty.Returned(), halted) && (c.duty.active || halted)
    ensures Fair(c.Finished(pending, now).duty, halted)
  {
  }

  lemma ContinuedIsFair(c: Ctl, pending: bool, idle: bool, pauseRaises: bool, submitted: bool, now: int, halted: bool)
    requires Fair(c.duty, halted) && c.duty.running && (halted || !c.duty.resumeOwed)
    ensures Fair(c.Continued(pending, idle, pauseRaises, submitted, now).duty, halted)
  {
  }

  lemma CyclingIsFair(c: Ctl, current: AdapterState, begun: bool, pending: bool, idle: bool, now: int, wall: int,
                      halted: bool)
    requires Fair(c.duty, halted) && c.duty.CanReserve(idle) && c.duty.running && !c.duty.suspended
    ensures Fair(c.Spent(wall).Cycling(current, begun, pending, now).duty, halted)
  {
    FinishedIsFair(c.Spent(wall), pending, now, halted);
  }

  lemma AnswerIsFair(c: Ctl, expected: AdapterState, when: int, current: Option<AdapterState>,
                     seen: Option<Observation>, now: int, wall: int, pending: bool, cleanup: bool, idle: bool,
                     written: bool, begun: bool, halted: bool)
    requires Fair(c.duty, halted)
    ensures Fair(c.Answered(c.generation, expected, when, current, seen, now, wall, pending, cleanup, idle, written,
                            begun).duty, halted)
  {
    InvalidatedIsFair(c.duty, None, halted);
    if current.Some? && c.duty.CanReserve(idle) && c.duty.running && !c.duty.suspended {
      CyclingIsFair(c.(probing := false), current.value, begun, pending, idle, now, wall, halted);
    }
  }

  lemma AnsweredIsFair(s: Sys, e: Happening)
    requires e.ProbeAnswer? && Possible(s, e) && Linked(s.a) && Fair(s.c.duty, s.halted)
    ensures Fair(Stepped(s, e).1.duty, s.halted)
  {
    AnswerIsFair(s.c, s.probe.value.expected, s.probe.value.answeredAt.value, e.current, e.seen, s.now, s.wall,
                 s.a.RestorePending(), s.a.CleanupPending(), e.idle, e.written, e.begun, s.halted);
  }

  /** The worker runs exactly the job that it was given. */
  predicate Busy(a: Adapter, d: Duty) { d.job.Running? <==> !a.pc.Idle? }

  lemma AnsweredStaysIdle(s: Sys, e: Happening)
    requires e.ProbeAnswer? && Possible(s, e) && Linked(s.a) && Busy(s.a, s.c.duty)
    ensures Busy(s.a, Stepped(s, e).1.duty)
  {
  }

  predicate Settled(s: Sys) { Fair(s.c.duty, s.halted) && Busy(s.a, s.c.duty) }

  lemma TickSettles(s: Sys, e: Happening)
    requires e.Tick? && Possible(s, e) && Linked(s.a) && Settled(s)
    ensures Fair(Stepped(s, e).1.duty, s.halted) && Busy(Stepped(s, e).0, Stepped(s, e).1.duty)
  {
    assert Stepped(s, e).0.pc == s.a.pc;
    if s.c.duty.running && !s.c.duty.suspended {
      ContinuedSettles(s, s.c, e.idle, e.pauseRaises, e.submitted);
    }
  }

  lemma ContinuedSettles(s: Sys, c: Ctl, idle: bool, pauseRaises: bool, submitted: bool)
    requires Fair(c.duty, s.halted) && Busy(s.a, c.duty) && c.duty.running && (s.halted || !c.duty.resumeOwed)
    ensures var d := c.Continued(s.a.RestorePending(), idle, pauseRaises, submitted, s.now).duty;
            Fair(d, s.halted) && Busy(s.a, d)
  {
    ContinuedIsFair(c, s.a.RestorePending(), idle, pauseRaises, submitted, s.now, s.halted);
  }

  lemma StartSettles(s: Sys, e: Happening)
    requires e.Start? && Possible(s, e) && Linked(s.a) && Settled(s)
    ensures Fair(Stepped(s, e).1.duty, s.halted) && Busy(Stepped(s, e).0, Stepped(s, e).1.duty)
  {
    if !s.c.duty.running {
      ContinuedSettles(s, s.c.(duty := s.c.duty.(running := true)), e.idle, e.pauseRaises, e.submitted);
    }
  }

  lemma JobSettles(s: Sys, e: Happening)
    requires e.WorkerCycles? || e.WorkerRestores? || e.WorkerSteps? || e.JobReturns?
    requires Possible(s, e) && Linked(s.a) && Settled(s)
    ensures Fair(Stepped(s, e).1.duty, s.halted) && Busy(Stepped(s, e).0, Stepped(s, e).1.duty)
  {
    if e.JobReturns? {
      FinishedIsFair(s.c, s.a.RestorePending(), s.now, s.halted);
    }
  }

  lemma SignalKeepsPc(a: Adapter, e: J.Event)
    requires Linked(a) && Enabled(a, e)
    requires e.PoweredChanged? || e.ControllerChanged? || e.DeviceChanged? || e.Cleanup?
    ensures Step(a, e).pc == a.pc
  {
  }

  lemma CheckSettles(s: Sys, e: Happening)
    requires e.SnapshotReady? && Possible(s, e) && Linked(s.a) && Settled(s)
    ensures Fair(Stepped(s, e).1.duty, s.halted) && Busy(Stepped(s, e).0, Stepped(s, e).1.duty)
  {
    SnapshotKeepsDuty(s.c, e.visit, e.from, s.now, s.wall, s.a.RestorePending(), s.a.CleanupPending());
  }

  lemma InvalidatedIsFair(d: Duty, suspend: Option<bool>, halted: bool)
    requires Fair(d, halted)
    ensures Fair(d.Invalidated(suspend), halted) && d.Invalidated(suspend).job == d.job
  {
  }

  lemma InvalidationSettles(s: Sys, e: Happening)
    requires e.SnapshotFails? || e.Invalidate? || e.Forget?
    requires Possible(s, e) && Linked(s.a) && Settled(s)
    ensures Fair(Stepped(s, e).1.duty, s.halted) && Busy(Stepped(s, e).0, Stepped(s, e).1.duty)
  {
    InvalidatedIsFair(s.c.duty, if e.Invalidate? then e.suspend else None, s.halted);
  }

  lemma SignalSettles(s: Sys, e: Happening)
    requires e.Signal? && Possible(s, e) && Linked(s.a) && Settled(s)
    ensures Fair(Stepped(s, e).1.duty, s.halted) && Busy(Stepped(s, e).0, Stepped(s, e).1.duty)
  {
    SignalKeepsPc(s.a, e.step);
  }

  lemma OthersSettle(s: Sys, e: Happening)
    requires e.Advance? || e.ProbeReturns? || e.ProbeFails?
    requires Possible(s, e) && Linked(s.a) && Settled(s)
    ensures Fair(Stepped(s, e).1.duty, s.halted) && Busy(Stepped(s, e).0, Stepped(s, e).1.duty)
  {
  }

  lemma StepSettles(s: Sys, e: Happening)
    requires Possible(s, e) && Linked(s.a) && Settled(s)
    ensures Settled(After(s, e))
  {
    if e.Tick? {
      TickSettles(s, e);
    } else if e.Start? {
      StartSettles(s, e);
    } else if e.ProbeAnswer? {
      AnsweredIsFair(s, e);
      AnsweredStaysIdle(s, e);
    } else if e.WorkerCycles? || e.WorkerRestores? || e.WorkerSteps? || e.JobReturns? {
      JobSettles(s, e);
    } else if e.SnapshotReady? {
      CheckSettles(s, e);
    } else if e.Signal? {
      SignalSettles(s, e);
    } else if e.SnapshotFails? || e.Invalidate? || e.Forget? {
      InvalidationSettles(s, e);
    } else if !e.Stop? && !e.Crash? {
      OthersSettle(s, e);
    }
  }

  // ---- the observation windows mean what they say -------------------------

  /** A case since `outageSince`, health since `healthySince`, and an LE reset
      inside the LE outage. */
  ghost predicate Windowed(w: Windows, log: seq<Check>, now: int, unspent: bool) {
    && w.lastObservation <= now
    && (log != [] ==> log[|log| - 1].at == w.lastObservation)
    && (w.outageSince.Some? ==>
          CaseSince(log, w.outageSince.value) && w.leOutageSince.Some? && w.healthySince.None?)
    && (w.healthySince.Some? && !unspent ==> HealthySince(log, w.healthySince.value))
    && Nested(w, now)
  }

  predicate Nested(w: Windows, now: int) {
    && (w.leOutageSince.Some? ==> w.leOutageSince.value <= now)
    && (w.softResetAt.Some? ==> w.leOutageSince.Some? && w.leOutageSince.value <= w.softResetAt.value <= now)
  }

  /** As `Windowed`, when a check at `now` is about to be added. */
  ghost predicate Awaiting(w: Windows, log: seq<Check>, now: int, unspent: bool) {
    && w.lastObservation == now
    && (w.outageSince.Some? ==>
          && CaseSince(log, w.outageSince.value) && w.leOutageSince.Some? && w.healthySince.None?
          && Soon(log, now))
    && (w.healthySince.Some? && !unspent ==> HealthySince(log, w.healthySince.value) && Soon(log, now))
    && Nested(w, now)
  }

  predicate Soon(log: seq<Check>, now: int) { log != [] && now - log[|log| - 1].at <= HEALTH_FRESH_SECONDS }

  lemma CaseGoesOn(log: seq<Check>, k: Check, t: int)
    requires CaseSince(log, t) && Soon(log, k.at) && (k.AgainstRadio() || k.Excused())
    ensures CaseSince(log + [k], t)
  {
    var i: nat :| Case(log, i) && log[i].at == t;
    var more := log + [k];
    assert more[|log|] == k && forall j | 0 <= j < |log| :: more[j] == log[j];
    assert Case(more, i);
  }

  lemma CaseBegins(log: seq<Check>, k: Check)
    requires k.AgainstRadio()
    ensures CaseSince(log + [k], k.at)
  {
    assert Case(log + [k], |log|);
  }

  lemma HealthGoesOn(log: seq<Check>, k: Check, t: int)
    requires HealthySince(log, t) && Soon(log, k.at) && k.Proven()
    ensures HealthySince(log + [k], t)
  {
    var i: nat :| Healthy(log, i) && log[i].at == t;
    var more := log + [k];
    assert more[|log|] == k && forall j | 0 <= j < |log| :: more[j] == log[j];
    assert Healthy(more, i);
  }

  lemma HealthBegins(log: seq<Check>, k: Check)
    requires k.Proven()
    ensures HealthySince(log + [k], k.at)
  {
    assert Healthy(log + [k], |log|);
  }

  lemma UnwellWindows(w: Windows, log: seq<Check>, k: Check, now: int, unspent: bool, allowed: bool)
    requires Awaiting(w, log, now, unspent) && k.at == now && w.healthySince.None?
    requires allowed ==> k.AgainstRadio()
    ensures Windowed(w.Unwell(allowed, now), log + [k], now, unspent)
  {
    if allowed {
      if w.outageSince.Some? {
        CaseGoesOn(log, k, w.outageSince.value);
      } else {
        CaseBegins(log, k);
      }
    }
  }

  lemma UnwellWindowed(c: Ctl, log: seq<Check>, v: Visit, seen: Observation, now: int, wall: int, cleanup: bool)
    requires Awaiting(c.w, log, now, c.budget.unspent) && !seen.healthy && v.state.powered
    ensures var d, k := c.UnwellCheck(v, seen, now, wall, cleanup), CheckOf(c, v.state, seen, now, wall, cleanup);
            && Windowed(d.w, if d.generation == c.generation then log + [k] else [], now, d.budget.unspent)
            && d.budget == c.budget
  {
    var k := CheckOf(c, v.state, seen, now, wall, cleanup);
    var u := c.w.(healthySince := None);
    assert Awaiting(u, log, now, c.budget.unspent);
    if seen.busy {
      if u.outageSince.Some? {
        CaseGoesOn(log, k, u.outageSince.value);
      }
    } else if !c.OffLimits(v.state, seen, cleanup) {
      var allowed := c.CycleAllowed(v.state, wall, cleanup);
      UnwellWindows(u, log, k, now, c.budget.unspent, allowed);
    }
  }

  lemma HealthyWindowed(c: Ctl, log: seq<Check>, v: Visit, seen: Observation, now: int, wall: int, cleanup: bool)
    requires Awaiting(c.w, log, now, c.budget.unspent) && seen.healthy
    ensures var d, k := c.HealthyCheck(v, seen.proof, now), CheckOf(c, v.state, seen, now, wall, cleanup);
            && Windowed(d.w, if d.generation == c.generation then log + [k] else [], now, d.budget.unspent)
            && (d.budget != c.budget ==> d.generation == c.generation && Earned(c, d.budget, v.state, log + [k]))
  {
    var k := CheckOf(c, v.state, seen, now, wall, cleanup);
    if c.w.FreshProof(seen.proof, now) {
      if c.w.healthySince.Some? && !c.budget.unspent {
        HealthGoesOn(log, k, c.w.healthySince.value);
      } else {
        HealthBegins(log, k);
      }
    }
  }

  /** A changed record was changed for a reason. */
  ghost predicate Earned(c: Ctl, budget: Budget, state: AdapterState, log: seq<Check>) {
    if c.budget.Known(state.address, c.phone) then
      SustainedHealth(log) && budget == Apply(c.budget, Rearmed(log))
    else budget == Apply(c.budget, Claimed(state.address, c.phone))
  }

  /** The rest of a check, once the controller is known. */
  function SeenBy(c: Ctl, v: Visit, seen: Observation, now: int, wall: int, cleanup: bool): Ctl {
    var d := c.(w := c.w.Observing(now));
    if seen.healthy then d.HealthyCheck(v, seen.proof, now) else d.UnwellCheck(v, seen, now, wall, cleanup)
  }

  lemma SeenWindowed(c: Ctl, log: seq<Check>, v: Visit, seen: Observation, now: int, wall: int, cleanup: bool)
    requires Windowed(c.w, log, now, c.budget.unspent) && v.state.powered
    ensures var d, k := SeenBy(c, v, seen, now, wall, cleanup), CheckOf(c, v.state, seen, now, wall, cleanup);
            && Windowed(d.w, if d.generation == c.generation then log + [k] else [], now, d.budget.unspent)
            && (d.budget != c.budget ==> d.generation == c.generation && Earned(c, d.budget, v.state, log + [k]))
  {
    var d := c.(w := c.w.Observing(now));
    if seen.healthy {
      HealthyWindowed(d, log, v, seen, now, wall, cleanup);
    } else {
      UnwellWindowed(d, log, v, seen, now, wall, cleanup);
    }
  }

  lemma CheckedWindowed(c: Ctl, log: seq<Check>, v: Visit, now: int, wall: int, cleanup: bool)
    requires Windowed(c.w, log, now, c.budget.unspent)
    ensures var d, log' := c.Checked(v, now, wall, cleanup), CheckedLog(c, log, v, now, wall, cleanup);
            && Windowed(d.w, log', now, d.budget.unspent)
            && (d.budget != c.budget ==> Earned(c, d.budget, v.state, log'))
  {
    var arrived := c.Arrived(v.state, now);
    var before := if arrived.generation == c.generation then log else [];
    if v.state.powered && v.seen.Some? {
      SeenWindowed(arrived, before, v, v.seen.value, now, wall, cleanup);
    }
  }

  ghost predicate Observed(s: Sys) { Windowed(s.c.w, s.log, s.now, s.c.budget.unspent) }

  /** Apart from checks and restarts, the windows stay, or an invalidation
      clears them; a failed probe ends the outage. */
  predicate Kept(c: Ctl, c': Ctl, now: int) {
    || (c'.generation == c.generation && (c'.w == c.w || c'.w == c.w.(outageSince := None)))
    || (c'.generation > c.generation && c'.w == c.w.Cleared(now))
  }

  lemma ContinuedKeeps(c: Ctl, pending: bool, idle: bool, pauseRaises: bool, submitted: bool, now: int)
    ensures var d := c.Continued(pending, idle, pauseRaises, submitted, now);
            && Kept(c, d, now) && d.budget == c.budget && d.phone == c.phone
            && d.probing == (c.probing && d.generation == c.generation)
  {
  }

  ghost predicate Keeps(s: Sys, e: Happening)
    requires Possible(s, e) && Linked(s.a)
  {
    var c' := Stepped(s, e).1;
    && Kept(s.c, c', s.now) && c'.phone == s.c.phone
    && (c'.probing ==> s.c.probing && c'.generation == s.c.generation)
    && (c'.budget != s.c.budget ==> e.Forget? || e.ProbeAnswer?)
  }

  lemma TickedKeeps(c: Ctl, blocked: bool, pending: bool, idle: bool, pauseRaises: bool, submitted: bool,
                    readRaises: bool, now: int)
    ensures var d := c.Ticked(blocked, pending, idle, pauseRaises, submitted, readRaises, now);
            && Kept(c, d, now) && d.budget == c.budget && d.phone == c.phone
            && (d.probing ==> c.probing && d.generation == c.generation)
  {
    ContinuedKeeps(c, pending, idle, pauseRaises, submitted, now);
  }

  lemma StartedKeeps(c: Ctl, pending: bool, idle: bool, pauseRaises: bool, submitted: bool, now: int)
    ensures var d := c.Started(pending, idle, pauseRaises, submitted, now);
            && Kept(c, d, now) && d.budget == c.budget && d.phone == c.phone
            && (d.probing ==> c.probing && d.generation == c.generation)
  {
    ContinuedKeeps(c.(duty := c.duty.(running := true)), pending, idle, pauseRaises, submitted, now);
  }

  lemma MainLoopKeeps(s: Sys, e: Happening)
    requires Possible(s, e) && Linked(s.a) && (e.Tick? || e.Start?)
    ensures Keeps(s, e)
  {
    if e.Tick? {
      TickedKeeps(s.c, e.blocked, s.a.RestorePending(), e.idle, e.pauseRaises, e.submitted, e.readRaises, s.now);
    } else {
      StartedKeeps(s.c, s.a.RestorePending(), e.idle, e.pauseRaises, e.submitted, s.now);
    }
  }

  lemma AnswerKeeps(s: Sys, e: Happening)
    requires Possible(s, e) && Linked(s.a) && e.ProbeAnswer?
    ensures Keeps(s, e)
  {
  }

  lemma StepKeepsWindows(s: Sys, e: Happening)
    requires Possible(s, e) && Linked(s.a) && !e.SnapshotReady? && !e.Crash?
    ensures Keeps(s, e)
  {
    if e.Tick? || e.Start? {
      MainLoopKeeps(s, e);
    } else if e.ProbeAnswer? {
      AnswerKeeps(s, e);
    }
  }

  lemma CheckObserves(s: Sys, e: Happening)
    requires Possible(s, e) && Linked(s.a) && Observed(s) && e.SnapshotReady?
    ensures var c' := Stepped(s, e).1;
            Windowed(c'.w, LogAfter(s, e, c'), s.now, c'.budget.unspent)
  {
    if Checks(s, e.from) {
      CheckedWindowed(s.c.(snapshotPending := false), s.log, e.visit, s.now, s.wall, s.a.CleanupPending());
    }
  }

  /** Spending the attempt leaves no window of health behind. */
  lemma KeptObserves(c: Ctl, c': Ctl, log: seq<Check>, now: int, later: int)
    requires Windowed(c.w, log, now, c.budget.unspent) && Kept(c, c', now) && now <= later
    requires c'.budget.unspent == c.budget.unspent || c'.generation != c.generation || c.w.outageSince.Some?
    ensures Windowed(c'.w, if c'.generation == c.generation then log else [], later, c'.budget.unspent)
  {
  }

  lemma StepObserves(s: Sys, e: Happening)
    requires Possible(s, e) && Linked(s.a) && Observed(s)
    ensures Observed(After(s, e))
  {
    if e.SnapshotReady? {
      CheckObserves(s, e);
    } else if !e.Crash? {
      StepKeepsWindows(s, e);
      KeptObserves(s.c, Stepped(s, e).1, s.log, s.now, After(s, e).now);
    }
  }

  // ---- the probe belongs to the LE reset before it ------------------------

  /** While the probe is outstanding no LE reset starts: there is one, settled
      for a minute, exactly if the LE outage began before the probe. */
  predicate Probed(w: Windows, probe: Probe, now: int) {
    && probe.submittedAt <= now
    && (probe.answeredAt.Some? ==> probe.submittedAt <= probe.answeredAt.value <= now)
    && (w.leOutageSince.Some? ==>
          if w.leOutageSince.value < probe.submittedAt then
            w.softResetAt.Some? && probe.submittedAt - w.softResetAt.value >= RESET_SETTLE_SECONDS
          else w.softResetAt.None?)
  }

  predicate Probing(c: Ctl, probe: Option<Probe>, now: int) {
    && (c.probing <==> probe.Some?)
    && (probe.Some? ==> Probed(c.w, probe.value, now))
  }

  lemma UnwellProbes(c: Ctl, probe: Option<Probe>, v: Visit, seen: Observation, now: int, wall: int, cleanup: bool)
    requires Probing(c, probe, now) && Nested(c.w, now) && c.w.lastObservation == now
    ensures var d := c.UnwellCheck(v, seen, now, wall, cleanup);
            && (d.probing ==> Probed(d.w, if c.probing then probe.value else Probe(v.state, now, None), now))
            && d.budget == c.budget
  {
  }

  lemma CheckedProbes(c: Ctl, probe: Option<Probe>, v: Visit, now: int, wall: int, cleanup: bool)
    requires Probing(c, probe, now) && Nested(c.w, now)
    ensures var d := c.Checked(v, now, wall, cleanup);
            d.probing ==> Probed(d.w, if c.probing then probe.value else Probe(v.state, now, None), now)
  {
    var arrived := c.Arrived(v.state, now);
    if v.state.powered && v.seen.Some? && !v.seen.value.healthy {
      var d := arrived.(w := arrived.w.Observing(now));
      if arrived == c {
        UnwellProbes(d, probe, v, v.seen.value, now, wall, cleanup);
      } else {
        UnwellProbes(d, None, v, v.seen.value, now, wall, cleanup);
        assert d.w.outageSince.None? && !d.UnwellCheck(v, v.seen.value, now, wall, cleanup).probing;
      }
    }
  }

  lemma StepProbes(s: Sys, e: Happening)
    requires Possible(s, e) && Linked(s.a) && Observed(s) && Probing(s.c, s.probe, s.now)
    ensures Probing(After(s, e).c, After(s, e).probe, After(s, e).now)
  {
    if e.SnapshotReady? {
      if Checks(s, e.from) {
        CheckedProbes(s.c.(snapshotPending := false), s.probe, e.visit, s.now, s.wall, s.a.CleanupPending());
      }
    } else if !e.Crash? {
      StepKeepsWindows(s, e);
    }
  }

  // ---- the record on disk and the history ---------------------------------

  ghost predicate Recorded(s: Sys, origin: Budget) {
    && s.disk == s.c.budget == Replay(origin, s.history)
    && Lawful(origin, s.history)
  }

  /** Until its power-off is sent, a cycle's attempt is the last thing spent. */
  predicate Loaded(s: Sys) {
    (s.c.duty.job.Queued? && s.c.duty.job.cycle.Some?) || s.a.pc.Journaled? ==>
      Armed(s.history) && !s.c.budget.unspent && s.c.duty.active
  }

  ghost predicate Justified(s: Sys, origin: Budget, mark: Option<Mark>, budget: Budget) {
    if mark.Some? then LawfulMark(origin, s.history, mark.value) && budget == Apply(s.c.budget, mark.value)
    else budget == s.c.budget
  }

  lemma CheckRecords(s: Sys, e: Happening, origin: Budget)
    requires Possible(s, e) && Linked(s.a) && Observed(s) && Recorded(s, origin) && e.SnapshotReady?
    ensures var c' := Stepped(s, e).1; Justified(s, origin, MarkOf(s, e, c', LogAfter(s, e, c')), c'.budget)
  {
    if Checks(s, e.from) {
      CheckedWindowed(s.c.(snapshotPending := false), s.log, e.visit, s.now, s.wall, s.a.CleanupPending());
    }
  }

  lemma AnswerRecords(s: Sys, e: Happening, origin: Budget)
    requires Possible(s, e) && Linked(s.a) && Recorded(s, origin) && e.ProbeAnswer?
    ensures var c' := Stepped(s, e).1; Justified(s, origin, MarkOf(s, e, c', LogAfter(s, e, c')), c'.budget)
  {
  }

  lemma OtherRecords(s: Sys, e: Happening, origin: Budget)
    requires Possible(s, e) && Linked(s.a) && Recorded(s, origin) && Loaded(s)
    requires !e.SnapshotReady? && !e.ProbeAnswer?
    ensures var c' := Stepped(s, e).1; Justified(s, origin, MarkOf(s, e, c', LogAfter(s, e, c')), c'.budget)
  {
    if !e.Crash? {
      StepKeepsWindows(s, e);
    }
  }

  lemma StepRecords(s: Sys, e: Happening, origin: Budget)
    requires Possible(s, e) && Linked(s.a) && Observed(s) && Recorded(s, origin) && Loaded(s)
    ensures Recorded(After(s, e), origin)
  {
    if e.SnapshotReady? {
      CheckRecords(s, e, origin);
    } else if e.ProbeAnswer? {
      AnswerRecords(s, e, origin);
    } else {
      OtherRecords(s, e, origin);
    }
    var c' := Stepped(s, e).1;
    var mark := MarkOf(s, e, c', LogAfter(s, e, c'));
    assert Justified(s, origin, mark, c'.budget);
    if mark.Some? {
      LawfulMore(origin, s.history, mark.value);
    }
  }

  lemma WorkerLoads(s: Sys, e: Happening)
    requires Possible(s, e) && Safe(s.a) && Settled(s) && Loaded(s)
    requires e.WorkerCycles? || e.WorkerRestores? || e.WorkerSteps?
    ensures Loaded(After(s, e))
  {
  }

  /** A cycle is queued only by the answer of a probe. */
  predicate NoNewCycle(d: Duty, d': Duty) {
    && (d'.job.Queued? && d'.job.cycle.Some? ==> d'.job == d.job)
    && (!d.job.NoJob? ==> d'.job == d.job && d'.active == d.active)
  }

  lemma ContinuedQueuesNoCycle(c: Ctl, pending: bool, idle: bool, pauseRaises: bool, submitted: bool, now: int,
                               halted: bool)
    requires Fair(c.duty, halted)
    ensures NoNewCycle(c.duty, c.Continued(pending, idle, pauseRaises, submitted, now).duty)
  {
  }

  lemma TickedQueuesNoCycle(c: Ctl, blocked: bool, pending: bool, idle: bool, pauseRaises: bool, submitted: bool,
                            readRaises: bool, now: int, halted: bool)
    requires Fair(c.duty, halted)
    ensures NoNewCycle(c.duty, c.Ticked(blocked, pending, idle, pauseRaises, submitted, readRaises, now).duty)
  {
    ContinuedQueuesNoCycle(c, pending, idle, pauseRaises, submitted, now, halted);
  }

  lemma StartedQueuesNoCycle(c: Ctl, pending: bool, idle: bool, pauseRaises: bool, submitted: bool, now: int,
                             halted: bool)
    requires Fair(c.duty, halted)
    ensures NoNewCycle(c.duty, c.Started(pending, idle, pauseRaises, submitted, now).duty)
  {
    if !c.duty.running {
      ContinuedQueuesNoCycle(c.(duty := c.duty.(running := true)), pending, idle, pauseRaises, submitted, now, true);
    }
  }

  lemma TickLoads(s: Sys, e: Happening)
    requires Possible(s, e) && Linked(s.a) && Settled(s) && Loaded(s) && e.Tick?
    ensures Loaded(After(s, e))
  {
    TickedKeeps(s.c, e.blocked, s.a.RestorePending(), e.idle, e.pauseRaises, e.submitted, e.readRaises, s.now);
    TickedQueuesNoCycle(s.c, e.blocked, s.a.RestorePending(), e.idle, e.pauseRaises, e.submitted, e.readRaises, s.now,
                        s.halted);
    assert After(s, e).a.pc == s.a.pc;
  }

  lemma AnswerLoads(s: Sys, e: Happening)
    requires Possible(s, e) && Linked(s.a) && Settled(s) && Loaded(s) && e.ProbeAnswer?
    ensures Loaded(After(s, e))
  {
  }

  lemma CheckLoads(s: Sys, e: Happening)
    requires Possible(s, e) && Linked(s.a) && Settled(s) && Loaded(s) && e.SnapshotReady?
    ensures Loaded(After(s, e))
  {
    SnapshotKeepsDuty(s.c, e.visit, e.from, s.now, s.wall, s.a.RestorePending(), s.a.CleanupPending());
  }

  lemma ForgetLoads(s: Sys, e: Happening)
    requires Possible(s, e) && Linked(s.a) && Settled(s) && Loaded(s) && e.Forget?
    ensures Loaded(After(s, e))
  {
    assert (s.history + [Forgotten])[..|s.history|] == s.history;
  }

  lemma OtherLoads(s: Sys, e: Happening)
    requires Possible(s, e) && Linked(s.a) && Settled(s) && Loaded(s)
    requires e.Advance? || e.SnapshotFails? || e.ProbeReturns? || e.ProbeFails? || e.Signal?
             || e.Invalidate? || e.Stop? || e.Crash?
    ensures Loaded(After(s, e))
  {
    if e.Signal? {
      SignalKeepsPc(s.a, e.step);
    }
  }

  lemma StartLoads(s: Sys, e: Happening)
    requires Possible(s, e) && Linked(s.a) && Settled(s) && Loaded(s) && e.Start?
    ensures Loaded(After(s, e))
  {
    StartedKeeps(s.c, s.a.RestorePending(), e.idle, e.pauseRaises, e.submitted, s.now);
    StartedQueuesNoCycle(s.c, s.a.RestorePending(), e.idle, e.pauseRaises, e.submitted, s.now, s.halted);
  }

  lemma JobReturnLoads(s: Sys, e: Happening)
    requires Possible(s, e) && Linked(s.a) && Settled(s) && Loaded(s) && e.JobReturns?
    ensures Loaded(After(s, e))
  {
  }

  lemma StepLoads(s: Sys, e: Happening)
    requires Possible(s, e) && Safe(s.a) && Settled(s) && Loaded(s)
    ensures Loaded(After(s, e))
  {
    if e.Tick? {
      TickLoads(s, e);
    } else if e.Start? {
      StartLoads(s, e);
    } else if e.ProbeAnswer? {
      AnswerLoads(s, e);
    } else if e.JobReturns? {
      JobReturnLoads(s, e);
    } else if e.WorkerCycles? || e.WorkerRestores? || e.WorkerSteps? {
      WorkerLoads(s, e);
    } else if e.SnapshotReady? {
      CheckLoads(s, e);
    } else if e.Forget? {
      ForgetLoads(s, e);
    } else {
      OtherLoads(s, e);
    }
  }

  // ---- runs ---------------------------------------------------------------

  lemma CleanedStaysSafe(s: Sys, e: Happening)
    requires Possible(s, e) && Safe(s.a)
    ensures Safe(After(s, e).a)
  {
    match e {
      case Advance(_, _) =>
      case Tick(blocked, cleaned, idle, pauseRaises, submitted, readRaises) => CleanedIsSafe(s.a, cleaned);
      case SnapshotReady(from, v) =>
      case SnapshotFails(from) =>
      case ProbeReturns =>
      case ProbeFails =>
      case ProbeAnswer(current, seen, idle, written, begun) =>
      case WorkerCycles(t, ok) => StepKeepsSafe(s.a, BeginCycle(t, ok));
      case WorkerRestores(ok) => StepKeepsSafe(s.a, Restore(ok));
      case WorkerSteps(step) => StepKeepsSafe(s.a, step);
      case Signal(step) => StepKeepsSafe(s.a, step);
      case JobReturns =>
      case Invalidate(suspend) =>
      case Forget(written) =>
      case Stop =>
      case Start(idle, pauseRaises, submitted) =>
      case Crash(path, device, phone) => RestartIsSafe(s.a, path, device);
    }
  }

  /** Everything that holds between any two steps. */
  ghost predicate Sound(s: Sys, origin: Budget) {
    && Safe(s.a) && Settled(s) && Observed(s) && Probing(s.c, s.probe, s.now) && Recorded(s, origin) && Loaded(s)
  }

  lemma StepKeepsSound(s: Sys, e: Happening, origin: Budget)
    requires Sound(s, origin) && Possible(s, e)
    ensures Sound(After(s, e), origin)
  {
    CleanedStaysSafe(s, e);
    StepSettles(s, e);
    StepObserves(s, e);
    StepProbes(s, e);
    StepRecords(s, e, origin);
    StepLoads(s, e);
  }

  /** The first start, over whatever the settings file holds. */
  function FirstStart(path: string, device: string, phone: string, origin: Budget, journal: Option<Raw>, now: int,
                      wall: int): Sys
  {
    var a := Adapter(path, device, 0, 0, None, false, false, Idle, journal).Restarted(path, device);
    Sys(a, Fresh(phone, origin, now), origin, None, now, wall, [], [], false)
  }

  /** `hs` may happen one after the other from `s` and leads to `t`. */
  ghost predicate Leads(s: Sys, hs: seq<Happening>, t: Sys)
    decreases |hs|
  {
    if hs == [] then s == t
    else Linked(s.a) && Possible(s, hs[0]) && Leads(After(s, hs[0]), hs[1..], t)
  }

  ghost predicate Reachable(s: Sys, origin: Budget) {
    exists path, device, phone, journal, now, wall, hs ::
      Leads(FirstStart(path, device, phone, origin, journal, now, wall), hs, s)
  }

  lemma {:induction false} LeadsKeepsSound(s: Sys, hs: seq<Happening>, t: Sys, origin: Budget)
    requires Sound(s, origin) && Leads(s, hs, t)
    ensures Sound(t, origin)
    decreases |hs|
  {
    if hs != [] {
      StepKeepsSound(s, hs[0], origin);
      LeadsKeepsSound(After(s, hs[0]), hs[1..], t, origin);
    }
  }

  lemma FirstStartIsSound(path: string, device: string, phone: string, origin: Budget, journal: Option<Raw>, now: int,
                          wall: int)
    ensures Sound(FirstStart(path, device, phone, origin, journal, now, wall), origin)
  {
    RestartIsSafe(Adapter(path, device, 0, 0, None, false, false, Idle, journal), path, device);
  }

  lemma ReachableIsSound(s: Sys, origin: Budget)
    requires Reachable(s, origin)
    ensures Sound(s, origin)
  {
    var path, device, phone, journal, now, wall, hs :|
      Leads(FirstStart(path, device, phone, origin, journal, now, wall), hs, s);
    FirstStartIsSound(path, device, phone, origin, journal, now, wall);
    LeadsKeepsSound(FirstStart(path, device, phone, origin, journal, now, wall), hs, s, origin);
  }

  predicate SendsPowerOff(s: Sys, e: Happening) {
    Possible(s, e) && Linked(s.a) && e.WorkerSteps? && SendsOff(s.a, e.step)
  }

  /** The budget is spent first: whenever power-off is sent, the settings file
      already holds the spent attempt with its time and the journal of this
      very transaction. */
  lemma PowerOffIsBudgeted(s: Sys, e: Happening, origin: Budget)
    requires Reachable(s, origin) && SendsPowerOff(s, e)
    ensures s.disk == Replay(origin, s.history) && !s.disk.unspent
    ensures s.a.journal == Some(RawOf(s.a.path, s.a.device, s.a.txn.value, PhaseOff))
    ensures exists i | 0 <= i < |s.history| ::
      && s.history[i].Attempt? && s.disk.lastAttempt == Some(s.history[i].wall)
      && forall k | i < k < |s.history| :: !s.history[k].PowerOff? && !s.history[k].Attempt?
    ensures After(s, e).history == s.history + [PowerOff]
  {
    ReachableIsSound(s, origin);
    var i := ArmedByAttempt(s.history);
    LastAttemptStands(origin, s.history, i, |s.history|);
    assert s.history[..|s.history|] == s.history;
  }

  lemma {:induction false} LastAttemptStands(b: Budget, h: seq<Mark>, a: nat, n: nat)
    requires a < n <= |h| && h[a].Attempt? && forall k | a < k < n :: !h[k].Attempt?
    ensures Replay(b, h[..n]).lastAttempt == Some(h[a].wall)
    decreases n
  {
    assert h[..n][..n - 1] == h[..n - 1];
    if n > a + 1 {
      LastAttemptStands(b, h, a, n - 1);
    }
  }

  /** Crash-safe cycle budget: in every reachable history, over crashes and
      restarts at any step, of two power-offs the later one was attempted at
      least an hour after the earlier one's attempt and, unless the pair was
      changed or forgotten, after ten minutes of unbroken proven health. */
  lemma CycleBudget(s: Sys, origin: Budget, i: nat, j: nat)
    requires Reachable(s, origin) && i < j < |s.history| && s.history[i].PowerOff? && s.history[j].PowerOff?
    ensures var h := s.history;
            exists x, y | 0 <= x < i < y < j ::
              && h[x].Attempt? && h[y].Attempt? && h[y].wall - h[x].wall >= HOURLY_LIMIT_SECONDS
              && (SamePair(h, x, y, h[x].address, h[x].phone) ==>
                    exists k | x < k < y :: h[k].Rearmed? && SustainedHealth(h[k].checks))
  {
    ReachableIsSound(s, origin);
    PowerOffsAreSpaced(origin, s.history, i, j);
  }

  // ---- invalidation -------------------------------------------------------

  /** The step decides to power cycle the adapter. */
  predicate StartsCycle(s: Sys, e: Happening) {
    Possible(s, e) && Linked(s.a) && e.ProbeAnswer? && After(s, e).c.budget != s.c.budget
  }

  /** The step discards what was observed: sleep, another controller or owner,
      a forgotten phone, a stop, a failed snapshot, a restart. */
  predicate Invalidates(s: Sys, e: Happening) {
    Possible(s, e) && Linked(s.a) && (e.Crash? || After(s, e).c.generation != s.c.generation)
  }

  /** No cycle is on its way to its power-off, or it was cancelled. */
  predicate Called(d: Duty, pc: Pc) { d.cancelled || !((d.job.Queued? && d.job.cycle.Some?) || pc.Journaled?) }

  /** What invalidation leaves: a cancelled job, or none. */
  predicate Dropped(d: Duty) { d.active ==> d.cancelled }

  lemma ContinuedDrops(c: Ctl, pending: bool, idle: bool, pauseRaises: bool, submitted: bool, now: int)
    ensures var d := c.Continued(pending, idle, pauseRaises, submitted, now);
            && (d.generation != c.generation ==> Dropped(d.duty))
            && (c.duty.active && pending ==> d.duty.active)
  {
  }

  lemma LoopDrops(s: Sys, e: Happening)
    requires (e.Tick? || e.Start?) && Possible(s, e) && Linked(s.a)
    requires Stepped(s, e).1.generation != s.c.generation
    ensures Dropped(Stepped(s, e).1.duty)
  {
    var c := if e.Start? then s.c.(duty := s.c.duty.(running := true)) else s.c;
    ContinuedDrops(c, s.a.RestorePending(), e.idle, e.pauseRaises, e.submitted, s.now);
  }

  lemma AnswerDrops(s: Sys, e: Happening)
    requires e.ProbeAnswer? && Possible(s, e) && Linked(s.a)
    requires Stepped(s, e).1.generation != s.c.generation
    ensures Dropped(Stepped(s, e).1.duty)
  {
  }

  lemma CheckDrops(s: Sys, e: Happening)
    requires e.SnapshotReady? && Possible(s, e) && Linked(s.a)
    requires Stepped(s, e).1.generation != s.c.generation
    ensures Dropped(Stepped(s, e).1.duty)
  {
    SnapshotKeepsDuty(s.c, e.visit, e.from, s.now, s.wall, s.a.RestorePending(), s.a.CleanupPending());
  }

  lemma InvalidationDrops(s: Sys, e: Happening)
    requires Possible(s, e) && Linked(s.a) && (e.Crash? || Stepped(s, e).1.generation != s.c.generation)
    ensures Dropped(Stepped(s, e).1.duty)
  {
    if e.Tick? || e.Start? {
      LoopDrops(s, e);
    } else if e.ProbeAnswer? {
      AnswerDrops(s, e);
    } else if e.SnapshotReady? {
      CheckDrops(s, e);
    }
  }

  lemma InvalidationCalls(s: Sys, e: Happening)
    requires Settled(s) && Invalidates(s, e)
    ensures Called(After(s, e).c.duty, After(s, e).a.pc)
  {
    StepSettles(s, e);
    InvalidationDrops(s, e);
  }

  lemma WorkerStaysCalled(s: Sys, e: Happening)
    requires e.WorkerCycles? || e.WorkerRestores? || e.WorkerSteps?
    requires Settled(s) && Possible(s, e) && Linked(s.a) && Called(s.c.duty, s.a.pc)
    ensures Called(Stepped(s, e).1.duty, Stepped(s, e).0.pc)
  {
  }

  lemma ReturnStaysCalled(s: Sys, e: Happening)
    requires e.JobReturns? && Settled(s) && Possible(s, e) && Linked(s.a) && Called(s.c.duty, s.a.pc)
    ensures Called(Stepped(s, e).1.duty, Stepped(s, e).0.pc)
  {
  }

  lemma ContinuedStaysCalled(c: Ctl, pending: bool, idle: bool, pauseRaises: bool, submitted: bool, now: int, pc: Pc)
    requires Called(c.duty, pc)
    ensures Called(c.Continued(pending, idle, pauseRaises, submitted, now).duty, pc)
  {
  }

  lemma LoopStaysCalled(s: Sys, e: Happening)
    requires (e.Tick? || e.Start?) && Possible(s, e) && Linked(s.a) && Called(s.c.duty, s.a.pc)
    ensures Called(Stepped(s, e).1.duty, Stepped(s, e).0.pc)
  {
    assert Stepped(s, e).0.pc == s.a.pc;
    var c := if e.Start? then s.c.(duty := s.c.duty.(running := true)) else s.c;
    ContinuedStaysCalled(c, s.a.RestorePending(), e.idle, e.pauseRaises, e.submitted, s.now, s.a.pc);
  }

  lemma AnswerStaysCalled(s: Sys, e: Happening)
    requires e.ProbeAnswer? && Possible(s, e) && Linked(s.a) && Called(s.c.duty, s.a.pc)
    requires Stepped(s, e).1.budget == s.c.budget
    ensures Called(Stepped(s, e).1.duty, Stepped(s, e).0.pc)
  {
  }

  lemma CheckStaysCalled(s: Sys, e: Happening)
    requires e.SnapshotReady? && Possible(s, e) && Linked(s.a) && Called(s.c.duty, s.a.pc)
    ensures Called(Stepped(s, e).1.duty, Stepped(s, e).0.pc)
  {
    SnapshotKeepsDuty(s.c, e.visit, e.from, s.now, s.wall, s.a.RestorePending(), s.a.CleanupPending());
  }

  lemma SignalStaysCalled(s: Sys, e: Happening)
    requires e.Signal? && Possible(s, e) && Linked(s.a) && Called(s.c.duty, s.a.pc)
    ensures Called(Stepped(s, e).1.duty, Stepped(s, e).0.pc)
  {
    SignalKeepsPc(s.a, e.step);
  }

  lemma InvalidatedStaysCalled(d: Duty, suspend: Option<bool>, pc: Pc)
    requires Called(d, pc)
    ensures Called(d.Invalidated(suspend), pc) && Called(d.(running := false).Invalidated(suspend), pc)
  {
  }

  lemma InvalidationStaysCalled(s: Sys, e: Happening)
    requires e.SnapshotFails? || e.Invalidate? || e.Forget? || e.Stop?
    requires Possible(s, e) && Linked(s.a) && Called(s.c.duty, s.a.pc)
    ensures Called(Stepped(s, e).1.duty, Stepped(s, e).0.pc)
  {
    InvalidatedStaysCalled(s.c.duty, if e.Invalidate? then e.suspend else None, s.a.pc);
  }

  lemma StepStaysCalled(s: Sys, e: Happening)
    requires Settled(s) && Possible(s, e) && Linked(s.a) && Called(s.c.duty, s.a.pc)
    requires e.ProbeAnswer? ==> Stepped(s, e).1.budget == s.c.budget
    ensures Called(Stepped(s, e).1.duty, Stepped(s, e).0.pc)
  {
    if e.Tick? || e.Start? {
      LoopStaysCalled(s, e);
    } else if e.ProbeAnswer? {
      AnswerStaysCalled(s, e);
    } else if e.SnapshotReady? {
      CheckStaysCalled(s, e);
    } else if e.Signal? {
      SignalStaysCalled(s, e);
    } else if e.WorkerCycles? || e.WorkerRestores? || e.WorkerSteps? {
      WorkerStaysCalled(s, e);
    } else if e.JobReturns? {
      ReturnStaysCalled(s, e);
    } else if e.SnapshotFails? || e.Invalidate? || e.Forget? || e.Stop? {
      InvalidationStaysCalled(s, e);
    }
  }

  /** `Leads`, with no step that starts a cycle. */
  ghost predicate LeadsCalmly(s: Sys, hs: seq<Happening>, t: Sys)
    decreases |hs|
  {
    if hs == [] then s == t
    else Linked(s.a) && Possible(s, hs[0]) && !StartsCycle(s, hs[0]) && LeadsCalmly(After(s, hs[0]), hs[1..], t)
  }

  lemma {:induction false} StaysCalled(s: Sys, hs: seq<Happening>, t: Sys)
    requires Settled(s) && Called(s.c.duty, s.a.pc) && LeadsCalmly(s, hs, t)
    ensures Called(t.c.duty, t.a.pc)
    decreases |hs|
  {
    if hs != [] {
      StepSettles(s, hs[0]);
      StepStaysCalled(s, hs[0]);
      StaysCalled(After(s, hs[0]), hs[1..], t);
    }
  }

  lemma CalledSendsNothing(t: Sys, f: Happening)
    requires Called(t.c.duty, t.a.pc)
    ensures !SendsPowerOff(t, f)
  {
  }

  lemma ReachableIsSettled(s: Sys, e: Happening, origin: Budget)
    requires Reachable(s, origin) && Possible(s, e) && Linked(s.a)
    ensures Settled(s) && Settled(After(s, e))
  {
    ReachableIsSound(s, origin);
    StepSettles(s, e);
  }

  /** Once anything invalidates the observations, power-off is not sent until
      another cycle has been decided, whatever the worker was doing. */
  lemma {:induction false} InvalidationStopsCycle(s: Sys, e: Happening, hs: seq<Happening>, t: Sys, f: Happening,
                                                  origin: Budget)
    requires Reachable(s, origin) && Invalidates(s, e) && LeadsCalmly(After(s, e), hs, t)
    ensures !SendsPowerOff(t, f)
  {
    ReachableIsSettled(s, e, origin);
    InvalidationCalls(s, e);
    StaysCalled(After(s, e), hs, t);
    CalledSendsNothing(t, f);
  }

  /** An unbroken case: when a cycle starts, then since the last invalidation
      every check from `outageSince` on was busy or spoke against the radio,
      with no gap, for at least five minutes; the probe answered in the last
      thirty seconds; and the last look found the radio free and the phone
      unwell. */
  lemma CycleHasACase(s: Sys, e: Happening, origin: Budget)
    requires Reachable(s, origin) && StartsCycle(s, e)
    ensures s.c.w.outageSince.Some? && CaseSince(s.log, s.c.w.outageSince.value)
    ensures s.now - s.c.w.outageSince.value >= OUTAGE_SECONDS
    ensures 0 <= s.now - s.probe.value.answeredAt.value <= PROBE_AGE_SECONDS
    ensures e.current == Some(s.probe.value.expected) && e.current.value.safe
    ensures e.seen.Some? && !e.seen.value.healthy && e.seen.value.eligible && !e.seen.value.busy
    ensures s.c.budget.Permits(e.current.value.address, s.c.phone, s.wall) && !s.a.CleanupPending()
  {
    ReachableIsSound(s, origin);
  }

  /** A settled LE reset of the LE outage that now lasts. */
  predicate ResetBehind(w: Windows, now: int) {
    && w.leOutageSince.Some? && w.softResetAt.Some?
    && w.leOutageSince.value <= w.softResetAt.value && now - w.softResetAt.value >= RESET_SETTLE_SECONDS
  }

  /** A cycle follows a settled LE reset of this outage exactly if the outage
      is the one in which the MAP probe was submitted. */
  lemma CycleFollowsReset(s: Sys, e: Happening, origin: Budget)
    requires Reachable(s, origin) && StartsCycle(s, e)
    ensures s.c.w.leOutageSince.Some?
    ensures ResetBehind(s.c.w, s.now) <==> s.c.w.leOutageSince.value < s.probe.value.submittedAt
  {
    ReachableIsSound(s, origin);
  }

  /** Until the daemon is stopped, profiles are paused exactly while a cycle or
      restoration is active or their resumption is owed after sleep. */
  lemma PausesAreBalanced(s: Sys, origin: Budget)
    requires Reachable(s, origin)
    ensures !s.halted ==>
              && s.c.duty.paused == (if s.c.duty.active || s.c.duty.resumeOwed then 1 else 0)
              && (s.c.duty.resumeOwed ==> s.c.duty.suspended && !s.c.duty.active)
    ensures s.c.duty.opPending ==> s.c.duty.active
    ensures s.c.duty.active <==> s.c.duty.reserved
    ensures !s.a.pc.Idle? ==> s.c.duty.job.Running? && s.c.duty.opPending
  {
    ReachableIsSound(s, origin);
  }

  lemma AnsweredStaysActive(s: Sys, e: Happening)
    requires Possible(s, e) && Linked(s.a) && Settled(s) && e.ProbeAnswer? && s.c.duty.active
    ensures Stepped(s, e).1.duty.active
  {
  }

  lemma LoopStaysActive(s: Sys, e: Happening)
    requires Possible(s, e) && Linked(s.a) && (e.Tick? || e.Start?)
    requires s.c.duty.active && s.a.RestorePending()
    ensures Stepped(s, e).1.duty.active
  {
    var c := if e.Start? then s.c.(duty := s.c.duty.(running := true)) else s.c;
    ContinuedDrops(c, s.a.RestorePending(), e.idle, e.pauseRaises, e.submitted, s.now);
  }

  lemma WorkerStaysActive(s: Sys, e: Happening)
    requires Possible(s, e) && Linked(s.a) && (e.WorkerCycles? || e.WorkerRestores? || e.WorkerSteps? || e.Signal?)
    ensures Stepped(s, e).1.duty.active == s.c.duty.active
  {
  }

  lemma InvalidationStaysActive(s: Sys, e: Happening)
    requires Possible(s, e) && Linked(s.a) && (e.SnapshotFails? || e.Invalidate? || e.Forget? || e.Stop?)
    ensures Stepped(s, e).1.duty.active == s.c.duty.active
  {
  }

  lemma OthersStayActive(s: Sys, e: Happening)
    requires Possible(s, e) && Linked(s.a) && (e.Advance? || e.ProbeReturns? || e.ProbeFails? || e.JobReturns?)
    requires s.c.duty.active && s.a.RestorePending()
    ensures Stepped(s, e).1.duty.active
  {
  }

  lemma StaysActive(s: Sys, e: Happening)
    requires Settled(s) && Possible(s, e) && Linked(s.a) && !e.Crash?
    requires s.c.duty.active && s.a.RestorePending()
    ensures Stepped(s, e).1.duty.active
  {
    if e.SnapshotReady? {
      SnapshotKeepsDuty(s.c, e.visit, e.from, s.now, s.wall, s.a.RestorePending(), s.a.CleanupPending());
    } else if e.ProbeAnswer? {
      AnsweredStaysActive(s, e);
    } else if e.Tick? || e.Start? {
      LoopStaysActive(s, e);
    } else if e.WorkerCycles? || e.WorkerRestores? || e.WorkerSteps? || e.Signal? {
      WorkerStaysActive(s, e);
    } else if e.SnapshotFails? || e.Invalidate? || e.Forget? || e.Stop? {
      InvalidationStaysActive(s, e);
    } else {
      OthersStayActive(s, e);
    }
  }

  /** The worker stays reserved as long as there is something to restore. */
  lemma ReservedWhileRestoring(s: Sys, e: Happening, origin: Budget)
    requires Reachable(s, origin) && Possible(s, e) && Linked(s.a) && !e.Crash?
    requires s.c.duty.active && s.a.RestorePending()
    ensures After(s, e).c.duty.active && After(s, e).c.duty.reserved
  {
    ReachableIsSettled(s, e, origin);
    StaysActive(s, e);
  }
}
