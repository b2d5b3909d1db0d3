/** When the adapter may be power cycled (bluetooth_recovery.py:473-859): the
    observation windows, the persisted budget, and the reserved worker. */
module Recovery {
  import opened Options
  import opened RestoreJournal

  const OUTAGE_SECONDS := 300
  const SOFT_RESET_SECONDS := 180
  const RESET_SETTLE_SECONDS := 60
  const REARM_SECONDS := 600
  const HOURLY_LIMIT_SECONDS := 3600
  const HEALTH_PROBE_SECONDS := 60
  const HEALTH_FRESH_SECONDS := 90
  const PROBE_AGE_SECONDS := 30

  /** The persisted record: `unspent` is `spent is False`; a last attempt that
      is not a finite number is None, a missing one is 0. */
  datatype Budget = Budget(adapter: Option<string>, phone: Option<string>, verified: bool, unspent: bool,
                           lastAttempt: Option<int>)
  {
    predicate Known(address: string, owner: string) {
      adapter == Some(address) && phone == Some(owner) && verified
    }

    /** `_allowed`, but for the journal's cleanup. */
    predicate Permits(address: string, owner: string, wall: int) {
      && Known(address, owner) && unspent && lastAttempt.Some?
      && wall - lastAttempt.value >= HOURLY_LIMIT_SECONDS
    }
  }

  datatype Observation = Observation(healthy: bool, proof: Option<int>, eligible: bool, busy: bool)

  /** What one check meets: a callback's answer is None if it raises. */
  datatype Visit = Visit(state: AdapterState, seen: Option<Observation>, probeRaises: bool, reset: Option<bool>,
                         submitted: bool, written: bool)

  /** The worker's one reserved job. */
  datatype Job = NoJob | Queued(cycle: Option<AdapterState>) | Running | Ended

  /** The clocks of the observation: since when what has been seen. */
  datatype Windows = Windows(
    lastObservation: int, proofFloor: int, outageSince: Option<int>, healthySince: Option<int>,
    leOutageSince: Option<int>, softResetAt: Option<int>)
  {
    function Cleared(now: int): Windows { Windows(lastObservation, now, None, None, None, None) }

    function WithoutOutage(): Windows { this.(outageSince := None, leOutageSince := None, softResetAt := None) }

    /** A gap in the observations restarts every window. */
    function Observing(now: int): Windows {
      var w := if now - lastObservation > HEALTH_FRESH_SECONDS then WithoutOutage().(healthySince := None) else this;
      w.(lastObservation := now)
    }

    predicate FreshProof(proof: Option<int>, now: int) {
      proof.Some? && proof.value >= proofFloor && now - proof.value <= HEALTH_FRESH_SECONDS
    }

    function Unwell(allowed: bool, now: int): Windows {
      this.(leOutageSince := if leOutageSince.None? then Some(now) else leOutageSince,
            outageSince := if !allowed then None else if outageSince.None? then Some(now) else outageSince)
    }

    predicate ResetDue(now: int) {
      softResetAt.None? && leOutageSince.Some? && now - leOutageSince.value >= SOFT_RESET_SECONDS
    }

    predicate ProbeDue(now: int) {
      && outageSince.Some? && now - outageSince.value >= OUTAGE_SECONDS
      && softResetAt.Some? && now - softResetAt.value >= RESET_SETTLE_SECONDS
    }

    predicate CaseStands(when: int, now: int) {
      now - when <= PROBE_AGE_SECONDS && outageSince.Some? && now - outageSince.value >= OUTAGE_SECONDS
    }
  }

  /** Who works: `reserved` and `job` are the worker's, `paused` counts the
      pauses of the profiles not yet resumed. */
  datatype Duty = Duty(
    running: bool, suspended: bool, active: bool, opPending: bool, resumeOwed: bool, cancelled: bool,
    reserved: bool, job: Job, paused: int)
  {
    function Invalidated(suspend: Option<bool>): Duty {
      var d := if suspend.Some? then this.(suspended := suspend.value) else this;
      if active then d.(cancelled := true)
      else if running && suspend == Some(false) && resumeOwed then d.(resumeOwed := false, paused := paused - 1)
      else d
    }

    predicate CanReserve(idle: bool) { idle && !reserved && job.NoJob? }

    function Taken(): Duty { this.(reserved := true, active := true, paused := paused + 1) }

    function Given(cycle: Option<AdapterState>): Duty { this.(opPending := true, job := Queued(cycle)) }

    function Returned(): Duty { this.(opPending := false, job := NoJob) }

    /** The end of `_finished`, when nothing is left to restore. */
    function Released(): Duty {
      var d := Returned().(active := false, reserved := false).Invalidated(Some(suspended));
      if running && suspended then d.(resumeOwed := true)
      else if running then d.(paused := d.paused - 1)
      else d
    }
  }

  datatype Ctl = Ctl(phone: string, generation: nat, identity: Option<(string, string)>, snapshotPending: bool,
                     probing: bool, w: Windows, duty: Duty, budget: Budget)
  {
    function Invalidated(now: int, suspend: Option<bool>): Ctl {
      this.(generation := generation + 1, snapshotPending := false, probing := false,
            w := w.Cleared(now), duty := duty.Invalidated(suspend))
    }

    /** The controller's identity is compared before anything else. */
    function Arrived(state: AdapterState, now: int): Ctl {
      if identity == Some((state.owner, state.address)) then this
      else Invalidated(now, None).(identity := Some((state.owner, state.address)))
    }

    function HealthyCheck(v: Visit, proof: Option<int>, now: int): Ctl {
      var c := this.(w := w.WithoutOutage());
      var asks := proof.None? || proof.value < w.proofFloor || now - proof.value >= HEALTH_PROBE_SECONDS;
      if budget.Known(v.state.address, phone) && budget.unspent then c
      else if asks && v.probeRaises then c.Invalidated(now, None)
      else if !w.FreshProof(proof, now) then c.(w := c.w.(healthySince := None))
      else
        var since := if w.healthySince.None? then now else w.healthySince.value;
        c.(w := c.w.(healthySince := Some(since)),
           budget := if v.written then Credited(v.state.address, now - since) else budget)
    }

    /** The record after `lasting` seconds of proven health. */
    function Credited(address: string, lasting: int): Budget {
      if !budget.Known(address, phone) then
        budget.(adapter := Some(address), phone := Some(phone), verified := true, unspent := true)
      else if !budget.unspent && lasting >= REARM_SECONDS then budget.(unspent := true)
      else budget
    }

    /** Why nothing may be done to the phone. */
    predicate OffLimits(state: AdapterState, seen: Observation, cleanup: bool) {
      !state.leResetSafe || !seen.eligible || !budget.Known(state.address, phone) || cleanup
    }

    predicate CycleAllowed(state: AdapterState, wall: int, cleanup: bool) {
      state.safe && budget.Permits(state.address, phone, wall) && !cleanup
    }

    function UnwellCheck(v: Visit, seen: Observation, now: int, wall: int, cleanup: bool): Ctl {
      var u := w.(healthySince := None);
      if seen.busy then this.(w := u)
      else if OffLimits(v.state, seen, cleanup) then this.(w := u.WithoutOutage())
      else this.(w := u.Unwell(CycleAllowed(v.state, wall, cleanup), now)).Escalated(v, now)
    }

    /** First an LE reset, then, once it has settled, the MAP probe. */
    function Escalated(v: Visit, now: int): Ctl {
      if probing then this
      else if w.ResetDue(now) then
        match v.reset
        case None => Invalidated(now, None)
        case Some(started) => if started then this.(w := w.(softResetAt := Some(now))) else this
      else if w.ProbeDue(now) then this.(probing := v.submitted)
      else this
    }

    /** `_check` */
    function Checked(v: Visit, now: int, wall: int, cleanup: bool): Ctl {
      var c := Arrived(v.state, now);
      if !v.state.powered then c.Invalidated(now, None)
      else
        var d := c.(w := c.w.Observing(now));
        match v.seen
        case None => d.Invalidated(now, None)
        case Some(seen) =>
          if seen.healthy then d.HealthyCheck(v, seen.proof, now) else d.UnwellCheck(v, seen, now, wall, cleanup)
    }

    /** `_snapshot_ready` */
    function Snapshot(v: Visit, from: nat, now: int, wall: int, pending: bool, cleanup: bool): Ctl {
      if from != generation || !duty.running || duty.suspended then this
      else
        var c := this.(snapshotPending := false);
        if duty.active || pending then c else c.Checked(v, now, wall, cleanup)
    }

    function SnapshotFailed(from: nat, now: int): Ctl {
      if from != generation || !duty.running then this else Invalidated(now, None)
    }

    function ProbeFailed(from: nat): Ctl {
      if from != generation then this else this.(probing := false, w := w.(outageSince := None))
    }

    /** Everything `_after_probe` asks before it spends the attempt. */
    predicate Decides(expected: AdapterState, current: AdapterState, seen: Observation, wall: int, cleanup: bool,
                      idle: bool)
    {
      && current == expected && current.safe && !seen.healthy && seen.eligible && !seen.busy
      && budget.Permits(current.address, phone, wall) && !cleanup
      && duty.CanReserve(idle)
    }

    function Spent(wall: int): Ctl {
      this.(budget := budget.(unspent := false, lastAttempt := Some(wall)),
            duty := duty.Taken().(opPending := true, cancelled := false))
    }

    /** `_after_probe`; `current` is None before the second snapshot, `seen` is
        None if observing raises, `begun` says that pausing and submitting worked. */
    function Answered(from: nat, expected: AdapterState, when: int, current: Option<AdapterState>,
                      seen: Option<Observation>, now: int, wall: int, pending: bool, cleanup: bool, idle: bool,
                      written: bool, begun: bool): Ctl
    {
      if from != generation || !duty.running || duty.suspended then this
      else if !w.CaseStands(when, now) then this.(probing := false)
      else if current.None? then this
      else
        var c := this.(probing := false);
        if seen.None? then c.Invalidated(now, None)
        else if !c.Decides(expected, current.value, seen.value, wall, cleanup, idle) || !written then c
        else c.Spent(wall).Cycling(current.value, begun, pending, now)
    }

    function Cycling(current: AdapterState, begun: bool, pending: bool, now: int): Ctl {
      if begun then this.(duty := duty.Given(Some(current))) else Finished(pending, now)
    }

    /** `_finished` */
    function Finished(pending: bool, now: int): Ctl {
      if pending then this.(duty := duty.Returned())
      else Invalidated(now, Some(duty.suspended)).(duty := duty.Released())
    }

    /** `_continue_restoration` */
    function Continued(pending: bool, idle: bool, pauseRaises: bool, submitted: bool, now: int): Ctl {
      if !duty.active && !duty.CanReserve(idle) then this
      else
        var c := if duty.active then this else this.(duty := duty.Taken());
        if !duty.active && pauseRaises then c.Finished(pending, now)
        else c.Submitting(pending, submitted, now)
    }

    function Submitting(pending: bool, submitted: bool, now: int): Ctl {
      if duty.opPending then this
      else if submitted then this.(duty := duty.Given(None))
      else Finished(pending, now)
    }

    /** `_tick`, once a fresh snapshot has been asked for if it is due. */
    function Ticked(blocked: bool, pending: bool, idle: bool, pauseRaises: bool, submitted: bool, readRaises: bool,
                    now: int): Ctl
    {
      if !duty.running || duty.suspended then this
      else if blocked then if duty.active then this else Invalidated(now, None)
      else if duty.active || pending then Continued(pending, idle, pauseRaises, submitted, now)
      else if snapshotPending then this
      else if readRaises then Invalidated(now, None)
      else this.(snapshotPending := true)
    }

    function Started(pending: bool, idle: bool, pauseRaises: bool, submitted: bool, now: int): Ctl {
      if duty.running then this
      else
        var c := this.(duty := duty.(running := true));
        if pending then c.Continued(pending, idle, pauseRaises, submitted, now) else c
    }

    function Stopped(now: int): Ctl { this.(duty := duty.(running := false)).Invalidated(now, None) }

    function Forgotten(now: int, written: bool): Ctl {
      var c := Invalidated(now, None);
      if written then c.(budget := budget.(verified := false, unspent := false)) else c
    }
  }

  function Fresh(phone: string, budget: Budget, now: int): Ctl {
    Ctl(phone, 0, None, false, false, Windows(now, now, None, None, None, None),
        Duty(false, false, false, false, false, false, false, NoJob, 0), budget)
  }

  // ---- the code -----------------------------------------------------------

  /** The callbacks' answers, the two clocks and the outcome of settings writes
      are parameters; the fields of the source are grouped in `w` and `duty`. */
  class BluetoothRecovery {
    const phone: string
    var budget: Budget
    var generation: nat
    var identity: Option<(string, string)>
    var snapshotPending: bool
    var probing: bool
    var w: Windows
    var duty: Duty

    function View(): Ctl
      reads this
    {
      Ctl(phone, generation, identity, snapshotPending, probing, w, duty, budget)
    }

    constructor (phone: string, budget: Budget, now: int)
      ensures View() == Fresh(phone, budget, now)
    {
      this.phone, this.budget := phone, budget;
      generation, identity, snapshotPending, probing := 0, None, false, false;
      w := Windows(now, now, None, None, None, None);
      duty := Duty(false, false, false, false, false, false, false, NoJob, 0);
    }

    method Pause()
      modifies this`duty
      ensures duty == old(duty).(paused := old(duty.paused) + 1)
    {
      duty := duty.(paused := duty.paused + 1);
    }

    method Resume()
      modifies this`duty
      ensures duty == old(duty).(paused := old(duty.paused) - 1)
    {
      duty := duty.(paused := duty.paused - 1);
    }

    method Invalidate(suspend: Option<bool>, now: int)
      modifies this
      ensures View() == old(View()).Invalidated(now, suspend)
    {
      generation := generation + 1;
      snapshotPending := false;
      if suspend.Some? {
        duty := duty.(suspended := suspend.value);
      }
      w := w.(outageSince := None);
      w := w.(leOutageSince := None);
      w := w.(healthySince := None);
      w := w.(softResetAt := None);
      probing := false;
      w := w.(proofFloor := now);
      if duty.active {
        duty := duty.(cancelled := true);
      } else if duty.running && suspend == Some(false) && duty.resumeOwed {
        duty := duty.(resumeOwed := false);
        Resume();
      }
    }

    method Stop(now: int)
      modifies this
      ensures View() == old(View()).Stopped(now)
    {
      duty := duty.(running := false);
      Invalidate(None, now);
    }

    method Save(record: Budget, written: bool) returns (saved: bool)
      modifies this`budget
      ensures saved == written && budget == if written then record else old(budget)
    {
      if written {
        budget := record;
      }
      return written;
    }

    method ForgetPhone(now: int, written: bool)
      modifies this
      ensures View() == old(View()).Forgotten(now, written)
    {
      Invalidate(None, now);
      var _ := Save(budget.(verified := false, unspent := false), written);
    }

    method Finished(pending: bool, now: int)
      modifies this
      ensures View() == old(View()).Finished(pending, now)
    {
      duty := duty.(opPending := false, job := NoJob);
      if pending {
        return;
      }
      duty := duty.(active := false);
      duty := duty.(reserved := false);
      Invalidate(Some(duty.suspended), now);
      if duty.running && duty.suspended {
        duty := duty.(resumeOwed := true);
      } else if duty.running {
        Resume();
      }
    }

    method ReserveIfIdle(idle: bool) returns (taken: bool)
      modifies this`duty
      ensures taken == old(duty).CanReserve(idle)
      ensures duty == if taken then old(duty).(reserved := true) else old(duty)
    {
      if !idle || duty.reserved || !duty.job.NoJob? {
        return false;
      }
      duty := duty.(reserved := true);
      return true;
    }

    method ContinueRestoration(pending: bool, idle: bool, pauseRaises: bool, submitted: bool, now: int)
      modifies this
      ensures View() == old(View()).Continued(pending, idle, pauseRaises, submitted, now)
    {
      if !duty.active {
        var taken := ReserveIfIdle(idle);
        if !taken {
          return;
        }
        duty := duty.(active := true);
        Pause();
        assert View() == old(View()).(duty := old(duty).Taken());
        if pauseRaises {
          Finished(pending, now);
          return;
        }
      }
      SubmitRestore(pending, submitted, now);
    }

    method SubmitRestore(pending: bool, submitted: bool, now: int)
      modifies this
      ensures View() == old(View()).Submitting(pending, submitted, now)
    {
      if duty.opPending {
        return;
      }
      if submitted {
        duty := duty.(opPending := true);
        duty := duty.(job := Queued(None));
      } else {
        Finished(pending, now);
      }
    }

    method Start(pending: bool, idle: bool, pauseRaises: bool, submitted: bool, now: int)
      modifies this
      ensures View() == old(View()).Started(pending, idle, pauseRaises, submitted, now)
    {
      if duty.running {
        return;
      }
      duty := duty.(running := true);
      if pending {
        ContinueRestoration(pending, idle, pauseRaises, submitted, now);
      }
    }

    /** `_tick`; returns whether a snapshot is asked for. */
    method Tick(blocked: bool, pending: bool, idle: bool, pauseRaises: bool, submitted: bool, readRaises: bool,
                now: int)
      returns (asks: bool)
      modifies this
      ensures View() == old(View()).Ticked(blocked, pending, idle, pauseRaises, submitted, readRaises, now)
      ensures asks ==> snapshotPending && !old(snapshotPending) && !duty.active && !pending
    {
      if !duty.running {
        return false;
      }
      if duty.suspended {
        return false;
      }
      if blocked {
        if !duty.active {
          Invalidate(None, now);
        }
        return false;
      }
      if duty.active || pending {
        ContinueRestoration(pending, idle, pauseRaises, submitted, now);
        return false;
      }
      if !snapshotPending {
        snapshotPending := true;
        if readRaises {
          Invalidate(None, now);
          return false;
        }
        return true;
      }
      return false;
    }

    method SnapshotFailed(from: nat, now: int)
      modifies this
      ensures View() == old(View()).SnapshotFailed(from, now)
    {
      if from != generation || !duty.running {
        return;
      }
      Invalidate(None, now);
    }

    method SnapshotReady(v: Visit, from: nat, now: int, wall: int, pending: bool, cleanup: bool)
      modifies this
      ensures View() == old(View()).Snapshot(v, from, now, wall, pending, cleanup)
    {
      if from != generation || !duty.running || duty.suspended {
        return;
      }
      snapshotPending := false;
      if duty.active || pending {
        return;
      }
      var raised := Check(v, now, wall, cleanup);
      if raised {
        SnapshotFailed(generation, now);
      }
    }

    /** `_check`; returns whether it raised, which always invalidates. */
    method Check(v: Visit, now: int, wall: int, cleanup: bool) returns (raised: bool)
      requires duty.running
      modifies this
      ensures duty.running && (if raised then View().Invalidated(now, None) else View())
                         == old(View()).Checked(v, now, wall, cleanup)
    {
      var met := Some((v.state.owner, v.state.address));
      if identity != met {
        Invalidate(None, now);
        identity := met;
      }
      if !v.state.powered {
        Invalidate(None, now);
        return false;
      }
      if now - w.lastObservation > HEALTH_FRESH_SECONDS {
        w := w.(healthySince := None);
        w := w.(outageSince := None);
        w := w.(leOutageSince := None);
        w := w.(softResetAt := None);
      }
      w := w.(lastObservation := now);
      if v.seen.None? {
        return true;
      }
      if v.seen.value.healthy {
        raised := CheckHealthy(v, v.seen.value.proof, now);
      } else {
        raised := CheckUnwell(v, v.seen.value, now, wall, cleanup);
      }
    }

    method CheckHealthy(v: Visit, proof: Option<int>, now: int) returns (raised: bool)
      modifies this
      ensures duty.running == old(duty.running)
      ensures (if raised then View().Invalidated(now, None) else View()) == old(View()).HealthyCheck(v, proof, now)
    {
      w := w.(outageSince := None);
      w := w.(leOutageSince := None);
      w := w.(softResetAt := None);
      if budget.Known(v.state.address, phone) && budget.unspent {
        return false;
      }
      if proof.None? || proof.value < w.proofFloor || now - proof.value >= HEALTH_PROBE_SECONDS {
        if v.probeRaises {
          return true;
        }
      }
      if proof.None? || proof.value < w.proofFloor || now - proof.value > HEALTH_FRESH_SECONDS {
        w := w.(healthySince := None);
        return false;
      }
      if w.healthySince.None? {
        w := w.(healthySince := Some(now));
      }
      if !budget.Known(v.state.address, phone) {
        var record := budget.(adapter := Some(v.state.address), phone := Some(phone), verified := true,
                              unspent := true);
        var _ := Save(record, v.written);
      } else if !budget.unspent && now - w.healthySince.value >= REARM_SECONDS {
        var _ := Save(budget.(unspent := true), v.written);
      }
      return false;
    }

    method CheckUnwell(v: Visit, seen: Observation, now: int, wall: int, cleanup: bool) returns (raised: bool)
      modifies this
      ensures duty.running == old(duty.running)
      ensures (if raised then View().Invalidated(now, None) else View())
              == old(View()).UnwellCheck(v, seen, now, wall, cleanup)
    {
      w := w.(healthySince := None);
      if seen.busy {
        return false;
      }
      if !v.state.leResetSafe || !seen.eligible || !budget.Known(v.state.address, phone) || cleanup {
        w := w.(outageSince := None);
        w := w.(leOutageSince := None);
        w := w.(softResetAt := None);
        return false;
      }
      if w.leOutageSince.None? {
        w := w.(leOutageSince := Some(now));
      }
      var cycleAllowed := v.state.safe && budget.Permits(v.state.address, phone, wall) && !cleanup;
      if !cycleAllowed {
        w := w.(outageSince := None);
      } else if w.outageSince.None? {
        w := w.(outageSince := Some(now));
      }
      raised := Escalate(v, now, cycleAllowed);
    }

    method Escalate(v: Visit, now: int, cycleAllowed: bool) returns (raised: bool)
      requires w.leOutageSince.Some? && (!cycleAllowed ==> w.outageSince.None?)
      modifies this
      ensures duty.running == old(duty.running)
      ensures (if raised then View().Invalidated(now, None) else View()) == old(View()).Escalated(v, now)
    {
      if probing {
        return false;
      }
      if w.softResetAt.None? && now - w.leOutageSince.value >= SOFT_RESET_SECONDS {
        if v.reset.None? {
          return true;
        }
        if v.reset.value {
          w := w.(softResetAt := Some(now));
        }
        return false;
      }
      if !cycleAllowed || w.outageSince.None? {
        return false;
      }
      if now - w.outageSince.value < OUTAGE_SECONDS || w.softResetAt.None?
         || now - w.softResetAt.value < RESET_SETTLE_SECONDS {
        return false;
      }
      probing := true;
      if !v.submitted {
        probing := false;
      }
      return false;
    }

    method ProbeFailed(from: nat)
      modifies this
      ensures View() == old(View()).ProbeFailed(from)
    {
      if from != generation {
        return;
      }
      probing := false;
      w := w.(outageSince := None);
    }

    /** `_after_probe`; returns whether it asks for a second snapshot. */
    method AfterProbe(from: nat, expected: AdapterState, when: int, current: Option<AdapterState>,
                      seen: Option<Observation>, now: int, wall: int, pending: bool, cleanup: bool, idle: bool,
                      written: bool, begun: bool) returns (asks: bool)
      modifies this
      ensures View() == old(View()).Answered(from, expected, when, current, seen, now, wall, pending, cleanup, idle,
                                             written, begun)
      ensures asks ==> current.None? && View() == old(View())
      ensures budget != old(budget) ==>
                && current == Some(expected) && expected.safe && old(budget).Permits(expected.address, phone, wall)
                && budget == old(budget).(unspent := false, lastAttempt := Some(wall))
    {
      if from != generation || !duty.running || duty.suspended {
        return false;
      }
      if now - when > PROBE_AGE_SECONDS || w.outageSince.None? || now - w.outageSince.value < OUTAGE_SECONDS {
        probing := false;
        return false;
      }
      if current.None? {
        return true;
      }
      probing := false;
      if seen.None? {
        Invalidate(None, now);
        return false;
      }
      if current.value != expected || !current.value.safe || seen.value.healthy
         || !seen.value.eligible || seen.value.busy
         || !(budget.Permits(current.value.address, phone, wall) && !cleanup) {
        return false;
      }
      SpendAttempt(current.value, now, wall, pending, idle, written, begun);
      return false;
    }

    method SpendAttempt(current: AdapterState, now: int, wall: int, pending: bool, idle: bool, written: bool,
                        begun: bool)
      modifies this
      ensures View() == if !old(duty).CanReserve(idle) || !written then old(View())
                        else old(View()).Spent(wall).Cycling(current, begun, pending, now)
    {
      var taken := ReserveIfIdle(idle);
      if !taken {
        return;
      }
      var saved := Save(budget.(unspent := false, lastAttempt := Some(wall)), written);
      if !saved {
        duty := duty.(reserved := false);
        return;
      }
      Activate();
      assert View() == old(View()).Spent(wall);
      StartCycle(current, begun, pending, now);
    }

    method Activate()
      requires duty.reserved
      modifies this`duty
      ensures duty == old(duty).Taken().(opPending := true, cancelled := false)
    {
      duty := duty.(active := true, opPending := true, cancelled := false);
      Pause();
    }

    method StartCycle(current: AdapterState, begun: bool, pending: bool, now: int)
      requires duty.opPending
      modifies this
      ensures View() == old(View()).Cycling(current, begun, pending, now)
    {
      if begun {
        duty := duty.(job := Queued(Some(current)));
      } else {
        Finished(pending, now);
      }
    }
  }
}
