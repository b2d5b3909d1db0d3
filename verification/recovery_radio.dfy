/** The recovery and the radio as one machine: the main loop, the worker, the
    settings file and crashes of `RecoveryRuns` beside the radio and its delayed
    signals of `RestoreRadio` (bluetooth_recovery.py:222-859). */
module RecoveryRadio {
  import opened Options
  import opened RestoreJournal
  import opened Recovery
  import opened RecoveryHistory
  import opened RecoveryRuns
  import R = RestoreRadio

  /** `ours`: the process that sent the last power-off still runs. */
  datatype Whole = Whole(s: Sys, r: R.Radio, duty: R.Duty, ours: bool)

  datatype Move =
    | Main(e: Happening)     // the daemon
    | Air(h: R.Happening)    // a signal dispatched, or something outside the daemon

  function Seen(w: Whole): R.System { R.System(w.s.a, w.r, w.duty) }

  /** What a step of the daemon does to the adapter. */
  function AdapterPart(s: Sys, e: Happening): Option<Event> {
    match e
    case Tick(blocked, cleaned, _, _, _, _) => if TickCleans(s, blocked) then Some(Cleanup(cleaned)) else None
    case WorkerCycles(t, ok) => Some(BeginCycle(t, ok))
    case WorkerRestores(ok) => Some(Restore(ok))
    case WorkerSteps(step) => Some(step)
    case Signal(step) => Some(step)
    case Crash(path, device, _) => Some(Restart(path, device))
    case _ => None
  }

  /** What a move is to the radio. */
  function RadioPart(w: Whole, m: Move): Option<R.Happening> {
    match m
    case Main(e) =>
      var part := AdapterPart(w.s, e);
      if part.None? then None else Some(R.Daemon(part.value))
    case Air(h) => Some(h)
  }

  /** What a move is to the daemon. */
  function DaemonPart(w: Whole, m: Move): Option<Happening> {
    match m
    case Main(e) => Some(e)
    case Air(h) =>
      if h.Dispatched? && w.r.queue != [] then Some(Signal(PoweredChanged(w.r.queue[0], h.ok))) else None
  }

  predicate Allowed(w: Whole, m: Move) {
    && (match m
        case Main(e) => Possible(w.s, e) && !(e.Signal? && e.step.PoweredChanged?)
        case Air(h) => !h.Daemon?)
    && (RadioPart(w, m).Some? ==> R.Possible(Seen(w), RadioPart(w, m).value))
  }

  predicate Clean(w: Whole, m: Move) { RadioPart(w, m).Some? ==> R.Clean(Seen(w), RadioPart(w, m).value) }

  lemma DaemonPartIsPossible(w: Whole, m: Move)
    requires Allowed(w, m)
    ensures DaemonPart(w, m).Some? ==> Possible(w.s, DaemonPart(w, m).value)
  {
  }

  function Next(w: Whole, m: Move): Whole
    requires Allowed(w, m) && Linked(w.s.a)
  {
    DaemonPartIsPossible(w, m);
    var e, h := DaemonPart(w, m), RadioPart(w, m);
    var s := if e.Some? then After(w.s, e.value) else w.s;
    var seen := if h.Some? then R.Next(Seen(w), h.value) else Seen(w);
    Whole(s, seen.r, seen.duty, if e.None? then w.ours else OursAfter(w, e.value))
  }

  predicate OursAfter(w: Whole, e: Happening) { !e.Crash? && (w.ours || SendsPowerOff(w.s, e)) }

  // ---- the two machines agree ---------------------------------------------

  /** The daemon's adapter is the radio's. */
  lemma PartsAgree(w: Whole, m: Move)
    requires Allowed(w, m) && Linked(w.s.a)
    ensures var h := RadioPart(w, m);
            Seen(Next(w, m)) == if h.Some? then R.Next(Seen(w), h.value) else Seen(w)
  {
    DaemonPartIsPossible(w, m);
  }

  // ---- while there is something to restore --------------------------------

  /** Restoration that the running daemon has not taken up leaves no probe of an
      earlier case behind. */
  predicate Quiet(s: Sys) { s.a.RestorePending() && !s.c.duty.active ==> !s.c.probing }

  lemma PendingBegins(s: Sys, e: Happening)
    requires Possible(s, e) && Linked(s.a) && !s.a.RestorePending() && Stepped(s, e).0.RestorePending()
    ensures e.WorkerCycles? || e.Crash?
  {
  }

  lemma ProbeBegins(s: Sys, e: Happening)
    requires Possible(s, e) && Linked(s.a) && !s.c.probing && Stepped(s, e).1.probing
    ensures e.SnapshotReady? && !s.a.RestorePending()
  {
  }

  lemma StaysQuiet(s: Sys, e: Happening)
    requires Possible(s, e) && Linked(s.a) && Settled(s) && Quiet(s)
    ensures Quiet(After(s, e))
  {
    var t := After(s, e);
    assert t.a == Stepped(s, e).0 && t.c == Stepped(s, e).1;
    if t.a.RestorePending() && t.c.probing && !e.Crash? {
      if !s.a.RestorePending() {
        PendingBegins(s, e);
      } else if s.c.duty.active {
        StaysActive(s, e);
      } else {
        ProbeBegins(s, e);
      }
    }
  }

  /** While restoration is pending nothing is spent, claimed or rearmed. */
  lemma RecordStays(s: Sys, e: Happening)
    requires Possible(s, e) && Linked(s.a) && Settled(s) && Quiet(s) && Probing(s.c, s.probe, s.now)
    requires s.a.RestorePending() && (e.SnapshotReady? || e.ProbeAnswer?)
    ensures Stepped(s, e).1.budget == s.c.budget
  {
  }

  /** The power-off that the `i`-th mark tells of is the last thing done. */
  ghost predicate OffAt(h: seq<Mark>, i: nat) {
    i < |h| && h[i].PowerOff? && forall k | i < k < |h| :: h[k].Forgotten?
  }

  ghost predicate LastIsOff(h: seq<Mark>) { exists i: nat :: OffAt(h, i) }

  lemma OffStaysLast(h: seq<Mark>)
    requires LastIsOff(h)
    ensures LastIsOff(h + [Forgotten])
  {
    var i: nat :| OffAt(h, i);
    assert OffAt(h + [Forgotten], i);
  }

  lemma OffIsLast(h: seq<Mark>)
    ensures LastIsOff(h + [PowerOff])
  {
    assert OffAt(h + [PowerOff], |h|);
  }

  /** The attempt of the power-off in force is spent and on disk. */
  ghost predicate Spent(s: Sys) { !s.disk.unspent && LastIsOff(s.history) }

  lemma StaysSpent(s: Sys, e: Happening, origin: Budget)
    requires Possible(s, e) && Sound(s, origin) && Quiet(s) && Spent(s)
    requires s.a.RestorePending() && !s.a.pc.Journaled?
    ensures Spent(After(s, e))
  {
    if e.SnapshotReady? || e.ProbeAnswer? {
      RecordStays(s, e);
    } else if e.Forget? {
      OffStaysLast(s.history);
    } else if !e.Crash? {
      StepKeepsWindows(s, e);
    }
  }

  lemma SendingSpends(s: Sys, e: Happening, origin: Budget)
    requires Sound(s, origin) && SendsPowerOff(s, e)
    ensures Spent(After(s, e)) && After(s, e).c.duty.active
  {
    OffIsLast(s.history);
  }

  // ---- what every move keeps ----------------------------------------------

  /** Power-off is on its way, or has darkened the radio: the budget is spent,
      and the process that sent it still holds worker and profiles. */
  ghost predicate Obliged(w: Whole) { !w.duty.Free? ==> Spent(w.s) && (w.ours ==> w.s.c.duty.active) }

  ghost predicate Covered(w: Whole, origin: Budget) {
    Sound(w.s, origin) && R.Sure(Seen(w)) && Quiet(w.s) && Obliged(w)
  }

  lemma StaysObliged(w: Whole, e: Happening, origin: Budget)
    requires Possible(w.s, e) && Covered(w, origin) && !w.duty.Free?
    ensures Spent(After(w.s, e)) && (w.ours && !e.Crash? ==> After(w.s, e).c.duty.active)
    ensures !SendsPowerOff(w.s, e)
  {
    StaysSpent(w.s, e, origin);
    if w.ours && !e.Crash? {
      StaysActive(w.s, e);
    }
  }

  lemma MoveKeepsObliged(w: Whole, m: Move, origin: Budget)
    requires Allowed(w, m) && Covered(w, origin)
    ensures Obliged(Next(w, m))
  {
    DaemonPartIsPossible(w, m);
    var e := DaemonPart(w, m);
    if w.duty.Free? && !Next(w, m).duty.Free? {
      SendingSpends(w.s, e.value, origin);
    } else if !w.duty.Free? && e.Some? {
      StaysObliged(w, e.value, origin);
    }
  }

  lemma MoveKeepsWhole(w: Whole, m: Move, origin: Budget)
    requires Allowed(w, m) && Clean(w, m) && Covered(w, origin)
    ensures Covered(Next(w, m), origin)
  {
    DaemonPartIsPossible(w, m);
    PartsAgree(w, m);
    MoveKeepsObliged(w, m, origin);
    if RadioPart(w, m).Some? {
      R.StepKeepsSure(Seen(w), RadioPart(w, m).value);
    }
    if DaemonPart(w, m).Some? {
      StepKeepsSound(w.s, DaemonPart(w, m).value, origin);
      StaysQuiet(w.s, DaemonPart(w, m).value);
    }
  }

  // ---- runs ---------------------------------------------------------------

  /** `ms` may happen one after the other from `w`, cleanly, and leads to `t`. */
  ghost predicate LeadsTo(w: Whole, ms: seq<Move>, t: Whole)
    decreases |ms|
  {
    if ms == [] then w == t
    else Linked(w.s.a) && Allowed(w, ms[0]) && Clean(w, ms[0]) && LeadsTo(Next(w, ms[0]), ms[1..], t)
  }

  /** The first start, whatever the settings hold and the radio does. */
  function First(path: string, device: string, phone: string, origin: Budget, journal: Option<Raw>, now: int, wall: int,
                 r: R.Radio): Whole
  {
    Whole(FirstStart(path, device, phone, origin, journal, now, wall), r, R.Free, false)
  }

  ghost predicate Reached(w: Whole, origin: Budget) {
    exists path, device, phone, journal, now, wall, r, ms ::
      LeadsTo(First(path, device, phone, origin, journal, now, wall, r), ms, w)
  }

  lemma {:induction false} LeadsKeepsWhole(w: Whole, ms: seq<Move>, t: Whole, origin: Budget)
    requires Covered(w, origin) && LeadsTo(w, ms, t)
    ensures Covered(t, origin)
    decreases |ms|
  {
    if ms != [] {
      MoveKeepsWhole(w, ms[0], origin);
      LeadsKeepsWhole(Next(w, ms[0]), ms[1..], t, origin);
    }
  }

  /** The daemon's part of a run is a run of the daemon. */
  lemma {:induction false} DaemonLeads(w: Whole, ms: seq<Move>, t: Whole) returns (hs: seq<Happening>)
    requires LeadsTo(w, ms, t)
    ensures Leads(w.s, hs, t.s)
    decreases |ms|
  {
    if ms == [] {
      hs := [];
    } else {
      DaemonPartIsPossible(w, ms[0]);
      hs := DaemonLeads(Next(w, ms[0]), ms[1..], t);
      var e := DaemonPart(w, ms[0]);
      if e.Some? {
        assert ([e.value] + hs)[1..] == hs;
        hs := [e.value] + hs;
      }
    }
  }

  lemma ReachedIsReachable(w: Whole, origin: Budget)
    requires Reached(w, origin)
    ensures Reachable(w.s, origin) && Covered(w, origin)
  {
    var path, device, phone, journal, now, wall, r, ms :|
      LeadsTo(First(path, device, phone, origin, journal, now, wall, r), ms, w);
    var first := First(path, device, phone, origin, journal, now, wall, r);
    FirstStartIsSound(path, device, phone, origin, journal, now, wall);
    LeadsKeepsWhole(first, ms, w, origin);
    var hs := DaemonLeads(first, ms, w);
  }

  /** The attempt at `a` is the one of the power-off at `p`, and nothing but a
      forgotten phone followed that. */
  ghost predicate PaidBy(h: seq<Mark>, a: nat, p: nat) {
    && a < p < |h| && h[a].Attempt? && OffAt(h, p)
    && forall k | a < k < p :: !h[k].Attempt? && !h[k].PowerOff?
  }

  /** The attempt at `a` came an hour after the one at `x` and, for a pair
      neither changed nor forgotten, after ten minutes of proven health. */
  ghost predicate Apart(h: seq<Mark>, x: nat, a: nat)
    requires x < a < |h| && h[x].Attempt? && h[a].Attempt?
  {
    && h[a].wall - h[x].wall >= HOURLY_LIMIT_SECONDS
    && (SamePair(h, x, a, h[x].address, h[x].phone) ==>
          exists k | x < k < a :: h[k].Rearmed? && SustainedHealth(h[k].checks))
  }

  /** The last power-off has an attempt of its own, on disk and apart from all
      earlier ones. */
  ghost predicate Afforded(s: Sys, a: nat, p: nat) {
    && PaidBy(s.history, a, p) && s.disk.lastAttempt == Some(s.history[a].wall)
    && forall x: nat | x < a && s.history[x].Attempt? :: Apart(s.history, x, a)
  }

  lemma LastOffIsAfforded(s: Sys, origin: Budget) returns (a: nat, p: nat)
    requires Recorded(s, origin) && LastIsOff(s.history)
    ensures Afforded(s, a, p)
  {
    var h := s.history;
    p :| OffAt(h, p);
    LawfulAt(origin, h, p);
    a := ArmedByAttempt(h[..p]);
    assert forall k | a < k < p :: h[k] == h[..p][k];
    LastAttemptStands(origin, h, a, |h|);
    assert h[..|h|] == h;
    forall x: nat | x < a && h[x].Attempt?
      ensures Apart(h, x, a)
    {
      AttemptsAreAnHourApart(origin, h, x, a);
      if SamePair(h, x, a, h[x].address, h[x].phone) {
        HealthBetweenAttempts(origin, h, x, a);
      }
    }
  }

  lemma NoCycleBegins(s: Sys, e: Happening)
    requires Settled(s) && Quiet(s) && Probing(s.c, s.probe, s.now)
    requires s.a.RestorePending() && !s.a.pc.Journaled?
    ensures !SendsPowerOff(s, e) && !StartsCycle(s, e)
  {
    if Possible(s, e) && Linked(s.a) && e.ProbeAnswer? {
      RecordStays(s, e);
    }
  }

  /** Budget, reservation and the radio's true state at once. In every state
      that clean moves reach, over crashes and restarts at any step, while the
      radio is off because of us: the journal is on disk and a crash at that
      very point would find it; the attempt that led to it is spent, on disk
      and apart from all earlier ones, and nothing was attempted, rearmed or
      claimed since; no further power-off or cycle can begin; and, if the
      process that sent power-off still runs, the worker is reserved and, until
      it is told to stop, profiles are paused. */
  lemma {:induction false} DarkRadioIsCoveredFor(w: Whole, origin: Budget)
    requires Reached(w, origin) && w.duty.Dark?
    ensures !w.r.on && w.s.a.RestorePending() && w.s.a.journal.Some?
    ensures w.s.a.Restarted(w.s.a.path, w.s.a.device).RestorePending()
    ensures !w.s.disk.unspent && exists a: nat, p: nat :: Afforded(w.s, a, p)
    ensures forall e :: !SendsPowerOff(w.s, e) && !StartsCycle(w.s, e)
    ensures w.ours ==> w.s.c.duty.reserved && (!w.s.halted ==> w.s.c.duty.paused == 1)
  {
    ReachedIsReachable(w, origin);
    var a, p := LastOffIsAfforded(w.s, origin);
    JournalRoundTrip(w.s.a.txn.value, PhaseOff, w.s.a.path, w.s.a.device, w.s.a.path, w.s.a.device);
    JournalRoundTrip(w.s.a.txn.value, PhaseOn, w.s.a.path, w.s.a.device, w.s.a.path, w.s.a.device);
    forall e
      ensures !SendsPowerOff(w.s, e) && !StartsCycle(w.s, e)
    {
      NoCycleBegins(w.s, e);
    }
  }
}
