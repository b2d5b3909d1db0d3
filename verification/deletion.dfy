/** Asynchronous deletion of conversations (backend_operations.py:1330-1410 and
    1583-1611): rows are resolved on a worker while the archive goes on
    changing, and erased only if nothing changed meanwhile.

    `State` is one backend with its archive; a run interleaves the deletion's
    callbacks with changes by everyone else. */
module Deletion {
  import opened Options
  import opened Archive

  const RETRIES := 2

  /** `_conversation_version`; the archive's revision reads (0, 0, 0) while
      storage cannot be read. */
  datatype ConversationVersion = ConversationVersion(generation: nat, history: Revision)

  datatype Phase =
    | Idle
    | Resolving(version: ConversationVersion,
                base: Table,              // the archive when the version was taken
                readable: bool,           // and whether it could be read
                read: map<nat, Row>)      // what the worker has read since
    | Refreshing

  /** Rows erased by one commit, with the archive they were erased from. */
  datatype Erasure = Erasure(ids: set<nat>, base: Table, read: map<nat, Row>, archive: Table)

  datatype State = State(
    archive: Table,
    generation: nat,
    usable: bool,       // storage can be read, which is also when it can be written
    deleting: bool,
    retries: int,
    phase: Phase,
    accepted: nat,      // deletions that did not raise at once
    succeeded: nat,     // success callbacks
    failed: nat,        // failure callbacks
    granted: nat,       // retries granted to the current deletion
    erased: seq<Erasure>)

  datatype Event =
    | Background(op: Op)
    | ConversationsChanged                  // a roster, star or contact change
    | StorageChanged(usable: bool)
    | Request(started: bool)                // started: planning and submitting did not raise
    | WorkerReads(ids: set<nat>)
    | Resolved(ids: set<nat>, commitRaises: bool, tidyRaises: bool)
    | ResolveFailed
    | RefreshReady(started: bool)
    | RefreshStale
    | RefreshFailed

  ghost function CurrentVersion(s: State): ConversationVersion {
    ConversationVersion(s.generation, if s.usable then RevisionOf(s.archive) else Revision(0, 0, 0))
  }

  ghost predicate Enabled(s: State, e: Event) {
    match e
    case WorkerReads(ids) => s.phase.Resolving?
    case Resolved(ids, _, _) => s.phase.Resolving? && ids <= s.phase.read.Keys
    case ResolveFailed => s.phase.Resolving?
    case RefreshReady(_) => s.phase.Refreshing?
    case RefreshStale => s.phase.Refreshing?
    case RefreshFailed => s.phase.Refreshing?
    case _ => true
  }

  ghost function Failed(s: State): State {
    s.(deleting := false, phase := Idle, failed := s.failed + 1)
  }

  /** Plan again from a fresh projection and submit the resolving job. */
  ghost function Attempted(s: State): State {
    s.(phase := Resolving(CurrentVersion(s), s.archive, s.usable, map[]))
  }

  ghost function Stale(s: State): State {
    var retried := s.(retries := s.retries - 1);
    if retried.retries >= 0 then retried.(phase := Refreshing, granted := s.granted + 1)
    else Failed(retried)
  }

  /** `_commit_deletion`. Nothing is erased unless some row is still there
      and storage is writable. */
  ghost function Committed(s: State, ids: set<nat>, commitRaises: bool, tidyRaises: bool): State
    requires s.phase.Resolving?
  {
    var present := ids * s.archive.rows.Keys;
    if commitRaises || !s.usable || present == {} then Failed(s)
    else
      var done := s.(archive := Apply(s.archive, Delete(ids)),
                     erased := s.erased + [Erasure(present, s.phase.base, s.phase.read, s.archive)]);
      if tidyRaises then Failed(done)
      else done.(generation := s.generation + 1, deleting := false, phase := Idle, succeeded := s.succeeded + 1)
  }

  ghost function Step(s: State, e: Event): State
    requires Enabled(s, e)
  {
    match e
    case Background(op) => s.(archive := Apply(s.archive, op))
    case ConversationsChanged => s.(generation := s.generation + 1)
    case StorageChanged(usable) => s.(usable := usable)
    case Request(started) =>
      if s.deleting || !started then s
      else Attempted(s.(deleting := true, retries := RETRIES, granted := 0, accepted := s.accepted + 1))
    case WorkerReads(ids) =>
      s.(phase := s.phase.(read := s.phase.read + map id | id in ids && id in s.archive.rows :: s.archive.rows[id]))
    case Resolved(ids, commitRaises, tidyRaises) =>
      if CurrentVersion(s) != s.phase.version then Stale(s) else Committed(s, ids, commitRaises, tidyRaises)
    case ResolveFailed =>
      if CurrentVersion(s) != s.phase.version then Stale(s) else Failed(s)
    case RefreshReady(started) => if started then Attempted(s) else Failed(s)
    case RefreshStale => Stale(s)
    case RefreshFailed => Failed(s)
  }

  // ---- what every step keeps ----------------------------------------------

  /** What was read lies between the archive at the attempt and now. */
  ghost predicate Between(base: Table, read: map<nat, Row>, archive: Table) {
    && base.Valid() && Follows(base, archive)
    && (forall id | id in read && id in archive.rows && base.changes == archive.changes ::
          Same(read[id], archive.rows[id]))
    && (forall id | id in read && id !in archive.rows :: id < archive.next)
  }

  ghost predicate Accounting(s: State) {
    && s.deleting == !s.phase.Idle?
    && s.accepted == s.succeeded + s.failed + (if s.deleting then 1 else 0)
    && (s.deleting ==> s.retries == RETRIES - s.granted && s.retries >= 0)
    && s.granted <= RETRIES
  }

  ghost predicate Inv(s: State) {
    && s.archive.Valid()
    && Accounting(s)
    && (s.phase.Resolving? ==>
          && Between(s.phase.base, s.phase.read, s.archive)
          && s.phase.version.history
             == (if s.phase.readable then RevisionOf(s.phase.base) else Revision(0, 0, 0)))
    && forall i | 0 <= i < |s.erased| :: CurrentEvidence(s.erased[i])
  }

  /** The rows erased are as the worker read them, and the archive is the one
      the deletion was planned from. */
  ghost predicate CurrentEvidence(e: Erasure) {
    && e.ids <= e.archive.rows.Keys
    && e.base.rows.Keys == e.archive.rows.Keys
    && (forall id | id in e.archive.rows :: Same(e.base.rows[id], e.archive.rows[id]))
    && (forall id | id in e.ids :: id in e.read && Same(e.read[id], e.archive.rows[id]))
  }

  lemma BetweenFollows(base: Table, read: map<nat, Row>, archive: Table, after: Table)
    requires Between(base, read, archive) && archive.Valid() && Follows(archive, after)
    ensures Between(base, read, after)
  {
    FollowsTransitive(base, archive, after);
    forall id | id in read && id in after.rows && base.changes == after.changes
      ensures Same(read[id], after.rows[id])
    {
      assert id in archive.rows;
    }
  }

  /** With the version unchanged, the archive is still the base; a version
      taken from unreadable storage only matches an empty archive. */
  lemma SameVersionSameArchive(s: State)
    requires Inv(s) && s.phase.Resolving? && CurrentVersion(s) == s.phase.version
    requires s.archive.rows.Keys != {} && s.usable
    ensures s.phase.base.rows.Keys == s.archive.rows.Keys && s.phase.base.changes == s.archive.changes
    ensures forall id | id in s.archive.rows :: Same(s.phase.base.rows[id], s.archive.rows[id])
  {
    assert |s.archive.rows| == |s.archive.rows.Keys|;
    if s.phase.readable {
      RevisionFixesArchive(s.phase.base, s.archive);
    }
  }

  lemma CommitKeepsInv(s: State, ids: set<nat>, commitRaises: bool, tidyRaises: bool)
    requires Inv(s) && s.phase.Resolving? && ids <= s.phase.read.Keys
    requires CurrentVersion(s) == s.phase.version
    ensures Inv(Committed(s, ids, commitRaises, tidyRaises))
  {
    var present := ids * s.archive.rows.Keys;
    if !commitRaises && s.usable && present != {} {
      ApplyFollows(s.archive, Delete(ids));
      SameVersionSameArchive(s);
      assert CurrentEvidence(Erasure(present, s.phase.base, s.phase.read, s.archive));
    }
  }

  lemma BackgroundKeepsInv(s: State, op: Op)
    requires Inv(s)
    ensures Inv(Step(s, Background(op)))
  {
    ApplyFollows(s.archive, op);
    if s.phase.Resolving? {
      BetweenFollows(s.phase.base, s.phase.read, s.archive, Apply(s.archive, op));
    }
  }

  lemma StepKeepsInv(s: State, e: Event)
    requires Inv(s) && Enabled(s, e)
    ensures Inv(Step(s, e))
  {
    match e
    case Background(op) => BackgroundKeepsInv(s, op);
    case WorkerReads(ids) =>
    case Resolved(ids, commitRaises, tidyRaises) =>
      if CurrentVersion(s) == s.phase.version {
        CommitKeepsInv(s, ids, commitRaises, tidyRaises);
      }
    case ConversationsChanged =>
    case StorageChanged(_) =>
    case Request(_) =>
    case ResolveFailed =>
    case RefreshReady(_) =>
    case RefreshStale =>
    case RefreshFailed =>
  }

  ghost function Run(s: State, events: seq<Event>): State
    decreases |events|
  {
    if events == [] then s
    else Run(if Enabled(s, events[0]) then Step(s, events[0]) else s, events[1..])
  }

  ghost predicate Initial(s: State) {
    && s.archive.Valid() && !s.deleting && s.phase.Idle? && s.granted == 0
    && s.accepted == s.succeeded == s.failed == 0 && s.erased == []
  }

  lemma {:induction false} RunKeepsInv(s: State, events: seq<Event>)
    requires Inv(s)
    ensures Inv(Run(s, events))
    decreases |events|
  {
    if events != [] {
      if Enabled(s, events[0]) {
        StepKeepsInv(s, events[0]);
      }
      RunKeepsInv(if Enabled(s, events[0]) then Step(s, events[0]) else s, events[1..]);
    }
  }

  /** Whatever interleaves: every row ever erased was resolved from the archive
      it was erased from; every accepted deletion but the one running has ended
      in exactly one callback, and none was granted more than two retries. */
  lemma {:induction false} DeletionsAreCurrentAndEndOnce(s: State, events: seq<Event>)
    requires Initial(s)
    ensures var t := Run(s, events);
            && (forall i | 0 <= i < |t.erased| :: CurrentEvidence(t.erased[i]))
            && t.accepted == t.succeeded + t.failed + (if t.deleting then 1 else 0)
            && t.granted <= RETRIES
            && t.deleting == !t.phase.Idle?
  {
    RunKeepsInv(s, events);
  }

  /** Each callback either ends the deletion or uses up a retry, except for
      the refresh that follows a retry and starts the next attempt. */
  ghost function Rank(s: State): int {
    match s.phase
    case Idle => 0
    case Resolving(_, _, _, _) => 2 * s.retries + 1
    case Refreshing => 2 * s.retries + 2
  }

  lemma CallbacksMakeProgress(s: State, e: Event)
    requires Inv(s) && Enabled(s, e)
    requires e.Resolved? || e.ResolveFailed? || e.RefreshReady? || e.RefreshStale? || e.RefreshFailed?
    ensures 0 <= Rank(Step(s, e)) < Rank(s)
  {
  }

  // ---- the code -----------------------------------------------------------

  /** `_deleting` and what the closures of `delete_threads_async` capture. The
      callbacks take the version the worker's reply finds. */
  class ThreadDeletion {
    var deleting: bool
    var retries: int
    var version: Option<ConversationVersion>  // of the attempt being resolved
    var refreshing: bool
    var accepted: nat
    var succeeded: nat
    var failed: nat

    ghost predicate Matches(s: State)
      reads this
    {
      && deleting == s.deleting && (deleting ==> retries == s.retries)
      && accepted == s.accepted && succeeded == s.succeeded && failed == s.failed
      && refreshing == s.phase.Refreshing?
      && version == (if s.phase.Resolving? then Some(s.phase.version) else None)
    }

    constructor ()
      ensures forall s | Initial(s) :: Matches(s)
    {
      deleting, retries, version, refreshing := false, 0, None, false;
      accepted, succeeded, failed := 0, 0, 0;
    }

    method Fail()
      modifies this
      ensures !deleting && version == None && !refreshing && failed == old(failed) + 1
      ensures accepted == old(accepted) && succeeded == old(succeeded)
    {
      deleting, version, refreshing := false, None, false;
      failed := failed + 1;
    }

    method Retry() returns (granted: bool)
      modifies this`retries
      ensures retries == old(retries) - 1 && granted == (retries >= 0)
    {
      retries := retries - 1;
      return retries >= 0;
    }

    /** `delete_threads_async`; returns whether it raised. */
    method DeleteThreadsAsync(ghost s: State, now: ConversationVersion, started: bool) returns (raised: bool)
      requires Matches(s) && now == CurrentVersion(s) && Inv(s)
      modifies this
      ensures Matches(Step(s, Request(started)))
      ensures raised <==> old(deleting) || !started
    {
      if deleting {
        return true;
      }
      retries := RETRIES;
      deleting := true;
      if !started {
        deleting := false;
        return true;
      }
      accepted := accepted + 1;
      version := Some(now);
      return false;
    }

    /** `_commit_deletion` and the success callback; `removed` is what
        `delete_event_rows` returns. */
    method Commit(ghost s: State, ids: set<nat>, removed: nat, commitRaises: bool, tidyRaises: bool)
      requires Matches(s) && s.phase.Resolving?
      requires removed == if s.usable then |ids * s.archive.rows.Keys| else 0
      modifies this
      ensures Matches(Committed(s, ids, commitRaises, tidyRaises))
    {
      ghost var present := ids * s.archive.rows.Keys;
      assert present == {} <==> |present| == 0;
      if ids == {} || commitRaises || removed == 0 || tidyRaises {
        Fail();
        return;
      }
      deleting, version := false, None;
      succeeded := succeeded + 1;
    }

    method OnResolved(ghost s: State, now: ConversationVersion, ids: set<nat>, removed: nat, commitRaises: bool,
                      tidyRaises: bool)
      requires Matches(s) && Inv(s) && now == CurrentVersion(s)
      requires Enabled(s, Resolved(ids, commitRaises, tidyRaises))
      requires removed == if s.usable then |ids * s.archive.rows.Keys| else 0
      modifies this
      ensures Matches(Step(s, Resolved(ids, commitRaises, tidyRaises)))
    {
      if Some(now) == version {
        Commit(s, ids, removed, commitRaises, tidyRaises);
        return;
      }
      var granted := Retry();
      if granted {
        version, refreshing := None, true;
      } else {
        Fail();
      }
    }

    method OnResolveFailed(ghost s: State, now: ConversationVersion)
      requires Matches(s) && Inv(s) && now == CurrentVersion(s) && s.phase.Resolving?
      modifies this
      ensures Matches(Step(s, ResolveFailed))
    {
      if Some(now) != version {
        var granted := Retry();
        if granted {
          version, refreshing := None, true;
          return;
        }
      }
      Fail();
    }

    /** The refreshed projection is ready: `attempt` again. */
    method OnRefreshed(ghost s: State, now: ConversationVersion, started: bool)
      requires Matches(s) && Inv(s) && now == CurrentVersion(s) && s.phase.Refreshing?
      modifies this
      ensures Matches(Step(s, RefreshReady(started)))
    {
      if started {
        version, refreshing := Some(now), false;
      } else {
        Fail();
      }
    }

    /** A refresh found history changed again and asks to retry. */
    method OnRefreshStale(ghost s: State)
      requires Matches(s) && Inv(s) && s.phase.Refreshing?
      modifies this
      ensures Matches(Step(s, RefreshStale))
    {
      var granted := Retry();
      if !granted {
        Fail();
      }
    }

    method OnRefreshFailed(ghost s: State)
      requires Matches(s) && Inv(s) && s.phase.Refreshing?
      modifies this
      ensures Matches(Step(s, RefreshFailed))
    {
      Fail();
    }
  }
}
