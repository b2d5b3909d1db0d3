/** Scheduling pulls of the call history: the main loop, the worker's jobs and
    the store lock (call_history_sync.py:206-545). */
module CallSync {
  import opened Options

  const MAX_PENDING := 256  // MAX_OBEX_PENDING_OPERATIONS

  /** A call and the serial number of the sync that pulled it. */
  datatype Call = Call(id: int, pulledBy: nat)

  /** What `CallHistoryRepository.replace` returns. */
  datatype Result = Result(records: seq<Call>, newMissed: seq<Call>)

  datatype Stage =
    | Pulling(collected: nat)
    | Storing
    | Stored(result: Option<Result>)  // the worker is done; None: it raised

  /** One chain of jobs and what its closures captured. */
  datatype Chain = Chain(serial: nat, full: bool, cache: nat, clears: nat, revision: nat, stage: Stage)
  {
    function Lists(): nat { if full then 3 else 1 }
  }

  /** A list that storage preparation loaded from disk; `current` says that no
      clear succeeded since. */
  datatype Loaded = Loaded(calls: seq<Call>, current: bool)

  datatype Reason = Requested | Deferred | Periodic | Other

  /** The collaborators: `accepts(i)` is the worker's answer to the i-th job. */
  datatype Env = Env(accepts: nat -> bool, pbap: bool, map_: bool, erases: bool, recent: set<int>)

  /** Who asked, who still waits, and what runs for them. */
  datatype Desk = Desk(pending: bool, pendingFull: bool, waiters: seq<nat>, queued: seq<nat>, resync: bool,
                       resyncFull: bool, done: seq<nat>)
  {
    /** Every waiting caller gets its answer. */
    function Answered(): Desk {
      this.(done := done + waiters, waiters := [], pending := false, pendingFull := false)
    }
  }

  /** Generations of the snapshot and of clears, the next sync's serial number
      and the number of jobs offered to the worker. */
  datatype Counters = Counters(cache: nat, clears: nat, serial: nat, submitted: nat)

  /** Calls: in the snapshot, on disk, on their way from preparation, announced. */
  datatype Data = Data(records: seq<Call>, disk: seq<Call>, loaded: Option<Loaded>, announced: seq<Call>)

  datatype Flags = Flags(stopped: bool, eraseWhenStopped: bool, synced: bool, deferred: bool, mapSeen: bool,
                         mapWaited: bool, canWrite: bool, revision: nat)

  datatype Sync = Sync(desk: Desk, n: Counters, data: Data, flags: Flags, chain: Option<Chain>)
  {
    /** What is still owed a run: bounds the restarts within one step. */
    ghost function Owed(): nat { |desk.queued| + if desk.resync then 1 else 0 }

    function Discarded(): Sync {
      this.(n := n.(cache := n.cache + 1), data := data.(records := []))
    }

    // ---- starting ---------------------------------------------------------

    /** Finishing and starting touch no call, and any chain they leave behind
        began after them. */
    predicate Onward(s: Sync) {
      && s.data == data && s.n.cache == n.cache && s.n.clears == n.clears && s.n.serial >= n.serial
      && (s.chain.Some? ==>
            && n.serial <= s.chain.value.serial < s.n.serial && s.chain.value.stage == Pulling(0)
            && s.chain.value.cache == n.cache && s.chain.value.clears == n.clears)
    }

    /** `_start` */
    function Started(full: bool, env: Env): (s: Sync)
      ensures Onward(s)
      decreases Owed(), 1
    {
      if flags.stopped || !flags.canWrite then Finished(env)
      else
        var t := this.(desk := desk.(pending := true, pendingFull := full),
                       n := n.(serial := n.serial + 1, submitted := n.submitted + 1));
        if env.accepts(n.submitted) then
          t.(chain := Some(Chain(n.serial, full, n.cache, n.clears, flags.revision, Pulling(0))))
        else t.Finished(env)
    }

    /** `_finished` */
    function Finished(env: Env): (s: Sync)
      ensures Onward(s)
      decreases Owed(), 0
    {
      var d := desk.Answered();
      if desk.queued != [] then
        this.(desk := d.(waiters := desk.queued, queued := [], resync := false), chain := None).Started(true, env)
      else if desk.resync then
        this.(desk := d.(resync := false, resyncFull := false), chain := None)
            .Refreshed(Requested, desk.resyncFull, env)
      else this.(desk := d, chain := None)
    }

    /** `refresh` */
    function Refreshed(reason: Reason, full: bool, env: Env): (s: Sync)
      ensures Onward(s) || (s.chain == chain && s.n == n && s.data == data)
      decreases Owed(), 2
    {
      if flags.stopped then this
      else if desk.pending then
        if reason.Requested? then this.(desk := desk.(resync := true, resyncFull := desk.resyncFull || full)) else this
      else if !env.pbap || !flags.canWrite then
        if reason.Requested? || reason.Deferred? then this.(flags := flags.(deferred := true)) else this
      else if env.map_ then
        this.(flags := flags.(mapSeen := true, deferred := false)).Started(full || !flags.synced, env)
      else if flags.mapSeen || !flags.mapWaited then this.(flags := flags.(deferred := true))
      else if reason.Periodic? then this
      else this.(flags := flags.(deferred := false)).Started(full || !flags.synced, env)
    }

    /** `sync`; `caller` names the pair of callbacks. */
    function Synced(caller: Option<nat>, env: Env): Sync {
      if caller.Some? && |desk.waiters| + |desk.queued| >= MAX_PENDING then
        this.(desk := desk.(done := desk.done + [caller.value]))
      else if caller.Some? && desk.pending && !desk.pendingFull then
        this.(desk := desk.(queued := desk.queued + [caller.value]))
      else
        var s := if caller.Some? then this.(desk := desk.(waiters := desk.waiters + [caller.value])) else this;
        if desk.pending then s else s.Started(true, env)
    }

    // ---- the chain of jobs ------------------------------------------------

    function Submitting(stage: Stage, env: Env): Sync
      requires chain.Some?
    {
      var s := this.(n := n.(submitted := n.submitted + 1));
      if env.accepts(n.submitted) then s.(chain := Some(chain.value.(stage := stage))) else s.Finished(env)
    }

    /** `pulled`, on the main loop. */
    function Pulled(env: Env): Sync
      requires chain.Some? && chain.value.stage.Pulling?
    {
      var lists := chain.value.stage.collected + 1;
      if lists < chain.value.Lists() then
        if chain.value.cache != n.cache || flags.stopped then Finished(env) else Submitting(Pulling(lists), env)
      else if flags.stopped then Finished(env)
      else Submitting(Storing, env)
    }

    /** A job failed; a corrupt store fails closed. */
    function JobFailed(corrupt: bool, env: Env): Sync {
      (if corrupt then this.(flags := flags.(canWrite := false)) else this).Finished(env)
    }

    /** What the store may hold after `replace`: retained and pulled calls. */
    ghost predicate Stores(result: Result)
      requires chain.Some?
    {
      && (forall i | 0 <= i < |result.records| ::
            result.records[i] in data.disk || result.records[i].pulledBy == chain.value.serial)
      && (forall i | 0 <= i < |result.newMissed| :: result.newMissed[i] in result.records)
    }

    /** `store`, on the worker and under the store lock; None: it raised. */
    function StoreRan(result: Option<Result>): Sync
      requires chain.Some?
    {
      if chain.value.cache != n.cache || result.None? then this.(chain := Some(chain.value.(stage := Stored(None))))
      else
        this.(data := data.(disk := result.value.records), chain := Some(chain.value.(stage := Stored(result))))
    }

    /** `stored`, on the main loop. */
    function Delivered(env: Env): Sync
      requires chain.Some? && chain.value.stage.Stored?
    {
      var c := chain.value;
      if c.stage.result.None? || c.clears != n.clears then Finished(env)
      else if c.revision != flags.revision then Erased(env).Finished(env)
      else if flags.stopped then (if flags.eraseWhenStopped then Erased(env) else Discarded()).Finished(env)
      else if c.cache != n.cache then Finished(env)
      else Published(c.stage.result.value, c.full, env).Finished(env)
    }

    function Published(result: Result, full: bool, env: Env): Sync {
      this.(flags := flags.(synced := flags.synced || full),
            data := data.(records := result.records,
                          announced := data.announced + Recent(result.newMissed, env.recent)))
    }

    /** Erase what was just written; the snapshot goes only if that worked. */
    function Erased(env: Env): Sync {
      if env.erases then this.(data := data.(disk := [])).Discarded() else this
    }

    // ---- clearing and the rest --------------------------------------------

    /** `clear`; if erasing raises, only the generations have moved on. */
    function Cleared(env: Env): Sync {
      var s := this.(n := n.(cache := n.cache + 1, clears := n.clears + 1));
      if !env.erases then s
      else
        s.(desk := desk.(resync := false, resyncFull := false, done := desk.done + desk.queued, queued := []),
           flags := flags.(synced := false),
           data := data.(disk := [], records := [],
                         loaded := if data.loaded.Some? then Some(data.loaded.value.(current := false)) else None))
    }

    function StorageChanged(canRead: bool, env: Env): Sync {
      if !canRead then Discarded()
      else if !flags.synced || flags.deferred then Refreshed(Other, true, env)
      else this
    }

    function Adopted(): Sync
      requires data.loaded.Some?
    {
      this.(data := data.(records := data.loaded.value.calls, loaded := None))
    }
  }

  /** `[r for r in new_missed if r.occurred_at >= ...]` */
  function Recent(calls: seq<Call>, recent: set<int>): seq<Call> {
    if calls == [] then []
    else (if calls[0].id in recent then [calls[0]] else []) + Recent(calls[1..], recent)
  }

  const IDLE := Sync(Desk(false, false, [], [], false, false, []), Counters(0, 0, 0, 0), Data([], [], None, []),
                     Flags(false, false, false, false, false, false, true, 0), None)

  // ---- runs ---------------------------------------------------------------

  datatype Event =
    | Request(caller: Option<nat>)
    | Refresh(reason: Reason, full: bool)
    | PullReply
    | JobError(corrupt: bool)
    | StoreJob(result: Option<Result>)
    | StoreReply
    | Clear
    | DiscardCache
    | StorageTurns(canWrite: bool, revision: nat)
    | StorageNotice(canRead: bool)
    | GraceOver
    | Load
    | Adopt
    | Stop(erase: bool)

  ghost predicate Possible(s: Sync, e: Event) {
    match e
    case PullReply => s.chain.Some? && s.chain.value.stage.Pulling?
    case JobError(_) => s.chain.Some? && (s.chain.value.stage.Pulling? || s.chain.value.stage == Stored(None))
    case StoreJob(result) =>
      s.chain.Some? && s.chain.value.stage.Storing? && (result.Some? ==> s.Stores(result.value))
    case StoreReply => s.chain.Some? && s.chain.value.stage.Stored?
    case Adopt => s.data.loaded.Some?
    case Request(_) => true
    case Refresh(_, _) => true
    case Clear => true
    case DiscardCache => true
    case StorageTurns(_, revision) => revision >= s.flags.revision
    case StorageNotice(_) => true
    case GraceOver => true
    case Load => true
    case Stop(_) => true
  }

  ghost function Step(s: Sync, e: Event, env: Env): Sync
    requires Possible(s, e)
  {
    match e
    case Request(caller) => s.Synced(caller, env)
    case Refresh(reason, full) => s.Refreshed(reason, full, env)
    case PullReply => s.Pulled(env)
    case JobError(corrupt) => s.JobFailed(corrupt, env)
    case StoreJob(result) => s.StoreRan(result)
    case StoreReply => s.Delivered(env)
    case Clear => s.Cleared(env)
    case DiscardCache => s.Discarded()
    case StorageTurns(canWrite, revision) => s.(flags := s.flags.(canWrite := canWrite, revision := revision))
    case StorageNotice(canRead) => s.StorageChanged(canRead, env)
    case GraceOver => s.(flags := s.flags.(mapWaited := true))
    case Load => s.(data := s.data.(loaded := Some(Loaded(s.data.disk, true))))
    case Adopt => s.Adopted()
    case Stop(erase) =>
      s.(flags := s.flags.(stopped := true, eraseWhenStopped := s.flags.eraseWhenStopped || erase))
  }

  // ---- exactly one completion ---------------------------------------------

  /** All callers, answered or not. */
  ghost function Callers(d: Desk): multiset<nat> {
    multiset(d.waiters) + multiset(d.queued) + multiset(d.done)
  }

  /** Only a missed-calls pull has queued callers, only a full one waiting ones. */
  predicate Tidy(d: Desk) {
    && (d.queued != [] ==> d.pending && !d.pendingFull)
    && (d.waiters != [] ==> d.pending && d.pendingFull)
    && (d.resync ==> d.pending)
    && |d.waiters| + |d.queued| <= MAX_PENDING
  }

  /** One chain runs exactly while a sync is pending. */
  predicate Orderly(s: Sync) {
    && Tidy(s.desk)
    && (s.desk.pending <==> s.chain.Some?)
    && (s.chain.Some? ==> s.chain.value.full == s.desk.pendingFull && s.chain.value.serial < s.n.serial)
  }

  /** The outcome of a step that answered or kept every caller of `d`. */
  ghost predicate Settles(d: Desk, s: Sync) { Orderly(s) && Callers(s.desk) == Callers(d) }

  predicate Bounded(d: Desk) {
    (d.queued != [] ==> d.waiters == []) && |d.waiters| + |d.queued| <= MAX_PENDING
  }

  lemma AnsweredKeepsCallers(d: Desk)
    ensures Callers(d.Answered()) == Callers(d)
  {
  }

  /** With nothing owed, finishing ends there. */
  lemma FinishedQuietly(s: Sync, env: Env)
    requires s.desk.queued == [] && !s.desk.resync
    ensures s.Finished(env) == s.(desk := s.desk.Answered(), chain := None)
  {
  }

  lemma StartedIsOrderly(s: Sync, full: bool, env: Env)
    requires Bounded(s.desk) && s.desk.queued == [] && !s.desk.resync && (s.desk.waiters != [] ==> full)
    ensures Settles(s.desk, s.Started(full, env))
  {
    var t := s.(desk := s.desk.(pending := true, pendingFull := full),
                n := s.n.(serial := s.n.serial + 1, submitted := s.n.submitted + 1));
    if s.flags.stopped || !s.flags.canWrite {
      FinishedQuietly(s, env);
      AnsweredKeepsCallers(s.desk);
    } else if !env.accepts(s.n.submitted) {
      FinishedQuietly(t, env);
      AnsweredKeepsCallers(t.desk);
    }
  }

  lemma FinishedIsOrderly(s: Sync, env: Env)
    requires Bounded(s.desk)
    ensures Settles(s.desk, s.Finished(env))
  {
    var d := s.desk.Answered();
    AnsweredKeepsCallers(s.desk);
    if s.desk.queued != [] {
      var e := d.(waiters := s.desk.queued, queued := [], resync := false);
      assert Callers(e) == Callers(d);
      StartedIsOrderly(s.(desk := e, chain := None), true, env);
    } else if s.desk.resync {
      RefreshedIsOrderly(s.(desk := d.(resync := false, resyncFull := false), chain := None), Requested,
                         s.desk.resyncFull, env);
    }
  }

  lemma RefreshedIsOrderly(s: Sync, reason: Reason, full: bool, env: Env)
    requires Orderly(s)
    ensures Settles(s.desk, s.Refreshed(reason, full, env))
  {
    if !s.desk.pending {
      StartedIsOrderly(s.(flags := s.flags.(mapSeen := true, deferred := false)), full || !s.flags.synced, env);
      StartedIsOrderly(s.(flags := s.flags.(deferred := false)), full || !s.flags.synced, env);
    }
  }

  lemma SubmittingIsOrderly(s: Sync, stage: Stage, env: Env)
    requires Orderly(s) && s.chain.Some?
    ensures Settles(s.desk, s.Submitting(stage, env))
  {
    FinishedIsOrderly(s.(n := s.n.(submitted := s.n.submitted + 1)), env);
  }

  lemma PullIsOrderly(s: Sync, env: Env)
    requires Orderly(s) && s.chain.Some? && s.chain.value.stage.Pulling?
    ensures Settles(s.desk, s.Pulled(env))
  {
    FinishedIsOrderly(s, env);
    SubmittingIsOrderly(s, Pulling(s.chain.value.stage.collected + 1), env);
    SubmittingIsOrderly(s, Storing, env);
  }

  lemma JobErrorIsOrderly(s: Sync, corrupt: bool, env: Env)
    requires Orderly(s)
    ensures Settles(s.desk, s.JobFailed(corrupt, env))
  {
    FinishedIsOrderly(s, env);
    FinishedIsOrderly(s.(flags := s.flags.(canWrite := false)), env);
  }

  lemma DeliveryIsOrderly(s: Sync, env: Env)
    requires Orderly(s) && s.chain.Some? && s.chain.value.stage.Stored?
    ensures Settles(s.desk, s.Delivered(env))
  {
    var c := s.chain.value;
    if c.stage.result.None? || c.clears != s.n.clears {
      FinishedIsOrderly(s, env);
    } else if c.revision != s.flags.revision {
      FinishedIsOrderly(s.Erased(env), env);
    } else if s.flags.stopped {
      FinishedIsOrderly(if s.flags.eraseWhenStopped then s.Erased(env) else s.Discarded(), env);
    } else if c.cache != s.n.cache {
      FinishedIsOrderly(s, env);
    } else {
      FinishedIsOrderly(s.Published(c.stage.result.value, c.full, env), env);
    }
  }

  ghost function Asked(e: Event): multiset<nat> {
    if e.Request? && e.caller.Some? then multiset{e.caller.value} else multiset{}
  }

  lemma RequestIsOrderly(s: Sync, caller: Option<nat>, env: Env)
    requires Orderly(s)
    ensures Orderly(s.Synced(caller, env))
    ensures Callers(s.Synced(caller, env).desk) == Callers(s.desk) + Asked(Request(caller))
  {
    var t := if caller.Some? then s.(desk := s.desk.(waiters := s.desk.waiters + [caller.value])) else s;
    assert Callers(t.desk) == Callers(s.desk) + Asked(Request(caller));
    if !s.desk.pending && |t.desk.waiters| <= MAX_PENDING {
      StartedIsOrderly(t, true, env);
    }
  }

  lemma ClearIsOrderly(s: Sync, env: Env)
    requires Orderly(s)
    ensures Settles(s.desk, s.Cleared(env))
  {
  }

  lemma StepIsOrderly(s: Sync, e: Event, env: Env)
    requires Orderly(s) && Possible(s, e)
    ensures Orderly(Step(s, e, env)) && Callers(Step(s, e, env).desk) == Callers(s.desk) + Asked(e)
  {
    match e {
      case Request(caller) => RequestIsOrderly(s, caller, env);
      case Refresh(reason, full) => RefreshedIsOrderly(s, reason, full, env);
      case PullReply => PullIsOrderly(s, env);
      case JobError(corrupt) => JobErrorIsOrderly(s, corrupt, env);
      case StoreJob(result) =>
      case StoreReply => DeliveryIsOrderly(s, env);
      case Clear => ClearIsOrderly(s, env);
      case DiscardCache =>
      case StorageTurns(_, _) =>
      case StorageNotice(canRead) => RefreshedIsOrderly(s, Other, true, env);
      case GraceOver =>
      case Load =>
      case Adopt =>
      case Stop(_) =>
    }
  }

  datatype Moment = Moment(event: Event, env: Env)

  ghost function Run(s: Sync, ms: seq<Moment>): Sync
    decreases |ms|
  {
    if ms == [] then s
    else Run(if Possible(s, ms[0].event) then Step(s, ms[0].event, ms[0].env) else s, ms[1..])
  }

  /** The callers of a run; a request can always be made. */
  ghost function AllAsked(ms: seq<Moment>): multiset<nat> {
    if ms == [] then multiset{} else Asked(ms[0].event) + AllAsked(ms[1..])
  }

  lemma {:induction false} RunIsOrderly(s: Sync, ms: seq<Moment>)
    requires Orderly(s)
    ensures Orderly(Run(s, ms)) && Callers(Run(s, ms).desk) == Callers(s.desk) + AllAsked(ms)
    decreases |ms|
  {
    if ms != [] {
      var m := ms[0];
      if Possible(s, m.event) {
        StepIsOrderly(s, m.event, m.env);
        RunIsOrderly(Step(s, m.event, m.env), ms[1..]);
      } else {
        RunIsOrderly(s, ms[1..]);
      }
    }
  }

  /** Every caller gets exactly one answer: over any joins, queued full pulls,
      clears, refused jobs and stops, whoever asked is waiting, queued or
      answered, once; nobody waits while no chain runs, and callers queue only
      behind a missed-calls pull. */
  lemma {:induction false} CallersAreAnsweredOnce(ms: seq<Moment>)
    ensures var s := Run(IDLE, ms);
            && AllAsked(ms) == multiset(s.desk.waiters) + multiset(s.desk.queued) + multiset(s.desk.done)
            && (s.chain.None? ==> multiset(s.desk.done) == AllAsked(ms))
            && (s.chain.Some? <==> s.desk.pending)
            && (s.desk.queued != [] ==> s.desk.pending && !s.desk.pendingFull)
            && (s.desk.waiters != [] ==> s.desk.pending && s.desk.pendingFull)
            && |s.desk.waiters| + |s.desk.queued| <= MAX_PENDING
  {
    RunIsOrderly(IDLE, ms);
  }

  // ---- clearing is final --------------------------------------------------

  ghost predicate PulledSince(calls: seq<Call>, from: nat) { forall i | 0 <= i < |calls| :: calls[i].pulledBy >= from }

  /** A chain older than sync `from` runs under old generations; a younger one
      carries only calls pulled since. */
  ghost predicate Harmless(n: Counters, c: Chain, from: nat) {
    && c.cache <= n.cache && c.clears <= n.clears && c.serial < n.serial
    && (c.serial < from ==> c.cache < n.cache && c.clears < n.clears)
    && (c.serial >= from && c.stage.Stored? && c.stage.result.Some? ==>
          PulledSince(c.stage.result.value.records, from) && PulledSince(c.stage.result.value.newMissed, from))
  }

  /** No call pulled before sync `from` is on disk, in the snapshot, in a list
      that may be adopted, or announced after the first `k` announcements. */
  ghost predicate Free(d: Data, from: nat, k: nat) {
    && PulledSince(d.disk, from) && PulledSince(d.records, from)
    && k <= |d.announced| && PulledSince(d.announced[k..], from)
    && (d.loaded.Some? && d.loaded.value.current ==> PulledSince(d.loaded.value.calls, from))
  }

  ghost predicate Clean(s: Sync, from: nat, k: nat) {
    && from <= s.n.serial && Free(s.data, from, k)
    && (s.chain.Some? ==> Harmless(s.n, s.chain.value, from))
  }

  lemma OnwardIsClean(s: Sync, t: Sync, from: nat, k: nat)
    requires Clean(s, from, k) && s.Onward(t)
    ensures Clean(t, from, k)
  {
  }

  lemma RefreshedIsClean(s: Sync, reason: Reason, full: bool, env: Env, from: nat, k: nat)
    requires Clean(s, from, k)
    ensures Clean(s.Refreshed(reason, full, env), from, k)
  {
    var t := s.Refreshed(reason, full, env);
    if s.Onward(t) {
      OnwardIsClean(s, t, from, k);
    }
  }

  lemma RequestIsClean(s: Sync, caller: Option<nat>, env: Env, from: nat, k: nat)
    requires Clean(s, from, k)
    ensures Clean(s.Synced(caller, env), from, k)
  {
    var t := if caller.Some? then s.(desk := s.desk.(waiters := s.desk.waiters + [caller.value])) else s;
    OnwardIsClean(t, t.Started(true, env), from, k);
  }

  lemma SubmittingIsClean(s: Sync, stage: Stage, env: Env, from: nat, k: nat)
    requires Clean(s, from, k) && s.chain.Some? && !stage.Stored?
    ensures Clean(s.Submitting(stage, env), from, k)
  {
    var t := s.(n := s.n.(submitted := s.n.submitted + 1));
    OnwardIsClean(t, t.Finished(env), from, k);
  }

  lemma PullIsClean(s: Sync, env: Env, from: nat, k: nat)
    requires Clean(s, from, k) && s.chain.Some? && s.chain.value.stage.Pulling?
    ensures Clean(s.Pulled(env), from, k)
  {
    OnwardIsClean(s, s.Finished(env), from, k);
    SubmittingIsClean(s, Pulling(s.chain.value.stage.collected + 1), env, from, k);
    SubmittingIsClean(s, Storing, env, from, k);
  }

  lemma JobErrorIsClean(s: Sync, corrupt: bool, env: Env, from: nat, k: nat)
    requires Clean(s, from, k)
    ensures Clean(s.JobFailed(corrupt, env), from, k)
  {
    var t := s.(flags := s.flags.(canWrite := false));
    OnwardIsClean(s, s.Finished(env), from, k);
    OnwardIsClean(t, t.Finished(env), from, k);
  }

  lemma ResultIsRecent(s: Sync, result: Result, from: nat)
    requires s.chain.Some? && s.Stores(result) && PulledSince(s.data.disk, from) && s.chain.value.serial >= from
    ensures PulledSince(result.records, from) && PulledSince(result.newMissed, from)
  {
    forall i | 0 <= i < |result.newMissed|
      ensures result.newMissed[i].pulledBy >= from
    {
      assert result.newMissed[i] in result.records;
    }
  }

  /** The store job writes only under the generation it started with. */
  lemma StoreIsClean(s: Sync, result: Option<Result>, from: nat, k: nat)
    requires Clean(s, from, k) && s.chain.Some? && (result.Some? ==> s.Stores(result.value))
    ensures Clean(s.StoreRan(result), from, k)
  {
    if s.chain.value.cache == s.n.cache && result.Some? {
      ResultIsRecent(s, result.value, from);
    }
  }

  lemma {:induction false} RecentAreSince(calls: seq<Call>, recent: set<int>, from: nat)
    requires PulledSince(calls, from)
    ensures PulledSince(Recent(calls, recent), from)
  {
    if calls != [] {
      RecentAreSince(calls[1..], recent, from);
    }
  }

  lemma AnnouncedMore(announced: seq<Call>, more: seq<Call>, from: nat, k: nat)
    requires k <= |announced| && PulledSince(announced[k..], from) && PulledSince(more, from)
    ensures k <= |announced + more| && PulledSince((announced + more)[k..], from)
  {
    assert (announced + more)[k..] == announced[k..] + more;
  }

  lemma PublishedIsClean(s: Sync, env: Env, from: nat, k: nat)
    requires Clean(s, from, k) && s.chain.Some? && s.chain.value.stage.Stored? && s.chain.value.clears == s.n.clears
    requires s.chain.value.stage.result.Some?
    ensures Clean(s.Published(s.chain.value.stage.result.value, s.chain.value.full, env), from, k)
  {
    var result := s.chain.value.stage.result.value;
    RecentAreSince(result.newMissed, env.recent, from);
    AnnouncedMore(s.data.announced, Recent(result.newMissed, env.recent), from, k);
  }

  lemma DeliveryIsClean(s: Sync, env: Env, from: nat, k: nat)
    requires Clean(s, from, k) && s.chain.Some? && s.chain.value.stage.Stored?
    ensures Clean(s.Delivered(env), from, k)
  {
    var c := s.chain.value;
    OnwardIsClean(s, s.Finished(env), from, k);
    OnwardIsClean(s.Erased(env), s.Erased(env).Finished(env), from, k);
    OnwardIsClean(s.Discarded(), s.Discarded().Finished(env), from, k);
    if c.stage.result.Some? && c.clears == s.n.clears {
      var t := s.Published(c.stage.result.value, c.full, env);
      PublishedIsClean(s, env, from, k);
      OnwardIsClean(t, t.Finished(env), from, k);
    }
  }

  /** A list loaded before the last clear is not adopted, unless it is empty. */
  predicate Fair(s: Sync, e: Event) {
    e.Adopt? && s.data.loaded.Some? ==> s.data.loaded.value.current || s.data.loaded.value.calls == []
  }

  lemma StepIsClean(s: Sync, e: Event, env: Env, from: nat, k: nat)
    requires Clean(s, from, k) && Possible(s, e) && Fair(s, e)
    ensures Clean(Step(s, e, env), from, k)
  {
    match e {
      case Request(caller) => RequestIsClean(s, caller, env, from, k);
      case Refresh(reason, full) => RefreshedIsClean(s, reason, full, env, from, k);
      case PullReply => PullIsClean(s, env, from, k);
      case JobError(corrupt) => JobErrorIsClean(s, corrupt, env, from, k);
      case StoreJob(result) => StoreIsClean(s, result, from, k);
      case StoreReply => DeliveryIsClean(s, env, from, k);
      case Clear =>
      case DiscardCache =>
      case StorageTurns(_, _) =>
      case StorageNotice(canRead) => RefreshedIsClean(s, Other, true, env, from, k);
      case GraceOver =>
      case Load =>
      case Adopt =>
      case Stop(_) =>
    }
  }

  ghost predicate FairRun(s: Sync, ms: seq<Moment>)
    decreases |ms|
  {
    ms == []
    || (if Possible(s, ms[0].event) then
          Fair(s, ms[0].event) && FairRun(Step(s, ms[0].event, ms[0].env), ms[1..])
        else FairRun(s, ms[1..]))
  }

  lemma {:induction false} RunIsClean(s: Sync, ms: seq<Moment>, from: nat, k: nat)
    requires Clean(s, from, k) && FairRun(s, ms)
    ensures Clean(Run(s, ms), from, k)
    decreases |ms|
  {
    if ms != [] {
      var m := ms[0];
      if Possible(s, m.event) {
        StepIsClean(s, m.event, m.env, from, k);
        RunIsClean(Step(s, m.event, m.env), ms[1..], from, k);
      } else {
        RunIsClean(s, ms[1..], from, k);
      }
    }
  }

  /** Generations of a reachable chain are not ahead; every call there is was
      pulled by a sync that has started. */
  ghost predicate Dated(s: Sync) {
    && (s.chain.Some? ==> s.chain.value.cache <= s.n.cache && s.chain.value.clears <= s.n.clears
                          && s.chain.value.serial < s.n.serial)
    && (forall i | 0 <= i < |s.data.disk| :: s.data.disk[i].pulledBy < s.n.serial)
    && (s.data.loaded.Some? ==>
          forall i | 0 <= i < |s.data.loaded.value.calls| :: s.data.loaded.value.calls[i].pulledBy < s.n.serial)
  }

  lemma StepIsDated(s: Sync, e: Event, env: Env)
    requires Dated(s) && Possible(s, e)
    ensures Dated(Step(s, e, env))
  {
  }

  lemma {:induction false} RunIsDated(s: Sync, ms: seq<Moment>)
    requires Dated(s)
    ensures Dated(Run(s, ms))
    decreases |ms|
  {
    if ms != [] {
      var m := ms[0];
      if Possible(s, m.event) {
        StepIsDated(s, m.event, m.env);
        RunIsDated(Step(s, m.event, m.env), ms[1..]);
      } else {
        RunIsDated(s, ms[1..]);
      }
    }
  }

  /** Clear is final: whatever happened before `clear` returns and whatever
      follows, with the store job on the worker at any point, no call pulled by
      a sync started before stays on disk or in the snapshot or is announced,
      provided that no list loaded before a clear is adopted after it. */
  lemma {:induction false} ClearIsFinal(before: seq<Moment>, env: Env, after: seq<Moment>)
    requires env.erases
    requires FairRun(Run(IDLE, before).Cleared(env), after)
    ensures var s := Run(IDLE, before);
            var t := Run(s.Cleared(env), after);
            && PulledSince(t.data.disk, s.n.serial) && PulledSince(t.data.records, s.n.serial)
            && |s.data.announced| <= |t.data.announced|
            && PulledSince(t.data.announced[|s.data.announced|..], s.n.serial)
  {
    var s := Run(IDLE, before);
    RunIsDated(IDLE, before);
    RunIsClean(s.Cleared(env), after, s.n.serial, |s.data.announced|);
  }

  /** A list that is not current was loaded before sync `from` was cleared. */
  ghost predicate LoadedBefore(d: Data, from: nat) {
    d.loaded.Some? && !d.loaded.value.current ==>
      forall i | 0 <= i < |d.loaded.value.calls| :: d.loaded.value.calls[i].pulledBy < from
  }

  lemma {:induction false} RunKeepsLoaded(s: Sync, ms: seq<Moment>, from: nat)
    requires LoadedBefore(s.data, from) && forall i | 0 <= i < |ms| :: !ms[i].event.Clear?
    ensures LoadedBefore(Run(s, ms).data, from)
    decreases |ms|
  {
    if ms != [] {
      var m := ms[0];
      assert forall i | 0 <= i < |ms[1..]| :: ms[1..][i] == ms[i + 1];
      if Possible(s, m.event) {
        RunKeepsLoaded(Step(s, m.event, m.env), ms[1..], from);
      } else {
        RunKeepsLoaded(s, ms[1..], from);
      }
    }
  }

  /** The proviso is exact: after a clear, adopting a loaded list keeps the
      snapshot free of cleared calls if and only if the list was loaded since,
      or is empty. */
  lemma {:induction false} AdoptedIsCleanIff(before: seq<Moment>, env: Env, after: seq<Moment>)
    requires env.erases && FairRun(Run(IDLE, before).Cleared(env), after)
    requires forall i | 0 <= i < |after| :: !after[i].event.Clear?
    requires Run(Run(IDLE, before).Cleared(env), after).data.loaded.Some?
    ensures var from := Run(IDLE, before).n.serial;
            var t := Run(Run(IDLE, before).Cleared(env), after);
            PulledSince(t.Adopted().data.records, from)
            <==> t.data.loaded.value.current || t.data.loaded.value.calls == []
  {
    var s := Run(IDLE, before);
    var c := s.Cleared(env);
    RunIsDated(IDLE, before);
    RunIsClean(c, after, s.n.serial, |s.data.announced|);
    RunKeepsLoaded(c, after, s.n.serial);
    var loaded := Run(c, after).data.loaded.value;
    if !loaded.current && loaded.calls != [] {
      assert loaded.calls[0].pulledBy < s.n.serial;
    }
  }

  const WILLING := Env(_ => true, true, true, true, {})

  lemma {:induction false} RunMore(s: Sync, ms: seq<Moment>, m: Moment)
    ensures Run(s, ms + [m])
         == if Possible(Run(s, ms), m.event) then Step(Run(s, ms), m.event, m.env) else Run(s, ms)
    decreases |ms|
  {
    if ms == [] {
      assert [m][1..] == [];
    } else {
      assert (ms + [m])[1..] == ms[1..] + [m];
      RunMore(if Possible(s, ms[0].event) then Step(s, ms[0].event, ms[0].env) else s, ms[1..], m);
    }
  }

  /** The first sync of a daemon, `stage` through its jobs. */
  function FirstSync(stage: Stage, submitted: nat, disk: seq<Call>): Sync {
    IDLE.(desk := IDLE.desk.(pending := true, pendingFull := true), n := Counters(0, 0, 1, submitted),
          data := IDLE.data.(disk := disk), chain := Some(Chain(0, true, 0, 0, 0, stage)))
  }

  lemma FirstPulls() returns (ms: seq<Moment>)
    ensures Run(IDLE, ms) == FirstSync(Storing, 4, [])
  {
    ms := [];
    RunMore(IDLE, ms, Moment(Request(None), WILLING));
    ms := ms + [Moment(Request(None), WILLING)];
    assert Run(IDLE, ms) == FirstSync(Pulling(0), 1, []);
    RunMore(IDLE, ms, Moment(PullReply, WILLING));
    ms := ms + [Moment(PullReply, WILLING)];
    assert Run(IDLE, ms) == FirstSync(Pulling(1), 2, []);
    RunMore(IDLE, ms, Moment(PullReply, WILLING));
    ms := ms + [Moment(PullReply, WILLING)];
    assert Run(IDLE, ms) == FirstSync(Pulling(2), 3, []);
    RunMore(IDLE, ms, Moment(PullReply, WILLING));
    ms := ms + [Moment(PullReply, WILLING)];
  }

  lemma FirstListIsLoaded() returns (ms: seq<Moment>)
    ensures Run(IDLE, ms).n.serial == 1 && Run(IDLE, ms).data.disk == [Call(7, 0)]
    ensures Run(IDLE, ms).data.loaded == Some(Loaded([Call(7, 0)], true))
  {
    ms := FirstPulls();
    var result := Result([Call(7, 0)], []);
    RunMore(IDLE, ms, Moment(StoreJob(Some(result)), WILLING));
    ms := ms + [Moment(StoreJob(Some(result)), WILLING)];
    assert Run(IDLE, ms) == FirstSync(Stored(Some(result)), 4, [Call(7, 0)]);
    RunMore(IDLE, ms, Moment(StoreReply, WILLING));
    ms := ms + [Moment(StoreReply, WILLING)];
    assert Run(IDLE, ms).data.disk == [Call(7, 0)] && Run(IDLE, ms).n.serial == 1;
    RunMore(IDLE, ms, Moment(Load, WILLING));
    ms := ms + [Moment(Load, WILLING)];
  }

  /** And it does fail: a sync stores a call, preparation loads it, the history
      is cleared, and adopting what was loaded brings the call back. */
  lemma ClearedCallComesBack() returns (before: seq<Moment>)
    ensures var s := Run(IDLE, before);
            && s.data.loaded.Some? && s.data.disk != []
            && s.Cleared(WILLING).data.disk == [] && s.Cleared(WILLING).data.records == []
            && s.Cleared(WILLING).Adopted().data.records == [Call(7, 0)]
            && !PulledSince(s.Cleared(WILLING).Adopted().data.records, s.n.serial)
  {
    before := FirstListIsLoaded();
    assert [Call(7, 0)][0].pulledBy < 1;
  }

  // ---- the code -----------------------------------------------------------

  /** The fields are grouped as in `Sync`; `chain` is what the closures of one
      sync capture, and each callback of theirs is a method. */
  class CallHistorySync {
    var desk: Desk
    var n: Counters
    var data: Data
    var flags: Flags
    var chain: Option<Chain>

    function View(): Sync
      reads this
    {
      Sync(desk, n, data, flags, chain)
    }

    constructor ()
      ensures View() == IDLE
    {
      desk, n := Desk(false, false, [], [], false, false, []), Counters(0, 0, 0, 0);
      data, flags := Data([], [], None, []), Flags(false, false, false, false, false, false, true, 0);
      chain := None;
    }

    method DiscardCache()
      modifies `n, `data
      ensures View() == old(View()).Discarded()
    {
      n := n.(cache := n.cache + 1);
      if data.records != [] {
        data := data.(records := []);
      }
    }

    /** `clear`; returns whether erasing raised. */
    method Clear(env: Env) returns (raised: bool)
      modifies this
      ensures View() == old(View()).Cleared(env) && raised == !env.erases
    {
      n := n.(cache := n.cache + 1);
      n := n.(clears := n.clears + 1);
      if !env.erases {
        return true;
      }
      data := data.(disk := []);
      flags := flags.(synced := false);
      desk := desk.(resync := false, resyncFull := false);
      var queued := desk.queued;
      desk := desk.(queued := []);
      desk := desk.(done := desk.done + queued);
      data := data.(records := []);
      if data.loaded.Some? {
        data := data.(loaded := Some(data.loaded.value.(current := false)));
      }
      return false;
    }

    method Submit(env: Env) returns (accepted: bool)
      modifies `n
      ensures n == old(n).(submitted := old(n).submitted + 1) && accepted == env.accepts(old(n).submitted)
    {
      accepted := env.accepts(n.submitted);
      n := n.(submitted := n.submitted + 1);
    }

    /** `_start` */
    method Start(full: bool, env: Env)
      modifies this
      ensures View() == old(View()).Started(full, env)
      decreases View().Owed(), 1
    {
      if flags.stopped || !flags.canWrite {
        Finished(env);
        return;
      }
      desk := desk.(pending := true, pendingFull := full);
      var serial := n.serial;
      n := n.(serial := n.serial + 1);
      var accepted := Submit(env);
      if accepted {
        chain := Some(Chain(serial, full, n.cache, n.clears, flags.revision, Pulling(0)));
      } else {
        Finished(env);
      }
    }

    /** `_finished` */
    method Finished(env: Env)
      modifies this
      ensures View() == old(View()).Finished(env)
      decreases View().Owed(), 0
    {
      var waiters := desk.waiters;
      chain := None;
      desk := desk.(waiters := [], pending := false, pendingFull := false);
      desk := desk.(done := desk.done + waiters);
      if desk.queued != [] {
        desk := desk.(waiters := desk.queued, queued := [], resync := false);
        Start(true, env);
      } else if desk.resync {
        var full := desk.resyncFull;
        desk := desk.(resync := false, resyncFull := false);
        Refresh(Requested, full, env);
      }
    }

    /** `refresh` */
    method Refresh(reason: Reason, full: bool, env: Env)
      modifies this
      ensures View() == old(View()).Refreshed(reason, full, env)
      decreases View().Owed(), 2
    {
      if flags.stopped {
        return;
      }
      if desk.pending {
        if reason.Requested? {
          desk := desk.(resync := true, resyncFull := desk.resyncFull || full);
        }
        return;
      }
      if !env.pbap || !flags.canWrite {
        if reason.Requested? || reason.Deferred? {
          flags := flags.(deferred := true);
        }
        return;
      }
      if env.map_ {
        flags := flags.(mapSeen := true);
      } else if flags.mapSeen {
        flags := flags.(deferred := true);
        return;
      } else if !flags.mapWaited {
        flags := flags.(deferred := true);
        return;
      } else if reason.Periodic? {
        return;
      }
      flags := flags.(deferred := false);
      Start(full || !flags.synced, env);
    }

    /** `sync` */
    method RequestSync(caller: Option<nat>, env: Env)
      modifies this
      ensures View() == old(View()).Synced(caller, env)
    {
      if caller.Some? {
        if |desk.waiters| + |desk.queued| >= MAX_PENDING {
          desk := desk.(done := desk.done + [caller.value]);
          return;
        }
        if desk.pending && !desk.pendingFull {
          desk := desk.(queued := desk.queued + [caller.value]);
          return;
        }
        desk := desk.(waiters := desk.waiters + [caller.value]);
      }
      if desk.pending {
        return;
      }
      Start(true, env);
    }

    /** `pulled`, then `pull_next` or the store job. */
    method Pulled(env: Env)
      requires chain.Some? && chain.value.stage.Pulling?
      modifies this
      ensures View() == old(View()).Pulled(env)
    {
      var collected := chain.value.stage.collected + 1;
      if collected < chain.value.Lists() {
        if chain.value.cache != n.cache {
          Finished(env);
          return;
        }
        if flags.stopped {
          Finished(env);
          return;
        }
        SubmitNext(Pulling(collected), env);
        return;
      }
      if flags.stopped {
        Finished(env);
        return;
      }
      SubmitNext(Storing, env);
    }

    method SubmitNext(stage: Stage, env: Env)
      requires chain.Some?
      modifies this
      ensures View() == old(View()).Submitting(stage, env)
    {
      var accepted := Submit(env);
      if accepted {
        chain := Some(chain.value.(stage := stage));
      } else {
        Finished(env);
      }
    }

    /** `store`, on the worker and under the store lock. */
    method StoreJob(result: Option<Result>)
      requires chain.Some? && chain.value.stage.Storing?
      modifies `data, `chain
      ensures View() == old(View()).StoreRan(result)
    {
      if chain.value.cache != n.cache || result.None? {
        chain := Some(chain.value.(stage := Stored(None)));
        return;
      }
      data := data.(disk := result.value.records);
      chain := Some(chain.value.(stage := Stored(result)));
    }

    /** `stored` and `_stored`, on the main loop. */
    method StoreReply(env: Env)
      requires chain.Some? && chain.value.stage.Stored?
      modifies this
      ensures View() == old(View()).Delivered(env)
    {
      var c := chain.value;
      if c.stage.result.None? || c.clears != n.clears {
        Finished(env);
        return;
      }
      if c.revision != flags.revision {
        Erase(env);
        Finished(env);
        return;
      }
      if flags.stopped {
        if flags.eraseWhenStopped {
          Erase(env);
        } else {
          DiscardCache();
        }
        Finished(env);
        return;
      }
      if c.cache != n.cache {
        Finished(env);
        return;
      }
      Publish(c.stage.result.value, c.full, env);
      Finished(env);
    }

    method Erase(env: Env)
      modifies `data, `n
      ensures View() == old(View()).Erased(env)
    {
      if env.erases {
        data := data.(disk := []);
        DiscardCache();
      }
    }

    method Publish(result: Result, full: bool, env: Env)
      modifies `data, `flags
      ensures View() == old(View()).Published(result, full, env)
    {
      data := data.(records := result.records);
      if full {
        flags := flags.(synced := true);
      }
      var recent := RecentCalls(result.newMissed, env.recent);
      data := data.(announced := data.announced + recent);
    }
  }

  method RecentCalls(calls: seq<Call>, recent: set<int>) returns (kept: seq<Call>)
    ensures kept == Recent(calls, recent)
  {
    kept := [];
    var i := 0;
    while i < |calls|
      invariant 0 <= i <= |calls|
      invariant Recent(calls, recent) == kept + Recent(calls[i..], recent)
    {
      assert calls[i..][1..] == calls[i + 1..];
      if calls[i].id in recent {
        ghost var later := Recent(calls[i + 1..], recent);
        assert kept + ([calls[i]] + later) == (kept + [calls[i]]) + later;
        kept := kept + [calls[i]];
      }
      i := i + 1;
    }
  }
}
