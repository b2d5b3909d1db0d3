/** The message archive (history.py), its revision, and the search reply that
    trusts it (`_only_appended` and `_finish_search` in backend_operations.py). */
module Archive {
  import opened Options

  /** What an event says, opaque but for what the code rewrites in place: the
      read flag of a message, and the fields of an iPhone notification that
      are of no use for correlation. */
  datatype Payload = Message(content: nat, read: bool) | Ancs(correlation: nat, extra: nat)

  /** The columns beside the payload, which managed storage leaves blank. */
  datatype Columns = Columns(kind: nat, occurredAt: Option<int>)

  const PRIVATE := Columns(0, None)

  datatype Row = Row(payload: Payload, columns: Columns)

  /** The events table. `next` is the AUTOINCREMENT counter: every id ever
      used lies below it. `changes` is the meta table's generation. */
  datatype Table = Table(rows: map<nat, Row>, next: nat, changes: nat) {
    ghost predicate Valid() { next >= 1 && forall id | id in rows :: 1 <= id < next }
  }

  datatype Op =
    | Append(row: Row)
    | Delete(ids: set<nat>)     // pruning, clearing and deletion alike
    | MarkRead(ids: set<nat>)
    | Minimize(ids: set<nat>)   // minimize_ancs_history (history.py:741): counts nothing
    | Normalize(ids: set<nat>)  // prune_events (history.py:560): blanks columns, counts nothing

  function Apply(t: Table, op: Op): Table {
    match op
    case Append(row) => t.(rows := t.rows[t.next := row], next := t.next + 1)
    case Delete(ids) => t.(rows := t.rows - ids)
    case MarkRead(ids) =>
      var unread := set id | id in ids && id in t.rows && t.rows[id].payload.Message? && !t.rows[id].payload.read;
      if unread == {} then t
      else
        t.(rows := map id | id in t.rows ::
             if id in unread then t.rows[id].(payload := t.rows[id].payload.(read := true)) else t.rows[id],
           changes := t.changes + 1)
    case Minimize(ids) =>
      t.(rows := map id | id in t.rows ::
           if id in ids && t.rows[id].payload.Ancs? then t.rows[id].(payload := t.rows[id].payload.(extra := 0))
           else t.rows[id])
    case Normalize(ids) =>
      t.(rows := map id | id in t.rows :: if id in ids then t.rows[id].(columns := PRIVATE) else t.rows[id])
  }

  function Run(t: Table, ops: seq<Op>): Table
    decreases |ops|
  {
    if ops == [] then t else Run(Apply(t, ops[0]), ops[1..])
  }

  /** The same event, but for what minimizing drops and normalizing blanks. */
  predicate Same(a: Row, b: Row) {
    a.payload == b.payload
    || (a.payload.Ancs? && b.payload.Ancs? && a.payload.correlation == b.payload.correlation)
  }

  /** How `after` can follow `before`: ids are never reused, and events change
      only with `changes`, minimizing and normalizing apart. */
  ghost predicate Follows(before: Table, after: Table) {
    && before.next <= after.next && before.changes <= after.changes
    && (forall id | id in after.rows && id !in before.rows :: before.next <= id < after.next)
    && (after.changes == before.changes ==>
          forall id | id in after.rows && id in before.rows :: Same(before.rows[id], after.rows[id]))
  }

  lemma ApplyFollows(t: Table, op: Op)
    requires t.Valid()
    ensures Apply(t, op).Valid() && Follows(t, Apply(t, op))
  {
  }

  lemma FollowsTransitive(a: Table, b: Table, c: Table)
    requires a.Valid() && b.Valid() && Follows(a, b) && Follows(b, c)
    ensures Follows(a, c)
  {
    forall id | id in c.rows && id in a.rows
      ensures id in b.rows
    {
    }
  }

  lemma {:induction false} RunFollows(t: Table, ops: seq<Op>)
    requires t.Valid()
    ensures Run(t, ops).Valid() && Follows(t, Run(t, ops))
    decreases |ops|
  {
    if ops != [] {
      ApplyFollows(t, ops[0]);
      RunFollows(Apply(t, ops[0]), ops[1..]);
      FollowsTransitive(t, Apply(t, ops[0]), Run(t, ops));
    }
  }

  // ---- the revision -------------------------------------------------------

  /** COALESCE(MAX(id), 0) */
  ghost function MaxId(ids: set<nat>): (m: nat)
    ensures forall id | id in ids :: id <= m
    ensures if ids == {} then m == 0 else m in ids
  {
    if ids == {} then 0
    else
      var id :| id in ids;
      var rest := ids - {id};
      var m := MaxId(rest);
      assert ids == rest + {id};
      if id > m then id else m
  }

  datatype Revision = Revision(count: nat, newest: nat, changes: nat)

  ghost function RevisionOf(t: Table): Revision {
    Revision(|t.rows|, MaxId(t.rows.Keys), t.changes)
  }

  /** What `_search_version` returns: the conversation index's generation, the
      storage key's revision and the archive's. */
  datatype Version = Version(generation: nat, key: nat, history: Revision)

  /** backend_operations.py:1048-1061 */
  predicate OnlyAppended(before: Version, after: Version) {
    && (before.generation, before.key, before.history.changes)
       == (after.generation, after.key, after.history.changes)
    && after.history.newest >= before.history.newest
    && after.history.count - before.history.count == after.history.newest - before.history.newest
  }

  ghost function IdsBetween(lo: nat, hi: nat): (ids: set<nat>)
    requires lo <= hi
    ensures forall id :: id in ids <==> lo < id <= hi
    ensures |ids| == hi - lo
    decreases hi
  {
    if lo == hi then {} else IdsBetween(lo, hi - 1) + {hi}
  }

  lemma SubsetSize(a: set<nat>, b: set<nat>)
    requires a <= b
    ensures |a| <= |b|
    ensures |a| == |b| ==> a == b
  {
    assert b == a + (b - a);
    if |a| == |b| {
      assert b - a == {};
    }
  }

  /** The counting argument: what is left of the ids up to `lo` and the new
      ids up to `hi` only add up if none of either is missing. */
  lemma CountedIds(before: set<nat>, after: set<nat>, lo: nat, hi: nat)
    requires lo <= hi
    requires forall id | id in before :: id <= lo
    requires forall id | id in after :: id <= hi && (id in before || lo < id)
    ensures |after| - |before| == hi - lo
            <==> before <= after && forall id | lo < id <= hi :: id in after
  {
    var range, kept, added := IdsBetween(lo, hi), after * before, after - before;
    assert |after| == |kept| + |added| by {
      assert after == kept + added;
    }
    SubsetSize(kept, before);
    SubsetSize(added, range);
    if |after| - |before| == hi - lo {
      assert kept == before && added == range;
      assert kept <= after;
      forall id | lo < id <= hi
        ensures id in after
      {
        assert id in range;
      }
    }
    if before <= after && forall id | lo < id <= hi :: id in after {
      assert kept == before;
      assert range <= added;
      assert added == range;
    }
  }

  lemma CountedRows(before: Table, after: Table)
    requires before.Valid() && after.Valid() && Follows(before, after)
    requires MaxId(after.rows.Keys) >= MaxId(before.rows.Keys)
    ensures var lo, hi := MaxId(before.rows.Keys), MaxId(after.rows.Keys);
            |after.rows| - |before.rows| == hi - lo
            <==> before.rows.Keys <= after.rows.Keys && forall id | lo < id <= hi :: id in after.rows
  {
    var lo, hi := MaxId(before.rows.Keys), MaxId(after.rows.Keys);
    assert before.rows.Keys != {} ==> lo < before.next;
    forall id | id in after.rows.Keys
      ensures id <= hi && (id in before.rows.Keys || lo < id)
    {
    }
    CountedIds(before.rows.Keys, after.rows.Keys, lo, hi);
  }

  /** `_only_appended` accepts exactly when no row has gone and every id since
      then is there. */
  lemma OnlyAppendedExactly(t: Table, ops: seq<Op>, before: Version, after: Version)
    requires t.Valid() && before.history == RevisionOf(t) && after.history == RevisionOf(Run(t, ops))
    ensures OnlyAppended(before, after) <==>
            && before.generation == after.generation && before.key == after.key
            && before.history.changes == after.history.changes
            && before.history.newest <= after.history.newest
            && t.rows.Keys <= Run(t, ops).rows.Keys
            && forall id | before.history.newest < id <= after.history.newest :: id in Run(t, ops).rows
  {
    RunFollows(t, ops);
    if before.history.newest <= after.history.newest {
      CountedRows(t, Run(t, ops));
    }
  }

  /** Then every row is still there, and every message is unchanged. */
  lemma OnlyAppendedKeepsRows(t: Table, ops: seq<Op>, before: Version, after: Version)
    requires t.Valid() && before.history == RevisionOf(t) && after.history == RevisionOf(Run(t, ops))
    requires OnlyAppended(before, after)
    ensures forall id | id in t.rows :: id in Run(t, ops).rows && Same(t.rows[id], Run(t, ops).rows[id])
  {
    RunFollows(t, ops);
    OnlyAppendedExactly(t, ops, before, after);
  }

  lemma NewestLeaves(before: set<nat>, after: set<nat>)
    requires MaxId(before) == MaxId(after) && |before| == |after|
    requires forall id | id in after && id !in before :: forall other | other in before :: other < id
    requires forall id | id in after :: id >= 1
    ensures before == after
  {
    assert before != {} ==> MaxId(before) in before;
    assert forall id | id in after :: id <= MaxId(before);
    assert after <= before;
    SubsetSize(after, before);
  }

  /** The revision (history.py:450 promises that every append, update or
      deletion changes it) stays put exactly while the archive holds the same
      ids and nothing was counted. */
  lemma RevisionStaysExactly(before: Table, after: Table)
    requires before.Valid() && after.Valid() && Follows(before, after)
    ensures RevisionOf(before) == RevisionOf(after)
            <==> before.rows.Keys == after.rows.Keys && before.changes == after.changes
  {
    assert |after.rows| == |after.rows.Keys| && |before.rows| == |before.rows.Keys|;
    if RevisionOf(before) == RevisionOf(after) {
      NewestLeaves(before.rows.Keys, after.rows.Keys);
    }
  }

  /** The promise fails for exactly two kinds of update: of all operations that
      change the archive, the revision misses minimizing and normalizing. */
  lemma ChangesMissedExactly(t: Table, op: Op)
    requires t.Valid() && Apply(t, op) != t
    ensures RevisionOf(Apply(t, op)) == RevisionOf(t) <==> op.Minimize? || op.Normalize?
  {
    ApplyFollows(t, op);
    RevisionStaysExactly(t, Apply(t, op));
    match op {
      case Append(_) => assert t.next in Apply(t, op).rows;
      case Delete(ids) =>
        assert Apply(t, op).rows.Keys == t.rows.Keys ==> Apply(t, op).rows == t.rows;
      case MarkRead(_) =>
      case Minimize(ids) => assert Apply(t, op).rows.Keys == t.rows.Keys;
      case Normalize(ids) => assert Apply(t, op).rows.Keys == t.rows.Keys;
    }
  }

  /** And it does miss them: each can change an archive. */
  lemma MissedChangesHappen()
    ensures exists t: Table, op: Op :: op.Minimize? && t.Valid() && Apply(t, op) != t
    ensures exists t: Table, op: Op :: op.Normalize? && t.Valid() && Apply(t, op) != t
  {
    var notice, minimize := Table(map[1 := Row(Ancs(0, 7), PRIVATE)], 2, 0), Minimize({1});
    assert notice.rows[1].payload.extra == 7 && Apply(notice, minimize).rows[1].payload.extra == 0;
    assert notice.Valid() && Apply(notice, minimize) != notice;
    var legacy, normalize := Table(map[1 := Row(Message(0, true), Columns(1, Some(5)))], 2, 0), Normalize({1});
    assert legacy.rows[1].columns.kind == 1 && Apply(legacy, normalize).rows[1].columns == PRIVATE;
    assert legacy.Valid() && Apply(legacy, normalize) != legacy;
  }

  /** So while the revision stays put, every event is still there, the same. */
  lemma RevisionFixesArchive(before: Table, after: Table)
    requires before.Valid() && after.Valid() && Follows(before, after)
    requires RevisionOf(before) == RevisionOf(after)
    ensures before.rows.Keys == after.rows.Keys
    ensures forall id | id in before.rows :: Same(before.rows[id], after.rows[id])
  {
    RevisionStaysExactly(before, after);
  }

  // ---- the search reply ---------------------------------------------------
  datatype Contacts = Contacts(epoch: nat)

  /** What a search job read and found. Conversation and message results are
      given by the archive rows behind them. */
  datatype Outcome = Outcome(
    version: Option<Version>,   // None: the query was too short to search
    contacts: Option<Contacts>,
    records: Option<seq<nat>>,
    index: Option<nat>)         // the search index the job built, named by the threads it indexes

  /** The daemon when the reply is due; `threads` names the cached threads. */
  datatype Daemon = Daemon(readable: bool, version: Version, contacts: Option<Contacts>,
                           history: Option<seq<nat>>, photos: bool, threads: Option<nat>)

  /** One group of a search reply: what it shows, and of how many. */
  class SearchGroup<T> {
    var total: nat
    var results: seq<T>
    var available: bool

    constructor (total: nat, results: seq<T>, available: bool)
      ensures this.total == total && this.results == results && this.available == available
    {
      this.total, this.results, this.available := total, results, available;
    }

    method Empty(available: bool)
      modifies this
      ensures total == 0 && results == [] && this.available == available
    {
      total, results, this.available := 0, [], available;
    }
  }

  datatype Card = Card(id: nat, hasPhoto: bool)

  /** backend_operations.py:1063-1102, on the result of a finished search. */
  class SearchReply {
    const conversations: SearchGroup<nat>
    const messages: SearchGroup<nat>
    const contacts: SearchGroup<Card>
    const calls: SearchGroup<nat>

    predicate Distinct() {
      conversations != messages
    }

    constructor (conversations: SearchGroup<nat>, messages: SearchGroup<nat>, contacts: SearchGroup<Card>,
                 calls: SearchGroup<nat>)
      ensures this.conversations == conversations && this.messages == messages
              && this.contacts == contacts && this.calls == calls
    {
      this.conversations, this.messages, this.contacts, this.calls := conversations, messages, contacts, calls;
    }

    /** The contact cards come from a cache that has been reloaded. */
    static predicate ContactsStale(outcome: Outcome, now: Daemon) {
      outcome.contacts.Some? && (!now.readable || now.contacts != outcome.contacts)
    }

    static predicate HistoryStale(outcome: Outcome, now: Daemon) {
      outcome.version.Some? && (!now.readable || !OnlyAppended(outcome.version.value, now.version))
    }

    static predicate CallsStale(outcome: Outcome, now: Daemon) {
      outcome.records.Some?
      && (ContactsStale(outcome, now) || !now.readable || now.history != outcome.records)
    }

    /** Returns the index to keep for later searches. */
    method Finish(outcome: Outcome, now: Daemon) returns (kept: Option<nat>)
      requires Distinct() && conversations as object != calls && messages as object != calls
      requires conversations as object != contacts && messages as object != contacts && calls as object != contacts
      modifies conversations, messages, contacts, calls
      ensures HistoryStale(outcome, now) ==>
                && messages.results == [] && messages.total == 0
                && messages.available == old(messages.available)
                && conversations.results == [] && conversations.total == 0
                && conversations.available == old(conversations.available)
      ensures !HistoryStale(outcome, now) ==> unchanged(messages) && unchanged(conversations)
      ensures ContactsStale(outcome, now) ==>
                contacts.results == [] && contacts.total == 0 && contacts.available == now.contacts.Some?
      ensures !ContactsStale(outcome, now) ==>
                && contacts.available == old(contacts.available)
                && contacts.total == old(contacts.total) && |contacts.results| == |old(contacts.results)|
                && forall i | 0 <= i < |contacts.results| ::
                     contacts.results[i] == if now.photos then old(contacts.results)[i]
                                            else old(contacts.results)[i].(hasPhoto := false)
      ensures CallsStale(outcome, now) ==>
                && calls.results == [] && calls.total == 0
                && calls.available == (now.readable && now.history.Some?)
      ensures !CallsStale(outcome, now) ==> unchanged(calls)
      ensures kept == if HistoryStale(outcome, now) || outcome.index != now.threads then None else outcome.index
    {
      var index := outcome.index;
      if outcome.version.Some? && (!now.readable || !OnlyAppended(outcome.version.value, now.version)) {
        conversations.Empty(conversations.available);
        messages.Empty(messages.available);
        index := None;
      }
      var stale := outcome.contacts.Some? && (!now.readable || now.contacts != outcome.contacts);
      if stale {
        contacts.Empty(now.contacts.Some?);
      } else if !now.photos {
        var i, cards := 0, contacts.results;
        while i < |cards|
          invariant 0 <= i <= |cards| == |old(contacts.results)|
          invariant forall j | 0 <= j < |cards| ::
            cards[j] == if j < i then old(contacts.results)[j].(hasPhoto := false) else old(contacts.results)[j]
        {
          cards := cards[i := cards[i].(hasPhoto := false)];
          i := i + 1;
        }
        contacts.results := cards;
      }
      if outcome.records.Some? {
        var history := if now.readable then now.history else None;
        if stale || history.None? || history != outcome.records {
          calls.Empty(history.Some?);
        }
      }
      kept := if index.Some? && now.threads.Some? && index == now.threads then index else None;
    }
  }

  /** A reply never carries what is already gone: if the message results are
      kept, each row they came from is still in the archive, unchanged. */
  lemma KeptMessagesAreCurrent(t: Table, ops: seq<Op>, outcome: Outcome, now: Daemon, shown: seq<nat>)
    requires t.Valid() && outcome.version.Some? && outcome.version.value.history == RevisionOf(t)
    requires now.version.history == RevisionOf(Run(t, ops))
    requires forall i | 0 <= i < |shown| :: shown[i] in t.rows && t.rows[shown[i]].payload.Message?
    requires !SearchReply.HistoryStale(outcome, now)
    ensures forall i | 0 <= i < |shown| ::
              shown[i] in Run(t, ops).rows
              && Run(t, ops).rows[shown[i]].payload == t.rows[shown[i]].payload
  {
    OnlyAppendedKeepsRows(t, ops, outcome.version.value, now.version);
  }
}
