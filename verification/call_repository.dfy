/** The mirrored call history and the record of announced missed calls
    (call_history_repository.py). The database is the fields of the class;
    `Mirror` is its content as a value. */
module CallRepository {
  import opened Options
  import opened CallHistory
  import opened UnseenCalls

  const MAX_RECORDS := 2000

  /** A stored row: a record, one that decrypts to nothing usable, or one that
      fails authentication. */
  datatype Row = Sealed(record: CallRecord) | Unusable | Forged

  /** The announced keys with the time of their call. None: seeding is armed. */
  type Seen = Option<map<string, int>>

  /** `seenForged` and `phoneForged`: that entry fails authentication. */
  datatype Mirror =
    Mirror(rows: seq<Row>, seen: Seen, seenForged: bool, phone: Option<string>, phoneForged: bool)

  /** One answer of the phone: the records it lists, when it was asked, the
      instant retention reaches back to, and the directions it covers. */
  datatype Pull = Pull(records: seq<CallRecord>, cutoff: int, phone: Option<string>,
                       directions: Option<set<Direction>>)

  datatype Result = Result(records: seq<CallRecord>, newMissed: seq<CallRecord>, seeded: bool, changed: bool)

  datatype Outcome = Raised | Done(result: Result)

  // ---- reading ------------------------------------------------------------

  /** `_read_records`: None if a row is forged. */
  function Decode(rows: seq<Row>): Option<seq<CallRecord>> {
    if rows == [] then Some([])
    else
      var rest := Decode(rows[1..]);
      match rows[0]
      case Forged => None
      case Unusable => rest
      case Sealed(r) => if rest.None? then None else Some([r] + rest.value)
  }

  function FirstRows(rows: seq<Row>): seq<Row> { if |rows| > MAX_RECORDS then rows[..MAX_RECORDS] else rows }

  function SealAll(rs: seq<CallRecord>): (rows: seq<Row>)
    ensures |rows| == |rs|
  {
    seq(|rs|, i requires 0 <= i < |rs| => Sealed(rs[i]))
  }

  function Reverse(rs: seq<CallRecord>): (r: seq<CallRecord>)
    ensures |r| == |rs| && forall i | 0 <= i < |r| :: r[i] == rs[|rs| - 1 - i]
  {
    seq(|rs|, i requires 0 <= i < |rs| => rs[|rs| - 1 - i])
  }

  // ---- one replacement ----------------------------------------------------

  predicate Covers(directions: Option<set<Direction>>) {
    directions.None? || directions.value >= {Missed, Incoming, Outgoing}
  }

  function Pulled(directions: Option<set<Direction>>): set<Direction> {
    if directions.None? then {Missed, Incoming, Outgoing} else directions.value
  }

  /** `[r for r in rs if (r.direction in directions) == inside]` */
  function InDirections(rs: seq<CallRecord>, directions: set<Direction>, inside: bool): seq<CallRecord> {
    if rs == [] then []
    else (if (rs[0].direction in directions) == inside then [rs[0]] else [])
         + InDirections(rs[1..], directions, inside)
  }

  function Since(rs: seq<CallRecord>, cutoff: int): seq<CallRecord> {
    if rs == [] then []
    else (if rs[0].occurredAt >= cutoff then [rs[0]] else []) + Since(rs[1..], cutoff)
  }

  function MissedOf(rs: seq<CallRecord>): seq<CallRecord> { InDirections(rs, {Missed}, true) }

  /** A partial pull keeps the retained calls it did not cover. */
  function Listed(previous: seq<CallRecord>, pull: Pull): seq<CallRecord> {
    if Covers(pull.directions) then pull.records
    else Merge([InDirections(previous, pull.directions.value, false), pull.records], MAX_RECORDS)
  }

  function Kept(previous: seq<CallRecord>, pull: Pull): seq<CallRecord> {
    Cap(SortNewest(Since(Listed(previous, pull), pull.cutoff)), MAX_RECORDS)
  }

  function Noted(known: map<string, int>, missed: seq<CallRecord>): map<string, int> {
    if missed == [] then known
    else Noted(known, missed[..|missed| - 1])[Key(missed[|missed| - 1]) := missed[|missed| - 1].occurredAt]
  }

  /** `_retained_seen`: the keys inside the window, the newest if capped. */
  ghost predicate Retains(retained: map<string, int>, known: map<string, int>, cutoff: int, cap: nat) {
    var inside := set k | k in known && known[k] >= cutoff;
    && (forall k | k in retained :: k in inside && retained[k] == known[k])
    && |retained.Keys| == (if |inside| <= cap then |inside| else cap)
    && (forall k, l | k in retained && l in inside && l !in retained :: known[l] <= known[k])
  }

  /** A different paired phone erases the other one's calls and announcements. */
  predicate OtherPhone(stored: Option<string>, phone: Option<string>) {
    phone.Some? && stored.Some? && stored != phone
  }

  function Previous(m: Mirror, pull: Pull): seq<CallRecord>
    requires Decode(FirstRows(m.rows)).Some?
  {
    if OtherPhone(m.phone, pull.phone) then [] else Decode(FirstRows(m.rows)).value
  }

  function KnownSeen(m: Mirror, pull: Pull): Seen {
    if OtherPhone(m.phone, pull.phone) then None else m.seen
  }

  ghost predicate Readable(m: Mirror) { Decode(FirstRows(m.rows)).Some? && !m.seenForged && !m.phoneForged }

  /** What a pull makes of the retained calls and the announced keys. */
  ghost predicate Answers(previous: seq<CallRecord>, seen: Seen, pull: Pull, newMissed: seq<CallRecord>,
                          retained: Seen, wall: WallClock, cap: nat)
  {
    var kept := Kept(previous, pull);
    var known := if seen.Some? then seen.value else map[];
    && (if seen.None? then newMissed == []
        else Announces(newMissed, MissedOf(kept), known, kept,
                       Rerendered(InDirections(previous, Pulled(pull.directions), true), pull.records), wall))
    && (if seen.None? && kept == [] then retained == None
        else retained.Some? && Retains(retained.value, Noted(known, MissedOf(kept)), pull.cutoff, cap))
  }

  /** The whole effect of one successful `replace`. */
  ghost predicate Replaced(m: Mirror, pull: Pull, after: Mirror, result: Result, wall: WallClock, cap: nat)
    requires Readable(m)
  {
    var kept := Kept(Previous(m, pull), pull);
    && result.records == kept
    && result.seeded == KnownSeen(m, pull).None?
    && Answers(Previous(m, pull), KnownSeen(m, pull), pull, result.newMissed, after.seen, wall, cap)
    && result.changed == (Decode(FirstRows(m.rows)).value != Reverse(kept))
    && after.rows == (if result.changed then SealAll(Reverse(kept)) else m.rows)
    && !after.seenForged && !after.phoneForged
    && after.phone == (if pull.phone.Some? then pull.phone else m.phone)
  }

  // ---- the code -----------------------------------------------------------

  class CallHistoryRepository {
    var rows: seq<Row>
    var seen: Seen
    var seenForged: bool
    var phone: Option<string>
    var phoneForged: bool
    var usable: bool        // storage can be read and written
    const cap: nat          // MAX_CALL_HISTORY_SEEN_KEYS
    const wall: WallClock

    function View(): Mirror
      reads this
    {
      Mirror(rows, seen, seenForged, phone, phoneForged)
    }

    constructor (cap: nat, wall: WallClock)
      ensures View() == Mirror([], None, false, None, false) && this.cap == cap && this.wall == wall
    {
      rows, seen, seenForged, phone, phoneForged, usable := [], None, false, None, false, true;
      this.cap, this.wall := cap, wall;
    }

    /** call_history_repository.py:391-401 */
    method RetainedSeen(known: map<string, int>, cutoff: int) returns (retained: map<string, int>)
      ensures Retains(retained, known, cutoff, cap)
    {
      var inside := set k | k in known && known[k] >= cutoff;
      var todo := inside;
      retained := map[];
      while todo != {} && |retained| < cap
        invariant todo <= inside
        invariant retained.Keys == inside - todo
        invariant |retained.Keys| == |inside| - |todo| && |retained.Keys| <= cap
        invariant forall k | k in retained :: retained[k] == known[k]
        invariant forall k, l | k in retained && l in todo :: known[l] <= known[k]
        decreases todo
      {
        var newest := Newest(todo, known);
        todo := todo - {newest};
        retained := retained[newest := known[newest]];
      }
    }

    static method Newest(keys: set<string>, known: map<string, int>) returns (newest: string)
      requires keys != {} && keys <= known.Keys
      ensures newest in keys && forall k | k in keys :: known[k] <= known[newest]
    {
      newest :| newest in keys;
      var todo := keys - {newest};
      while todo != {}
        invariant todo <= keys && newest in keys
        invariant forall k | k in keys - todo :: known[k] <= known[newest]
        decreases todo
      {
        var key :| key in todo;
        todo := todo - {key};
        if known[key] > known[newest] {
          newest := key;
        }
      }
    }

    /** Lines 231-262: the calls to keep and to announce, and the keys to
        remember. */
    method Answer(previous: seq<CallRecord>, seenNow: Seen, pull: Pull)
      returns (kept: seq<CallRecord>, newMissed: seq<CallRecord>, retainedSeen: Seen)
      ensures kept == Kept(previous, pull)
      ensures Answers(previous, seenNow, pull, newMissed, retainedSeen, wall, cap)
    {
      var incoming := pull.records;
      if !Covers(pull.directions) {
        incoming := MergeCallHistory([InDirections(previous, pull.directions.value, false), incoming], MAX_RECORDS);
      }
      kept := Cap(SortNewest(Since(incoming, pull.cutoff)), MAX_RECORDS);
      var seeded := seenNow.None?;
      var known := if seeded then map[] else seenNow.value;
      var missed := MissedOf(kept);
      newMissed := [];
      if !seeded {
        var rerendered := Rerendered(InDirections(previous, Pulled(pull.directions), true), pull.records);
        newMissed := Unseen(missed, known, kept, rerendered, wall);
      }
      var noted := NoteMissed(known, missed);
      var retained := RetainedSeen(noted, pull.cutoff);
      retainedSeen := if seeded && kept == [] then None else Some(retained);
    }

    static method NoteMissed(known: map<string, int>, missed: seq<CallRecord>) returns (noted: map<string, int>)
      ensures noted == Noted(known, missed)
    {
      noted := known;
      var i := 0;
      while i < |missed|
        invariant 0 <= i <= |missed| && noted == Noted(known, missed[..i])
      {
        noted := noted[Key(missed[i]) := missed[i].occurredAt];
        assert missed[..i + 1][..i] == missed[..i];
        i := i + 1;
      }
      assert missed[..|missed|] == missed;
    }

    /** call_history_repository.py:179-292; data that fails authentication stops
        all access to the storage. */
    method Replace(pull: Pull) returns (outcome: Outcome)
      modifies this
      ensures usable == (old(usable) && Readable(old(View())))
      ensures outcome.Raised? <==> !usable || !Readable(old(View()))
      ensures outcome.Raised? ==> View() == old(View())
      ensures outcome.Done? ==> Replaced(old(View()), pull, View(), outcome.result, wall, cap)
    {
      if !usable {
        return Raised;
      }
      var read := Decode(FirstRows(rows));
      if seenForged || phoneForged || read.None? {
        usable := false;
        return Raised;
      }
      var storedRecords, storedSeen := read.value, seen;
      var previous, seenNow := storedRecords, storedSeen;
      if pull.phone.Some? && phone.Some? && phone != pull.phone {
        previous, seenNow := [], None;
      }
      var kept, newMissed, retainedSeen := Answer(previous, seenNow, pull);
      var changed := storedRecords != Reverse(kept);
      var seenChanged := retainedSeen != storedSeen;
      var phoneChanged := pull.phone.Some? && phone != pull.phone;
      if changed || seenChanged || phoneChanged {
        if changed {
          rows := SealAll(Reverse(kept));
        }
        if seenChanged {
          seen := retainedSeen;
        }
        if phoneChanged {
          phone := pull.phone;
        }
      }
      outcome := Done(Result(kept, newMissed, seenNow.None?, changed));
    }

    /** call_history_repository.py:312-323 */
    method ForgetAnnouncements()
      modifies this
      ensures View() == old(View()).(seen := None, seenForged := false)
    {
      seen, seenForged := None, false;
    }

    /** call_history_repository.py:325-369; returns the number of rows deleted. */
    method Prune(cutoff: int) returns (deleted: nat)
      modifies this
      ensures usable == (old(usable) && Forged !in old(rows) && !old(seenForged))
      ensures !usable ==> View() == old(View()) && deleted == 0
      ensures usable ==> Pruned(old(View()), View(), cutoff, cap) && deleted == |old(rows)| - |rows|
    {
      if !usable {
        return 0;
      }
      if Forged in rows || seenForged {
        usable := false;
        return 0;
      }
      var kept: seq<Row> := [];
      var i := 0;
      while i < |rows|
        invariant 0 <= i <= |rows| && View() == old(View()) && usable == old(usable)
        invariant kept == Unexpired(rows[..i], cutoff) && |kept| <= i
      {
        assert rows[..i + 1][..i] == rows[..i];
        if rows[i].Sealed? && rows[i].record.occurredAt >= cutoff {
          kept := kept + [rows[i]];
        }
        i := i + 1;
      }
      assert rows[..|rows|] == rows;
      deleted := |rows| - |kept|;
      rows := kept;
      if seen.Some? {
        var retained := RetainedSeen(seen.value, cutoff);
        seen := Some(retained);
      }
    }

    /** call_history_repository.py:371-388 */
    method Clear()
      modifies this
      ensures View() == Mirror([], None, false, None, false) && usable == old(usable)
    {
      rows, seen, seenForged, phone, phoneForged := [], None, false, None, false;
    }
  }

  function Unexpired(rows: seq<Row>, cutoff: int): seq<Row> {
    if rows == [] then []
    else Unexpired(rows[..|rows| - 1], cutoff)
         + if rows[|rows| - 1].Sealed? && rows[|rows| - 1].record.occurredAt >= cutoff then [rows[|rows| - 1]] else []
  }

  ghost predicate Pruned(m: Mirror, after: Mirror, cutoff: int, cap: nat) {
    && after.rows == Unexpired(m.rows, cutoff)
    && after.phone == m.phone && after.seenForged == m.seenForged && after.phoneForged == m.phoneForged
    && (if m.seen.None? then after.seen == None
        else after.seen.Some? && Retains(after.seen.value, m.seen.value, cutoff, cap))
  }
}
