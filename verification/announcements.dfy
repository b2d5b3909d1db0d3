/** Whole runs of the mirror (call_history_repository.py:179-391): each missed
    call is announced at most once, and seeding is silent. */
module Announcements {
  import opened Options
  import opened CallHistory
  import opened UnseenCalls
  import opened CallRepository

  /** How the desktop's zone reads a timestamp of the phone. */
  type Zone = string -> int

  predicate InZone(r: CallRecord, zone: Zone) { Proper(r) && r.occurredAt == zone(r.rawTime) }

  ghost predicate AllInZone(rs: seq<CallRecord>, zone: Zone) { forall i | 0 <= i < |rs| :: InZone(rs[i], zone) }

  ghost predicate DistinctKeys(rs: seq<CallRecord>) {
    forall i, j | 0 <= i < j < |rs| :: Key(rs[i]) != Key(rs[j])
  }

  ghost predicate RowsInZone(rows: seq<Row>, zone: Zone) {
    forall i | 0 <= i < |rows| && rows[i].Sealed? :: InZone(rows[i].record, zone)
  }

  // ---- what a pull keeps --------------------------------------------------

  /** Every record of `part` is one of `whole`. */
  ghost predicate Within(part: seq<CallRecord>, whole: seq<CallRecord>) { forall r | r in part :: r in whole }

  lemma WithinTail(part: seq<CallRecord>, whole: seq<CallRecord>)
    requires whole != [] && Within(part, whole[1..])
    ensures Within(part, whole) && Within([whole[0]] + part, whole)
    ensures DistinctCalls(whole) && DistinctCalls(part) ==> DistinctCalls([whole[0]] + part)
  {
    if DistinctCalls(whole) {
      forall i | 0 <= i < |part|
        ensures MergeKeyOf(part[i]) != MergeKeyOf(whole[0])
      {
        assert part[i] in whole[1..];
      }
    }
  }

  lemma WithinInZone(part: seq<CallRecord>, whole: seq<CallRecord>, zone: Zone)
    requires Within(part, whole) && AllInZone(whole, zone)
    ensures AllInZone(part, zone)
  {
    forall i | 0 <= i < |part|
      ensures InZone(part[i], zone)
    {
      assert part[i] in whole;
    }
  }

  lemma {:induction false} SinceFilters(rs: seq<CallRecord>, cutoff: int)
    ensures Within(Since(rs, cutoff), rs)
    ensures forall r | r in Since(rs, cutoff) :: r.occurredAt >= cutoff
    ensures DistinctCalls(rs) ==> DistinctCalls(Since(rs, cutoff))
  {
    if rs != [] {
      SinceFilters(rs[1..], cutoff);
      WithinTail(Since(rs[1..], cutoff), rs);
    }
  }

  lemma {:induction false} InDirectionsFilters(rs: seq<CallRecord>, directions: set<Direction>, inside: bool)
    ensures Within(InDirections(rs, directions, inside), rs)
    ensures DistinctCalls(rs) ==> DistinctCalls(InDirections(rs, directions, inside))
  {
    if rs != [] {
      InDirectionsFilters(rs[1..], directions, inside);
      WithinTail(InDirections(rs[1..], directions, inside), rs);
    }
  }

  lemma FlattenTwo(a: seq<CallRecord>, b: seq<CallRecord>)
    ensures Flatten([a, b]) == a + b
  {
    FlattenOne(a);
    assert [a, b][..1] == [a];
  }

  lemma ConcatInZone(a: seq<CallRecord>, b: seq<CallRecord>, zone: Zone)
    requires AllInZone(a, zone) && AllInZone(b, zone)
    ensures AllInZone(a + b, zone) && AllProper(a + b)
  {
  }

  lemma MergedInZone(a: seq<CallRecord>, b: seq<CallRecord>, zone: Zone)
    requires AllInZone(a, zone) && AllInZone(b, zone)
    ensures AllInZone(MergeAll([a, b]), zone) && DistinctCalls(MergeAll([a, b]))
  {
    FlattenTwo(a, b);
    ConcatInZone(a, b, zone);
    MergeNormalForm([a, b]);
    var all := MergeAll([a, b]);
    forall j | 0 <= j < |all|
      ensures InZone(all[j], zone)
    {
    }
  }

  lemma CappedWithin(rs: seq<CallRecord>, maximum: int)
    ensures Within(Cap(rs, maximum), rs)
    ensures DistinctCalls(rs) ==> DistinctCalls(Cap(rs, maximum))
  {
  }

  lemma SortedWithin(rs: seq<CallRecord>)
    ensures Within(SortNewest(rs), rs)
  {
    SortIsPermutation(rs);
    forall r | r in SortNewest(rs)
      ensures r in rs
    {
      assert r in multiset(SortNewest(rs));
    }
  }

  /** What parsing and merging the phone's lists guarantee of a pull. */
  ghost predicate WellFormed(pull: Pull, zone: Zone) {
    AllInZone(pull.records, zone) && DistinctCalls(pull.records)
  }

  lemma ListedIsWellFormed(previous: seq<CallRecord>, pull: Pull, zone: Zone)
    requires AllInZone(previous, zone) && WellFormed(pull, zone)
    ensures AllInZone(Listed(previous, pull), zone) && DistinctCalls(Listed(previous, pull))
  {
    if !Covers(pull.directions) {
      var others := InDirections(previous, pull.directions.value, false);
      InDirectionsFilters(previous, pull.directions.value, false);
      WithinInZone(others, previous, zone);
      MergedInZone(others, pull.records, zone);
      CappedWithin(MergeAll([others, pull.records]), MAX_RECORDS);
      WithinInZone(Listed(previous, pull), MergeAll([others, pull.records]), zone);
    }
  }

  lemma KeptIsWellFormed(previous: seq<CallRecord>, pull: Pull, zone: Zone)
    requires AllInZone(previous, zone) && WellFormed(pull, zone)
    ensures AllInZone(Kept(previous, pull), zone) && DistinctCalls(Kept(previous, pull))
    ensures forall r | r in Kept(previous, pull) :: r.occurredAt >= pull.cutoff
  {
    var listed, kept := Listed(previous, pull), Kept(previous, pull);
    var recent := Since(listed, pull.cutoff);
    ListedIsWellFormed(previous, pull, zone);
    SinceFilters(listed, pull.cutoff);
    WithinInZone(recent, listed, zone);
    SortedDistinct(recent);
    SortedWithin(recent);
    CappedWithin(SortNewest(recent), MAX_RECORDS);
    assert Within(kept, recent);
    WithinInZone(kept, recent, zone);
  }

  lemma DistinctCallsHaveDistinctKeys(rs: seq<CallRecord>, zone: Zone)
    requires DistinctCalls(rs) && AllInZone(rs, zone)
    ensures DistinctKeys(rs)
  {
    forall i, j | 0 <= i < j < |rs|
      ensures Key(rs[i]) != Key(rs[j])
    {
      KeyDetermines(rs[i], rs[j]);
    }
  }

  // ---- what an answer announces -------------------------------------------

  lemma {:induction false} FreshAreUnknown(missed: seq<CallRecord>, known: map<string, int>)
    ensures forall r | r in Fresh(missed, known) :: r in missed && Key(r) !in known
    ensures DistinctKeys(missed) ==> DistinctKeys(Fresh(missed, known))
  {
    if missed == [] {
      return;
    }
    FreshAreUnknown(missed[1..], known);
    InTail(missed);
    if DistinctKeys(missed) {
      TailDistinct(missed);
      ConsDistinct(missed[0], Fresh(missed[1..], known));
    }
  }

  lemma {:induction false} AnnouncedAreFresh(novel: seq<CallRecord>, pool: seq<Candidate>, wall: WallClock,
                                             common: int)
    ensures forall r | r in Announce(novel, pool, wall, common) :: r in novel
    ensures DistinctKeys(novel) ==> DistinctKeys(Announce(novel, pool, wall, common))
  {
    if novel == [] {
      return;
    }
    var i := EarlierRendering(novel[0], pool, wall, common);
    var rest := if i < |pool| then pool[..i] + pool[i + 1..] else pool;
    var later := Announce(novel[1..], rest, wall, common);
    AnnouncedAreFresh(novel[1..], rest, wall, common);
    assert Announce(novel, pool, wall, common) == if i < |pool| then later else [novel[0]] + later;
    InTail(novel);
    if DistinctKeys(novel) {
      TailDistinct(novel);
      if i >= |pool| {
        ConsDistinct(novel[0], later);
      }
    }
  }

  lemma InTail(rs: seq<CallRecord>)
    requires rs != []
    ensures forall r | r in rs[1..] :: r in rs
  {
  }

  lemma TailDistinct(rs: seq<CallRecord>)
    requires rs != [] && DistinctKeys(rs)
    ensures DistinctKeys(rs[1..]) && forall r | r in rs[1..] :: Key(r) != Key(rs[0])
  {
  }

  lemma ConsDistinct(r: CallRecord, rs: seq<CallRecord>)
    requires DistinctKeys(rs) && forall x | x in rs :: Key(x) != Key(r)
    ensures DistinctKeys([r] + rs)
  {
  }

  lemma AnnouncesOnlyUnknown(unseen: seq<CallRecord>, missed: seq<CallRecord>, known: map<string, int>,
                             current: seq<CallRecord>, rerendered: bool, wall: WallClock)
    requires Announces(unseen, missed, known, current, rerendered, wall) && DistinctKeys(missed)
    ensures DistinctKeys(unseen) && forall r | r in unseen :: r in missed && Key(r) !in known
  {
    var novel := Fresh(missed, known);
    FreshAreUnknown(missed, known);
    if novel != [] && rerendered {
      var pool, common :| AnnouncesBy(unseen, novel, known.Keys, KeySet(current), wall, pool, common);
      AnnouncedAreFresh(novel, pool, wall, common);
    }
  }

  lemma {:induction false} NotedKeys(known: map<string, int>, missed: seq<CallRecord>, zone: Zone)
    requires AllInZone(missed, zone)
    ensures var noted := Noted(known, missed);
            && (forall r | r in missed :: Key(r) in noted && noted[Key(r)] == r.occurredAt)
            && (forall k | k in known :: k in noted && (noted[k] == known[k] || exists r :: r in missed && Key(r) == k))
  {
    if missed != [] {
      var init, last := missed[..|missed| - 1], missed[|missed| - 1];
      assert init + [last] == missed;
      NotedKeys(known, init, zone);
      forall r | r in missed
        ensures Noted(known, missed)[Key(r)] == r.occurredAt
      {
        if Key(r) == Key(last) {
          KeyDetermines(r, last);
        } else {
          assert r in init;
        }
      }
      assert last in missed;
      assert forall r | r in init :: r in missed;
    }
  }

  // ---- runs ---------------------------------------------------------------

  datatype Step =
    | Synced(pull: Pull, result: Result, after: Mirror)
    | Expired(cutoff: int, after: Mirror)
  {
    function Floor(): int { if Synced? then pull.cutoff else cutoff }
    function NewMissed(): seq<CallRecord> { if Synced? then result.newMissed else [] }
  }

  function KeysInside(known: map<string, int>, cutoff: int): set<string> { set k | k in known && known[k] >= cutoff }

  /** The announced keys of the window fit the record of them. */
  ghost predicate Fits(m: Mirror, pull: Pull, cap: nat)
    requires Readable(m)
  {
    var known := if m.seen.Some? then m.seen.value else map[];
    |KeysInside(Noted(known, MissedOf(Kept(Previous(m, pull), pull))), pull.cutoff)| <= cap
  }

  /** One sync or expiry of the one phone, at a time not before `floor`. */
  ghost predicate Allowed(m: Mirror, s: Step, floor: int, zone: Zone, wall: WallClock, cap: nat) {
    && s.Floor() >= floor
    && (match s
        case Synced(pull, result, after) =>
          && Readable(m) && Replaced(m, pull, after, result, wall, cap)
          && !OtherPhone(m.phone, pull.phone) && WellFormed(pull, zone) && Fits(m, pull, cap)
        case Expired(cutoff, after) => Pruned(m, after, cutoff, cap))
  }

  ghost predicate Run(m: Mirror, steps: seq<Step>, floor: int, zone: Zone, wall: WallClock, cap: nat)
    decreases |steps|
  {
    steps == []
    || (Allowed(m, steps[0], floor, zone, wall, cap)
        && Run(steps[0].after, steps[1..], steps[0].Floor(), zone, wall, cap))
  }

  function Announced(steps: seq<Step>): seq<CallRecord> {
    if steps == [] then [] else steps[0].NewMissed() + Announced(steps[1..])
  }

  /** The stored calls are the phone's, and their announcement record fits. */
  ghost predicate Sound(m: Mirror, zone: Zone, cap: nat) {
    RowsInZone(m.rows, zone) && (m.seen.Some? ==> |m.seen.value.Keys| <= cap)
  }

  /** Every call announced so far is on record, or expired. */
  ghost predicate Remembers(m: Mirror, announced: seq<CallRecord>, floor: int, zone: Zone) {
    && AllInZone(announced, zone) && DistinctKeys(announced)
    && forall i | 0 <= i < |announced| :: OnRecord(m.seen, announced[i], floor)
  }

  predicate OnRecord(seen: Seen, r: CallRecord, floor: int) {
    r.occurredAt < floor || (seen.Some? && Key(r) in seen.value && seen.value[Key(r)] == r.occurredAt)
  }

  lemma SameSize<T>(a: set<T>, b: set<T>)
    requires a <= b && |a| == |b|
    ensures a == b
  {
    if a != b {
      var x :| x in b && x !in a;
      assert a <= b - {x};
      Smaller(a, b - {x});
    }
  }

  lemma Smaller<T>(a: set<T>, b: set<T>)
    requires a <= b
    ensures |a| <= |b|
  {
    assert |b| == |a| + |b - a| by {
      assert b == a + (b - a);
    }
  }

  lemma RetainsInside(retained: map<string, int>, known: map<string, int>, cutoff: int, cap: nat)
    requires Retains(retained, known, cutoff, cap)
    requires |KeysInside(known, cutoff)| <= cap
    ensures forall k | k in known && known[k] >= cutoff :: k in retained && retained[k] == known[k]
    ensures |retained.Keys| <= cap
  {
    SameSize(retained.Keys, KeysInside(known, cutoff));
  }

  lemma {:induction false} DecodedInZone(rows: seq<Row>, zone: Zone)
    requires RowsInZone(rows, zone) && Decode(rows).Some?
    ensures AllInZone(Decode(rows).value, zone)
  {
    if rows != [] {
      DecodedInZone(rows[1..], zone);
    }
  }

  lemma {:induction false} UnexpiredInZone(rows: seq<Row>, cutoff: int, zone: Zone)
    requires RowsInZone(rows, zone)
    ensures RowsInZone(Unexpired(rows, cutoff), zone)
  {
    if rows != [] {
      UnexpiredInZone(rows[..|rows| - 1], cutoff, zone);
    }
  }

  lemma ExpiryRemembers(m: Mirror, after: Mirror, cutoff: int, announced: seq<CallRecord>, floor: int, zone: Zone,
                        cap: nat)
    requires Pruned(m, after, cutoff, cap) && floor <= cutoff
    requires Sound(m, zone, cap) && Remembers(m, announced, floor, zone)
    ensures Sound(after, zone, cap) && Remembers(after, announced, cutoff, zone)
  {
    UnexpiredInZone(m.rows, cutoff, zone);
    if m.seen.Some? {
      Smaller(KeysInside(m.seen.value, cutoff), m.seen.value.Keys);
      RetainsInside(after.seen.value, m.seen.value, cutoff, cap);
    }
    forall i | 0 <= i < |announced|
      ensures OnRecord(after.seen, announced[i], cutoff)
    {
      assert OnRecord(m.seen, announced[i], floor);
    }
  }

  /** A call already announced is still on record after another sync. */
  lemma StillOnRecord(known: map<string, int>, missed: seq<CallRecord>, retained: map<string, int>,
                                         r: CallRecord, floor: int, cutoff: int, zone: Zone, cap: nat)
    requires AllInZone(missed, zone) && InZone(r, zone) && floor <= cutoff
    requires Retains(retained, Noted(known, missed), cutoff, cap)
    requires |KeysInside(Noted(known, missed), cutoff)| <= cap
    requires OnRecord(Some(known), r, floor) || r in missed
    ensures OnRecord(Some(retained), r, cutoff)
  {
    NotedKeys(known, missed, zone);
    RetainsInside(retained, Noted(known, missed), cutoff, cap);
    if r !in missed && r.occurredAt >= cutoff && Noted(known, missed)[Key(r)] != known[Key(r)] {
      var x :| x in missed && Key(x) == Key(r);
      KeyDetermines(x, r);
    }
  }

  lemma FirstRowsInZone(rows: seq<Row>, zone: Zone)
    requires RowsInZone(rows, zone) && Decode(FirstRows(rows)).Some?
    ensures AllInZone(Decode(FirstRows(rows)).value, zone)
  {
    DecodedInZone(FirstRows(rows), zone);
  }

  /** What one sync announces is new, and goes on record with the rest. */
  lemma SyncRemembers(m: Mirror, pull: Pull, after: Mirror, result: Result, announced: seq<CallRecord>, floor: int,
                      zone: Zone, wall: WallClock, cap: nat)
    requires Sound(m, zone, cap) && Remembers(m, announced, floor, zone)
    requires Allowed(m, Synced(pull, result, after), floor, zone, wall, cap)
    ensures Sound(after, zone, cap) && Remembers(after, announced + result.newMissed, pull.cutoff, zone)
  {
    var previous := Previous(m, pull);
    FirstRowsInZone(m.rows, zone);
    KeptIsWellFormed(previous, pull, zone);
    AnswerRemembers(previous, m.seen, pull, result.newMissed, after.seen, announced, floor, zone, wall, cap);
  }

  lemma AnswerRemembers(previous: seq<CallRecord>, seen: Seen, pull: Pull, newMissed: seq<CallRecord>, retained: Seen,
                        announced: seq<CallRecord>, floor: int, zone: Zone, wall: WallClock, cap: nat)
    requires var kept := Kept(previous, pull);
             && AllInZone(kept, zone) && DistinctCalls(kept) && (forall r | r in kept :: r.occurredAt >= pull.cutoff)
             && |KeysInside(Noted(if seen.Some? then seen.value else map[], MissedOf(kept)), pull.cutoff)| <= cap
    requires Answers(previous, seen, pull, newMissed, retained, wall, cap)
    requires AllInZone(announced, zone) && DistinctKeys(announced) && floor <= pull.cutoff
    requires forall i | 0 <= i < |announced| :: OnRecord(seen, announced[i], floor)
    ensures AllInZone(announced + newMissed, zone) && DistinctKeys(announced + newMissed)
    ensures retained.Some? ==> |retained.value.Keys| <= cap
    ensures forall i | 0 <= i < |announced + newMissed| :: OnRecord(retained, (announced + newMissed)[i], pull.cutoff)
  {
    var kept := Kept(previous, pull);
    var missed, known := MissedOf(kept), if seen.Some? then seen.value else map[];
    InDirectionsFilters(kept, {Missed}, true);
    WithinInZone(missed, kept, zone);
    DistinctCallsHaveDistinctKeys(missed, zone);
    if seen.Some? {
      AnnouncesOnlyUnknown(newMissed, missed, known, kept,
                           Rerendered(InDirections(previous, Pulled(pull.directions), true), pull.records), wall);
    }
    NewAreInZone(newMissed, missed, zone);
    forall i, j | 0 <= i < |announced| && 0 <= j < |newMissed|
      ensures Key(announced[i]) != Key(newMissed[j])
    {
      assert OnRecord(seen, announced[i], floor);
      assert newMissed[j] in newMissed;
      if Key(announced[i]) == Key(newMissed[j]) {
        KeyDetermines(announced[i], newMissed[j]);
      }
    }
    if retained.Some? {
      RetainsInside(retained.value, Noted(known, missed), pull.cutoff, cap);
      forall i | 0 <= i < |announced + newMissed|
        ensures OnRecord(retained, (announced + newMissed)[i], pull.cutoff)
      {
        var r := (announced + newMissed)[i];
        if i < |announced| {
          assert OnRecord(seen, announced[i], floor);
        } else {
          assert newMissed[i - |announced|] in newMissed;
        }
        StillOnRecord(known, missed, retained.value, r, floor, pull.cutoff, zone, cap);
      }
    }
  }

  lemma NewAreInZone(newMissed: seq<CallRecord>, missed: seq<CallRecord>, zone: Zone)
    requires AllInZone(missed, zone) && forall r | r in newMissed :: r in missed
    ensures AllInZone(newMissed, zone)
  {
    WithinInZone(newMissed, missed, zone);
  }

  lemma StepRemembers(m: Mirror, s: Step, announced: seq<CallRecord>, floor: int, zone: Zone,
                                         wall: WallClock, cap: nat)
    requires Sound(m, zone, cap) && Remembers(m, announced, floor, zone)
    requires Allowed(m, s, floor, zone, wall, cap)
    ensures Sound(s.after, zone, cap) && Remembers(s.after, announced + s.NewMissed(), s.Floor(), zone)
  {
    match s {
      case Synced(pull, result, after) =>
        SyncRemembers(m, pull, after, result, announced, floor, zone, wall, cap);
      case Expired(cutoff, after) =>
        ExpiryRemembers(m, after, cutoff, announced, floor, zone, cap);
        assert announced + [] == announced;
    }
  }

  lemma AnnouncedMore(steps: seq<Step>, earlier: seq<CallRecord>)
    ensures steps == [] ==> earlier + Announced(steps) == earlier
    ensures steps != [] ==>
      earlier + Announced(steps) == (earlier + steps[0].NewMissed()) + Announced(steps[1..])
  {
  }

  lemma {:induction false} RunRemembers(m: Mirror, steps: seq<Step>, announced: seq<CallRecord>, floor: int,
                                        zone: Zone, wall: WallClock, cap: nat)
    requires Sound(m, zone, cap) && Remembers(m, announced, floor, zone)
    requires Run(m, steps, floor, zone, wall, cap)
    ensures DistinctKeys(announced + Announced(steps))
    decreases |steps|
  {
    AnnouncedMore(steps, announced);
    if steps != [] {
      StepRemembers(m, steps[0], announced, floor, zone, wall, cap);
      RunRemembers(steps[0].after, steps[1..], announced + steps[0].NewMissed(), steps[0].Floor(), zone, wall, cap);
    }
  }

  /** No missed call is announced twice over any run of full and partial syncs
      and expiries of one phone in one zone whose announcement record has room. */
  lemma {:induction false} MissedCallsAreAnnouncedOnce(m: Mirror, steps: seq<Step>, floor: int, zone: Zone,
        wall: WallClock, cap: nat)
    requires Sound(m, zone, cap) && Run(m, steps, floor, zone, wall, cap)
    ensures DistinctKeys(Announced(steps))
  {
    RunRemembers(m, steps, [], floor, zone, wall, cap);
    assert [] + Announced(steps) == Announced(steps);
  }

  // ---- seeding ------------------------------------------------------------

  /** What can happen to the mirror: any phone is synced or retention passes,
      the phone is forgotten, or the user clears the history. */
  datatype Change =
    | Stepped(step: Step)
    | Forgot(kept: Mirror)
    | Cleared
  {
    function After(): Mirror {
      match this
      case Stepped(step) => step.after
      case Forgot(kept) => kept
      case Cleared => Mirror([], None, false, None, false)
    }

    function Missed(): seq<CallRecord> { if Stepped? then step.NewMissed() else [] }

    /** A sync that lists calls. */
    predicate Lists() { Stepped? && step.Synced? && step.result.records != [] }
  }

  ghost predicate Happens(m: Mirror, c: Change, wall: WallClock, cap: nat) {
    match c
    case Stepped(Synced(pull, result, after)) => Readable(m) && Replaced(m, pull, after, result, wall, cap)
    case Stepped(Expired(cutoff, after)) => Pruned(m, after, cutoff, cap)
    case Forgot(kept) => kept == m.(seen := None, seenForged := false)
    case Cleared => true
  }

  /** The mirror before the `i`-th change. */
  function Before(m: Mirror, changes: seq<Change>, i: nat): Mirror
    requires i < |changes|
  {
    if i == 0 then m else changes[i - 1].After()
  }

  ghost predicate HappensAt(m: Mirror, changes: seq<Change>, i: nat, wall: WallClock, cap: nat)
    requires i < |changes|
  {
    Happens(Before(m, changes, i), changes[i], wall, cap)
  }

  ghost predicate Story(m: Mirror, changes: seq<Change>, wall: WallClock, cap: nat) {
    forall i: nat | i < |changes| :: HappensAt(m, changes, i, wall, cap)
  }

  /** Seeding is armed: nothing is on record, the phone was forgotten, the
      history was cleared, or another phone is paired. */
  predicate Arms(m: Mirror, c: Change) {
    || m.seen.None? || c.Forgot? || c.Cleared?
    || (c.Stepped? && c.step.Synced? && OtherPhone(m.phone, c.step.pull.phone))
  }

  lemma ChangeIsSilent(m: Mirror, changes: seq<Change>, j: nat, wall: WallClock, cap: nat)
    requires Story(m, changes, wall, cap) && j < |changes| && Arms(Before(m, changes, j), changes[j])
    ensures changes[j].Missed() == [] && (changes[j].After().seen.None? <==> !changes[j].Lists())
  {
    assert HappensAt(m, changes, j, wall, cap);
  }

  /** Nothing is announced from the `i`-th change through the `j`-th. */
  ghost predicate Silent(changes: seq<Change>, i: nat, j: nat) {
    forall k | i <= k <= j && k < |changes| :: changes[k].Missed() == []
  }

  /** No sync lists calls from the `i`-th change to before the `j`-th. */
  ghost predicate NoneLists(changes: seq<Change>, i: nat, j: nat) {
    forall k | i <= k < j && k < |changes| :: !changes[k].Lists()
  }

  /** From whatever arms seeding, in any story of any phones: nothing is
      announced up to and including the first sync that lists calls, and the
      record of announced calls stays absent until that sync and no longer. */
  lemma {:induction false} SeedingIsSilent(m: Mirror, changes: seq<Change>, i: nat, j: nat, wall: WallClock, cap: nat)
    requires Story(m, changes, wall, cap) && i <= j < |changes| && Arms(Before(m, changes, i), changes[i])
    requires NoneLists(changes, i, j)
    ensures Silent(changes, i, j) && (changes[j].After().seen.None? <==> !changes[j].Lists())
    decreases j
  {
    if i < j {
      SeedingIsSilent(m, changes, i, j - 1, wall, cap);
    }
    ChangeIsSilent(m, changes, j, wall, cap);
  }
}
