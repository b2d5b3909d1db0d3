/** Which missed calls are new: recognising a phone that re-rendered its whole
    call list in another time zone (call_history_repository.py:413-498). */
module UnseenCalls {
  import opened Options
  import opened CallHistory

  const STEP := 15 * 60        // seconds in a quarter of an hour
  const LIMIT := 26 * 60 * 60  // no two zones are further apart

  /** The time of day a timestamp shows, as seconds; None if it cannot be read. */
  type WallClock = string -> Option<int>

  /** An announced key that the phone no longer lists. */
  datatype Candidate = Candidate(key: string, direction: Direction, number: string, clock: int)

  ghost predicate Keys(rs: seq<CallRecord>, key: string) { exists i | 0 <= i < |rs| :: Key(rs[i]) == key }

  function KeySet(rs: seq<CallRecord>): (keys: set<string>)
    ensures forall k :: k in keys <==> Keys(rs, k)
  {
    set i | 0 <= i < |rs| :: Key(rs[i])
  }

  /** call_history_repository.py:416-424 */
  predicate Rerendered(previous: seq<CallRecord>, listed: seq<CallRecord>) {
    !exists i | 0 <= i < |previous| :: Key(previous[i]) in KeySet(listed)
  }

  function Fresh(missed: seq<CallRecord>, known: map<string, int>): seq<CallRecord> {
    if missed == [] then []
    else if Key(missed[0]) in known then Fresh(missed[1..], known)
    else [missed[0]] + Fresh(missed[1..], known)
  }

  function CandidateOf(key: string, wall: WallClock): Option<Candidate> {
    match SplitKey(key)
    case None => None
    case Some(parts) =>
      match wall(parts.rawTime)
      case None => None
      case Some(clock) => Some(Candidate(key, parts.direction, parts.number, clock))
  }

  /** `pool` lists the vanished announced keys, each once. */
  ghost predicate Enumerates(pool: seq<Candidate>, known: set<string>, present: set<string>, wall: WallClock) {
    && (forall i | 0 <= i < |pool| ::
          pool[i].key in known && pool[i].key !in present && CandidateOf(pool[i].key, wall) == Some(pool[i]))
    && (forall i, j | 0 <= i < j < |pool| :: pool[i].key != pool[j].key)
    && (forall k | k in known && k !in present && CandidateOf(k, wall).Some? ::
          exists i | 0 <= i < |pool| :: pool[i].key == k)
  }

  predicate SameCaller(r: CallRecord, c: Candidate) { c.direction == r.direction && c.number == NumberIdentity(r) }

  predicate ValidShift(shift: int) {
    shift != 0 && -LIMIT <= shift <= LIMIT && shift % STEP == 0
  }

  /** The offsets that would make `r` a re-rendering of a vanished call. */
  function Shifts(r: CallRecord, pool: seq<Candidate>, wall: WallClock): set<int> {
    match wall(r.rawTime)
    case None => {}
    case Some(clock) =>
      set i | 0 <= i < |pool| && SameCaller(r, pool[i]) && ValidShift(clock - pool[i].clock) :: clock - pool[i].clock
  }

  /** How many fresh calls an offset explains. */
  function Support(novel: seq<CallRecord>, pool: seq<Candidate>, wall: WallClock, shift: int): (n: nat)
    ensures n <= |novel|
  {
    if novel == [] then 0
    else Support(novel[..|novel| - 1], pool, wall, shift)
         + if shift in Shifts(novel[|novel| - 1], pool, wall) then 1 else 0
  }

  /** No offset explains more calls, and none that explains as many is smaller. */
  ghost predicate Best(novel: seq<CallRecord>, pool: seq<Candidate>, wall: WallClock, common: int) {
    && ValidShift(common) && Support(novel, pool, wall, common) > 0
    && forall shift :: Support(novel, pool, wall, shift) > 0 ==>
         Rank(Support(novel, pool, wall, shift), shift, Support(novel, pool, wall, common), common)
  }

  /** `(n, -abs(a)) <= (m, -abs(b))` */
  predicate Rank(n: nat, a: int, m: nat, b: int) {
    n < m || (n == m && (if b < 0 then -b else b) <= (if a < 0 then -a else a))
  }

  /** The index of the first candidate that is `r` shifted back, or |pool|. */
  function Find(r: CallRecord, clock: int, pool: seq<Candidate>): (i: nat)
    ensures i <= |pool|
    ensures i < |pool| ==> SameCaller(r, pool[i]) && pool[i].clock == clock
    ensures forall j | 0 <= j < i :: !(SameCaller(r, pool[j]) && pool[j].clock == clock)
  {
    if pool == [] then 0
    else if SameCaller(r, pool[0]) && pool[0].clock == clock then 0
    else 1 + Find(r, clock, pool[1..])
  }

  /** Where `r`'s earlier rendering is under `common`, or |pool|. */
  function EarlierRendering(r: CallRecord, pool: seq<Candidate>, wall: WallClock, common: int): (i: nat)
    ensures i <= |pool|
  {
    match wall(r.rawTime)
    case None => |pool|
    case Some(clock) => Find(r, clock - common, pool)
  }

  /** What is announced: each vanished call explains at most one fresh call. */
  function Announce(novel: seq<CallRecord>, pool: seq<Candidate>, wall: WallClock, common: int): seq<CallRecord> {
    if novel == [] then []
    else
      var i := EarlierRendering(novel[0], pool, wall, common);
      if i < |pool| then Announce(novel[1..], pool[..i] + pool[i + 1..], wall, common)
      else [novel[0]] + Announce(novel[1..], pool, wall, common)
  }

  // ---- matching is injective ----------------------------------------------

  /** A suppressed call and the announced call it is taken for. */
  datatype Match = Match(call: CallRecord, earlier: Candidate)

  function Matched(novel: seq<CallRecord>, pool: seq<Candidate>, wall: WallClock, common: int): seq<Match> {
    if novel == [] then []
    else
      var i := EarlierRendering(novel[0], pool, wall, common);
      if i < |pool| then
        [Match(novel[0], pool[i])] + Matched(novel[1..], pool[..i] + pool[i + 1..], wall, common)
      else Matched(novel[1..], pool, wall, common)
  }

  function Calls(matches: seq<Match>): seq<CallRecord> {
    if matches == [] then [] else [matches[0].call] + Calls(matches[1..])
  }

  ghost predicate Explains(m: Match, pool: seq<Candidate>, wall: WallClock, common: int) {
    && (exists i | 0 <= i < |pool| :: pool[i] == m.earlier)
    && SameCaller(m.call, m.earlier)
    && wall(m.call.rawTime) == Some(m.earlier.clock + common)
  }

  lemma {:induction false} AnnouncedOrMatched(novel: seq<CallRecord>, pool: seq<Candidate>, wall: WallClock,
                                              common: int)
    ensures multiset(novel)
         == multiset(Announce(novel, pool, wall, common)) + multiset(Calls(Matched(novel, pool, wall, common)))
  {
    if novel != [] {
      assert novel == [novel[0]] + novel[1..];
      var i := EarlierRendering(novel[0], pool, wall, common);
      if i < |pool| {
        var rest := pool[..i] + pool[i + 1..];
        AnnouncedOrMatched(novel[1..], rest, wall, common);
        assert Calls(Matched(novel, pool, wall, common))
            == [novel[0]] + Calls(Matched(novel[1..], rest, wall, common));
      } else {
        AnnouncedOrMatched(novel[1..], pool, wall, common);
        assert Announce(novel, pool, wall, common) == [novel[0]] + Announce(novel[1..], pool, wall, common);
      }
    }
  }

  /** Each match has a vanished call of its own, of the same direction and
      number, one offset away. */
  ghost predicate Injective(matches: seq<Match>, pool: seq<Candidate>, wall: WallClock, common: int) {
    && (forall m | 0 <= m < |matches| :: Explains(matches[m], pool, wall, common))
    && (forall m, n | 0 <= m < n < |matches| :: matches[m].earlier.key != matches[n].earlier.key)
  }

  lemma InjectiveMore(first: CallRecord, matches: seq<Match>, pool: seq<Candidate>, i: nat, wall: WallClock,
                      common: int)
    requires forall x, y | 0 <= x < y < |pool| :: pool[x].key != pool[y].key
    requires i == EarlierRendering(first, pool, wall, common) && i < |pool|
    requires Injective(matches, pool[..i] + pool[i + 1..], wall, common)
    ensures Injective([Match(first, pool[i])] + matches, pool, wall, common)
  {
    var rest := pool[..i] + pool[i + 1..];
    forall m | 0 <= m < |matches|
      ensures Explains(matches[m], pool, wall, common)
      ensures matches[m].earlier.key != pool[i].key
    {
      assert Explains(matches[m], rest, wall, common);
      var x :| 0 <= x < |rest| && rest[x] == matches[m].earlier;
      assert rest[x] == pool[if x < i then x else x + 1];
    }
  }

  lemma {:induction false} MatchesAreInjective(novel: seq<CallRecord>, pool: seq<Candidate>, wall: WallClock,
                                               common: int)
    requires forall i, j | 0 <= i < j < |pool| :: pool[i].key != pool[j].key
    ensures Injective(Matched(novel, pool, wall, common), pool, wall, common)
  {
    if novel != [] {
      var i := EarlierRendering(novel[0], pool, wall, common);
      if i < |pool| {
        var rest := pool[..i] + pool[i + 1..];
        MatchesAreInjective(novel[1..], rest, wall, common);
        InjectiveMore(novel[0], Matched(novel[1..], rest, wall, common), pool, i, wall, common);
      } else {
        MatchesAreInjective(novel[1..], pool, wall, common);
      }
    }
  }

  // ---- matching is complete -----------------------------------------------

  predicate Explained(r: CallRecord, pool: seq<Candidate>, wall: WallClock, shift: int) {
    shift in Shifts(r, pool, wall)
  }

  lemma {:induction false} FullSupport(novel: seq<CallRecord>, pool: seq<Candidate>, wall: WallClock, shift: int)
    ensures Support(novel, pool, wall, shift) == |novel|
            <==> forall i | 0 <= i < |novel| :: Explained(novel[i], pool, wall, shift)
  {
    if novel != [] {
      FullSupport(novel[..|novel| - 1], pool, wall, shift);
    }
  }

  /** No two calls of one direction and number show the same time. */
  ghost predicate DistinctClocks(novel: seq<CallRecord>, wall: WallClock) {
    forall i, j | 0 <= i < j < |novel| ::
      !(novel[i].direction == novel[j].direction && NumberIdentity(novel[i]) == NumberIdentity(novel[j])
        && wall(novel[i].rawTime) == wall(novel[j].rawTime))
  }

  /** The offset leads from each call to a candidate still in the pool. */
  ghost predicate AllFound(novel: seq<CallRecord>, pool: seq<Candidate>, wall: WallClock, common: int) {
    forall i | 0 <= i < |novel| :: EarlierRendering(novel[i], pool, wall, common) < |pool|
  }

  lemma {:induction false} FindBounded(r: CallRecord, clock: int, pool: seq<Candidate>, i: nat)
    requires i < |pool| && SameCaller(r, pool[i]) && pool[i].clock == clock
    ensures Find(r, clock, pool) <= i
  {
  }

  lemma StillFound(first: CallRecord, r: CallRecord, pool: seq<Candidate>, wall: WallClock, common: int)
    requires DistinctClocks([first, r], wall)
    requires EarlierRendering(first, pool, wall, common) < |pool| && EarlierRendering(r, pool, wall, common) < |pool|
    ensures var i := EarlierRendering(first, pool, wall, common);
            var rest := pool[..i] + pool[i + 1..];
            EarlierRendering(r, rest, wall, common) < |rest|
  {
    var i, at := EarlierRendering(first, pool, wall, common), EarlierRendering(r, pool, wall, common);
    var rest := pool[..i] + pool[i + 1..];
    assert [first, r][0] == first && [first, r][1] == r;
    assert at != i;
    var x := if at < i then at else at - 1;
    assert rest[x] == pool[at];
    FindBounded(r, wall(r.rawTime).value - common, rest, x);
  }

  lemma {:induction false} AllMatched(novel: seq<CallRecord>, pool: seq<Candidate>, wall: WallClock, common: int)
    requires DistinctClocks(novel, wall) && AllFound(novel, pool, wall, common)
    ensures Announce(novel, pool, wall, common) == []
  {
    if novel == [] {
      return;
    }
    var i := EarlierRendering(novel[0], pool, wall, common);
    var rest := pool[..i] + pool[i + 1..];
    forall j | 0 <= j < |novel[1..]|
      ensures EarlierRendering(novel[1..][j], rest, wall, common) < |rest|
    {
      StillFound(novel[0], novel[j + 1], pool, wall, common);
    }
    AllMatched(novel[1..], rest, wall, common);
  }

  /** If one valid offset turns every fresh call into a vanished announced one,
      nothing is announced, even if the code settles on another offset. */
  lemma {:induction false} RerenderedListAnnouncesNothing(novel: seq<CallRecord>, pool: seq<Candidate>,
                                                          wall: WallClock, shift: int, common: int)
    requires DistinctClocks(novel, wall)
    requires forall i | 0 <= i < |novel| :: Explained(novel[i], pool, wall, shift)
    requires Best(novel, pool, wall, common)
    ensures Announce(novel, pool, wall, common) == []
  {
    FullSupport(novel, pool, wall, shift);
    FullSupport(novel, pool, wall, common);
    assert Support(novel, pool, wall, shift) > 0 ==>
        Rank(Support(novel, pool, wall, shift), shift, Support(novel, pool, wall, common), common);
    forall i | 0 <= i < |novel|
      ensures EarlierRendering(novel[i], pool, wall, common) < |pool|
    {
      assert Explained(novel[i], pool, wall, common);
      var clock := wall(novel[i].rawTime).value;
      var j :| 0 <= j < |pool| && SameCaller(novel[i], pool[j]) && clock - pool[j].clock == common;
      FindBounded(novel[i], clock - common, pool, j);
    }
    AllMatched(novel, pool, wall, common);
  }

  // ---- the code -----------------------------------------------------------

  method ListCandidates(known: set<string>, present: set<string>, wall: WallClock) returns (pool: seq<Candidate>)
    ensures Enumerates(pool, known, present, wall)
  {
    pool := [];
    var todo := known;
    while todo != {}
      invariant todo <= known
      invariant Enumerates(pool, known - todo, present, wall)
      decreases todo
    {
      var key :| key in todo;
      todo := todo - {key};
      if key in present {
        continue;
      }
      var candidate := CandidateOf(key, wall);
      if candidate.Some? {
        ghost var before := pool;
        pool := pool + [candidate.value];
        assert pool[|before|].key == key;
        assert forall i | 0 <= i < |before| :: pool[i] == before[i];
      }
    }
    assert known - todo == known;
  }

  lemma SupportMore(novel: seq<CallRecord>, pool: seq<Candidate>, wall: WallClock, i: nat, shift: int)
    requires i < |novel|
    ensures Support(novel[..i + 1], pool, wall, shift)
         == Support(novel[..i], pool, wall, shift) + if shift in Shifts(novel[i], pool, wall) then 1 else 0
  {
    assert novel[..i + 1][..i] == novel[..i];
  }

  /** Count one call's possible offsets. */
  method Tally(support: map<int, nat>, order: seq<int>, found: set<int>)
    returns (support': map<int, nat>, order': seq<int>)
    requires forall s :: s in support <==> s in order
    ensures forall s :: s in support' <==> s in support || s in found
    ensures forall s | s in support' ::
      support'[s] == (if s in support then support[s] else 0) + if s in found then 1 else 0
    ensures forall s :: s in support' <==> s in order'
  {
    support', order' := support, order;
    var todo := found;
    while exists s :: s in todo
      invariant todo <= found
      invariant forall s :: s in support' <==> s in support || s in found - todo
      invariant forall s | s in support' ::
        support'[s] == (if s in support then support[s] else 0) + if s in found - todo then 1 else 0
      invariant forall s :: s in support' <==> s in order'
      decreases todo
    {
      var shift :| shift in todo;
      todo := todo - {shift};
      if shift !in support' {
        order' := order' + [shift];
      }
      support' := support'[shift := (if shift in support' then support'[shift] else 0) + 1];
    }
  }

  method CountSupport(novel: seq<CallRecord>, pool: seq<Candidate>, wall: WallClock)
    returns (support: map<int, nat>, order: seq<int>)
    ensures forall s :: s in support <==> Support(novel, pool, wall, s) > 0
    ensures forall s | s in support :: support[s] == Support(novel, pool, wall, s)
    ensures forall s :: s in support <==> s in order
  {
    support, order := map[], [];
    var i := 0;
    while i < |novel|
      invariant 0 <= i <= |novel|
      invariant forall s :: s in support <==> Support(novel[..i], pool, wall, s) > 0
      invariant forall s | s in support :: support[s] == Support(novel[..i], pool, wall, s)
      invariant forall s :: s in support <==> s in order
    {
      forall s
        ensures Support(novel[..i + 1], pool, wall, s)
             == Support(novel[..i], pool, wall, s) + if s in Shifts(novel[i], pool, wall) then 1 else 0
      {
        SupportMore(novel, pool, wall, i, s);
      }
      support, order := Tally(support, order, Shifts(novel[i], pool, wall));
      i := i + 1;
    }
    assert novel[..|novel|] == novel;
  }

  /** `max(support, key=lambda shift: (support[shift], -abs(shift)))` */
  method MaxSupport(support: map<int, nat>, order: seq<int>) returns (common: int)
    requires order != [] && forall s :: s in support <==> s in order
    ensures common in support
    ensures forall s | s in support :: Rank(support[s], s, support[common], common)
  {
    common := order[0];
    var i := 1;
    while i < |order|
      invariant 1 <= i <= |order| && common in support
      invariant forall s | s in order[..i] :: Rank(support[s], s, support[common], common)
    {
      var shift := order[i];
      assert shift in order;
      if !Rank(support[shift], shift, support[common], common) {
        common := shift;
      }
      i := i + 1;
      assert order[..i] == order[..i - 1] + [shift];
    }
    assert order[..|order|] == order;
  }

  lemma {:induction false} SupportedIsValid(novel: seq<CallRecord>, pool: seq<Candidate>, wall: WallClock, shift: int)
    requires Support(novel, pool, wall, shift) > 0
    ensures ValidShift(shift)
  {
    if shift !in Shifts(novel[|novel| - 1], pool, wall) {
      SupportedIsValid(novel[..|novel| - 1], pool, wall, shift);
    }
  }

  /** The last loop: announce what the offset does not explain. */
  method Suppress(novel: seq<CallRecord>, candidates: seq<Candidate>, wall: WallClock, common: int)
    returns (unseen: seq<CallRecord>)
    ensures unseen == Announce(novel, candidates, wall, common)
  {
    var remaining := candidates;
    unseen := [];
    var i := 0;
    while i < |novel|
      invariant 0 <= i <= |novel|
      invariant Announce(novel, candidates, wall, common) == unseen + Announce(novel[i..], remaining, wall, common)
    {
      var at := EarlierRendering(novel[i], remaining, wall, common);
      ghost var later := novel[i..];
      assert later[0] == novel[i] && later[1..] == novel[i + 1..];
      if at < |remaining| {
        remaining := remaining[..at] + remaining[at + 1..];
      } else {
        ghost var tail := Announce(novel[i + 1..], remaining, wall, common);
        assert unseen + ([novel[i]] + tail) == (unseen + [novel[i]]) + tail;
        unseen := unseen + [novel[i]];
      }
      i := i + 1;
    }
  }

  /** What `_unseen` may answer: with a best offset for some order of the
      vanished calls, the calls it does not explain; otherwise all fresh calls. */
  ghost predicate Announces(unseen: seq<CallRecord>, missed: seq<CallRecord>, known: map<string, int>,
                            current: seq<CallRecord>, rerendered: bool, wall: WallClock) {
    var novel := Fresh(missed, known);
    if novel == [] || !rerendered then unseen == novel
    else exists pool, common :: AnnouncesBy(unseen, novel, known.Keys, KeySet(current), wall, pool, common)
  }

  ghost predicate AnnouncesBy(unseen: seq<CallRecord>, novel: seq<CallRecord>, known: set<string>,
                              present: set<string>, wall: WallClock, pool: seq<Candidate>, common: int) {
    && Enumerates(pool, known, present, wall)
    && ((unseen == novel && forall s :: Support(novel, pool, wall, s) == 0)
        || (Best(novel, pool, wall, common) && unseen == Announce(novel, pool, wall, common)))
  }

  /** call_history_repository.py:427-498 */
  method Unseen(missed: seq<CallRecord>, known: map<string, int>, current: seq<CallRecord>, rerendered: bool,
                wall: WallClock)
    returns (unseen: seq<CallRecord>)
    ensures Announces(unseen, missed, known, current, rerendered, wall)
  {
    var novel := Fresh(missed, known);
    if novel == [] || !rerendered {
      return novel;
    }
    var candidates := ListCandidates(known.Keys, KeySet(current), wall);
    var support, order := CountSupport(novel, candidates, wall);
    if order == [] {
      assert AnnouncesBy(novel, novel, known.Keys, KeySet(current), wall, candidates, 0);
      return novel;
    }
    var common := MaxSupport(support, order);
    SupportedIsValid(novel, candidates, wall, common);
    unseen := Suppress(novel, candidates, wall, common);
    assert AnnouncesBy(unseen, novel, known.Keys, KeySet(current), wall, candidates, common);
  }

  /** Read off the answer: every fresh call is announced, or suppressed for a
      vanished announced call of its own at one common valid offset. */
  lemma SuppressedCallsAreMatched(unseen: seq<CallRecord>, missed: seq<CallRecord>, known: map<string, int>,
                                  current: seq<CallRecord>, wall: WallClock)
    requires Announces(unseen, missed, known, current, true, wall)
    ensures exists matches: seq<Match>, pool, common ::
      && multiset(Fresh(missed, known)) == multiset(unseen) + multiset(Calls(matches))
      && Enumerates(pool, known.Keys, KeySet(current), wall)
      && Injective(matches, pool, wall, common)
      && (matches != [] ==> ValidShift(common))
  {
    var novel := Fresh(missed, known);
    if novel == [] {
      var pool := EnumerateAll(known.Keys, KeySet(current), wall);
      assert Injective([], pool, wall, 0) && Calls([]) == [];
      return;
    }
    var pool, common :| AnnouncesBy(unseen, novel, known.Keys, KeySet(current), wall, pool, common);
    if unseen == novel {
      assert Injective([], pool, wall, common) && Calls([]) == [];
    } else {
      AnnouncedOrMatched(novel, pool, wall, common);
      MatchesAreInjective(novel, pool, wall, common);
    }
  }

  /** An announced call that is gone and that `shift` turns into `r`. */
  ghost predicate Moved(r: CallRecord, key: string, known: map<string, int>, current: seq<CallRecord>, wall: WallClock,
                        shift: int)
  {
    && key in known && !Keys(current, key)
    && var earlier := CandidateOf(key, wall);
       earlier.Some? && SameCaller(r, earlier.value) && wall(r.rawTime) == Some(earlier.value.clock + shift)
  }

  lemma MovedIsExplained(r: CallRecord, key: string, known: map<string, int>, current: seq<CallRecord>, wall: WallClock,
                         shift: int, pool: seq<Candidate>)
    requires Moved(r, key, known, current, wall, shift) && ValidShift(shift)
    requires Enumerates(pool, known.Keys, KeySet(current), wall)
    ensures Explained(r, pool, wall, shift)
  {
    var i :| 0 <= i < |pool| && pool[i].key == key;
    assert CandidateOf(pool[i].key, wall) == Some(pool[i]);
  }

  /** A list that is re-rendered as a whole announces nothing: if one valid
      offset turns each fresh call into an announced call that is gone, and no
      two fresh calls of a number show the same time, then whatever order the
      code meets them in, it stays silent. */
  lemma RerenderedListIsSilent(unseen: seq<CallRecord>, missed: seq<CallRecord>, known: map<string, int>,
                               current: seq<CallRecord>, wall: WallClock, shift: int, keys: seq<string>)
    requires Announces(unseen, missed, known, current, true, wall)
    requires var novel := Fresh(missed, known);
             && DistinctClocks(novel, wall) && ValidShift(shift) && |keys| == |novel|
             && forall i | 0 <= i < |novel| :: Moved(novel[i], keys[i], known, current, wall, shift)
    ensures unseen == []
  {
    var novel := Fresh(missed, known);
    if novel == [] {
      return;
    }
    var pool, common :| AnnouncesBy(unseen, novel, known.Keys, KeySet(current), wall, pool, common);
    forall i | 0 <= i < |novel|
      ensures Explained(novel[i], pool, wall, shift)
    {
      MovedIsExplained(novel[i], keys[i], known, current, wall, shift, pool);
    }
    FullSupport(novel, pool, wall, shift);
    assert Support(novel, pool, wall, shift) > 0;
    RerenderedListAnnouncesNothing(novel, pool, wall, shift, common);
  }

  lemma {:induction false} EnumerateAll(known: set<string>, present: set<string>, wall: WallClock)
    returns (pool: seq<Candidate>)
    ensures Enumerates(pool, known, present, wall)
    decreases known
  {
    if known == {} {
      return [];
    }
    var key :| key in known;
    pool := EnumerateAll(known - {key}, present, wall);
    if key !in present && CandidateOf(key, wall).Some? {
      var before := pool;
      pool := pool + [CandidateOf(key, wall).value];
      assert pool[|before|].key == key;
      assert forall i | 0 <= i < |before| :: pool[i] == before[i];
    }
  }
}
