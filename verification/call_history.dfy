/** Call records, their keys, and merging the phone's call lists
    (call_history.py). */
module CallHistory {
  import opened Options

  datatype Direction = Missed | Incoming | Outgoing

  function DirectionText(d: Direction): string {
    match d
    case Missed => "missed"
    case Incoming => "incoming"
    case Outgoing => "outgoing"
  }

  function ParseDirection(text: string): Option<Direction> {
    if text == "missed" then Some(Missed)
    else if text == "incoming" then Some(Incoming)
    else if text == "outgoing" then Some(Outgoing)
    else None
  }

  /** One call; `occurredAt` is the instant its text was read as. */
  datatype CallRecord = CallRecord(
    direction: Direction,
    occurredAt: int,
    rawTime: string,
    address: string,
    phone: Option<string>,
    name: Option<string>)

  /** `canonical_phone_digits(self.phone) or self.address` */
  function NumberIdentity(r: CallRecord): string {
    match r.phone
    case None => r.address
    case Some(phone) =>
      if phone == "" then r.address
      else if |phone| > 9 && phone[0] == '0' && phone[1] == '0' then phone[2..]
      else phone
  }

  function JoinKey(direction: Direction, rawTime: string, number: string): string {
    DirectionText(direction) + "|" + rawTime + "|" + number
  }

  /** Identity across syncs. */
  function Key(r: CallRecord): string { JoinKey(r.direction, r.rawTime, NumberIdentity(r)) }

  /** Identity within one sync: missed and incoming entries collapse. */
  datatype MergeKey = MergeKey(rawTime: string, number: string, outgoing: bool)

  function MergeKeyOf(r: CallRecord): MergeKey {
    MergeKey(r.rawTime, NumberIdentity(r), r.direction == Outgoing)
  }

  /** What parsing a phonebook guarantees (call_history.py:52-58, 413-416). */
  predicate Proper(r: CallRecord) { '|' !in r.rawTime && r.name != Some("") }

  // ---- split_key ----------------------------------------------------------

  datatype Parts = Parts(head: string, found: bool, tail: string)

  /** `text.partition("|")` */
  function Partition(text: string): Parts {
    if text == "" then Parts("", false, "")
    else if text[0] == '|' then Parts("", true, text[1..])
    else
      var rest := Partition(text[1..]);
      Parts([text[0]] + rest.head, rest.found, rest.tail)
  }

  datatype Split = Split(direction: Direction, rawTime: string, number: string)

  /** call_history.py:165-171 */
  function SplitKey(key: string): Option<Split> {
    var first := Partition(key);
    var second := Partition(first.tail);
    var direction := ParseDirection(first.head);
    if !first.found || !second.found || direction.None? then None
    else Some(Split(direction.value, second.head, second.tail))
  }

  lemma {:induction false} PartitionAt(head: string, tail: string)
    requires '|' !in head
    ensures Partition(head + "|" + tail) == Parts(head, true, tail)
  {
    var text := head + "|" + tail;
    if head == "" {
      assert text[1..] == tail;
    } else {
      assert text[1..] == head[1..] + "|" + tail;
      assert forall c | c in head[1..] :: c in head;
      PartitionAt(head[1..], tail);
    }
  }

  lemma {:induction false} PartitionHeadIsPlain(text: string)
    ensures '|' !in Partition(text).head
  {
    if text != "" && text[0] != '|' {
      PartitionHeadIsPlain(text[1..]);
    }
  }

  /** `split_key` undoes `key` exactly for the records whose timestamp holds no
      separator, whatever the number looks like. */
  lemma SplitKeyInvertsKey(r: CallRecord)
    ensures SplitKey(Key(r)) == Some(Split(r.direction, r.rawTime, NumberIdentity(r)))
            <==> '|' !in r.rawTime
  {
    var rest := r.rawTime + "|" + NumberIdentity(r);
    assert Key(r) == DirectionText(r.direction) + "|" + rest;
    PartitionAt(DirectionText(r.direction), rest);
    if '|' !in r.rawTime {
      PartitionAt(r.rawTime, NumberIdentity(r));
    } else {
      PartitionHeadIsPlain(rest);
    }
  }

  /** So among proper records the key is the direction, time and number. */
  lemma KeyDetermines(a: CallRecord, b: CallRecord)
    requires '|' !in a.rawTime && '|' !in b.rawTime
    ensures Key(a) == Key(b)
            <==> a.direction == b.direction && a.rawTime == b.rawTime && NumberIdentity(a) == NumberIdentity(b)
  {
    SplitKeyInvertsKey(a);
    SplitKeyInvertsKey(b);
  }

  // ---- order --------------------------------------------------------------

  /** Lexicographic order of strings. */
  predicate TextLess(a: string, b: string) {
    if b == "" then false
    else if a == "" then true
    else a[0] < b[0] || (a[0] == b[0] && TextLess(a[1..], b[1..]))
  }

  lemma {:induction false} TextTotal(a: string, b: string)
    ensures TextLess(a, b) || a == b || TextLess(b, a)
    ensures !(TextLess(a, b) && TextLess(b, a)) && !TextLess(a, a)
  {
    if a != "" {
      TextTotal(a[1..], if b == "" then "" else b[1..]);
      if b != "" && a[0] == b[0] && a[1..] == b[1..] {
        assert [a[0]] + a[1..] == a && [b[0]] + b[1..] == b;
      }
    }
  }

  lemma {:induction false} TextTransitive(a: string, b: string, c: string)
    requires TextLess(a, b) && TextLess(b, c)
    ensures TextLess(a, c)
  {
    if a != "" && a[0] == b[0] == c[0] {
      TextTransitive(a[1..], b[1..], c[1..]);
    }
  }

  /** `(a.occurred_at, a.key) < (b.occurred_at, b.key)` */
  predicate Earlier(a: CallRecord, b: CallRecord) {
    a.occurredAt < b.occurredAt || (a.occurredAt == b.occurredAt && TextLess(Key(a), Key(b)))
  }

  lemma EarlierTransitive(a: CallRecord, b: CallRecord, c: CallRecord)
    requires Earlier(a, b) && Earlier(b, c)
    ensures Earlier(a, c)
  {
    if a.occurredAt == b.occurredAt == c.occurredAt {
      TextTransitive(Key(a), Key(b), Key(c));
    }
  }

  lemma EarlierTotal(a: CallRecord, b: CallRecord)
    ensures !(Earlier(a, b) && Earlier(b, a))
    ensures Earlier(a, b) || Earlier(b, a) || (a.occurredAt == b.occurredAt && Key(a) == Key(b))
  {
    TextTotal(Key(a), Key(b));
  }

  /** Put `r` before the first record that is not later. */
  function Insert(r: CallRecord, rs: seq<CallRecord>): seq<CallRecord> {
    if rs == [] || !Earlier(r, rs[0]) then [r] + rs else [rs[0]] + Insert(r, rs[1..])
  }

  /** `sorted(rs, key=..., reverse=True)`: newest first, ties in given order. */
  function SortNewest(rs: seq<CallRecord>): seq<CallRecord> {
    if rs == [] then [] else Insert(rs[0], SortNewest(rs[1..]))
  }

  /** Strictly newest first. */
  ghost predicate NewestFirst(rs: seq<CallRecord>) {
    forall i, j | 0 <= i < j < |rs| :: Earlier(rs[j], rs[i])
  }

  lemma {:induction false} InsertIsPermutation(r: CallRecord, rs: seq<CallRecord>)
    ensures multiset(Insert(r, rs)) == multiset{r} + multiset(rs)
  {
    if !(rs == [] || !Earlier(r, rs[0])) {
      assert rs == [rs[0]] + rs[1..];
      InsertIsPermutation(r, rs[1..]);
    }
  }

  lemma {:induction false} SortIsPermutation(rs: seq<CallRecord>)
    ensures multiset(SortNewest(rs)) == multiset(rs)
  {
    if rs != [] {
      assert rs == [rs[0]] + rs[1..];
      SortIsPermutation(rs[1..]);
      InsertIsPermutation(rs[0], SortNewest(rs[1..]));
    }
  }

  /** Records of distinct rank: no two agree in time and key. */
  ghost predicate Comparable(rs: seq<CallRecord>) {
    forall i, j | 0 <= i < j < |rs| :: Earlier(rs[i], rs[j]) || Earlier(rs[j], rs[i])
  }

  lemma {:induction false} InsertSorted(r: CallRecord, rs: seq<CallRecord>)
    requires NewestFirst(rs)
    requires forall i | 0 <= i < |rs| :: Earlier(r, rs[i]) || Earlier(rs[i], r)
    ensures NewestFirst(Insert(r, rs))
  {
    if rs == [] {
    } else if !Earlier(r, rs[0]) {
      forall j | 0 <= j < |rs|
        ensures Earlier(rs[j], r)
      {
        if j > 0 {
          EarlierTransitive(rs[j], rs[0], r);
        }
      }
    } else {
      var rest := Insert(r, rs[1..]);
      InsertSorted(r, rs[1..]);
      InsertIsPermutation(r, rs[1..]);
      forall j | 0 <= j < |rest|
        ensures Earlier(rest[j], rs[0])
      {
        assert rest[j] in multiset(rest);
        if rest[j] != r {
          assert rest[j] in rs[1..];
        }
      }
    }
  }

  lemma {:induction false} SortSorts(rs: seq<CallRecord>)
    requires Comparable(rs)
    ensures NewestFirst(SortNewest(rs))
  {
    if rs != [] {
      SortSorts(rs[1..]);
      SortIsPermutation(rs[1..]);
      forall i | 0 <= i < |SortNewest(rs[1..])|
        ensures Earlier(rs[0], SortNewest(rs[1..])[i]) || Earlier(SortNewest(rs[1..])[i], rs[0])
      {
        var r := SortNewest(rs[1..])[i];
        assert r in multiset(SortNewest(rs[1..]));
        assert r in rs[1..];
        var j :| 0 <= j < |rs[1..]| && rs[1..][j] == r;
        assert rs[j + 1] == r;
      }
      InsertSorted(rs[0], SortNewest(rs[1..]));
    }
  }

  lemma {:induction false} SortKeepsSorted(rs: seq<CallRecord>)
    requires NewestFirst(rs)
    ensures SortNewest(rs) == rs
  {
    if rs != [] {
      SortKeepsSorted(rs[1..]);
      if |rs| > 1 {
        EarlierTotal(rs[0], rs[1]);
      }
    }
  }

  // ---- merging ------------------------------------------------------------

  function Priority(d: Direction): nat {
    match d
    case Missed => 0
    case Incoming => 1
    case Outgoing => 2
  }

  /** `existing.name or record.name`: empty names count as absent. */
  function EitherName(a: Option<string>, b: Option<string>): Option<string> {
    if a.Some? && a.value != "" then a else b
  }

  /** Which of two entries for one call is kept, and under which name. */
  function Combine(existing: CallRecord, record: CallRecord): CallRecord {
    var swap := || Priority(record.direction) < Priority(existing.direction)
                || (record.direction == existing.direction && record.name.Some? && existing.name.None?);
    var preferred := if swap then record else existing;
    var name := EitherName(existing.name, record.name);
    if preferred.name.None? && name.Some? && name.value != "" then preferred.(name := name) else preferred
  }

  /** A Python dict: values by key, keys in order of first insertion. */
  datatype Merged = Merged(order: seq<MergeKey>, at: map<MergeKey, CallRecord>) {
    ghost predicate Valid() {
      && (forall k :: k in at <==> k in order)
      && (forall i, j | 0 <= i < j < |order| :: order[i] != order[j])
      && (forall k | k in at :: MergeKeyOf(at[k]) == k)
    }

    function Add(r: CallRecord): Merged {
      var k := MergeKeyOf(r);
      if k in at then Merged(order, at[k := Combine(at[k], r)])
      else Merged(order + [k], at[k := r])
    }

    function Values(): (rs: seq<CallRecord>)
      requires forall i | 0 <= i < |order| :: order[i] in at
      ensures |rs| == |order| && forall i | 0 <= i < |rs| :: rs[i] == at[order[i]]
    {
      seq(|order|, i requires 0 <= i < |order| => at[order[i]])
    }
  }

  lemma CombineKeepsCall(existing: CallRecord, record: CallRecord)
    requires MergeKeyOf(record) == MergeKeyOf(existing)
    ensures MergeKeyOf(Combine(existing, record)) == MergeKeyOf(existing)
  {
  }

  lemma AddKeepsValid(m: Merged, r: CallRecord)
    requires m.Valid()
    ensures m.Add(r).Valid()
  {
    var k, m' := MergeKeyOf(r), m.Add(r);
    if k in m.at {
      CombineKeepsCall(m.at[k], r);
    } else {
      assert forall x :: x in m'.order <==> x in m.order || x == k;
    }
  }

  function Collect(rs: seq<CallRecord>): (m: Merged)
    ensures m.Valid()
  {
    if rs == [] then Merged([], map[])
    else
      var before := Collect(rs[..|rs| - 1]);
      AddKeepsValid(before, rs[|rs| - 1]);
      before.Add(rs[|rs| - 1])
  }

  lemma CollectMore(rs: seq<CallRecord>, r: CallRecord)
    ensures Collect(rs + [r]) == Collect(rs).Add(r)
  {
    assert (rs + [r])[..|rs|] == rs;
  }

  lemma CollectNext(earlier: seq<CallRecord>, records: seq<CallRecord>, j: nat)
    requires j < |records|
    ensures Collect(earlier + records[..j + 1]) == Collect(earlier + records[..j]).Add(records[j])
  {
    assert earlier + records[..j + 1] == (earlier + records[..j]) + [records[j]];
    CollectMore(earlier + records[..j], records[j]);
  }

  function Flatten(lists: seq<seq<CallRecord>>): seq<CallRecord> {
    if lists == [] then [] else Flatten(lists[..|lists| - 1]) + lists[|lists| - 1]
  }

  function Cap(rs: seq<CallRecord>, maximum: int): seq<CallRecord> {
    if maximum <= 0 then [] else if maximum >= |rs| then rs else rs[..maximum]
  }

  function Merge(lists: seq<seq<CallRecord>>, maximum: int): seq<CallRecord> {
    Cap(MergeAll(lists), maximum)
  }

  /** call_history.py:427-460 */
  method MergeCallHistory(lists: seq<seq<CallRecord>>, maximum: int) returns (result: seq<CallRecord>)
    ensures result == Merge(lists, maximum)
  {
    var order: seq<MergeKey> := [];
    var merged: map<MergeKey, CallRecord> := map[];
    var i := 0;
    while i < |lists|
      invariant 0 <= i <= |lists|
      invariant Merged(order, merged) == Collect(Flatten(lists[..i]))
    {
      var records := lists[i];
      var j := 0;
      ghost var earlier := Flatten(lists[..i]);
      assert earlier + records[..0] == earlier;
      while j < |records|
        invariant 0 <= j <= |records|
        invariant Merged(order, merged) == Collect(earlier + records[..j])
      {
        var record := records[j];
        CollectNext(earlier, records, j);
        j := j + 1;
        var key := MergeKeyOf(record);
        if key !in merged {
          order := order + [key];
          merged := merged[key := record];
          continue;
        }
        var existing := merged[key];
        var preferred := existing;
        if Priority(record.direction) < Priority(existing.direction)
           || (Priority(record.direction) == Priority(existing.direction)
               && record.name.Some? && existing.name.None?) {
          preferred := record;
        }
        var name := EitherName(existing.name, record.name);
        if preferred.name.None? && name.Some? && name.value != "" {
          preferred := preferred.(name := name);
        }
        merged := merged[key := preferred];
      }
      assert records[..|records|] == records;
      assert lists[..i + 1][..i] == lists[..i];
      assert Flatten(lists[..i + 1]) == earlier + records;
      i := i + 1;
    }
    assert lists[..|lists|] == lists;
    result := Cap(SortNewest(Merged(order, merged).Values()), maximum);
  }

  // ---- what a merge is ----------------------------------------------------

  predicate SameCall(a: CallRecord, b: CallRecord) { MergeKeyOf(a) == MergeKeyOf(b) }

  ghost predicate AllProper(rs: seq<CallRecord>) { forall i | 0 <= i < |rs| :: Proper(rs[i]) }

  /** `r` stands for the entries of its call: it is one of them but for its
      name, of the strongest direction among them, and named if one is. */
  ghost predicate Represents(r: CallRecord, entries: seq<CallRecord>) {
    && (exists i | 0 <= i < |entries| :: SameCall(entries[i], r) && r == entries[i].(name := r.name))
    && (forall i | 0 <= i < |entries| && SameCall(entries[i], r) ::
          && Priority(r.direction) <= Priority(entries[i].direction)
          && (entries[i].name.Some? ==> r.name.Some?))
    && (r.name.Some? ==> exists i | 0 <= i < |entries| :: SameCall(entries[i], r) && entries[i].name == r.name)
  }

  lemma StillRepresents(r: CallRecord, entries: seq<CallRecord>, other: CallRecord)
    requires Represents(r, entries) && !SameCall(other, r)
    ensures Represents(r, entries + [other])
  {
    var all := entries + [other];
    var i :| 0 <= i < |entries| && SameCall(entries[i], r) && r == entries[i].(name := r.name);
    assert all[i] == entries[i];
    if r.name.Some? {
      var j :| 0 <= j < |entries| && SameCall(entries[j], r) && entries[j].name == r.name;
      assert all[j] == entries[j];
    }
  }

  lemma FirstRepresents(r: CallRecord, entries: seq<CallRecord>)
    requires forall i | 0 <= i < |entries| :: !SameCall(entries[i], r)
    ensures Represents(r, entries + [r])
  {
    assert (entries + [r])[|entries|] == r;
    assert r == r.(name := r.name);
  }

  lemma CombineRepresents(existing: CallRecord, record: CallRecord, entries: seq<CallRecord>)
    requires Represents(existing, entries) && Proper(existing) && Proper(record) && SameCall(record, existing)
    ensures Represents(Combine(existing, record), entries + [record])
    ensures Proper(Combine(existing, record))
  {
    var all, r := entries + [record], Combine(existing, record);
    CombineKeepsCall(existing, record);
    assert all[|entries|] == record;
    var i :| 0 <= i < |entries| && SameCall(entries[i], existing) && existing == entries[i].(name := existing.name);
    assert all[i] == entries[i];
    assert r == existing.(name := r.name) || r == record.(name := r.name);
    if existing.name.Some? {
      var j :| 0 <= j < |entries| && SameCall(entries[j], existing) && entries[j].name == existing.name;
      assert all[j] == entries[j];
    }
  }

  /** Every collected record represents its entries, and no call is missing. */
  ghost predicate Collected(m: Merged, rs: seq<CallRecord>) {
    && (forall k | k in m.at :: Represents(m.at[k], rs) && Proper(m.at[k]))
    && (forall i | 0 <= i < |rs| :: MergeKeyOf(rs[i]) in m.at)
  }

  lemma AddCollected(m: Merged, rs: seq<CallRecord>, r: CallRecord)
    requires m.Valid() && Collected(m, rs) && Proper(r)
    ensures Collected(m.Add(r), rs + [r])
  {
    var key, m' := MergeKeyOf(r), m.Add(r);
    forall k | k in m'.at
      ensures Represents(m'.at[k], rs + [r]) && Proper(m'.at[k])
    {
      if k != key {
        StillRepresents(m.at[k], rs, r);
      } else if k in m.at {
        CombineRepresents(m.at[k], r, rs);
      } else {
        FirstRepresents(r, rs);
      }
    }
  }

  lemma {:induction false} CollectRepresents(rs: seq<CallRecord>)
    requires AllProper(rs)
    ensures Collected(Collect(rs), rs)
  {
    if rs != [] {
      var init, last := rs[..|rs| - 1], rs[|rs| - 1];
      assert init + [last] == rs;
      CollectRepresents(init);
      AddCollected(Collect(init), init, last);
    }
  }

  ghost predicate DistinctCalls(rs: seq<CallRecord>) {
    forall i, j | 0 <= i < j < |rs| :: MergeKeyOf(rs[i]) != MergeKeyOf(rs[j])
  }

  lemma DistinctCallsAreComparable(rs: seq<CallRecord>)
    requires DistinctCalls(rs) && AllProper(rs)
    ensures Comparable(rs)
  {
    forall i, j | 0 <= i < j < |rs|
      ensures Earlier(rs[i], rs[j]) || Earlier(rs[j], rs[i])
    {
      EarlierTotal(rs[i], rs[j]);
      KeyDetermines(rs[i], rs[j]);
    }
  }

  lemma DistinctByMultiset(a: seq<CallRecord>, b: seq<CallRecord>)
    requires DistinctCalls(a) && multiset(b) == multiset(a) && NewestFirst(b)
    ensures DistinctCalls(b)
  {
    forall i, j | 0 <= i < j < |b|
      ensures MergeKeyOf(b[i]) != MergeKeyOf(b[j])
    {
      EarlierTotal(b[i], b[j]);
      assert b[i] in multiset(b) && b[j] in multiset(b);
      var x :| 0 <= x < |a| && a[x] == b[i];
      var y :| 0 <= y < |a| && a[y] == b[j];
    }
  }

  /** All merged calls, before the cap. */
  function MergeAll(lists: seq<seq<CallRecord>>): seq<CallRecord> {
    SortNewest(Collect(Flatten(lists)).Values())
  }

  lemma SortedPlace(rs: seq<CallRecord>, i: nat) returns (j: nat)
    requires i < |rs|
    ensures j < |SortNewest(rs)| && SortNewest(rs)[j] == rs[i]
  {
    SortIsPermutation(rs);
    assert rs[i] in multiset(rs);
    assert rs[i] in multiset(SortNewest(rs));
    j :| 0 <= j < |SortNewest(rs)| && SortNewest(rs)[j] == rs[i];
  }

  lemma UnsortedPlace(rs: seq<CallRecord>, j: nat) returns (i: nat)
    requires j < |SortNewest(rs)|
    ensures i < |rs| && SortNewest(rs)[j] == rs[i]
  {
    SortIsPermutation(rs);
    assert SortNewest(rs)[j] in multiset(SortNewest(rs));
    assert SortNewest(rs)[j] in multiset(rs);
    i :| 0 <= i < |rs| && SortNewest(rs)[j] == rs[i];
  }

  lemma SortedDistinct(values: seq<CallRecord>)
    requires DistinctCalls(values) && AllProper(values)
    ensures DistinctCalls(SortNewest(values)) && NewestFirst(SortNewest(values))
  {
    DistinctCallsAreComparable(values);
    SortSorts(values);
    SortIsPermutation(values);
    DistinctByMultiset(values, SortNewest(values));
  }

  /** The normal form: distinct calls, strictly newest first, covering exactly
      the calls listed, each represented by its best entry. */
  lemma MergeNormalForm(lists: seq<seq<CallRecord>>)
    requires AllProper(Flatten(lists))
    ensures var all, entries := MergeAll(lists), Flatten(lists);
            && DistinctCalls(all) && NewestFirst(all) && AllProper(all)
            && (forall j | 0 <= j < |all| :: Represents(all[j], entries))
            && (forall i | 0 <= i < |entries| :: exists j | 0 <= j < |all| :: SameCall(all[j], entries[i]))
  {
    var entries := Flatten(lists);
    var values, all := Collect(entries).Values(), MergeAll(lists);
    CollectRepresents(entries);
    SortedDistinct(values);
    forall j | 0 <= j < |all|
      ensures Represents(all[j], entries) && Proper(all[j])
    {
      var i := UnsortedPlace(values, j);
    }
    forall i | 0 <= i < |entries|
      ensures exists j | 0 <= j < |all| :: SameCall(all[j], entries[i])
    {
      var j := MergedPlace(entries, i);
    }
  }

  /** Where the record of an entry's call went. */
  lemma MergedPlace(entries: seq<CallRecord>, i: nat) returns (j: nat)
    requires AllProper(entries) && i < |entries|
    ensures var all := SortNewest(Collect(entries).Values());
            j < |all| && SameCall(all[j], entries[i])
  {
    CollectRepresents(entries);
    var m, k := Collect(entries), MergeKeyOf(entries[i]);
    assert k in m.order;
    var x :| 0 <= x < |m.order| && m.order[x] == k;
    j := SortedPlace(m.Values(), x);
  }

  /** A cap keeps the newest calls. */
  lemma CapKeepsNewest(lists: seq<seq<CallRecord>>, maximum: int)
    requires AllProper(Flatten(lists))
    ensures var all, result := MergeAll(lists), Merge(lists, maximum);
            && |result| == (if maximum <= 0 then 0 else if maximum < |all| then maximum else |all|)
            && result <= all
            && forall i, j | 0 <= i < |result| <= j < |all| :: Earlier(all[j], all[i])
  {
    MergeNormalForm(lists);
  }

  lemma {:induction false} CollectDistinct(rs: seq<CallRecord>)
    requires DistinctCalls(rs)
    ensures Collect(rs).order == seq(|rs|, i requires 0 <= i < |rs| => MergeKeyOf(rs[i]))
    ensures Collect(rs).Values() == rs
  {
    if rs != [] {
      var init, last := rs[..|rs| - 1], rs[|rs| - 1];
      CollectDistinct(init);
      var before := Collect(init);
      assert MergeKeyOf(last) !in before.order;
      forall i | 0 <= i < |rs|
        ensures Collect(rs).Values()[i] == rs[i]
      {
        if i < |init| {
          assert before.Values()[i] == init[i];
        }
      }
    }
  }

  /** Merging a merged list again changes nothing, under any cap. */
  lemma MergeIsIdempotent(lists: seq<seq<CallRecord>>, maximum: int)
    requires AllProper(Flatten(lists))
    ensures Merge([Merge(lists, maximum)], maximum) == Merge(lists, maximum)
  {
    MergeNormalForm(lists);
    MergeNormalAgain(Merge(lists, maximum), maximum);
  }

  lemma FlattenOne(rs: seq<CallRecord>)
    ensures Flatten([rs]) == rs
  {
    assert [rs][..0] == [];
    assert Flatten([rs]) == [] + rs;
  }

  /** A list in normal form is merged into itself. */
  lemma MergeNormalAgain(rs: seq<CallRecord>, maximum: int)
    requires DistinctCalls(rs) && NewestFirst(rs)
    ensures Merge([rs], maximum) == Cap(rs, maximum)
  {
    FlattenOne(rs);
    CollectDistinct(rs);
    SortKeepsSorted(rs);
  }
}
