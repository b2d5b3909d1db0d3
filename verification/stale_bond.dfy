/** The suspicion of a stale LE bond: a burst of very short LE links while
    Classic stays up (bearer_supervisor.py:64-101, 874-1132, 1290-1370). */
module StaleBond {
  import opened Options

  const POLL_SECONDS := 5
  const STABLE_CONNECTION_SECONDS := 15
  const LE_FLAP_THRESHOLD := 5
  const LE_FLAP_WINDOW_SECONDS := 60
  const LE_FLAP_MAX_LINK_SECONDS := 5
  const LE_FLAP_PERSIST_SECONDS := 180
  const POLLED_LE_FLAP_WINDOW_SECONDS := 180
  const POLLED_LE_FLAP_PERSIST_SECONDS := 540
  const LE_SUSPECT_ABSENT_EXPIRY_SECONDS := 120
  const LE_SUSPECT_QUIET_EXPIRY_SECONDS := 600
  const OWN_LE_DISCONNECT_GRACE_SECONDS := 10

  datatype Reason = Unknown | Timeout | Local | Remote | Authentication | Suspend

  predicate Counted(r: Reason) { r.Timeout? || r.Remote? || r.Authentication? }

  /** A counted drop: when, the window then in force, how long the link had
      lived, and the reason if it was signalled. */
  datatype Drop = Drop(at: int, window: int, lifetime: Option<int>, reason: Option<Reason>)

  /** `flaps` and the rest are the source's fields; `drops` is history: every
      drop counted in the current burst. */
  datatype Bond = Bond(
    flaps: seq<int>, burst: Option<int>, suspect: bool, signalSeen: bool, linkUpAt: Option<int>,
    lastDropAt: Option<int>, polledDropAt: Option<int>, ownAt: Option<int>,
    classic: Option<bool>, le: Option<bool>, classicSince: Option<int>, leSince: Option<int>, lostAt: Option<int>,
    drops: seq<Drop>)
  {
    function Window(): int { if signalSeen then LE_FLAP_WINDOW_SECONDS else POLLED_LE_FLAP_WINDOW_SECONDS }

    function Persist(): int { if signalSeen then LE_FLAP_PERSIST_SECONDS else POLLED_LE_FLAP_PERSIST_SECONDS }

    /** `_reset_le_burst` */
    function WithoutBurst(): Bond { this.(flaps := [], burst := None, drops := []) }

    /** `_clear_le_flaps` */
    function Forgiven(): Bond { WithoutBurst().(suspect := false) }

    /** A drop that cannot belong to the running burst starts a new one. */
    function Joined(now: int): Bond {
      if (flaps != [] && now - flaps[|flaps| - 1] > Window())
         || (burst.Some? && classicSince.Some? && classicSince.value > burst.value)
      then WithoutBurst()
      else this
    }

    function Appended(lifetime: Option<int>, reason: Option<Reason>, now: int): Bond {
      this.(burst := if burst.None? then Some(now) else burst,
            flaps := Trim(flaps + [now], now, Window()),
            lastDropAt := Some(now),
            polledDropAt := if reason.None? then Some(now) else polledDropAt,
            drops := drops + [Drop(now, Window(), lifetime, reason)])
    }

    predicate Proves(now: int) {
      !suspect && |flaps| >= LE_FLAP_THRESHOLD && burst.Some? && now - burst.value >= Persist()
    }

    function Judged(now: int): Bond { if Proves(now) then this.(suspect := true) else this }

    /** `_record_le_drop` */
    function Recorded(lifetime: Option<int>, reason: Option<Reason>, active: bool, now: int): Bond {
      if !active then WithoutBurst()
      else if lifetime.Some? && lifetime.value >= STABLE_CONNECTION_SECONDS then Forgiven()
      else if reason.Some? && !Counted(reason.value) then this
      else if reason.Some? && (lifetime.None? || lifetime.value > LE_FLAP_MAX_LINK_SECONDS) then WithoutBurst()
      else if classic != Some(true) || classicSince.None? then WithoutBurst()
      else Joined(now).Appended(lifetime, reason, now).Judged(now)
    }

    /** Polling had counted the very drop that the first signal reports. */
    predicate CountedTwice(now: int) {
      && !signalSeen && polledDropAt.Some? && now - polledDropAt.value <= POLL_SECONDS * 2
      && flaps != [] && flaps[|flaps| - 1] == polledDropAt.value
      && (linkUpAt.None? || linkUpAt.value <= polledDropAt.value)
    }

    function Uncounted(): Bond
      requires flaps != []
    {
      if |flaps| == 1 || drops == [] then WithoutBurst()
      else this.(flaps := flaps[..|flaps| - 1], drops := drops[..|drops| - 1])
    }

    /** The signal, with its reason and link age, replaces a polled count. */
    function Signalled(now: int): Bond {
      (if CountedTwice(now) then Uncounted() else this).(signalSeen := true, polledDropAt := None, linkUpAt := None)
    }

    predicate Ours(reason: Reason, now: int) {
      reason.Suspend? || (reason.Local? && ownAt.Some? && now - ownAt.value < OWN_LE_DISCONNECT_GRACE_SECONDS)
    }

    /** `_count_le_disconnect` */
    function SignalledDrop(reason: Reason, active: bool, now: int): Bond {
      var lifetime := if linkUpAt.None? then None else Some(now - linkUpAt.value);
      Signalled(now).Blamed(lifetime, reason, active, now)
    }

    function Blamed(lifetime: Option<int>, reason: Reason, active: bool, now: int): Bond {
      if Ours(reason, now) then this else Recorded(lifetime, Some(reason), active, now)
    }

    /** `_clear_le_flaps_if_held` */
    function Held(now: int): Bond {
      var since := if signalSeen then linkUpAt else leSince;
      if (flaps != [] || suspect) && since.Some? && now - since.value >= STABLE_CONNECTION_SECONDS then Forgiven()
      else this
    }

    /** `_update_state("le", ...)`; the poll counts a drop until signals do. */
    function LeSeen(value: Option<bool>, deliberate: bool, active: bool, now: int): Bond {
      var counts := le == Some(true) && value == Some(false) && !deliberate && !signalSeen;
      this.(le := value).PolledDrop(counts, active, now).LeDated(le != Some(true), value, now)
    }

    function PolledDrop(counts: bool, active: bool, now: int): Bond {
      if counts then Recorded(if leSince.None? then None else Some(now - leSince.value), None, active, now) else this
    }

    function LeDated(changed: bool, value: Option<bool>, now: int): Bond {
      match value
      case None => this
      case Some(up) =>
        if up then
          this.(linkUpAt := if changed && linkUpAt.None? then Some(now) else linkUpAt,
                leSince := if leSince.None? then Some(now) else leSince).Held(now)
        else this.(leSince := None)
    }

    /** `_update_state("bredr", ...)` */
    function ClassicSeen(value: Option<bool>, now: int): Bond {
      var b := this.(classic := value);
      var c := if value == Some(true) then b.(lostAt := None)
               else if classic == Some(true) then b.(lostAt := Some(now)).WithoutBurst()
               else b;
      c.(classicSince := if value == Some(true) then (if classicSince.None? then Some(now) else classicSince)
                         else if value == Some(false) then None
                         else classicSince)
    }

    /** `_on_le_disconnected_signal` */
    function LeDropSignal(reason: Reason, active: bool, now: int): Bond {
      var b := SignalledDrop(reason, active, now);
      if b.le == Some(false) then b else b.LeSeen(Some(false), true, active, now)
    }

    /** Bearer.LE1's Connected property changing. */
    function LeConnectedSignal(up: bool, active: bool, now: int): Bond {
      var b := if up then this.(linkUpAt := Some(now)) else this;
      if b.le == Some(up) then b else b.LeSeen(Some(up), true, active, now)
    }

    predicate Expired(active: bool, now: int) {
      || (lostAt.Some? && now - lostAt.value >= LE_SUSPECT_ABSENT_EXPIRY_SECONDS)
      || (lastDropAt.Some? && now - lastDropAt.value >= LE_SUSPECT_QUIET_EXPIRY_SECONDS)
      || !active
    }

    /** `_age_le_evidence` */
    function Aged(active: bool, now: int): Bond {
      if suspect then if Expired(active, now) then Forgiven() else this
      else if flaps != [] && now - flaps[|flaps| - 1] > Window() then WithoutBurst()
      else this
    }

    function BlueZRestarted(): Bond {
      Forgiven().(signalSeen := false, linkUpAt := None, ownAt := None, classic := None, le := None,
                  classicSince := None, leSince := None)
    }
  }

  /** What is left of `flaps` after those older than the window are dropped. */
  function Trim(flaps: seq<int>, now: int, window: int): seq<int> {
    if flaps != [] && now - flaps[0] > window then Trim(flaps[1..], now, window) else flaps
  }

  const NEW := Bond([], None, false, false, None, None, None, None, None, None, None, None, None, [])

  // ---- runs ---------------------------------------------------------------

  datatype Event =
    | ClassicObserved(value: Option<bool>)
    | LeObserved(value: Option<bool>, deliberate: bool)
    | LeDropped(reason: Reason)
    | LeProperty(up: bool)
    | LeUsable              // ANCS authorized, or a new bond
    | OwnDisconnect
    | Check                 // the health check ages the evidence
    | Restarted

  /** An event, when it happens, and whether detection then applies. */
  datatype Moment = Moment(event: Event, now: int, active: bool)

  function Step(b: Bond, m: Moment): Bond {
    match m.event
    case ClassicObserved(value) => b.ClassicSeen(value, m.now)
    case LeObserved(value, deliberate) => b.LeSeen(value, deliberate, m.active, m.now)
    case LeDropped(reason) => b.LeDropSignal(reason, m.active, m.now)
    case LeProperty(up) => b.LeConnectedSignal(up, m.active, m.now)
    case LeUsable => b.Forgiven()
    case OwnDisconnect => b.(ownAt := Some(m.now))
    case Check => b.Aged(m.active, m.now)
    case Restarted => b.BlueZRestarted()
  }

  // ---- the evidence -------------------------------------------------------

  ghost predicate Sorted(s: seq<int>) { forall i, j | 0 <= i < j < |s| :: s[i] <= s[j] }

  /** Nothing in `s` is older than the window. */
  ghost predicate Inside(s: seq<int>, now: int, window: int) { forall i | 0 <= i < |s| :: now - s[i] <= window }

  /** `flaps` are the last drops of the burst. */
  ghost predicate Recent(flaps: seq<int>, drops: seq<Drop>) {
    |flaps| <= |drops| && forall i | 0 <= i < |flaps| :: flaps[i] == drops[|drops| - |flaps| + i].at
  }

  /** A drop that may count: signalled drops are short and have a reason that
      speaks against the bond. */
  predicate Telling(d: Drop) {
    && (d.window == LE_FLAP_WINDOW_SECONDS || d.window == POLLED_LE_FLAP_WINDOW_SECONDS)
    && (d.reason.Some? ==>
          Counted(d.reason.value) && d.lifetime.Some? && d.lifetime.value <= LE_FLAP_MAX_LINK_SECONDS)
    && (d.lifetime.Some? ==> d.lifetime.value < STABLE_CONNECTION_SECONDS)
  }

  /** The drop before lies at most one window, as in force then, back. */
  predicate Follows(drops: seq<Drop>, i: nat)
    requires 0 < i < |drops|
  {
    0 <= drops[i].at - drops[i - 1].at <= drops[i].window
  }

  ghost predicate Chained(drops: seq<Drop>) {
    && (forall i | 0 <= i < |drops| :: Telling(drops[i]))
    && (forall i: nat | 0 < i < |drops| :: Follows(drops, i))
  }

  /** A burst exists exactly while drops are held, and Classic was up in it. */
  predicate Whole(b: Bond) {
    && (b.flaps == [] <==> b.burst.None?) && (b.burst.None? <==> b.drops == [])
    && (b.drops != [] ==> b.burst == Some(b.drops[0].at) && b.classic == Some(true))
  }

  /** The held drops span at most the window of the last one. */
  predicate Bounded(b: Bond, now: int) {
    b.flaps != [] && b.drops != [] ==>
      && b.flaps[|b.flaps| - 1] - b.flaps[0] <= b.drops[|b.drops| - 1].window
      && b.flaps[|b.flaps| - 1] <= now
  }

  /** Until a signal was seen, every drop was counted under the polled window. */
  ghost predicate Polled(b: Bond) {
    !b.signalSeen ==> forall i | 0 <= i < |b.drops| :: b.drops[i].window == POLLED_LE_FLAP_WINDOW_SECONDS
  }

  ghost predicate Kept(b: Bond, now: int) {
    Whole(b) && Bounded(b, now) && Polled(b) && Sorted(b.flaps) && Recent(b.flaps, b.drops) && Chained(b.drops)
  }

  lemma NoBurstIsKept(b: Bond, now: int)
    ensures Kept(b.WithoutBurst(), now) && Kept(b.Forgiven(), now)
  {
  }

  lemma {:induction false} TrimKeepsTail(flaps: seq<int>, now: int, window: int) returns (k: nat)
    requires Sorted(flaps) && flaps != [] && flaps[|flaps| - 1] == now && window >= 0
    ensures k < |flaps| && Trim(flaps, now, window) == flaps[k..] && now - flaps[k] <= window
  {
    if now - flaps[0] > window {
      var more := TrimKeepsTail(flaps[1..], now, window);
      k := more + 1;
      assert flaps[1..][more..] == flaps[k..];
    } else {
      k := 0;
    }
  }

  lemma ChainedMore(drops: seq<Drop>, d: Drop)
    requires Chained(drops) && Telling(d)
    requires drops != [] ==> 0 <= d.at - drops[|drops| - 1].at <= d.window
    ensures Chained(drops + [d])
  {
    forall i: nat | 0 < i < |drops + [d]|
      ensures Follows(drops + [d], i)
    {
      if i < |drops| {
        assert Follows(drops, i);
      }
    }
  }

  lemma ChainedLess(drops: seq<Drop>)
    requires Chained(drops) && drops != []
    ensures Chained(drops[..|drops| - 1])
    ensures |drops| > 1 ==> drops[|drops| - 2].at <= drops[|drops| - 1].at
  {
    var less := drops[..|drops| - 1];
    forall i: nat | 0 < i < |less|
      ensures Follows(less, i)
    {
      assert Follows(drops, i);
    }
    if |drops| > 1 {
      assert Follows(drops, |drops| - 1);
    }
  }

  lemma SortedTail(flaps: seq<int>, now: int, k: nat)
    requires Sorted(flaps) && k <= |flaps| && (flaps != [] ==> flaps[|flaps| - 1] <= now)
    ensures Sorted(flaps + [now]) && Sorted((flaps + [now])[k..])
  {
  }

  lemma LastHeldIsLastDrop(flaps: seq<int>, drops: seq<Drop>)
    requires Recent(flaps, drops) && flaps != []
    ensures drops != [] && flaps[|flaps| - 1] == drops[|drops| - 1].at
  {
    assert flaps[|flaps| - 1] == drops[|drops| - |flaps| + (|flaps| - 1)].at;
  }

  /** The held drops after one more. */
  lemma TrimmedWith(flaps: seq<int>, drops: seq<Drop>, d: Drop) returns (t: seq<int>)
    requires Sorted(flaps) && Recent(flaps, drops) && d.window >= 0
    requires flaps != [] ==> flaps[|flaps| - 1] <= d.at
    ensures t == Trim(flaps + [d.at], d.at, d.window)
    ensures t != [] && t[|t| - 1] == d.at && d.at - t[0] <= d.window
    ensures Sorted(t) && Inside(t, d.at, d.window) && Recent(t, drops + [d])
  {
    SortedTail(flaps, d.at, 0);
    assert (flaps + [d.at])[0..] == flaps + [d.at];
    var k := TrimKeepsTail(flaps + [d.at], d.at, d.window);
    SortedTail(flaps, d.at, k);
    t := (flaps + [d.at])[k..];
  }

  lemma LastDrop(drops: seq<Drop>, d: Drop)
    ensures (drops + [d])[|drops + [d]| - 1] == d && (drops + [d])[0] == (if drops == [] then d else drops[0])
  {
  }

  /** The frame of a burst with one more drop. */
  lemma Framed(b: Bond, c: Bond, d: Drop)
    requires Whole(b) && Polled(b) && b.classic == Some(true) && c.classic == b.classic
    requires c.drops == b.drops + [d] && c.flaps != [] && c.flaps[|c.flaps| - 1] == d.at
    requires d.at - c.flaps[0] <= d.window && d.window == b.Window() && c.signalSeen == b.signalSeen
    requires c.burst == (if b.burst.None? then Some(d.at) else b.burst)
    ensures Whole(c) && Bounded(c, d.at) && Polled(c)
  {
    LastDrop(b.drops, d);
  }

  lemma AppendedIsKept(b: Bond, lifetime: Option<int>, reason: Option<Reason>, now: int)
    requires Kept(b, now) && b.classic == Some(true)
    requires b.flaps != [] ==> now - b.flaps[|b.flaps| - 1] <= b.Window()
    requires Telling(Drop(now, b.Window(), lifetime, reason))
    ensures var c := b.Appended(lifetime, reason, now);
            && Kept(c, now) && c.drops != [] && c.drops[|c.drops| - 1].at == now
            && Inside(c.flaps, now, b.Window())
  {
    var d, c := Drop(now, b.Window(), lifetime, reason), b.Appended(lifetime, reason, now);
    if b.flaps != [] {
      LastHeldIsLastDrop(b.flaps, b.drops);
    }
    var t := TrimmedWith(b.flaps, b.drops, d);
    ChainedMore(b.drops, d);
    LastDrop(b.drops, d);
    Framed(b, c, d);
  }

  lemma JoinedIsKept(b: Bond, now: int)
    requires Kept(b, now)
    ensures Kept(b.Joined(now), now)
    ensures var c := b.Joined(now);
            c.flaps != [] ==> now - c.flaps[|c.flaps| - 1] <= b.Window()
  {
    NoBurstIsKept(b, now);
  }

  /** Five counted drops inside the window, over the persistence time, without
      a gap, while Classic was up, and each of them telling. */
  ghost predicate Evidence(b: Bond, now: int) {
    && Kept(b, now) && |b.flaps| >= LE_FLAP_THRESHOLD
    && Inside(b.flaps, now, b.Window())
    && b.drops != [] && now - b.drops[0].at >= b.Persist() && b.drops[|b.drops| - 1].at == now
    && b.classic == Some(true)
  }

  lemma JudgedIsKept(b: Bond, lifetime: Option<int>, reason: Option<Reason>, now: int)
    requires Kept(b, now) && b.classic == Some(true) && Telling(Drop(now, b.Window(), lifetime, reason))
    requires b.flaps != [] ==> now - b.flaps[|b.flaps| - 1] <= b.Window()
    ensures var c := b.Appended(lifetime, reason, now).Judged(now);
            Kept(c, now) && (!b.suspect && c.suspect ==> Evidence(c, now))
  {
    AppendedIsKept(b, lifetime, reason, now);
  }

  lemma CountedIsKept(b: Bond, lifetime: Option<int>, reason: Option<Reason>, now: int)
    requires Kept(b, now) && b.classic == Some(true) && Telling(Drop(now, b.Window(), lifetime, reason))
    ensures var c := b.Joined(now).Appended(lifetime, reason, now).Judged(now);
            Kept(c, now) && (!b.suspect && c.suspect ==> Evidence(c, now))
  {
    JoinedIsKept(b, now);
    JudgedIsKept(b.Joined(now), lifetime, reason, now);
  }

  lemma RecordedIsKept(b: Bond, lifetime: Option<int>, reason: Option<Reason>, active: bool, now: int)
    requires Kept(b, now)
    ensures Kept(b.Recorded(lifetime, reason, active, now), now)
    ensures !b.suspect && b.Recorded(lifetime, reason, active, now).suspect ==>
              Evidence(b.Recorded(lifetime, reason, active, now), now)
  {
    NoBurstIsKept(b, now);
    var d := Drop(now, b.Window(), lifetime, reason);
    if b.classic == Some(true) && Telling(d) {
      CountedIsKept(b, lifetime, reason, now);
    }
  }

  lemma UncountedIsKept(b: Bond, now: int)
    requires Kept(b, now) && b.flaps != [] && !b.signalSeen
    ensures Kept(b.Uncounted(), now)
  {
    NoBurstIsKept(b, now);
    if |b.flaps| > 1 {
      var c := b.Uncounted();
      var m, n := |b.drops|, |b.flaps|;
      assert c.flaps[n - 2] == c.drops[m - 2].at;
      assert b.flaps[n - 1] == b.drops[m - 1].at;
      ChainedLess(b.drops);
      assert Whole(c) && Bounded(c, now) && Polled(c) && Chained(c.drops);
    }
  }

  lemma HeldIsKept(b: Bond, now: int)
    requires Kept(b, now)
    ensures Kept(b.Held(now), now) && (b.Held(now).suspect ==> b.suspect)
  {
    NoBurstIsKept(b, now);
  }

  /** The state is kept, and a suspicion raised since `b` has its evidence. */
  ghost predicate Raised(b: Bond, c: Bond, now: int) {
    Kept(c, now) && (!b.suspect && c.suspect ==> Evidence(c, now))
  }

  predicate SameDrops(b: Bond, c: Bond) {
    && c.flaps == b.flaps && c.burst == b.burst && c.drops == b.drops && c.classic == b.classic
    && c.signalSeen == b.signalSeen && c.suspect == b.suspect
  }

  lemma SameIsRaised(a: Bond, b: Bond, c: Bond, now: int)
    requires Raised(a, b, now) && SameDrops(b, c)
    ensures Raised(a, c, now)
  {
  }

  lemma DowntimeIsRaised(a: Bond, b: Bond, changed: bool, value: Option<bool>, now: int)
    requires Raised(a, b, now) && value != Some(true)
    ensures Raised(a, b.LeDated(changed, value, now), now)
  {
    SameIsRaised(a, b, b.LeDated(changed, value, now), now);
  }

  lemma UptimeIsKept(a: Bond, b: Bond, changed: bool, now: int)
    requires Kept(b, now) && b.suspect == a.suspect
    ensures Raised(a, b.LeDated(changed, Some(true), now), now)
  {
    var c := b.(linkUpAt := if changed && b.linkUpAt.None? then Some(now) else b.linkUpAt,
                leSince := if b.leSince.None? then Some(now) else b.leSince);
    SameIsRaised(b, b, c, now);
    HeldIsKept(c, now);
  }

  lemma RecordingIsRaised(a: Bond, b: Bond, lifetime: Option<int>, reason: Option<Reason>, active: bool, now: int)
    requires Kept(b, now) && b.suspect == a.suspect
    ensures Raised(a, b.Recorded(lifetime, reason, active, now), now)
  {
    RecordedIsKept(b, lifetime, reason, active, now);
  }

  lemma UnchangedIsRaised(a: Bond, b: Bond, now: int)
    requires Kept(b, now) && b.suspect == a.suspect
    ensures Raised(a, b, now)
  {
  }

  lemma PolledIsRaised(a: Bond, b: Bond, counts: bool, active: bool, now: int)
    requires Kept(b, now) && b.suspect == a.suspect
    ensures Raised(a, b.PolledDrop(counts, active, now), now)
  {
    if counts {
      var lifetime := if b.leSince.None? then None else Some(now - b.leSince.value);
      assert b.PolledDrop(counts, active, now) == b.Recorded(lifetime, None, active, now);
      RecordingIsRaised(a, b, lifetime, None, active, now);
    } else {
      assert b.PolledDrop(counts, active, now) == b;
      UnchangedIsRaised(a, b, now);
    }
  }

  lemma LeSeenIsKept(b: Bond, value: Option<bool>, deliberate: bool, active: bool, now: int)
    requires Kept(b, now)
    ensures Raised(b, b.LeSeen(value, deliberate, active, now), now)
  {
    var c, counts := b.(le := value), b.le == Some(true) && value == Some(false) && !deliberate && !b.signalSeen;
    assert Kept(c, now) && c.suspect == b.suspect by {
      SameIsRaised(b, b, c, now);
    }
    if value == Some(true) {
      UptimeIsKept(b, c, b.le != Some(true), now);
      assert c.PolledDrop(counts, active, now) == c;
    } else {
      PolledIsRaised(b, c, counts, active, now);
      DowntimeIsRaised(b, c.PolledDrop(counts, active, now), b.le != Some(true), value, now);
    }
  }

  lemma BurstlessIsKept(b: Bond, now: int)
    requires b.flaps == [] && b.burst.None? && b.drops == []
    ensures Kept(b, now)
  {
  }

  lemma ClassicUpIsKept(b: Bond, c: Bond, now: int)
    requires Kept(b, now) && c.classic == Some(true)
    requires c.flaps == b.flaps && c.burst == b.burst && c.drops == b.drops && c.signalSeen == b.signalSeen
    ensures Kept(c, now)
  {
  }

  lemma ClassicSeenIsKept(b: Bond, value: Option<bool>, now: int)
    requires Kept(b, now)
    ensures Kept(b.ClassicSeen(value, now), now) && b.ClassicSeen(value, now).suspect == b.suspect
    ensures value != Some(true) ==> b.ClassicSeen(value, now).drops == []
  {
    if value == Some(true) {
      ClassicUpIsKept(b, b.ClassicSeen(value, now), now);
    } else {
      BurstlessIsKept(b.ClassicSeen(value, now), now);
    }
  }

  lemma SignalledIsKept(b: Bond, now: int)
    requires Kept(b, now)
    ensures Kept(b.Signalled(now), now) && b.Signalled(now).suspect == b.suspect
  {
    if b.CountedTwice(now) {
      UncountedIsKept(b, now);
    }
  }

  lemma BlamedIsRaised(a: Bond, b: Bond, lifetime: Option<int>, reason: Reason, active: bool, now: int)
    requires Kept(b, now) && b.suspect == a.suspect
    ensures Raised(a, b.Blamed(lifetime, reason, active, now), now)
  {
    if b.Ours(reason, now) {
      UnchangedIsRaised(a, b, now);
    } else {
      RecordingIsRaised(a, b, lifetime, Some(reason), active, now);
    }
  }

  /** The drop is judged by the bond `c` once the signal is noted. */
  lemma NotedDropIsRaised(b: Bond, c: Bond, d: Bond, lifetime: Option<int>, reason: Reason, active: bool, now: int)
    requires Kept(c, now) && c.suspect == b.suspect && d == c.Blamed(lifetime, reason, active, now)
    ensures Raised(b, d, now)
  {
    BlamedIsRaised(b, c, lifetime, reason, active, now);
  }

  lemma SignalledDropIsKept(b: Bond, reason: Reason, active: bool, now: int)
    requires Kept(b, now)
    ensures Raised(b, b.SignalledDrop(reason, active, now), now)
  {
    var lifetime := if b.linkUpAt.None? then None else Some(now - b.linkUpAt.value);
    SignalledIsKept(b, now);
    NotedDropIsRaised(b, b.Signalled(now), b.SignalledDrop(reason, active, now), lifetime, reason, active, now);
  }

  lemma LeDropSignalIsKept(b: Bond, reason: Reason, active: bool, now: int)
    requires Kept(b, now)
    ensures Raised(b, b.LeDropSignal(reason, active, now), now)
  {
    SignalledDropIsKept(b, reason, active, now);
    var c := b.SignalledDrop(reason, active, now);
    SameIsRaised(b, c, c.(le := Some(false)), now);
    DowntimeIsRaised(b, c.(le := Some(false)), c.le != Some(true), Some(false), now);
  }

  lemma LeConnectedSignalIsKept(b: Bond, up: bool, active: bool, now: int)
    requires Kept(b, now)
    ensures Raised(b, b.LeConnectedSignal(up, active, now), now)
  {
    var c := if up then b.(linkUpAt := Some(now)) else b;
    SameIsRaised(b, b, c, now);
    LeSeenIsKept(c, Some(up), true, active, now);
  }

  lemma OtherStepIsKept(b: Bond, m: Moment)
    requires Kept(b, m.now)
    requires m.event.ClassicObserved? || m.event.LeUsable? || m.event.OwnDisconnect? || m.event.Check?
             || m.event.Restarted?
    ensures Raised(b, Step(b, m), m.now)
  {
    NoBurstIsKept(b, m.now);
    if m.event.ClassicObserved? {
      ClassicSeenIsKept(b, m.event.value, m.now);
    } else if m.event.OwnDisconnect? {
      SameIsRaised(b, b, Step(b, m), m.now);
    }
  }

  lemma StepIsKept(b: Bond, m: Moment, before: int)
    requires Kept(b, before) && before <= m.now
    ensures Raised(b, Step(b, m), m.now)
  {
    match m.event {
      case LeObserved(value, deliberate) => LeSeenIsKept(b, value, deliberate, m.active, m.now);
      case LeDropped(reason) => LeDropSignalIsKept(b, reason, m.active, m.now);
      case LeProperty(up) => LeConnectedSignalIsKept(b, up, m.active, m.now);
      case ClassicObserved(_) => OtherStepIsKept(b, m);
      case LeUsable => OtherStepIsKept(b, m);
      case OwnDisconnect => OtherStepIsKept(b, m);
      case Check => OtherStepIsKept(b, m);
      case Restarted => OtherStepIsKept(b, m);
    }
  }

  function Run(b: Bond, ms: seq<Moment>): Bond {
    if ms == [] then b else Step(Run(b, ms[..|ms| - 1]), ms[|ms| - 1])
  }

  /** The clock of a run does not go back. */
  ghost predicate Clocked(ms: seq<Moment>) { forall i, j | 0 <= i < j < |ms| :: ms[i].now <= ms[j].now }

  function End(ms: seq<Moment>): int { if ms == [] then 0 else ms[|ms| - 1].now }

  lemma {:induction false} RunIsKept(ms: seq<Moment>)
    requires Clocked(ms)
    ensures Kept(Run(NEW, ms), End(ms))
  {
    if ms != [] {
      var init := ms[..|ms| - 1];
      RunIsKept(init);
      if init == [] {
        assert Kept(NEW, ms[0].now);
      }
      StepIsKept(Run(NEW, init), ms[|ms| - 1], if init == [] then ms[0].now else End(init));
    }
  }

  /** Classic was seen not to be up, or BlueZ lost all links. */
  predicate Interrupts(e: Event) { e.Restarted? || (e.ClassicObserved? && e.value != Some(true)) }

  /** One step: drops are kept or dated now; what a step says about losing
      Classic and about the last drop. */
  ghost predicate Moves(b: Bond, c: Bond, m: Moment) {
    && (forall d | d in c.drops :: d in b.drops || d.at == m.now)
    && (Interrupts(m.event) ==> c.drops == [])
    && (c.lastDropAt == b.lastDropAt
        || (c.lastDropAt == Some(m.now) && c.drops != [] && c.drops[|c.drops| - 1].at == m.now))
    && (c.suspect && !b.suspect ==> c.lastDropAt.Some?)
    && (c.lostAt == b.lostAt || m.event.ClassicObserved?)
    && (c.classic == b.classic || m.event.ClassicObserved? || m.event.Restarted?)
    && (m.event.Restarted? ==> !c.suspect)
  }

  /** `Moves`, within a step that is neither about Classic nor a restart. */
  ghost predicate Shifts(b: Bond, c: Bond, now: int) {
    && (forall d | d in c.drops :: d in b.drops || d.at == now)
    && (c.lastDropAt == b.lastDropAt
        || (c.lastDropAt == Some(now) && c.drops != [] && c.drops[|c.drops| - 1].at == now))
    && (c.suspect && !b.suspect ==> c.lastDropAt.Some?)
    && c.lostAt == b.lostAt && c.classic == b.classic
  }

  lemma RecordedShifts(b: Bond, lifetime: Option<int>, reason: Option<Reason>, active: bool, now: int)
    ensures Shifts(b, b.Recorded(lifetime, reason, active, now), now)
    ensures b.Recorded(lifetime, reason, active, now).le == b.le
  {
  }

  lemma LeDatedShifts(a: Bond, b: Bond, changed: bool, value: Option<bool>, now: int)
    requires Shifts(a, b, now) && (value == Some(true) ==> b.lastDropAt == a.lastDropAt)
    ensures Shifts(a, b.LeDated(changed, value, now), now)
  {
  }

  lemma LeSeenShifts(b: Bond, value: Option<bool>, deliberate: bool, active: bool, now: int)
    ensures Shifts(b, b.LeSeen(value, deliberate, active, now), now)
  {
    var c, counts := b.(le := value), b.le == Some(true) && value == Some(false) && !deliberate && !b.signalSeen;
    RecordedShifts(c, if c.leSince.None? then None else Some(now - c.leSince.value), None, active, now);
    LeDatedShifts(b, c.PolledDrop(counts, active, now), b.le != Some(true), value, now);
  }

  lemma SignalledShifts(b: Bond, now: int)
    ensures Shifts(b, b.Signalled(now), now) && b.Signalled(now).lastDropAt == b.lastDropAt
    ensures b.Signalled(now).suspect == b.suspect
  {
  }

  lemma BlamedShifts(a: Bond, b: Bond, lifetime: Option<int>, reason: Reason, active: bool, now: int)
    requires Shifts(a, b, now) && b.lastDropAt == a.lastDropAt && b.suspect == a.suspect
    ensures Shifts(a, b.Blamed(lifetime, reason, active, now), now)
  {
    RecordedShifts(b, lifetime, Some(reason), active, now);
  }

  lemma LeDroppedShifts(b: Bond, reason: Reason, active: bool, now: int)
    ensures Shifts(b, b.LeDropSignal(reason, active, now), now)
  {
    var lifetime := if b.linkUpAt.None? then None else Some(now - b.linkUpAt.value);
    SignalledShifts(b, now);
    BlamedShifts(b, b.Signalled(now), lifetime, reason, active, now);
    var c := b.SignalledDrop(reason, active, now);
    assert Shifts(b, c.(le := Some(false)), now);
    LeDatedShifts(b, c.(le := Some(false)), c.le != Some(true), Some(false), now);
  }

  lemma LeStepMoves(b: Bond, m: Moment)
    requires m.event.LeObserved? || m.event.LeDropped? || m.event.LeProperty?
    ensures Shifts(b, Step(b, m), m.now)
  {
    match m.event {
      case LeObserved(value, deliberate) => LeSeenShifts(b, value, deliberate, m.active, m.now);
      case LeDropped(reason) => LeDroppedShifts(b, reason, m.active, m.now);
      case LeProperty(up) =>
        LeSeenShifts(if up then b.(linkUpAt := Some(m.now)) else b, Some(up), true, m.active, m.now);
    }
  }

  lemma StepMoves(b: Bond, m: Moment)
    requires Whole(b)
    ensures Moves(b, Step(b, m), m)
  {
    if m.event.LeObserved? || m.event.LeDropped? || m.event.LeProperty? {
      LeStepMoves(b, m);
    }
  }

  lemma LastStepMoves(ms: seq<Moment>)
    requires Clocked(ms) && ms != []
    ensures Moves(Run(NEW, ms[..|ms| - 1]), Run(NEW, ms), ms[|ms| - 1])
    ensures Raised(Run(NEW, ms[..|ms| - 1]), Run(NEW, ms), ms[|ms| - 1].now)
  {
    var init := ms[..|ms| - 1];
    RunIsKept(init);
    var before := if init == [] then ms[0].now else End(init);
    assert Kept(Run(NEW, init), before);
    StepMoves(Run(NEW, init), ms[|ms| - 1]);
    StepIsKept(Run(NEW, init), ms[|ms| - 1], before);
  }

  /** Classic was up throughout the burst: no drop of it is older than the last
      time Classic was seen not to be up. */
  lemma {:induction false} DropsFollowInterruptions(ms: seq<Moment>, i: nat)
    requires Clocked(ms) && i < |ms| && Interrupts(ms[i].event)
    ensures forall d | d in Run(NEW, ms).drops :: d.at >= ms[i].now
    decreases |ms|
  {
    LastStepMoves(ms);
    if i < |ms| - 1 {
      var init := ms[..|ms| - 1];
      DropsFollowInterruptions(init, i);
    }
  }

  /** Whatever polls, signals and restarts came before, in whatever order: the
      suspicion is raised only on full evidence, no drop of the burst is older
      than the last time Classic was seen not to be up, and the drops held are
      sorted, span one window and exist exactly while a burst has a start. */
  lemma SuspicionHasEvidence(ms: seq<Moment>)
    requires Clocked(ms) && ms != []
    ensures var b, c := Run(NEW, ms[..|ms| - 1]), Run(NEW, ms);
            && (!b.suspect && c.suspect ==> Evidence(c, End(ms)))
            && (forall i, d | 0 <= i < |ms| && Interrupts(ms[i].event) && d in c.drops :: ms[i].now <= d.at)
            && Sorted(c.flaps) && (c.flaps == [] <==> c.burst.None?)
            && (c.flaps != [] ==> c.flaps[|c.flaps| - 1] - c.flaps[0] <= POLLED_LE_FLAP_WINDOW_SECONDS)
  {
    LastStepMoves(ms);
    var c := Run(NEW, ms);
    if c.flaps != [] {
      assert Telling(c.drops[|c.drops| - 1]);
    }
    forall i, d | 0 <= i < |ms| && Interrupts(ms[i].event) && d in c.drops
      ensures ms[i].now <= d.at
    {
      DropsFollowInterruptions(ms, i);
    }
  }

  // ---- the report ---------------------------------------------------------

  /** A telling drop was counted by the `i`-th event. */
  ghost predicate CountedAt(ms: seq<Moment>, i: nat)
    requires i < |ms|
  {
    var c := Run(NEW, ms[..i + 1]);
    c.drops != [] && c.drops[|c.drops| - 1].at == ms[i].now && Telling(c.drops[|c.drops| - 1])
  }

  /** A telling drop was counted at `t`. */
  ghost predicate CountedThen(ms: seq<Moment>, t: int) {
    exists i: nat :: i < |ms| && CountedAt(ms, i) && ms[i].now == t
  }

  lemma {:induction false} CountedAtLonger(init: seq<Moment>, ms: seq<Moment>, i: nat)
    requires i < |init| <= |ms| && init == ms[..|init|] && CountedAt(init, i)
    ensures CountedAt(ms, i)
  {
    assert init[..i + 1] == ms[..i + 1];
  }

  lemma CountedLater(ms: seq<Moment>, t: int)
    requires ms != [] && CountedThen(ms[..|ms| - 1], t)
    ensures CountedThen(ms, t)
  {
    var init := ms[..|ms| - 1];
    var i: nat :| i < |init| && CountedAt(init, i) && init[i].now == t;
    CountedAtLonger(init, ms, i);
  }

  lemma CountedLast(ms: seq<Moment>)
    requires ms != [] && Kept(Run(NEW, ms), End(ms))
    requires Run(NEW, ms).drops != [] && Run(NEW, ms).drops[|Run(NEW, ms).drops| - 1].at == End(ms)
    ensures CountedThen(ms, End(ms))
  {
    assert ms[..|ms| - 1 + 1] == ms;
    assert CountedAt(ms, |ms| - 1);
  }

  lemma {:induction false} DropWasCounted(ms: seq<Moment>, b: Bond, c: Bond)
    requires ms != [] && c == Run(NEW, ms) && Kept(c, End(ms)) && Moves(b, c, ms[|ms| - 1])
    requires b.lastDropAt.Some? ==> CountedThen(ms[..|ms| - 1], b.lastDropAt.value)
    ensures c.lastDropAt.Some? ==> CountedThen(ms, c.lastDropAt.value)
  {
    if c.lastDropAt.Some? {
      if c.lastDropAt == b.lastDropAt {
        CountedLater(ms, c.lastDropAt.value);
      } else {
        CountedLast(ms);
      }
    }
  }

  lemma {:induction false} LastDropWasCounted(ms: seq<Moment>)
    requires Clocked(ms)
    ensures Run(NEW, ms).lastDropAt.Some? ==> CountedThen(ms, Run(NEW, ms).lastDropAt.value)
  {
    if ms != [] {
      var init := ms[..|ms| - 1];
      LastDropWasCounted(init);
      LastStepMoves(ms);
      DropWasCounted(ms, Run(NEW, init), Run(NEW, ms));
    }
  }

  /** What a report rests on. */
  predicate Grounded(b: Bond, now: int) {
    && (b.suspect ==> b.lastDropAt.Some? && (b.classic == Some(true) || b.lostAt.Some?))
    && (b.lostAt.Some? ==> b.lostAt.value <= now)
  }

  lemma {:induction false} RunIsGrounded(ms: seq<Moment>)
    requires Clocked(ms)
    ensures Grounded(Run(NEW, ms), End(ms))
  {
    if ms != [] {
      var init := ms[..|ms| - 1];
      RunIsGrounded(init);
      LastStepMoves(ms);
    }
  }

  /** From the `i`-th event on Classic was seen, but never up. */
  ghost predicate AwaySince(ms: seq<Moment>, i: nat) {
    && i < |ms| && ms[i].event.ClassicObserved?
    && forall j | i <= j < |ms| && ms[j].event.ClassicObserved? :: ms[j].event.value != Some(true)
  }

  /** Classic is not up, and a report remembers that it went by `since`. */
  predicate Lost(b: Bond, since: int) {
    b.classic != Some(true) && (b.suspect ==> b.lostAt.Some? && b.lostAt.value <= since)
  }

  lemma StaysLost(b: Bond, m: Moment, since: int)
    requires Lost(b, since) && Moves(b, Step(b, m), m) && Raised(b, Step(b, m), m.now)
    requires m.event.ClassicObserved? ==> m.event.value != Some(true)
    ensures Lost(Step(b, m), since)
  {
  }

  lemma {:induction false} LostWhileAway(ms: seq<Moment>, i: nat)
    requires Clocked(ms) && AwaySince(ms, i)
    ensures Lost(Run(NEW, ms), ms[i].now)
    decreases |ms|
  {
    var init, last := ms[..|ms| - 1], ms[|ms| - 1];
    if i < |init| {
      assert AwaySince(init, i);
      LostWhileAway(init, i);
      LastStepMoves(ms);
      StaysLost(Run(NEW, init), last, ms[i].now);
    } else {
      RunIsGrounded(init);
    }
  }

  /** A report that survives a check is backed: detection applies, a telling
      drop was counted less than ten minutes ago, and the phone has not been
      away for two minutes. */
  lemma {:induction false} ReportIsRecent(ms: seq<Moment>)
    requires Clocked(ms) && ms != [] && ms[|ms| - 1].event.Check?
    requires Run(NEW, ms).suspect
    ensures ms[|ms| - 1].active
    ensures exists t :: CountedThen(ms, t) && End(ms) - t < LE_SUSPECT_QUIET_EXPIRY_SECONDS
    ensures forall i: nat :: AwaySince(ms, i) ==> End(ms) - ms[i].now < LE_SUSPECT_ABSENT_EXPIRY_SECONDS
  {
    LastDropWasCounted(ms);
    RunIsGrounded(ms);
    RunIsGrounded(ms[..|ms| - 1]);
    forall i: nat | AwaySince(ms, i)
      ensures End(ms) - ms[i].now < LE_SUSPECT_ABSENT_EXPIRY_SECONDS
    {
      LostWhileAway(ms, i);
    }
  }

  // ---- a suspicion --------------------------------------------------------

  function Held5(k: nat): nat { if k < 5 then k else 5 }

  /** LE has come up and dropped `k` times, every fifteen seconds, for two
      seconds each, while Classic was up. */
  function Flapped(k: nat): Bond
    requires k > 0
  {
    var n := Held5(k);
    NEW.(flaps := seq(n, i => 15 * (k - n + i) + 2), burst := Some(2), suspect := k > 12, signalSeen := true,
         lastDropAt := Some(15 * k - 13), classic := Some(true), le := Some(false), classicSince := Some(0),
         drops := seq(k, i => Drop(15 * i + 2, LE_FLAP_WINDOW_SECONDS, Some(2), Some(Timeout))))
  }

  function Flap(k: nat): seq<Moment> {
    [Moment(LeProperty(true), 15 * k, true), Moment(LeDropped(Timeout), 15 * k + 2, true)]
  }

  function Flaps(k: nat): seq<Moment> {
    if k == 0 then [Moment(ClassicObserved(Some(true)), 0, true)] else Flaps(k - 1) + Flap(k - 1)
  }

  lemma RunTwo(ms: seq<Moment>, a: Moment, b: Moment)
    ensures Run(NEW, ms + [a, b]) == Step(Step(Run(NEW, ms), a), b)
  {
    assert (ms + [a, b])[..|ms| + 1] == ms + [a];
    assert (ms + [a])[..|ms|] == ms;
  }

  lemma TrimOne(flaps: seq<int>, now: int, window: int)
    requires |flaps| > 1 && now - flaps[0] > window && now - flaps[1] <= window
    ensures Trim(flaps, now, window) == flaps[1..]
  {
  }

  lemma FlapsOn(k: nat)
    requires 0 < k <= 12
    ensures Step(Step(Flapped(k), Flap(k)[0]), Flap(k)[1]) == Flapped(k + 1)
  {
    var b := Step(Flapped(k), Flap(k)[0]);
    assert b == Flapped(k).(linkUpAt := Some(15 * k), le := Some(true), leSince := Some(15 * k));
    var now, all := 15 * k + 2, Flapped(k).flaps + [15 * k + 2];
    if k >= 5 {
      TrimOne(all, now, LE_FLAP_WINDOW_SECONDS);
      assert all[1..] == Flapped(k + 1).flaps;
    } else {
      assert all == Flapped(k + 1).flaps;
    }
    var d := Drop(now, LE_FLAP_WINDOW_SECONDS, Some(2), Some(Timeout));
    assert Flapped(k).drops + [d] == Flapped(k + 1).drops;
  }

  function Watching(): Bond { NEW.(classic := Some(true), classicSince := Some(0)) }

  lemma FlapsBegin()
    ensures Run(NEW, Flaps(0)) == Watching()
    ensures Step(Step(Watching(), Flap(0)[0]), Flap(0)[1]) == Flapped(1)
  {
    assert Flaps(0)[..0] == [];
    var b := Step(Watching(), Flap(0)[0]);
    assert b == Watching().(linkUpAt := Some(0), le := Some(true), leSince := Some(0));
    assert [2] == Flapped(1).flaps;
    assert [Drop(2, LE_FLAP_WINDOW_SECONDS, Some(2), Some(Timeout))] == Flapped(1).drops;
  }

  lemma {:induction false} FlapsHappen(k: nat)
    requires 0 < k <= 13
    ensures Run(NEW, Flaps(k)) == Flapped(k)
  {
    RunTwo(Flaps(k - 1), Flap(k - 1)[0], Flap(k - 1)[1]);
    assert Flap(k - 1) == [Flap(k - 1)[0], Flap(k - 1)[1]];
    if k == 1 {
      FlapsBegin();
    } else {
      FlapsHappen(k - 1);
      FlapsOn(k - 1);
    }
  }

  lemma {:induction false} FlapsAreClocked(k: nat)
    ensures Clocked(Flaps(k)) && (k > 0 ==> End(Flaps(k)) == 15 * k - 13) && (k == 0 ==> End(Flaps(k)) == 0)
  {
    if k > 0 {
      FlapsAreClocked(k - 1);
      var before := Flaps(k - 1);
      assert before != [] && before[|before| - 1].now <= 15 * (k - 1);
      assert forall i | 0 <= i < |before| :: before[i].now <= before[|before| - 1].now;
    }
  }

  lemma BeforeLastFlap(ms: seq<Moment>)
    requires ms == Flaps(13)
    ensures ms != [] && !Run(NEW, ms[..|ms| - 1]).suspect
  {
    var init, flap := ms[..|ms| - 1], Flap(12);
    assert ms == Flaps(12) + flap;
    assert init == Flaps(12) + [flap[0]];
    assert init[..|init| - 1] == Flaps(12) && init[|init| - 1] == flap[0];
    FlapsHappen(12);
  }

  lemma CheckedAtOnce(ms: seq<Moment>, b: Bond)
    requires Run(NEW, ms) == b && b.suspect && b.lostAt.None? && b.lastDropAt == Some(End(ms))
    ensures Run(NEW, ms + [Moment(Check, End(ms), true)]) == b
  {
    var more := ms + [Moment(Check, End(ms), true)];
    assert more[..|more| - 1] == ms;
  }

  /** The suspicion can be raised, by thirteen two-second links in three
      minutes, and its report survives the next check. */
  lemma SuspicionHappens() returns (ms: seq<Moment>)
    ensures Clocked(ms) && ms != [] && Run(NEW, ms).suspect && !Run(NEW, ms[..|ms| - 1]).suspect
    ensures Run(NEW, ms + [Moment(Check, End(ms), true)]).suspect
  {
    ms := Flaps(13);
    FlapsHappen(13);
    BeforeLastFlap(ms);
    FlapsAreClocked(13);
    CheckedAtOnce(ms, Flapped(13));
  }

  // ---- the code -----------------------------------------------------------

  /** The detector's fields of the supervisor; `active` says whether detection
      applies, `drops` is history. */
  class LeBondDetector {
    var flaps: seq<int>
    var burst: Option<int>
    var suspect: bool
    var signalSeen: bool
    var linkUpAt: Option<int>
    var lastDropAt: Option<int>
    var polledDropAt: Option<int>
    var ownAt: Option<int>
    var classic: Option<bool>
    var le: Option<bool>
    var classicSince: Option<int>
    var leSince: Option<int>
    var lostAt: Option<int>
    ghost var drops: seq<Drop>

    ghost function View(): Bond
      reads this
    {
      Bond(flaps, burst, suspect, signalSeen, linkUpAt, lastDropAt, polledDropAt, ownAt, classic, le, classicSince,
           leSince, lostAt, drops)
    }

    constructor ()
      ensures View() == NEW
    {
      flaps, burst, suspect, signalSeen, linkUpAt, lastDropAt := [], None, false, false, None, None;
      polledDropAt, ownAt, classic, le := None, None, None, None;
      classicSince, leSince, lostAt, drops := None, None, None, [];
    }

    method ResetLeBurst()
      modifies `flaps, `burst, `drops
      ensures View() == old(View()).WithoutBurst()
    {
      flaps, burst, drops := [], None, [];
    }

    method ClearLeFlaps()
      modifies `flaps, `burst, `drops, `suspect
      ensures View() == old(View()).Forgiven()
    {
      flaps, burst, drops := [], None, [];
      suspect := false;
    }

    /** `_record_le_drop` */
    method RecordLeDrop(lifetime: Option<int>, reason: Option<Reason>, active: bool, now: int)
      modifies `flaps, `burst, `drops, `suspect, `lastDropAt, `polledDropAt
      ensures View() == old(View()).Recorded(lifetime, reason, active, now)
    {
      if !active {
        ResetLeBurst();
        return;
      }
      if lifetime.Some? && lifetime.value >= STABLE_CONNECTION_SECONDS {
        ClearLeFlaps();
        return;
      }
      if reason.Some? && !Counted(reason.value) {
        return;
      }
      if reason.Some? && (lifetime.None? || lifetime.value > LE_FLAP_MAX_LINK_SECONDS) {
        ResetLeBurst();
        return;
      }
      if classic != Some(true) || classicSince.None? {
        ResetLeBurst();
        return;
      }
      var window := if signalSeen then LE_FLAP_WINDOW_SECONDS else POLLED_LE_FLAP_WINDOW_SECONDS;
      var persist := if signalSeen then LE_FLAP_PERSIST_SECONDS else POLLED_LE_FLAP_PERSIST_SECONDS;
      JoinBurst(window, now);
      CountDrop(lifetime, reason, window, now);
      if suspect || |flaps| < LE_FLAP_THRESHOLD || burst.None? || now - burst.value < persist {
        return;
      }
      suspect := true;
    }

    method JoinBurst(window: int, now: int)
      requires window == View().Window()
      modifies `flaps, `burst, `drops
      ensures View() == old(View()).Joined(now)
    {
      if flaps != [] && now - flaps[|flaps| - 1] > window {
        ResetLeBurst();
      }
      if burst.Some? && classicSince.Some? && classicSince.value > burst.value {
        ResetLeBurst();
      }
    }

    method CountDrop(lifetime: Option<int>, reason: Option<Reason>, window: int, now: int)
      requires window == View().Window()
      modifies `flaps, `burst, `drops, `lastDropAt, `polledDropAt
      ensures View() == old(View()).Appended(lifetime, reason, now)
    {
      if burst.None? {
        burst := Some(now);
      }
      flaps := flaps + [now];
      drops := drops + [Drop(now, window, lifetime, reason)];
      lastDropAt := Some(now);
      if reason.None? {
        polledDropAt := Some(now);
      }
      ghost var before := View();
      while flaps != [] && now - flaps[0] > window
        invariant View() == before.(flaps := flaps)
        invariant Trim(flaps, now, window) == Trim(before.flaps, now, window)
        decreases |flaps|
      {
        flaps := flaps[1..];
      }
    }

    /** `_count_le_disconnect` */
    method CountLeDisconnect(reason: Reason, active: bool, now: int)
      requires Recent(flaps, drops)
      modifies this
      ensures View() == old(View()).SignalledDrop(reason, active, now)
    {
      var upAt := linkUpAt;
      ReplacePolledDrop(now);
      var lifetime := if upAt.None? then None else Some(now - upAt.value);
      if reason.Suspend? {
        return;
      }
      if reason.Local? && ownAt.Some? && now - ownAt.value < OWN_LE_DISCONNECT_GRACE_SECONDS {
        return;
      }
      RecordLeDrop(lifetime, Some(reason), active, now);
    }

    method ReplacePolledDrop(now: int)
      requires Recent(flaps, drops)
      modifies this
      ensures View() == old(View()).Signalled(now)
    {
      var first := !signalSeen;
      signalSeen := true;
      var polled := polledDropAt;
      if first && polled.Some? && now - polled.value <= POLL_SECONDS * 2 && flaps != []
         && flaps[|flaps| - 1] == polled.value && (linkUpAt.None? || linkUpAt.value <= polled.value) {
        flaps := flaps[..|flaps| - 1];
        drops := drops[..|drops| - 1];
        if flaps == [] {
          burst, drops := None, [];
        }
      }
      polledDropAt := None;
      linkUpAt := None;
    }

    method ClearLeFlapsIfHeld(now: int)
      modifies `flaps, `burst, `drops, `suspect
      ensures View() == old(View()).Held(now)
    {
      if !(flaps != [] || suspect) {
        return;
      }
      var since := if signalSeen then linkUpAt else leSince;
      if since.Some? && now - since.value >= STABLE_CONNECTION_SECONDS {
        ClearLeFlaps();
      }
    }

    method UpdateLe(value: Option<bool>, deliberate: bool, active: bool, now: int)
      modifies this
      ensures View() == old(View()).LeSeen(value, deliberate, active, now)
    {
      var previous := le;
      le := value;
      if previous == Some(true) && value == Some(false) {
        if !deliberate && !signalSeen {
          RecordLeDrop(if leSince.None? then None else Some(now - leSince.value), None, active, now);
        }
      }
      DateLe(previous, value, now);
    }

    method DateLe(previous: Option<bool>, value: Option<bool>, now: int)
      modifies this
      ensures View() == old(View()).LeDated(previous != Some(true), value, now)
    {
      if previous != Some(true) && value == Some(true) {
        if linkUpAt.None? {
          linkUpAt := Some(now);
        }
      }
      if value == Some(true) {
        if leSince.None? {
          leSince := Some(now);
        }
        ClearLeFlapsIfHeld(now);
      } else if value == Some(false) {
        leSince := None;
      }
    }

    method UpdateClassic(value: Option<bool>, now: int)
      modifies this
      ensures View() == old(View()).ClassicSeen(value, now)
    {
      var previous := classic;
      classic := value;
      if value == Some(true) {
        lostAt := None;
      } else if previous == Some(true) {
        lostAt := Some(now);
        ResetLeBurst();
      }
      if value == Some(true) {
        if classicSince.None? {
          classicSince := Some(now);
        }
      } else if value == Some(false) {
        classicSince := None;
      }
    }

    /** `_age_le_evidence` */
    method AgeLeEvidence(active: bool, now: int)
      modifies `flaps, `burst, `drops, `suspect
      ensures View() == old(View()).Aged(active, now)
    {
      if flaps != [] && !suspect {
        var window := if signalSeen then LE_FLAP_WINDOW_SECONDS else POLLED_LE_FLAP_WINDOW_SECONDS;
        if now - flaps[|flaps| - 1] > window {
          ResetLeBurst();
        }
      }
      if suspect && lostAt.Some? && now - lostAt.value >= LE_SUSPECT_ABSENT_EXPIRY_SECONDS {
        ClearLeFlaps();
      }
      if suspect && lastDropAt.Some? && now - lastDropAt.value >= LE_SUSPECT_QUIET_EXPIRY_SECONDS {
        ClearLeFlaps();
      }
      if suspect && !active {
        ClearLeFlaps();
      }
    }
  }
}
