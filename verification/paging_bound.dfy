/** How often an absent phone is paged over Classic
    (bearer_supervisor.py:1393-1748). */
module PagingBound {
  import opened Options
  import opened Bearer
  import opened BearerRuns

  /** A window that begins at `start`, after `before` pages. */
  datatype Window = Window(start: int, before: nat)

  /** There is no sign of the phone, and nobody asked for a page. */
  predicate Hidden(s: Sup, g: Window) {
    && s.links.classic != Some(true) && s.links.le != Some(true) && !s.links.hint
    && (s.rest.sightedAt.Some? ==> g.start - s.rest.sightedAt.value >= PRESENCE_FRESH_SECONDS)
    && !s.ops.manual && s.ops.phase.None?
  }

  predicate Keyed(d: Dials) { d.ids.Keys <= d.connecting && d.deadlines.Keys <= d.connecting }

  predicate InFlight(s: Sup) { Classic in s.ops.dials.connecting }

  /** Failures, counting the page in flight as one. */
  function Misses(s: Sup): nat { s.classic.failures + if InFlight(s) then 1 else 0 }

  function Pages(s: Sup, g: Window): int { |s.ops.dials.pages| - g.before }

  /** `n` pages have used up their time by `t`. */
  predicate Paid(n: int, t: int, g: Window) {
    n <= CLASSIC_RESTING_AFTER_FAILURES
    || CLASSIC_BACKOFF_CAP_SECONDS * (n - CLASSIC_RESTING_AFTER_FAILURES) <= t - g.start
  }

  /** The pages of the window are paid for when the last one starts, and once
      three attempts have missed, the next may only start when it is paid for. */
  predicate Metered(s: Sup, g: Window, now: int) {
    var pages := s.ops.dials.pages;
    && g.start <= now && g.before <= |pages|
    && (g.before < |pages| ==> pages[|pages| - 1] <= now && Paid(Pages(s, g), pages[|pages| - 1], g))
    && (Misses(s) < CLASSIC_RESTING_AFTER_FAILURES ==> Pages(s, g) <= Misses(s))
    && (Misses(s) >= CLASSIC_RESTING_AFTER_FAILURES && !InFlight(s) ==> Paid(Pages(s, g) + 1, s.classic.next, g))
  }

  predicate Paced(s: Sup, g: Window, now: int) { Hidden(s, g) && Keyed(s.ops.dials) && Metered(s, g, now) }

  lemma MissIsPaced(s: Sup, failed: bool, now: int, g: Window)
    requires Paced(s, g, now) && InFlight(s)
    ensures Paced(s.Clear(Classic).Failed(Classic, failed, now), g, now)
  {
    var t := s.Clear(Classic);
    assert !t.PeerPresent(now);
  }

  lemma LeMissIsPaced(s: Sup, failed: bool, now: int, g: Window)
    requires Paced(s, g, now)
    ensures Paced(s.Clear(Le), g, now) && Paced(s.Clear(Le).Failed(Le, failed, now), g, now)
  {
  }

  lemma GivingUpIsPaced(s: Sup, kind: Kind, now: int, g: Window)
    requires Paced(s, g, now) && kind in s.ops.dials.connecting
    ensures Paced(s.GivenUp(kind, now), g, now)
  {
    if kind == Classic {
      MissIsPaced(s, true, now, g);
    } else {
      LeMissIsPaced(s, true, now, g);
    }
  }

  lemma DialingIsPaced(s: Sup, kind: Kind, env: Env, g: Window)
    requires Paced(s, g, env.now) && s.MayConnect(kind, env)
    ensures Paced(s.Dialing(kind, env.now), g, env.now) && kind in s.Dialing(kind, env.now).ops.dials.connecting
  {
  }

  lemma AwaitingIsPaced(s: Sup, kind: Kind, now: int, g: Window)
    requires Paced(s, g, now) && kind in s.ops.dials.connecting
    ensures Paced(s.Awaiting(kind, now), g, now)
  {
  }

  lemma AcceptedIsPaced(s: Sup, kind: Kind, env: Env, g: Window)
    requires Paced(s, g, env.now) && kind in s.ops.dials.connecting
    ensures Paced(s.Accepted(kind, env), g, env.now)
  {
    if kind == Classic {
      MissIsPaced(s, false, env.now, g);
      var t := s.Clear(Classic);
      assert t.Restored(env).Failed(Classic, false, env.now)
          == t.Failed(Classic, false, env.now).(preference := t.Restored(env).preference);
    } else {
      LeMissIsPaced(s, false, env.now, g);
    }
  }

  lemma LeRequestIsPaced(s: Sup, env: Env, g: Window)
    requires Paced(s, g, env.now)
    ensures Paced(s.RequestTargeted(Le, env), g, env.now)
  {
    if s.MayConnect(Le, env) {
      DialingIsPaced(s, Le, env, g);
      var t := s.Dialing(Le, env.now);
      GivingUpIsPaced(t, Le, env.now, g);
      AwaitingIsPaced(t, Le, env.now, g);
      AcceptedIsPaced(t, Le, env, g);
    }
  }

  lemma SettledIsPaced(s: Sup, kind: Kind, value: Option<bool>, now: int, g: Window)
    requires Paced(s, g, now) && value != Some(true)
    ensures Paced(s.Settled(kind, value, now), g, now)
  {
    if kind == Classic && InFlight(s) {
      MissIsPaced(s, true, now, g);
    } else if kind == Le {
      LeMissIsPaced(s, true, now, g);
    }
  }

  lemma SeenIsPaced(s: Sup, kind: Kind, value: Option<bool>, now: int, g: Window)
    requires Paced(s, g, now) && value != Some(true)
    ensures Paced(s.Seen(kind, value), g, now)
  {
  }

  lemma UpdateIsPaced(s: Sup, kind: Kind, value: Option<bool>, env: Env, g: Window)
    requires Paced(s, g, env.now) && value != Some(true)
    ensures Paced(s.Update(kind, value, env), g, env.now)
  {
    SettledIsPaced(s, kind, value, env.now, g);
    var t := s.Settled(kind, value, env.now);
    SeenIsPaced(t, kind, value, env.now, g);
  }

  /** An error that is no evidence of the phone. */
  predicate Idle(failure: Failure) {
    failure.AlreadyConnected? ==> failure.classic != Some(true) && failure.le != Some(true)
  }

  /** Sending a connect reveals nothing of the phone. */
  predicate Silent(env: Env) { env.connectRaises.Some? ==> Idle(env.connectRaises.value) }

  lemma NoLinkFoundIsPaced(s: Sup, id: nat, classicRead: Option<bool>, leRead: Option<bool>, env: Env, g: Window)
    requires Paced(s, g, env.now) && classicRead != Some(true) && leRead != Some(true)
    ensures Paced(s.FoundConnected(id, classicRead, leRead, env), g, env.now)
  {
    var t := s.Update(Classic, classicRead, env);
    UpdateIsPaced(s, Classic, classicRead, env, g);
    UpdateIsPaced(t, Le, leRead, env, g);
    var u := t.Update(Le, leRead, env);
    if u.IsCurrent(Classic, s.ops.generation, id) {
      GivingUpIsPaced(u, Classic, env.now, g);
    }
  }

  lemma LaunchedIsPaced(s: Sup, env: Env, g: Window)
    requires Paced(s, g, env.now) && Classic in s.ops.dials.connecting && Silent(env)
    ensures Paced(s.LaunchedUntyped(env), g, env.now)
  {
    var t := s.(preference := true);
    assert Paced(t, g, env.now);
    GivingUpIsPaced(s, Classic, env.now, g);
    GivingUpIsPaced(t, Classic, env.now, g);
    AwaitingIsPaced(t, Classic, env.now, g);
    if env.connectRaises.Some? && env.connectRaises.value.AlreadyConnected? {
      NoLinkFoundIsPaced(t, s.ops.dials.serial, env.connectRaises.value.classic, env.connectRaises.value.le, env, g);
    }
  }

  lemma RequestIsPaced(s: Sup, kind: Kind, env: Env, g: Window)
    requires Paced(s, g, env.now) && Silent(env)
    ensures Paced(s.RequestConnect(kind, env), g, env.now)
  {
    if kind == Le {
      LeRequestIsPaced(s, env, g);
    } else if s.MayConnect(Classic, env) {
      DialingIsPaced(s, Classic, env, g);
      LaunchedIsPaced(s.Dialing(Classic, env.now), env, g);
    }
  }

  lemma CompletingIsPaced(s: Sup, env: Env, g: Window)
    requires Paced(s, g, env.now)
    ensures Paced(s.CompleteReset(env), g, env.now)
  {
    var t := s.(ops := s.ops.(pending := false), reset := s.reset.(downSeen := false, failures := 0, next := 0));
    assert Paced(t, g, env.now);
    UpdateIsPaced(t, Le, Some(false), env, g);
  }

  /** The LE reset is no concern of the pages. */
  lemma ResetStaysPaced(s: Sup, t: Sup, now: int, g: Window)
    requires Paced(s, g, now) && t == s.(ops := s.ops.(disconnecting := t.ops.disconnecting), reset := t.reset)
    ensures Paced(t, g, now)
  {
  }

  lemma DisconnectedIsPaced(s: Sup, from: nat, env: Env, g: Window)
    requires Paced(s, g, env.now)
    ensures Paced(s.DisconnectSucceeds(from, env), g, env.now)
  {
    var t := s.(ops := s.ops.(disconnecting := false));
    ResetStaysPaced(s, t, env.now, g);
    if s.ops.pending {
      CompletingIsPaced(t, env, g);
    }
  }

  lemma NotDisconnectedIsPaced(s: Sup, from: nat, gone: bool, env: Env, g: Window)
    requires Paced(s, g, env.now)
    ensures Paced(s.DisconnectFails(from, gone, env), g, env.now)
  {
    var t := s.(ops := s.ops.(disconnecting := false));
    ResetStaysPaced(s, t, env.now, g);
    if s.ops.pending && gone {
      CompletingIsPaced(t, env, g);
    } else {
      ResetStaysPaced(s, s.DisconnectFails(from, gone, env), env.now, g);
    }
  }

  lemma LeDisconnectIsPaced(s: Sup, force: bool, env: Env, g: Window)
    requires Paced(s, g, env.now)
    ensures Paced(s.RequestLeDisconnect(force, env), g, env.now)
  {
    var t := s.(ops := s.ops.(disconnecting := true));
    assert Paced(t, g, env.now);
    if env.disconnectRaises.Some? {
      NotDisconnectedIsPaced(t, s.ops.generation, env.disconnectRaises.value, env, g);
    }
  }

  lemma RecoveringIsPaced(s: Sup, allow: bool, since: Option<int>, env: Env, g: Window)
    requires Paced(s, g, env.now)
    ensures Paced(s.Recover(allow, since, env), g, env.now)
  {
    var t := s.(reset := s.reset.(wanted := None));
    var u := if s.ops.pending then t else t.(reset := t.reset.(downSeen := false, startedAt := Some(env.now)));
    var v := u.(spent := false, ops := u.ops.(pending := true, settle := false));
    assert Paced(v, g, env.now);
    LeDisconnectIsPaced(v, false, env, g);
  }

  /** A poll without any sign of the phone. */
  predicate Nothing(p: Poll) { p.classic != Some(true) && p.le != Some(true) }

  lemma AdvancingIsPaced(s: Sup, p: Poll, env: Env, g: Window)
    requires Paced(s, g, env.now) && Nothing(p) && Silent(env)
    ensures Paced(s.Advance(p.classic, p.le, env), g, env.now)
  {
    assert Paced(s.WithSettle(false), g, env.now);
    RequestIsPaced(s.WithSettle(false), Classic, env, g);
  }

  lemma ProceedingIsPaced(s: Sup, p: Poll, env: Env, g: Window)
    requires Paced(s, g, env.now) && Nothing(p) && Silent(env)
    ensures Paced(s.Proceed(p.classic, p.le, env), g, env.now)
  {
    AdvancingIsPaced(s, p, env, g);
    CompletingIsPaced(s, env, g);
    AdvancingIsPaced(s.CompleteReset(env), p, env, g);
  }

  lemma RefreshingIsPaced(s: Sup, p: Poll, env: Env, g: Window)
    requires Paced(s, g, env.now) && Nothing(p)
    ensures Paced(s.Refreshed(p.classic, p.le, p.api, env), g, env.now)
  {
    var t := s.(api := p.api);
    assert Paced(t, g, env.now);
    UpdateIsPaced(t, Classic, p.classic, env, g);
    UpdateIsPaced(t.Update(Classic, p.classic, env), Le, p.le, env, g);
  }

  lemma TickIsPaced(s: Sup, p: Poll, env: Env, g: Window)
    requires Paced(s, g, env.now) && Nothing(p) && Silent(env)
    ensures Paced(s.Ticked(p.classic, p.le, p.api, env), g, env.now)
  {
    var t := s.Refreshed(p.classic, p.le, p.api, env);
    RefreshingIsPaced(s, p, env, g);
    ProceedingIsPaced(t, p, env, g);
    if t.reset.wanted.Some? {
      RecoveringIsPaced(t, t.reset.wanted.value, None, env, g);
      ProceedingIsPaced(t.Recover(t.reset.wanted.value, None, env), p, env, g);
    }
  }

  lemma SettleTimerIsPaced(s: Sup, p: Poll, env: Env, g: Window)
    requires Paced(s, g, env.now) && Nothing(p) && Silent(env)
    ensures Paced(s.SettleFires(p.classic, p.le, p.api, env), g, env.now)
  {
    var t := s.WithSettle(false);
    assert Paced(t, g, env.now);
    RefreshingIsPaced(t, p, env, g);
    RequestIsPaced(t.Refreshed(p.classic, p.le, p.api, env), Classic, env, g);
  }

  lemma RejectedIsPaced(s: Sup, kind: Kind, failure: Failure, from: nat, id: nat, env: Env, g: Window)
    requires Paced(s, g, env.now) && Idle(failure)
    ensures Paced(s.ConnectFails(kind, failure, from, id, env), g, env.now)
  {
    if s.IsCurrent(kind, from, id) {
      match failure {
        case InProgress => AwaitingIsPaced(s, kind, env.now, g);
        case Refused => GivingUpIsPaced(s, kind, env.now, g);
        case AlreadyConnected(classicRead, leRead) =>
          if kind == Classic && s.Untyped() {
            NoLinkFoundIsPaced(s, id, classicRead, leRead, env, g);
          } else {
            AcceptedIsPaced(s, kind, env, g);
          }
      }
    }
  }

  lemma AnsweredIsPaced(s: Sup, kind: Kind, from: nat, id: nat, env: Env, g: Window)
    requires Paced(s, g, env.now)
    ensures Paced(s.ConnectSucceeds(kind, from, id, env), g, env.now)
  {
    if s.IsCurrent(kind, from, id) {
      AcceptedIsPaced(s, kind, env, g);
    }
  }

  /** No evidence of the phone, no request for it, no restart of BlueZ. */
  predicate Quiet(e: Event) {
    match e
    case Tick(p) => Nothing(p)
    case SettleTimer(p) => Nothing(p)
    case ConnectError(_, failure, _, _) => Idle(failure)
    case LeSignalled(up, _) => !up
    case Reconnect => false
    case ResetProfiles => false
    case Sighted => false
    case Restarted => false
    case Start => true
    case Stop => true
    case ConnectReply(_, _, _) => true
    case DisconnectReply(_) => true
    case DisconnectError(_, _) => true
    case RecoverLe(_, _) => true
    case Enable => true
    case Hold => true
    case ManualTimer => true
    case ProfileReply(_) => true
    case ProfileError(_, _) => true
    case ProfileTimer(_) => true
    case PhoneClosedClassic => true
  }

  lemma GatesArePaced(s: Sup, env: Env, g: Window)
    requires Paced(s, g, env.now)
    ensures Paced(s.EnableLe(env), g, env.now) && Paced(s.HoldLe(env), g, env.now)
  {
    var t := s.(enabled := false).WithSettle(false);
    assert Paced(t, g, env.now);
    LeDisconnectIsPaced(t, true, env, g);
  }

  lemma LeDropIsPaced(s: Sup, property: bool, env: Env, g: Window)
    requires Paced(s, g, env.now)
    ensures Paced(s.LeSignal(false, property, env), g, env.now)
  {
    var t := if property then s.(api := Some(true)) else s;
    assert Paced(t, g, env.now);
    UpdateIsPaced(t, Le, Some(false), env, g);
  }

  lemma ClosingIsPaced(s: Sup, now: int, g: Window)
    requires Paced(s, g, now)
    ensures Paced(s.ClassicClosedByPhone(now), g, now)
  {
  }

  lemma StepIsPaced(s: Sup, e: Event, env: Env, g: Window)
    requires Paced(s, g, env.now) && Possible(s, e) && Quiet(e) && !e.Stop? && Silent(env)
    ensures Paced(Step(s, e, env), g, env.now)
  {
    match e {
      case Tick(p) => TickIsPaced(s, p, env, g);
      case SettleTimer(p) => SettleTimerIsPaced(s, p, env, g);
      case ConnectReply(kind, from, id) => AnsweredIsPaced(s, kind, from, id, env, g);
      case ConnectError(kind, failure, from, id) => RejectedIsPaced(s, kind, failure, from, id, env, g);
      case DisconnectReply(from) => DisconnectedIsPaced(s, from, env, g);
      case DisconnectError(from, gone) => NotDisconnectedIsPaced(s, from, gone, env, g);
      case RecoverLe(allow, since) => RecoveringIsPaced(s, allow, since, env, g);
      case Enable => GatesArePaced(s, env, g);
      case Hold => GatesArePaced(s, env, g);
      case LeSignalled(up, property) => LeDropIsPaced(s, property, env, g);
      case PhoneClosedClassic => ClosingIsPaced(s, env.now, g);
      case ProfileReply(from) =>
      case ProfileError(from, gone) =>
      case ProfileTimer(p) =>
      case _ =>
    }
  }

  /** The supervisor has been stopped. */
  predicate Still(s: Sup) { !s.running && s.ops.dials.connecting == {} && s.ops.dials.ids == map[] && !s.ops.pending }

  lemma RepliesStayStill(s: Sup, kind: Kind, failure: Failure, from: nat, id: nat, gone: bool, env: Env)
    requires Still(s)
    ensures s.ConnectSucceeds(kind, from, id, env) == s == s.ConnectFails(kind, failure, from, id, env)
    ensures Still(s.DisconnectSucceeds(from, env)) && Still(s.DisconnectFails(from, gone, env))
    ensures s.DisconnectSucceeds(from, env).ops.dials == s.ops.dials == s.DisconnectFails(from, gone, env).ops.dials
  {
  }

  lemma StaysStill(s: Sup, e: Event, env: Env)
    requires Still(s) && Possible(s, e) && Quiet(e) && !e.Start?
    ensures Still(Step(s, e, env)) && Step(s, e, env).ops.dials.pages == s.ops.dials.pages
  {
    match e {
      case ConnectReply(kind, from, id) => RepliesStayStill(s, kind, Refused, from, id, false, env);
      case ConnectError(kind, failure, from, id) => RepliesStayStill(s, kind, failure, from, id, false, env);
      case DisconnectReply(from) => RepliesStayStill(s, Le, Refused, from, 0, false, env);
      case DisconnectError(from, gone) => RepliesStayStill(s, Le, Refused, from, 0, gone, env);
      case _ =>
    }
  }

  predicate NoStart(ms: seq<Moment>) { forall i | 0 <= i < |ms| :: !ms[i].event.Start? }

  /** A quiet run whose clock does not go back, and in which nothing is started
      again after a stop. */
  predicate QuietRun(ms: seq<Moment>, now: int) {
    ms == []
    || (&& Quiet(ms[0].event) && Silent(ms[0].env) && now <= ms[0].env.now
        && (ms[0].event.Stop? ==> NoStart(ms[1..])) && QuietRun(ms[1..], ms[0].env.now))
  }

  function End(ms: seq<Moment>, now: int): int { if ms == [] then now else ms[|ms| - 1].env.now }

  lemma {:induction false} StillRun(s: Sup, ms: seq<Moment>, now: int)
    requires Still(s) && QuietRun(ms, now) && NoStart(ms)
    ensures Run(s, ms).ops.dials.pages == s.ops.dials.pages && now <= End(ms, now)
    decreases |ms|
  {
    if ms != [] {
      var m := ms[0];
      assert NoStart(ms[1..]) && End(ms[1..], m.env.now) == End(ms, now);
      if Possible(s, m.event) {
        StaysStill(s, m.event, m.env);
        StillRun(Step(s, m.event, m.env), ms[1..], m.env.now);
      } else {
        StillRun(s, ms[1..], m.env.now);
      }
    }
  }

  /** The pages of the window are paid for by now. */
  predicate Bounded(s: Sup, g: Window, now: int) { Paid(Pages(s, g), now, g) }

  lemma PacedIsBounded(s: Sup, g: Window, now: int)
    requires Paced(s, g, now)
    ensures Bounded(s, g, now)
  {
    if g.before < |s.ops.dials.pages| {
      assert Paid(Pages(s, g), s.ops.dials.pages[|s.ops.dials.pages| - 1], g);
    }
  }

  lemma {:induction false} RunIsBounded(s: Sup, ms: seq<Moment>, now: int, g: Window)
    requires Paced(s, g, now) && QuietRun(ms, now)
    ensures Bounded(Run(s, ms), g, End(ms, now))
    decreases |ms|
  {
    PacedIsBounded(s, g, now);
    if ms != [] {
      var m := ms[0];
      assert Paced(s, g, m.env.now);
      assert End(ms[1..], m.env.now) == End(ms, now);
      if m.event.Stop? {
        StillRun(s.Stopped(), ms[1..], m.env.now);
      } else if Possible(s, m.event) {
        StepIsPaced(s, m.event, m.env, g);
        RunIsBounded(Step(s, m.event, m.env), ms[1..], m.env.now, g);
      } else {
        RunIsBounded(s, ms[1..], m.env.now, g);
      }
    }
  }

  lemma {:induction false} EndIsLater(ms: seq<Moment>, now: int)
    requires QuietRun(ms, now)
    ensures now <= End(ms, now)
    decreases |ms|
  {
    if ms != [] {
      EndIsLater(ms[1..], ms[0].env.now);
      assert End(ms[1..], ms[0].env.now) == End(ms, now);
    }
  }

  /** In a window without evidence of the phone at most three Classic connects
      start, and one more for every ten minutes that it lasts, whatever mix of
      replies they get. The state at its beginning may be any reachable one. */
  lemma {:induction false} AbsentPhoneIsPagedRarely(enabled: bool, past: seq<Moment>, ms: seq<Moment>, start: int)
    requires var s := Run(Created(enabled), past); Hidden(s, Window(start, |s.ops.dials.pages|))
    requires QuietRun(ms, start)
    ensures var s := Run(Created(enabled), past);
            |Run(s, ms).ops.dials.pages| - |s.ops.dials.pages|
            <= CLASSIC_RESTING_AFTER_FAILURES + (End(ms, start) - start) / CLASSIC_BACKOFF_CAP_SECONDS
  {
    var s := Run(Created(enabled), past);
    var g := Window(start, |s.ops.dials.pages|);
    RunKeepsSerialized(Created(enabled), past, Past(0, 0, map[]));
    assert Paced(s, g, start);
    RunIsBounded(s, ms, start, g);
    var n, span := Pages(Run(s, ms), g), End(ms, start) - start;
    EndIsLater(ms, start);
    if n > CLASSIC_RESTING_AFTER_FAILURES {
      assert CLASSIC_BACKOFF_CAP_SECONDS * (n - CLASSIC_RESTING_AFTER_FAILURES) <= span;
    }
  }
}
