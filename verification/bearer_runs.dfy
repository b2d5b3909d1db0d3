/** Whole runs of the bearer supervisor: its timers, the daemon's requests,
    BlueZ's replies and signals in any order. */
module BearerRuns {
  import opened Options
  import opened Bearer

  /** The reads of one health check; `api` is what the LE read finds out about
      the interface. */
  datatype Poll = Poll(classic: Option<bool>, le: Option<bool>, api: Option<bool>)

  datatype Event =
    | Tick(seen: Poll)
    | SettleTimer(seen: Poll)
    | ConnectReply(kind: Kind, from: nat, id: nat)
    | ConnectError(kind: Kind, failure: Failure, from: nat, id: nat)
    | DisconnectReply(from: nat)
    | DisconnectError(from: nat, gone: bool)
    | RecoverLe(allow: bool, since: Option<int>)
    | Enable
    | Hold
    | Reconnect
    | ManualTimer
    | ResetProfiles
    | ProfileReply(from: nat)
    | ProfileError(from: nat, gone: bool)
    | ProfileTimer(seen: Poll)
    | LeSignalled(up: bool, property: bool)
    | PhoneClosedClassic
    | Sighted
    | Restarted
    | Start
    | Stop

  predicate Possible(s: Sup, e: Event) {
    match e
    case SettleTimer(_) => s.ops.settle
    case ManualTimer => s.ops.manual
    case Tick(_) => true
    case ConnectReply(_, _, _) => true
    case ConnectError(_, _, _, _) => true
    case DisconnectReply(_) => true
    case DisconnectError(_, _) => true
    case RecoverLe(_, _) => true
    case Enable => true
    case Hold => true
    case Reconnect => true
    case ResetProfiles => true
    case ProfileReply(_) => true
    case ProfileError(_, _) => true
    case ProfileTimer(_) => true
    case LeSignalled(_, _) => true
    case PhoneClosedClassic => true
    case Sighted => true
    case Restarted => true
    case Start => true
    case Stop => true
  }

  function Step(s: Sup, e: Event, env: Env): Sup
    requires Possible(s, e)
  {
    match e
    case Tick(r) => s.Ticked(r.classic, r.le, r.api, env)
    case SettleTimer(r) => s.SettleFires(r.classic, r.le, r.api, env)
    case ConnectReply(kind, from, id) => s.ConnectSucceeds(kind, from, id, env)
    case ConnectError(kind, failure, from, id) => s.ConnectFails(kind, failure, from, id, env)
    case DisconnectReply(from) => s.DisconnectSucceeds(from, env)
    case DisconnectError(from, gone) => s.DisconnectFails(from, gone, env)
    case RecoverLe(allow, since) => s.Recover(allow, since, env)
    case Enable => s.EnableLe(env)
    case Hold => s.HoldLe(env)
    case Reconnect => s.ReconnectNow(env)
    case ManualTimer => s.ManualDial(env)
    case ResetProfiles => s.ResetProfiles(env)
    case ProfileReply(from) => s.ProfileDisconnected(from)
    case ProfileError(from, gone) => s.ProfileDisconnectFails(from, gone)
    case ProfileTimer(r) => s.ProfileReconnects(r.classic, r.le, r.api, env)
    case LeSignalled(up, property) => s.LeSignal(up, property, env)
    case PhoneClosedClassic => s.ClassicClosedByPhone(env.now)
    case Sighted => s.Sighting(env.now)
    case Restarted => s.BlueZRestarted()
    case Start => s.(running := true)
    case Stop => s.Stopped()
  }

  // ---- serialized operations ----------------------------------------------

  /** At most one connect, described by exactly its own entries. */
  predicate Tidy(d: Dials) {
    && !(Classic in d.connecting && Le in d.connecting)
    && d.ids.Keys == d.connecting && d.targeted.Keys == d.connecting && d.deadlines.Keys <= d.connecting
    && (d.active <==> Le in d.connecting)
    && (forall k | k in d.ids :: d.ids[k] <= d.serial)
  }

  /** A profile reset has the radio to itself. */
  predicate Alone(o: Ops) {
    o.phase.Some? ==> o.dials.connecting == {} && !o.disconnecting && !o.manual && !o.settle && !o.pending
  }

  /** The state of the request ids at some earlier time. */
  datatype Past = Past(generation: nat, serial: nat, ids: map<Kind, nat>)

  function Now(s: Sup): Past { Past(s.ops.generation, s.ops.dials.serial, s.ops.dials.ids) }

  /** Every current request is one of the past's, or newer than all of those. */
  predicate Onward(d: Dials, g: Past) {
    d.serial >= g.serial && forall k | k in d.ids :: (k in g.ids && d.ids[k] == g.ids[k]) || d.ids[k] > g.serial
  }

  predicate Serialized(o: Ops, g: Past) {
    Tidy(o.dials) && Alone(o) && Onward(o.dials, g) && o.generation >= g.generation
  }

  lemma BegunIsTidy(d: Dials, kind: Kind, target: bool, now: int, g: Past)
    requires Tidy(d) && d.connecting == {} && Onward(d, g)
    ensures Tidy(d.Begun(kind, target, now)) && Onward(d.Begun(kind, target, now), g)
  {
  }

  lemma ClearIsSerialized(s: Sup, kind: Kind, g: Past)
    requires Serialized(s.ops, g)
    ensures Serialized(s.Clear(kind).ops, g)
  {
  }

  lemma GivingUpIsSerialized(s: Sup, kind: Kind, now: int, g: Past)
    requires Serialized(s.ops, g)
    ensures Serialized(s.GivenUp(kind, now).ops, g)
  {
    ClearIsSerialized(s, kind, g);
  }

  lemma AwaitingIsSerialized(s: Sup, kind: Kind, now: int, g: Past)
    requires Serialized(s.ops, g) && kind in s.ops.dials.connecting
    ensures Serialized(s.Awaiting(kind, now).ops, g)
  {
  }

  lemma LaunchedTargetedIsSerialized(s: Sup, kind: Kind, env: Env, g: Past)
    requires Serialized(s.ops, g) && kind in s.ops.dials.connecting
    ensures Serialized(s.LaunchedTargeted(kind, env).ops, g)
  {
    GivingUpIsSerialized(s, kind, env.now, g);
    AwaitingIsSerialized(s, kind, env.now, g);
    ClearIsSerialized(s, kind, g);
  }

  lemma RequestTargetedIsSerialized(s: Sup, kind: Kind, env: Env, g: Past)
    requires Serialized(s.ops, g)
    ensures Serialized(s.RequestTargeted(kind, env).ops, g)
  {
    if s.MayConnect(kind, env) {
      BegunIsTidy(s.ops.dials, kind, kind == Classic && s.Targeted(), env.now, g);
      LaunchedTargetedIsSerialized(s.Dialing(kind, env.now), kind, env, g);
    }
  }

  lemma SettledIsSerialized(s: Sup, kind: Kind, value: Option<bool>, now: int, g: Past)
    requires Serialized(s.ops, g)
    ensures Serialized(s.Settled(kind, value, now).ops, g)
  {
    ClearIsSerialized(s, kind, g);
  }

  lemma RetargetIsSerialized(s: Sup, env: Env, g: Past)
    requires Serialized(s.ops, g)
    ensures Serialized(s.Retarget(env).ops, g)
  {
    ClearIsSerialized(s, Classic, g);
    var t := s.Clear(Classic);
    RequestTargetedIsSerialized(t.(classic := t.classic.(next := 0)), Classic, env, g);
  }

  lemma UpdateIsSerialized(s: Sup, kind: Kind, value: Option<bool>, env: Env, g: Past)
    requires Serialized(s.ops, g)
    ensures Serialized(s.Update(kind, value, env).ops, g)
  {
    SettledIsSerialized(s, kind, value, env.now, g);
    var t := s.Settled(kind, value, env.now).Seen(kind, value);
    var arrives := value == Some(true) && s.Before(kind) != Some(true);
    RetargetIsSerialized(t.Noted(kind, value, s.Rearms(kind, value), arrives, env.now), env, g);
  }

  lemma FoundConnectedIsSerialized(s: Sup, id: nat, classicRead: Option<bool>, leRead: Option<bool>, env: Env,
                                   g: Past)
    requires Serialized(s.ops, g)
    ensures Serialized(s.FoundConnected(id, classicRead, leRead, env).ops, g)
  {
    var t := s.Update(Classic, classicRead, env);
    UpdateIsSerialized(s, Classic, classicRead, env, g);
    ClearIsSerialized(t, Classic, g);
    UpdateIsSerialized(t, Le, leRead, env, g);
    GivingUpIsSerialized(t.Update(Le, leRead, env), Classic, env.now, g);
  }

  lemma LaunchedIsSerialized(s: Sup, env: Env, g: Past)
    requires Serialized(s.ops, g) && Classic in s.ops.dials.connecting
    ensures Serialized(s.LaunchedUntyped(env).ops, g)
  {
    var t := s.(preference := true);
    GivingUpIsSerialized(s, Classic, env.now, g);
    GivingUpIsSerialized(t, Classic, env.now, g);
    AwaitingIsSerialized(t, Classic, env.now, g);
    if env.connectRaises.Some? && env.connectRaises.value.AlreadyConnected? {
      var failure := env.connectRaises.value;
      FoundConnectedIsSerialized(t, s.ops.dials.serial, failure.classic, failure.le, env, g);
    }
  }

  lemma RequestIsSerialized(s: Sup, kind: Kind, env: Env, g: Past)
    requires Serialized(s.ops, g)
    ensures Serialized(s.RequestConnect(kind, env).ops, g)
  {
    RequestTargetedIsSerialized(s, kind, env, g);
    if kind == Classic && !s.Targeted() && s.MayConnect(kind, env) {
      BegunIsTidy(s.ops.dials, kind, false, env.now, g);
      LaunchedIsSerialized(s.Dialing(kind, env.now), env, g);
    }
  }

  lemma LeNextIsSerialized(s: Sup, env: Env, g: Past)
    requires Serialized(s.ops, g)
    ensures Serialized(s.LeNext(env).ops, g)
  {
  }

  lemma CompletingIsSerialized(s: Sup, env: Env, g: Past)
    requires Serialized(s.ops, g)
    ensures Serialized(s.CompleteReset(env).ops, g)
  {
    var t := s.(ops := s.ops.(pending := false), reset := s.reset.(downSeen := false, failures := 0, next := 0));
    UpdateIsSerialized(t, Le, Some(false), env, g);
    LeNextIsSerialized(if s.ops.pending && s.reset.downSeen then t else t.Update(Le, Some(false), env), env, g);
  }

  lemma DisconnectingIsSerialized(s: Sup, from: nat, gone: bool, env: Env, g: Past)
    requires Serialized(s.ops, g)
    ensures Serialized(s.DisconnectSucceeds(from, env).ops, g)
    ensures Serialized(s.DisconnectFails(from, gone, env).ops, g)
  {
    var t := s.(ops := s.ops.(disconnecting := false));
    CompletingIsSerialized(t, env, g);
  }

  lemma LeDisconnectIsSerialized(s: Sup, force: bool, env: Env, g: Past)
    requires Serialized(s.ops, g)
    ensures Serialized(s.RequestLeDisconnect(force, env).ops, g)
  {
    if s.MayDisconnect(force, env) && env.disconnectRaises.Some? {
      DisconnectingIsSerialized(s.(ops := s.ops.(disconnecting := true)), s.ops.generation, env.disconnectRaises.value,
                                env, g);
    }
  }

  lemma RecoveringIsSerialized(s: Sup, allow: bool, since: Option<int>, env: Env, g: Past)
    requires Serialized(s.ops, g)
    ensures Serialized(s.Recover(allow, since, env).ops, g)
  {
    if s.MayRecover(allow) && (s.ops.pending || env.take) {
      var t := s.(reset := s.reset.(wanted := None));
      var u := if s.ops.pending then t else t.(reset := t.reset.(downSeen := false, startedAt := Some(env.now)));
      LeDisconnectIsSerialized(u.(spent := false, ops := u.ops.(pending := true, settle := false)), false, env, g);
    }
  }

  lemma SchedulingIsSerialized(s: Sup, env: Env, g: Past)
    requires Serialized(s.ops, g)
    ensures Serialized(s.ScheduleLe(env).ops, g) && Serialized(s.WithSettle(false).ops, g)
  {
  }

  lemma AdvancingIsSerialized(s: Sup, classicRead: Option<bool>, leRead: Option<bool>, env: Env, g: Past)
    requires Serialized(s.ops, g)
    ensures Serialized(s.Advance(classicRead, leRead, env).ops, g)
  {
    var t := if classicRead != Some(true) then s.WithSettle(false) else s;
    SchedulingIsSerialized(s, env, g);
    SchedulingIsSerialized(t, env, g);
    SchedulingIsSerialized(t.Restored(env), env, g);
    RequestIsSerialized(t, Classic, env, g);
  }

  lemma ProceedingIsSerialized(s: Sup, classicRead: Option<bool>, leRead: Option<bool>, env: Env, g: Past)
    requires Serialized(s.ops, g)
    ensures Serialized(s.Proceed(classicRead, leRead, env).ops, g)
  {
    AdvancingIsSerialized(s, classicRead, leRead, env, g);
    LeDisconnectIsSerialized(s, false, env, g);
    CompletingIsSerialized(s, env, g);
    AdvancingIsSerialized(s.CompleteReset(env), classicRead, leRead, env, g);
  }

  lemma RefreshingIsSerialized(s: Sup, p: Poll, env: Env, g: Past)
    requires Serialized(s.ops, g)
    ensures Serialized(s.Refreshed(p.classic, p.le, p.api, env).ops, g)
  {
    var t := s.(api := p.api);
    UpdateIsSerialized(t, Classic, p.classic, env, g);
    UpdateIsSerialized(t.Update(Classic, p.classic, env), Le, p.le, env, g);
  }

  lemma TickIsSerialized(s: Sup, p: Poll, env: Env, g: Past)
    requires Serialized(s.ops, g)
    ensures Serialized(s.Ticked(p.classic, p.le, p.api, env).ops, g)
  {
    var t := s.Refreshed(p.classic, p.le, p.api, env);
    RefreshingIsSerialized(s, p, env, g);
    ProceedingIsSerialized(t, p.classic, p.le, env, g);
    if t.reset.wanted.Some? {
      RecoveringIsSerialized(t, t.reset.wanted.value, None, env, g);
      ProceedingIsSerialized(t.Recover(t.reset.wanted.value, None, env), p.classic, p.le, env, g);
    }
  }

  lemma SettleTimerIsSerialized(s: Sup, p: Poll, env: Env, g: Past)
    requires Serialized(s.ops, g)
    ensures Serialized(s.SettleFires(p.classic, p.le, p.api, env).ops, g)
  {
    var t := s.WithSettle(false).Refreshed(p.classic, p.le, p.api, env);
    RefreshingIsSerialized(s.WithSettle(false), p, env, g);
    RequestIsSerialized(t.Restored(env), Le, env, g);
    RequestIsSerialized(t, Classic, env, g);
  }

  lemma ProfileTimerIsSerialized(s: Sup, p: Poll, env: Env, g: Past)
    requires Serialized(s.ops, g)
    ensures Serialized(s.ProfileReconnects(p.classic, p.le, p.api, env).ops, g)
  {
    var t := s.(ops := s.ops.(phase := None));
    RefreshingIsSerialized(t, p, env, g);
    RequestIsSerialized(t.Refreshed(p.classic, p.le, p.api, env).Forgiven(), Classic, env, g);
  }

  lemma RepliesAreSerialized(s: Sup, kind: Kind, failure: Failure, from: nat, id: nat, env: Env, g: Past)
    requires Serialized(s.ops, g)
    ensures Serialized(s.ConnectSucceeds(kind, from, id, env).ops, g)
    ensures Serialized(s.ConnectFails(kind, failure, from, id, env).ops, g)
  {
    ClearIsSerialized(s, kind, g);
    if s.IsCurrent(kind, from, id) {
      AwaitingIsSerialized(s, kind, env.now, g);
      GivingUpIsSerialized(s, kind, env.now, g);
      if failure.AlreadyConnected? && kind == Classic {
        FoundConnectedIsSerialized(s, id, failure.classic, failure.le, env, g);
      }
    }
  }

  lemma LeGateIsSerialized(s: Sup, env: Env, g: Past)
    requires Serialized(s.ops, g)
    ensures Serialized(s.EnableLe(env).ops, g) && Serialized(s.HoldLe(env).ops, g)
  {
    LeDisconnectIsSerialized(s.(enabled := false).WithSettle(false), true, env, g);
  }

  lemma UserRequestsAreSerialized(s: Sup, env: Env, g: Past)
    requires Serialized(s.ops, g)
    ensures Serialized(s.ReconnectNow(env).ops, g) && Serialized(s.ManualDial(env).ops, g)
  {
    RequestIsSerialized(s.(ops := s.ops.(manual := false)), Classic, env, g);
  }

  lemma ResetIsSerialized(s: Sup, env: Env, g: Past)
    requires Serialized(s.ops, g)
    ensures Serialized(s.ResetProfiles(env).ops, g)
  {
  }

  lemma SignalsAreSerialized(s: Sup, up: bool, property: bool, env: Env, g: Past)
    requires Serialized(s.ops, g)
    ensures Serialized(s.LeSignal(up, property, env).ops, g)
    ensures Serialized(s.ClassicClosedByPhone(env.now).ops, g) && Serialized(s.Sighting(env.now).ops, g)
  {
    UpdateIsSerialized(s, Le, Some(up), env, g);
    UpdateIsSerialized(s.(api := Some(true)), Le, Some(up), env, g);
  }

  lemma ProfileRepliesAreSerialized(s: Sup, from: nat, gone: bool, g: Past)
    requires Serialized(s.ops, g)
    ensures Serialized(s.ProfileDisconnected(from).ops, g) && Serialized(s.ProfileDisconnectFails(from, gone).ops, g)
    ensures Serialized(s.BlueZRestarted().ops, g) && Serialized(s.Stopped().ops, g)
  {
  }

  lemma StepKeepsSerialized(s: Sup, e: Event, env: Env, g: Past)
    requires Serialized(s.ops, g) && Possible(s, e)
    ensures Serialized(Step(s, e, env).ops, g)
  {
    match e {
      case Tick(p) => TickIsSerialized(s, p, env, g);
      case SettleTimer(p) => SettleTimerIsSerialized(s, p, env, g);
      case ConnectReply(kind, from, id) => RepliesAreSerialized(s, kind, Refused, from, id, env, g);
      case ConnectError(kind, failure, from, id) => RepliesAreSerialized(s, kind, failure, from, id, env, g);
      case DisconnectReply(from) => DisconnectingIsSerialized(s, from, false, env, g);
      case DisconnectError(from, gone) => DisconnectingIsSerialized(s, from, gone, env, g);
      case RecoverLe(allow, since) => RecoveringIsSerialized(s, allow, since, env, g);
      case Enable => LeGateIsSerialized(s, env, g);
      case Hold => LeGateIsSerialized(s, env, g);
      case Reconnect => UserRequestsAreSerialized(s, env, g);
      case ManualTimer => UserRequestsAreSerialized(s, env, g);
      case ResetProfiles => ResetIsSerialized(s, env, g);
      case ProfileReply(from) => ProfileRepliesAreSerialized(s, from, false, g);
      case ProfileError(from, gone) => ProfileRepliesAreSerialized(s, from, gone, g);
      case ProfileTimer(p) => ProfileTimerIsSerialized(s, p, env, g);
      case LeSignalled(up, property) => SignalsAreSerialized(s, up, property, env, g);
      case PhoneClosedClassic => SignalsAreSerialized(s, false, false, env, g);
      case Sighted => SignalsAreSerialized(s, false, false, env, g);
      case Restarted => ProfileRepliesAreSerialized(s, 0, false, g);
      case Start =>
      case Stop => ProfileRepliesAreSerialized(s, 0, false, g);
    }
  }

  // ---- runs ---------------------------------------------------------------

  /** One event and what the collaborators answer to it. */
  datatype Moment = Moment(event: Event, env: Env)

  /** What cannot happen leaves the state alone. */
  function Run(s: Sup, ms: seq<Moment>): Sup
    decreases |ms|
  {
    if ms == [] then s
    else Run(if Possible(s, ms[0].event) then Step(s, ms[0].event, ms[0].env) else s, ms[1..])
  }

  lemma {:induction false} RunKeepsSerialized(s: Sup, ms: seq<Moment>, g: Past)
    requires Serialized(s.ops, g)
    ensures Serialized(Run(s, ms).ops, g)
    decreases |ms|
  {
    if ms != [] {
      if Possible(s, ms[0].event) {
        StepKeepsSerialized(s, ms[0].event, ms[0].env, g);
        RunKeepsSerialized(Step(s, ms[0].event, ms[0].env), ms[1..], g);
      } else {
        RunKeepsSerialized(s, ms[1..], g);
      }
    }
  }

  /** In every reachable state at most one bearer is connecting, requests are
      described by exactly its key, solicitation is withdrawn exactly while an
      LE dial is outstanding, and a profile reset has the radio to itself. */
  lemma {:induction false} OperationsAreSerialized(enabled: bool, ms: seq<Moment>)
    ensures var o := Run(Created(enabled), ms).ops;
            && !(Classic in o.dials.connecting && Le in o.dials.connecting)
            && o.dials.ids.Keys == o.dials.targeted.Keys == o.dials.connecting
            && o.dials.deadlines.Keys <= o.dials.connecting
            && (o.dials.active <==> Le in o.dials.connecting)
            && (o.phase.Some? ==>
                  o.dials.connecting == {} && !o.disconnecting && !o.manual && !o.settle && !o.pending)
  {
    RunKeepsSerialized(Created(enabled), ms, Past(0, 0, map[]));
  }

  /** A request that has been settled, or replaced, or that belongs to an older
      generation stays dead: its replies never change anything again. */
  lemma {:induction false} DeadRequestsStayDead(s: Sup, ms: seq<Moment>, kind: Kind, from: nat, id: nat,
                                                failure: Failure, env: Env)
    requires Tidy(s.ops.dials) && Alone(s.ops)
    requires from <= s.ops.generation && id <= s.ops.dials.serial && !s.IsCurrent(kind, from, id)
    ensures var t := Run(s, ms);
            t.ConnectSucceeds(kind, from, id, env) == t == t.ConnectFails(kind, failure, from, id, env)
  {
    RunKeepsSerialized(s, ms, Now(s));
  }
}
