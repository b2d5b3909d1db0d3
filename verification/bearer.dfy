/** Which radio operation runs when: connecting, disconnecting and resetting
    the two bearers of the phone (bearer_supervisor.py:440-830, 1134-1880).
    Stale-bond detection is in `StaleBond`. */
module Bearer {
  import opened Options

  const POLL_SECONDS := 5
  const STABLE_CONNECTION_SECONDS := 15
  const CONNECT_TIMEOUT_SECONDS := 45
  const BACKOFF_CAP_SECONDS := 300
  const LE_CONNECTED_CLASSIC_BACKOFF_CAP_SECONDS := 30
  const CLASSIC_BACKOFF_CAP_SECONDS := 600
  const CLASSIC_RESTING_AFTER_FAILURES := 3
  const PRESENCE_FRESH_SECONDS := 120

  datatype Kind = Classic | Le

  datatype Phase = Disconnecting | Settling

  /** The error of a Connect; after "already connected" the code may read both
      bearers again. */
  datatype Failure = InProgress | AlreadyConnected(classic: Option<bool>, le: Option<bool>) | Refused

  /** What the collaborators answer during one step. `connectRaises` is an error
      raised by sending a Connect, `disconnectRaises` one raised by sending a
      Disconnect: whether it says that there is no link. */
  datatype Env = Env(
    now: int, blocked: bool, busy: bool, primed: bool,
    preferRaises: bool, connectRaises: Option<Failure>, disconnectRaises: Option<bool>, take: bool, takeAgain: bool)

  /** The outstanding connects; `pages` are the times at which Classic connects
      were started. */
  datatype Dials = Dials(connecting: set<Kind>, ids: map<Kind, nat>, targeted: map<Kind, bool>,
                         deadlines: map<Kind, int>, serial: nat, active: bool, pages: seq<int>)
  {
    function Cleared(kind: Kind): Dials {
      this.(connecting := connecting - {kind}, ids := ids - {kind}, targeted := targeted - {kind},
            deadlines := deadlines - {kind}, active := active && kind != Le)
    }

    function Begun(kind: Kind, target: bool, now: int): Dials {
      this.(connecting := connecting + {kind}, ids := ids[kind := serial + 1], targeted := targeted[kind := target],
            serial := serial + 1, active := active || kind == Le,
            pages := if kind == Classic then pages + [now] else pages)
    }

    function AllDropped(): Dials { Dials({}, map[], map[], map[], serial, false, pages) }
  }

  /** The operations on the radio: connects, the LE disconnect, the wanted LE
      reset, the timers that lead to a connect, and the profile reset. */
  datatype Ops = Ops(generation: nat, dials: Dials, disconnecting: bool, pending: bool, settle: bool, manual: bool,
                     phase: Option<Phase>)

  /** One bearer's backoff and how long it has been up. */
  datatype Line = Line(failures: nat, next: int, since: Option<int>)

  /** Reconnect damping of Classic. */
  datatype Rest = Rest(resting: bool, lastFailed: bool, remoteClosed: bool, sightedAt: Option<int>)

  datatype LeReset = LeReset(wanted: Option<bool>, downSeen: bool, failures: nat, next: int, startedAt: Option<int>)

  /** The observed bearers. */
  datatype Links = Links(classic: Option<bool>, le: Option<bool>, hint: bool, forgives: bool)

  datatype Sup = Sup(
    running: bool, enabled: bool, api: Option<bool>, preference: bool, spent: bool,
    ops: Ops, classic: Line, le: Line, rest: Rest, reset: LeReset, links: Links)
  {
    // ---- small parts ------------------------------------------------------

    function LineOf(kind: Kind): Line { if kind == Classic then classic else le }

    function WithLine(kind: Kind, line: Line): Sup {
      if kind == Classic then this.(classic := line) else this.(le := line)
    }

    predicate Targeted() { links.hint || links.le == Some(true) }

    predicate Sighted(now: int) { rest.sightedAt.Some? && now - rest.sightedAt.value < PRESENCE_FRESH_SECONDS }

    predicate PeerPresent(now: int) { links.classic == Some(true) || Targeted() || Sighted(now) }

    /** The guards shared by every operation on the radio. */
    predicate Held(env: Env) { env.blocked || ops.phase.Some? || env.busy }

    predicate Exhausted(env: Env) { spent && env.primed }

    function Backoff(kind: Kind, failures: nat): int {
      var cap := if kind == Le then BACKOFF_CAP_SECONDS
                 else if Targeted() then LE_CONNECTED_CLASSIC_BACKOFF_CAP_SECONDS
                 else CLASSIC_BACKOFF_CAP_SECONDS;
      Min(POLL_SECONDS * Power(failures), cap)
    }

    function EnterResting(now: int): (s: Sup)
      ensures s.ops == ops
    {
      this.(rest := rest.(resting := true),
            classic := classic.(next := Max(classic.next, now + CLASSIC_BACKOFF_CAP_SECONDS)))
    }

    predicate GivesUp(failures: nat, now: int) {
      failures >= (if rest.remoteClosed then 1 else CLASSIC_RESTING_AFTER_FAILURES) && !PeerPresent(now)
    }

    /** `_record_failure` */
    function Failed(kind: Kind, failed: bool, now: int): (s: Sup)
      ensures s.ops == ops
    {
      var n := LineOf(kind).failures + 1;
      if kind == Le then this.(le := le.(failures := n, next := now + Backoff(Le, n)))
      else
        var resting := rest.resting || GivesUp(n, now);
        this.(rest := rest.(lastFailed := failed, resting := resting),
              classic := classic.(failures := n,
                                  next := now + if resting then CLASSIC_BACKOFF_CAP_SECONDS else Backoff(Classic, n)))
    }

    function NotePresence(sighting: bool, now: int): (s: Sup)
      ensures s.ops == ops
    {
      var r := rest.(remoteClosed := false, sightedAt := if sighting then Some(now) else rest.sightedAt);
      if r.resting then this.(rest := r.(resting := false), classic := classic.(next := 0)) else this.(rest := r)
    }

    function RearmLe(): (s: Sup)
      ensures s.ops == ops
    { this.(spent := false, le := le.(failures := 0, next := 0)) }

    predicate PreferenceDue(env: Env) {
      preference && enabled && !Held(env) && !Targeted() && ops.dials.connecting == {} && !ops.disconnecting
    }

    /** `_restore_le_preference` */
    function Restored(env: Env): (s: Sup)
      ensures s.ops == ops
    {
      if PreferenceDue(env) && !env.preferRaises then this.(preference := false) else this
    }

    function WithSettle(on: bool): Sup { this.(ops := ops.(settle := on)) }

    // ---- connecting -------------------------------------------------------

    predicate MayConnect(kind: Kind, env: Env) {
      && !Held(env) && !ops.disconnecting && ops.dials.connecting == {}
      && !(kind == Classic && enabled && links.le.None? && !Targeted())
      && !(kind == Le && Exhausted(env))
      && env.now >= LineOf(kind).next
      && (kind == Le ==> env.take)
    }

    function Dialing(kind: Kind, now: int): Sup {
      this.(ops := ops.(dials := ops.dials.Begun(kind, kind == Classic && Targeted(), now)),
            spent := spent || kind == Le)
    }

    predicate IsCurrent(kind: Kind, from: nat, id: nat) {
      from == ops.generation && kind in ops.dials.ids && ops.dials.ids[kind] == id
    }

    function Clear(kind: Kind): Sup { this.(ops := ops.(dials := ops.dials.Cleared(kind))) }

    /** BlueZ accepted the request; the link is not yet seen connected. */
    function Accepted(kind: Kind, env: Env): Sup {
      var s := Clear(kind);
      (if kind == Classic then s.Restored(env) else s).Failed(kind, false, env.now)
    }

    /** `_connect_succeeded` */
    function ConnectSucceeds(kind: Kind, from: nat, id: nat, env: Env): Sup {
      if !IsCurrent(kind, from, id) then this else Accepted(kind, env)
    }

    /** BlueZ owns an attempt: wait for the link, or for a full timeout. */
    function Awaiting(kind: Kind, now: int): Sup {
      if kind in ops.dials.deadlines then this
      else
        this.(ops := ops.(dials := ops.dials.(deadlines :=
                ops.dials.deadlines[kind := now + CONNECT_TIMEOUT_SECONDS])))
    }

    function GivenUp(kind: Kind, now: int): Sup {
      var s := Clear(kind);
      if kind == Le && !enabled then s.(spent := false) else s.Failed(kind, true, now)
    }

    predicate Untyped() { !(Classic in ops.dials.targeted && ops.dials.targeted[Classic]) }

    /** Sends a Connect of one bearer: LE, or Classic while LE is live. */
    function LaunchedTargeted(kind: Kind, env: Env): Sup {
      match env.connectRaises
      case None => this
      case Some(failure) =>
        match failure
        case InProgress => Awaiting(kind, env.now)
        case Refused => GivenUp(kind, env.now)
        case AlreadyConnected(_, _) => Accepted(kind, env)
    }

    function RequestTargeted(kind: Kind, env: Env): Sup {
      if !MayConnect(kind, env) then this else Dialing(kind, env.now).LaunchedTargeted(kind, env)
    }

    // ---- observing --------------------------------------------------------

    /** `_settle_in_progress_connect` */
    function Settled(kind: Kind, value: Option<bool>, now: int): Sup {
      if kind !in ops.dials.deadlines then this
      else if value == Some(true) then Clear(kind)
      else if now < ops.dials.deadlines[kind] then this
      else Clear(kind).Failed(kind, true, now)
    }

    function Seen(kind: Kind, value: Option<bool>): (s: Sup)
      ensures s.ops == ops
    {
      if kind == Classic then this.(links := links.(classic := value))
      else
        this.(links := links.(le := value, hint := if value.Some? then value.value else links.hint),
              reset := reset.(downSeen := reset.downSeen || (value == Some(false) && ops.pending),
                              wanted := if value == Some(false) && links.le == Some(true) then None else reset.wanted))
    }

    /** A link that goes up is evidence of the phone; one that stays up
        forgives the backoff. */
    function Up(kind: Kind, now: int): (s: Sup)
      ensures s.ops == ops
    {
      var line := LineOf(kind);
      var since := if line.since.None? then now else line.since.value;
      var forgives := if line.since.None? && kind == Le then classic.failures > 0 || now < classic.next
                      else links.forgives;
      if now - since < STABLE_CONNECTION_SECONDS then
        WithLine(kind, line.(since := Some(since))).(links := links.(forgives := forgives))
      else
        var t := WithLine(kind, Line(0, 0, Some(since)));
        if kind == Le && forgives then
          t.(classic := classic.(failures := 0, next := 0), links := links.(forgives := false))
        else t.(links := links.(forgives := forgives))
    }

    function Down(kind: Kind): (s: Sup)
      ensures s.ops == ops
    {
      WithLine(kind, LineOf(kind).(since := None)).(links := links.(forgives := links.forgives && kind != Le))
    }

    function Before(kind: Kind): Option<bool> { if kind == Classic then links.classic else links.le }

    predicate Rearms(kind: Kind, value: Option<bool>) {
      if kind == Classic then links.classic == Some(false) && value == Some(true) && links.le != Some(true)
      else links.le == Some(true) && value == Some(false)
    }

    function Arrived(kind: Kind, now: int): (s: Sup)
      ensures s.ops == ops
    {
      var t := NotePresence(false, now);
      if kind == Classic then t.(rest := t.rest.(lastFailed := false)) else t
    }

    function Dated(kind: Kind, value: Option<bool>, now: int): (s: Sup)
      ensures s.ops == ops
    {
      match value
      case Some(up) => if up then Up(kind, now) else Down(kind)
      case None => this
    }

    /** What a change of the link means for the backoff. */
    function Noted(kind: Kind, value: Option<bool>, rearms: bool, arrives: bool, now: int): (s: Sup)
      ensures s.ops == ops
    {
      var t := if rearms then RearmLe() else this;
      var u := if arrives then t.Arrived(kind, now) else t;
      u.Dated(kind, value, now)
    }

    /** `_update_state` without its consumers and the stale-bond evidence. */
    function Update(kind: Kind, value: Option<bool>, env: Env): Sup {
      var arrives := value == Some(true) && Before(kind) != Some(true);
      var s := Settled(kind, value, env.now).Seen(kind, value)
               .Noted(kind, value, Rearms(kind, value), arrives, env.now);
      if kind == Le && value == Some(true) then s.Retarget(env) else s
    }

    /** An LE link that arrives replaces an untyped Classic request. */
    function Retarget(env: Env): Sup {
      if Classic !in ops.dials.connecting || !Untyped() then this
      else
        var s := Clear(Classic);
        s.(classic := s.classic.(next := 0)).RequestTargeted(Classic, env)
    }

    // ---- untyped connects and replies -------------------------------------

    /** An untyped Classic request meets a live link: it is Classic, which the
        request was for, or LE, which replaces the request, or neither. */
    function FoundConnected(id: nat, classicRead: Option<bool>, leRead: Option<bool>, env: Env): Sup {
      var s := Update(Classic, classicRead, env);
      if classicRead == Some(true) then s.ConnectSucceeds(Classic, ops.generation, id, env)
      else
        var t := s.Update(Le, leRead, env);
        if t.IsCurrent(Classic, ops.generation, id) then t.GivenUp(Classic, env.now) else t
    }

    /** An untyped Classic connect first asks BlueZ to prefer Classic. */
    function LaunchedUntyped(env: Env): Sup {
      if env.preferRaises then GivenUp(Classic, env.now)
      else
        var s := this.(preference := true);
        match env.connectRaises
        case None => s
        case Some(failure) =>
          match failure
          case InProgress => s.Awaiting(Classic, env.now)
          case Refused => s.GivenUp(Classic, env.now)
          case AlreadyConnected(classicRead, leRead) => s.FoundConnected(ops.dials.serial, classicRead, leRead, env)
    }

    /** `_request_connect` */
    function RequestConnect(kind: Kind, env: Env): Sup {
      if kind == Le || Targeted() then RequestTargeted(kind, env)
      else if !MayConnect(kind, env) then this
      else Dialing(kind, env.now).LaunchedUntyped(env)
    }

    /** `_connect_failed` */
    function ConnectFails(kind: Kind, failure: Failure, from: nat, id: nat, env: Env): Sup {
      if !IsCurrent(kind, from, id) then this
      else match failure
        case InProgress => Awaiting(kind, env.now)
        case Refused => GivenUp(kind, env.now)
        case AlreadyConnected(classicRead, leRead) =>
          if kind == Le || !Untyped() then Accepted(kind, env) else FoundConnected(id, classicRead, leRead, env)
    }

    // ---- the LE reset -----------------------------------------------------

    predicate MayDisconnect(force: bool, env: Env) {
      && !(api == Some(false) || Held(env) || ops.disconnecting || (Le in ops.dials.connecting && !force))
      && (force || (env.now >= reset.next && (reset.failures == 0 || env.takeAgain)))
    }

    /** `_request_le_disconnect` */
    function RequestLeDisconnect(force: bool, env: Env): Sup {
      if !MayDisconnect(force, env) then this
      else
        var s := this.(ops := ops.(disconnecting := true));
        if env.disconnectRaises.None? then s
        else s.DisconnectFails(ops.generation, env.disconnectRaises.value, env)
    }

    function DisconnectSucceeds(from: nat, env: Env): Sup {
      if from != ops.generation then this
      else
        var s := this.(ops := ops.(disconnecting := false));
        if ops.pending then s.CompleteReset(env) else s
    }

    /** `gone`: BlueZ says that LE is not connected. */
    function DisconnectFails(from: nat, gone: bool, env: Env): Sup {
      if from != ops.generation then this
      else
        var s := this.(ops := ops.(disconnecting := false));
        if !ops.pending then s
        else if gone then s.CompleteReset(env)
        else
          var n := reset.failures + 1;
          s.(reset := reset.(failures := n, next := env.now + Min(POLL_SECONDS * Power(n), BACKOFF_CAP_SECONDS)))
    }

    /** `_complete_le_reset` */
    function CompleteReset(env: Env): Sup {
      var s := this.(ops := ops.(pending := false), reset := reset.(downSeen := false, failures := 0, next := 0));
      (if ops.pending && reset.downSeen then s else s.Update(Le, Some(false), env)).LeNext(env)
    }

    function LeNext(env: Env): Sup {
      if links.classic == Some(true) && enabled && links.le != Some(true) then ScheduleLe(env) else this
    }

    /** `_schedule_le_connect` */
    function ScheduleLe(env: Env): Sup {
      if api == Some(false) || Held(env) || ops.disconnecting || Exhausted(env) then this else WithSettle(true)
    }

    /** Whether `recover_le_transport` gets past its first guards. */
    predicate MayRecover(allow: bool) {
      running && api != Some(false) && ops.phase.None? && (links.le != Some(false) || allow)
    }

    /** What `recover_le_transport` answers: a reset is pending, is begun now, or
        was already begun for this outage. */
    predicate UnderWay(allow: bool, since: Option<int>, env: Env) {
      && MayRecover(allow)
      && (ops.pending || env.take
          || (since.Some? && reset.startedAt.Some? && reset.startedAt.value >= since.value))
    }

    /** `recover_le_transport` */
    function Recover(allow: bool, since: Option<int>, env: Env): Sup {
      var s := this.(reset := reset.(wanted := None));
      if !MayRecover(allow) then s
      else if !ops.pending && !env.take then
        if since.Some? && reset.startedAt.Some? && reset.startedAt.value >= since.value then this
        else s.(reset := s.reset.(wanted := Some(allow || reset.wanted == Some(true))))
      else
        var t := if ops.pending then s else s.(reset := s.reset.(downSeen := false, startedAt := Some(env.now)));
        var u := t.(spent := false, ops := ops.(pending := true, settle := false));
        if enabled then u.RequestLeDisconnect(false, env) else u
    }

    // ---- the health check -------------------------------------------------

    function Refreshed(classicRead: Option<bool>, leRead: Option<bool>, api': Option<bool>, env: Env): Sup {
      this.(api := api').Update(Classic, classicRead, env).Update(Le, leRead, env)
    }

    /** `_tick`; `api'` is what the LE read finds out about the interface. */
    function Ticked(classicRead: Option<bool>, leRead: Option<bool>, api': Option<bool>, env: Env): Sup {
      if !running || env.blocked then this
      else
        var s := Refreshed(classicRead, leRead, api', env);
        if s.ops.phase.Some? || env.busy || s.ops.disconnecting then s
        else if s.reset.wanted.None? then s.Proceed(classicRead, leRead, env)
        else
          var t := s.Recover(s.reset.wanted.value, None, env);
          if t.ops.disconnecting then t else t.Proceed(classicRead, leRead, env)
    }

    /** A pending LE reset comes before any connect. */
    function Proceed(classicRead: Option<bool>, leRead: Option<bool>, env: Env): Sup {
      if !(ops.pending && enabled) then Advance(classicRead, leRead, env)
      else match leRead
        case None => this
        case Some(up) =>
          if up then RequestLeDisconnect(false, env) else CompleteReset(env).Advance(classicRead, leRead, env)
    }

    /** Classic first, then LE. */
    function Advance(classicRead: Option<bool>, leRead: Option<bool>, env: Env): Sup {
      var s := if classicRead != Some(true) then WithSettle(false) else this;
      if classicRead == Some(false) then s.RequestConnect(Classic, env)
      else if classicRead == Some(true) && leRead == Some(false) && s.enabled then
        var t := s.Restored(env);
        if Classic !in t.ops.dials.connecting then t.ScheduleLe(env) else t
      else if leRead == Some(true) then s.WithSettle(false)
      else s
    }

    /** `_connect_le_after_settle` */
    function SettleFires(classicRead: Option<bool>, leRead: Option<bool>, api': Option<bool>, env: Env): Sup {
      var s := WithSettle(false);
      if !running || Held(env) then s
      else
        s.Refreshed(classicRead, leRead, api', env).AfterSettle(classicRead, leRead, env)
    }

    function AfterSettle(classicRead: Option<bool>, leRead: Option<bool>, env: Env): Sup {
      if classicRead == Some(true) && leRead == Some(false) && enabled && api != Some(false) then
        Restored(env).RequestConnect(Le, env)
      else if classicRead == Some(false) then RequestConnect(Classic, env)
      else this
    }

    // ---- requests of the daemon and the user ------------------------------

    function EnableLe(env: Env): Sup {
      if enabled then this
      else
        var s := this.(enabled := true);
        if links.le != Some(true) then s.(preference := true).Restored(env) else s
    }

    function HoldLe(env: Env): Sup {
      var s := this.(enabled := false).WithSettle(false);
      if Le in ops.dials.connecting then s.RequestLeDisconnect(true, env) else s
    }

    predicate ManualAllowed(env: Env) {
      running && !Held(env) && links.classic != Some(true) && ops.dials.connecting == {} && !ops.manual
    }

    function Forgiven(): (s: Sup)
      ensures s.ops == ops
    {
      this.(rest := rest.(resting := false, remoteClosed := false, lastFailed := false),
            classic := classic.(failures := 0, next := 0))
    }

    function ReconnectNow(env: Env): Sup {
      if ManualAllowed(env) then Forgiven().(ops := ops.(manual := true)) else this
    }

    function ManualDial(env: Env): Sup {
      var s := this.(ops := ops.(manual := false));
      if !running || env.blocked || links.classic == Some(true) then s else s.RequestConnect(Classic, env)
    }

    predicate ResetAllowed(env: Env) {
      && running && !Held(env) && !ops.pending && ops.dials.connecting == {} && !ops.disconnecting && !ops.manual
      && links.classic == Some(true)
    }

    function ResetProfiles(env: Env): Sup {
      if !ResetAllowed(env) then this
      else
        var s := this.(ops := ops.(settle := false, phase := Some(Disconnecting)));
        if env.disconnectRaises.None? then s
        else s.ProfileDisconnectFails(ops.generation, env.disconnectRaises.value)
    }

    function ProfileDisconnected(from: nat): Sup {
      if from != ops.generation || ops.phase != Some(Disconnecting) then this
      else this.(reset := reset.(wanted := None), ops := ops.(phase := Some(Settling)))
    }

    function ProfileDisconnectFails(from: nat, gone: bool): Sup {
      if from != ops.generation || ops.phase != Some(Disconnecting) then this
      else if gone then ProfileDisconnected(from)
      else this.(ops := ops.(phase := None))
    }

    /** `_profile_reset_reconnect` */
    function ProfileReconnects(classicRead: Option<bool>, leRead: Option<bool>, api': Option<bool>, env: Env): Sup {
      if ops.phase != Some(Settling) then this
      else
        var s := this.(ops := ops.(phase := None));
        if !running || env.blocked then s
        else
          var t := s.Refreshed(classicRead, leRead, api', env);
          if classicRead == Some(true) then t else t.Forgiven().RequestConnect(Classic, env)
    }

    // ---- signals ----------------------------------------------------------

    /** LE's Disconnected signal, or its Connected property changing. */
    function LeSignal(up: bool, property: bool, env: Env): Sup {
      if !running then this
      else
        var s := if property then this.(api := Some(true)) else this;
        if links.le == Some(up) then s else s.Update(Le, Some(up), env)
    }

    function ClassicClosedByPhone(now: int): Sup {
      if !running || links.le == Some(true) then this
      else if enabled && links.le == Some(false) && !Targeted() && !Sighted(now) then EnterResting(now)
      else this.(rest := rest.(remoteClosed := true))
    }

    function Sighting(now: int): Sup { if running then NotePresence(true, now) else this }

    // ---- beginnings and ends ----------------------------------------------

    function BlueZRestarted(): Sup {
      Sup(running, enabled, None, false, false,
          Ops(ops.generation + 1, ops.dials.AllDropped(), false, false, false, ops.manual, None),
          Line(0, 0, None), Line(0, 0, None), Rest(false, false, false, None),
          LeReset(None, reset.downSeen, 0, 0, reset.startedAt), Links(None, None, false, false))
    }

    function Stopped(): Sup {
      this.(running := false, preference := false, spent := false,
            ops := Ops(ops.generation + 1, ops.dials.AllDropped(), false, false, false, false, None),
            links := links.(hint := false), reset := reset.(wanted := None), rest := Rest(false, false, false, None))
    }
  }

  function Min(a: int, b: int): int { if a < b then a else b }

  function Max(a: int, b: int): int { if a > b then a else b }

  function Power(n: nat): (p: nat)
    ensures p >= 1
  {
    if n == 0 then 1 else 2 * Power(n - 1)
  }

  function Created(enabled: bool): Sup {
    Sup(false, enabled, None, false, false,
        Ops(0, Dials({}, map[], map[], map[], 0, false, []), false, false, false, false, None),
        Line(0, 0, None), Line(0, 0, None), Rest(false, false, false, None),
        LeReset(None, false, 0, 0, None), Links(None, None, false, false))
  }

  // ---- the code -----------------------------------------------------------

  /** The collaborators' answers of a step are its `env`; the source's fields
      are grouped as in `Sup`, its timers are flags, and the Connect calls it
      makes are `ops.dials.pages` for Classic. */
  class BearerSupervisor {
    var running: bool
    var enabled: bool
    var api: Option<bool>
    var preference: bool
    var spent: bool
    var ops: Ops
    var classic: Line
    var le: Line
    var rest: Rest
    var reset: LeReset
    var links: Links

    function View(): Sup
      reads this
    {
      Sup(running, enabled, api, preference, spent, ops, classic, le, rest, reset, links)
    }

    constructor (enabled: bool)
      ensures View() == Created(enabled)
    {
      running, this.enabled, api, preference, spent := false, enabled, None, false, false;
      ops := Ops(0, Dials({}, map[], map[], map[], 0, false, []), false, false, false, false, None);
      classic, le := Line(0, 0, None), Line(0, 0, None);
      rest := Rest(false, false, false, None);
      reset := LeReset(None, false, 0, 0, None);
      links := Links(None, None, false, false);
    }

    method EnterBredrResting(now: int)
      modifies `rest, `classic
      ensures View() == old(View()).EnterResting(now)
    {
      rest := rest.(resting := true);
      classic := classic.(next := Max(classic.next, now + CLASSIC_BACKOFF_CAP_SECONDS));
    }

    /** `_record_failure` */
    method RecordFailure(kind: Kind, failed: bool, now: int) returns (delay: int)
      modifies `rest, `classic, `le
      ensures View() == old(View()).Failed(kind, failed, now)
      ensures View().LineOf(kind).next == now + delay
    {
      if kind == Le {
        le := le.(failures := le.failures + 1);
        delay := View().Backoff(Le, le.failures);
        le := le.(next := now + delay);
        return;
      }
      classic := classic.(failures := classic.failures + 1);
      rest := rest.(lastFailed := failed);
      delay := View().Backoff(Classic, classic.failures);
      var threshold := if rest.remoteClosed then 1 else CLASSIC_RESTING_AFTER_FAILURES;
      if classic.failures >= threshold && !View().PeerPresent(now) {
        EnterBredrResting(now);
      }
      if rest.resting {
        delay := CLASSIC_BACKOFF_CAP_SECONDS;
      }
      classic := classic.(next := now + delay);
    }

    method NotePresence(sighting: bool, now: int)
      modifies `rest, `classic
      ensures View() == old(View()).NotePresence(sighting, now)
    {
      if sighting {
        rest := rest.(sightedAt := Some(now));
      }
      rest := rest.(remoteClosed := false);
      if !rest.resting {
        return;
      }
      rest := rest.(resting := false);
      classic := classic.(next := 0);
    }

    method ClearConnectRequest(kind: Kind)
      modifies `ops
      ensures View() == old(View()).Clear(kind)
    {
      ops := ops.(dials := ops.dials.Cleared(kind));
    }

    /** How deep a request can go: an untyped one may find an LE link, which
        replaces it by a targeted one. */
    function Depth(kind: Kind): nat
      reads this
    {
      if kind == Classic && !View().Targeted() then 1 else 0
    }

    /** `_request_connect`; the connect it starts is the last of `pages`. */
    method RequestConnect(kind: Kind, env: Env)
      modifies this
      ensures View() == old(View()).RequestConnect(kind, env)
      ensures old(View()).Held(env) || old(ops.disconnecting || ops.dials.connecting != {}) ==> View() == old(View())
      decreases Depth(kind), 2
    {
      if env.blocked || ops.phase.Some? || env.busy || ops.disconnecting {
        return;
      }
      if ops.dials.connecting != {} {
        return;
      }
      if kind == Classic && enabled && links.le.None? && !View().Targeted() {
        return;
      }
      if kind == Le && spent && env.primed {
        return;
      }
      if env.now < View().LineOf(kind).next {
        return;
      }
      if kind == Le {
        if !env.take {
          return;
        }
        spent := true;
      }
      var target := kind == Classic && View().Targeted();
      ops := ops.(dials := ops.dials.Begun(kind, target, env.now));
      Launch(kind, kind == Classic && !target, env);
    }

    method Launch(kind: Kind, untyped: bool, env: Env)
      requires untyped ==> kind == Classic && kind in ops.dials.ids && ops.dials.ids[kind] == ops.dials.serial
      modifies this
      ensures untyped ==> View() == old(View()).LaunchedUntyped(env)
      ensures !untyped ==> View() == old(View()).LaunchedTargeted(kind, env)
      decreases if untyped then 1 else 0, 1
    {
      if untyped {
        if env.preferRaises {
          GiveUp(kind, env.now);
          return;
        }
        preference := true;
      }
      if env.connectRaises.None? {
        return;
      }
      match env.connectRaises.value {
        case InProgress => KeepWaiting(kind, env.now);
        case Refused => GiveUp(kind, env.now);
        case AlreadyConnected(classicRead, leRead) =>
          if untyped {
            FindConnected(ops.dials.serial, classicRead, leRead, env);
          } else {
            Accept(kind, env);
          }
      }
    }

    /** The part of `_connect_failed` for an untyped request. */
    method FindConnected(id: nat, classicRead: Option<bool>, leRead: Option<bool>, env: Env)
      modifies this
      ensures View() == old(View()).FoundConnected(id, classicRead, leRead, env)
      decreases 1, 0
    {
      var from := ops.generation;
      UpdateState(Classic, classicRead, env);
      if classicRead == Some(true) {
        ConnectSucceeded(Classic, from, id, env);
        return;
      }
      UpdateState(Le, leRead, env);
      if View().IsCurrent(Classic, from, id) {
        GiveUp(Classic, env.now);
      }
    }

    method Accept(kind: Kind, env: Env)
      modifies this
      ensures View() == old(View()).Accepted(kind, env)
    {
      ClearConnectRequest(kind);
      if kind == Classic {
        RestoreLePreference(env);
      }
      var _ := RecordFailure(kind, false, env.now);
    }

    method KeepWaiting(kind: Kind, now: int)
      modifies `ops
      ensures View() == old(View()).Awaiting(kind, now)
    {
      if kind !in ops.dials.deadlines {
        ops := ops.(dials := ops.dials.(deadlines := ops.dials.deadlines[kind := now + CONNECT_TIMEOUT_SECONDS]));
      }
    }

    method GiveUp(kind: Kind, now: int)
      modifies this
      ensures View() == old(View()).GivenUp(kind, now)
    {
      ClearConnectRequest(kind);
      if kind == Le && !enabled {
        spent := false;
        return;
      }
      var _ := RecordFailure(kind, true, now);
    }

    method RestoreLePreference(env: Env)
      modifies `preference
      ensures View() == old(View()).Restored(env)
    {
      if !preference || !enabled || env.blocked || ops.phase.Some? || env.busy || View().Targeted()
         || ops.dials.connecting != {} || ops.disconnecting {
        return;
      }
      if env.preferRaises {
        return;
      }
      preference := false;
    }

    method ConnectSucceeded(kind: Kind, from: nat, id: nat, env: Env)
      modifies this
      ensures View() == old(View()).ConnectSucceeds(kind, from, id, env)
      ensures !old(View()).IsCurrent(kind, from, id) ==> View() == old(View())
    {
      if View().IsCurrent(kind, from, id) {
        Accept(kind, env);
      }
    }

    method ConnectFailed(kind: Kind, failure: Failure, from: nat, id: nat, env: Env)
      modifies this
      ensures View() == old(View()).ConnectFails(kind, failure, from, id, env)
      ensures !old(View()).IsCurrent(kind, from, id) ==> View() == old(View())
    {
      if !View().IsCurrent(kind, from, id) {
        return;
      }
      match failure {
        case InProgress => KeepWaiting(kind, env.now);
        case Refused => GiveUp(kind, env.now);
        case AlreadyConnected(classicRead, leRead) =>
          if kind == Le || !View().Untyped() {
            Accept(kind, env);
          } else {
            FindConnected(id, classicRead, leRead, env);
          }
      }
    }

    method SettleInProgressConnect(kind: Kind, value: Option<bool>, now: int)
      modifies this
      ensures View() == old(View()).Settled(kind, value, now)
    {
      if kind !in ops.dials.deadlines {
        return;
      }
      var connected := value == Some(true);
      if !connected && now < ops.dials.deadlines[kind] {
        return;
      }
      ClearConnectRequest(kind);
      if connected {
        return;
      }
      var _ := RecordFailure(kind, true, now);
    }

    method SetLink(kind: Kind, value: Option<bool>)
      modifies `links, `reset
      ensures View() == old(View()).Seen(kind, value)
    {
      if kind == Classic {
        links := links.(classic := value);
        return;
      }
      if value == Some(false) && ops.pending {
        reset := reset.(downSeen := true);
      }
      if value == Some(false) && links.le == Some(true) {
        reset := reset.(wanted := None);
      }
      links := links.(le := value);
      if value.Some? {
        links := links.(hint := value.value);
      }
    }

    method SetLine(kind: Kind, line: Line)
      modifies `classic, `le
      ensures View() == old(View()).WithLine(kind, line)
    {
      if kind == Classic {
        classic := line;
      } else {
        le := line;
      }
    }

    /** Date the link and, once it is stable, forgive its backoff. */
    method DateLink(kind: Kind, now: int)
      modifies `classic, `le, `links
      ensures View() == old(View()).Up(kind, now)
    {
      var line := View().LineOf(kind);
      if line.since.None? {
        if kind == Le {
          links := links.(forgives := classic.failures > 0 || now < classic.next);
        }
        line := line.(since := Some(now));
        SetLine(kind, line);
      }
      if now - line.since.value < STABLE_CONNECTION_SECONDS {
        return;
      }
      SetLine(kind, line.(failures := 0, next := 0));
      if kind == Le && links.forgives {
        classic := classic.(failures := 0, next := 0);
        links := links.(forgives := false);
      }
    }

    /** `_update_state` */
    method UpdateState(kind: Kind, value: Option<bool>, env: Env)
      modifies this
      ensures View() == old(View()).Update(kind, value, env)
      decreases 0, 4
    {
      var previous := if kind == Classic then links.classic else links.le;
      var rearms := if kind == Classic then previous == Some(false) && value == Some(true) && links.le != Some(true)
                    else previous == Some(true) && value == Some(false);
      SettleInProgressConnect(kind, value, env.now);
      SetLink(kind, value);
      NoteLink(kind, value, rearms, value == Some(true) && previous != Some(true), env.now);
      if kind == Le && value == Some(true) {
        RetargetPendingClassicConnect(env);
      }
    }

    method NoteLink(kind: Kind, value: Option<bool>, rearms: bool, arrives: bool, now: int)
      modifies `spent, `classic, `le, `rest, `links
      ensures View() == old(View()).Noted(kind, value, rearms, arrives, now)
    {
      if rearms {
        spent := false;
        le := le.(failures := 0, next := 0);
      }
      if arrives {
        NotePresence(false, now);
        if kind == Classic {
          rest := rest.(lastFailed := false);
        }
      }
      DateOrForget(kind, value, now);
    }

    method DateOrForget(kind: Kind, value: Option<bool>, now: int)
      modifies `classic, `le, `links
      ensures View() == old(View()).Dated(kind, value, now)
    {
      if value == Some(true) {
        DateLink(kind, now);
      } else if value == Some(false) {
        SetLine(kind, View().LineOf(kind).(since := None));
        if kind == Le {
          links := links.(forgives := false);
        }
      }
    }

    method RetargetPendingClassicConnect(env: Env)
      requires links.le == Some(true)
      modifies this
      ensures View() == old(View()).Retarget(env)
      decreases 0, 3
    {
      if Classic !in ops.dials.connecting || !View().Untyped() {
        return;
      }
      ClearConnectRequest(Classic);
      classic := classic.(next := 0);
      RequestConnect(Classic, env);
    }

    method RequestLeDisconnect(force: bool, env: Env)
      modifies this
      ensures View() == old(View()).RequestLeDisconnect(force, env)
      ensures old(View()).Held(env) || old(ops.disconnecting) ==> View() == old(View())
    {
      if api == Some(false) || env.blocked || ops.phase.Some? || env.busy {
        return;
      }
      if ops.disconnecting || (Le in ops.dials.connecting && !force) {
        return;
      }
      if !force && env.now < reset.next {
        return;
      }
      if !force && reset.failures > 0 && !env.takeAgain {
        return;
      }
      ops := ops.(disconnecting := true);
      if env.disconnectRaises.Some? {
        DisconnectFailed(ops.generation, env.disconnectRaises.value, env);
      }
    }

    method DisconnectSucceeded(from: nat, env: Env)
      modifies this
      ensures View() == old(View()).DisconnectSucceeds(from, env)
    {
      if from != ops.generation {
        return;
      }
      ops := ops.(disconnecting := false);
      if ops.pending {
        CompleteLeReset(env);
      }
    }

    method DisconnectFailed(from: nat, gone: bool, env: Env)
      modifies this
      ensures View() == old(View()).DisconnectFails(from, gone, env)
    {
      if from != ops.generation {
        return;
      }
      ops := ops.(disconnecting := false);
      if !ops.pending {
        return;
      }
      if gone {
        CompleteLeReset(env);
        return;
      }
      reset := reset.(failures := reset.failures + 1);
      reset := reset.(next := env.now + Min(POLL_SECONDS * Power(reset.failures), BACKOFF_CAP_SECONDS));
    }

    method CompleteLeReset(env: Env)
      modifies this
      ensures View() == old(View()).CompleteReset(env)
    {
      var downSeen := ops.pending && reset.downSeen;
      ops := ops.(pending := false);
      reset := reset.(downSeen := false, failures := 0, next := 0);
      if !downSeen {
        UpdateState(Le, Some(false), env);
      }
      ConnectLeNext(env);
    }

    method ConnectLeNext(env: Env)
      modifies `ops
      ensures View() == old(View()).LeNext(env)
    {
      if links.classic == Some(true) && enabled && links.le != Some(true) {
        ScheduleLeConnect(env);
      }
    }

    method ScheduleLeConnect(env: Env)
      modifies `ops
      ensures View() == old(View()).ScheduleLe(env)
    {
      if api == Some(false) || env.blocked || ops.phase.Some? || env.busy || ops.settle || ops.disconnecting
         || (spent && env.primed) {
        return;
      }
      ops := ops.(settle := true);
    }

    /** `recover_le_transport`; returns whether the reset is under way. */
    method RecoverLeTransport(allow: bool, since: Option<int>, env: Env) returns (underWay: bool)
      modifies this
      ensures View() == old(View()).Recover(allow, since, env)
      ensures underWay <==> old(View()).UnderWay(allow, since, env)
    {
      var wanted := reset.wanted;
      reset := reset.(wanted := None);
      if !running || api == Some(false) {
        return false;
      }
      if ops.phase.Some? {
        return false;
      }
      if links.le == Some(false) && !allow {
        return false;
      }
      if !ops.pending && !env.take {
        if since.Some? && reset.startedAt.Some? && reset.startedAt.value >= since.value {
          reset := reset.(wanted := wanted);
          return true;
        }
        reset := reset.(wanted := Some(allow || wanted == Some(true)));
        return false;
      }
      if !ops.pending {
        reset := reset.(downSeen := false, startedAt := Some(env.now));
      }
      spent := false;
      ops := ops.(pending := true, settle := false);
      if enabled {
        RequestLeDisconnect(false, env);
      }
      return true;
    }

    method RefreshStates(classicRead: Option<bool>, leRead: Option<bool>, api': Option<bool>, env: Env)
      modifies this
      ensures View() == old(View()).Refreshed(classicRead, leRead, api', env)
    {
      api := api';
      UpdateState(Classic, classicRead, env);
      UpdateState(Le, leRead, env);
    }

    /** `_tick` */
    method Tick(classicRead: Option<bool>, leRead: Option<bool>, api': Option<bool>, env: Env)
      modifies this
      ensures View() == old(View()).Ticked(classicRead, leRead, api', env)
    {
      if !running || env.blocked {
        return;
      }
      RefreshStates(classicRead, leRead, api', env);
      if ops.phase.Some? || env.busy || ops.disconnecting {
        return;
      }
      if reset.wanted.Some? {
        var _ := RecoverLeTransport(reset.wanted.value, None, env);
        if ops.disconnecting {
          return;
        }
      }
      Proceed(classicRead, leRead, env);
    }

    method Proceed(classicRead: Option<bool>, leRead: Option<bool>, env: Env)
      modifies this
      ensures View() == old(View()).Proceed(classicRead, leRead, env)
    {
      if ops.pending && enabled {
        if leRead == Some(false) {
          CompleteLeReset(env);
        } else if leRead == Some(true) {
          RequestLeDisconnect(false, env);
          return;
        } else {
          return;
        }
      }
      Advance(classicRead, leRead, env);
    }

    method Advance(classicRead: Option<bool>, leRead: Option<bool>, env: Env)
      modifies this
      ensures View() == old(View()).Advance(classicRead, leRead, env)
    {
      if classicRead != Some(true) {
        ops := ops.(settle := false);
      }
      if classicRead == Some(false) {
        RequestConnect(Classic, env);
      } else if classicRead == Some(true) && leRead == Some(false) && enabled {
        RestoreLePreference(env);
        if Classic !in ops.dials.connecting {
          ScheduleLeConnect(env);
        }
      } else if leRead == Some(true) {
        ops := ops.(settle := false);
      }
    }

    method ConnectLeAfterSettle(classicRead: Option<bool>, leRead: Option<bool>, api': Option<bool>, env: Env)
      modifies this
      ensures View() == old(View()).SettleFires(classicRead, leRead, api', env)
    {
      ops := ops.(settle := false);
      if !running || env.blocked || ops.phase.Some? || env.busy {
        return;
      }
      RefreshStates(classicRead, leRead, api', env);
      DialAfterSettle(classicRead, leRead, env);
    }

    method DialAfterSettle(classicRead: Option<bool>, leRead: Option<bool>, env: Env)
      modifies this
      ensures View() == old(View()).AfterSettle(classicRead, leRead, env)
    {
      if classicRead == Some(true) && leRead == Some(false) && enabled && api != Some(false) {
        RestoreLePreference(env);
        RequestConnect(Le, env);
      } else if classicRead == Some(false) {
        RequestConnect(Classic, env);
      }
    }

    /** `reset_profiles`; returns whether it was started. */
    method ResetProfiles(env: Env) returns (started: bool)
      modifies this
      ensures View() == old(View()).ResetProfiles(env)
      ensures started && env.disconnectRaises != Some(false) ==> ops.phase.Some?
      ensures started == old(View()).ResetAllowed(env)
    {
      if !running || env.blocked {
        return false;
      }
      if ops.phase.Some? || env.busy || ops.pending || ops.dials.connecting != {} || ops.disconnecting || ops.manual {
        return false;
      }
      if links.classic != Some(true) {
        return false;
      }
      ops := ops.(settle := false, phase := Some(Disconnecting));
      if env.disconnectRaises.Some? {
        ProfileResetDisconnectFailed(ops.generation, env.disconnectRaises.value);
      }
      return true;
    }

    method ProfileResetDisconnected(from: nat)
      modifies `reset, `ops
      ensures View() == old(View()).ProfileDisconnected(from)
    {
      if from != ops.generation || ops.phase != Some(Disconnecting) {
        return;
      }
      reset := reset.(wanted := None);
      ops := ops.(phase := Some(Settling));
    }

    method ProfileResetDisconnectFailed(from: nat, gone: bool)
      modifies `reset, `ops
      ensures View() == old(View()).ProfileDisconnectFails(from, gone)
    {
      if from != ops.generation || ops.phase != Some(Disconnecting) {
        return;
      }
      if gone {
        ProfileResetDisconnected(from);
        return;
      }
      ops := ops.(phase := None);
    }

    method ProfileResetReconnect(classicRead: Option<bool>, leRead: Option<bool>, api': Option<bool>, env: Env)
      modifies this
      ensures View() == old(View()).ProfileReconnects(classicRead, leRead, api', env)
    {
      if ops.phase != Some(Settling) {
        return;
      }
      ops := ops.(phase := None);
      if !running || env.blocked {
        return;
      }
      RefreshStates(classicRead, leRead, api', env);
      if classicRead == Some(true) {
        return;
      }
      ForgiveClassic();
      RequestConnect(Classic, env);
    }

    method ForgiveClassic()
      modifies `rest, `classic
      ensures View() == old(View()).Forgiven()
    {
      rest := rest.(resting := false, remoteClosed := false, lastFailed := false);
      classic := classic.(failures := 0, next := 0);
    }

    /** `reconnect_now`; returns whether a page was scheduled. */
    method ReconnectNow(env: Env) returns (started: bool)
      modifies this
      ensures View() == old(View()).ReconnectNow(env)
      ensures started == old(View()).ManualAllowed(env)
    {
      if !running || env.blocked || ops.phase.Some? || env.busy || links.classic == Some(true)
         || ops.dials.connecting != {} || ops.manual {
        return false;
      }
      ForgiveClassic();
      ops := ops.(manual := true);
      return true;
    }

    method ManualDial(env: Env)
      modifies this
      ensures View() == old(View()).ManualDial(env)
    {
      ops := ops.(manual := false);
      if !running || env.blocked || links.classic == Some(true) {
        return;
      }
      RequestConnect(Classic, env);
    }

    method OnBredrDisconnectedByPhone(now: int)
      modifies this
      ensures View() == old(View()).ClassicClosedByPhone(now)
    {
      if !running || links.le == Some(true) {
        return;
      }
      var sighted := rest.sightedAt.Some? && now - rest.sightedAt.value < PRESENCE_FRESH_SECONDS;
      if enabled && links.le == Some(false) && !View().Targeted() && !sighted {
        EnterBredrResting(now);
      } else {
        rest := rest.(remoteClosed := true);
      }
    }
  }
}
