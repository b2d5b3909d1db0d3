/** The cache of BlueZ observations (bluez_reads.py) and the remote object it
    stands for.

    `Cache` is the state of `BluezReadCache` as a value; the class at the end
    is the code, proved to move between those values. `World` puts a cache
    beside BlueZ, the calls it has not answered and the messages on the bus
    connection, which arrives in order. */
module ReadCache {
  import opened Options

  /** A call to BlueZ: reading one property, reading the object tree, or any
      other. The code's key is the tuple of the whole call. */
  datatype Key =
    | Property(path: string, iface: string, name: string)
    | ManagedObjects(owner: string)
    | Other(call: string)

  type Value = int  // an opaque D-Bus value
  type Error = int  // an opaque exception

  const REFRESH_SECONDS := 4
  const EXPIRY_SECONDS := 10

  datatype Answer = Good(value: Value) | Bad(error: Error)
  datatype Entry = Entry(at: int, answer: Answer)
  /** What `read` hands its caller. */
  datatype Reading = Returned(value: Value) | Raised(error: Error) | NoReply

  /** A call in flight: `finish` remembers its token and generation. */
  datatype Request = Request(key: Key, token: nat, generation: nat)

  datatype Cache = Cache(generation: nat, entries: map<Key, Entry>, pending: map<Key, nat>, issued: nat) {
    predicate Tracks(key: Key) { key in entries || key in pending }

    predicate Due(key: Key, now: int) {
      key !in pending && (key !in entries || now - entries[key].at >= REFRESH_SECONDS)
    }

    /** A due read sends a request; a send that raises is an answer at once. */
    function Ask(key: Key, now: int, refused: Option<Error>): Cache {
      if !Due(key, now) then this
      else if refused.Some? then this.(entries := entries[key := Entry(now, Bad(refused.value))], issued := issued + 1)
      else this.(pending := pending[key := issued], issued := issued + 1)
    }

    function Look(key: Key, now: int): Reading {
      if key !in entries || now - entries[key].at > EXPIRY_SECONDS then NoReply
      else match entries[key].answer
           case Good(v) => Returned(v)
           case Bad(e) => Raised(e)
    }

    predicate Accepts(request: Request) {
      && request.generation == generation
      && request.key in pending && pending[request.key] == request.token
    }

    function Finish(request: Request, answer: Answer, now: int): Cache {
      if !Accepts(request) then this
      else this.(pending := pending - {request.key}, entries := entries[request.key := Entry(now, answer)])
    }

    function Changed(path: string, iface: string, changed: map<string, Value>, invalidated: set<string>, now: int)
      : Cache
    {
      Renewed(path, iface, changed, changed.Keys + invalidated, now)
    }

    /** Named properties leave the cache; one whose new value came along and
        that was being watched is kept with that value. */
    function Renewed(path: string, iface: string, changed: map<string, Value>, names: set<string>, now: int): Cache {
      this.(pending := map k | k in pending && !Named(k, path, iface, names) :: pending[k],
            entries := map k | k in entries.Keys + pending.Keys
                               && (if Named(k, path, iface, names) then k.name in changed else k in entries)
                               :: if Named(k, path, iface, names) then Entry(now, Good(changed[k.name]))
                                  else entries[k])
    }

    function Invalidate(): Cache { this.(generation := generation + 1, entries := map[], pending := map[]) }

    function InvalidateManagedObjects(): Cache {
      this.(entries := map k | k in entries && !k.ManagedObjects? :: entries[k],
            pending := map k | k in pending && !k.ManagedObjects? :: pending[k])
    }
  }

  predicate Named(key: Key, path: string, iface: string, names: set<string>) {
    key.Property? && key.path == path && key.iface == iface && key.name in names
  }

  /** One more name: its request is forgotten. */
  lemma RenewedPending(c: Cache, path: string, iface: string, changed: map<string, Value>, names: set<string>,
                       name: string, now: int)
    ensures c.Renewed(path, iface, changed, names + {name}, now).pending
         == c.Renewed(path, iface, changed, names, now).pending - {Property(path, iface, name)}
  {
  }

  /** One more name: its entry is renewed if it is watched and the value came
      along, and dropped otherwise. */
  lemma RenewedEntries(c: Cache, path: string, iface: string, changed: map<string, Value>, names: set<string>,
                       name: string, now: int)
    requires name !in names
    ensures var key, b := Property(path, iface, name), c.Renewed(path, iface, changed, names, now);
            var d := c.Renewed(path, iface, changed, names + {name}, now);
            if b.Tracks(key) && name in changed then
              d.entries == b.entries[key := Entry(now, Good(changed[name]))]
            else d.entries == b.entries - {key}
  {
  }

  // ---- BlueZ and the bus connection ---------------------------------------

  /** Messages to the daemon. BlueZ's own values for invalidated properties
      travel only in the model: the code sees their names. */
  datatype Message =
    | Reply(request: Request, answer: Answer)
    | Signal(path: string, iface: string, changed: map<string, Value>, invalidated: map<string, Value>)

  /** Where a cached value came from. */
  datatype Origin = FromReply(token: nat) | FromSignal

  datatype World = World(
    cache: Cache,
    now: int,
    remote: map<Key, Value>,    // BlueZ's properties
    calls: set<Request>,        // requests BlueZ has not answered
    channel: seq<Message>,      // sent, not yet delivered
    seen: map<Key, Value>,      // the properties as of the last delivered message
    barrier: map<Key, nat>,     // first token not older than a signal or invalidation of the key
    origin: map<Key, Origin>,   // of each entry
    failed: map<Key, nat>       // token of the last error accepted for the key
  )

  /** BlueZ's properties once it has made the changes that `signal` reports. */
  function Settled(values: map<Key, Value>, signal: Message): (after: map<Key, Value>)
    requires signal.Signal?
    ensures forall k :: k in after <==>
      k in values || Named(k, signal.path, signal.iface, signal.changed.Keys + signal.invalidated.Keys)
    ensures forall k | k in after ::
      if Named(k, signal.path, signal.iface, signal.changed.Keys) then after[k] == signal.changed[k.name]
      else if Named(k, signal.path, signal.iface, signal.invalidated.Keys) then after[k] == signal.invalidated[k.name]
      else k in values && after[k] == values[k]
  {
    var named := set name | name in signal.changed.Keys + signal.invalidated.Keys
                     :: Property(signal.path, signal.iface, name);
    map k | k in values.Keys + named ::
      if Named(k, signal.path, signal.iface, signal.changed.Keys) then signal.changed[k.name]
      else if Named(k, signal.path, signal.iface, signal.invalidated.Keys) then signal.invalidated[k.name]
      else values[k]
  }

  datatype Event =
    | Pass(seconds: nat)
    | Read(key: Key, refused: Option<Error>)
    | Answered(request: Request, error: Option<Error>)  // BlueZ answers a call, perhaps with an error
    | TimedOut(request: Request, cause: Error)          // or the bus library gives up on it
    | Change(signal: Message)                           // BlueZ changes properties and says so
    | Deliver
    | Reset
    | ResetManagedObjects

  ghost predicate Enabled(w: World, e: Event) {
    match e
    case Answered(request, error) =>
      request in w.calls && (error.None? ==> !request.key.Property? || request.key in w.remote)
    case TimedOut(request, _) => request in w.calls
    case Change(signal) => signal.Signal?
    case Deliver => w.channel != []
    case _ => true
  }

  /** A finished request, with what the model remembers of it. */
  function Finished(w: World, request: Request, answer: Answer): World {
    if !w.cache.Accepts(request) then w
    else w.(cache := w.cache.Finish(request, answer, w.now),
            origin := w.origin[request.key := FromReply(request.token)],
            failed := if answer.Bad? then w.failed[request.key := request.token] else w.failed)
  }

  function Watermark(w: World, keys: set<Key>): map<Key, nat> {
    w.barrier + map k | k in keys :: w.cache.issued
  }

  ghost function AfterRead(w: World, key: Key, refused: Option<Error>): World {
    var token := w.cache.issued;
    var asked := w.(cache := w.cache.Ask(key, w.now, refused));
    if !w.cache.Due(key, w.now) then w
    else if refused.Some? then asked.(origin := w.origin[key := FromReply(token)], failed := w.failed[key := token])
    else asked.(calls := w.calls + {Request(key, token, w.cache.generation)})
  }

  ghost function AfterAnswer(w: World, request: Request, error: Option<Error>): World
    requires Enabled(w, Answered(request, error))
  {
    var answer := if error.Some? then Bad(error.value)
                  else if request.key.Property? then Good(w.remote[request.key]) else Good(0);
    w.(calls := w.calls - {request}, channel := w.channel + [Reply(request, answer)])
  }

  ghost function AfterSignal(w: World, signal: Message): World
    requires signal.Signal?
  {
    var named := set k | k in w.cache.entries.Keys + w.cache.pending.Keys
                         && Named(k, signal.path, signal.iface, signal.changed.Keys + signal.invalidated.Keys);
    w.(cache := w.cache.Changed(signal.path, signal.iface, signal.changed, signal.invalidated.Keys, w.now),
       seen := Settled(w.seen, signal),
       barrier := Watermark(w, named),
       origin := w.origin + map k | k in named :: FromSignal)
  }

  ghost function AfterDelivery(w: World): World
    requires w.channel != []
  {
    var rest := w.(channel := w.channel[1..]);
    match w.channel[0]
    case Reply(request, answer) => Finished(rest, request, answer)
    case Signal(_, _, _, _) => AfterSignal(rest, w.channel[0])
  }

  ghost function AfterReset(w: World): World {
    w.(cache := w.cache.Invalidate(),
       barrier := Watermark(w, w.cache.entries.Keys + w.cache.pending.Keys))
  }

  ghost function AfterTreeReset(w: World): World {
    w.(cache := w.cache.InvalidateManagedObjects(),
       barrier := Watermark(w, set k | k in w.cache.entries.Keys + w.cache.pending.Keys && k.ManagedObjects?))
  }

  ghost function Step(w: World, e: Event): World
    requires Enabled(w, e)
  {
    match e
    case Pass(seconds) => w.(now := w.now + seconds)
    case Read(key, refused) => AfterRead(w, key, refused)
    case Answered(request, error) => AfterAnswer(w, request, error)
    case TimedOut(request, cause) => Finished(w.(calls := w.calls - {request}), request, Bad(cause))
    case Change(signal) => w.(remote := Settled(w.remote, signal), channel := w.channel + [signal])
    case Deliver => AfterDelivery(w)
    case Reset => AfterReset(w)
    case ResetManagedObjects => AfterTreeReset(w)
  }

  // ---- agreement ----------------------------------------------------------

  /** The undelivered messages lead from `seen` to `remote`, and each reply
      among them carries the value its property had when it was sent. */
  ghost predicate Faithful(seen: map<Key, Value>, channel: seq<Message>, remote: map<Key, Value>)
    decreases |channel|
  {
    if channel == [] then seen == remote
    else match channel[0]
         case Reply(request, answer) =>
           && (answer.Good? && request.key.Property?
               ==> request.key in seen && seen[request.key] == answer.value)
           && Faithful(seen, channel[1..], remote)
         case Signal(_, _, _, _) => Faithful(Settled(seen, channel[0]), channel[1..], remote)
  }

  ghost predicate Agrees(w: World) {
    forall k | k in w.cache.entries && w.cache.entries[k].answer.Good? && k.Property? ::
      k in w.seen && w.cache.entries[k].answer.value == w.seen[k]
  }

  /** Every pending request was sent after the last signal, invalidation and
      error for its key. */
  ghost predicate PendingFresh(w: World) {
    && (forall k | k in w.barrier :: w.barrier[k] <= w.cache.issued)
    && (forall k | k in w.failed :: w.failed[k] < w.cache.issued)
    && (forall k | k in w.cache.pending ::
          && w.cache.pending[k] < w.cache.issued
          && (k in w.barrier ==> w.barrier[k] <= w.cache.pending[k])
          && (k in w.failed ==> w.failed[k] < w.cache.pending[k]))
  }

  /** So was the request behind every entry that came by reply. */
  ghost predicate EntriesFresh(w: World) {
    forall k | k in w.cache.entries ::
      && w.cache.entries[k].at <= w.now
      && k in w.origin
      && (w.origin[k].FromReply? ==>
            && w.origin[k].token < w.cache.issued
            && (k in w.barrier ==> w.barrier[k] <= w.origin[k].token)
            && (k in w.failed && w.cache.entries[k].answer.Good? ==> w.failed[k] < w.origin[k].token))
  }

  ghost predicate CacheInv(w: World) { Agrees(w) && PendingFresh(w) && EntriesFresh(w) }

  ghost predicate Inv(w: World) {
    Faithful(w.seen, w.channel, w.remote) && CacheInv(w)
  }

  function Start(remote: map<Key, Value>): World {
    World(Cache(0, map[], map[], 0), 0, remote, {}, [], remote, map[], map[], map[])
  }

  lemma {:induction false} FaithfulMore(seen: map<Key, Value>, channel: seq<Message>, remote: map<Key, Value>,
                                        message: Message)
    requires Faithful(seen, channel, remote)
    requires message.Reply? && message.answer.Good? && message.request.key.Property?
             ==> message.request.key in remote && remote[message.request.key] == message.answer.value
    ensures Faithful(seen, channel + [message], if message.Signal? then Settled(remote, message) else remote)
    decreases |channel|
  {
    if channel == [] {
      assert [message][1..] == [];
    } else {
      assert (channel + [message])[1..] == channel[1..] + [message];
      match channel[0]
      case Reply(_, _) => FaithfulMore(seen, channel[1..], remote, message);
      case Signal(_, _, _, _) => FaithfulMore(Settled(seen, channel[0]), channel[1..], remote, message);
    }
  }

  lemma FinishedKeepsCacheInv(w: World, request: Request, answer: Answer)
    requires CacheInv(w)
    requires answer.Good? && request.key.Property?
             ==> request.key in w.seen && w.seen[request.key] == answer.value
    ensures CacheInv(Finished(w, request, answer))
  {
  }

  lemma SignalKeepsPendingFresh(w: World, signal: Message)
    requires PendingFresh(w) && signal.Signal?
    ensures PendingFresh(AfterSignal(w, signal))
  {
  }

  lemma SignalKeepsEntriesFresh(w: World, signal: Message)
    requires EntriesFresh(w) && PendingFresh(w) && signal.Signal?
    ensures EntriesFresh(AfterSignal(w, signal))
  {
  }

  lemma SignalKeepsAgreement(w: World, signal: Message)
    requires Agrees(w) && signal.Signal?
    ensures Agrees(AfterSignal(w, signal))
  {
  }

  lemma DeliveryKeepsCacheInv(w: World)
    requires Inv(w) && w.channel != []
    ensures CacheInv(AfterDelivery(w))
  {
    var rest := w.(channel := w.channel[1..]);
    match w.channel[0]
    case Reply(request, answer) => FinishedKeepsCacheInv(rest, request, answer);
    case Signal(_, _, _, _) =>
      SignalKeepsPendingFresh(rest, w.channel[0]);
      SignalKeepsEntriesFresh(rest, w.channel[0]);
      SignalKeepsAgreement(rest, w.channel[0]);
  }

  lemma ReadKeepsCacheInv(w: World, key: Key, refused: Option<Error>)
    requires CacheInv(w)
    ensures CacheInv(AfterRead(w, key, refused))
  {
  }

  lemma ResetKeepsCacheInv(w: World)
    requires CacheInv(w)
    ensures CacheInv(AfterReset(w))
  {
  }

  lemma TreeResetKeepsCacheInv(w: World)
    requires CacheInv(w)
    ensures CacheInv(AfterTreeReset(w))
  {
  }

  lemma StepKeepsCacheInv(w: World, e: Event)
    requires Inv(w) && Enabled(w, e)
    ensures CacheInv(Step(w, e))
  {
    match e
    case Pass(_) =>
    case Read(key, refused) => ReadKeepsCacheInv(w, key, refused);
    case Answered(_, _) =>
    case TimedOut(request, cause) => FinishedKeepsCacheInv(w.(calls := w.calls - {request}), request, Bad(cause));
    case Change(_) =>
    case Deliver => DeliveryKeepsCacheInv(w);
    case Reset => ResetKeepsCacheInv(w);
    case ResetManagedObjects => TreeResetKeepsCacheInv(w);
  }

  lemma StepKeepsFaithful(w: World, e: Event)
    requires Faithful(w.seen, w.channel, w.remote) && Enabled(w, e)
    ensures var w' := Step(w, e); Faithful(w'.seen, w'.channel, w'.remote)
  {
    match e
    case Answered(request, error) => FaithfulMore(w.seen, w.channel, w.remote, Step(w, e).channel[|w.channel|]);
    case Change(signal) => FaithfulMore(w.seen, w.channel, w.remote, signal);
    case _ =>
  }

  /** The worlds reached by a run; steps that are not possible do nothing. */
  ghost function Run(w: World, events: seq<Event>): World
    decreases |events|
  {
    if events == [] then w
    else Run(if Enabled(w, events[0]) then Step(w, events[0]) else w, events[1..])
  }

  lemma {:induction false} RunKeepsInv(w: World, events: seq<Event>)
    requires Inv(w)
    ensures Inv(Run(w, events))
    decreases |events|
  {
    if events != [] {
      if Enabled(w, events[0]) {
        StepKeepsFaithful(w, events[0]);
        StepKeepsCacheInv(w, events[0]);
      }
      RunKeepsInv(if Enabled(w, events[0]) then Step(w, events[0]) else w, events[1..]);
    }
  }

  /** Whatever happened before, a property that `read` returns is what BlueZ
      had as of the last delivered message, is at most ten seconds old, and
      was not asked for before the last signal, invalidation or error. */
  lemma {:induction false} ReadAgreesWithBlueZ(remote: map<Key, Value>, events: seq<Event>, key: Key,
                                               refused: Option<Error>)
    requires key.Property?
    ensures var w := Run(Start(remote), events);
            var cache := w.cache.Ask(key, w.now, refused);
            cache.Look(key, w.now).Returned? ==>
              && key in w.seen && cache.Look(key, w.now).value == w.seen[key]
              && w.now - EXPIRY_SECONDS <= cache.entries[key].at <= w.now
              && key in w.origin
              && (w.origin[key].FromReply? ==>
                    && (key in w.barrier ==> w.barrier[key] <= w.origin[key].token)
                    && (key in w.failed ==> w.failed[key] < w.origin[key].token))
  {
    RunKeepsInv(Start(remote), events);
  }

  /** With nothing left on the connection, that is BlueZ's current value. */
  lemma {:induction false} QuietReadIsCurrent(remote: map<Key, Value>, events: seq<Event>, key: Key)
    requires key.Property?
    ensures var w := Run(Start(remote), events);
            w.channel == [] && w.cache.Look(key, w.now).Returned?
            ==> key in w.remote && w.cache.Look(key, w.now).value == w.remote[key]
  {
    RunKeepsInv(Start(remote), events);
  }

  /** A reply to a request that a signal, an invalidation or a newer request
      replaced changes nothing. */
  lemma StaleReplyIgnored(w: World, request: Request, answer: Answer)
    requires Inv(w)
    requires request.token < w.cache.issued
    requires request.key in w.barrier && request.token < w.barrier[request.key]
    ensures Finished(w, request, answer) == w
  {
    assert request.key in w.cache.pending ==> w.barrier[request.key] <= w.cache.pending[request.key];
  }

  // ---- the code -----------------------------------------------------------

  class BluezReadCache {
    var generation: nat
    var entries: map<Key, Entry>
    var pending: map<Key, nat>
    var issued: nat  // names the next `object()` token

    function View(): Cache
      reads this
    {
      Cache(generation, entries, pending, issued)
    }

    constructor ()
      ensures View() == Cache(0, map[], map[], 0)
    {
      generation, entries, pending, issued := 0, map[], map[], 0;
    }

    method Invalidate()
      modifies this
      ensures View() == old(View()).Invalidate()
    {
      generation := generation + 1;
      entries := map[];
      pending := map[];
    }

    method InvalidateManagedObjects()
      modifies this
      ensures View() == old(View()).InvalidateManagedObjects()
    {
      var todo := entries.Keys + pending.Keys;
      while todo != {}
        invariant todo <= old(entries.Keys + pending.Keys)
        invariant generation == old(generation) && issued == old(issued)
        invariant entries == map k | k in old(entries) && (k in todo || !k.ManagedObjects?)
                                  :: old(entries)[k]
        invariant pending == map k | k in old(pending) && (k in todo || !k.ManagedObjects?)
                                  :: old(pending)[k]
        decreases todo
      {
        var key :| key in todo;
        if key.ManagedObjects? {
          entries := entries - {key};
          pending := pending - {key};
        }
        todo := todo - {key};
      }
    }

    method PropertiesChanged(path: string, iface: string, changed: map<string, Value>, invalidated: set<string>,
                             now: int)
      modifies this
      ensures View() == old(View()).Changed(path, iface, changed, invalidated, now)
    {
      var todo := changed.Keys + invalidated;
      ghost var before, done: set<string> := View(), {};
      while todo != {}
        invariant done + todo == changed.Keys + invalidated && done !! todo
        invariant View() == before.Renewed(path, iface, changed, done, now)
        decreases todo
      {
        var name :| name in todo;
        var key := Property(path, iface, name);
        RenewedPending(before, path, iface, changed, done, name, now);
        RenewedEntries(before, path, iface, changed, done, name, now);
        if key in entries || key in pending {
          Replace(key, if name in changed then Some(Entry(now, Good(changed[name]))) else None);
        }
        todo := todo - {name};
        done := done + {name};
      }
      assert done == changed.Keys + invalidated;
    }

    method Replace(key: Key, entry: Option<Entry>)
      modifies this
      ensures View() == old(View()).(pending := old(pending) - {key},
        entries := if entry.Some? then old(entries)[key := entry.value] else old(entries) - {key})
    {
      pending := pending - {key};
      entries := entries - {key};
      if entry.Some? {
        entries := entries[key := entry.value];
      }
    }

    /** `read`; `refused` is the exception if sending the request raises. */
    method Read(key: Key, now: int, refused: Option<Error>) returns (reading: Reading, sent: Option<Request>)
      modifies this
      ensures View() == old(View()).Ask(key, now, refused)
      ensures reading == View().Look(key, now)
      ensures sent == if old(View()).Due(key, now) && refused.None? then Some(Request(key, old(issued), generation))
                      else None
    {
      sent := None;
      if key !in pending && (key !in entries || now - entries[key].at >= REFRESH_SECONDS) {
        var request := Request(key, issued, generation);
        pending := pending[key := issued];
        issued := issued + 1;
        if refused.Some? {
          var _ := Finish(request, Bad(refused.value), now);
        } else {
          sent := Some(request);
        }
      }
      if key !in entries || now - entries[key].at > EXPIRY_SECONDS {
        return NoReply, sent;
      }
      match entries[key].answer {
        case Good(value) => return Returned(value), sent;
        case Bad(error) => return Raised(error), sent;
      }
    }

    /** `finish`; returns whether `on_ready` is called. */
    method Finish(request: Request, answer: Answer, now: int) returns (ready: bool)
      modifies this
      ensures View() == old(View()).Finish(request, answer, now)
      ensures ready <==> old(View()).Accepts(request) && answer.Good?
    {
      if request.generation != generation || request.key !in pending || pending[request.key] != request.token {
        return false;
      }
      pending := pending - {request.key};
      entries := entries[request.key := Entry(now, answer)];
      return answer.Good?;
    }
  }
}
