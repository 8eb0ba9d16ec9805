/**
  The dashboard's twin connector: a websocket client of the digital twin
  service that follows one root thing, subscribes to a `<child>/sensor`
  thing for every child the root lists, and keeps the latest state of each
  of those things for the dashboard.

  The connector is the class `TwinConnector`. The websocket, the pending
  connection attempt and the HTTP client are represented by whether they
  are present; the text frames written to the websocket are recorded as the
  requests they encode, and the state handed to the dashboard's state
  holder as the map it was given. Timers, tokens and the socket itself are
  not modelled: their callbacks (`Connected`, `Failed`, `Closed`, the
  delayed `Connect`) are methods the environment calls.
 */
module Twin {
  import opened Prelude
  import opened Json

  /** A feature of a thing: its JSON value. */
  datatype Feature = Feature(value: Value)

  type Features = map<string, Feature>

  /** A thing as the twin service reports it. */
  datatype Thing = Thing(name: string, reportedState: Features, syntheticState: Features)

  datatype RequestKind = Subscribe | Unsubscribe

  /** A request written to the websocket. */
  datatype ThingRequest = ThingRequest(kind: RequestKind, thing: string)

  /** A notification from the twin service: its `type` member and its
      `thing` member, the latter `None` when it is absent or does not map
      to a thing. */
  datatype Notification = Notification(kind: Option<string>, thing: Option<Thing>)

  // -----------------------------------------------------------------------
  // Child ids

  const SENSOR_SUFFIX: string := "/sensor"

  /** The id of the sensor thing of a child of the root. */
  function ChildId(child: string): string {
    child + SENSOR_SUFFIX
  }

  predicate IsChildId(id: string) {
    |id| >= |SENSOR_SUFFIX| && id[|id| - |SENSOR_SUFFIX|..] == SENSOR_SUFFIX
  }

  function ChildIds(children: set<string>): set<string> {
    set c | c in children :: ChildId(c)
  }

  /** Distinct children have distinct ids, and every one of them is a
      child id. */
  lemma ChildIdInjective(c: string, d: string)
    ensures ChildId(c) == ChildId(d) <==> c == d
    ensures IsChildId(ChildId(c))
  {
    if ChildId(c) == ChildId(d) {
      assert c == ChildId(c)[..|c|];
      assert d == ChildId(d)[..|d|];
    }
    assert ChildId(c)[|c|..] == SENSOR_SUFFIX;
  }

  lemma ChildIdsAreChildIds(children: set<string>)
    ensures forall id :: id in ChildIds(children) ==> IsChildId(id)
  {
    forall id | id in ChildIds(children) ensures IsChildId(id) {
      var c :| c in children && id == ChildId(c);
      ChildIdInjective(c, c);
    }
  }

  lemma ChildIdsAdd(seen: set<string>, c: string)
    ensures ChildIds(seen + {c}) == ChildIds(seen) + {ChildId(c)}
  {
  }

  // -----------------------------------------------------------------------
  // What a root update and a state update do

  /** `$children` of the root's reported state: the member names of its
      value when that value is an object, and no children otherwise (a
      missing feature, `null`, or any other value). */
  function ChildrenOf(root: Thing): (r: set<string>)
    ensures "$children" in root.reportedState && root.reportedState["$children"].value.JObject?
            ==> r == root.reportedState["$children"].value.fields.Keys
    ensures !("$children" in root.reportedState && root.reportedState["$children"].value.JObject?) ==> r == {}
  {
    if "$children" in root.reportedState && root.reportedState["$children"].value.JObject? then
      root.reportedState["$children"].value.fields.Keys
    else {}
  }

  /** The known things after a root update listing `children`: exactly one
      entry per child id, keeping what was known and starting empty for a
      new child. */
  function RootValues(values: map<string, Features>, children: set<string>): (r: map<string, Features>)
    ensures r.Keys == ChildIds(children)
    ensures forall id :: id in r && id in values ==> r[id] == values[id]
    ensures forall id :: id in r && id !in values ==> r[id] == map[]
  {
    map id | id in ChildIds(children) :: if id in values then values[id] else map[]
  }

  /** The ids a root update subscribes to and unsubscribes from. */
  function Added(values: map<string, Features>, children: set<string>): set<string> {
    ChildIds(children) - values.Keys
  }

  function Removed(values: map<string, Features>, children: set<string>): set<string> {
    values.Keys - ChildIds(children)
  }

  /** The state a thing update stores: the reported state overlaid with the
      synthetic state, which wins where both name the same feature. */
  function Overlay(thing: Thing): (r: Features)
    ensures r.Keys == thing.reportedState.Keys + thing.syntheticState.Keys
    ensures forall f :: f in thing.syntheticState ==> r[f] == thing.syntheticState[f]
    ensures forall f :: f in thing.reportedState && f !in thing.syntheticState ==> r[f] == thing.reportedState[f]
  {
    thing.reportedState + thing.syntheticState
  }

  /** The things the requests of `log` of the given kind name. */
  function Targets(log: seq<ThingRequest>, kind: RequestKind): set<string>
    decreases |log|
  {
    if log == [] then {}
    else
      var last := log[|log| - 1];
      Targets(log[..|log| - 1], kind) + (if last.kind == kind then {last.thing} else {})
  }

  lemma TargetsAppend(log: seq<ThingRequest>, r: ThingRequest, kind: RequestKind)
    ensures Targets(log + [r], kind) == Targets(log, kind) + (if r.kind == kind then {r.thing} else {})
  {
    assert (log + [r])[..|log|] == log;
  }

  /** No request is written twice. */
  predicate Distinct(log: seq<ThingRequest>) {
    forall i, j :: 0 <= i < j < |log| ==> log[i] != log[j]
  }

  /** The requests a root update listing `children` writes: none without a
      socket; with one, a subscription for each added id and an
      unsubscription for each removed one, none of them twice. */
  predicate RootRequests(log: seq<ThingRequest>, ws: bool, values: map<string, Features>, children: set<string>) {
    && Distinct(log)
    && (!ws ==> log == [])
    && (ws ==> Targets(log, Subscribe) == Added(values, children) && Targets(log, Unsubscribe) == Removed(values, children))
  }

  // -----------------------------------------------------------------------
  // The connector

  class TwinConnector {
    /** The configured id of the root thing. */
    const rootId: string
    /** The known child things and their latest state. */
    var values: map<string, Features>
    /** Whether a websocket is open. */
    var ws: bool
    /** Whether a connection attempt (or a delayed reconnect) is pending. */
    var connecting: bool
    var stopped: bool
    var httpClient: bool
    /** Every request written to a websocket, in order. */
    var sent: seq<ThingRequest>
    /** What the state holder was last given. */
    var published: map<string, Features>

    /** The state holder always has the current values, and only child ids
        are ever known. */
    predicate Valid()
      reads this
    {
      && published == values
      && forall id :: id in values ==> IsChildId(id)
    }

    constructor (rootId: string)
      ensures Valid() && this.rootId == rootId
      ensures values == map[] && !ws && !connecting && !stopped && !httpClient && sent == []
    {
      this.rootId := rootId;
      values := map[];
      ws := false;
      connecting := false;
      stopped := false;
      httpClient := false;
      sent := [];
      published := map[];
    }

    /** `isConnected`: true whenever no connection attempt is pending,
        whether or not a socket is open and even once stopped. */
    function IsConnected(): (r: bool)
      reads this
      ensures r <==> !connecting
    {
      !connecting
    }

    /** `start`: begin connecting, then create the HTTP client. */
    method Start()
      modifies this`connecting, this`httpClient
      ensures connecting == (if stopped then old(connecting) else true) && httpClient
    {
      Connect();
      httpClient := true;
    }

    /** `stop`: nothing reconnects afterwards, and the socket, the pending
        attempt and the client are dropped. */
    method Stop()
      modifies this`stopped, this`connecting, this`ws, this`httpClient
      ensures stopped && !connecting && !ws && !httpClient
      ensures IsConnected()
    {
      stopped := true;
      if connecting {
        connecting := false;
      }
      if ws {
        ws := false;
      }
      if httpClient {
        httpClient := false;
      }
    }

    /** `connect` (also what a delayed reconnect runs): start a connection
        attempt unless stopped. */
    method Connect()
      modifies this`connecting
      ensures connecting == (if stopped then old(connecting) else true)
    {
      if stopped {
        return;
      }
      connecting := true;
    }

    /** `connected`: the socket is open and the root is subscribed to. */
    method Connected()
      modifies this`ws, this`connecting, this`sent
      ensures ws && !connecting && IsConnected()
      ensures sent == old(sent) + [ThingRequest(Subscribe, rootId)]
    {
      ws := true;
      connecting := false;
      SubscribeThing(rootId);
    }

    /** `closed`: the remote end closed the socket. */
    method Closed()
      requires Valid()
      modifies this`ws, this`values, this`published, this`connecting
      ensures Valid()
      ensures !ws && values == map[]
      ensures connecting == (old(connecting) || !stopped)
    {
      Disconnected();
    }

    /** `failed`: the connection attempt failed. */
    method Failed()
      requires Valid()
      modifies this`ws, this`values, this`published, this`connecting
      ensures Valid()
      ensures !ws && values == map[]
      ensures connecting == !stopped
    {
      connecting := false;
      Disconnected();
    }

    /** `disconnected`: forget the socket and every child, hand the empty
        state to the holder, and try to reconnect. */
    method Disconnected()
      requires Valid()
      modifies this`ws, this`values, this`published, this`connecting
      ensures Valid()
      ensures !ws && values == map[] && published == map[]
      ensures connecting == (old(connecting) || !stopped)
    {
      ws := false;
      values := map[];
      SendState();
      Reconnect();
    }

    /** `reconnect`: schedule a delayed `connect` only when no attempt is
        pending and the connector is not stopped. */
    method Reconnect()
      modifies this`connecting
      ensures connecting == (old(connecting) || !stopped)
    {
      if !connecting && !stopped {
        connecting := true;
      }
    }

    /** `send`: written only when a socket is open. */
    method Send(request: ThingRequest)
      modifies this`sent
      ensures sent == old(sent) + (if ws then [request] else [])
    {
      if ws {
        sent := sent + [request];
      }
    }

    method SubscribeThing(thing: string)
      modifies this`sent
      ensures sent == old(sent) + (if ws then [ThingRequest(Subscribe, thing)] else [])
    {
      Send(ThingRequest(Subscribe, thing));
    }

    method UnsubscribeThing(thing: string)
      modifies this`sent
      ensures sent == old(sent) + (if ws then [ThingRequest(Unsubscribe, thing)] else [])
    {
      Send(ThingRequest(Unsubscribe, thing));
    }

    /** `sendState`: hand a copy of the current values to the holder. */
    method SendState()
      modifies this`published
      ensures published == values
    {
      published := values;
    }

    /** `onMessage`: only `change` and `initial` notifications that carry a
        thing are acted on. */
    method OnMessage(n: Notification) returns (ghost log: seq<ThingRequest>)
      requires Valid()
      modifies this`values, this`sent, this`published
      ensures Valid()
      ensures sent == old(sent) + log
      ensures !(n.kind in {Some("change"), Some("initial")} && n.thing.Some?) ==>
                values == old(values) && log == [] && published == old(published)
      ensures n.kind in {Some("change"), Some("initial")} && n.thing.Some? ==>
                && values == UpdatedValues(old(values), n.thing.value)
                && (n.thing.value.name != rootId ==> log == [])
                && (n.thing.value.name == rootId ==> RootRequests(log, ws, old(values), ChildrenOf(n.thing.value)))
    {
      log := [];
      if n.kind == Some("change") || n.kind == Some("initial") {
        if n.thing.Some? {
          log := ThingUpdate(n.thing.value);
        }
      }
    }

    /** The values after a thing update. */
    function UpdatedValues(values: map<string, Features>, thing: Thing): (r: map<string, Features>)
      reads this
      ensures thing.name == rootId ==> r == RootValues(values, ChildrenOf(thing))
      ensures thing.name != rootId && thing.name in values ==> r == values[thing.name := Overlay(thing)]
      ensures thing.name != rootId && thing.name !in values ==> r == values
    {
      if thing.name == rootId then RootValues(values, ChildrenOf(thing))
      else if thing.name in values then values[thing.name := Overlay(thing)]
      else values
    }

    /** `thingUpdate`: the root's update sets the children; any other
        thing's update is a state update. */
    method ThingUpdate(thing: Thing) returns (ghost log: seq<ThingRequest>)
      requires Valid()
      modifies this`values, this`sent, this`published
      ensures Valid()
      ensures values == UpdatedValues(old(values), thing)
      ensures sent == old(sent) + log
      ensures thing.name != rootId ==> log == []
      ensures thing.name == rootId ==> RootRequests(log, ws, old(values), ChildrenOf(thing))
    {
      if rootId == thing.name {
        log := SetRoot(ChildrenOf(thing));
      } else {
        SetState(thing);
        log := [];
      }
    }

    /** `setState`: only an already known thing is updated, to its overlaid
        state; the holder is told only then. */
    method SetState(thing: Thing)
      requires Valid()
      modifies this`values, this`published
      ensures Valid()
      ensures thing.name !in old(values) ==> values == old(values) && published == old(published)
      ensures thing.name in old(values) ==> values == old(values)[thing.name := Overlay(thing)]
    {
      if thing.name !in values {
        return;
      }
      values := values[thing.name := Overlay(thing)];
      SendState();
    }

    /** `setRoot`: afterwards exactly the children's ids are known; when a
        socket is open, every newly added id is subscribed to and every
        dropped id unsubscribed from, once each, and nothing else is
        written. */
    method SetRoot(children: set<string>) returns (ghost log: seq<ThingRequest>)
      requires Valid()
      modifies this`values, this`sent, this`published
      ensures Valid()
      ensures values == RootValues(old(values), children)
      ensures sent == old(sent) + log && Distinct(log)
      ensures !ws ==> log == []
      ensures ws ==> Targets(log, Subscribe) == Added(old(values), children)
      ensures ws ==> Targets(log, Unsubscribe) == Removed(old(values), children)
    {
      ghost var before, log0 := values, sent;
      var current;
      ghost var added, removed;
      current, added := AddChildren(children);
      ghost var mid := values;
      assert AddingState(mid, ws, before, ChildIds(children), current, added);
      removed := RemoveAll(current);
      RootUpdate(mid, ws, before, children, current, added, removed);
      log := added + removed;
      ConcatAssoc(log0, added, removed);
      ChildIdsAreChildIds(children);
      SendState();
    }

    /** The first loop of `setRoot`: add an empty entry for, and subscribe
        to, every child id not yet known. Returns the known ids that are no
        child's id. */
    method AddChildren(children: set<string>) returns (current: set<string>, ghost log: seq<ThingRequest>)
      modifies this`values, this`sent
      ensures Adding(old(values), ChildIds(children), current, log)
      ensures sent == old(sent) + log
    {
      ghost var before, log0 := values, sent;
      current := values.Keys;
      log := [];
      var todo := children;
      ghost var ids: set<string> := {};
      GrownNothing(before);
      while todo != {}
        invariant todo <= children && ids == ChildIds(children - todo)
        invariant Adding(before, ids, current, log)
        invariant sent == log0 + log
        decreases todo
      {
        var child :| child in todo;
        ChildIdsAdd(children - todo, child);
        assert (children - todo) + {child} == children - (todo - {child});
        ghost var delta;
        current, delta := AddChild(ChildId(child), before, ids, current, log);
        ConcatAssoc(log0, log, delta);
        log := log + delta;
        todo := todo - {child};
        ids := ids + {ChildId(child)};
      }
      assert children - todo == children;
    }

    /** What the first loop of `setRoot` keeps. */
    predicate Adding(before: map<string, Features>, ids: set<string>, current: set<string>, log: seq<ThingRequest>)
      reads this
    {
      AddingState(values, ws, before, ids, current, log)
    }

    /** One pass of the first loop of `setRoot`: a missing id gets an
        empty entry and a subscription; a known one is dropped from
        `current`. `delta` is what was written. */
    method AddChild(id: string, ghost before: map<string, Features>, ghost ids: set<string>, current: set<string>,
                    ghost log: seq<ThingRequest>) returns (current': set<string>, ghost delta: seq<ThingRequest>)
      requires Adding(before, ids, current, log)
      modifies this`values, this`sent
      ensures Adding(before, ids + {id}, current', log + delta)
      ensures sent == old(sent) + delta
    {
      AddStep(values, ws, before, ids, current, log, id);
      if id !in values {
        values := values[id := map[]];
        SubscribeThing(id);
        current' := current;
        delta := if ws then [ThingRequest(Subscribe, id)] else [];
      } else {
        current' := current - {id};
        delta := [];
      }
    }

    /** The second loop of `setRoot`: unsubscribe from and forget every id
        in `current`. */
    method RemoveAll(current: set<string>) returns (ghost log: seq<ThingRequest>)
      modifies this`values, this`sent
      ensures values == old(values) - current
      ensures sent == old(sent) + log
      ensures !ws ==> log == []
      ensures OnlyRequests(log, Unsubscribe, current) && Distinct(log)
      ensures ws ==> Targets(log, Unsubscribe) == current
    {
      ghost var before, log0 := values, sent;
      log := [];
      var todo := current;
      while todo != {}
        invariant todo <= current
        invariant values == before - (current - todo)
        invariant sent == log0 + log
        invariant !ws ==> log == []
        invariant OnlyRequests(log, Unsubscribe, current - todo) && Distinct(log)
        invariant ws ==> Targets(log, Unsubscribe) == current - todo
        decreases todo
      {
        var id :| id in todo;
        UnsubscribeThing(id);
        if ws {
          RequestAppend(log, ThingRequest(Unsubscribe, id), current - todo);
          log := log + [ThingRequest(Unsubscribe, id)];
        }
        values := values - {id};
        OnlyRequestsWider(log, Unsubscribe, if ws then (current - todo) + {id} else current - todo, current - (todo - {id}));
        todo := todo - {id};
      }
    }
  }

  /** The known values with an entry added for each id of `ids` that was
      missing, starting empty. */
  function Grown(before: map<string, Features>, ids: set<string>): (r: map<string, Features>)
    ensures r.Keys == before.Keys + ids
  {
    map id | id in before.Keys + ids :: if id in before then before[id] else map[]
  }

  lemma GrownNothing(before: map<string, Features>)
    ensures Grown(before, {}) == before
  {
  }

  /** Adding one id: an entry starting empty when it was missing, and
      nothing when it was known. */
  lemma GrownStep(before: map<string, Features>, ids: set<string>, id: string)
    ensures id !in Grown(before, ids) ==> Grown(before, ids + {id}) == Grown(before, ids)[id := map[]]
    ensures id in Grown(before, ids) ==> Grown(before, ids + {id}) == Grown(before, ids)
  {
  }

  /** What the first loop of `setRoot` keeps: starting from `before`,
      every id of `ids` has an entry (a new one empty), `current` holds the
      known ids not in `ids`, and when a socket is open `log` subscribes to
      exactly the ids that were added, once each. */
  predicate AddingState(values: map<string, Features>, ws: bool, before: map<string, Features>, ids: set<string>,
                        current: set<string>, log: seq<ThingRequest>)
  {
    && values == Grown(before, ids)
    && current == before.Keys - ids
    && (!ws ==> log == [])
    && OnlyRequests(log, Subscribe, ids - before.Keys) && Distinct(log)
    && (ws ==> Targets(log, Subscribe) == ids - before.Keys)
  }

  /** One more id keeps `AddingState`. */
  lemma AddStep(values: map<string, Features>, ws: bool, before: map<string, Features>, ids: set<string>,
                current: set<string>, log: seq<ThingRequest>, id: string)
    requires AddingState(values, ws, before, ids, current, log)
    ensures id !in values ==>
      AddingState(values[id := map[]], ws, before, ids + {id}, current,
                  log + if ws then [ThingRequest(Subscribe, id)] else [])
    ensures id in values ==> AddingState(values, ws, before, ids + {id}, current - {id}, log + [])
  {
    GrownStep(before, ids, id);
    var added := id !in values;
    var subscribed := ids - before.Keys;
    SubscribeStep(log, subscribed, id, added && ws);
    if added {
      assert (ids + {id}) - before.Keys == subscribed + {id};
      OnlyRequestsWider(log + (if ws then [ThingRequest(Subscribe, id)] else []), Subscribe,
                        subscribed + (if ws then {id} else {}), (ids + {id}) - before.Keys);
    } else {
      assert (ids + {id}) - before.Keys == subscribed;
      assert current - {id} == before.Keys - (ids + {id});
    }
  }

  /** The two loops of `setRoot` together: exactly the root's values are
      left, and the requests written are the subscriptions to the added ids
      followed by the unsubscriptions from the removed ones, none twice. */
  lemma RootUpdate(mid: map<string, Features>, ws: bool, before: map<string, Features>, children: set<string>,
                   current: set<string>, added: seq<ThingRequest>, removed: seq<ThingRequest>)
    requires AddingState(mid, ws, before, ChildIds(children), current, added)
    requires !ws ==> removed == []
    requires OnlyRequests(removed, Unsubscribe, current) && Distinct(removed)
    requires ws ==> Targets(removed, Unsubscribe) == current
    ensures mid - current == RootValues(before, children)
    ensures !ws ==> added + removed == []
    ensures ws ==> Targets(added + removed, Subscribe) == Added(before, children)
    ensures ws ==> Targets(added + removed, Unsubscribe) == Removed(before, children)
    ensures Distinct(added + removed)
  {
    RequestsConcat(added, removed, ChildIds(children) - before.Keys, current);
  }

  lemma ConcatAssoc(a: seq<ThingRequest>, b: seq<ThingRequest>, c: seq<ThingRequest>)
    ensures (a + b) + c == a + (b + c)
  {
  }

  /** Every request of `log` is of kind `kind` and names a thing in
      `things`. */
  predicate OnlyRequests(log: seq<ThingRequest>, kind: RequestKind, things: set<string>) {
    forall i :: 0 <= i < |log| ==> log[i].kind == kind && log[i].thing in things
  }

  lemma OnlyRequestsWider(log: seq<ThingRequest>, kind: RequestKind, smaller: set<string>, things: set<string>)
    requires smaller <= things && OnlyRequests(log, kind, smaller)
    ensures OnlyRequests(log, kind, things)
  {
  }

  /** Appending a request for a thing not yet named keeps the log free of
      repeats and adds that thing to the targets of its kind. */
  lemma RequestAppend(log: seq<ThingRequest>, r: ThingRequest, things: set<string>)
    requires OnlyRequests(log, r.kind, things) && Distinct(log) && r.thing !in things
    ensures OnlyRequests(log + [r], r.kind, things + {r.thing}) && Distinct(log + [r])
    ensures Targets(log + [r], r.kind) == Targets(log, r.kind) + {r.thing}
  {
    TargetsAppend(log, r, r.kind);
  }

  /** One optional request appended to a log of distinct requests for
      `things`, naming a thing not yet among them. */
  lemma SubscribeStep(log: seq<ThingRequest>, things: set<string>, id: string, add: bool)
    requires OnlyRequests(log, Subscribe, things) && Distinct(log)
    requires add ==> id !in things
    ensures var next := log + if add then [ThingRequest(Subscribe, id)] else [];
      && OnlyRequests(next, Subscribe, things + (if add then {id} else {})) && Distinct(next)
      && Targets(next, Subscribe) == Targets(log, Subscribe) + (if add then {id} else {})
  {
    if add {
      RequestAppend(log, ThingRequest(Subscribe, id), things);
    } else {
      assert log + [] == log;
    }
  }

  /** A log of one kind names nothing of the other kind. */
  lemma {:induction false} OtherTargetsEmpty(log: seq<ThingRequest>, kind: RequestKind, other: RequestKind, things: set<string>)
    requires OnlyRequests(log, kind, things) && other != kind
    ensures Targets(log, other) == {}
    decreases |log|
  {
    if log != [] {
      OtherTargetsEmpty(log[..|log| - 1], kind, other, things);
    }
  }

  /** Subscriptions followed by unsubscriptions: no request twice, and each
      kind's targets are those of its own part. */
  lemma RequestsConcat(a: seq<ThingRequest>, b: seq<ThingRequest>, s: set<string>, u: set<string>)
    requires OnlyRequests(a, Subscribe, s) && OnlyRequests(b, Unsubscribe, u)
    requires Distinct(a) && Distinct(b)
    ensures Distinct(a + b)
    ensures Targets(a + b, Subscribe) == Targets(a, Subscribe)
    ensures Targets(a + b, Unsubscribe) == Targets(b, Unsubscribe)
  {
    OtherTargetsEmpty(a, Subscribe, Unsubscribe, s);
    OtherTargetsEmpty(b, Unsubscribe, Subscribe, u);
    TargetsConcat(a, b, Subscribe);
    TargetsConcat(a, b, Unsubscribe);
  }

  lemma {:induction false} TargetsConcat(a: seq<ThingRequest>, b: seq<ThingRequest>, kind: RequestKind)
    ensures Targets(a + b, kind) == Targets(a, kind) + Targets(b, kind)
    decreases |b|
  {
    if b == [] {
      assert a + b == a;
    } else {
      var init := b[..|b| - 1];
      assert a + b == (a + init) + [b[|b| - 1]];
      TargetsConcat(a, init, kind);
      TargetsAppend(a + init, b[|b| - 1], kind);
      TargetsAppend(init, b[|b| - 1], kind);
      assert init + [b[|b| - 1]] == b;
    }
  }

  // -----------------------------------------------------------------------
  // Properties of root updates

  /** Repeating a root update changes nothing: the same children, no new
      subscriptions and no unsubscriptions. */
  lemma RootUpdateIdempotent(values: map<string, Features>, children: set<string>)
    ensures RootValues(RootValues(values, children), children) == RootValues(values, children)
    ensures Added(RootValues(values, children), children) == {}
    ensures Removed(RootValues(values, children), children) == {}
  {
  }

  /** A root update without an object `$children` drops every child and
      unsubscribes from all of them. */
  lemma NoChildrenRemovesAll(values: map<string, Features>, root: Thing)
    requires !("$children" in root.reportedState && root.reportedState["$children"].value.JObject?)
    ensures RootValues(values, ChildrenOf(root)) == map[]
    ensures Removed(values, ChildrenOf(root)) == values.Keys && Added(values, ChildrenOf(root)) == {}
  {
  }

  /** Every child id is either kept or added, never both; every known id is
      either kept or removed. */
  lemma AddedRemovedPartition(values: map<string, Features>, children: set<string>)
    ensures Added(values, children) !! Removed(values, children)
    ensures Added(values, children) + (ChildIds(children) * values.Keys) == ChildIds(children)
    ensures Removed(values, children) + (ChildIds(children) * values.Keys) == values.Keys
  {
  }

  /** A state update never adds or removes a known thing. */
  lemma StateUpdateKeepsKeys(values: map<string, Features>, thing: Thing)
    requires thing.name in values
    ensures values[thing.name := Overlay(thing)].Keys == values.Keys
  {
  }
}
