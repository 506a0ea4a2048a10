/** One state subscription: its record, the deliveries prepared for it, and its client. */
module Subscription {
  import opened Ordered
  import opened Prelude

  /** Entity ids, numbered in their sort order. */
  type Id = nat
  type Watch = nat
  type Token = nat
  type Policy = nat

  datatype Graph = Graph(incarnation: nat, catalog: nat, revision: nat)

  /** A sanitized row carries its own id. */
  datatype Row = Row(id: Id, tags: seq<nat>)

  type Projection = map<Id, Row>

  /** What the service sees: the sanitized entities of a graph under a policy, the
      canonical encoding of a row, the length of an id, and that of an encoded delivery. */
  datatype World = World(
    view: (Graph, Policy) -> Projection, encode: Row -> seq<nat>, size: Id -> nat, wire: Delivery -> nat)

  ghost predicate Lawful(world: World) {
    && (forall a, b :: world.encode(a) == world.encode(b) ==> a == b)
    && (forall g, p, id :: id in world.view(g, p) ==> world.view(g, p)[id].id == id)
  }

  datatype Resync =
    | Authority | Unknown | LeaseExpired | Overflow | PolicyChanged | Incarnation
    | Catalog | Gap | ScopeChanged | Shutdown | Session

  datatype Rejection = Conflict | Limit | Capacity | Pending | Forbidden

  datatype Delivery = Delivery(
    watch: Watch, incarnation: nat, catalog: nat, scope: nat, token: Token,
    from: nat, through: nat, initial: bool, rows: Projection, removed: set<Id>)

  datatype Ack = Ack(scope: nat, token: Token, through: nat)

  datatype Prepared = Prepared(delivery: Delivery, projection: Projection)

  datatype Live = Live(
    ids: seq<Id>, graph: Graph, policy: Policy, scope: nat, acknowledged: nat,
    projection: Projection, prepared: Option<Prepared>, lastAck: Option<Ack>, leaseUntil: nat)

  datatype Status = Preparing | Serving(live: Live) | Closed | Stopped(reason: Resync)

  datatype Record = Record(revision: nat, status: Status)

  datatype Request =
    | Create(created: seq<Id>, lease: nat)
    | Replace(replaced: seq<Id>, expected: nat)
    | Poll
    | Resume(scope: nat, acknowledged: nat)
    | Acknowledge(ack: Ack)
    | Renew(renewed: nat)
    | Unsubscribe

  datatype Outcome =
    | Delivered(delivery: Delivery)
    | Idle(scope: nat, acknowledged: nat)
    | Acknowledged(ack: Ack)
    | Renewed(lease: nat)
    | Ended
    | Resynced(reason: Resync)
    | Refused(why: Rejection)

  // ---------------------------------------------------------------- membership

  const STRING_BYTES: nat := 24

  function SatAdd(a: nat, b: nat): nat {
    Min(a + b, U64_MAX)
  }

  /** The storage an id list owns. */
  function MembershipBytes(ids: seq<Id>, size: Id -> nat): nat {
    if ids == [] then 64
    else SatAdd(SatAdd(MembershipBytes(ids[..|ids| - 1], size), STRING_BYTES), size(ids[|ids| - 1]))
  }

  // ---------------------------------------------------------------- deliveries

  /** What a member list shows of a graph under a policy. */
  function Visible(world: World, graph: Graph, policy: Policy, ids: seq<Id>): Projection {
    map id | id in ids && id in world.view(graph, policy) :: world.view(graph, policy)[id]
  }

  /** The client already has this row, by its canonical form. */
  predicate Unchanged(world: World, held: Projection, seen: Projection, id: Id) {
    id in held && id in seen && world.encode(held[id]) == world.encode(seen[id])
  }

  function Deliver(world: World, watch: Watch, live: Live, graph: Graph, seen: Projection, initial: bool,
                   token: Token): Delivery {
    Delivery(
      watch, graph.incarnation, graph.catalog, live.scope, token,
      if initial then graph.revision else live.acknowledged,
      graph.revision, initial,
      map id | id in seen && (initial || !Unchanged(world, live.projection, seen, id)) :: seen[id],
      if initial then {} else set id | id in live.projection && id !in seen)
  }

  /** What a client does with a delivery it has acknowledged. */
  function Apply(held: Projection, delivery: Delivery): Projection {
    (if delivery.initial then map[] else held - delivery.removed) + delivery.rows
  }

  function Held(acked: seq<Delivery>): Projection {
    if acked == [] then map[] else Apply(Held(acked[..|acked| - 1]), acked[|acked| - 1])
  }

  /** A delivery turns what the client holds into what was captured. */
  lemma DeliverApplies(world: World, watch: Watch, live: Live, graph: Graph, seen: Projection, initial: bool,
                       token: Token, held: Projection)
    requires Lawful(world) && (initial || held == live.projection)
    ensures Apply(held, Deliver(world, watch, live, graph, seen, initial, token)) == seen
  {
    var d := Deliver(world, watch, live, graph, seen, initial, token);
    var next := Apply(held, d);
    assert next.Keys == seen.Keys;
    forall id | id in seen
      ensures next[id] == seen[id]
    {
      if id !in d.rows {
        assert world.encode(live.projection[id]) == world.encode(seen[id]);
      }
    }
  }

  // ---------------------------------------------------------------- preparing the next record

  datatype Limits = Limits(
    maxWatches: nat, maxWatchesPerSession: nat, maxBindings: nat, maxBindingsPerSession: nat,
    maxIds: nat, maxViewBytes: nat, maxDeliveryBytes: nat, maxRetainedBytes: nat, maxLease: nat)

  const MAX_PAYLOAD_BYTES: nat := 1_048_576

  /** The limits a service can be built with. */
  predicate ValidLimits(l: Limits) {
    && 0 < l.maxWatches <= 4096 && 0 < l.maxWatchesPerSession <= l.maxWatches
    && l.maxWatches <= l.maxBindings <= 16_384
    && l.maxWatchesPerSession <= l.maxBindingsPerSession <= l.maxBindings
    && 0 < l.maxIds <= 1000 && 0 < l.maxViewBytes <= MAX_PAYLOAD_BYTES && 0 < l.maxDeliveryBytes <= MAX_PAYLOAD_BYTES
    && l.maxRetainedBytes <= 512 * 1024 * 1024 && 0 < l.maxLease <= 3_600_000
  }

  /** What a captured view is charged: every row, its id and 512 bytes. */
  function ViewBytes(world: World, seen: Projection, ids: seq<Id>): nat {
    if ids == [] then 0
    else
      var last := ids[|ids| - 1];
      ViewBytes(world, seen, ids[..|ids| - 1])
      + if last in seen then |world.encode(seen[last])| + world.size(last) + 512 else 0
  }

  /** Whether this acknowledgement takes the outstanding delivery. */
  predicate Takes(live: Live, request: Request) {
    && request.Acknowledge? && request.ack.scope == live.scope && live.lastAck != Some(request.ack)
    && live.prepared.Some?
    && request.ack == Ack(live.prepared.value.delivery.scope, live.prepared.value.delivery.token,
                          live.prepared.value.delivery.through)
  }

  /** The member list an operation captures. */
  function Members(request: Request, record: Record, limits: Limits): Result<seq<Id>, Rejection> {
    match record.status
    case Preparing =>
      if request.Create? then Ok(Normalize(request.created)) else Err(Pending)
    case Serving(live) =>
      if !request.Replace? then Ok(live.ids)
      else if request.expected != live.scope then Err(Conflict)
      else if |request.replaced| > limits.maxIds then Err(Limit)
      else Ok(Normalize(request.replaced))
    case _ => Err(Forbidden)
  }

  function Begun(ids: seq<Id>, graph: Graph, policy: Policy, leaseUntil: nat): Live {
    Live(ids, graph, policy, 1, graph.revision, map[], None, None, leaseUntil)
  }

  function Rescoped(live: Live, ids: seq<Id>, graph: Graph): Live {
    live.(ids := ids, graph := graph, scope := live.scope + 1, acknowledged := graph.revision,
          projection := map[], prepared := None, lastAck := None)
  }

  function Offered(world: World, watch: Watch, live: Live, graph: Graph, seen: Projection, initial: bool,
                   token: Token): (Live, Outcome) {
    var delivery := Deliver(world, watch, live, graph, seen, initial, token);
    (live.(prepared := Some(Prepared(delivery, seen))), Delivered(delivery))
  }

  function Answer(world: World, watch: Watch, live: Live, request: Request, graph: Graph, seen: Projection,
                  token: Token): (Live, Outcome) {
    if request.Resume? && (request.scope != live.scope || request.acknowledged != live.acknowledged) then
      (live, Resynced(ScopeChanged))
    else if live.prepared.Some? then (live, Delivered(live.prepared.value.delivery))
    else if graph.revision == live.acknowledged && SameProjection(world, live.projection, seen) then
      (live, Idle(live.scope, live.acknowledged))
    else Offered(world, watch, live, graph, seen, false, token)
  }

  predicate SameProjection(world: World, left: Projection, right: Projection) {
    |left| == |right| && forall id :: id in left ==> id in right && world.encode(left[id]) == world.encode(right[id])
  }

  function Settle(live: Live, ack: Ack): (Live, Outcome) {
    if ack.scope != live.scope then (live, Refused(Conflict))
    else if live.lastAck == Some(ack) then (live, Acknowledged(ack))
    else if Takes(live, Acknowledge(ack)) then
      (live.(prepared := None, acknowledged := ack.through, projection := live.prepared.value.projection,
             lastAck := Some(ack)),
       Acknowledged(ack))
    else (live, Refused(Conflict))
  }

  /** The next record and the answer, for a capture of `graph` under `policy`; None
      when a counter is exhausted. */
  function Prepare(world: World, watch: Watch, request: Request, record: Record, ids: seq<Id>, graph: Graph,
                   policy: Policy, token: Token, now: nat, limits: Limits): Option<(Record, Outcome)>
    requires record.status.Preparing? ==> request.Create?
    requires record.status.Preparing? || record.status.Serving?
  {
    var seen := Visible(world, graph, policy, ids);
    if record.revision >= U64_MAX then None
    else if record.status.Preparing? then
      var (live, outcome) := Offered(world, watch, Begun(ids, graph, policy, now + request.lease), graph, seen, true,
                                     token);
      Some((Record(record.revision + 1, Serving(live)), outcome))
    else
      var live := record.status.live.(graph := graph);
      match request
      case Unsubscribe => Some((Record(record.revision + 1, Closed), Ended))
      case Replace(_, _) =>
        if live.scope >= U64_MAX then None
        else
          var (next, outcome) := Offered(world, watch, Rescoped(live, ids, graph), graph, seen, true, token);
          Some((Record(record.revision + 1, Serving(next)), outcome))
      case Acknowledge(ack) =>
        var (next, outcome) := Settle(live, ack);
        Some((Record(record.revision + 1, Serving(next)), outcome))
      case Renew(lease) =>
        if lease > limits.maxLease then Some((Record(record.revision + 1, Serving(live)), Refused(Limit)))
        else Some((Record(record.revision + 1, Serving(live.(leaseUntil := now + lease))), Renewed(lease)))
      case _ =>
        var (next, outcome) := Answer(world, watch, live, request, graph, seen, token);
        Some((Record(record.revision + 1, Serving(next)), outcome))
  }

  // ---------------------------------------------------------------- the client's side

  /** Everything one client was sent and the deliveries it acknowledged, in order. */
  datatype Log = Log(sent: map<Token, Delivery>, acked: seq<Delivery>)

  function Received(log: Log, outcome: Outcome): Log {
    if outcome.Delivered? then log.(sent := log.sent[outcome.delivery.token := outcome.delivery]) else log
  }

  /** The client applies the delivery it was sent under the acknowledged token. */
  function Applied(log: Log, token: Token): Log {
    if token in log.sent then log.(acked := log.acked + [log.sent[token]]) else log
  }

  function Logged(log: Log, record: Record, request: Request, outcome: Outcome): Log {
    if record.status.Serving? && Takes(record.status.live, request) then Applied(log, request.ack.token)
    else Received(log, outcome)
  }

  predicate Follows(d: Delivery, e: Delivery) {
    if e.initial then d.scope < e.scope else e.scope == d.scope && e.from == d.through <= e.through
  }

  /** A scope opens with an initial delivery and continues without a gap. */
  predicate Chained(acked: seq<Delivery>) {
    && (acked != [] ==> acked[0].initial)
    && forall i :: 0 <= i < |acked| - 1 ==> Follows(acked[i], acked[i + 1])
  }

  predicate DistinctTokens(acked: seq<Delivery>) {
    forall i, j :: 0 <= i < j < |acked| ==> acked[i].token != acked[j].token
  }

  /** The graph state the client has acknowledged. */
  function AckedGraph(live: Live): Graph {
    live.graph.(revision := live.acknowledged)
  }

  ghost predicate HistoryOk(log: Log) {
    && Chained(log.acked) && DistinctTokens(log.acked)
    && forall i :: 0 <= i < |log.acked| ==>
         log.acked[i].token in log.sent && log.sent[log.acked[i].token] == log.acked[i]
  }

  /** The client stands at the last acknowledgement of the current scope. */
  ghost predicate Caught(world: World, live: Live, acked: seq<Delivery>) {
    match live.lastAck
    case None => live.projection == map[] && (acked != [] ==> acked[|acked| - 1].scope < live.scope)
    case Some(ack) =>
      && acked != [] && ack.scope == live.scope && ack.through == live.acknowledged
      && (var last := acked[|acked| - 1]; Ack(last.scope, last.token, last.through) == ack)
      && live.projection == Visible(world, AckedGraph(live), live.policy, live.ids)
      && Held(acked) == live.projection
  }

  ghost predicate Outstanding(world: World, live: Live, log: Log) {
    match live.prepared
    case None => live.lastAck.Some?
    case Some(p) =>
      && p.delivery.token in log.sent && log.sent[p.delivery.token] == p.delivery
      && (forall i :: 0 <= i < |log.acked| ==> log.acked[i].token != p.delivery.token)
      && p.delivery.scope == live.scope
      && p.delivery.incarnation == live.graph.incarnation && p.delivery.catalog == live.graph.catalog
      && p.projection == Visible(world, live.graph.(revision := p.delivery.through), live.policy, live.ids)
      && (p.delivery.initial <==> live.lastAck.None?)
      && (!p.delivery.initial ==> p.delivery.from == live.acknowledged)
      && p.delivery.from <= p.delivery.through <= live.graph.revision
      && Apply(live.projection, p.delivery) == p.projection
  }

  ghost predicate LiveOk(world: World, live: Live, log: Log) {
    && Ascending(live.ids) && HistoryOk(log) && live.acknowledged <= live.graph.revision
    && Caught(world, live, log.acked) && Outstanding(world, live, log)
  }

  ghost predicate RecordOk(world: World, record: Record, log: Log) {
    match record.status
    case Preparing => log == Log(map[], [])
    case Serving(live) => LiveOk(world, live, log)
    case _ => HistoryOk(log)
  }

  // ---------------------------------------------------------------- every answer keeps the client in step

  /** A capture that an operation on this record may use. */
  predicate Usable(record: Record, graph: Graph, policy: Policy) {
    record.status.Serving? ==>
      var live := record.status.live;
      && graph.incarnation == live.graph.incarnation && graph.catalog == live.graph.catalog
      && live.graph.revision <= graph.revision && policy == live.policy
  }

  /** Capturing again at the same incarnation and catalog moves nothing the client knows. */
  lemma Moved(world: World, live: Live, log: Log, graph: Graph)
    requires LiveOk(world, live, log) && Usable(Record(0, Serving(live)), graph, live.policy)
    ensures LiveOk(world, live.(graph := graph), log)
  {
    hide HistoryOk, Visible, Apply, Held, Ascending;
    assert AckedGraph(live.(graph := graph)) == AckedGraph(live);
    if live.prepared.Some? {
      var through := live.prepared.value.delivery.through;
      assert live.(graph := graph).graph.(revision := through) == live.graph.(revision := through);
    }
  }

  lemma OfferKeeps(world: World, watch: Watch, live: Live, log: Log, graph: Graph, initial: bool, token: Token)
    requires Lawful(world) && Ascending(live.ids) && HistoryOk(log) && Caught(world, live, log.acked)
    requires live.graph == graph && live.acknowledged <= graph.revision
    requires initial <==> live.lastAck.None?
    requires token !in log.sent
    ensures var (next, outcome) := Offered(world, watch, live, graph, Visible(world, graph, live.policy, live.ids),
                                           initial, token);
      LiveOk(world, next, Received(log, outcome))
  {
    hide Visible, Ascending, Held;
    var seen := Visible(world, graph, live.policy, live.ids);
    var (next, outcome) := Offered(world, watch, live, graph, seen, initial, token);
    var after := Received(log, outcome);
    DeliverApplies(world, watch, live, graph, seen, initial, token, live.projection);
    SentKeeps(log, outcome.delivery);
    assert Caught(world, next, after.acked) by {
      hide Apply;
    }
    assert graph.(revision := graph.revision) == graph;
    assert Outstanding(world, next, after) by {
      hide Apply, Deliver, Chained;
      assert outcome.delivery == Deliver(world, watch, live, graph, seen, initial, token);
      DeliverFacts(world, watch, live, graph, seen, initial, token);
    }
  }

  lemma DeliverFacts(world: World, watch: Watch, live: Live, graph: Graph, seen: Projection, initial: bool,
                     token: Token)
    ensures var d := Deliver(world, watch, live, graph, seen, initial, token);
      && d.incarnation == graph.incarnation && d.catalog == graph.catalog && d.scope == live.scope && d.token == token
      && d.through == graph.revision && d.initial == initial
      && d.from == if initial then graph.revision else live.acknowledged
  {
  }

  lemma SentKeeps(log: Log, delivery: Delivery)
    requires HistoryOk(log) && delivery.token !in log.sent
    ensures HistoryOk(Received(log, Delivered(delivery)))
    ensures forall i :: 0 <= i < |log.acked| ==> log.acked[i].token != delivery.token
  {
    hide Chained, DistinctTokens;
  }

  /** Taking the outstanding delivery leaves the client holding its projection. */
  lemma TakeKeeps(world: World, live: Live, log: Log, ack: Ack)
    requires LiveOk(world, live, log) && Takes(live, Acknowledge(ack))
    ensures LiveOk(world, Settle(live, ack).0, Applied(log, ack.token))
  {
    hide Visible, Ascending, Apply;
    var next, after := Settle(live, ack).0, Applied(log, ack.token);
    var p := live.prepared.value;
    assert after.acked == log.acked + [p.delivery];
    assert after.acked[..|after.acked| - 1] == log.acked;
    assert AckedGraph(next) == live.graph.(revision := p.delivery.through);
    assert Held(after.acked) == p.projection by {
      if p.delivery.initial {
        InitialResets(Held(log.acked), live.projection, p.delivery);
      }
    }
    ExtendHistory(log, p.delivery, live);
    assert Caught(world, next, after.acked);
  }

  lemma InitialResets(a: Projection, b: Projection, delivery: Delivery)
    requires delivery.initial
    ensures Apply(a, delivery) == Apply(b, delivery)
  {
  }

  lemma ExtendHistory(log: Log, d: Delivery, live: Live)
    requires HistoryOk(log) && d.token in log.sent && log.sent[d.token] == d
    requires forall i :: 0 <= i < |log.acked| ==> log.acked[i].token != d.token
    requires log.acked == [] ==> d.initial
    requires log.acked != [] ==> Follows(log.acked[|log.acked| - 1], d)
    ensures HistoryOk(log.(acked := log.acked + [d]))
  {
    var acked := log.acked + [d];
    forall i | 0 <= i < |acked| - 1
      ensures Follows(acked[i], acked[i + 1])
    {
      if i < |log.acked| - 1 {
        assert Follows(log.acked[i], log.acked[i + 1]);
      }
    }
  }

  lemma SettleKeeps(world: World, live: Live, log: Log, ack: Ack)
    requires LiveOk(world, live, log)
    ensures LiveOk(world, Settle(live, ack).0,
                   if Takes(live, Acknowledge(ack)) then Applied(log, ack.token)
                   else Received(log, Settle(live, ack).1))
  {
    hide LiveOk;
    if Takes(live, Acknowledge(ack)) {
      TakeKeeps(world, live, log, ack);
    }
  }

  lemma ResentKeeps(world: World, live: Live, log: Log)
    requires LiveOk(world, live, log) && live.prepared.Some?
    ensures Received(log, Delivered(live.prepared.value.delivery)) == log
  {
    hide Visible, Ascending, Apply, HistoryOk, Caught;
    var d := live.prepared.value.delivery;
    assert log.sent[d.token := d] == log.sent;
  }

  lemma AnswerKeeps(world: World, watch: Watch, live: Live, log: Log, request: Request, graph: Graph, token: Token)
    requires Lawful(world) && LiveOk(world, live, log) && live.graph == graph && token !in log.sent
    ensures var (next, outcome) := Answer(world, watch, live, request, graph,
                                          Visible(world, graph, live.policy, live.ids), token);
      LiveOk(world, next, Received(log, outcome))
  {
    hide Visible, Offered, SameProjection, Ascending, HistoryOk, Apply, Held;
    if live.prepared.Some? {
      ResentKeeps(world, live, log);
    } else {
      OfferKeeps(world, watch, live, log, graph, false, token);
    }
  }

  /** Every record an operation can prepare keeps the client in step with the record. */
  lemma PrepareKeeps(world: World, watch: Watch, request: Request, record: Record, log: Log, graph: Graph,
                     policy: Policy, token: Token, now: nat, limits: Limits)
    requires Lawful(world) && RecordOk(world, record, log) && token !in log.sent
    requires Members(request, record, limits).Ok? && Usable(record, graph, policy)
    ensures var r := Prepare(world, watch, request, record, Members(request, record, limits).value, graph, policy,
                             token, now, limits);
      r.Some? ==> RecordOk(world, r.value.0, Logged(log, record, request, r.value.1))
  {
    hide Visible, LiveOk, Offered, Answer, Settle, Takes;
    var ids := Members(request, record, limits).value;
    if record.revision >= U64_MAX {
    } else if record.status.Preparing? {
      NormalizeSorts(request.created);
      FreshScope(world, Begun(ids, graph, policy, now + request.lease), log);
      OfferKeeps(world, watch, Begun(ids, graph, policy, now + request.lease), log, graph, true, token);
    } else {
      var live := record.status.live.(graph := graph);
      Moved(world, record.status.live, log, graph);
      TakesMoved(record.status.live, graph, request);
      match request
      case Unsubscribe => LiveHistory(world, live, log);
      case Replace(replaced, _) =>
        NormalizeSorts(replaced);
        ScopeMoves(world, live, log, ids, graph);
        OfferKeeps(world, watch, Rescoped(live, ids, graph), log, graph, true, token);
      case Acknowledge(ack) =>
        SettleKeeps(world, live, log, ack);
      case Renew(lease) =>
        LeaseMoves(world, live, log, now + lease);
      case _ =>
        AnswerKeeps(world, watch, live, log, request, graph, token);
    }
  }

  lemma TakesMoved(live: Live, graph: Graph, request: Request)
    ensures Takes(live.(graph := graph), request) == Takes(live, request)
    ensures !request.Acknowledge? ==> !Takes(live, request)
  {
  }

  lemma LiveHistory(world: World, live: Live, log: Log)
    requires LiveOk(world, live, log)
    ensures HistoryOk(log)
  {
  }

  lemma FreshScope(world: World, live: Live, log: Log)
    requires log == Log(map[], []) && live.lastAck.None? && live.projection == map[]
    ensures HistoryOk(log) && Caught(world, live, log.acked)
  {
  }

  lemma ScopeMoves(world: World, live: Live, log: Log, ids: seq<Id>, graph: Graph)
    requires LiveOk(world, live, log)
    ensures HistoryOk(log) && Caught(world, Rescoped(live, ids, graph), log.acked)
  {
    hide Visible, Held, HistoryOk, Apply, Outstanding, Ascending;
  }

  lemma LeaseMoves(world: World, live: Live, log: Log, until: nat)
    requires LiveOk(world, live, log)
    ensures LiveOk(world, live.(leaseUntil := until), log)
  {
    hide Visible, Held, HistoryOk, Apply, Ascending;
  }
}
