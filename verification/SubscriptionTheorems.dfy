/** What holds of every run of the subscription service. */
module SubscriptionTheorems {
  import opened Ordered
  import opened Prelude
  import opened Subscription
  import opened Registry
  import opened SubscriptionRuns

  function Initial(graph: Graph): System {
    System(Table(map[], map[], 0), graph, {graph.incarnation}, 0, false, map[], map[])
  }

  ghost predicate Reaches(env: Env, a: System, steps: seq<Step>, b: System)
    decreases |steps|
  {
    if steps == [] then a == b
    else Legal(a, steps[0]) && Bound(a.table) && Reaches(env, Next(env, a, steps[0]), steps[1..], b)
  }

  lemma {:induction false} RunKeeps(env: Env, a: System, steps: seq<Step>, b: System)
    requires Lawful(env.world) && Inv(env, a) && Reaches(env, a, steps, b)
    ensures Inv(env, b)
    decreases |steps|
  {
    hide Inv, Next, Legal;
    if steps != [] {
      StepKeeps(env, a, steps[0]);
      RunKeeps(env, Next(env, a, steps[0]), steps[1..], b);
    }
  }

  lemma InitialInv(env: Env, graph: Graph)
    ensures Inv(env, Initial(graph))
  {
    hide TableOk;
    EmptyTable(env);
  }

  /** What a client of the current scope holds: the acknowledged deliveries of that scope. */
  function ClientView(log: Log, scope: nat): Projection {
    if log.acked != [] && log.acked[|log.acked| - 1].scope == scope then Held(log.acked) else map[]
  }

  ghost predicate Watching(env: Env, sys: System, w: Watch) {
    w in sys.table.entries && w in sys.logs && sys.table.entries[w].record.status.Serving?
  }

  lemma LiveNow(env: Env, graph: Graph, steps: seq<Step>, sys: System, w: Watch)
    requires Lawful(env.world) && Reaches(env, Initial(graph), steps, sys) && Watching(env, sys, w)
    ensures LiveOk(env.world, sys.table.entries[w].record.status.live, sys.logs[w])
  {
    hide TableOk, LiveOk, HistoryOk, Reaches;
    InitialInv(env, graph);
    RunKeeps(env, Initial(graph), steps, sys);
  }

  /** On every run: a client that applied its acknowledged deliveries holds the view at
      the acknowledged revision; the outstanding delivery would take it to the view at
      that delivery's revision; and acknowledged deliveries chain without gap or repeat. */
  lemma Reconstruction(env: Env, graph: Graph, steps: seq<Step>, sys: System, w: Watch)
    requires Lawful(env.world) && Reaches(env, Initial(graph), steps, sys) && Watching(env, sys, w)
    ensures var live, log := sys.table.entries[w].record.status.live, sys.logs[w];
      && (live.lastAck.Some? ==>
            ClientView(log, live.scope) == Visible(env.world, AckedGraph(live), live.policy, live.ids))
      && (live.prepared.Some? ==>
            var d := live.prepared.value.delivery;
            && Apply(ClientView(log, live.scope), d)
               == Visible(env.world, live.graph.(revision := d.through), live.policy, live.ids)
            && (if live.lastAck.Some? then !d.initial && d.from == live.acknowledged else d.initial))
      && Chained(log.acked) && DistinctTokens(log.acked)
  {
    hide Visible, Apply, Reaches, Ascending, Chained, DistinctTokens;
    LiveNow(env, graph, steps, sys, w);
    var live, log := sys.table.entries[w].record.status.live, sys.logs[w];
    assert live.lastAck.Some? ==> ClientView(log, live.scope) == live.projection;
    assert live.lastAck.None? ==> ClientView(log, live.scope) == live.projection;
  }

  /** The client holds the view at `acknowledged` exactly when the scope has been
      acknowledged once, or there is nothing to hold. */
  lemma AcknowledgedCondition(env: Env, graph: Graph, steps: seq<Step>, sys: System, w: Watch)
    requires Lawful(env.world) && Reaches(env, Initial(graph), steps, sys) && Watching(env, sys, w)
    ensures var live, log := sys.table.entries[w].record.status.live, sys.logs[w];
      var view := Visible(env.world, AckedGraph(live), live.policy, live.ids);
      ClientView(log, live.scope) == view <==> live.lastAck.Some? || view == map[]
  {
    hide Visible, Apply, Reaches, Ascending, Chained, DistinctTokens;
    LiveNow(env, graph, steps, sys, w);
  }

  // A service with one entity that every policy shows, at its default byte limits.
  function OneEntity(): Env {
    Env(World((g: Graph, p: Policy) => map[0 := Row(0, [])], (row: Row) => [row.id] + row.tags, id => 1,
              (d: Delivery) => 512 + 512 * |d.rows| + 64 * |d.removed|),
        Limits(1, 1, 1, 1, 1, 65_536, 262_144, 134_217_728, 300_000))
  }

  lemma EncodesApart()
    ensures Lawful(OneEntity().world)
  {
    var encode := OneEntity().world.encode;
    forall a, b | encode(a) == encode(b)
      ensures a == b
    {
      assert encode(a)[0] == a.id && encode(a)[1..] == a.tags;
      assert encode(b)[0] == b.id && encode(b)[1..] == b.tags;
    }
  }

  function Only(): Creation {
    Creation(0, 0, [1, 0], [0], 0, false)
  }

  function Begin(): Step {
    Start(0, Only(), 1, 0)
  }

  lemma OnlyFits()
    ensures Normalize([0]) == [0]
    ensures NewEntry(Only(), OneEntity().limits, OneEntity().world.size).reservation == 1_314_913
    ensures HasRoom(Table(map[], map[], 0), Only(), OneEntity().limits, OneEntity().world.size)
  {
    var size := OneEntity().world.size;
    assert Only().ids[..0] == [];
    assert MembershipBytes([0], size) == 89 by {
      assert [0][..0] == [];
      assert MembershipBytes([], size) == 64;
    }
    assert ActiveWatches(map[]) == {} && OwnActive(map[], 0) == {} && Own(map[], 0) == {};
  }

  lemma AfterBegin(s0: System)
    requires s0 == Initial(Graph(0, 0, 0)) && Bound(s0.table)
    ensures var entry := NewEntry(Only(), OneEntity().limits, OneEntity().world.size);
      Next(OneEntity(), s0, Begin()) ==
        s0.(table := Insert(s0.table, 0, entry), logs := map[0 := Log(map[], [])],
            drafts := map[0 := Draft(0, Create([0], 1), Record(0, Preparing), true, None)])
  {
    hide HasRoom, NewEntry, Bound;
    OnlyFits();
  }

  lemma OnlyDelivery(live: Live)
    ensures var seen := Visible(OneEntity().world, Graph(0, 0, 0), 0, [0]);
      OneEntity().world.wire(Deliver(OneEntity().world, 0, live, Graph(0, 0, 0), seen, true, 0)) == 1024
  {
    var seen := Visible(OneEntity().world, Graph(0, 0, 0), 0, [0]);
    var d := Deliver(OneEntity().world, 0, live, Graph(0, 0, 0), seen, true, 0);
    assert d.rows.Keys == {0};
    assert |d.rows| == |d.rows.Keys|;
  }

  lemma OnlyView()
    ensures var seen := Visible(OneEntity().world, Graph(0, 0, 0), 0, [0]);
      ViewBytes(OneEntity().world, seen, [0]) == 514
  {
    var seen := Visible(OneEntity().world, Graph(0, 0, 0), 0, [0]);
    assert [0][..0] == [];
    assert ViewBytes(OneEntity().world, seen, []) == 0;
  }

  lemma AfterPublish(s2: System)
    requires s2.table == Insert(Table(map[], map[], 0), 0, NewEntry(Only(), OneEntity().limits, OneEntity().world.size))
    requires s2.graph == Graph(0, 0, 0) && !s2.stopped && s2.now == 0 && s2.logs == map[0 := Log(map[], [])]
    requires s2.drafts == map[0 := Draft(0, Create([0], 1), Record(0, Preparing), true, Some(Seen(Graph(0, 0, 0), 0)))]
    ensures var sys := Published(OneEntity(), s2, 0, 0);
      && Watching(OneEntity(), sys, 0) && sys.logs[0].acked == []
      && (var live := sys.table.entries[0].record.status.live; live.ids == [0])
  {
    hide Visible, MembershipBytes, Normalize, BaseReservation, Deliver;
    OnlyFits();
    var env := OneEntity();
    var entry := s2.table.entries[0];
    OnlyDelivery(Begun([0], Graph(0, 0, 0), 0, 1));
    var next := Proposal(env, s2, s2.drafts[0], 0).value.0;
    assert next.status.Serving? && next.status.live.ids == [0];
    assert Required(entry, next, env.world.size) == entry.reservation;
  }

  /** A new scope reports an acknowledged revision before its client holds anything. */
  lemma UnacknowledgedScope() returns (steps: seq<Step>, sys: System)
    ensures ValidLimits(OneEntity().limits)
    ensures Lawful(OneEntity().world) && Reaches(OneEntity(), Initial(Graph(0, 0, 0)), steps, sys)
    ensures Watching(OneEntity(), sys, 0)
    ensures var live := sys.table.entries[0].record.status.live;
      ClientView(sys.logs[0], live.scope) != Visible(OneEntity().world, AckedGraph(live), live.policy, live.ids)
  {
    hide Bound, Published, NewEntry, Normalize, Lawful, Inv, ViewBytes;
    var env := OneEntity();
    EncodesApart();
    OnlyFits();
    OnlyView();
    var s0 := Initial(Graph(0, 0, 0));
    InitialInv(env, s0.graph);
    StepKeeps(env, s0, Begin());
    AfterBegin(s0);
    var s1 := Next(env, s0, Begin());
    StepKeeps(env, s1, Capture(0, 0));
    var s2 := Next(env, s1, Capture(0, 0));
    assert s2.drafts == map[0 := Draft(0, Create([0], 1), Record(0, Preparing), true, Some(Seen(Graph(0, 0, 0), 0)))];
    StepKeeps(env, s2, Publish(0, 0));
    sys := Next(env, s2, Publish(0, 0));
    AfterPublish(s2);
    steps := [Begin(), Capture(0, 0), Publish(0, 0)];
    ThreeSteps(env, s0, s1, s2, sys, steps);
    assert 0 in Visible(env.world, AckedGraph(sys.table.entries[0].record.status.live),
                        sys.table.entries[0].record.status.live.policy, [0]);
  }

  lemma ThreeSteps(env: Env, s0: System, s1: System, s2: System, s3: System, steps: seq<Step>)
    requires |steps| == 3 && Bound(s0.table) && Bound(s1.table) && Bound(s2.table)
    requires Legal(s0, steps[0]) && Legal(s1, steps[1]) && Legal(s2, steps[2])
    requires s1 == Next(env, s0, steps[0]) && s2 == Next(env, s1, steps[1]) && s3 == Next(env, s2, steps[2])
    ensures Reaches(env, s0, steps, s3)
  {
    hide Bound, Legal, Next;
    var rest := steps[1..];
    assert Reaches(env, s3, rest[1..][1..], s3);
    assert Reaches(env, s2, rest[1..], s3);
    assert Reaches(env, s1, rest, s3);
  }

  /** An idle answer is given only to a client that holds the current view. */
  lemma IdleIsCurrent(env: Env, sys: System, op: Op, token: Token)
    requires Lawful(env.world) && Inv(env, sys) && op in sys.drafts && !sys.stopped
    requires var draft := sys.drafts[op];
      && Proposal(env, sys, draft, token).Some? && Proposal(env, sys, draft, token).value.1.Idle?
      && Watching(env, sys, draft.watch) && sys.table.entries[draft.watch].record == draft.base
    ensures var live := sys.table.entries[sys.drafts[op].watch].record.status.live;
      ClientView(sys.logs[sys.drafts[op].watch], live.scope) == Visible(env.world, sys.graph, live.policy, live.ids)
  {
    hide TableOk, Visible, Apply, Ascending, HistoryOk, Normalize, SameProjection;
    var draft := sys.drafts[op];
    var live := draft.base.status.live;
    assert LiveOk(env.world, live, sys.logs[draft.watch]);
    assert SeenOk(env, draft);
    var seen := Visible(env.world, sys.graph, live.policy, live.ids);
    assert live.prepared.None? && SameProjection(env.world, live.projection, seen);
    SameIsEqual(env.world, live.projection, seen);
  }

  lemma SameIsEqual(world: World, left: Projection, right: Projection)
    requires Lawful(world) && SameProjection(world, left, right)
    ensures left == right
  {
    assert left.Keys <= right.Keys;
    assert right.Keys == left.Keys + (right.Keys - left.Keys);
  }

  /** The table's invariant on every run. */
  lemma RegistryHolds(env: Env, graph: Graph, steps: seq<Step>, sys: System)
    requires Lawful(env.world) && Reaches(env, Initial(graph), steps, sys)
    ensures TableOk(sys.table, env.limits, env.world.size)
  {
    hide TableOk, Reaches, HistoryOk;
    InitialInv(env, graph);
    RunKeeps(env, Initial(graph), steps, sys);
  }

  // ---------------------------------------------------------------- finality

  lemma LogsGrow(env: Env, sys: System, step: Step)
    requires Bound(sys.table)
    ensures sys.logs.Keys <= Next(env, sys, step).logs.Keys
  {
    hide Install, Proposal, Logged, Admit, Terminate, Maintained, Remove, Bound;
  }

  /** A closed or stopped watch is never served again, and a removed one never returns. */
  lemma {:induction false} EndIsFinal(env: Env, a: System, steps: seq<Step>, b: System, w: Watch)
    requires Lawful(env.world) && Inv(env, a) && Reaches(env, a, steps, b) && w in a.logs
    ensures w !in a.table.entries ==> w !in b.table.entries
    ensures w in a.table.entries && !Alive(a.table.entries[w].record) ==>
      w !in b.table.entries || b.table.entries[w].record == a.table.entries[w].record
    decreases |steps|
  {
    hide Inv, Next, Legal, Bound;
    if steps != [] {
      StepKeeps(env, a, steps[0]);
      LogsGrow(env, a, steps[0]);
      EndIsFinal(env, Next(env, a, steps[0]), steps[1..], b, w);
    }
  }

  // ---------------------------------------------------------------- one delivery at a time

  /** Only a publication leaves a served record different and still served. */
  lemma OnlyPublishes(env: Env, sys: System, step: Step, w: Watch)
    requires Bound(sys.table) && Legal(sys, step) && !step.Publish?
    requires w in sys.table.entries && w in sys.logs && w in Next(env, sys, step).table.entries
    requires Next(env, sys, step).table.entries[w].record.status.Serving?
    ensures Next(env, sys, step).table.entries[w].record == sys.table.entries[w].record
  {
    hide HasRoom, NewEntry, Bound, Sum, Kept, Published;
    match step
    case Maintain(closed, busy) => MaintainedAt(sys.table, sys.now, closed, busy);
    case _ =>
  }

  datatype Change = Untouched | Taken | Replaced

  /** Neither membership nor what is acknowledged has moved. */
  predicate SameStanding(a: Live, b: Live) {
    b.projection == a.projection && b.lastAck == a.lastAck && b.acknowledged == a.acknowledged && b.ids == a.ids
  }

  /** What a publication did to the outstanding delivery. */
  function ChangeOf(a: Live, b: Live): Change {
    if b.scope != a.scope then Replaced else if b.prepared == a.prepared then Untouched else Taken
  }

  lemma ProposalChange(env: Env, sys: System, draft: Draft, token: Token)
    requires Proposal(env, sys, draft, token).Some? && draft.base.status.Serving?
    requires draft.base.status.live.prepared.Some?
    requires Proposal(env, sys, draft, token).value.0.status.Serving?
    ensures var a, b := draft.base.status.live, Proposal(env, sys, draft, token).value.0.status.live;
      var d := a.prepared.value.delivery;
      match ChangeOf(a, b)
      case Untouched => SameStanding(a, b)
      case Taken =>
        && b.prepared.None? && b.lastAck == Some(Ack(d.scope, d.token, d.through))
        && draft.request == Acknowledge(b.lastAck.value)
      case Replaced =>
        && b.scope == a.scope + 1 && draft.request.Replace?
        && b.prepared.Some? && b.prepared.value.delivery.initial
  {
    hide Visible, SameProjection, Normalize;
  }

  /** The outstanding delivery stays until it is acknowledged, replaced or terminated. */
  lemma OneOutstanding(env: Env, sys: System, step: Step, w: Watch)
    requires Lawful(env.world) && Inv(env, sys) && Legal(sys, step) && Bound(sys.table) && Watching(env, sys, w)
    requires Watching(env, Next(env, sys, step), w)
    requires sys.table.entries[w].record.status.live.prepared.Some?
    ensures var a := sys.table.entries[w].record.status.live;
      var b := Next(env, sys, step).table.entries[w].record.status.live;
      var d := a.prepared.value.delivery;
      match ChangeOf(a, b)
      case Untouched => SameStanding(a, b)
      case Taken => b.prepared.None? && b.lastAck == Some(Ack(d.scope, d.token, d.through))
      case Replaced => b.scope == a.scope + 1 && b.prepared.Some? && b.prepared.value.delivery.initial
  {
    hide Inv, Proposal, Bound, Logged, Required, Lapsed, Admit, Terminate, Maintained, HistoryOk;
    if step.Publish? {
      if step.op in sys.drafts && sys.drafts[step.op].watch == w
         && Proposal(env, sys, sys.drafts[step.op], step.token).Some? {
        BaseIsCurrent(env, sys, step.op, step.token);
        ProposalShape(env, sys, sys.drafts[step.op], step.token);
        if sys.drafts[step.op].base == sys.table.entries[w].record
           && Proposal(env, sys, sys.drafts[step.op], step.token).value.0.status.Serving? {
          ProposalChange(env, sys, sys.drafts[step.op], step.token);
        }
      }
    } else {
      OnlyPublishes(env, sys, step, w);
    }
  }

  lemma BaseIsCurrent(env: Env, sys: System, op: Op, token: Token)
    requires Inv(env, sys) && op in sys.drafts && Proposal(env, sys, sys.drafts[op], token).Some?
    requires sys.drafts[op].watch in sys.table.entries
    ensures sys.table.entries[sys.drafts[op].watch].record.revision == sys.drafts[op].base.revision
            ==> sys.table.entries[sys.drafts[op].watch].record == sys.drafts[op].base
  {
    hide TableOk, RecordOk, HistoryOk, Proposal, SeenOk;
    ProposalShape(env, sys, sys.drafts[op], token);
    assert DraftOk(sys.drafts[op], sys.table.entries);
  }
}
