/** Runs of the subscription service: operations capture, prepare and publish
    concurrently while the graph commits, leases lapse and acknowledgements are
    lost, repeated or late. */
module SubscriptionRuns {
  import opened Ordered
  import opened Prelude
  import opened Subscription
  import opened Registry

  type Op = nat

  datatype Seen = Seen(graph: Graph, policy: Policy)

  /** An operation in flight: the record it read, and what it captured since. */
  datatype Draft = Draft(watch: Watch, request: Request, base: Record, owner: bool, seen: Option<Seen>)

  datatype System = System(
    table: Table, graph: Graph, past: set<nat>, now: nat, stopped: bool,
    drafts: map<Op, Draft>, logs: map<Watch, Log>)

  datatype Step =
    | Commit(graph: Graph)
    | Tick(now: nat)
    | Start(op: Op, creation: Creation, lease: nat, watch: Watch)
    | Open(op: Op, target: Watch, request: Request)
    | Reread(op: Op)
    | Capture(op: Op, policy: Policy)
    | Publish(op: Op, token: Token)
    | Fail(op: Op, reason: Resync)
    | Abandon(op: Op)
    | Maintain(closed: set<SessionId>, busy: set<Watch>)
    | Halt

  datatype Env = Env(world: World, limits: Limits)

  // ---------------------------------------------------------------- steps

  /** Random identities are new, and a graph keeps its revision rising within an incarnation. */
  ghost predicate Legal(sys: System, step: Step) {
    match step
    case Commit(graph) =>
      if graph.incarnation == sys.graph.incarnation then sys.graph.revision < graph.revision
      else graph.incarnation !in sys.past
    case Tick(now) => sys.now <= now
    case Start(op, _, _, watch) => op !in sys.drafts && watch !in sys.logs
    case Open(op, _, request) => op !in sys.drafts && !request.Create?
    case Publish(op, token) =>
      op in sys.drafts && sys.drafts[op].watch in sys.logs ==>
        token !in sys.logs[sys.drafts[op].watch].sent
    case _ => true
  }

  predicate Alive(record: Record) {
    record.status.Preparing? || record.status.Serving?
  }

  /** The operation is over; one that never published its new watch takes it back. */
  function Drop(sys: System, op: Op): System {
    if op !in sys.drafts then sys
    else
      sys.(drafts := sys.drafts - {op},
           table := if sys.drafts[op].owner then Remove(sys.table, sys.drafts[op].watch) else sys.table)
  }

  predicate Capturable(env: Env, sys: System, draft: Draft, policy: Policy) {
    && Alive(draft.base) && (draft.base.status.Preparing? ==> draft.owner)
    && Members(draft.request, draft.base, env.limits).Ok?
    && (var ids := Members(draft.request, draft.base, env.limits).value;
        ViewBytes(env.world, Visible(env.world, sys.graph, policy, ids), ids) <= env.limits.maxViewBytes)
    && (draft.base.status.Serving? ==>
          var live := draft.base.status.live;
          && sys.graph.incarnation == live.graph.incarnation && sys.graph.catalog == live.graph.catalog
          && policy == live.policy)
  }

  /** A delivery whose encoding is over the limit is refused. */
  predicate TooLong(env: Env, outcome: Outcome) {
    outcome.Delivered? && env.world.wire(outcome.delivery) > env.limits.maxDeliveryBytes
  }

  /** The next record and answer of an operation that has captured, if it has one. */
  function Proposal(env: Env, sys: System, draft: Draft, token: Token): Option<(Record, Outcome)> {
    if Alive(draft.base) && (draft.base.status.Preparing? ==> draft.request.Create?) && draft.seen.Some?
       && Members(draft.request, draft.base, env.limits).Ok? && draft.seen.value.graph == sys.graph
    then
      var proposal := Prepare(
        env.world, draft.watch, draft.request, draft.base, Members(draft.request, draft.base, env.limits).value,
        draft.seen.value.graph, draft.seen.value.policy, token, sys.now, env.limits);
      if proposal.Some? && TooLong(env, proposal.value.1) then None else proposal
    else None
  }

  function Published(env: Env, sys: System, op: Op, token: Token): System {
    if op !in sys.drafts || sys.stopped then sys
    else
      var draft := sys.drafts[op];
      match Proposal(env, sys, draft, token)
      case None => sys
      case Some((next, outcome)) =>
        var (table, publication) := Install(sys.table, draft.watch, draft.base.revision, next, sys.now, env.limits,
                                            env.world.size);
        match publication
        case Done =>
          sys.(table := table, drafts := sys.drafts - {op},
               logs := if draft.watch in sys.logs
                       then sys.logs[draft.watch := Logged(sys.logs[draft.watch], draft.base, draft.request, outcome)]
                       else sys.logs)
        case Retry => sys
        case _ => Drop(sys, op)
  }

  ghost function Next(env: Env, sys: System, step: Step): System
    requires Bound(sys.table)
  {
    match step
    case Commit(graph) => sys.(graph := graph, past := sys.past + {graph.incarnation})
    case Tick(now) => sys.(now := now)
    case Start(op, creation, lease, watch) =>
      if sys.stopped || |creation.ids| > env.limits.maxIds || lease > env.limits.maxLease then sys
      else
        var (table, admission) := Admit(sys.table, creation, watch, env.limits, env.world.size);
        (match admission
         case Inserted =>
           sys.(table := table, logs := sys.logs[watch := Log(map[], [])],
                drafts := sys.drafts[op := Draft(watch, Create(creation.ids, lease), Record(0, Preparing), true, None)])
         case Existing(found) =>
           sys.(drafts := sys.drafts[op := Draft(found, Create(creation.ids, lease), sys.table.entries[found].record,
                                                 false, None)])
         case _ => sys)
    case Open(op, target, request) =>
      if target !in sys.table.entries then sys
      else sys.(drafts := sys.drafts[op := Draft(target, request, sys.table.entries[target].record, false, None)])
    case Reread(op) =>
      if op in sys.drafts && sys.drafts[op].watch in sys.table.entries
      then sys.(drafts := sys.drafts[op := sys.drafts[op].(base := sys.table.entries[sys.drafts[op].watch].record,
                                                           seen := None)])
      else sys
    case Capture(op, policy) =>
      if op in sys.drafts && Capturable(env, sys, sys.drafts[op], policy)
      then sys.(drafts := sys.drafts[op := sys.drafts[op].(seen := Some(Seen(sys.graph, policy)))])
      else sys
    case Publish(op, token) => Published(env, sys, op, token)
    case Fail(op, reason) =>
      if op in sys.drafts && Alive(sys.drafts[op].base) then
        var (table, hit) := Terminate(sys.table, sys.drafts[op].watch, sys.drafts[op].base.revision, reason);
        if hit then Drop(sys.(table := table), op) else sys
      else sys
    case Abandon(op) => Drop(sys, op)
    case Maintain(closed, busy) => sys.(table := Maintained(sys.table, sys.now, closed, busy))
    case Halt => sys.(table := Table(map[], map[], 0), stopped := true)
  }

  // ---------------------------------------------------------------- the invariant

  /** A draft's record is the current one while the revision has not moved. */
  predicate DraftOk(draft: Draft, entries: map<Watch, Entry>) {
    draft.watch in entries ==>
      var record := entries[draft.watch].record;
      draft.base.revision <= record.revision
      && (draft.base.revision == record.revision && record.revision < U64_MAX ==> draft.base == record)
  }

  predicate SeenOk(env: Env, draft: Draft) {
    draft.seen.Some? ==>
      && Alive(draft.base) && (draft.base.status.Preparing? ==> draft.owner)
      && Members(draft.request, draft.base, env.limits).Ok?
      && (draft.base.status.Serving? ==>
            var live, seen := draft.base.status.live, draft.seen.value;
            && seen.graph.incarnation == live.graph.incarnation && seen.graph.catalog == live.graph.catalog
            && seen.policy == live.policy)
  }

  ghost predicate Drafts(env: Env, drafts: map<Op, Draft>, entries: map<Watch, Entry>, logs: map<Watch, Log>) {
    forall op :: op in drafts ==>
      && DraftOk(drafts[op], entries) && SeenOk(env, drafts[op])
      && drafts[op].watch in logs && (drafts[op].owner ==> drafts[op].request.Create?)
  }

  /** No record is ahead of the graph it was captured from. */
  predicate Behind(record: Record, graph: Graph, past: set<nat>) {
    && record.revision <= U64_MAX
    && (record.status.Serving? ==>
          && record.status.live.graph.incarnation in past
          && (record.status.live.graph.incarnation == graph.incarnation ==>
                record.status.live.graph.revision <= graph.revision))
  }

  ghost predicate Records(env: Env, entries: map<Watch, Entry>, logs: map<Watch, Log>, graph: Graph, past: set<nat>) {
    forall w :: w in entries ==>
        w in logs && RecordOk(env.world, entries[w].record, logs[w]) && Behind(entries[w].record, graph, past)
  }

  ghost predicate Logs(logs: map<Watch, Log>) {
    forall w :: w in logs ==> HistoryOk(logs[w])
  }

  ghost predicate Inv(env: Env, sys: System) {
    && TableOk(sys.table, env.limits, env.world.size)
    && Drafts(env, sys.drafts, sys.table.entries, sys.logs)
    && Records(env, sys.table.entries, sys.logs, sys.graph, sys.past)
    && Logs(sys.logs) && sys.graph.incarnation in sys.past
  }

  /** How one step may change a record that stays in the table. */
  predicate Moves(a: Record, b: Record) {
    && (a == b || a.revision < b.revision || a.revision == b.revision == U64_MAX)
    && (!Alive(a) ==> b == a)
    && !(a.status.Serving? && b.status.Preparing?)
  }

  predicate Advances(a: map<Watch, Entry>, b: map<Watch, Entry>, logs: map<Watch, Log>) {
    forall w :: w in b && w in logs ==> w in a && Moves(a[w].record, b[w].record)
  }

  lemma DraftsAdvance(env: Env, drafts: map<Op, Draft>, a: map<Watch, Entry>, b: map<Watch, Entry>,
                      logs: map<Watch, Log>)
    requires Drafts(env, drafts, a, logs) && Advances(a, b, logs)
    requires forall w :: w in b ==> b[w].record.revision <= U64_MAX
    ensures Drafts(env, drafts, b, logs)
  {
    hide SeenOk;
  }

  // ---------------------------------------------------------------- each step keeps it

  lemma RemoveSteps(env: Env, sys: System, watch: Watch)
    requires Inv(env, sys)
    ensures Inv(env, sys.(table := Remove(sys.table, watch)))
    ensures Advances(sys.table.entries, Remove(sys.table, watch).entries, sys.logs)
  {
    hide TableOk, RecordOk, HistoryOk, SeenOk;
    RemoveKeeps(sys.table, watch, env.limits, env.world.size);
  }

  lemma DropSteps(env: Env, sys: System, op: Op)
    requires Inv(env, sys)
    ensures Inv(env, Drop(sys, op)) && Advances(sys.table.entries, Drop(sys, op).table.entries, sys.logs)
  {
    hide TableOk, RecordOk, HistoryOk, DraftOk, SeenOk, Remove, Records;
    if op in sys.drafts {
      RemoveSteps(env, sys, sys.drafts[op].watch);
    }
  }

  lemma FailSteps(env: Env, sys: System, op: Op, reason: Resync)
    requires Inv(env, sys)
    requires op in sys.drafts && Alive(sys.drafts[op].base)
    ensures var (table, hit) := Terminate(sys.table, sys.drafts[op].watch, sys.drafts[op].base.revision, reason);
      Inv(env, sys.(table := table)) && Advances(sys.table.entries, table.entries, sys.logs)
  {
    hide TableOk, HistoryOk, SeenOk, LiveOk;
    var draft := sys.drafts[op];
    var (table, hit) := Terminate(sys.table, draft.watch, draft.base.revision, reason);
    TerminateKeeps(sys.table, draft.watch, draft.base.revision, reason, env.limits, env.world.size);
    if hit {
      assert DraftOk(draft, sys.table.entries);
    }
    DraftsAdvance(env, sys.drafts, sys.table.entries, table.entries, sys.logs);
  }

  lemma MaintainSteps(env: Env, sys: System, closed: set<SessionId>, busy: set<Watch>)
    requires Inv(env, sys)
    ensures var table := Maintained(sys.table, sys.now, closed, busy);
      Inv(env, sys.(table := table)) && Advances(sys.table.entries, table.entries, sys.logs)
  {
    hide TableOk, HistoryOk, SeenOk, LiveOk, Maintained, Drafts;
    var table := Maintained(sys.table, sys.now, closed, busy);
    MaintainKeeps(sys.table, sys.now, closed, busy, env.limits, env.world.size);
    MaintainedAt(sys.table, sys.now, closed, busy);
    forall w | w in table.entries
      ensures w in sys.table.entries && Moves(sys.table.entries[w].record, table.entries[w].record)
      ensures RecordOk(env.world, table.entries[w].record, sys.logs[w])
      ensures Behind(table.entries[w].record, sys.graph, sys.past)
    {
      AgedMoves(env, sys.table.entries[w], sys.logs[w], sys.now, sys.graph, sys.past);
    }
    DraftsAdvance(env, sys.drafts, sys.table.entries, table.entries, sys.logs);
  }

  lemma AgedMoves(env: Env, entry: Entry, log: Log, now: nat, graph: Graph, past: set<nat>)
    requires RecordOk(env.world, entry.record, log) && HistoryOk(log) && Behind(entry.record, graph, past)
    ensures Moves(entry.record, Aged(entry, now).record) && RecordOk(env.world, Aged(entry, now).record, log)
    ensures Behind(Aged(entry, now).record, graph, past)
  {
    hide HistoryOk, LiveOk;
  }

  lemma CommitSteps(env: Env, sys: System, graph: Graph)
    requires Inv(env, sys) && Legal(sys, Commit(graph))
    ensures Inv(env, sys.(graph := graph, past := sys.past + {graph.incarnation}))
  {
    hide TableOk, Drafts, RecordOk, HistoryOk;
  }

  lemma StartSteps(env: Env, sys: System, op: Op, creation: Creation, lease: nat, watch: Watch)
    requires Inv(env, sys) && Legal(sys, Start(op, creation, lease, watch))
    ensures var next := Next(env, sys, Start(op, creation, lease, watch));
      Inv(env, next) && Advances(sys.table.entries, next.table.entries, sys.logs)
  {
    hide TableOk, HistoryOk, LiveOk, Admit, NewEntry, SeenOk, Bound;
    InvBound(env, sys);
    var next := Next(env, sys, Start(op, creation, lease, watch));
    AdmitKeeps(sys.table, creation, watch, env.limits, env.world.size);
    AdmitShape(sys.table, creation, watch, env.limits, env.world.size);
    EmptyHistory();
    if op in next.drafts {
      SeenNothing(env, next.drafts[op]);
    }
  }

  lemma AdmitShape(table: Table, creation: Creation, watch: Watch, limits: Limits, size: Id -> nat)
    requires Bound(table)
    ensures var (next, admission) := Admit(table, creation, watch, limits, size);
      && (admission.Inserted? ==> next.entries == table.entries[watch := NewEntry(creation, limits, size)])
      && (!admission.Inserted? ==> next == table)
      && (admission.Existing? ==> admission.watch in table.entries)
    ensures NewEntry(creation, limits, size).record == Record(0, Preparing)
  {
    hide HasRoom, MembershipBytes, BaseReservation;
  }

  lemma InvBound(env: Env, sys: System)
    requires Inv(env, sys)
    ensures Bound(sys.table)
  {
  }

  lemma EmptyHistory()
    ensures HistoryOk(Log(map[], []))
  {
  }

  lemma SeenNothing(env: Env, draft: Draft)
    ensures draft.seen.None? ==> SeenOk(env, draft)
  {
  }

  /** What every proposed record has in common. */
  lemma ProposalShape(env: Env, sys: System, draft: Draft, token: Token)
    requires Proposal(env, sys, draft, token).Some?
    ensures var next := Proposal(env, sys, draft, token).value.0;
      && draft.base.revision < U64_MAX && next.revision == draft.base.revision + 1
      && (next.status.Serving? || next.status.Closed?)
      && (next.status.Serving? ==> next.status.live.graph == sys.graph)
  {
    hide Visible, Deliver, Normalize, SameProjection;
  }

  lemma ProposalKeeps(env: Env, sys: System, draft: Draft, log: Log, token: Token)
    requires Lawful(env.world) && SeenOk(env, draft) && RecordOk(env.world, draft.base, log)
    requires Behind(draft.base, sys.graph, sys.past)
    requires token !in log.sent && Proposal(env, sys, draft, token).Some?
    ensures var (next, outcome) := Proposal(env, sys, draft, token).value;
      var after := Logged(log, draft.base, draft.request, outcome);
      RecordOk(env.world, next, after) && HistoryOk(after)
  {
    hide RecordOk, Prepare, HistoryOk, Logged;
    var seen := draft.seen.value;
    PrepareKeeps(env.world, draft.watch, draft.request, draft.base, log, seen.graph, seen.policy, token, sys.now,
                 env.limits);
    ProposalShape(env, sys, draft, token);
    var (next, outcome) := Proposal(env, sys, draft, token).value;
    RecordHistory(env.world, next, Logged(log, draft.base, draft.request, outcome));
  }

  lemma RecordHistory(world: World, record: Record, log: Log)
    requires RecordOk(world, record, log) && !record.status.Preparing?
    ensures HistoryOk(log)
  {
    hide Ascending, Caught, Outstanding, HistoryOk;
  }

  lemma ActiveWhenAlive(env: Env, sys: System, watch: Watch)
    requires TableOk(sys.table, env.limits, env.world.size) && watch in sys.table.entries
    ensures sys.table.entries[watch].active <==> Alive(sys.table.entries[watch].record)
  {
    hide Required, Bound, WithinCounts, Sum;
    assert Covered(sys.table.entries[watch], env.world.size);
  }

  lemma PublishSteps(env: Env, sys: System, op: Op, token: Token)
    requires Lawful(env.world) && Inv(env, sys) && Legal(sys, Publish(op, token))
    ensures Inv(env, Published(env, sys, op, token))
    ensures Advances(sys.table.entries, Published(env, sys, op, token).table.entries, sys.logs)
  {
    hide TableOk, RecordOk, HistoryOk, Proposal, Logged, Required, Lapsed, SeenOk, Drop;
    if op in sys.drafts {
      DropSteps(env, sys, op);
      var draft := sys.drafts[op];
      if Proposal(env, sys, draft, token).Some? && draft.watch in sys.table.entries {
        var (next, outcome) := Proposal(env, sys, draft, token).value;
        var (table, publication) := Install(sys.table, draft.watch, draft.base.revision, next, sys.now, env.limits,
                                            env.world.size);
        ProposalShape(env, sys, draft, token);
        assert DraftOk(draft, sys.table.entries);
        if publication.Done? && !sys.stopped {
          var entry := sys.table.entries[draft.watch];
          assert entry.record == draft.base;
          ProposalAlive(env, sys, draft, token);
          ActiveWhenAlive(env, sys, draft.watch);
          InstallKeeps(sys.table, draft.watch, draft.base.revision, next, sys.now, env.limits, env.world.size);
          ProposalKeeps(env, sys, draft, sys.logs[draft.watch], token);
          DraftsAdvance(env, sys.drafts, sys.table.entries, table.entries, sys.logs);
        }
      }
    }
  }

  lemma ProposalAlive(env: Env, sys: System, draft: Draft, token: Token)
    requires Proposal(env, sys, draft, token).Some?
    ensures Alive(draft.base)
  {
  }

  /** Every step keeps the invariant and only moves records forward. */
  lemma StepKeeps(env: Env, sys: System, step: Step)
    requires Lawful(env.world) && Inv(env, sys) && Legal(sys, step)
    ensures Bound(sys.table) && Inv(env, Next(env, sys, step))
    ensures Advances(sys.table.entries, Next(env, sys, step).table.entries, sys.logs)
  {
    hide TableOk, RecordOk, HistoryOk, Published, Drop, Terminate, Maintained, Admit;
    InvBound(env, sys);
    match step
    case Commit(graph) => CommitSteps(env, sys, graph);
    case Start(op, creation, lease, watch) => StartSteps(env, sys, op, creation, lease, watch);
    case Publish(op, token) => PublishSteps(env, sys, op, token);
    case Fail(op, reason) =>
      if op in sys.drafts && Alive(sys.drafts[op].base) {
        FailSteps(env, sys, op, reason);
        var (table, hit) := Terminate(sys.table, sys.drafts[op].watch, sys.drafts[op].base.revision, reason);
        DropSteps(env, sys.(table := table), op);
        AdvancesTwice(sys.table.entries, table.entries, Drop(sys.(table := table), op).table.entries, sys.logs);
      }
    case Abandon(op) => DropSteps(env, sys, op);
    case Maintain(closed, busy) => MaintainSteps(env, sys, closed, busy);
    case Halt => EmptyTable(env);
    case Open(op, target, request) =>
      if target in sys.table.entries {
        DraftSteps(env, sys, op, Draft(target, request, sys.table.entries[target].record, false, None));
      }
    case Reread(op) =>
      if op in sys.drafts && sys.drafts[op].watch in sys.table.entries {
        DraftSteps(env, sys, op, sys.drafts[op].(base := sys.table.entries[sys.drafts[op].watch].record, seen := None));
      }
    case Capture(op, policy) =>
      if op in sys.drafts && Capturable(env, sys, sys.drafts[op], policy) {
        DraftSteps(env, sys, op, sys.drafts[op].(seen := Some(Seen(sys.graph, policy))));
      }
    case Tick(_) =>
  }

  lemma DraftSteps(env: Env, sys: System, op: Op, draft: Draft)
    requires Inv(env, sys) && DraftOk(draft, sys.table.entries) && SeenOk(env, draft)
    requires draft.watch in sys.logs && (draft.owner ==> draft.request.Create?)
    ensures Inv(env, sys.(drafts := sys.drafts[op := draft]))
  {
    hide TableOk, RecordOk, HistoryOk, DraftOk, SeenOk, Records;
  }

  lemma AdvancesTwice(a: map<Watch, Entry>, b: map<Watch, Entry>, c: map<Watch, Entry>, logs: map<Watch, Log>)
    requires Advances(a, b, logs) && Advances(b, c, logs)
    ensures Advances(a, c, logs)
  {
  }

  lemma EmptyTable(env: Env)
    ensures TableOk(Table(map[], map[], 0), env.limits, env.world.size)
  {
    hide MembershipBytes;
    assert ActiveWatches(map[]) == {};
    assert forall s :: OwnActive(map[], s) == {} && Own(map[], s) == {};
  }
}
