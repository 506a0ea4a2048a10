/** The strict recovery validator, and why no reachable database fails it except
    for the one limit that a lost reservation can overrun. */
module Recovery {
  import opened Prelude
  import opened Series
  import opened Store
  import opened Sqlite
  import opened SqliteRuns
  import Runs = StoreRuns

  // ---------------------------------------------------------------- a point's history in the log

  /** Later changes of a point have later generations. */
  lemma {:induction false} Generations(log: seq<Runs.Entry>, k: nat, n: nat, cfg: Config)
    requires Changes(log, cfg) && k < n <= |log|
    ensures var p := log[k].change.point; var last := Runs.LastAfter(log, n, p);
      && last.Some?
      && last.value.incarnation == log[k].change.after.incarnation
      && last.value.generation >= log[k].change.after.generation
      && (forall j :: k < j < n && log[j].change.point == p ==> last.value.generation > log[k].change.after.generation)
  {
    hide Replay;
    assert ChangeOk(log, k, cfg);
    if k < n - 1 {
      Generations(log, k, n - 1, cfg);
      assert ChangeOk(log, n - 1, cfg);
    }
  }

  /** With no change in between, a point is where its last change left it. */
  lemma {:induction false} Unchanged(log: seq<Runs.Entry>, k: nat, n: nat, capacity: nat)
    requires k < n <= |log|
    requires forall j :: k < j < n ==> log[j].change.point != log[k].change.point
    ensures Runs.LastAfter(log, n, log[k].change.point) == Some(log[k].change.after)
    ensures Replay(log, n, log[k].change.point, capacity) == Replay(log, k + 1, log[k].change.point, capacity)
  {
    if k < n - 1 {
      Unchanged(log, k, n - 1, capacity);
    }
  }

  lemma {:induction false} LastChange(log: seq<Runs.Entry>, n: nat, id: string) returns (k: nat)
    requires n <= |log| && Runs.LastAfter(log, n, id).Some?
    ensures k < n && log[k].change.point == id && Runs.LastAfter(log, n, id) == Some(log[k].change.after)
    ensures forall j :: k < j < n ==> log[j].change.point != id
  {
    if log[n - 1].change.point == id {
      k := n - 1;
    } else {
      k := LastChange(log, n - 1, id);
    }
  }

  // ---------------------------------------------------------------- reachable tables pass

  /** Where the ledger starts in the log. */
  function Floor(log: seq<Runs.Entry>, cfg: Config): nat {
    Monus(|log|, cfg.limits.changes)
  }

  lemma LedgerRow(db: Db, log: seq<Runs.Entry>, cfg: Config)
    requires Durable(db, log, cfg) && ValidLimits(cfg.limits)
    ensures |db.changes| == |log| - Floor(log, cfg) && |log| == db.sequence
    ensures forall i :: 0 <= i < |db.changes| ==>
      db.changes[i] == log[Floor(log, cfg) + i].change && db.changes[i].sequence == Floor(log, cfg) + i + 1
    ensures |log| > 0 ==> |db.changes| > 0
  {
    hide Points, Changes, Receipts, Fits;
  }

  lemma LogRow(db: Db, log: seq<Runs.Entry>, k: nat, cfg: Config)
    requires Durable(db, log, cfg) && k < |log|
    ensures LoggedOk(log[k], k, db.receipts) && ChangeOk(log, k, cfg)
    ensures log[k].change.point in db.points && PointOk(log, db, log[k].change.point, cfg)
  {
    hide Runs.Ledger, Fits, LoggedOk, ChangeOk, PointOk;
  }

  lemma ChangeRowHolds(db: Db, log: seq<Runs.Entry>, i: nat, cfg: Config)
    requires Durable(db, log, cfg) && ValidLimits(cfg.limits) && i < |db.changes|
    ensures ChangeRowOk(db, i)
  {
    hide Durable, Replay, Runs.LastAfter, ToMap;
    LedgerRow(db, log, cfg);
    var k := Floor(log, cfg) + i;
    LogRow(db, log, k, cfg);
    DurableParts(db, log, cfg);
    Generations(log, k, |log|, cfg);
  }

  lemma DurableParts(db: Db, log: seq<Runs.Entry>, cfg: Config)
    requires Durable(db, log, cfg)
    ensures Changes(log, cfg) && Points(log, db, cfg) && Receipts(log, db.receipts, cfg) && Fits(db, cfg)
  {
    hide Changes, Points, Receipts, Fits;
  }

  lemma NewestHolds(db: Db, log: seq<Runs.Entry>, i: nat, cfg: Config)
    requires Durable(db, log, cfg) && ValidLimits(cfg.limits) && i < |db.changes|
    ensures NewestOk(db, i)
  {
    hide Durable, Replay, Runs.LastAfter, ToMap;
    LedgerRow(db, log, cfg);
    var from := Floor(log, cfg);
    LogRow(db, log, from + i, cfg);
    if Quiet(db.changes, i, |db.changes|) {
      forall j | from + i < j < |log| ensures log[j].change.point != log[from + i].change.point {
        assert db.changes[j - from].point != db.changes[i].point;
      }
      Unchanged(log, from + i, |log|, cfg.limits.items);
    }
  }

  lemma ChainHolds(db: Db, log: seq<Runs.Entry>, i: nat, j: nat, cfg: Config)
    requires Durable(db, log, cfg) && ValidLimits(cfg.limits) && i < j < |db.changes|
    ensures ChainOk(db.changes, i, j)
  {
    hide Durable, Replay, Runs.LastAfter, ToMap;
    LedgerRow(db, log, cfg);
    var from := Floor(log, cfg);
    if db.changes[i].point == db.changes[j].point && Quiet(db.changes, i, j) {
      forall m | from + i < m < from + j ensures log[m].change.point != log[from + i].change.point {
        assert db.changes[m - from].point != db.changes[i].point;
      }
      Unchanged(log, from + i, from + j, cfg.limits.items);
      LogRow(db, log, from + j, cfg);
    }
  }

  /** A Committed receipt's own log entry. */
  lemma CommittedEntry(db: Db, log: seq<Runs.Entry>, b: Binding, cfg: Config)
    requires Durable(db, log, cfg) && b in db.receipts && db.receipts[b].outcome.Committed?
    ensures var n := db.receipts[b].outcome.receipt.sequence;
      && 1 <= n <= |log| && log[n - 1].binding == Some(b)
      && LoggedOk(log[n - 1], n - 1, db.receipts)
      && log[n - 1].change.point == b.identity.point
  {
    hide Changes, Points, Fits, Runs.Ledger, ReceiptValid, ReceiptMatches;
  }

  /** A receipt's generation is the point's tip exactly when its change is the last. */
  lemma TipIsLast(db: Db, log: seq<Runs.Entry>, b: Binding, cfg: Config)
    requires Durable(db, log, cfg) && b in db.receipts && db.receipts[b].outcome.Committed?
    ensures var r := db.receipts[b].outcome.receipt; var id := b.identity.point;
      && id in db.points && r.after <= db.points[id].version.generation
      && (r.after == db.points[id].version.generation ==>
            && r.retained == |db.points[id].window.items|
            && forall j :: r.sequence <= j < |log| ==> log[j].change.point != id)
  {
    hide Durable, Replay, Runs.LastAfter, ToMap;
    CommittedEntry(db, log, b, cfg);
    var r, id := db.receipts[b].outcome.receipt, b.identity.point;
    var k := r.sequence - 1;
    LogRow(db, log, k, cfg);
    DurableParts(db, log, cfg);
    Generations(log, k, |log|, cfg);
    if r.after == db.points[id].version.generation {
      forall j | r.sequence <= j < |log| ensures log[j].change.point != id {
        assert k < j;
      }
      Unchanged(log, k, |log|, cfg.limits.items);
    }
  }

  lemma ReceiptRowHolds(db: Db, log: seq<Runs.Entry>, b: Binding, cfg: Config)
    requires Durable(db, log, cfg) && ValidLimits(cfg.limits) && b in db.receipts
    ensures ReceiptRowOk(db, b, cfg)
  {
    hide Durable, Replay, Runs.LastAfter, ToMap, ReceiptValid, ReceiptMatches, Points, Changes;
    DurableParts(db, log, cfg);
    if db.receipts[b].outcome.Committed? {
      CommittedEntry(db, log, b, cfg);
      TipIsLast(db, log, b, cfg);
      LedgerRow(db, log, cfg);
    }
  }

  lemma TipsDistinct(db: Db, log: seq<Runs.Entry>, b: Binding, c: Binding, cfg: Config)
    requires Durable(db, log, cfg) && b in db.receipts && c in db.receipts && b != c && TipProved(db, b).Some?
    ensures TipProved(db, b) != TipProved(db, c)
  {
    hide Durable, LoggedOk;
    if TipProved(db, b) == TipProved(db, c) {
      CommittedEntry(db, log, b, cfg);
      CommittedEntry(db, log, c, cfg);
      TipIsLast(db, log, b, cfg);
      TipIsLast(db, log, c, cfg);
    }
  }

  lemma ChangesDistinct(db: Db, log: seq<Runs.Entry>, b: Binding, c: Binding, cfg: Config)
    requires Durable(db, log, cfg) && b in db.receipts && c in db.receipts && b != c && ChangeProved(db, b).Some?
    ensures ChangeProved(db, b) != ChangeProved(db, c)
  {
    hide Durable, LoggedOk;
    CommittedEntry(db, log, b, cfg);
    if db.receipts[c].outcome.Committed? {
      CommittedEntry(db, log, c, cfg);
    }
  }

  lemma TipProofHolds(db: Db, log: seq<Runs.Entry>, id: string, cfg: Config)
    requires Durable(db, log, cfg) && id in db.points
    ensures TipHasProof(db, id)
  {
    hide Durable, Replay, Runs.LastAfter, ToMap, Changes, Receipts, Fits, ChangeOk;
    DurableParts(db, log, cfg);
    assert PointOk(log, db, id, cfg);
    var k := LastChange(log, |log|, id);
    LogRow(db, log, k, cfg);
    assert TipProved(db, log[k].binding.value) == Some(id);
  }

  lemma ChangeProofHolds(db: Db, log: seq<Runs.Entry>, i: nat, cfg: Config)
    requires Durable(db, log, cfg) && ValidLimits(cfg.limits) && i < |db.changes|
    ensures ChangeHasProof(db, i)
  {
    hide Durable, Replay, Runs.LastAfter, ToMap, ChangeOk, PointOk, ReceiptValid, ReceiptMatches;
    LedgerRow(db, log, cfg);
    LogRow(db, log, Floor(log, cfg) + i, cfg);
    assert ChangeProved(db, log[Floor(log, cfg) + i].binding.value) == Some(i);
  }

  /** Every durable state describing one log of publications passes the validator. */
  lemma DurableIsSound(db: Db, log: seq<Runs.Entry>, cfg: Config)
    requires Durable(db, log, cfg) && ValidLimits(cfg.limits)
    ensures Sound(db, cfg)
  {
    hide Durable, Replay, Runs.LastAfter, ChangeRowOk, NewestOk, ChainOk, ReceiptRowOk, TipProved, ChangeProved,
         PointRowOk, Fits;
    DurableParts(db, log, cfg);
    LedgerRow(db, log, cfg);
    forall i | 0 <= i < |db.changes| ensures ChangeRowOk(db, i) && NewestOk(db, i) {
      ChangeRowHolds(db, log, i, cfg);
      NewestHolds(db, log, i, cfg);
    }
    forall i, j | 0 <= i < j < |db.changes| ensures ChainOk(db.changes, i, j) {
      ChainHolds(db, log, i, j, cfg);
    }
    forall b | b in db.receipts ensures ReceiptRowOk(db, b, cfg) {
      ReceiptRowHolds(db, log, b, cfg);
    }
    DurableIsProved(db, log, cfg);
    PointRowsHold(db, log, cfg);
  }

  lemma PointRowsHold(db: Db, log: seq<Runs.Entry>, cfg: Config)
    requires Points(log, db, cfg)
    ensures forall id :: id in db.points ==> PointRowOk(id, db.points[id], db, cfg)
  {
    hide Replay, Runs.LastAfter, PointRowOk;
  }

  lemma DurableIsProved(db: Db, log: seq<Runs.Entry>, cfg: Config)
    requires Durable(db, log, cfg) && ValidLimits(cfg.limits)
    ensures Proofs(db)
  {
    hide Durable, ProofsDistinct, TipHasProof, ChangeHasProof;
    DurableIsDistinct(db, log, cfg);
    forall id | id in db.points ensures TipHasProof(db, id) {
      TipProofHolds(db, log, id, cfg);
    }
    forall i | 0 <= i < |db.changes| ensures ChangeHasProof(db, i) {
      ChangeProofHolds(db, log, i, cfg);
    }
  }

  lemma DurableIsDistinct(db: Db, log: seq<Runs.Entry>, cfg: Config)
    requires Durable(db, log, cfg)
    ensures ProofsDistinct(db)
  {
    hide Durable, TipProved, ChangeProved;
    forall b, c | b in db.receipts && c in db.receipts && b != c
      ensures TipProved(db, b).Some? ==> TipProved(db, b) != TipProved(db, c)
      ensures ChangeProved(db, b).Some? ==> ChangeProved(db, b) != ChangeProved(db, c)
    {
      if TipProved(db, b).Some? { TipsDistinct(db, log, b, c, cfg); }
      if ChangeProved(db, b).Some? { ChangesDistinct(db, log, b, c, cfg); }
    }
  }

  // ---------------------------------------------------------------- theorems over runs

  /** Exactly once under faults: over every interleaving of submissions, rejections,
      failed transactions, lost acknowledgements, crashes and reopens, the durable
      series are the replay of one log in which an operation stands exactly once if
      its retained receipt is Committed, and not at all otherwise. */
  lemma ExactlyOnceUnderFaults(steps: seq<Step>, cfg: Config, b: Binding)
    requires ValidConfig(cfg)
    ensures var c := Exec(steps, cfg);
      && Runs.AppliedAt(c.log, b) ==
           (if b in c.db.receipts && c.db.receipts[b].outcome.Committed?
            then {c.db.receipts[b].outcome.receipt.sequence - 1} else {})
      && (forall i :: 0 <= i < |c.log| && c.log[i].binding == Some(b) ==>
            && b in c.db.receipts && c.log[i].batch == c.db.receipts[b].request.samples
            && c.log[i].change.point == b.identity.point)
      && (forall id :: id in c.db.points ==> c.db.points[id].window == Replay(c.log, |c.log|, id, cfg.limits.items))
      && (forall i :: 0 <= i < |c.log| ==> c.log[i].change.point in c.db.points)
  {
    hide Exec, Replay, Runs.LastAfter, PointRowOk, Changes, Runs.Ledger, Fits, Projects, Charged, ReceiptValid,
         ReceiptMatches;
    RunKeeps(steps, cfg);
    var c := Exec(steps, cfg);
    DurableParts(c.db, c.log, cfg);
    forall i | 0 <= i < |c.log| ensures LoggedOk(c.log[i], i, c.db.receipts) {
    }
  }

  /** The batches of the first `n` operations on a point. */
  function Batches(log: seq<Runs.Entry>, n: nat, id: string): seq<seq<Item>>
    requires n <= |log|
  {
    if n == 0 then []
    else if log[n - 1].change.point == id then Batches(log, n - 1, id) + [log[n - 1].batch]
    else Batches(log, n - 1, id)
  }

  lemma {:induction false} ReplayIsRun(log: seq<Runs.Entry>, n: nat, id: string, capacity: nat)
    requires n <= |log|
    ensures Replay(log, n, id, capacity) == Run(Batches(log, n, id), capacity)
  {
    hide Apply;
    if n > 0 {
      ReplayIsRun(log, n - 1, id, capacity);
      var front := Batches(log, n - 1, id);
      assert (front + [log[n - 1].batch])[..|front|] == front;
    }
  }

  /** Under every fault, a durable point holds the newest `capacity` instants of everything
      its committed operations wrote, and its watermark is the greatest of them dropped. */
  lemma DurableRefinesWrites(steps: seq<Step>, cfg: Config, id: string)
    requires ValidConfig(cfg) && id in Exec(steps, cfg).db.points
    ensures var c := Exec(steps, cfg);
      && Refines(c.db.points[id].window, Written(Batches(c.log, |c.log|, id)), cfg.limits.items)
      && Stored(c.db.points[id].window)
  {
    hide Exec, Replay, Batches, Refines, Stored;
    var c := Exec(steps, cfg);
    ExactlyOnceUnderFaults(steps, cfg, Binding("", Identity("", 0, "")));
    ReplayIsRun(c.log, |c.log|, id, cfg.limits.items);
    BoundedRefinesUnbounded(Batches(c.log, |c.log|, id), cfg.limits.items);
    RefinesStored(c.db.points[id].window, Written(Batches(c.log, |c.log|, id)), cfg.limits.items);
  }

  /** The only check a reachable database can fail is the receipt byte limit. */
  lemma RecoveryCondition(steps: seq<Step>, cfg: Config)
    requires ValidConfig(cfg)
    ensures var db := Exec(steps, cfg).db;
      Recoverable(db, cfg) <==> Total(db.receipts, cfg.retained) <= cfg.limits.receiptBytes
  {
    hide Exec, Durable, Sound, Projects, Total, Charged;
    RunKeeps(steps, cfg);
    DurableIsSound(Exec(steps, cfg).db, Exec(steps, cfg).log, cfg);
  }

  /** Unless the open projection lost a reservation's acknowledgement, the database
      reopens, to exactly the live ledger, sequence and receipts, to every live
      series with a generation, and with no more receipt bytes than were charged. */
  lemma RecoveryComplete(steps: seq<Step>, cfg: Config)
    requires ValidConfig(cfg) && !Exec(steps, cfg).lost
    ensures var c := Exec(steps, cfg); var a := Rebuilt(c.db, cfg);
      && Recoverable(c.db, cfg)
      && (c.live.Some? && !c.live.value.sealed ==>
            var live := c.live.value.a;
            && a.changes == live.changes && a.sequence == live.sequence && a.receipts == live.receipts
            && a.receiptBytes <= live.receiptBytes
            && (forall id :: id in live.points && live.points[id].version.generation > 0 ==>
                  id in a.points && a.points[id] == live.points[id])
            && (forall id :: id in a.points ==> id in live.points && a.points[id] == live.points[id]))
  {
    hide Exec, Durable, Sound, Total, Drafts, Plans;
    RunKeeps(steps, cfg);
    RecoveryCondition(steps, cfg);
    var c := Exec(steps, cfg);
    if c.live.Some? && !c.live.value.sealed {
      assert c.db.receipts == c.live.value.a.receipts;
    }
  }

  /** Durable rows keep their request, and a settled outcome is final. */
  ghost predicate Monotone(c: Cluster, d: Cluster) {
    && c.log <= d.log
    && forall b :: b in c.db.receipts ==>
         && b in d.db.receipts && d.db.receipts[b].request == c.db.receipts[b].request
         && (!c.db.receipts[b].outcome.Pending? ==> d.db.receipts[b].outcome == c.db.receipts[b].outcome)
  }

  lemma StepMonotone(c: Cluster, step: Step, cfg: Config)
    ensures Monotone(c, Next(c, step, cfg))
  {
    hide Fits, Sound, Proofs, Total, Prepare, PointIn, Admissible, PublishedPlan, Settled, Reserved;
    if c.live.Some? {
      match step
      case Publish(b, reason, tx, cleanup, late) =>
        if b in c.live.value.plans {
          PublishMonotone(Consume(c, b), c.live.value.plans[b], reason, tx, cleanup, late, cfg);
        }
      case Reject(b, reason, cleanup) =>
        SettledMonotone(Consume(c, b), b, reason, cleanup, cfg);
      case Reserve(plan, extra, tx) =>
        var d := c.(live := Some(c.live.value.(drafts := c.live.value.drafts - {plan})));
        ReservedMonotone(d, plan.binding, Record(plan.request, Pending), Some(plan),
                         cfg.retained(plan.binding, plan.request) + extra, tx, cfg);
      case ReserveEmpty(b, request, extra, tx) =>
        ReservedMonotone(c, b, Record(request, Rejected(EmptyBatch)), None, cfg.retained(b, request) + extra, tx, cfg);
      case _ =>
    }
  }

  lemma ReservedMonotone(c: Cluster, b: Binding, record: Record, plan: Option<Plan>, charge: nat, tx: Tx, cfg: Config)
    requires c.live.Some?
    ensures Monotone(c, Reserved(c, b, record, plan, charge, tx, cfg))
  {
    hide Fits;
  }

  lemma PublishMonotone(c: Cluster, plan: Plan, reason: Reason, tx: Tx, cleanup: Tx, late: bool, cfg: Config)
    requires c.live.Some?
    ensures Monotone(c, PublishedPlan(c, plan, reason, tx, cleanup, late, cfg))
  {
    hide Fits, Pruned, Appended, Settled, Installed, Publishable;
    SettledMonotone(c, plan.binding, reason, cleanup, cfg);
    var db := PublishDb(c.db, plan, c.live.value.a.sequence + 1, cfg.limits);
    var e := Runs.Entry(PlanChange(plan, c.live.value.a.sequence + 1), Some(plan.binding), plan.request.samples);
    InstalledTables(c.(db := db, log := c.log + [e]), plan, late, cfg);
  }

  lemma SettledMonotone(c: Cluster, b: Binding, reason: Reason, tx: Tx, cfg: Config)
    requires c.live.Some?
    ensures Monotone(c, Settled(c, b, reason, tx, cfg))
  {
    hide Fits;
  }

  lemma InstalledTables(c: Cluster, plan: Plan, late: bool, cfg: Config)
    requires c.live.Some?
    ensures Installed(c, plan, late, cfg).db == c.db && Installed(c, plan, late, cfg).log == c.log
  {
    hide Appended;
  }

  lemma {:induction false} OutcomeIsFinal(steps: seq<Step>, i: nat, cfg: Config)
    requires i <= |steps|
    ensures Monotone(Exec(steps[..i], cfg), Exec(steps, cfg))
    decreases |steps|
  {
    hide Next;
    if i == |steps| {
      assert steps[..i] == steps;
    } else {
      var front := steps[..|steps| - 1];
      assert front[..i] == steps[..i];
      OutcomeIsFinal(front, i, cfg);
      StepMonotone(Exec(front, cfg), steps[|steps| - 1], cfg);
    }
  }

  // ---------------------------------------------------------------- a reservation that was never charged

  /** Every row counted; 64 bytes for each point, sample and change, 1,000 for each receipt. */
  function Measured(db: Db): Counts {
    var samples := |set id, i | id in db.points && 0 <= i < |db.points[id].window.items| :: (id, i)|;
    Counts(|db.points|, samples, |db.changes|, |db.receipts|,
           64 * (|db.points| + samples + |db.changes|), 1_000 * |db.receipts|)
  }

  /** Room for two receipts of 5,906 bytes by count, and for one by bytes: a request of
      200 source bytes and 200 canonical ones, from a principal of five. */
  function TightConfig(): Config {
    Config(Limits(1, 1, 2, 10_000, 1), Native(1, 2, 65_536, 65_536, 1_000_000), id => 0,
           (b: Binding, r: Request) => 200 + 8 * 200 + 2 * |b.principal| + 4_096, Measured)
  }

  function EmptySubmission(operation: string): Request {
    Request(Identity("p", 0, operation), 0, [])
  }

  function Submitter(operation: string): Binding {
    Binding("alice", Identity("p", 0, operation))
  }

  /** The byte limit can really be overrun: a reservation commits but its
      acknowledgement is lost, a second one is charged alone, and the two no longer
      reopen under the limits they were accepted with. Those limits pass every
      configuration check, and the tables never outgrow them. */
  lemma LostReservationOverruns()
    ensures ValidConfig(TightConfig()) && ValidNative(TightConfig().native)
    ensures var steps := [Reopen,
                          ReserveEmpty(Submitter("a"), EmptySubmission("a"), 0, LostAck),
                          ReserveEmpty(Submitter("b"), EmptySubmission("b"), 0, Acked)];
      var c := Exec(steps, TightConfig());
      && c.live.Some? && !c.live.value.sealed && |c.db.receipts| == 2 && Fits(c.db, TightConfig())
      && !Recoverable(c.db, TightConfig())
  {
    hide Durable, Sound, Total;
    var cfg := TightConfig();
    var open := Reopen;
    var first := ReserveEmpty(Submitter("a"), EmptySubmission("a"), 0, LostAck);
    var second := ReserveEmpty(Submitter("b"), EmptySubmission("b"), 0, Acked);
    var steps := [open, first, second];
    var ra := Record(EmptySubmission("a"), Rejected(EmptyBatch));
    var rb := Record(EmptySubmission("b"), Rejected(EmptyBatch));
    assert steps[..2] == [open, first] && [open, first][..1] == [open] && [open][..0] == [];
    FreshHolds(cfg);
    DurableIsSound(Fresh().db, [], cfg);
    var m0: map<Binding, Record> := map[];
    EmptyTotal(cfg.retained);
    TotalInsert(m0, cfg.retained, Submitter("a"), ra);
    var c1 := Exec([open], cfg);
    assert Exec([], cfg) == Fresh() && Recoverable(Fresh().db, cfg);
    assert c1 == Next(Fresh(), open, cfg);
    assert c1 == Fresh().(live := Some(Live(Rebuilt(Fresh().db, cfg), {}, map[], false)));
    var c2 := Exec([open, first], cfg);
    assert c2.db.receipts == m0[Submitter("a") := ra];
    var c3 := Exec(steps, cfg);
    assert c3.db.receipts == m0[Submitter("a") := ra][Submitter("b") := rb];
    TotalInsert(m0[Submitter("a") := ra], cfg.retained, Submitter("b"), rb);
  }

  lemma EmptyTotal(f: (Binding, Request) -> nat)
    ensures Total(map[], f) == 0
  {
  }
}
