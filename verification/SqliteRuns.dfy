/** What every run of the durable protocol keeps, whatever fails and whenever the
    process dies. */
module SqliteRuns {
  import opened Prelude
  import opened Series
  import opened Store
  import opened Sqlite
  import Runs = StoreRuns

  // ---------------------------------------------------------------- durable invariant

  /** The content a point's logged operations add up to. */
  function Replay(log: seq<Runs.Entry>, n: nat, id: string, capacity: nat): Window
    requires n <= |log|
  {
    if n == 0 then EmptyWindow()
    else if log[n - 1].change.point == id then Apply(Replay(log, n - 1, id, capacity), log[n - 1].batch, capacity)
    else Replay(log, n - 1, id, capacity)
  }

  /** Durable points are exactly the logged ones, at their last logged version,
      holding their replay. */
  ghost predicate Points(log: seq<Runs.Entry>, db: Db, cfg: Config) {
    && (forall i :: 0 <= i < |log| ==> log[i].change.point in db.points)
    && (forall id :: id in db.points ==> PointOk(log, db, id, cfg))
  }

  ghost predicate ChangeOk(log: seq<Runs.Entry>, i: nat, cfg: Config)
    requires i < |log|
  {
    var c := log[i].change;
    var w := Replay(log, i + 1, c.point, cfg.limits.items);
    && Runs.Follows(Runs.LastAfter(log, i, c.point), c.before)
    && c.after == NextVersion(c.before)
    && c.before.incarnation == cfg.incarnation(c.point)
    && c.retained == |w.items| && c.evictedThrough == w.evicted
  }

  ghost predicate Changes(log: seq<Runs.Entry>, cfg: Config) {
    forall i :: 0 <= i < |log| ==> ChangeOk(log, i, cfg)
  }

  /** A logged operation has a Committed receipt for it, and for nothing else. */
  ghost predicate LoggedOk(e: Runs.Entry, i: nat, receipts: map<Binding, Record>) {
    && e.binding.Some? && e.binding.value in receipts
    && var b := e.binding.value; var record := receipts[b];
       && record.outcome.Committed?
       && record.outcome.receipt.sequence == i + 1
       && record.request.samples == e.batch
       && b.identity.point == e.change.point
       && ReceiptValid(record.outcome.receipt, record.request)
       && ReceiptMatches(record.outcome.receipt, b.identity, e.change)
  }

  ghost predicate Receipts(log: seq<Runs.Entry>, receipts: map<Binding, Record>, cfg: Config) {
    && (forall i :: 0 <= i < |log| ==> LoggedOk(log[i], i, receipts))
    && (forall b :: b in receipts ==>
          && receipts[b].request.identity == b.identity
          && b.identity.incarnation == cfg.incarnation(b.identity.point))
    && (forall b :: b in receipts && receipts[b].outcome.Committed? ==>
          var n := receipts[b].outcome.receipt.sequence;
          1 <= n <= |log| && log[n - 1].binding == Some(b))
  }

  ghost predicate Durable(db: Db, log: seq<Runs.Entry>, cfg: Config) {
    && Runs.Ledger(log, db.changes, db.sequence, cfg.limits)
    && Points(log, db, cfg)
    && Changes(log, cfg)
    && Receipts(log, db.receipts, cfg)
    && Fits(db, cfg)
  }

  // ---------------------------------------------------------------- projection invariant

  ghost predicate PointsAgree(points: map<string, PointSeries>, durable: map<string, PointSeries>, cfg: Config) {
    && (forall id :: id in durable ==> id in points && points[id] == durable[id])
    && (forall id :: id in points && id !in durable ==>
          && id != "" && |id| <= 256
          && points[id] == PointSeries(Version(cfg.incarnation(id), 0), EmptyWindow()))
  }

  ghost predicate ReceiptsAgree(receipts: map<Binding, Record>, durable: map<Binding, Record>) {
    forall b :: b in receipts ==> b in durable && receipts[b] == durable[b]
  }

  /** A plan is for a version its point has reached, and if the point is still
      there, it is the request applied to what the point holds. */
  ghost predicate PlanOk(points: map<string, PointSeries>, plan: Plan, cfg: Config) {
    var id := plan.request.identity.point;
    && plan.binding.identity == plan.request.identity && Admissible(plan.request) && plan.request.samples != []
    && id in points
    && plan.before == Version(cfg.incarnation(id), plan.request.expected)
    && plan.request.identity.incarnation == cfg.incarnation(id)
    && plan.before.generation <= points[id].version.generation
    && plan.next.version == NextVersion(plan.before)
    && (points[id].version == plan.before ==>
          && plan.next.window == Apply(points[id].window, plan.request.samples, cfg.limits.items)
          && plan.unique == |ToMap(plan.request.samples)|
          && plan.evicted == Excess(InsertAll(points[id].window.items, plan.request.samples), cfg.limits.items))
  }

  ghost predicate Drafts(drafts: set<Plan>, points: map<string, PointSeries>, cfg: Config) {
    forall plan :: plan in drafts ==> PlanOk(points, plan, cfg)
  }

  ghost predicate Plans(plans: map<Binding, Plan>, points: map<string, PointSeries>, receipts: map<Binding, Record>,
                        cfg: Config) {
    forall b :: b in plans ==>
      && PlanOk(points, plans[b], cfg) && plans[b].binding == b
      && b in receipts && receipts[b] == Record(plans[b].request, Pending)
  }

  ghost predicate Projects(live: Live, db: Db, cfg: Config) {
    && live.a.sequence == db.sequence && live.a.changes == db.changes
    && PointsAgree(live.a.points, db.points, cfg)
    && ReceiptsAgree(live.a.receipts, db.receipts)
    && Drafts(live.drafts, live.a.points, cfg)
    && Plans(live.plans, live.a.points, live.a.receipts, cfg)
  }

  /** Unless a reservation's acknowledgement was lost, durable receipts are charged. */
  ghost predicate Charged(c: Cluster, cfg: Config) {
    && (!c.lost ==> Total(c.db.receipts, cfg.retained) <= cfg.limits.receiptBytes)
    && (c.live.Some? && !c.live.value.sealed ==>
          && c.live.value.a.receiptBytes <= cfg.limits.receiptBytes
          && (!c.lost ==> Total(c.db.receipts, cfg.retained) <= c.live.value.a.receiptBytes
                          && c.db.receipts.Keys == c.live.value.a.receipts.Keys))
  }

  ghost predicate Inv(c: Cluster, cfg: Config) {
    && Durable(c.db, c.log, cfg)
    && (c.live.Some? && !c.live.value.sealed ==> Projects(c.live.value, c.db, cfg))
    && Charged(c, cfg)
  }

  predicate ValidConfig(cfg: Config) {
    ValidLimits(cfg.limits) && Fits(Fresh().db, cfg)
  }

  // ---------------------------------------------------------------- totals

  lemma {:induction false} TotalRemove(m: map<Binding, Record>, f: (Binding, Request) -> nat, k: Binding)
    requires k in m
    ensures Total(m, f) == f(k, m[k].request) + Total(m - {k}, f)
    decreases |m|
  {
    var b :| b in m && Total(m, f) == f(b, m[b].request) + Total(m - {b}, f);
    if b != k {
      TotalRemove(m - {b}, f, k);
      assert m - {b} - {k} == m - {k} - {b};
      TotalRemove(m - {k}, f, b);
    }
  }

  lemma TotalInsert(m: map<Binding, Record>, f: (Binding, Request) -> nat, k: Binding, r: Record)
    requires k !in m
    ensures Total(m[k := r], f) == f(k, r.request) + Total(m, f)
  {
    TotalRemove(m[k := r], f, k);
    assert m[k := r] - {k} == m;
  }

  lemma TotalSettle(m: map<Binding, Record>, f: (Binding, Request) -> nat, k: Binding, o: Outcome)
    requires k in m
    ensures Total(m[k := m[k].(outcome := o)], f) == Total(m, f)
  {
    TotalRemove(m, f, k);
    TotalRemove(m[k := m[k].(outcome := o)], f, k);
    assert m[k := m[k].(outcome := o)] - {k} == m - {k};
  }

  // ---------------------------------------------------------------- what one write produces

  lemma {:induction false} InsertSize(s: seq<Item>, item: Item)
    ensures 1 <= |Insert(s, item)| <= |s| + 1
  {
    if s != [] {
      InsertSize(s[..|s| - 1], item);
    }
  }

  lemma {:induction false} InsertAllSize(s: seq<Item>, batch: seq<Item>)
    ensures |InsertAll(s, batch)| <= |s| + |batch|
    ensures batch != [] ==> |InsertAll(s, batch)| > 0
  {
    if batch != [] {
      InsertAllSize(s, batch[..|batch| - 1]);
      InsertSize(InsertAll(s, batch[..|batch| - 1]), batch[|batch| - 1]);
    }
  }

  lemma {:induction false} ToMapSize(s: seq<Item>)
    ensures |ToMap(s)| <= |s|
    ensures s != [] ==> |ToMap(s)| > 0
  {
    if s != [] {
      ToMapSize(s[..|s| - 1]);
      var m := ToMap(s[..|s| - 1]);
      assert ToMap(s).Keys == m.Keys + {s[|s| - 1].ts};
    }
  }

  predicate Supported(items: seq<Item>) {
    forall i :: 0 <= i < |items| ==> !items[i].val.Rich?
  }

  lemma {:induction false} InsertAllSupported(s: seq<Item>, batch: seq<Item>)
    requires Sorted(s) && Supported(s) && Supported(batch)
    ensures Supported(InsertAll(s, batch))
  {
    if batch != [] {
      var r := InsertAll(s, batch[..|batch| - 1]);
      InsertAllSupported(s, batch[..|batch| - 1]);
      InsertAllMeaning(s, batch[..|batch| - 1]);
      InsertSorted(r, batch[|batch| - 1]);
      forall i | 0 <= i < |InsertAll(s, batch)| ensures !InsertAll(s, batch)[i].val.Rich? {
        assert InsertAll(s, batch)[i] in Insert(r, batch[|batch| - 1]);
      }
    }
  }

  lemma ApplyFacts(w: Window, batch: seq<Item>, capacity: nat)
    requires 0 < capacity && Sorted(w.items) && Supported(w.items) && Supported(batch) && batch != []
    ensures var n := Apply(w, batch, capacity).items;
      Sorted(n) && Supported(n) && 0 < |n| <= capacity
    ensures |w.items| <= capacity ==> Excess(InsertAll(w.items, batch), capacity) <= |batch|
    ensures 0 < |ToMap(batch)| <= |batch|
  {
    InsertAllMeaning(w.items, batch);
    InsertAllSize(w.items, batch);
    InsertAllSupported(w.items, batch);
    ToMapSize(batch);
  }

  // ---------------------------------------------------------------- appending a publication

  lemma {:induction false} ReplayAppend(log: seq<Runs.Entry>, e: Runs.Entry, n: nat, id: string, capacity: nat)
    requires n <= |log|
    ensures Replay(log + [e], n, id, capacity) == Replay(log, n, id, capacity)
  {
    if n > 0 {
      ReplayAppend(log, e, n - 1, id, capacity);
    }
  }

  lemma ChangeOkAppend(log: seq<Runs.Entry>, e: Runs.Entry, i: nat, cfg: Config)
    requires i < |log| && ChangeOk(log, i, cfg)
    ensures ChangeOk(log + [e], i, cfg)
  {
    hide Replay, Runs.LastAfter;
    Runs.LastAfterAppend(log, e, i, log[i].change.point);
    ReplayAppend(log, e, i + 1, log[i].change.point, cfg.limits.items);
  }

  lemma {:induction false} PrunedAll(changes: seq<Change>, floor: nat)
    requires forall k :: 0 <= k < |changes| ==> changes[k].sequence > floor
    ensures Pruned(changes, floor) == changes
  {
    if changes != [] {
      PrunedAll(changes[1..], floor);
    }
  }

  /** Deleting below the floor leaves the same ledger the projection keeps. */
  lemma PrunedIsAppended(log: seq<Runs.Entry>, changes: seq<Change>, sequence: nat, change: Change, l: Limits)
    requires Runs.Ledger(log, changes, sequence, l) && l.changes > 0 && change.sequence == sequence + 1
    ensures Pruned(changes + [change], Monus(sequence + 1, l.changes)) == Appended(changes, change, l.changes)
  {
    var floor := Monus(sequence + 1, l.changes);
    var all := changes + [change];
    var n := |changes|;
    assert n == Min(sequence, l.changes);
    forall k | 0 <= k < n ensures changes[k].sequence == sequence - n + 1 + k {
      assert changes[k] == log[Monus(|log|, l.changes) + k].change;
    }
    if n == l.changes {
      assert all[0].sequence <= floor;
      PrunedAll(all[1..], floor);
      assert all[1..] == changes[1..] + [change];
    } else {
      PrunedAll(all, floor);
    }
  }

  lemma {:induction false} NotReplayed(log: seq<Runs.Entry>, n: nat, id: string, capacity: nat)
    requires n <= |log| && forall i :: 0 <= i < |log| ==> log[i].change.point != id
    ensures Replay(log, n, id, capacity) == EmptyWindow()
  {
    if n > 0 {
      NotReplayed(log, n - 1, id, capacity);
    }
  }

  /** What a publication of `plan` knows when its transaction is about to commit. */
  ghost predicate Ready(c: Cluster, plan: Plan, cfg: Config) {
    && Durable(c.db, c.log, cfg) && ValidLimits(cfg.limits)
    && c.live.Some? && !c.live.value.sealed
    && PointsAgree(c.live.value.a.points, c.db.points, cfg)
    && PlanOk(c.live.value.a.points, plan, cfg)
    && c.live.value.a.points[plan.request.identity.point].version == plan.before
    && plan.binding in c.db.receipts && c.db.receipts[plan.binding] == Record(plan.request, Pending)
  }

  /** The plan's series is its request applied to the durable one. */
  lemma PlanFromReplay(c: Cluster, plan: Plan, cfg: Config)
    requires Ready(c, plan, cfg)
    ensures var id := plan.request.identity.point; var w := Replay(c.log, |c.log|, id, cfg.limits.items);
      && Runs.Follows(Runs.LastAfter(c.log, |c.log|, id), plan.before)
      && plan.next.window == Apply(w, plan.request.samples, cfg.limits.items)
      && plan.evicted == Excess(InsertAll(w.items, plan.request.samples), cfg.limits.items)
      && Sorted(w.items) && Supported(w.items) && |w.items| <= cfg.limits.items
      && plan.before.generation <= c.db.sequence
  {
    hide Apply, InsertAll, ToMap, Replay, Runs.LastAfter, Changes, Receipts, Runs.Ledger, Fits, ReceiptsAgree;
    var id := plan.request.identity.point;
    if id !in c.db.points {
      Runs.NotLogged(c.log, |c.log|, id);
      NotReplayed(c.log, |c.log|, id, cfg.limits.items);
    }
  }

  function PlanEntry(c: Cluster, plan: Plan): Runs.Entry {
    Runs.Entry(PlanChange(plan, c.db.sequence + 1), Some(plan.binding), plan.request.samples)
  }

  lemma PublishChanges(c: Cluster, plan: Plan, cfg: Config)
    requires Ready(c, plan, cfg)
    ensures Changes(c.log + [PlanEntry(c, plan)], cfg)
  {
    hide Apply, InsertAll, Points, Receipts, Fits, Runs.Ledger, Runs.LastAfter;
    var e := PlanEntry(c, plan);
    var id := plan.request.identity.point;
    PlanFromReplay(c, plan, cfg);
    forall i | 0 <= i < |c.log| ensures ChangeOk(c.log + [e], i, cfg) {
      ChangeOkAppend(c.log, e, i, cfg);
    }
    Runs.LastAfterAppend(c.log, e, |c.log|, id);
    ReplayAppend(c.log, e, |c.log|, id, cfg.limits.items);
    assert (c.log + [e])[|c.log|] == e;
    assert Replay(c.log + [e], |c.log| + 1, id, cfg.limits.items) == plan.next.window;
  }

  ghost predicate PointOk(log: seq<Runs.Entry>, db: Db, id: string, cfg: Config)
    requires id in db.points
  {
    && PointRowOk(id, db.points[id], db, cfg)
    && Runs.LastAfter(log, |log|, id) == Some(db.points[id].version)
    && db.points[id].window == Replay(log, |log|, id, cfg.limits.items)
  }

  lemma PublishedPoint(c: Cluster, plan: Plan, cfg: Config)
    requires Ready(c, plan, cfg)
    ensures PointOk(c.log + [PlanEntry(c, plan)], PublishDb(c.db, plan, c.db.sequence + 1, cfg.limits),
                    plan.request.identity.point, cfg)
  {
    hide Apply, InsertAll, Changes, Receipts, Fits, Runs.Ledger, Pruned, Points, PointsAgree;
    var e := PlanEntry(c, plan);
    var id := plan.request.identity.point;
    PlanFromReplay(c, plan, cfg);
    ApplyFacts(Replay(c.log, |c.log|, id, cfg.limits.items), plan.request.samples, cfg.limits.items);
    ReplayAppend(c.log, e, |c.log|, id, cfg.limits.items);
    assert (c.log + [e])[|c.log|] == e;
  }

  lemma OtherPoint(c: Cluster, plan: Plan, id: string, cfg: Config)
    requires Ready(c, plan, cfg) && id in c.db.points && id != plan.request.identity.point
    ensures PointOk(c.log + [PlanEntry(c, plan)], PublishDb(c.db, plan, c.db.sequence + 1, cfg.limits), id, cfg)
  {
    hide Apply, InsertAll, Changes, Receipts, Fits, Runs.Ledger, Pruned, PlanOk, PointsAgree;
    var e := PlanEntry(c, plan);
    Runs.LastAfterAppend(c.log, e, |c.log|, id);
    ReplayAppend(c.log, e, |c.log|, id, cfg.limits.items);
    assert (c.log + [e])[|c.log|] == e;
  }

  lemma PublishPoints(c: Cluster, plan: Plan, cfg: Config)
    requires Ready(c, plan, cfg)
    ensures Points(c.log + [PlanEntry(c, plan)], PublishDb(c.db, plan, c.db.sequence + 1, cfg.limits), cfg)
  {
    hide Apply, InsertAll, Changes, Receipts, Fits, Runs.Ledger, Pruned, Replay, Runs.LastAfter, PointRowOk, PlanOk,
         PointsAgree;
    var db := PublishDb(c.db, plan, c.db.sequence + 1, cfg.limits);
    forall p | p in db.points ensures PointOk(c.log + [PlanEntry(c, plan)], db, p, cfg) {
      if p == plan.request.identity.point {
        PublishedPoint(c, plan, cfg);
      } else {
        OtherPoint(c, plan, p, cfg);
      }
    }
  }

  lemma PublishedLogged(c: Cluster, plan: Plan, cfg: Config)
    requires Ready(c, plan, cfg)
    ensures LoggedOk(PlanEntry(c, plan), c.db.sequence, PublishDb(c.db, plan, c.db.sequence + 1, cfg.limits).receipts)
  {
    hide Apply, InsertAll, ToMap, Replay, Durable, PointsAgree, Pruned, Runs.LastAfter, PlanOk;
    PlanFromReplay(c, plan, cfg);
    PlanCounts(c, plan, cfg);
    ApplyFacts(Replay(c.log, |c.log|, plan.request.identity.point, cfg.limits.items), plan.request.samples,
               cfg.limits.items);
  }

  lemma StillLogged(e: Runs.Entry, i: nat, receipts: map<Binding, Record>, b: Binding, o: Outcome)
    requires LoggedOk(e, i, receipts) && b in receipts && receipts[b].outcome.Pending?
    ensures LoggedOk(e, i, receipts[b := receipts[b].(outcome := o)])
  {
    hide ReceiptValid, ReceiptMatches;
  }

  lemma SettledLogged(log: seq<Runs.Entry>, receipts: map<Binding, Record>, b: Binding, e: Runs.Entry, o: Outcome,
                      cfg: Config)
    requires Receipts(log, receipts, cfg) && b in receipts && receipts[b].outcome.Pending?
    requires o.Committed? && o.receipt.sequence == |log| + 1 && e.binding == Some(b)
    requires LoggedOk(e, |log|, receipts[b := receipts[b].(outcome := o)])
    ensures Receipts(log + [e], receipts[b := receipts[b].(outcome := o)], cfg)
  {
    hide LoggedOk;
    var next, grown := receipts[b := receipts[b].(outcome := o)], log + [e];
    forall i | 0 <= i < |grown| ensures LoggedOk(grown[i], i, next) {
      if i < |log| {
        StillLogged(log[i], i, receipts, b, o);
      }
    }
    forall c | c in next && next[c].outcome.Committed?
      ensures 1 <= next[c].outcome.receipt.sequence <= |grown|
      ensures grown[next[c].outcome.receipt.sequence - 1].binding == Some(c)
    {
      if c != b {
        assert receipts[c].outcome.Committed?;
      }
    }
  }

  lemma PublishReceipts(c: Cluster, plan: Plan, cfg: Config)
    requires Ready(c, plan, cfg)
    ensures Receipts(c.log + [PlanEntry(c, plan)], PublishDb(c.db, plan, c.db.sequence + 1, cfg.limits).receipts, cfg)
  {
    hide Changes, Fits, Points, Pruned, Receipts, LoggedOk, PointsAgree;
    PlanCounts(c, plan, cfg);
    PublishedLogged(c, plan, cfg);
    SettledLogged(c.log, c.db.receipts, plan.binding, PlanEntry(c, plan),
                  Committed(PlanReceipt(plan, c.db.sequence + 1)), cfg);
  }

  lemma PlanCounts(c: Cluster, plan: Plan, cfg: Config)
    requires Ready(c, plan, cfg)
    ensures plan.unique == |ToMap(plan.request.samples)| && |plan.request.samples| <= MAX_SAMPLES
    ensures plan.request.samples != [] && plan.binding.identity == plan.request.identity
    ensures plan.before.generation == plan.request.expected && Supported(plan.request.samples)
    ensures plan.next.version == NextVersion(plan.before)
  {
    hide Durable, PointsAgree, Apply, InsertAll, ToMap;
  }

  lemma PublishDurable(c: Cluster, plan: Plan, cfg: Config)
    requires Ready(c, plan, cfg)
    requires Fits(PublishDb(c.db, plan, c.db.sequence + 1, cfg.limits), cfg)
    ensures Durable(PublishDb(c.db, plan, c.db.sequence + 1, cfg.limits), c.log + [PlanEntry(c, plan)], cfg)
    ensures PublishDb(c.db, plan, c.db.sequence + 1, cfg.limits).changes ==
            Appended(c.db.changes, PlanChange(plan, c.db.sequence + 1), cfg.limits.changes)
  {
    hide Points, Changes, Receipts, Runs.Ledger, Fits, PlanOk, PointsAgree, Pruned, Appended;
    PublishChanges(c, plan, cfg);
    PublishPoints(c, plan, cfg);
    PublishReceipts(c, plan, cfg);
    PrunedIsAppended(c.log, c.db.changes, c.db.sequence, PlanChange(plan, c.db.sequence + 1), cfg.limits);
    Runs.ChangedLedger(c.log, c.db.changes, c.db.sequence, PlanEntry(c, plan), cfg.limits);
  }

  // ---------------------------------------------------------------- receipts only

  lemma SameTables(log: seq<Runs.Entry>, db: Db, receipts: map<Binding, Record>, cfg: Config)
    requires Points(log, db, cfg)
    ensures Points(log, db.(receipts := receipts), cfg)
  {
    hide Replay, Runs.LastAfter;
    var next := db.(receipts := receipts);
    forall id | id in next.points ensures PointOk(log, next, id, cfg) {
      assert PointOk(log, db, id, cfg);
    }
  }

  lemma SettleReceipts(log: seq<Runs.Entry>, receipts: map<Binding, Record>, b: Binding, reason: Reason, cfg: Config)
    requires Receipts(log, receipts, cfg) && b in receipts && receipts[b].outcome.Pending?
    ensures Receipts(log, receipts[b := receipts[b].(outcome := Rejected(reason))], cfg)
  {
    hide ReceiptValid, ReceiptMatches;
    var next := receipts[b := receipts[b].(outcome := Rejected(reason))];
    forall i | 0 <= i < |log| ensures LoggedOk(log[i], i, next) {
      assert LoggedOk(log[i], i, receipts);
    }
  }

  lemma InsertReceipts(log: seq<Runs.Entry>, receipts: map<Binding, Record>, b: Binding, record: Record, cfg: Config)
    requires Receipts(log, receipts, cfg) && b !in receipts && !record.outcome.Committed?
    requires record.request.identity == b.identity && b.identity.incarnation == cfg.incarnation(b.identity.point)
    ensures Receipts(log, receipts[b := record], cfg)
  {
    hide ReceiptValid, ReceiptMatches;
    forall i | 0 <= i < |log| ensures LoggedOk(log[i], i, receipts[b := record]) {
      assert LoggedOk(log[i], i, receipts);
    }
  }

  lemma SettleDurable(c: Cluster, b: Binding, reason: Reason, cfg: Config)
    requires Durable(c.db, c.log, cfg)
    ensures Durable(SettleDb(c.db, b, reason, cfg), c.log, cfg)
    ensures Total(SettleDb(c.db, b, reason, cfg).receipts, cfg.retained) == Total(c.db.receipts, cfg.retained)
  {
    hide Points, Changes, Receipts, Runs.Ledger, Fits, Total;
    var db := SettleDb(c.db, b, reason, cfg);
    if db != c.db {
      SameTables(c.log, c.db, db.receipts, cfg);
      SettleReceipts(c.log, c.db.receipts, b, reason, cfg);
      TotalSettle(c.db.receipts, cfg.retained, b, Rejected(reason));
    }
  }

  lemma SettleProjects(live: Live, db: Db, b: Binding, reason: Reason, cfg: Config)
    requires Projects(live, db, cfg) && b !in live.plans && b in live.a.receipts && b in db.receipts
    ensures var next := SettleDb(db, b, reason, cfg);
      b in next.receipts && Projects(live.(a := Store.Settle(live.a, b, next.receipts[b].outcome)), next, cfg)
  {
    hide PlanOk, PointsAgree, Fits;
  }

  lemma SettledKeeps(c: Cluster, b: Binding, reason: Reason, tx: Tx, cfg: Config)
    requires Inv(c, cfg) && c.live.Some? && !c.live.value.sealed && b !in c.live.value.plans
    ensures Inv(Settled(c, b, reason, tx, cfg), cfg)
  {
    hide Durable, Projects, Total, Fits, SettleDb;
    SettleDurable(c, b, reason, cfg);
    SettledKeys(c.db, b, reason, cfg);
    if tx == Acked && b in SettleDb(c.db, b, reason, cfg).receipts && b in c.live.value.a.receipts {
      SettleProjects(c.live.value, c.db, b, reason, cfg);
      var outcome := SettleDb(c.db, b, reason, cfg).receipts[b].outcome;
      assert Store.Settle(c.live.value.a, b, outcome).receipts.Keys == c.live.value.a.receipts.Keys;
    }
  }

  lemma SettledKeys(db: Db, b: Binding, reason: Reason, cfg: Config)
    ensures SettleDb(db, b, reason, cfg).receipts.Keys == db.receipts.Keys
  {
    hide Fits;
  }

  // ---------------------------------------------------------------- reservation

  ghost predicate Reservable(c: Cluster, b: Binding, record: Record, plan: Option<Plan>, bytes: nat, cfg: Config) {
    && record.request.identity == b.identity && b.identity.incarnation == cfg.incarnation(b.identity.point)
    && !record.outcome.Committed?
    && bytes >= cfg.retained(b, record.request)
    && (plan.Some? ==>
          && plan.value.binding == b && record == Record(plan.value.request, Pending)
          && c.live.Some? && (!c.live.value.sealed ==> PlanOk(c.live.value.a.points, plan.value, cfg)))
  }

  lemma ReserveProjects(live: Live, db: Db, b: Binding, record: Record, plan: Option<Plan>, a: Authority, cfg: Config)
    requires Projects(live, db, cfg) && b !in live.a.receipts && b !in db.receipts
    requires a.(receipts := live.a.receipts, receiptBytes := live.a.receiptBytes) == live.a
    requires a.receipts == live.a.receipts[b := record]
    requires plan.Some? ==> plan.value.binding == b && record == Record(plan.value.request, Pending)
                            && PlanOk(live.a.points, plan.value, cfg)
    ensures Projects(live.(a := a, plans := if plan.Some? then live.plans[b := plan.value] else live.plans),
                     ReserveDb(db, b, record), cfg)
  {
    hide PlanOk, PointsAgree;
  }

  lemma ReserveDurable(c: Cluster, b: Binding, record: Record, cfg: Config)
    requires Durable(c.db, c.log, cfg) && b !in c.db.receipts && Fits(ReserveDb(c.db, b, record), cfg)
    requires record.request.identity == b.identity && b.identity.incarnation == cfg.incarnation(b.identity.point)
    requires !record.outcome.Committed?
    ensures Durable(ReserveDb(c.db, b, record), c.log, cfg)
    ensures Total(ReserveDb(c.db, b, record).receipts, cfg.retained)
            == cfg.retained(b, record.request) + Total(c.db.receipts, cfg.retained)
  {
    hide Points, Changes, Receipts, Runs.Ledger, Fits, Total;
    SameTables(c.log, c.db, c.db.receipts[b := record], cfg);
    InsertReceipts(c.log, c.db.receipts, b, record, cfg);
    TotalInsert(c.db.receipts, cfg.retained, b, record);
  }

  lemma ReservedKeeps(c: Cluster, b: Binding, record: Record, plan: Option<Plan>, bytes: nat, tx: Tx, cfg: Config)
    requires Inv(c, cfg) && c.live.Some? && Reservable(c, b, record, plan, bytes, cfg)
    ensures Inv(Reserved(c, b, record, plan, bytes, tx, cfg), cfg)
  {
    hide Durable, Projects, Total, Fits, PlanOk;
    var live := c.live.value;
    var d := Reserved(c, b, record, plan, bytes, tx, cfg);
    if !live.sealed && d != c {
      var a := Bind(live.a, b, record.request, record.outcome, bytes, cfg.limits).value;
      ReserveDurable(c, b, record, cfg);
      ReserveProjects(live, c.db, b, record, plan, a, cfg);
      LostProjects(live, c.db, b, record, cfg);
      assert ReserveDb(c.db, b, record).receipts.Keys == c.db.receipts.Keys + {b};
      assert a.receipts.Keys == live.a.receipts.Keys + {b};
    }
  }

  lemma LostProjects(live: Live, db: Db, b: Binding, record: Record, cfg: Config)
    requires Projects(live, db, cfg) && b !in db.receipts
    ensures Projects(live, ReserveDb(db, b, record), cfg)
  {
    hide PlanOk, PointsAgree;
  }

  // ---------------------------------------------------------------- publication

  /** A publication moves one point past every other plan made for it. */
  lemma PublishedPlanOk(points: map<string, PointSeries>, plan: Plan, other: Plan, cfg: Config)
    requires PlanOk(points, plan, cfg) && PlanOk(points, other, cfg)
    requires points[plan.request.identity.point].version == plan.before
    ensures PlanOk(points[plan.request.identity.point := plan.next], other, cfg)
  {
    hide Apply, InsertAll, ToMap;
  }

  lemma PublishProjects(live: Live, db: Db, plan: Plan, cfg: Config)
    requires Projects(live, db, cfg) && PlanOk(live.a.points, plan, cfg) && plan.binding !in live.plans
    requires Installable(live.a, plan, db.sequence + 1)
    requires PublishDb(db, plan, db.sequence + 1, cfg.limits).changes ==
             Appended(db.changes, PlanChange(plan, db.sequence + 1), cfg.limits.changes)
    ensures Projects(live.(a := Store.Publish(live.a, plan, cfg.limits)),
                     PublishDb(db, plan, db.sequence + 1, cfg.limits), cfg)
  {
    hide PlanOk, Pruned, Appended;
    var id := plan.request.identity.point;
    var points := live.a.points[id := plan.next];
    forall other | PlanOk(live.a.points, other, cfg) ensures PlanOk(points, other, cfg) {
      PublishedPlanOk(live.a.points, plan, other, cfg);
    }
    InDomain(live.a.points, plan, cfg);
  }

  lemma InDomain(points: map<string, PointSeries>, plan: Plan, cfg: Config)
    requires PlanOk(points, plan, cfg)
    ensures plan.request.identity.point in points && plan.request.identity.point != ""
    ensures |plan.request.identity.point| <= 256
  {
    hide Apply, InsertAll, ToMap;
  }

  lemma InstalledKeeps(c: Cluster, d: Cluster, plan: Plan, late: bool, cfg: Config)
    requires c.live.Some? && !c.live.value.sealed && Projects(c.live.value, c.db, cfg) && Charged(c, cfg)
    requires PlanOk(c.live.value.a.points, plan, cfg) && plan.binding !in c.live.value.plans
    requires plan.binding in c.db.receipts
    requires d == c.(db := PublishDb(c.db, plan, c.db.sequence + 1, cfg.limits), log := c.log + [PlanEntry(c, plan)])
    requires d.db.changes == Appended(c.db.changes, PlanChange(plan, c.db.sequence + 1), cfg.limits.changes)
    requires Durable(d.db, d.log, cfg)
    ensures Inv(Installed(d, plan, late, cfg), cfg)
    ensures Inv(d.(live := None), cfg) && Inv(Seal(d), cfg)
  {
    hide Durable, Total, Fits, PlanOk, Pruned, Appended, PointsAgree, Plans, Drafts;
    var receipt := PlanReceipt(plan, c.db.sequence + 1);
    TotalSettle(c.db.receipts, cfg.retained, plan.binding, Committed(receipt));
    assert d.db.receipts.Keys == c.db.receipts.Keys;
    if !late && Installable(c.live.value.a, plan, d.db.sequence) {
      PublishProjects(c.live.value, c.db, plan, cfg);
      assert Store.Publish(c.live.value.a, plan, cfg.limits).receipts.Keys == c.live.value.a.receipts.Keys;
    }
  }

  lemma PublishedKeeps(c: Cluster, plan: Plan, reason: Reason, tx: Tx, cleanup: Tx, late: bool, cfg: Config)
    requires Inv(c, cfg) && ValidLimits(cfg.limits) && c.live.Some?
    requires plan.binding !in c.live.value.plans
    requires !c.live.value.sealed ==>
      && PlanOk(c.live.value.a.points, plan, cfg)
      && plan.binding in c.live.value.a.receipts
      && c.live.value.a.receipts[plan.binding] == Record(plan.request, Pending)
    ensures Inv(PublishedPlan(c, plan, reason, tx, cleanup, late, cfg), cfg)
  {
    hide Durable, Total, Fits, PlanOk, Pruned, Appended, PointsAgree, Plans, Drafts, Charged, Installed, Settled;
    var live := c.live.value;
    if !live.sealed {
      SettledKeeps(c, plan.binding, reason, cleanup, cfg);
      var db := PublishDb(c.db, plan, c.db.sequence + 1, cfg.limits);
      if Publishable(live.a, plan) && TxReady(c.db, plan, live.a.sequence + 1) && Fits(db, cfg) && tx != Aborted {
        assert Ready(c, plan, cfg);
        PublishDurable(c, plan, cfg);
        InstalledKeeps(c, c.(db := db, log := c.log + [PlanEntry(c, plan)]), plan, late, cfg);
      }
    }
  }

  // ---------------------------------------------------------------- every step

  lemma ConsumeKeeps(c: Cluster, b: Binding, cfg: Config)
    requires Inv(c, cfg) && c.live.Some?
    ensures Inv(Consume(c, b), cfg)
  {
    hide Durable, Total, PlanOk, PointsAgree;
  }

  lemma TouchedPlans(points: map<string, PointSeries>, id: string, p: PointSeries, cfg: Config)
    requires id !in points
    ensures forall plan :: PlanOk(points, plan, cfg) ==> PlanOk(points[id := p], plan, cfg)
  {
    hide Apply, InsertAll, ToMap;
  }

  lemma TouchKeeps(c: Cluster, id: string, cfg: Config)
    requires Inv(c, cfg) && c.live.Some?
    ensures Inv(DoTouch(c, id, cfg), cfg)
  {
    hide Durable, Total, PlanOk;
    if id !in c.live.value.a.points {
      TouchedPlans(c.live.value.a.points, id, PointSeries(Version(cfg.incarnation(id), 0), EmptyWindow()), cfg);
    }
  }

  lemma DraftKeeps(c: Cluster, b: Binding, request: Request, cfg: Config)
    requires Inv(c, cfg) && c.live.Some?
    ensures Inv(DoDraft(c, b, request, cfg), cfg)
  {
    hide Total, Plans, ReceiptsAgree, Apply, InsertAll, ToMap, Runs.Ledger, Changes, Receipts, Replay, Runs.LastAfter,
         Fits;
  }

  lemma ReserveKeeps(c: Cluster, plan: Plan, extra: nat, tx: Tx, cfg: Config)
    requires Inv(c, cfg) && c.live.Some?
    ensures Inv(DoReserve(c, plan, extra, tx, cfg), cfg)
  {
    hide Durable, Total, PointsAgree, Plans, Reserved, Apply, InsertAll, ToMap;
    if plan in c.live.value.drafts {
      var d := c.(live := Some(c.live.value.(drafts := c.live.value.drafts - {plan})));
      assert Inv(d, cfg);
      if !c.live.value.sealed {
        assert PlanOk(c.live.value.a.points, plan, cfg);
        ReservedKeeps(d, plan.binding, Record(plan.request, Pending), Some(plan),
                      cfg.retained(plan.binding, plan.request) + extra, tx, cfg);
      } else {
        SealedReserve(d, plan, extra, tx, cfg);
      }
    }
  }

  lemma SealedReserve(d: Cluster, plan: Plan, extra: nat, tx: Tx, cfg: Config)
    requires d.live.Some? && d.live.value.sealed
    ensures Reserved(d, plan.binding, Record(plan.request, Pending), Some(plan),
                     cfg.retained(plan.binding, plan.request) + extra, tx, cfg) == d
  {
  }

  lemma ReopenKeeps(c: Cluster, cfg: Config)
    requires Inv(c, cfg) && c.live.None?
    ensures Inv(Next(c, Reopen, cfg), cfg)
  {
    hide Durable, Total, Sound;
  }

  lemma PlanHeld(c: Cluster, b: Binding, cfg: Config)
    requires Inv(c, cfg) && c.live.Some? && !c.live.value.sealed && b in c.live.value.plans
    ensures var plan := c.live.value.plans[b];
      && PlanOk(c.live.value.a.points, plan, cfg) && plan.binding == b
      && b in c.live.value.a.receipts && c.live.value.a.receipts[b] == Record(plan.request, Pending)
  {
    hide Durable, Charged, PlanOk, PointsAgree, Drafts;
  }

  lemma StepKeeps(c: Cluster, step: Step, cfg: Config)
    requires Inv(c, cfg) && ValidLimits(cfg.limits)
    ensures Inv(Next(c, step, cfg), cfg)
  {
    hide Durable, Projects, Total, Sound, Settled, PublishedPlan, Reserved, DoReserve, DoDraft, DoTouch, PlanOk;
    if c.live.None? {
      if step.Reopen? { ReopenKeeps(c, cfg); }
    } else {
      match step
      case Touch(id) => TouchKeeps(c, id, cfg);
      case Draft(b, request) => DraftKeeps(c, b, request, cfg);
      case Reserve(plan, extra, tx) => ReserveKeeps(c, plan, extra, tx, cfg);
      case ReserveEmpty(b, request, extra, tx) =>
        if DoReserveEmpty(c, b, request, extra, tx, cfg) != c {
          ReservedKeeps(c, b, Record(request, Rejected(EmptyBatch)), None, cfg.retained(b, request) + extra, tx, cfg);
        }
      case Publish(b, reason, tx, cleanup, late) => PublishKeeps(c, b, reason, tx, cleanup, late, cfg);
      case Reject(b, reason, cleanup) => RejectKeeps(c, b, reason, cleanup, cfg);
      case Drop(b) => ConsumeKeeps(c, b, cfg);
      case _ =>
    }
  }

  lemma PublishKeeps(c: Cluster, b: Binding, reason: Reason, tx: Tx, cleanup: Tx, late: bool, cfg: Config)
    requires Inv(c, cfg) && ValidLimits(cfg.limits) && c.live.Some?
    ensures Inv(Next(c, Publish(b, reason, tx, cleanup, late), cfg), cfg)
  {
    hide Inv, PublishedPlan, PlanOk;
    if b in c.live.value.plans {
      ConsumeKeeps(c, b, cfg);
      if !c.live.value.sealed {
        PlanHeld(c, b, cfg);
        PublishedKeeps(Consume(c, b), c.live.value.plans[b], reason, tx, cleanup, late, cfg);
      } else {
        SealedPublish(Consume(c, b), c.live.value.plans[b], reason, tx, cleanup, late, cfg);
      }
    }
  }

  lemma SealedPublish(c: Cluster, plan: Plan, reason: Reason, tx: Tx, cleanup: Tx, late: bool, cfg: Config)
    requires c.live.Some? && c.live.value.sealed
    ensures PublishedPlan(c, plan, reason, tx, cleanup, late, cfg) == c
  {
  }

  lemma RejectKeeps(c: Cluster, b: Binding, reason: Reason, cleanup: Tx, cfg: Config)
    requires Inv(c, cfg) && c.live.Some?
    ensures Inv(Next(c, Reject(b, reason, cleanup), cfg), cfg)
  {
    hide Inv, Settled;
    if b in c.live.value.plans {
      ConsumeKeeps(c, b, cfg);
      if !c.live.value.sealed {
        SettledKeeps(Consume(c, b), b, reason, cleanup, cfg);
      }
    }
  }

  lemma FreshHolds(cfg: Config)
    requires ValidConfig(cfg)
    ensures Inv(Fresh(), cfg)
  {
    assert Total(map[], cfg.retained) == 0;
  }

  /** Every run, whatever acknowledgements are lost and wherever it dies, keeps the
      durable tables describing one log of publications. */
  lemma {:induction false} RunKeeps(steps: seq<Step>, cfg: Config)
    requires ValidConfig(cfg)
    ensures Inv(Exec(steps, cfg), cfg)
  {
    hide Inv, Next, Fits;
    if steps == [] {
      FreshHolds(cfg);
    } else {
      RunKeeps(steps[..|steps| - 1], cfg);
      StepKeeps(Exec(steps[..|steps| - 1], cfg), steps[|steps| - 1], cfg);
    }
  }
}
