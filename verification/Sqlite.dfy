/** The durable form of the receipt protocol: a SQLite database, the in-process
    projection of it, and what crashes and lost acknowledgements can do between.

    A transaction is all or nothing, but its caller may not learn which
    (`LostAck`), and the process may die right after it (`Torn`). The publication
    gate serialises reservation, publication and settlement, so each is one step.
    `log` is history the program does not keep: every publication ever committed. */
module Sqlite {
  import opened Prelude
  import opened Series
  import opened Store
  import Runs = StoreRuns

  datatype Db = Db(
    points: map<string, PointSeries>,
    receipts: map<Binding, Record>,
    changes: seq<Change>,
    sequence: nat)

  /** Table sizes, as `Counts::read` measures them. */
  datatype Counts = Counts(
    points: nat, samples: nat, changes: nat, receipts: nat, dataBytes: nat, receiptBytes: nat)

  datatype Native = Native(samples: nat, receipts: nat, historyBytes: nat, receiptBytes: nat, work: nat)

  /** The native limits `SqliteConfig::validate` lets through. */
  predicate ValidNative(n: Native) {
    && 0 < n.samples <= 1_000_000 && 0 < n.receipts <= 100_000
    && 0 < n.historyBytes <= 256 * 1024 * 1024 && 0 < n.receiptBytes <= 256 * 1024 * 1024
    && 0 < n.work <= 256_000_000
  }

  /** What the theorems are about for every value of: the configured limits, the
      hash that derives a point's incarnation, the bytes a receipt retains, and
      the encoded size of the tables. */
  datatype Config = Config(
    limits: Limits,
    native: Native,
    incarnation: string -> nat,
    retained: (Binding, Request) -> nat,
    measure: Db -> Counts)

  const USIZE_MAX: nat := 0xFFFF_FFFF_FFFF_FFFF
  const MAX_SAMPLES: nat := 1024

  /** `Counts::validate`, with its checked arithmetic. */
  predicate Validates(c: Counts, native: Native, l: Limits) {
    var rows := c.points + c.samples + c.changes + c.receipts;
    var work := (c.dataBytes + c.receiptBytes) * 4 + rows * 128;
    && work <= USIZE_MAX
    && c.points <= l.points && c.samples <= native.samples && c.changes <= l.changes
    && c.receipts <= Min(l.receipts, native.receipts)
    && c.dataBytes <= native.historyBytes && c.receiptBytes <= native.receiptBytes
    && work <= native.work
  }

  predicate Fits(db: Db, cfg: Config) {
    Validates(cfg.measure(db), cfg.native, cfg.limits)
  }

  /** The projection of an open database: the live authority, unbound drafts, the
      plans holding a Pending receipt, and whether the backend sealed itself. */
  datatype Live = Live(a: Authority, drafts: set<Plan>, plans: map<Binding, Plan>, sealed: bool)

  /** `lost` says some durable row was never charged to the open projection. */
  datatype Cluster = Cluster(db: Db, live: Option<Live>, log: seq<Runs.Entry>, lost: bool)

  datatype Tx = Acked | LostAck | Aborted | Torn

  datatype Step =
    | Touch(id: string)
    | Draft(binding: Binding, request: Request)
    | Reserve(plan: Plan, extra: nat, tx: Tx)
    | ReserveEmpty(binding: Binding, request: Request, extra: nat, tx: Tx)
    | Publish(binding: Binding, reason: Reason, tx: Tx, cleanup: Tx, late: bool)
    | Reject(binding: Binding, reason: Reason, cleanup: Tx)
    | Drop(binding: Binding)
    | Crash
    | Reopen

  function Fresh(): Cluster {
    Cluster(Db(map[], map[], [], 0), None, [], false)
  }

  // ---------------------------------------------------------------- transactions

  function ReserveDb(db: Db, b: Binding, record: Record): Db {
    db.(receipts := db.receipts[b := record])
  }

  /** `DELETE FROM history_changes WHERE sequence <= floor`. */
  function Pruned(changes: seq<Change>, floor: nat): seq<Change> {
    if changes == [] then []
    else (if changes[0].sequence <= floor then [] else [changes[0]]) + Pruned(changes[1..], floor)
  }

  function PublishDb(db: Db, plan: Plan, sequence: nat, l: Limits): Db {
    Db(db.points[plan.request.identity.point := plan.next],
       if plan.binding in db.receipts
       then db.receipts[plan.binding := db.receipts[plan.binding].(outcome := Committed(PlanReceipt(plan, sequence)))]
       else db.receipts,
       Pruned(db.changes + [PlanChange(plan, sequence)], Monus(sequence, l.changes)),
       sequence)
  }

  /** The checks inside the publish transaction. */
  predicate TxReady(db: Db, plan: Plan, sequence: nat) {
    var id := plan.request.identity.point;
    && db.sequence + 1 == sequence
    && plan.binding in db.receipts && db.receipts[plan.binding].outcome.Pending?
    && (if id in db.points then db.points[id].version == plan.before else plan.before.generation == 0)
  }

  /** Settlement rejects a row that is still Pending, unless the longer envelope
      would no longer fit, and reports whatever outcome the row then has. */
  function SettleDb(db: Db, b: Binding, reason: Reason, cfg: Config): Db {
    if b in db.receipts && db.receipts[b].outcome.Pending? then
      var next := db.(receipts := db.receipts[b := db.receipts[b].(outcome := Rejected(reason))]);
      if Fits(next, cfg) then next else db
    else db
  }

  // ---------------------------------------------------------------- operations

  function Seal(c: Cluster): Cluster
    requires c.live.Some?
  {
    c.(live := Some(c.live.value.(sealed := true)))
  }

  /** `settle_locked` and the cache update that follows it. */
  function Settled(c: Cluster, b: Binding, reason: Reason, tx: Tx, cfg: Config): Cluster
    requires c.live.Some?
  {
    var db := SettleDb(c.db, b, reason, cfg);
    match tx
    case Torn => c.(db := db, live := None)
    case LostAck => Seal(c.(db := db))
    case Aborted => Seal(c)
    case Acked =>
      if b !in db.receipts || b !in c.live.value.a.receipts then Seal(c.(db := db))
      else
        var live := c.live.value;
        c.(db := db, live := Some(live.(a := Store.Settle(live.a, b, db.receipts[b].outcome))))
  }

  function Reserved(c: Cluster, b: Binding, record: Record, plan: Option<Plan>, bytes: nat, tx: Tx,
                    cfg: Config): Cluster
    requires c.live.Some?
  {
    var live := c.live.value;
    if live.sealed then c
    else
      match Bind(live.a, b, record.request, record.outcome, bytes, cfg.limits)
      case Err(_) => c
      case Ok(a) =>
        var db := ReserveDb(c.db, b, record);
        if b in c.db.receipts || !Fits(db, cfg) then c
        else
          match tx
          case Aborted => c
          case LostAck => c.(db := db, lost := true)
          case Torn => c.(db := db, live := None)
          case Acked =>
            c.(db := db,
               live := Some(live.(a := a, plans := if plan.Some? then live.plans[b := plan.value] else live.plans)))
  }

  predicate Installable(a: Authority, plan: Plan, sequence: nat) {
    && a.sequence + 1 == sequence
    && plan.request.identity.point in a.points
    && a.points[plan.request.identity.point].version == plan.before
    && plan.binding in a.receipts
  }

  /** Expose a committed publication, or seal when cleanup ran out of time. */
  function Installed(c: Cluster, plan: Plan, late: bool, cfg: Config): Cluster
    requires c.live.Some?
  {
    var live := c.live.value;
    if late || !Installable(live.a, plan, c.db.sequence) then Seal(c)
    else c.(live := Some(live.(a := Store.Publish(live.a, plan, cfg.limits))))
  }

  function PublishedPlan(c: Cluster, plan: Plan, reason: Reason, tx: Tx, cleanup: Tx, late: bool, cfg: Config): Cluster
    requires c.live.Some?
  {
    var live := c.live.value;
    if live.sealed then c
    else if !Publishable(live.a, plan) then Settled(c, plan.binding, reason, cleanup, cfg)
    else
      var sequence := live.a.sequence + 1;
      var db := PublishDb(c.db, plan, sequence, cfg.limits);
      if !TxReady(c.db, plan, sequence) || !Fits(db, cfg) || tx == Aborted
      then Settled(c, plan.binding, reason, cleanup, cfg)
      else
        var e := Runs.Entry(PlanChange(plan, sequence), Some(plan.binding), plan.request.samples);
        var d := c.(db := db, log := c.log + [e]);
        match tx
        case Torn => d.(live := None)
        case LostAck =>
          // The row is no longer Pending: settlement reads the commit back.
          if cleanup == Acked then Installed(d, plan, late, cfg)
          else if cleanup == Torn then d.(live := None)
          else Seal(d)
        case _ => Installed(d, plan, late, cfg)
  }

  function Consume(c: Cluster, b: Binding): Cluster
    requires c.live.Some?
  {
    c.(live := Some(c.live.value.(plans := c.live.value.plans - {b})))
  }

  /** What a submission may put in a plan: bounded, with supported values. */
  predicate Admissible(request: Request) {
    && request.identity.point != "" && |request.identity.point| <= 256
    && |request.samples| <= MAX_SAMPLES
    && forall i :: 0 <= i < |request.samples| ==> !request.samples[i].val.Rich?
  }

  function DoDraft(c: Cluster, b: Binding, request: Request, cfg: Config): Cluster
    requires c.live.Some?
  {
    var live := c.live.value;
    if request.identity != b.identity || !Admissible(request) || request.identity.point !in live.a.points then c
    else
      match Prepare(live.a, b, request, cfg.limits)
      case Ok(Some(plan)) => c.(live := Some(live.(drafts := live.drafts + {plan})))
      case _ => c
  }

  function DoTouch(c: Cluster, id: string, cfg: Config): Cluster
    requires c.live.Some?
  {
    if c.live.value.sealed then c
    else
      match PointIn(c.live.value.a, id, cfg.incarnation(id), cfg.limits)
      case Ok(a) => c.(live := Some(c.live.value.(a := a)))
      case Err(_) => c
  }

  function DoReserve(c: Cluster, plan: Plan, extra: nat, tx: Tx, cfg: Config): Cluster
    requires c.live.Some?
  {
    if plan !in c.live.value.drafts then c
    else
      var d := c.(live := Some(c.live.value.(drafts := c.live.value.drafts - {plan})));
      Reserved(d, plan.binding, Record(plan.request, Pending), Some(plan),
               cfg.retained(plan.binding, plan.request) + extra, tx, cfg)
  }

  function DoReserveEmpty(c: Cluster, b: Binding, request: Request, extra: nat, tx: Tx, cfg: Config): Cluster
    requires c.live.Some?
  {
    if request.identity != b.identity || request.samples != [] || !Admissible(request)
       || request.identity.incarnation != cfg.incarnation(request.identity.point) then c
    else Reserved(c, b, Record(request, Rejected(EmptyBatch)), None, cfg.retained(b, request) + extra, tx, cfg)
  }

  /** Recovery of a closed database, as `from_sqlite` leaves it when it accepts. */
  ghost function Rebuilt(db: Db, cfg: Config): Authority {
    Authority(db.points, db.receipts, Total(db.receipts, cfg.retained), db.changes, db.sequence)
  }

  /** The bytes all receipts of a table retain. */
  ghost function Total(receipts: map<Binding, Record>, retained: (Binding, Request) -> nat): nat
    decreases |receipts|
  {
    if receipts == map[] then 0
    else
      var b :| b in receipts;
      retained(b, receipts[b].request) + Total(receipts - {b}, retained)
  }

  ghost function Next(c: Cluster, step: Step, cfg: Config): Cluster {
    match (c.live, step)
    case (None, Reopen) =>
      if Recoverable(c.db, cfg)
      then c.(live := Some(Live(Rebuilt(c.db, cfg), {}, map[], false)), lost := false)
      else c
    case (None, _) => c
    case (Some(_), Reopen) => c
    case (Some(_), Crash) => c.(live := None)
    case (Some(_), Touch(id)) => DoTouch(c, id, cfg)
    case (Some(_), Draft(b, request)) => DoDraft(c, b, request, cfg)
    case (Some(_), Reserve(plan, extra, tx)) => DoReserve(c, plan, extra, tx, cfg)
    case (Some(_), ReserveEmpty(b, request, extra, tx)) => DoReserveEmpty(c, b, request, extra, tx, cfg)
    case (Some(live), Publish(b, reason, tx, cleanup, late)) =>
      if b !in live.plans then c else PublishedPlan(Consume(c, b), live.plans[b], reason, tx, cleanup, late, cfg)
    case (Some(live), Reject(b, reason, cleanup)) =>
      if b !in live.plans then c
      else if live.sealed then Consume(c, b)
      else Settled(Consume(c, b), b, reason, cleanup, cfg)
    case (Some(_), Drop(b)) => Consume(c, b)
  }

  ghost function Exec(steps: seq<Step>, cfg: Config): Cluster {
    if steps == [] then Fresh() else Next(Exec(steps[..|steps| - 1], cfg), steps[|steps| - 1], cfg)
  }

  // ---------------------------------------------------------------- the recovery checks

  predicate PointRowOk(id: string, p: PointSeries, db: Db, cfg: Config) {
    && id != "" && |id| <= 256
    && p.version.incarnation == cfg.incarnation(id)
    && 0 < p.version.generation <= db.sequence
    && Sorted(p.window.items) && |p.window.items| <= cfg.limits.items
    && forall i :: 0 <= i < |p.window.items| ==> !p.window.items[i].val.Rich?
  }

  /** What decoding one change row, and placing it after its predecessors, requires. */
  predicate ChangeRowOk(db: Db, i: nat)
    requires i < |db.changes|
  {
    var c := db.changes[i];
    && c.before.incarnation == c.after.incarnation && c.before.generation + 1 == c.after.generation
    && c.sequence > 0 && c.unique <= c.submitted
    && c.operation.Some?
    && (i > 0 ==> db.changes[i - 1].sequence + 1 == c.sequence)
    && c.point in db.points
    && c.after.incarnation == db.points[c.point].version.incarnation
    && c.after.generation <= db.points[c.point].version.generation
  }

  /** No change of the point of `changes[i]` lies strictly between `i` and `j`. */
  predicate Quiet(changes: seq<Change>, i: nat, j: nat)
    requires i < |changes| && j <= |changes|
  {
    forall k :: i < k < j ==> changes[k].point != changes[i].point
  }

  /** Two neighbouring changes of one point chain. */
  predicate ChainOk(changes: seq<Change>, i: nat, j: nat)
    requires i < j < |changes|
  {
    changes[i].point == changes[j].point && Quiet(changes, i, j) ==> changes[i].after == changes[j].before
  }

  /** The newest retained change of a point describes the point. */
  predicate NewestOk(db: Db, i: nat)
    requires i < |db.changes|
  {
    var c := db.changes[i];
    c.point in db.points && Quiet(db.changes, i, |db.changes|) ==>
      && c.after.generation == db.points[c.point].version.generation
      && c.retained == |db.points[c.point].window.items|
      && c.evictedThrough == db.points[c.point].window.evicted
  }

  predicate ReceiptValid(r: Receipt, request: Request) {
    && r.before + 1 == r.after && r.sequence > 0
    && 0 < r.submitted <= MAX_SAMPLES && 0 < r.unique <= r.submitted
    && 0 < r.retained <= 1_000_000 && r.evicted <= 1_000_000 + MAX_SAMPLES
    && r.before == request.expected && r.submitted == |request.samples|
    && r.unique == |ToMap(request.samples)|
  }

  predicate ReceiptMatches(r: Receipt, identity: Identity, c: Change) {
    && c.operation == Some(identity)
    && c.before.generation == r.before && c.after.generation == r.after
    && c.submitted == r.submitted && c.unique == r.unique
    && c.retained == r.retained && c.evicted == r.evicted
  }

  /** The ledger position a receipt's sequence falls on, if still retained. */
  function LedgerIndex(db: Db, r: Receipt): Option<nat> {
    if db.changes != [] && r.sequence >= db.changes[0].sequence
    then Some(r.sequence - db.changes[0].sequence) else None
  }

  predicate ReceiptRowOk(db: Db, b: Binding, cfg: Config)
    requires b in db.receipts
  {
    var record := db.receipts[b];
    && record.request.identity == b.identity
    && b.identity.incarnation == cfg.incarnation(b.identity.point)
    && (record.outcome.Committed? ==>
          var r := record.outcome.receipt;
          && ReceiptValid(r, record.request)
          && b.identity.point in db.points
          && var p := db.points[b.identity.point];
             && r.sequence <= db.sequence
             && r.after <= p.version.generation
             && (r.after == p.version.generation ==> r.retained == |p.window.items|)
             && match LedgerIndex(db, r)
                case None => true
                case Some(i) => i < |db.changes| && ReceiptMatches(r, b.identity, db.changes[i]))
  }

  /** Which point tip, and which ledger entry, a receipt proves. */
  function TipProved(db: Db, b: Binding): Option<string>
    requires b in db.receipts
  {
    var o := db.receipts[b].outcome;
    if o.Committed? && b.identity.point in db.points
       && o.receipt.after == db.points[b.identity.point].version.generation
    then Some(b.identity.point) else None
  }

  function ChangeProved(db: Db, b: Binding): Option<nat>
    requires b in db.receipts
  {
    var o := db.receipts[b].outcome;
    if o.Committed? then LedgerIndex(db, o.receipt) else None
  }

  ghost predicate ProofsDistinct(db: Db) {
    forall b, c :: b in db.receipts && c in db.receipts && b != c ==>
      && (TipProved(db, b).Some? ==> TipProved(db, b) != TipProved(db, c))
      && (ChangeProved(db, b).Some? ==> ChangeProved(db, b) != ChangeProved(db, c))
  }

  ghost predicate TipHasProof(db: Db, id: string) {
    exists b :: b in db.receipts && TipProved(db, b) == Some(id)
  }

  ghost predicate ChangeHasProof(db: Db, i: nat) {
    exists b :: b in db.receipts && ChangeProved(db, b) == Some(i)
  }

  ghost predicate AllProved(db: Db) {
    && (forall id :: id in db.points ==> TipHasProof(db, id))
    && (forall i :: 0 <= i < |db.changes| ==> ChangeHasProof(db, i))
  }

  /** Every retained change and every point tip is proven by exactly one receipt. */
  ghost predicate Proofs(db: Db) {
    ProofsDistinct(db) && AllProved(db)
  }

  /** Everything `from_sqlite` demands except the receipt byte limit. */
  ghost predicate Sound(db: Db, cfg: Config) {
    && Fits(db, cfg)
    && (forall id :: id in db.points ==> PointRowOk(id, db.points[id], db, cfg))
    && (forall i :: 0 <= i < |db.changes| ==> ChangeRowOk(db, i) && NewestOk(db, i))
    && (forall i, j :: 0 <= i < j < |db.changes| ==> ChainOk(db.changes, i, j))
    && (if db.changes == [] then 0 else db.changes[|db.changes| - 1].sequence) == db.sequence
    && (forall b :: b in db.receipts ==> ReceiptRowOk(db, b, cfg))
    && Proofs(db)
  }

  ghost predicate Recoverable(db: Db, cfg: Config) {
    Sound(db, cfg) && Total(db.receipts, cfg.retained) <= cfg.limits.receiptBytes
  }
}
