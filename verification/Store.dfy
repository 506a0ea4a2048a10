/** The in-memory history authority: points, bound receipts, the bounded change
    ledger, and the compare-and-swap publication of prepared plans.

    `Authority` is the lock-guarded state, and each function below is one critical
    section. `HisStore` is the same state as an object, its methods proved to take
    exactly those steps. `StoreRuns` reasons about every interleaving of them. */
module Store {
  import opened Prelude
  import opened Series

  /** A point's (incarnation, generation), what a publication compares and swaps. */
  datatype Version = Version(incarnation: nat, generation: nat)

  datatype PointSeries = PointSeries(version: Version, window: Window)

  datatype Identity = Identity(point: string, incarnation: nat, operation: string)

  datatype Binding = Binding(principal: string, identity: Identity)

  datatype Request = Request(identity: Identity, expected: nat, samples: seq<Item>)

  datatype Receipt = Receipt(
    before: nat, after: nat, sequence: nat,
    submitted: nat, unique: nat, retained: nat, evicted: nat)

  datatype Reason = EmptyBatch | Conflict | Limit | Capacity | Provider | Stopped

  datatype Outcome = Pending | Committed(receipt: Receipt) | Rejected(reason: Reason)

  datatype Record = Record(request: Request, outcome: Outcome)

  datatype Change = Change(
    sequence: nat, point: string, before: Version, after: Version,
    submitted: nat, unique: nat, retained: nat, evicted: nat,
    evictedThrough: Option<int>, operation: Option<Identity>)

  datatype Authority = Authority(
    points: map<string, PointSeries>,
    receipts: map<Binding, Record>,
    receiptBytes: nat,
    changes: seq<Change>,
    sequence: nat)

  datatype Limits = Limits(
    items: nat, points: nat, receipts: nat, receiptBytes: nat, changes: nat)

  predicate ValidLimits(l: Limits) {
    && 0 < l.items <= 1_000_000 && 0 < l.points <= 100_000
    && 0 < l.receipts <= 100_000 && 0 < l.receiptBytes <= 256 * 1024 * 1024
    && 0 < l.changes <= 100_000
  }

  datatype ProviderError = LimitReached | Exhausted

  /** A prepared publication: the series it observed and the one it would install. */
  datatype Plan = Plan(
    binding: Binding, request: Request, before: Version,
    next: PointSeries, unique: nat, evicted: nat)

  function Empty(): Authority {
    Authority(map[], map[], 0, [], 0)
  }

  function EmptyWindow(): Window {
    Window([], None)
  }

  // ---------------------------------------------------------------- critical sections

  /** Find or create a point; a created point takes a freshly minted incarnation. */
  function PointIn(a: Authority, id: string, nonce: nat, l: Limits): Result<Authority, ProviderError> {
    if id == "" || |id| > 256 then Err(LimitReached)
    else if id in a.points then Ok(a)
    else if |a.points| >= l.points then Err(LimitReached)
    else Ok(a.(points := a.points[id := PointSeries(Version(nonce, 0), EmptyWindow())]))
  }

  function Appended(changes: seq<Change>, change: Change, capacity: nat): seq<Change> {
    (if |changes| == capacity && changes != [] then changes[1..] else changes) + [change]
  }

  /** Install a series and its change together. */
  function Commit(a: Authority, id: string, next: PointSeries, change: Change, l: Limits): Authority {
    a.(points := a.points[id := next],
       changes := Appended(a.changes, change, l.changes),
       sequence := change.sequence)
  }

  function NextVersion(v: Version): Version {
    Version(v.incarnation, v.generation + 1)
  }

  function WriteChange(a: Authority, id: string, batch: seq<Item>, l: Limits): Change
    requires id in a.points
  {
    var p := a.points[id];
    var w := Apply(p.window, batch, l.items);
    Change(a.sequence + 1, id, p.version, NextVersion(p.version),
           |batch|, |ToMap(batch)|, |w.items|, Excess(InsertAll(p.window.items, batch), l.items), w.evicted, None)
  }

  /** The trusted native write. */
  function NativeWrite(a: Authority, id: string, batch: seq<Item>, nonce: nat, l: Limits)
    : Result<Authority, ProviderError>
  {
    if batch == [] then Ok(a)
    else if a.sequence + 1 > U64_MAX then Err(Exhausted)
    else
      match PointIn(a, id, nonce, l)
      case Err(e) => Err(e)
      case Ok(b) =>
        var p := b.points[id];
        if p.version.generation + 1 > U64_MAX then Err(Exhausted)
        else Ok(Commit(b, id,
                       PointSeries(NextVersion(p.version), Apply(p.window, batch, l.items)),
                       WriteChange(b, id, batch, l), l))
  }

  function ResetChange(a: Authority, id: string, next: nat): Change
    requires id in a.points
  {
    var p := a.points[id];
    var items := p.window.items;
    Change(a.sequence + 1, id, p.version, Version(next, 0), 0, 0, 0, |items|,
           if items == [] then None else Some(items[|items| - 1].ts), None)
  }

  /** The trusted reset: the same point under a newly minted incarnation. */
  function Reset(a: Authority, id: string, nonce: nat, next: nat, l: Limits): Result<Authority, ProviderError> {
    if a.sequence + 1 > U64_MAX then Err(Exhausted)
    else
      match PointIn(a, id, nonce, l)
      case Err(e) => Err(e)
      case Ok(b) => Ok(Commit(b, id, PointSeries(Version(next, 0), EmptyWindow()), ResetChange(b, id, next), l))
  }

  /** `prepare`: snapshot the series, check what the request expects, compute the next one. */
  function Prepare(a: Authority, b: Binding, request: Request, l: Limits): Result<Option<Plan>, Reason>
    requires request.identity.point in a.points
  {
    var p := a.points[request.identity.point];
    if p.version != Version(request.identity.incarnation, request.expected) then Err(Conflict)
    else if request.samples == [] then Ok(None)
    else if p.version.generation + 1 > U64_MAX then Err(Limit)
    else Ok(Some(Plan(b, request, p.version,
                      PointSeries(NextVersion(p.version), Apply(p.window, request.samples, l.items)),
                      |ToMap(request.samples)|,
                      Excess(InsertAll(p.window.items, request.samples), l.items))))
  }

  /** Bind an operation identity to its receipt, unless it is already bound or full. */
  function Bind(a: Authority, b: Binding, request: Request, outcome: Outcome, bytes: nat, l: Limits)
    : Result<Authority, Reason>
  {
    if b in a.receipts then Err(Conflict)
    else if |a.receipts| >= l.receipts || bytes > Monus(l.receiptBytes, a.receiptBytes) then Err(Capacity)
    else Ok(a.(receipts := a.receipts[b := Record(request, outcome)], receiptBytes := a.receiptBytes + bytes))
  }

  function PlanChange(plan: Plan, sequence: nat): Change {
    Change(sequence, plan.request.identity.point, plan.before, plan.next.version,
           |plan.request.samples|, plan.unique, |plan.next.window.items|, plan.evicted,
           plan.next.window.evicted, Some(plan.request.identity))
  }

  function PlanReceipt(plan: Plan, sequence: nat): Receipt {
    Receipt(plan.before.generation, plan.next.version.generation, sequence,
            |plan.request.samples|, plan.unique, |plan.next.window.items|, plan.evicted)
  }

  /** The publication's checks under the graph, authority and point locks. */
  predicate Publishable(a: Authority, plan: Plan) {
    && plan.request.identity.point in a.points
    && a.points[plan.request.identity.point].version == plan.before
    && a.sequence + 1 <= U64_MAX
    && plan.binding in a.receipts
    && a.receipts[plan.binding].outcome.Pending?
  }

  function Settle(a: Authority, b: Binding, outcome: Outcome): Authority {
    if b in a.receipts then a.(receipts := a.receipts[b := a.receipts[b].(outcome := outcome)]) else a
  }

  /** Series, ledger and receipt become authoritative together. */
  function Publish(a: Authority, plan: Plan, l: Limits): Authority {
    Settle(Commit(a, plan.request.identity.point, plan.next, PlanChange(plan, a.sequence + 1), l),
           plan.binding, Committed(PlanReceipt(plan, a.sequence + 1)))
  }

  // ---------------------------------------------------------------- the store as an object

  class HisStore {
    const limits: Limits
    var points: map<string, PointSeries>
    var receipts: map<Binding, Record>
    var receiptBytes: nat
    var changes: seq<Change>
    var sequence: nat

    ghost function State(): Authority
      reads this
    {
      Authority(points, receipts, receiptBytes, changes, sequence)
    }

    ghost predicate Ordered()
      reads this
    {
      forall id :: id in points ==> Sorted(points[id].window.items)
    }

    constructor (l: Limits)
      requires ValidLimits(l)
      ensures limits == l && State() == Empty() && Ordered()
    {
      limits := l;
      points := map[];
      receipts := map[];
      receiptBytes := 0;
      changes := [];
      sequence := 0;
    }

    method PointInPlace(id: string, nonce: nat) returns (r: Result<PointSeries, ProviderError>)
      modifies this
      ensures match PointIn(old(State()), id, nonce, limits)
              case Err(e) => r == Err(e) && State() == old(State())
              case Ok(a) => State() == a && id in points && r == Ok(points[id])
      ensures old(Ordered()) ==> Ordered()
    {
      if id == "" || |id| > 256 {
        return Err(LimitReached);
      }
      if id !in points {
        if |points| >= limits.points {
          return Err(LimitReached);
        }
        points := points[id := PointSeries(Version(nonce, 0), Window([], None))];
      }
      r := Ok(points[id]);
    }

    method AppendChange(change: Change)
      modifies this`changes, this`sequence
      ensures changes == Appended(old(changes), change, limits.changes)
      ensures sequence == change.sequence
    {
      if |changes| == limits.changes && changes != [] {
        changes := changes[1..];
      }
      sequence := change.sequence;
      changes := changes + [change];
    }

    /** The native write. When the series cannot reserve room, nothing is written, but a
        point that had to be created stays. */
    method Write(id: string, items: seq<Item>, nonce: nat, reserves: bool) returns (r: Result<(), ProviderError>)
      requires Ordered()
      modifies this
      ensures Ordered()
      ensures match NativeWrite(old(State()), id, items, nonce, limits)
              case Err(e) => r == Err(e) && State() == old(State())
              case Ok(a) =>
                if reserves || items == [] then r.Ok? && State() == a
                else r == Err(LimitReached) && Ok(State()) == PointIn(old(State()), id, nonce, limits)
    {
      if items == [] {
        return Ok(());
      }
      if sequence + 1 > U64_MAX {
        return Err(Exhausted);
      }
      ghost var before := State();
      var point := PointInPlace(id, nonce);
      if point.Err? {
        return Err(point.error);
      }
      if point.value.version.generation + 1 > U64_MAX {
        NewPointNotExhausted(before, id, nonce, limits);
        return Err(Exhausted);
      }
      if !reserves {
        return Err(LimitReached);
      }
      InstallWrite(id, items);
      r := Ok(());
    }

    method InstallWrite(id: string, items: seq<Item>)
      requires Ordered() && id in points
      modifies this`points, this`changes, this`sequence
      ensures Ordered()
      ensures var a := old(State()); var p := a.points[id];
        State() == Commit(a, id, PointSeries(NextVersion(p.version), Apply(p.window, items, limits.items)),
                          WriteChange(a, id, items, limits), limits)
    {
      var series := points[id];
      var next, unique, evicted := NativeNext(series.window, items, limits.items);
      ApplySorted(series.window, items, limits.items);
      var version := Version(series.version.incarnation, series.version.generation + 1);
      points := points[id := PointSeries(version, next)];
      AppendChange(Change(sequence + 1, id, series.version, version, |items|, unique, |next.items|,
                          evicted, next.evicted, None));
    }

    method ResetPoint(id: string, nonce: nat, minted: nat) returns (r: Result<Version, ProviderError>)
      requires Ordered()
      modifies this
      ensures Ordered()
      ensures match Reset(old(State()), id, nonce, minted, limits)
              case Err(e) => r == Err(e) && State() == old(State())
              case Ok(a) => r == Ok(Version(minted, 0)) && State() == a
    {
      if sequence + 1 > U64_MAX {
        return Err(Exhausted);
      }
      var point := PointInPlace(id, nonce);
      if point.Err? {
        return Err(point.error);
      }
      var items := point.value.window.items;
      var through := if items == [] then None else Some(items[|items| - 1].ts);
      points := points[id := PointSeries(Version(minted, 0), Window([], None))];
      AppendChange(Change(sequence + 1, id, point.value.version, Version(minted, 0), 0, 0, 0, |items|, through, None));
      r := Ok(Version(minted, 0));
    }

    /** The snapshot half of a submission: read one series, merge, build the plan. */
    method PrepareSubmission(b: Binding, request: Request) returns (r: Result<Option<Plan>, Reason>)
      requires Ordered() && request.identity.point in points
      ensures r == Prepare(State(), b, request, limits)
    {
      var series := points[request.identity.point];
      if series.version.incarnation != request.identity.incarnation || series.version.generation != request.expected {
        return Err(Conflict);
      }
      if request.samples == [] {
        return Ok(None);
      }
      if series.version.generation + 1 > U64_MAX {
        return Err(Limit);
      }
      var next, unique, evicted := PrepareNext(series.window, request.samples, limits.items);
      var version := Version(series.version.incarnation, series.version.generation + 1);
      r := Ok(Some(Plan(b, request, series.version, PointSeries(version, next), unique, evicted)));
    }

    method BindReceipt(b: Binding, request: Request, outcome: Outcome, bytes: nat) returns (r: Result<(), Reason>)
      modifies this`receipts, this`receiptBytes
      ensures match Bind(old(State()), b, request, outcome, bytes, limits)
              case Err(e) => r == Err(e) && State() == old(State())
              case Ok(a) => r.Ok? && State() == a
    {
      if b in receipts {
        return Err(Conflict);
      }
      if |receipts| >= limits.receipts || bytes > Monus(limits.receiptBytes, receiptBytes) {
        return Err(Capacity);
      }
      receipts := receipts[b := Record(request, outcome)];
      receiptBytes := receiptBytes + bytes;
      r := Ok(());
    }

    method PublishPlan(plan: Plan) returns (r: Outcome)
      requires Ordered() && Sorted(plan.next.window.items)
      modifies this
      ensures Ordered()
      ensures old(Publishable(State(), plan)) ==>
                State() == Publish(old(State()), plan, limits) && r == Committed(PlanReceipt(plan, old(sequence) + 1))
      ensures !old(Publishable(State(), plan)) ==>
                State() == Settle(old(State()), plan.binding, r) && (r == Rejected(Conflict) || r == Rejected(Limit))
    {
      var id := plan.request.identity.point;
      if id !in points || points[id].version != plan.before {
        r := RejectPlan(plan, Conflict);
        return;
      }
      if sequence + 1 > U64_MAX {
        r := RejectPlan(plan, Limit);
        return;
      }
      if plan.binding !in receipts || !receipts[plan.binding].outcome.Pending? {
        r := RejectPlan(plan, Conflict);
        return;
      }
      r := Committed(PlanReceipt(plan, sequence + 1));
      points := points[id := plan.next];
      AppendChange(PlanChange(plan, sequence + 1));
      receipts := receipts[plan.binding := receipts[plan.binding].(outcome := r)];
    }

    /** A rejection is written whatever the previous outcome: only the holder of the one
        plan for a Pending receipt can get here. */
    method RejectPlan(plan: Plan, reason: Reason) returns (r: Outcome)
      modifies this`receipts
      ensures r == Rejected(reason) && State() == Settle(old(State()), plan.binding, r)
    {
      r := Rejected(reason);
      if plan.binding in receipts {
        receipts := receipts[plan.binding := receipts[plan.binding].(outcome := r)];
      }
    }
  }

  /** A failed native write leaves nothing behind: a point it had to create has
      generation zero, so the exhausted branch only meets existing points. */
  lemma NewPointNotExhausted(a: Authority, id: string, nonce: nat, l: Limits)
    requires PointIn(a, id, nonce, l).Ok?
    ensures PointIn(a, id, nonce, l).value.points[id].version.generation + 1 > U64_MAX ==>
      PointIn(a, id, nonce, l) == Ok(a)
  {
  }
}
