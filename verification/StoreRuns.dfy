/** Every interleaving of native writes, resets, submissions, delayed plans,
    publications, rejections and dropped plans over one in-memory authority.

    A submission prepares its plan and binds its receipt in separate critical
    sections, so any number of drafts for one operation may coexist; binding
    admits one of them. `log` and `seen` are history the program does not keep:
    every change ever made, and what each (point, version) ever held. */
module StoreRuns {
  import opened Prelude
  import opened Series
  import opened Store

  datatype Key = Key(point: string, version: Version)

  datatype Entry = Entry(change: Change, binding: Option<Binding>, batch: seq<Item>)

  datatype System = System(
    a: Authority,
    drafts: set<Plan>,
    plans: map<Binding, Plan>,
    log: seq<Entry>,
    seen: map<Key, Window>,
    minted: set<nat>)

  datatype Step =
    | Touch(id: string, nonce: nat)
    | WriteItems(id: string, batch: seq<Item>, nonce: nat)
    | ResetPoint(id: string, nonce: nat, next: nat)
    | Draft(binding: Binding, request: Request)
    | BindDraft(plan: Plan, bytes: nat)
    | BindEmpty(binding: Binding, request: Request, bytes: nat)
    | PublishPlan(binding: Binding)
    | RejectPlan(binding: Binding, reason: Reason)
    | DropPlan(binding: Binding)

  function Start(): System {
    System(Empty(), {}, map[], [], map[], {})
  }

  // ---------------------------------------------------------------- steps

  function Touched(s: System, id: string, nonce: nat, l: Limits): System {
    match PointIn(s.a, id, nonce, l)
    case Err(_) => s
    case Ok(a) =>
      if id in s.a.points then s
      else s.(a := a, seen := s.seen[Key(id, Version(nonce, 0)) := EmptyWindow()], minted := s.minted + {nonce})
  }

  function Changed(s: System, id: string, next: PointSeries, e: Entry, l: Limits): System {
    s.(a := Commit(s.a, id, next, e.change, l),
       log := s.log + [e],
       seen := s.seen[Key(id, next.version) := next.window],
       minted := s.minted + {next.version.incarnation})
  }

  function Wrote(s: System, id: string, batch: seq<Item>, nonce: nat, l: Limits): System {
    var t := Touched(s, id, nonce, l);
    if batch == [] || s.a.sequence + 1 > U64_MAX || id == "" || |id| > 256 || id !in t.a.points
       || t.a.points[id].version.generation + 1 > U64_MAX then s
    else
      var p := t.a.points[id];
      Changed(t, id, PointSeries(NextVersion(p.version), Apply(p.window, batch, l.items)),
              Entry(WriteChange(t.a, id, batch, l), None, batch), l)
  }

  function WasReset(s: System, id: string, nonce: nat, next: nat, l: Limits): System {
    var t := Touched(s, id, nonce, l);
    if s.a.sequence + 1 > U64_MAX || id == "" || |id| > 256 || id !in t.a.points then s
    else Changed(t, id, PointSeries(Version(next, 0), EmptyWindow()), Entry(ResetChange(t.a, id, next), None, []), l)
  }

  function Drafted(s: System, b: Binding, request: Request, l: Limits): System {
    if request.identity != b.identity || request.identity.point !in s.a.points then s
    else
      match Prepare(s.a, b, request, l)
      case Ok(Some(plan)) => s.(drafts := s.drafts + {plan})
      case _ => s
  }

  function Bound(s: System, plan: Plan, bytes: nat, l: Limits): System {
    if plan !in s.drafts then s
    else
      match Bind(s.a, plan.binding, plan.request, Pending, bytes, l)
      case Err(_) => s.(drafts := s.drafts - {plan})
      case Ok(a) => s.(a := a, drafts := s.drafts - {plan}, plans := s.plans[plan.binding := plan])
  }

  function BoundEmpty(s: System, b: Binding, request: Request, bytes: nat, l: Limits): System {
    if request.identity != b.identity || request.samples != [] then s
    else
      match Bind(s.a, b, request, Rejected(EmptyBatch), bytes, l)
      case Err(_) => s
      case Ok(a) => s.(a := a)
  }

  /** On success the plan is consumed; a refused publication keeps it for the
      rejection the same caller performs next. */
  function Published(s: System, b: Binding, l: Limits): System {
    if b !in s.plans || !Publishable(s.a, s.plans[b]) then s
    else
      var plan := s.plans[b];
      var e := Entry(PlanChange(plan, s.a.sequence + 1), Some(b), plan.request.samples);
      var t := Changed(s, plan.request.identity.point, plan.next, e, l);
      t.(a := Publish(s.a, plan, l), plans := s.plans - {b})
  }

  function RejectedPlan(s: System, b: Binding, reason: Reason): System {
    if b !in s.plans then s
    else s.(a := Settle(s.a, b, Rejected(reason)), plans := s.plans - {b})
  }

  function Next(s: System, step: Step, l: Limits): System {
    match step
    case Touch(id, nonce) => Touched(s, id, nonce, l)
    case WriteItems(id, batch, nonce) => Wrote(s, id, batch, nonce, l)
    case ResetPoint(id, nonce, next) => WasReset(s, id, nonce, next, l)
    case Draft(b, request) => Drafted(s, b, request, l)
    case BindDraft(plan, bytes) => Bound(s, plan, bytes, l)
    case BindEmpty(b, request, bytes) => BoundEmpty(s, b, request, bytes, l)
    case PublishPlan(b) => Published(s, b, l)
    case RejectPlan(b, reason) => RejectedPlan(s, b, reason)
    case DropPlan(b) => s.(plans := s.plans - {b})
  }

  /** Random 16-byte identities are modelled as never repeating. */
  predicate Unminted(s: System, step: Step) {
    match step
    case Touch(_, nonce) => nonce !in s.minted
    case WriteItems(_, _, nonce) => nonce !in s.minted
    case ResetPoint(_, nonce, next) => nonce !in s.minted && next !in s.minted && nonce != next
    case _ => true
  }

  function Exec(steps: seq<Step>, l: Limits): System {
    if steps == [] then Start() else Next(Exec(steps[..|steps| - 1], l), steps[|steps| - 1], l)
  }

  ghost predicate Legal(steps: seq<Step>, l: Limits) {
    forall i :: 0 <= i < |steps| ==> Unminted(Exec(steps[..i], l), steps[i])
  }

  // ---------------------------------------------------------------- invariant

  /** Each version of a point names one content, and no version is ever reused. */
  ghost predicate Contents(points: map<string, PointSeries>, seen: map<Key, Window>, minted: set<nat>) {
    && (forall id :: id in points ==>
          var k := Key(id, points[id].version);
          k in seen && seen[k] == points[id].window)
    && (forall k :: k in seen ==>
          && k.point in points
          && k.version.incarnation in minted
          && Sorted(seen[k].items)
          && (k.version.incarnation == points[k.point].version.incarnation ==>
                k.version.generation <= points[k.point].version.generation))
  }

  /** A plan was computed from the recorded content of the version it compares. */
  ghost predicate PlanOk(seen: map<Key, Window>, plan: Plan, l: Limits) {
    var k := Key(plan.request.identity.point, plan.before);
    && k in seen
    && plan.before == Version(plan.request.identity.incarnation, plan.request.expected)
    && plan.binding.identity == plan.request.identity
    && plan.request.samples != []
    && plan.next == PointSeries(NextVersion(plan.before), Apply(seen[k], plan.request.samples, l.items))
    && plan.unique == |ToMap(plan.request.samples)|
    && plan.evicted == Excess(InsertAll(seen[k].items, plan.request.samples), l.items)
  }

  ghost predicate Drafts(drafts: set<Plan>, seen: map<Key, Window>, l: Limits) {
    forall plan :: plan in drafts ==> PlanOk(seen, plan, l)
  }

  ghost predicate Plans(plans: map<Binding, Plan>, receipts: map<Binding, Record>, seen: map<Key, Window>, l: Limits) {
    forall b :: b in plans ==>
      && PlanOk(seen, plans[b], l)
      && plans[b].binding == b
      && b in receipts
      && receipts[b] == Record(plans[b].request, Pending)
  }

  function Tail(log: seq<Entry>, capacity: nat): seq<Change> {
    var from := Monus(|log|, capacity);
    seq(|log| - from, i requires 0 <= i < |log| - from => log[from + i].change)
  }

  ghost predicate Ledger(log: seq<Entry>, changes: seq<Change>, sequence: nat, l: Limits) {
    && |log| == sequence
    && (forall i :: 0 <= i < |log| ==> log[i].change.sequence == i + 1)
    && changes == Tail(log, l.changes)
  }

  /** The version the first `n` changes left a point at. */
  function LastAfter(log: seq<Entry>, n: nat, id: string): Option<Version>
    requires n <= |log|
  {
    if n == 0 then None
    else if log[n - 1].change.point == id then Some(log[n - 1].change.after)
    else LastAfter(log, n - 1, id)
  }

  predicate Follows(last: Option<Version>, v: Version) {
    match last
    case None => v.generation == 0
    case Some(u) => u == v
  }

  ghost predicate Chained(log: seq<Entry>, points: map<string, PointSeries>) {
    && (forall i :: 0 <= i < |log| ==> Follows(LastAfter(log, i, log[i].change.point), log[i].change.before))
    && (forall i :: 0 <= i < |log| ==> log[i].change.point in points)
    && (forall id :: id in points ==> Follows(LastAfter(log, |log|, id), points[id].version))
  }

  /** A change is its batch applied to the content it names, or a reset. */
  ghost predicate EffectOk(seen: map<Key, Window>, e: Entry, l: Limits) {
    var before, after := Key(e.change.point, e.change.before), Key(e.change.point, e.change.after);
    && before in seen && after in seen
    && (if e.change.after.generation == 0 then e.binding.None? && seen[after] == EmptyWindow()
        else after.version == NextVersion(before.version) && seen[after] == Apply(seen[before], e.batch, l.items))
  }

  ghost predicate Effects(log: seq<Entry>, seen: map<Key, Window>, l: Limits) {
    forall i :: 0 <= i < |log| ==> EffectOk(seen, log[i], l)
  }

  /** A receipt says Committed exactly when its operation stands in the log, once,
      where the receipt says, with the receipt's request. */
  ghost predicate Once(log: seq<Entry>, receipts: map<Binding, Record>) {
    && (forall i :: 0 <= i < |log| && log[i].binding.Some? ==>
          var b := log[i].binding.value;
          && b in receipts
          && receipts[b].outcome.Committed?
          && receipts[b].outcome.receipt.sequence == i + 1
          && receipts[b].request.samples == log[i].batch
          && receipts[b].request.identity.point == log[i].change.point)
    && (forall b :: b in receipts && receipts[b].outcome.Committed? ==>
          var n := receipts[b].outcome.receipt.sequence;
          1 <= n <= |log| && log[n - 1].binding == Some(b))
  }

  ghost predicate Within(a: Authority, l: Limits) {
    && |a.points| <= l.points && |a.receipts| <= l.receipts
    && a.receiptBytes <= l.receiptBytes && a.sequence <= U64_MAX
  }

  ghost predicate Inv(s: System, l: Limits) {
    && Contents(s.a.points, s.seen, s.minted)
    && Drafts(s.drafts, s.seen, l)
    && Plans(s.plans, s.a.receipts, s.seen, l)
    && Ledger(s.log, s.a.changes, s.a.sequence, l)
    && Chained(s.log, s.a.points)
    && Effects(s.log, s.seen, l)
    && Once(s.log, s.a.receipts)
    && Within(s.a, l)
  }

  // ---------------------------------------------------------------- preservation

  /** `seen` only gains new versions, so nothing said about old ones changes. */
  ghost predicate Grows(seen: map<Key, Window>, seen': map<Key, Window>) {
    forall k :: k in seen ==> k in seen' && seen'[k] == seen[k]
  }

  lemma GrownPlans(s: System, seen': map<Key, Window>, l: Limits)
    requires Grows(s.seen, seen') && Drafts(s.drafts, s.seen, l) && Plans(s.plans, s.a.receipts, s.seen, l)
    ensures Drafts(s.drafts, seen', l) && Plans(s.plans, s.a.receipts, seen', l)
  {
    hide Apply, InsertAll, ToMap;
    assert forall plan :: PlanOk(s.seen, plan, l) ==> PlanOk(seen', plan, l);
  }

  lemma GrownEffects(log: seq<Entry>, seen: map<Key, Window>, seen': map<Key, Window>, l: Limits)
    requires Grows(seen, seen') && Effects(log, seen, l)
    ensures Effects(log, seen', l)
  {
    hide Apply;
  }

  lemma {:induction false} NotLogged(log: seq<Entry>, n: nat, id: string)
    requires n <= |log| && forall i :: 0 <= i < |log| ==> log[i].change.point != id
    ensures LastAfter(log, n, id) == None
  {
    if n > 0 {
      NotLogged(log, n - 1, id);
    }
  }

  lemma {:induction false} LastAfterAppend(log: seq<Entry>, e: Entry, n: nat, id: string)
    requires n <= |log|
    ensures LastAfter(log + [e], n, id) == LastAfter(log, n, id)
  {
    if n > 0 {
      LastAfterAppend(log, e, n - 1, id);
    }
  }

  lemma TouchContents(points: map<string, PointSeries>, seen: map<Key, Window>, minted: set<nat>, id: string,
                      nonce: nat)
    requires Contents(points, seen, minted) && id !in points && nonce !in minted
    ensures var k := Key(id, Version(nonce, 0));
      && k !in seen
      && Contents(points[id := PointSeries(k.version, EmptyWindow())], seen[k := EmptyWindow()], minted + {nonce})
  {
  }

  lemma TouchChained(log: seq<Entry>, points: map<string, PointSeries>, id: string, p: PointSeries)
    requires Chained(log, points) && id !in points && p.version.generation == 0
    ensures Chained(log, points[id := p])
  {
    NotLogged(log, |log|, id);
  }

  lemma TouchKeeps(s: System, id: string, nonce: nat, l: Limits)
    requires Inv(s, l) && nonce !in s.minted
    ensures Inv(Touched(s, id, nonce, l), l)
  {
    hide Contents, Drafts, Plans, Ledger, Chained, Effects, Once;
    var t := Touched(s, id, nonce, l);
    if t != s {
      TouchContents(s.a.points, s.seen, s.minted, id, nonce);
      TouchChained(s.log, s.a.points, id, PointSeries(Version(nonce, 0), EmptyWindow()));
      GrownPlans(s, t.seen, l);
      GrownEffects(s.log, s.seen, t.seen, l);
      assert t.a.points.Keys == s.a.points.Keys + {id};
    }
  }

  /** What a change must satisfy to be recorded over `s`. */
  ghost predicate Recordable(s: System, id: string, next: PointSeries, e: Entry, l: Limits) {
    && id in s.a.points
    && e.change.point == id && e.change.sequence == s.a.sequence + 1 <= U64_MAX
    && e.change.before == s.a.points[id].version && e.change.after == next.version
    && Key(id, next.version) !in s.seen
    && Sorted(next.window.items)
    && (if next.version.generation == 0 then
          e.binding.None? && next.window == EmptyWindow() && next.version.incarnation !in s.minted
        else
          && next.version == NextVersion(s.a.points[id].version)
          && next.window == Apply(s.a.points[id].window, e.batch, l.items))
  }

  lemma ChangedContents(s: System, id: string, next: PointSeries, e: Entry, l: Limits)
    requires Contents(s.a.points, s.seen, s.minted) && Recordable(s, id, next, e, l)
    ensures var t := Changed(s, id, next, e, l); Contents(t.a.points, t.seen, t.minted)
  {
    hide Apply;
  }

  lemma ChangedLedger(log: seq<Entry>, changes: seq<Change>, sequence: nat, e: Entry, l: Limits)
    requires Ledger(log, changes, sequence, l) && e.change.sequence == sequence + 1 && l.changes > 0
    ensures Ledger(log + [e], Appended(changes, e.change, l.changes), sequence + 1, l)
  {
    assert Appended(changes, e.change, l.changes) == Tail(log + [e], l.changes);
  }

  lemma ChainedAt(log: seq<Entry>, points: map<string, PointSeries>, e: Entry, i: nat)
    requires Chained(log, points) && e.change.point in points && i <= |log|
    requires e.change.before == points[e.change.point].version
    ensures Follows(LastAfter(log + [e], i, (log + [e])[i].change.point), (log + [e])[i].change.before)
  {
    LastAfterAppend(log, e, i, (log + [e])[i].change.point);
  }

  lemma TipAt(log: seq<Entry>, points: map<string, PointSeries>, e: Entry, p: string)
    requires Chained(log, points) && p in points
    ensures Follows(LastAfter(log + [e], |log| + 1, p),
                    if p == e.change.point then e.change.after else points[p].version)
  {
    LastAfterAppend(log, e, |log|, p);
  }

  lemma ChangedChained(log: seq<Entry>, points: map<string, PointSeries>, e: Entry, next: PointSeries)
    requires Chained(log, points) && e.change.point in points
    requires e.change.before == points[e.change.point].version && e.change.after == next.version
    ensures Chained(log + [e], points[e.change.point := next])
  {
    hide LastAfter, Follows;
    forall i | 0 <= i < |log + [e]|
      ensures Follows(LastAfter(log + [e], i, (log + [e])[i].change.point), (log + [e])[i].change.before)
    {
      ChainedAt(log, points, e, i);
    }
    forall p | p in points
      ensures Follows(LastAfter(log + [e], |log + [e]|, p), points[e.change.point := next][p].version)
    {
      TipAt(log, points, e, p);
    }
  }

  lemma ChangedEffects(s: System, id: string, next: PointSeries, e: Entry, l: Limits)
    requires Contents(s.a.points, s.seen, s.minted) && Effects(s.log, s.seen, l) && Recordable(s, id, next, e, l)
    ensures var t := Changed(s, id, next, e, l); Effects(t.log, t.seen, l)
  {
    hide Apply;
    var t := Changed(s, id, next, e, l);
    GrownEffects(s.log, s.seen, t.seen, l);
  }

  /** Everything but receipts, for a change that may be a publication. */
  lemma ChangedMost(s: System, id: string, next: PointSeries, e: Entry, l: Limits)
    requires Inv(s, l) && ValidLimits(l) && Recordable(s, id, next, e, l)
    ensures var t := Changed(s, id, next, e, l);
      && Contents(t.a.points, t.seen, t.minted)
      && Drafts(s.drafts, t.seen, l)
      && Plans(s.plans, s.a.receipts, t.seen, l)
      && Ledger(t.log, t.a.changes, t.a.sequence, l)
      && Chained(t.log, t.a.points)
      && Effects(t.log, t.seen, l)
      && Within(t.a, l)
  {
    hide Contents, Drafts, Plans, Ledger, Chained, Effects, Once, Apply;
    var t := Changed(s, id, next, e, l);
    ChangedContents(s, id, next, e, l);
    ChangedLedger(s.log, s.a.changes, s.a.sequence, e, l);
    ChangedChained(s.log, s.a.points, e, next);
    ChangedEffects(s, id, next, e, l);
    GrownPlans(s, t.seen, l);
    assert t.a.points.Keys == s.a.points.Keys;
  }

  lemma UnboundOnce(log: seq<Entry>, receipts: map<Binding, Record>, e: Entry)
    requires Once(log, receipts) && e.binding.None?
    ensures Once(log + [e], receipts)
  {
  }

  lemma ChangedKeeps(s: System, id: string, next: PointSeries, e: Entry, l: Limits)
    requires Inv(s, l) && ValidLimits(l) && Recordable(s, id, next, e, l) && e.binding.None?
    ensures Inv(Changed(s, id, next, e, l), l)
  {
    hide Contents, Drafts, Plans, Ledger, Chained, Effects, Once, Apply;
    ChangedMost(s, id, next, e, l);
    UnboundOnce(s.log, s.a.receipts, e);
  }

  lemma CurrentSorted(s: System, id: string)
    requires Contents(s.a.points, s.seen, s.minted) && id in s.a.points
    ensures Key(id, NextVersion(s.a.points[id].version)) !in s.seen
    ensures Sorted(s.a.points[id].window.items)
    ensures s.a.points[id].version.incarnation in s.minted
  {
  }

  lemma FreshKey(s: System, id: string, next: nat)
    requires Contents(s.a.points, s.seen, s.minted) && next !in s.minted
    ensures Key(id, Version(next, 0)) !in s.seen
  {
  }

  lemma WriteKeeps(s: System, id: string, batch: seq<Item>, nonce: nat, l: Limits)
    requires Inv(s, l) && ValidLimits(l) && nonce !in s.minted
    ensures Inv(Wrote(s, id, batch, nonce, l), l)
  {
    hide Contents, Drafts, Plans, Ledger, Chained, Effects, Once, Apply, InsertAll, ToMap;
    var t := Touched(s, id, nonce, l);
    TouchKeeps(s, id, nonce, l);
    if Wrote(s, id, batch, nonce, l) != s {
      var p := t.a.points[id];
      var next := PointSeries(NextVersion(p.version), Apply(p.window, batch, l.items));
      var e := Entry(WriteChange(t.a, id, batch, l), None, batch);
      CurrentSorted(t, id);
      ApplySorted(p.window, batch, l.items);
      ChangedKeeps(t, id, next, e, l);
    }
  }

  lemma ResetKeeps(s: System, id: string, nonce: nat, next: nat, l: Limits)
    requires Inv(s, l) && ValidLimits(l) && nonce !in s.minted && next !in s.minted && nonce != next
    ensures Inv(WasReset(s, id, nonce, next, l), l)
  {
    hide Contents, Drafts, Plans, Ledger, Chained, Effects, Once;
    var t := Touched(s, id, nonce, l);
    TouchKeeps(s, id, nonce, l);
    if WasReset(s, id, nonce, next, l) != s {
      FreshKey(t, id, next);
      ChangedKeeps(t, id, PointSeries(Version(next, 0), EmptyWindow()), Entry(ResetChange(t.a, id, next), None, []), l);
    }
  }

  /** The plan's snapshot is the series current at publication, though other
      points changed and this one may have been reset and rewritten in between. */
  lemma PublishedFromCurrent(s: System, b: Binding, l: Limits)
    requires Inv(s, l) && b in s.plans && Publishable(s.a, s.plans[b])
    ensures var plan := s.plans[b]; var p := s.a.points[plan.request.identity.point];
      plan.next == PointSeries(NextVersion(p.version), Apply(p.window, plan.request.samples, l.items))
  {
    hide Ledger, Chained, Effects, Once, Drafts, Apply, InsertAll, ToMap;
    assert PlanOk(s.seen, s.plans[b], l);
  }

  lemma PublishOnce(log: seq<Entry>, receipts: map<Binding, Record>, b: Binding, e: Entry, r: Receipt)
    requires Once(log, receipts) && b in receipts && receipts[b].outcome.Pending?
    requires e.binding == Some(b) && e.batch == receipts[b].request.samples
    requires e.change.point == receipts[b].request.identity.point && r.sequence == |log| + 1
    ensures Once(log + [e], receipts[b := receipts[b].(outcome := Committed(r))])
  {
  }

  lemma SettledPlans(plans: map<Binding, Plan>, receipts: map<Binding, Record>, seen: map<Key, Window>, b: Binding,
                     o: Outcome, l: Limits)
    requires Plans(plans, receipts, seen, l) && b in receipts
    ensures Plans(plans - {b}, receipts[b := receipts[b].(outcome := o)], seen, l)
  {
    hide PlanOk;
  }

  lemma PlanFacts(s: System, b: Binding, l: Limits)
    requires Plans(s.plans, s.a.receipts, s.seen, l) && b in s.plans
    ensures b in s.a.receipts && s.a.receipts[b] == Record(s.plans[b].request, Pending) && s.plans[b].binding == b
  {
    hide PlanOk;
  }

  lemma PublishKeeps(s: System, b: Binding, l: Limits)
    requires Inv(s, l) && ValidLimits(l)
    ensures Inv(Published(s, b, l), l)
  {
    hide Contents, Drafts, Plans, Ledger, Chained, Effects, Once, Apply, InsertAll, ToMap;
    if b in s.plans && Publishable(s.a, s.plans[b]) {
      var plan := s.plans[b];
      var id := plan.request.identity.point;
      var e := Entry(PlanChange(plan, s.a.sequence + 1), Some(b), plan.request.samples);
      PublishedFromCurrent(s, b, l);
      CurrentSorted(s, id);
      ApplySorted(s.a.points[id].window, plan.request.samples, l.items);
      PlanFacts(s, b, l);
      ChangedMost(s, id, plan.next, e, l);
      LogLength(s, l);
      var r := PlanReceipt(plan, s.a.sequence + 1);
      PublishOnce(s.log, s.a.receipts, b, e, r);
      SettledPlans(s.plans, s.a.receipts, Changed(s, id, plan.next, e, l).seen, b, Committed(r), l);
      assert Published(s, b, l).a.receipts.Keys == s.a.receipts.Keys;
    }
  }

  lemma LogLength(s: System, l: Limits)
    requires Ledger(s.log, s.a.changes, s.a.sequence, l)
    ensures |s.log| == s.a.sequence
  {
  }

  lemma NewReceipt(s: System, b: Binding, r: Record, l: Limits)
    requires b !in s.a.receipts && !r.outcome.Committed?
    requires Plans(s.plans, s.a.receipts, s.seen, l) && Once(s.log, s.a.receipts)
    ensures Plans(s.plans, s.a.receipts[b := r], s.seen, l) && Once(s.log, s.a.receipts[b := r])
  {
    hide PlanOk;
  }

  lemma NewPlan(s: System, plan: Plan, receipts: map<Binding, Record>, l: Limits)
    requires Plans(s.plans, receipts, s.seen, l) && Drafts(s.drafts, s.seen, l) && plan in s.drafts
    requires plan.binding in receipts && receipts[plan.binding] == Record(plan.request, Pending)
    ensures Plans(s.plans[plan.binding := plan], receipts, s.seen, l)
    ensures Drafts(s.drafts - {plan}, s.seen, l)
  {
    hide PlanOk;
  }

  lemma BindKeeps(s: System, plan: Plan, bytes: nat, l: Limits)
    requires Inv(s, l)
    ensures Inv(Bound(s, plan, bytes, l), l)
  {
    hide Contents, Plans, Ledger, Chained, Effects, Once, PlanOk;
    var t := Bound(s, plan, bytes, l);
    if plan in s.drafts && t.a != s.a {
      NewReceipt(s, plan.binding, Record(plan.request, Pending), l);
      NewPlan(s, plan, t.a.receipts, l);
      assert t.a.receipts.Keys == s.a.receipts.Keys + {plan.binding};
    }
  }

  lemma BindEmptyKeeps(s: System, b: Binding, request: Request, bytes: nat, l: Limits)
    requires Inv(s, l)
    ensures Inv(BoundEmpty(s, b, request, bytes, l), l)
  {
    hide Contents, Plans, Ledger, Chained, Effects, Once, Drafts;
    var t := BoundEmpty(s, b, request, bytes, l);
    if t != s {
      NewReceipt(s, b, Record(request, Rejected(EmptyBatch)), l);
      assert t.a.receipts.Keys == s.a.receipts.Keys + {b};
    }
  }

  lemma RejectOnce(log: seq<Entry>, receipts: map<Binding, Record>, b: Binding, reason: Reason)
    requires Once(log, receipts) && b in receipts && receipts[b].outcome.Pending?
    ensures Once(log, receipts[b := receipts[b].(outcome := Rejected(reason))])
  {
  }

  /** The unconditional rejection is safe because a plan exists for at most one
      receipt, still Pending: it cannot overwrite a settled outcome. */
  lemma RejectKeeps(s: System, b: Binding, reason: Reason, l: Limits)
    requires Inv(s, l)
    ensures Inv(RejectedPlan(s, b, reason), l)
  {
    hide Contents, Plans, Ledger, Chained, Effects, Once, Drafts;
    if b in s.plans {
      PlanFacts(s, b, l);
      RejectOnce(s.log, s.a.receipts, b, reason);
      SettledPlans(s.plans, s.a.receipts, s.seen, b, Rejected(reason), l);
      assert RejectedPlan(s, b, reason).a.receipts.Keys == s.a.receipts.Keys;
    }
  }

  lemma DraftKeeps(s: System, b: Binding, request: Request, l: Limits)
    requires Inv(s, l)
    ensures Inv(Drafted(s, b, request, l), l)
  {
    hide Plans, Ledger, Chained, Effects, Once, Apply, InsertAll, ToMap;
  }

  lemma DropKeeps(s: System, b: Binding, l: Limits)
    requires Inv(s, l)
    ensures Inv(s.(plans := s.plans - {b}), l)
  {
    hide Contents, Ledger, Chained, Effects, Once, Drafts, PlanOk;
  }

  lemma StepKeeps(s: System, step: Step, l: Limits)
    requires Inv(s, l) && ValidLimits(l) && Unminted(s, step)
    ensures Inv(Next(s, step, l), l)
  {
    hide Inv;
    match step
    case Touch(id, nonce) => TouchKeeps(s, id, nonce, l);
    case WriteItems(id, batch, nonce) => WriteKeeps(s, id, batch, nonce, l);
    case ResetPoint(id, nonce, next) => ResetKeeps(s, id, nonce, next, l);
    case Draft(b, request) => DraftKeeps(s, b, request, l);
    case BindDraft(plan, bytes) => BindKeeps(s, plan, bytes, l);
    case BindEmpty(b, request, bytes) => BindEmptyKeeps(s, b, request, bytes, l);
    case PublishPlan(b) => PublishKeeps(s, b, l);
    case RejectPlan(b, reason) => RejectKeeps(s, b, reason, l);
    case DropPlan(b) => DropKeeps(s, b, l);
  }

  // ---------------------------------------------------------------- theorems

  lemma StartHolds(l: Limits)
    ensures Inv(Start(), l)
  {
  }

  /** Every reachable state satisfies the invariant: versions determine content,
      every logged change is its request applied to the content it compared, the
      ledger is the newest suffix of the log, consecutive and chained per point,
      and each operation stands in the log exactly as its receipt says. */
  lemma {:induction false} SerializablePublication(steps: seq<Step>, l: Limits)
    requires ValidLimits(l) && Legal(steps, l)
    ensures Inv(Exec(steps, l), l)
  {
    hide Inv, Next;
    if steps == [] {
      StartHolds(l);
    } else {
      var front := steps[..|steps| - 1];
      assert forall i :: 0 <= i < |front| ==> front[..i] == steps[..i];
      SerializablePublication(front, l);
      StepKeeps(Exec(front, l), steps[|steps| - 1], l);
    }
  }

  /** Positions at which an operation took effect. */
  function AppliedAt(log: seq<Entry>, b: Binding): set<nat> {
    set i: nat | i < |log| && log[i].binding == Some(b)
  }

  /** Exactly once: a Committed receipt has one effect, at its sequence; a
      Pending, Rejected or absent one has none. */
  lemma ExactlyOnce(steps: seq<Step>, l: Limits, b: Binding)
    requires ValidLimits(l) && Legal(steps, l)
    ensures var s := Exec(steps, l);
      AppliedAt(s.log, b) ==
        if b in s.a.receipts && s.a.receipts[b].outcome.Committed?
        then {s.a.receipts[b].outcome.receipt.sequence - 1} else {}
  {
    hide Exec, Legal, Contents, Drafts, Plans, Ledger, Chained, Effects;
    SerializablePublication(steps, l);
  }

  /** One step never forgets content, a bound request or a settled outcome. */
  ghost predicate Monotone(s: System, t: System) {
    && Grows(s.seen, t.seen)
    && s.log <= t.log
    && (forall b :: b in s.a.receipts ==>
          && b in t.a.receipts && t.a.receipts[b].request == s.a.receipts[b].request
          && (!s.a.receipts[b].outcome.Pending? ==> t.a.receipts[b].outcome == s.a.receipts[b].outcome))
  }

  lemma TouchMonotone(s: System, id: string, nonce: nat, l: Limits)
    requires Inv(s, l) && nonce !in s.minted
    ensures Monotone(s, Touched(s, id, nonce, l))
  {
    hide Drafts, Plans, Ledger, Chained, Effects, Once;
  }

  lemma ChangeMonotone(s: System, id: string, next: PointSeries, e: Entry, l: Limits)
    requires Key(id, next.version) !in s.seen
    ensures Monotone(s, Changed(s, id, next, e, l))
  {
  }

  lemma MonotoneTransitive(s: System, t: System, u: System)
    requires Monotone(s, t) && Monotone(t, u)
    ensures Monotone(s, u)
  {
  }

  lemma WriteMonotone(s: System, id: string, batch: seq<Item>, nonce: nat, l: Limits)
    requires Inv(s, l) && nonce !in s.minted
    ensures Monotone(s, Wrote(s, id, batch, nonce, l))
  {
    hide Monotone, Contents, Drafts, Plans, Ledger, Chained, Effects, Once, Apply, InsertAll, ToMap;
    var t := Touched(s, id, nonce, l);
    SelfMonotone(s);
    TouchMonotone(s, id, nonce, l);
    TouchKeeps(s, id, nonce, l);
    if Wrote(s, id, batch, nonce, l) != s {
      var p := t.a.points[id];
      CurrentSorted(t, id);
      ChangeMonotone(t, id, PointSeries(NextVersion(p.version), Apply(p.window, batch, l.items)),
                     Entry(WriteChange(t.a, id, batch, l), None, batch), l);
      MonotoneTransitive(s, t, Wrote(s, id, batch, nonce, l));
    }
  }

  lemma ResetMonotone(s: System, id: string, nonce: nat, next: nat, l: Limits)
    requires Inv(s, l) && nonce !in s.minted && next !in s.minted && nonce != next
    ensures Monotone(s, WasReset(s, id, nonce, next, l))
  {
    hide Monotone, Contents, Drafts, Plans, Ledger, Chained, Effects, Once;
    var t := Touched(s, id, nonce, l);
    SelfMonotone(s);
    TouchMonotone(s, id, nonce, l);
    TouchKeeps(s, id, nonce, l);
    if WasReset(s, id, nonce, next, l) != s {
      FreshKey(t, id, next);
      ChangeMonotone(t, id, PointSeries(Version(next, 0), EmptyWindow()), Entry(ResetChange(t.a, id, next), None, []),
                     l);
      MonotoneTransitive(s, t, WasReset(s, id, nonce, next, l));
    }
  }

  lemma SelfMonotone(s: System)
    ensures Monotone(s, s)
  {
  }

  lemma PublishMonotone(s: System, b: Binding, l: Limits)
    requires Inv(s, l)
    ensures Monotone(s, Published(s, b, l))
  {
    hide Contents, Drafts, Plans, Ledger, Chained, Effects, Once, Apply, InsertAll, ToMap;
    if b in s.plans && Publishable(s.a, s.plans[b]) {
      PublishedFromCurrent(s, b, l);
      PlanFacts(s, b, l);
      CurrentSorted(s, s.plans[b].request.identity.point);
    }
  }

  lemma SettleMonotone(s: System, step: Step, l: Limits)
    requires Inv(s, l) && (step.Draft? || step.BindDraft? || step.BindEmpty? || step.RejectPlan? || step.DropPlan?)
    ensures Monotone(s, Next(s, step, l))
  {
    hide Contents, Drafts, Plans, Ledger, Chained, Effects, Once;
    if step.RejectPlan? && step.binding in s.plans {
      PlanFacts(s, step.binding, l);
    }
  }

  lemma StepMonotone(s: System, step: Step, l: Limits)
    requires Inv(s, l) && Unminted(s, step)
    ensures Monotone(s, Next(s, step, l))
  {
    hide Monotone, Inv;
    match step
    case Touch(id, nonce) => TouchMonotone(s, id, nonce, l);
    case WriteItems(id, batch, nonce) => WriteMonotone(s, id, batch, nonce, l);
    case ResetPoint(id, nonce, next) => ResetMonotone(s, id, nonce, next, l);
    case PublishPlan(b) => PublishMonotone(s, b, l);
    case _ => SettleMonotone(s, step, l);
  }

  lemma {:induction false} RunMonotone(steps: seq<Step>, i: nat, l: Limits)
    requires ValidLimits(l) && Legal(steps, l) && i <= |steps|
    ensures Monotone(Exec(steps[..i], l), Exec(steps, l))
    decreases |steps|
  {
    hide Monotone, Inv, Next;
    if i == |steps| {
      assert steps[..i] == steps;
      SelfMonotone(Exec(steps, l));
    } else {
      var front := steps[..|steps| - 1];
      assert forall j :: 0 <= j < |front| ==> front[..j] == steps[..j];
      assert front[..i] == steps[..i];
      SerializablePublication(front, l);
      RunMonotone(front, i, l);
      StepMonotone(Exec(front, l), steps[|steps| - 1], l);
      MonotoneTransitive(Exec(steps[..i], l), Exec(front, l), Exec(steps, l));
    }
  }

  /** (incarnation, generation) determines content: wherever in a run a point shows
      the same version twice, it holds the same samples and watermark. */
  lemma VersionDeterminesContent(steps: seq<Step>, i: nat, j: nat, id: string, l: Limits)
    requires ValidLimits(l) && Legal(steps, l) && i <= j <= |steps|
    requires id in Exec(steps[..i], l).a.points && id in Exec(steps[..j], l).a.points
    requires Exec(steps[..i], l).a.points[id].version == Exec(steps[..j], l).a.points[id].version
    ensures Exec(steps[..i], l).a.points[id] == Exec(steps[..j], l).a.points[id]
  {
    hide Exec, Drafts, Plans, Ledger, Chained, Effects, Once;
    PrefixLegal(steps, i, l);
    PrefixLegal(steps, j, l);
    assert steps[..j][..i] == steps[..i];
    SerializablePublication(steps[..i], l);
    SerializablePublication(steps[..j], l);
    RunMonotone(steps[..j], i, l);
  }

  lemma PrefixLegal(steps: seq<Step>, i: nat, l: Limits)
    requires Legal(steps, l) && i <= |steps|
    ensures Legal(steps[..i], l)
  {
    assert forall k :: 0 <= k < i ==> steps[..i][..k] == steps[..k];
  }

  /** A bound operation keeps its request for ever, and a settled outcome is final. */
  lemma OutcomeIsFinal(steps: seq<Step>, i: nat, b: Binding, l: Limits)
    requires ValidLimits(l) && Legal(steps, l) && i <= |steps|
    requires b in Exec(steps[..i], l).a.receipts
    ensures var was, now := Exec(steps[..i], l).a.receipts[b], Exec(steps, l).a.receipts;
      b in now && now[b].request == was.request && (!was.outcome.Pending? ==> now[b].outcome == was.outcome)
  {
    hide Exec, Legal;
    RunMonotone(steps, i, l);
  }

  /** The bounded ledger is the last min(sequence, capacity) changes, consecutive. */
  lemma LedgerIsSuffix(steps: seq<Step>, l: Limits)
    requires ValidLimits(l) && Legal(steps, l)
    ensures var s := Exec(steps, l); var n := |s.a.changes|;
      && n == Min(s.a.sequence, l.changes) && |s.log| == s.a.sequence
      && forall k :: 0 <= k < n ==> s.a.changes[k].sequence == s.a.sequence - n + 1 + k
                                    && s.a.changes[k] == s.log[s.a.sequence - n + k].change
  {
    hide Exec, Legal, Contents, Drafts, Plans, Chained, Effects, Once;
    SerializablePublication(steps, l);
  }

  /** The machine's steps are the store's: the object's write and reset leave the
      authority where the corresponding step does. */
  lemma StepsAreTheStore(s: System, id: string, batch: seq<Item>, nonce: nat, next: nat, l: Limits)
    ensures Wrote(s, id, batch, nonce, l).a ==
            match NativeWrite(s.a, id, batch, nonce, l) case Ok(a) => a case Err(_) => s.a
    ensures WasReset(s, id, nonce, next, l).a ==
            match Reset(s.a, id, nonce, next, l) case Ok(a) => a case Err(_) => s.a
  {
    hide Apply, InsertAll, ToMap;
  }
}
