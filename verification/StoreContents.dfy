/** What the points of a store hold on every run: the bounded form of everything written
    to them since their last reset. */
module StoreContents {
  import opened Prelude
  import opened Series
  import opened Store
  import opened StoreRuns

  /** The batches a point took since its last reset: native writes and published plans. */
  function Since(log: seq<Entry>, id: string): seq<seq<Item>> {
    if log == [] then []
    else
      var front, e := Since(log[..|log| - 1], id), log[|log| - 1];
      if e.change.point != id then front
      else if e.change.after.generation == 0 then []
      else front + [e.batch]
  }

  /** One point: what it holds, or that nothing was written to it. */
  ghost predicate HoldsSince(s: System, id: string, l: Limits) {
    if id in s.a.points then s.a.points[id].window == Run(Since(s.log, id), l.items) else Since(s.log, id) == []
  }

  ghost predicate Holds(s: System, l: Limits) {
    forall id :: HoldsSince(s, id, l)
  }

  lemma SinceStep(log: seq<Entry>, e: Entry, id: string)
    ensures Since(log + [e], id) ==
      if e.change.point != id then Since(log, id)
      else if e.change.after.generation == 0 then []
      else Since(log, id) + [e.batch]
  {
    assert (log + [e])[..|log|] == log;
  }

  lemma RunStep(batches: seq<seq<Item>>, batch: seq<Item>, capacity: nat)
    ensures Run(batches + [batch], capacity) == Apply(Run(batches, capacity), batch, capacity)
  {
    hide Apply;
    assert (batches + [batch])[..|batches|] == batches;
  }

  lemma TouchHolds(s: System, id: string, nonce: nat, l: Limits)
    requires Holds(s, l)
    ensures Holds(Touched(s, id, nonce, l), l)
  {
    hide Apply, Since;
    var t := Touched(s, id, nonce, l);
    forall p ensures HoldsSince(t, p, l) {
      assert HoldsSince(s, p, l);
    }
  }

  /** A change that applies its batch, or that resets, keeps every point in step. */
  lemma ChangeHolds(s: System, t: System, id: string, next: PointSeries, e: Entry, l: Limits)
    requires Holds(s, l) && id in s.a.points && e.change.point == id && t.log == s.log + [e]
    requires t.a.points == s.a.points[id := next]
    requires if e.change.after.generation == 0 then next.window == EmptyWindow()
             else next.window == Apply(s.a.points[id].window, e.batch, l.items)
    ensures Holds(t, l)
  {
    hide Apply, Since;
    forall p ensures HoldsSince(t, p, l) {
      assert HoldsSince(s, p, l);
      SinceStep(s.log, e, p);
      if p == id {
        RunStep(Since(s.log, id), e.batch, l.items);
      }
    }
  }

  lemma PublishHolds(s: System, b: Binding, l: Limits)
    requires Inv(s, l) && Holds(s, l)
    ensures Holds(Published(s, b, l), l)
  {
    hide Inv, Holds, Apply;
    if b in s.plans && Publishable(s.a, s.plans[b]) {
      var plan := s.plans[b];
      PublishedFromCurrent(s, b, l);
      var e := Entry(PlanChange(plan, s.a.sequence + 1), Some(b), plan.request.samples);
      ChangeHolds(s, Published(s, b, l), plan.request.identity.point, plan.next, e, l);
    }
  }

  /** Steps that change no point and log nothing. */
  lemma QuietHolds(s: System, t: System, l: Limits)
    requires Holds(s, l) && t.a.points == s.a.points && t.log == s.log
    ensures Holds(t, l)
  {
    hide Since, Run;
    forall p ensures HoldsSince(t, p, l) {
      assert HoldsSince(s, p, l);
    }
  }

  lemma WriteHolds(s: System, id: string, batch: seq<Item>, nonce: nat, l: Limits)
    requires Holds(s, l)
    ensures Holds(Wrote(s, id, batch, nonce, l), l)
  {
    hide Holds, Apply, InsertAll, ToMap, Touched, Appended;
    var u, t := Touched(s, id, nonce, l), Wrote(s, id, batch, nonce, l);
    TouchHolds(s, id, nonce, l);
    if t != s {
      ChangeHolds(u, t, id, t.a.points[id], t.log[|t.log| - 1], l);
    }
  }

  lemma ResetHolds(s: System, id: string, nonce: nat, next: nat, l: Limits)
    requires Holds(s, l)
    ensures Holds(WasReset(s, id, nonce, next, l), l)
  {
    hide Holds, Touched, Appended;
    var u, t := Touched(s, id, nonce, l), WasReset(s, id, nonce, next, l);
    TouchHolds(s, id, nonce, l);
    if t != s {
      ChangeHolds(u, t, id, t.a.points[id], t.log[|t.log| - 1], l);
    }
  }

  lemma StepHolds(s: System, step: Step, l: Limits)
    requires Inv(s, l) && Holds(s, l)
    ensures Holds(Next(s, step, l), l)
  {
    hide Inv, Holds, Apply, Published, Touched, Wrote, WasReset;
    var t := Next(s, step, l);
    match step
    case Touch(id, nonce) => TouchHolds(s, id, nonce, l);
    case WriteItems(id, batch, nonce) => WriteHolds(s, id, batch, nonce, l);
    case ResetPoint(id, nonce, next) => ResetHolds(s, id, nonce, next, l);
    case PublishPlan(b) => PublishHolds(s, b, l);
    case _ => QuietHolds(s, t, l);
  }

  lemma {:induction false} RunHolds(steps: seq<Step>, l: Limits)
    requires ValidLimits(l) && Legal(steps, l)
    ensures Holds(Exec(steps, l), l)
  {
    hide Inv, Next, Holds;
    if steps == [] {
      StartHoldsAll(l);
    } else {
      var front := steps[..|steps| - 1];
      assert forall i :: 0 <= i < |front| ==> front[..i] == steps[..i];
      RunHolds(front, l);
      SerializablePublication(front, l);
      StepHolds(Exec(front, l), steps[|steps| - 1], l);
    }
  }

  lemma StartHoldsAll(l: Limits)
    ensures Holds(Start(), l)
  {
  }

  /** On every run, each point holds the newest `capacity` instants of everything written to
      it since its last reset, and its watermark is the greatest of those instants dropped. */
  lemma PointsRefineWrites(steps: seq<Step>, l: Limits, id: string)
    requires ValidLimits(l) && Legal(steps, l) && id in Exec(steps, l).a.points
    ensures var s := Exec(steps, l);
      Refines(s.a.points[id].window, Written(Since(s.log, id)), l.items) && Stored(s.a.points[id].window)
  {
    hide Exec, Legal, Refines, Since, Stored;
    RunHolds(steps, l);
    var s := Exec(steps, l);
    assert HoldsSince(s, id, l);
    BoundedRefinesUnbounded(Since(s.log, id), l.items);
    RefinesStored(s.a.points[id].window, Written(Since(s.log, id)), l.items);
  }
}
