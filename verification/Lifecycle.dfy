/** Application lifecycle: admission, sealing, failure, and the coordinator that starts
    resources, drains work, and closes what it started. */
module Lifecycle {
  import opened Prelude

  datatype State = Starting | Running | Closing | Failed | Closed

  type Fault = nat

  /** A close result: whether the drain allowance expired, or the first failure. */
  type CloseResult = Result<bool, Fault>

  /** The receipt of a finished application: its close result, and every error its cleanups
      gave, in order. */
  datatype Termination = Termination(close: CloseResult, cleanupErrors: seq<Fault>)

  datatype Control = Control(
    state: State, sealed: bool, ready: bool, failure: Option<Fault>,
    close: Option<CloseResult>, termination: Option<Termination>)

  function NewControl(): Control {
    Control(Starting, false, false, None, None, None)
  }

  // ---------------------------------------------------------------- transitions

  function Seal(c: Control): Control {
    if c.sealed then c else c.(sealed := true, state := if c.state.Failed? then Failed else Closing)
  }

  /** Record a failure; the first one is kept, and a terminated application ignores it. */
  function MarkFailed(c: Control, fault: Fault): Control {
    if c.termination.Some? then c
    else c.(failure := if c.failure.None? then Some(fault) else c.failure, state := Failed)
  }

  function BecomeReady(c: Control): Control {
    if c.state.Starting? then c.(ready := true, state := Running) else c
  }

  /** Record a failure and seal, unless terminated. */
  function Failing(c: Control, fault: Fault): Control {
    if c.termination.Some? then c else Seal(MarkFailed(c, fault))
  }

  function TimedOut(c: Control, fault: Fault): Control {
    var failed := Failing(c, fault);
    if failed.close.None? then failed.(close := Some(Err(fault))) else failed
  }

  function Finish(c: Control, result: CloseResult, errors: seq<Fault>): Control {
    var close := if c.close.None? then result else c.close.value;
    c.(close := Some(close), state := if close.Ok? then Closed else Failed,
       termination := Some(Termination(close, errors)))
  }

  function Outcome(c: Control, drainExpired: bool): CloseResult {
    if c.failure.Some? then Err(c.failure.value) else Ok(drainExpired)
  }

  /** The lifecycle object, with the count of guards and tasks it tracks. */
  class Owner {
    var state: State
    var sealed: bool
    var ready: bool
    var failure: Option<Fault>
    var close: Option<CloseResult>
    var termination: Option<Termination>
    var tasks: nat

    function Value(): Control
      reads this
    {
      Control(state, sealed, ready, failure, close, termination)
    }

    constructor ()
      ensures Value() == NewControl() && tasks == 0
    {
      state, sealed, ready, failure, close, termination, tasks := Starting, false, false, None, None, None, 0;
    }

    method Admit() returns (admitted: bool)
      modifies this`tasks
      ensures admitted <==> state.Running?
      ensures tasks == old(tasks) + if admitted then 1 else 0
    {
      admitted := state.Running?;
      if admitted {
        tasks := tasks + 1;
      }
    }

    method SealNow()
      modifies this
      ensures Value() == Seal(old(Value())) && tasks == old(tasks)
    {
      if !sealed {
        sealed := true;
        if !state.Failed? {
          state := Closing;
        }
      }
    }

    method Fail(fault: Fault)
      modifies this
      ensures Value() == Failing(old(Value()), fault) && tasks == old(tasks)
    {
      if termination.Some? {
        return;
      }
      failure := if failure.None? then Some(fault) else failure;
      state := Failed;
      SealNow();
    }

    method TimeOut(fault: Fault)
      modifies this
      ensures Value() == TimedOut(old(Value()), fault) && tasks == old(tasks)
    {
      Fail(fault);
      if close.None? {
        close := Some(Err(fault));
      }
    }

    method Complete(result: CloseResult, errors: seq<Fault>)
      modifies this
      ensures Value() == Finish(old(Value()), result, errors) && tasks == old(tasks)
    {
      if close.None? {
        close := Some(result);
      }
      state := if close.value.Ok? then Closed else Failed;
      termination := Some(Termination(close.value, errors));
    }
  }

  // ---------------------------------------------------------------- the application

  datatype Event = Opened(resource: nat) | RolledBack(resource: nat) | Released(resource: nat)

  /** Where the coordinator stands. */
  datatype Phase =
    | Unstarted
    | Initializing(index: nat)
    | Awaiting
    | Joining
    | Undoing
    | Releasing(left: nat)
    | Reporting(result: CloseResult)
    | Ended

  datatype App = App(
    control: Control, tasks: nat, phase: Phase, resources: nat, initialized: nat, partial: Option<nat>,
    events: seq<Event>, outcomes: seq<Option<Fault>>, errors: seq<Fault>)

  datatype Step =
    | Start
    | Abandon(fault: Fault)
    | Admit
    | Child
    | Spawn
    | End
    | TaskFails(fault: Fault)
    | RequestSeal
    | Initialized
    | InitFails(reported: Option<Fault>)
    | AllInitialized
    | Interrupted
    | SealSeen
    | JoinTimesOut(fault: Fault)
    | Joined
    | RollBack(timeout: Option<Fault>, error: Option<Fault>)
    | CloseNext(timeout: Option<Fault>, error: Option<Fault>)
    | Resolve(drainExpired: bool)
    | Report

  function NewApp(resources: nat): App {
    App(NewControl(), 0, Unstarted, resources, 0, None, [], [], [])
  }

  function Pushed(errors: seq<Fault>, error: Option<Fault>): seq<Fault> {
    if error.Some? then errors + [error.value] else errors
  }

  /** The errors among the outcomes of cleanups, in order. */
  function Faults(outcomes: seq<Option<Fault>>): seq<Fault> {
    if outcomes == [] then [] else Pushed(Faults(outcomes[..|outcomes| - 1]), outcomes[|outcomes| - 1])
  }

  /** A cleanup may time out, fail, both or neither. */
  function Cleaned(c: Control, timeout: Option<Fault>, error: Option<Fault>): Control {
    var after := if timeout.Some? then TimedOut(c, timeout.value) else c;
    if error.Some? then Failing(after, error.value) else after
  }

  function Next(a: App, step: Step): App {
    match step
    case Start => if a.phase.Unstarted? then a.(phase := Initializing(0)) else a
    case Abandon(fault) =>
      if a.phase.Unstarted? then a.(control := Finish(Failing(a.control, fault), Err(fault), []), phase := Ended) else a
    case Admit => if a.control.state.Running? then a.(tasks := a.tasks + 1) else a
    case Child => if a.tasks > 0 then a.(tasks := a.tasks + 1) else a
    case Spawn => if a.control.state.Starting? && !a.phase.Unstarted? then a.(tasks := a.tasks + 1) else a
    case End => if a.tasks > 0 then a.(tasks := a.tasks - 1) else a
    case TaskFails(fault) => if a.tasks > 0 then a.(control := MarkFailed(a.control, fault)) else a
    case RequestSeal => if a.phase.Unstarted? then a else a.(control := Seal(a.control))
    case Initialized =>
      if a.phase.Initializing? && a.phase.index < a.resources && !a.control.termination.Some?
      then a.(phase := Initializing(a.phase.index + 1), initialized := a.initialized + 1,
              events := a.events + [Opened(a.phase.index)])
      else a
    case InitFails(reported) =>
      if a.phase.Initializing? && a.phase.index < a.resources && (reported.None? ==> a.control.sealed)
      then a.(phase := Awaiting, partial := Some(a.phase.index),
              control := if reported.Some? then Failing(a.control, reported.value) else a.control)
      else a
    case Interrupted =>
      if a.phase.Initializing? && a.phase.index < a.resources && a.control.sealed then a.(phase := Awaiting) else a
    case AllInitialized =>
      if a.phase.Initializing? && a.phase.index == a.resources
      then a.(phase := Awaiting, control := BecomeReady(a.control))
      else a
    case SealSeen => if a.phase.Awaiting? && a.control.sealed then a.(phase := Joining) else a
    case JoinTimesOut(fault) => if a.phase.Joining? then a.(control := TimedOut(a.control, fault)) else a
    case Joined => if a.phase.Joining? && a.tasks == 0 then a.(phase := Undoing) else a
    case RollBack(timeout, error) =>
      if !a.phase.Undoing? then a
      else if a.partial.None? then a.(phase := Releasing(a.initialized))
      else
        a.(phase := Releasing(a.initialized), events := a.events + [RolledBack(a.partial.value)],
           outcomes := a.outcomes + [error], errors := Pushed(a.errors, error),
           control := Cleaned(a.control, timeout, error))
    case CloseNext(timeout, error) =>
      if a.phase.Releasing? && a.phase.left > 0
      then
        a.(phase := Releasing(a.phase.left - 1), events := a.events + [Released(a.phase.left - 1)],
           outcomes := a.outcomes + [error], errors := Pushed(a.errors, error),
           control := Cleaned(a.control, timeout, error))
      else a
    case Resolve(drainExpired) =>
      if a.phase == Releasing(0) then a.(phase := Reporting(Outcome(a.control, drainExpired))) else a
    case Report =>
      if a.phase.Reporting? then a.(phase := Ended, control := Finish(a.control, a.phase.result, a.errors)) else a
  }

  // ---------------------------------------------------------------- the invariant

  function OpenedUpTo(n: nat): seq<Event> {
    if n == 0 then [] else OpenedUpTo(n - 1) + [Opened(n - 1)]
  }

  /** Releases in reverse order, from the last down to `k`. */
  function ReleasedDownTo(n: nat, k: nat): seq<Event>
    requires k <= n
    decreases n - k
  {
    if n == k then [] else ReleasedDownTo(n, k + 1) + [Released(k)]
  }

  function Undone(partial: Option<nat>): seq<Event> {
    if partial.Some? then [RolledBack(partial.value)] else []
  }

  predicate Quiet(a: App) {
    a.tasks == 0 && a.control.sealed
  }

  predicate ControlOk(c: Control) {
    && (c.sealed ==> !c.state.Starting? && !c.state.Running?)
    && (c.failure.Some? && c.termination.None? ==> c.state.Failed?)
    && (c.close.Some? && c.termination.None? ==> c.close.value.Err? && c.failure.Some? && c.sealed)
    && (c.termination.Some? ==>
          && Some(c.termination.value.close) == c.close && c.sealed && (c.close.value.Ok? <==> c.failure.None?)
          && (c.state.Closed? <==> c.close.value.Ok?) && (c.state.Failed? <==> c.close.value.Err?))
    && (c.state.Closed? ==> c.termination.Some?)
  }

  /** How many cleanups have run. */
  function Cleanups(a: App): int {
    match a.phase
    case Releasing(left) => |Undone(a.partial)| + a.initialized - left
    case Reporting(_) => |Undone(a.partial)| + a.initialized
    case Ended => |Undone(a.partial)| + a.initialized
    case _ => 0
  }

  lemma FaultsStep(outcomes: seq<Option<Fault>>, error: Option<Fault>)
    ensures Faults(outcomes + [error]) == Pushed(Faults(outcomes), error)
  {
    assert (outcomes + [error])[..|outcomes|] == outcomes;
  }

  /** Every cleanup's error was kept, in order, and counts as a failure. */
  predicate ErrorsOk(a: App) {
    && a.errors == Faults(a.outcomes) && (a.errors != [] ==> a.control.failure.Some?)
    && (a.control.termination.Some? ==> a.control.termination.value.cleanupErrors == a.errors)
    && |a.outcomes| == Cleanups(a)
  }

  predicate PhaseOk(a: App) {
    && (a.control.termination.Some? <==> a.phase.Ended?)
    && match a.phase
       case Unstarted =>
         && a.control == NewControl() && a.tasks == 0 && a.events == [] && a.initialized == 0
         && a.partial.None?
       case Initializing(index) =>
         && a.initialized == index <= a.resources && a.partial.None? && a.events == OpenedUpTo(index)
         && !a.control.state.Running?
       case Awaiting => Started(a) && a.events == OpenedUpTo(a.initialized) && (a.control.state.Starting? ==> false)
       case Joining => Started(a) && a.events == OpenedUpTo(a.initialized) && a.control.sealed
       case Undoing => Started(a) && a.events == OpenedUpTo(a.initialized) && Quiet(a)
       case Releasing(left) =>
         Started(a) && left <= a.initialized && Quiet(a)
         && a.events == OpenedUpTo(a.initialized) + Undone(a.partial) + ReleasedDownTo(a.initialized, left)
       case Reporting(result) => Started(a) && Quiet(a) && ResourcesDone(a) && (result.Ok? <==> a.control.failure.None?)
       case Ended => Quiet(a) && ResourcesDone(a)
  }

  predicate Started(a: App) {
    a.initialized <= a.resources && (a.partial.Some? ==> a.partial.value == a.initialized < a.resources)
  }

  /** What a finished application did to its resources. */
  predicate ResourcesDone(a: App) {
    a.events == OpenedUpTo(a.initialized) + Undone(a.partial) + ReleasedDownTo(a.initialized, 0)
  }

  predicate Inv(a: App) {
    ControlOk(a.control) && PhaseOk(a) && ErrorsOk(a)
  }

  lemma NewIsOk(resources: nat)
    ensures Inv(NewApp(resources))
  {
    assert Faults([]) == [];
  }

  lemma CleanedOk(c: Control, timeout: Option<Fault>, error: Option<Fault>)
    requires ControlOk(c) && c.termination.None? && c.sealed
    ensures var d := Cleaned(c, timeout, error);
      && ControlOk(d) && d.termination.None? && d.sealed
      && (c.failure.Some? || error.Some? ==> d.failure.Some?)
  {
  }

  lemma ControlKeeps(a: App, step: Step)
    requires Inv(a)
    ensures ControlOk(Next(a, step).control)
  {
    hide OpenedUpTo, ReleasedDownTo, Cleaned;
    match step
    case RollBack(timeout, error) =>
      if a.phase.Undoing? {
        CleanedOk(a.control, timeout, error);
      }
    case CloseNext(timeout, error) =>
      if a.phase.Releasing? {
        CleanedOk(a.control, timeout, error);
      }
    case _ =>
  }

  lemma ErrorsKeep(a: App, step: Step)
    requires Inv(a)
    ensures ErrorsOk(Next(a, step))
  {
    hide OpenedUpTo, ReleasedDownTo, Cleaned, Faults;
    match step
    case RollBack(timeout, error) =>
      if a.phase.Undoing? {
        CleanedOk(a.control, timeout, error);
        FaultsStep(a.outcomes, error);
      }
    case CloseNext(timeout, error) =>
      if a.phase.Releasing? {
        CleanedOk(a.control, timeout, error);
        FaultsStep(a.outcomes, error);
      }
    case _ =>
  }

  lemma StepKeeps(a: App, step: Step)
    requires Inv(a)
    ensures Inv(Next(a, step))
  {
    hide Cleaned, ErrorsOk;
    ControlKeeps(a, step);
    ErrorsKeep(a, step);
    match step
    case RollBack(timeout, error) =>
      if a.phase.Undoing? {
        CleanedOk(a.control, timeout, error);
        assert ReleasedDownTo(a.initialized, a.initialized) == [];
      }
    case CloseNext(timeout, error) =>
      if a.phase.Releasing? && a.phase.left > 0 {
        CleanedOk(a.control, timeout, error);
        var left := a.phase.left;
        assert ReleasedDownTo(a.initialized, left - 1) == ReleasedDownTo(a.initialized, left) + [Released(left - 1)];
      }
    case _ =>
  }

  // ---------------------------------------------------------------- whole runs

  function Exec(a: App, steps: seq<Step>): App
    decreases |steps|
  {
    if steps == [] then a else Exec(Next(a, steps[0]), steps[1..])
  }

  lemma {:induction false} RunKeeps(a: App, steps: seq<Step>)
    requires Inv(a)
    ensures Inv(Exec(a, steps))
    decreases |steps|
  {
    hide Inv, Next;
    if steps != [] {
      StepKeeps(a, steps[0]);
      RunKeeps(Next(a, steps[0]), steps[1..]);
    }
  }

  /** Once sealed, an application stays sealed and nothing new is admitted or spawned;
      work can only continue through children of work already under way. */
  lemma SealedAdmitsNothing(a: App, step: Step)
    requires Inv(a) && a.control.sealed
    ensures Next(a, step).control.sealed && Next(a, Admit) == a && Next(a, Spawn) == a
    ensures a.tasks == 0 ==> Next(a, step).tasks == 0
  {
    hide PhaseOk, OpenedUpTo, ReleasedDownTo;
  }

  lemma {:induction false} SealIsFinal(a: App, steps: seq<Step>)
    requires Inv(a) && a.control.sealed
    ensures var b := Exec(a, steps);
      && b.control.sealed && Next(b, Admit) == b && Next(b, Spawn) == b
      && (a.tasks == 0 ==> b.tasks == 0)
    decreases |steps|
  {
    hide Inv, Next;
    if steps == [] {
      SealedAdmitsNothing(a, Admit);
    } else {
      SealedAdmitsNothing(a, steps[0]);
      StepKeeps(a, steps[0]);
      SealIsFinal(Next(a, steps[0]), steps[1..]);
    }
  }

  lemma CloseStays(a: App, step: Step)
    requires Inv(a)
    ensures a.control.close.Some? ==> Next(a, step).control.close == a.control.close
    ensures a.control.failure.Some? ==> Next(a, step).control.failure == a.control.failure
    ensures a.control.termination.Some? ==>
      Next(a, step).control.termination == a.control.termination && Next(a, step).events == a.events
  {
    hide OpenedUpTo, ReleasedDownTo;
  }

  /** The first close result, the first failure and the termination report are never revised. */
  lemma {:induction false} CloseIsFinal(a: App, steps: seq<Step>)
    requires Inv(a)
    ensures var b := Exec(a, steps);
      && (a.control.close.Some? ==> b.control.close == a.control.close)
      && (a.control.failure.Some? ==> b.control.failure == a.control.failure)
      && (a.control.termination.Some? ==> b.control.termination == a.control.termination && b.events == a.events)
    decreases |steps|
  {
    hide Inv, Next;
    if steps != [] {
      CloseStays(a, steps[0]);
      StepKeeps(a, steps[0]);
      CloseIsFinal(Next(a, steps[0]), steps[1..]);
    }
  }

  lemma {:induction false} EventShapes(n: nat, k: nat, i: nat)
    requires k <= n
    ensures |OpenedUpTo(n)| == n && (i < n ==> OpenedUpTo(n)[i] == Opened(i))
    ensures |ReleasedDownTo(n, k)| == n - k && (i < n - k ==> ReleasedDownTo(n, k)[i] == Released(n - 1 - i))
    decreases n, n - k
  {
    if n > 0 {
      EventShapes(n - 1, 0, i);
    }
    if k < n {
      EventShapes(n, k + 1, i);
    }
  }

  /** Termination is published only after all guarded work ended; by then every resource
      that initialized was opened in order, the one that started partly was rolled back
      once, and every initialized one was closed once, in reverse order. The close result
      is a success exactly when nothing failed, and the report names every cleanup error,
      one cleanup after the other. */
  lemma TerminationIsEarned(resources: nat, steps: seq<Step>)
    requires Exec(NewApp(resources), steps).control.termination.Some?
    ensures var a := Exec(NewApp(resources), steps);
      var undone := |Undone(a.partial)|;
      && a.tasks == 0 && a.control.sealed
      && |a.events| == 2 * a.initialized + undone
      && (forall i :: 0 <= i < a.initialized ==> a.events[i] == Opened(i))
      && (a.partial.Some? ==> a.events[a.initialized] == RolledBack(a.partial.value))
      && (forall i :: a.initialized + undone <= i < |a.events| ==> a.events[i] == Released(|a.events| - 1 - i))
      && (a.control.termination.value.close.Ok? <==> a.control.failure.None?)
      && |a.outcomes| == undone + a.initialized && a.control.termination.value.cleanupErrors == Faults(a.outcomes)
      && (a.control.termination.value.cleanupErrors != [] ==> a.control.termination.value.close.Err?)
      && (a.control.state.Closed? <==> a.control.failure.None?)
  {
    hide Exec, Next, OpenedUpTo, ReleasedDownTo, Faults;
    NewIsOk(resources);
    RunKeeps(NewApp(resources), steps);
    var a := Exec(NewApp(resources), steps);
    EventShapes(a.initialized, 0, 0);
    forall i | 0 <= i < a.initialized
      ensures OpenedUpTo(a.initialized)[i] == Opened(i)
      ensures ReleasedDownTo(a.initialized, 0)[i] == Released(a.initialized - 1 - i)
    {
      EventShapes(a.initialized, 0, i);
    }
  }
}
