/** Bounded history reads: the in-memory producer, and the coordinator that polices
    whatever a provider returns. */
module Reads {
  import opened Prelude
  import opened Series
  import Store

  datatype Reason =
    | Rows | Bytes | Work
    | Deadline | Cancelled | OwnerStopped | GenerationChanged | MetadataChanged | PolicyChanged
    | UnsupportedValue | Provider | InvalidProvider

  datatype Terminal = Complete | Limited(reason: Reason) | Interrupted(reason: Reason) | Failed(reason: Reason)

  predicate ValidTerminal(t: Terminal) {
    match t
    case Complete => true
    case Limited(r) => r.Rows? || r.Bytes? || r.Work?
    case Interrupted(r) =>
      r.Deadline? || r.Cancelled? || r.OwnerStopped? || r.GenerationChanged? || r.MetadataChanged? || r.PolicyChanged?
    case Failed(r) => r.UnsupportedValue? || r.Provider? || r.InvalidProvider?
  }

  /** The bytes charged for a sample; None for a value no series may carry. */
  function SampleBytes(value: Value): Option<nat> {
    match value
    case Bool(_) => Some(512)
    case NA => Some(512)
    case Number(_, unit) => Some(Min(512 + (if unit.Some? then |unit.value| else 0), U64_MAX))
    case Str(s) => Some(Min(512 + |s|, U64_MAX))
    case Rich(_) => None
  }

  function Size(item: Item): nat {
    var size := SampleBytes(item.val);
    if size.Some? then size.value else 0
  }

  function Total(items: seq<Item>): nat {
    if items == [] then 0 else Total(items[..|items| - 1]) + Size(items[|items| - 1])
  }

  lemma TotalStep(items: seq<Item>, item: Item)
    ensures Total(items + [item]) == Total(items) + Size(item)
  {
    assert (items + [item])[..|items|] == items;
  }

  datatype Budget = Budget(rows: nat, bytes: nat, work: nat)

  datatype Batch = Batch(items: seq<Item>, terminal: Option<Terminal>)

  datatype Fault = Changed | Stopped | Limit | Other

  datatype Coverage = Coverage(first: Option<int>, last: Option<int>, count: nat, evicted: Option<int>)

  datatype Meta = Meta(version: Store.Version, bounded: bool, coverage: Coverage)

  // ---------------------------------------------------------------- the honest producer

  /** How many samples one pull takes from `cursor`, and how it ends. */
  function Fill(items: seq<Item>, cursor: nat, end: int, budget: Budget, taken: nat, bytes: nat)
    : (nat, Option<Terminal>)
    requires cursor <= |items|
    decreases |items| - cursor
  {
    if cursor == |items| || items[cursor].ts >= end then (0, Some(Complete))
    else if taken >= budget.rows then (0, None)
    else
      match SampleBytes(items[cursor].val)
      case None => (0, Some(Failed(UnsupportedValue)))
      case Some(size) =>
        if size > Monus(budget.bytes, bytes) then (0, if taken == 0 then Some(Limited(Reason.Bytes)) else None)
        else if size > Monus(budget.work, bytes) then (0, if taken == 0 then Some(Limited(Reason.Work)) else None)
        else
          var (n, terminal) := Fill(items, cursor + 1, end, budget, taken + 1, bytes + size);
          (n + 1, terminal)
  }

  function CoverageOf(w: Window): Coverage {
    Coverage(if w.items == [] then None else Some(w.items[0].ts),
             if w.items == [] then None else Some(w.items[|w.items| - 1].ts),
             |w.items|, w.evicted)
  }

  /** The first sample at or after `start`. */
  function LowerBound(items: seq<Item>, start: int): (c: nat)
    ensures c <= |items|
  {
    if items == [] || items[|items| - 1].ts < start then |items| else LowerBound(items[..|items| - 1], start)
  }

  lemma {:induction false} LowerBoundSplits(items: seq<Item>, start: int)
    requires Sorted(items)
    ensures forall i :: 0 <= i < |items| ==> (items[i].ts < start <==> i < LowerBound(items, start))
  {
    if items != [] && items[|items| - 1].ts >= start {
      var front := items[..|items| - 1];
      LowerBoundSplits(front, start);
      assert forall i :: 0 <= i < |front| ==> items[i] == front[i];
    }
  }

  class MemorySession {
    var cursor: nat
    const end: int
    const meta: Meta
    var closed: bool

    constructor (p: Store.PointSeries, start: int, end: int)
      ensures cursor == LowerBound(p.window.items, start) && this.end == end && !closed
      ensures meta == Meta(p.version, true, CoverageOf(p.window))
    {
      cursor := LowerBound(p.window.items, start);
      this.end := end;
      meta := Meta(p.version, true, CoverageOf(p.window));
      closed := false;
    }

    method Next(p: Store.PointSeries, budget: Budget) returns (r: Result<Batch, Fault>)
      requires p.version == meta.version ==> cursor <= |p.window.items|
      modifies this`cursor
      ensures closed || p.version != meta.version ==>
        cursor == old(cursor) && r == Err(if closed then Stopped else Changed)
      ensures !closed && p.version == meta.version ==>
        var (n, terminal) := Fill(p.window.items, old(cursor), end, budget, 0, 0);
        && cursor == old(cursor) + n <= |p.window.items|
        && r == Ok(Batch(p.window.items[old(cursor)..cursor], terminal))
    {
      if closed {
        return Err(Stopped);
      }
      if p.version != meta.version {
        return Err(Changed);
      }
      hide SampleBytes;
      var items := p.window.items;
      var bytes: nat, work: nat := 0, 0;
      var taken := [];
      ghost var goal := Fill(items, cursor, end, budget, 0, 0);
      while cursor < |items| && items[cursor].ts < end
        invariant old(cursor) <= cursor <= |items| && taken == items[old(cursor)..cursor] && bytes == work
        invariant var rest := Fill(items, cursor, end, budget, |taken|, bytes); goal == (|taken| + rest.0, rest.1)
        decreases |items| - cursor
      {
        if |taken| >= budget.rows {
          break;
        }
        var size := SampleBytes(items[cursor].val);
        if size.None? {
          return Ok(Batch(taken, Some(Failed(UnsupportedValue))));
        }
        if size.value > Monus(budget.bytes, bytes) || size.value > Monus(budget.work, work) {
          var reason := if size.value > Monus(budget.bytes, bytes) then Reason.Bytes else Reason.Work;
          return Ok(Batch(taken, if taken == [] then Some(Limited(reason)) else None));
        }
        bytes, work := bytes + size.value, work + size.value;
        taken := taken + [items[cursor]];
        cursor := cursor + 1;
      }
      var complete := cursor == |items| || items[cursor].ts >= end;
      r := Ok(Batch(taken, if complete then Some(Complete) else None));
    }
  }

  // ---------------------------------------------------------------- the coordinator

  /** The metadata a session may start from. */
  predicate MetaOk(meta: Meta) {
    var c := meta.coverage;
    && meta.bounded
    && (c.count == 0 <==> c.first.None? && c.last.None?)
    && (c.first.Some? <==> c.last.Some?)
    && (c.first.Some? ==>
          && c.first.value <= c.last.value && (c.count == 1 ==> c.first == c.last)
          && (c.evicted.Some? ==> c.evicted.value < c.first.value))
  }

  /** One read: its range and metadata, which values its schema allows, and which
      instants its time zone can show. */
  datatype Read = Read(start: int, end: int, meta: Meta, allows: Value -> bool, shows: int -> bool)

  datatype Progress = Progress(rows: nat, bytes: nat, work: nat, first: Option<int>, last: Option<int>)

  predicate InPlace(read: Read, p: Progress, ts: int) {
    var c := read.meta.coverage;
    && read.start <= ts < read.end && (p.last.Some? ==> p.last.value < ts)
    && c.first.Some? && c.first.value <= ts && c.last.Some? && ts <= c.last.value
    && p.rows < c.count
  }

  /** Why a sample ends the read, if it does. `charge` is the budget's answer. */
  function Refusal(read: Read, budget: Budget, p: Progress, spent: nat, item: Item,
                   charge: Option<Terminal>): Option<Terminal> {
    match SampleBytes(item.val)
    case None => Some(Failed(UnsupportedValue))
    case Some(size) =>
      if size > Monus(budget.bytes, spent) || size > Monus(budget.work, spent) then Some(Failed(InvalidProvider))
      else if !InPlace(read, p, item.ts) then Some(Failed(InvalidProvider))
      else if !read.allows(item.val) then Some(Failed(UnsupportedValue))
      else if charge.Some? then charge
      else if !read.shows(item.ts) then Some(Failed(InvalidProvider))
      else None
  }

  function Forward(p: Progress, item: Item): Progress {
    Progress(p.rows + 1, p.bytes + Size(item), p.work + Size(item), if p.first.None? then Some(item.ts) else p.first,
             Some(item.ts))
  }

  /** How many samples of a batch are forwarded, and why it stopped early. */
  function Accept(read: Read, budget: Budget, p: Progress, spent: nat, items: seq<Item>,
                  charges: nat -> Option<Terminal>): (nat, Progress, Option<Terminal>)
    decreases |items|
  {
    if items == [] then (0, p, None)
    else
      match Refusal(read, budget, p, spent, items[0], charges(p.rows))
      case Some(terminal) => (0, p, Some(terminal))
      case None =>
        var (n, q, terminal) := Accept(read, budget, Forward(p, items[0]), spent + Size(items[0]), items[1..], charges);
        (n + 1, q, terminal)
  }

  /** A completion claim is believed only if the retained endpoints inside the window
      were delivered, and all samples when both are. */
  predicate Believed(read: Read, p: Progress) {
    var c := read.meta.coverage;
    c.first.Some? && c.last.Some? ==>
      var includesFirst := read.start <= c.first.value < read.end;
      var includesLast := read.start <= c.last.value < read.end;
      && (includesFirst ==> p.first == c.first) && (includesLast ==> p.last == c.last)
      && (includesFirst && includesLast ==> p.rows == c.count)
  }

  function Verdict(read: Read, p: Progress, terminal: Option<Terminal>): Option<Terminal> {
    if terminal == Some(Complete) && !Believed(read, p) then Some(Failed(InvalidProvider)) else terminal
  }

  predicate WellFormed(batch: Batch, budget: Budget) {
    && |batch.items| <= budget.rows && (batch.terminal.Some? ==> ValidTerminal(batch.terminal.value))
    && !(batch.items == [] && batch.terminal.None?)
  }

  function FaultTerminal(fault: Fault, stop: Reason): Terminal {
    match fault
    case Changed => Interrupted(GenerationChanged)
    case Stopped => Interrupted(stop)
    case Limit => Limited(Reason.Work)
    case Other => Failed(Provider)
  }

  /** What a round forwards and how the session stands after it. */
  datatype Round = Round(samples: seq<Item>, progress: Progress, terminal: Option<Terminal>)

  function Judge(read: Read, budget: Budget, p: Progress, response: Result<Batch, Fault>, current: Meta,
                 charges: nat -> Option<Terminal>, stop: Reason): Round
  {
    match response
    case Err(fault) => Round([], p, Some(FaultTerminal(fault, stop)))
    case Ok(batch) =>
      if current != read.meta || !WellFormed(batch, budget) then Round([], p, Some(Failed(InvalidProvider)))
      else
        var (n, q, early) := Accept(read, budget, p, 0, batch.items, charges);
        AcceptBounds(read, budget, p, 0, batch.items, charges);
        Round(batch.items[..n], q, Verdict(read, q, if early.Some? then early else batch.terminal))
  }

  lemma {:induction false} AcceptBounds(read: Read, budget: Budget, p: Progress, spent: nat, items: seq<Item>,
                                        charges: nat -> Option<Terminal>)
    ensures Accept(read, budget, p, spent, items, charges).0 <= |items|
    decreases |items|
  {
    hide Refusal;
    if items != [] && Refusal(read, budget, p, spent, items[0], charges(p.rows)).None? {
      AcceptBounds(read, budget, Forward(p, items[0]), spent + Size(items[0]), items[1..], charges);
    }
  }

  /** Accepting from one position on: the sample there is refused, or forwarded. */
  lemma AcceptStep(read: Read, budget: Budget, p: Progress, spent: nat, items: seq<Item>, k: nat,
                   charges: nat -> Option<Terminal>)
    requires k < |items|
    ensures Accept(read, budget, p, spent, items[k..], charges) ==
      match Refusal(read, budget, p, spent, items[k], charges(p.rows))
      case Some(terminal) => (0, p, Some(terminal))
      case None =>
        var rest := Accept(read, budget, Forward(p, items[k]), spent + Size(items[k]), items[k + 1..], charges);
        (rest.0 + 1, rest.1, rest.2)
  {
    hide Refusal, Forward, Size;
    assert items[k..][1..] == items[k + 1..];
  }

  lemma AcceptNothing(read: Read, budget: Budget, p: Progress, spent: nat, items: seq<Item>,
                      charges: nat -> Option<Terminal>)
    requires items == []
    ensures Accept(read, budget, p, spent, items, charges) == (0, p, None)
  {
  }

  lemma ForwardIs(p: Progress, item: Item)
    ensures Forward(p, item) == Progress(p.rows + 1, p.bytes + Size(item), p.work + Size(item),
                                         if p.first.None? then Some(item.ts) else p.first, Some(item.ts))
  {
  }

  class Coordinator {
    const read: Read
    var rows: nat
    var bytes: nat
    var work: nat
    var first: Option<int>
    var last: Option<int>

    function Value(): Progress
      reads this
    {
      Progress(rows, bytes, work, first, last)
    }

    constructor (read: Read)
      ensures this.read == read && Value() == Progress(0, 0, 0, None, None)
    {
      this.read := read;
      rows, bytes, work, first, last := 0, 0, 0, None, None;
    }

    /** Forward samples until one is refused. */
    method ForwardItems(budget: Budget, items: seq<Item>, charges: nat -> Option<Terminal>)
      returns (k: nat, refusal: Option<Terminal>)
      modifies this
      ensures (k, Value(), refusal) == Accept(read, budget, old(Value()), 0, items, charges)
    {
      hide Refusal, Size, Accept, Forward;
      var spent: nat := 0;
      ghost var goal := Accept(read, budget, Value(), 0, items, charges);
      k := 0;
      assert items[0..] == items;
      while k < |items|
        invariant 0 <= k <= |items|
        invariant var rest := Accept(read, budget, Value(), spent, items[k..], charges);
          goal == (k + rest.0, rest.1, rest.2)
      {
        var item := items[k];
        AcceptStep(read, budget, Value(), spent, items, k, charges);
        ForwardIs(Value(), item);
        refusal := Refusal(read, budget, Value(), spent, item, charges(rows));
        if refusal.Some? {
          return;
        }
        rows, bytes, work := rows + 1, bytes + Size(item), work + Size(item);
        first := if first.None? then Some(item.ts) else first;
        last := Some(item.ts);
        spent := spent + Size(item);
        k := k + 1;
      }
      AcceptNothing(read, budget, Value(), spent, items[k..], charges);
      refusal := None;
    }

    /** Check one response and forward what passes. */
    method Receive(budget: Budget, response: Result<Batch, Fault>, current: Meta, charges: nat -> Option<Terminal>,
                   stop: Reason)
      returns (samples: seq<Item>, terminal: Option<Terminal>)
      modifies this
      ensures Round(samples, Value(), terminal) == Judge(read, budget, old(Value()), response, current, charges, stop)
    {
      hide Accept, Believed, WellFormed;
      if response.Err? {
        return [], Some(FaultTerminal(response.error, stop));
      }
      var batch := response.value;
      if current != read.meta || !WellFormed(batch, budget) {
        return [], Some(Failed(InvalidProvider));
      }
      AcceptBounds(read, budget, Value(), 0, batch.items, charges);
      var k, refusal := ForwardItems(budget, batch.items, charges);
      samples := batch.items[..k];
      terminal := if refusal.Some? then refusal else batch.terminal;
      if terminal == Some(Complete) && !Believed(read, Value()) {
        terminal := Some(Failed(InvalidProvider));
      }
    }
  }
}
