/** Whole read sessions: the coordinator against any provider, and against the honest one. */
module ReadSessions {
  import opened Prelude
  import opened Series
  import opened Reads
  import Store

  datatype Bounds = Bounds(
    batchRows: nat, totalRows: nat, maxRows: nat, batchBytes: nat, totalBytes: nat, maxOutputBytes: nat,
    totalWork: nat, maxWork: nat, wire: bool, workHeadroom: nat, bytesHeadroom: nat)

  const FRAME_BYTES: nat := 131_072

  function RowCap(b: Bounds): nat {
    Min(b.totalRows, b.maxRows)
  }

  function ByteCap(b: Bounds): nat {
    Min(b.totalBytes, Monus(b.maxOutputBytes, FRAME_BYTES) / 6)
  }

  function WorkCap(b: Bounds): nat {
    Min(b.totalWork, b.maxWork)
  }

  /** What the next pull may take, given what is left of the request's own budget. */
  function PullBudget(b: Bounds, p: Progress, retained: nat, workLeft: nat): Budget {
    Budget(
      Min(b.batchRows, Monus(RowCap(b), p.rows)),
      Min(Min(b.batchBytes, Monus(ByteCap(b), p.bytes)), Monus(retained, b.bytesHeadroom) / (if b.wire then 64 else 1)),
      Min(Monus(WorkCap(b), p.work), Monus(workLeft, b.workHeadroom) / (if b.wire then 32 else 1)))
  }

  /** One exchange with a provider, and everything else that may interrupt it. */
  datatype Turn = Turn(
    response: Result<Batch, Fault>, current: Meta, charges: nat -> Option<Terminal>, stop: Reason,
    retained: nat, workLeft: nat, interrupted: Option<Terminal>)

  /** Budgets and revalidation limit or interrupt a read; they never fail or complete it. */
  ghost predicate Outside(turn: Turn) {
    && (turn.interrupted.Some? ==> turn.interrupted.value.Limited? || turn.interrupted.value.Interrupted?)
    && forall n :: turn.charges(n).Some? ==> turn.charges(n).value.Limited? || turn.charges(n).value.Interrupted?
  }

  function Exchange(read: Read, b: Bounds, p: Progress, turn: Turn): Round {
    var budget := PullBudget(b, p, turn.retained, turn.workLeft);
    if turn.interrupted.Some? then Round([], p, turn.interrupted)
    else if budget.rows == 0 then Round([], p, Some(Limited(Rows)))
    else if budget.bytes == 0 then Round([], p, Some(Limited(Reason.Bytes)))
    else if budget.work == 0 then Round([], p, Some(Limited(Reason.Work)))
    else Judge(read, budget, p, turn.response, turn.current, turn.charges, turn.stop)
  }

  /** A session: exchanges until one ends it. */
  function Drive(read: Read, b: Bounds, p: Progress, turns: seq<Turn>): Round
    decreases |turns|
  {
    if turns == [] then Round([], p, None)
    else
      var round := Exchange(read, b, p, turns[0]);
      if round.terminal.Some? then round
      else
        var rest := Drive(read, b, round.progress, turns[1..]);
        Round(round.samples + rest.samples, rest.progress, rest.terminal)
  }

  function Fresh(): Progress {
    Progress(0, 0, 0, None, None)
  }

  // ---------------------------------------------------------------- soundness against any provider

  ghost predicate Placed(read: Read, item: Item) {
    var c := read.meta.coverage;
    && read.start <= item.ts < read.end && c.first.Some? && c.last.Some? && c.first.value <= item.ts <= c.last.value
    && SampleBytes(item.val).Some? && read.allows(item.val) && read.shows(item.ts)
  }

  ghost predicate AllPlaced(read: Read, out: seq<Item>) {
    forall i :: 0 <= i < |out| ==> Placed(read, out[i])
  }

  /** The coordinator's counters describe exactly what it has forwarded. */
  ghost predicate Tracks(read: Read, out: seq<Item>, p: Progress) {
    && Sorted(out) && AllPlaced(read, out)
    && p.rows == |out| <= read.meta.coverage.count && p.bytes == p.work == Total(out)
    && (if out == [] then p.first.None? && p.last.None?
        else p.first == Some(out[0].ts) && p.last == Some(out[|out| - 1].ts))
  }

  ghost predicate WithinBounds(b: Bounds, p: Progress) {
    p.rows <= RowCap(b) && p.bytes <= ByteCap(b) && p.work <= WorkCap(b)
  }

  lemma ForwardTracks(read: Read, budget: Budget, out: seq<Item>, p: Progress, spent: nat, item: Item,
                      charge: Option<Terminal>)
    requires Tracks(read, out, p) && Refusal(read, budget, p, spent, item, charge).None?
    ensures Tracks(read, out + [item], Forward(p, item)) && spent + Size(item) <= budget.bytes
    ensures spent + Size(item) <= budget.work
  {
    hide Total;
    TotalStep(out, item);
    assert Placed(read, item);
    var next := out + [item];
    forall i, j | 0 <= i < j < |next|
      ensures next[i].ts < next[j].ts
    {
      if j == |out| {
        assert out[i].ts <= out[|out| - 1].ts;
      }
    }
  }

  lemma {:induction false} AcceptTracks(read: Read, budget: Budget, out: seq<Item>, p: Progress, spent: nat,
                                        items: seq<Item>, charges: nat -> Option<Terminal>)
    requires Tracks(read, out, p) && spent <= budget.bytes && spent <= budget.work
    ensures var (n, q, early) := Accept(read, budget, p, spent, items, charges);
      && n <= |items| && Tracks(read, out + items[..n], q) && q.rows == p.rows + n
      && spent + q.bytes - p.bytes <= budget.bytes && spent + q.work - p.work <= budget.work
      && (early.None? ==> n == |items|)
    decreases |items|
  {
    hide Refusal, Tracks;
    if items == [] {
      assert out + items[..0] == out;
      TracksEqual(read, out, p);
    } else if Refusal(read, budget, p, spent, items[0], charges(p.rows)).Some? {
      assert out + items[..0] == out;
      TracksEqual(read, out, p);
    } else {
      ForwardTracks(read, budget, out, p, spent, items[0], charges(p.rows));
      AcceptTracks(read, budget, out + [items[0]], Forward(p, items[0]), spent + Size(items[0]), items[1..], charges);
      TracksEqual(read, out, p);
      var n := Accept(read, budget, p, spent, items, charges).0;
      assert out + [items[0]] + items[1..][..n - 1] == out + items[..n];
    }
  }

  lemma TracksEqual(read: Read, out: seq<Item>, p: Progress)
    requires Tracks(read, out, p)
    ensures p.bytes == p.work
  {
  }

  lemma ExchangeTracks(read: Read, b: Bounds, out: seq<Item>, p: Progress, turn: Turn)
    requires Tracks(read, out, p) && WithinBounds(b, p) && Outside(turn)
    ensures var round := Exchange(read, b, p, turn);
      && Tracks(read, out + round.samples, round.progress) && WithinBounds(b, round.progress)
      && (round.terminal == Some(Complete) ==> Believed(read, round.progress))
  {
    hide Tracks, Believed;
    assert out + [] == out;
    var budget := PullBudget(b, p, turn.retained, turn.workLeft);
    if turn.response.Ok? && turn.interrupted.None? && budget.rows > 0 && budget.bytes > 0 && budget.work > 0 {
      var batch := turn.response.value;
      AcceptTracks(read, budget, out, p, 0, batch.items, turn.charges);
    }
  }

  lemma {:induction false} DriveTracks(read: Read, b: Bounds, out: seq<Item>, p: Progress, turns: seq<Turn>)
    requires Tracks(read, out, p) && WithinBounds(b, p) && forall i :: 0 <= i < |turns| ==> Outside(turns[i])
    ensures var round := Drive(read, b, p, turns);
      && Tracks(read, out + round.samples, round.progress) && WithinBounds(b, round.progress)
      && (round.terminal == Some(Complete) ==> Believed(read, round.progress))
    decreases |turns|
  {
    hide Tracks, Believed, Exchange, WithinBounds, Outside;
    assert out + [] == out;
    if turns != [] {
      ExchangeTracks(read, b, out, p, turns[0]);
      var round := Exchange(read, b, p, turns[0]);
      if round.terminal.None? {
        DriveTracks(read, b, out + round.samples, round.progress, turns[1..]);
        var rest := Drive(read, b, round.progress, turns[1..]);
        assert out + round.samples + rest.samples == out + (round.samples + rest.samples);
      }
    }
  }

  /** Whatever a provider returns: the forwarded samples are strictly increasing, inside
      the range and the retained bounds, within every total; and the read completes only
      if the retained endpoints inside the range were delivered, with nothing missing in
      number when both are. */
  lemma CoordinatorSound(read: Read, b: Bounds, turns: seq<Turn>)
    requires forall i :: 0 <= i < |turns| ==> Outside(turns[i])
    ensures var round := Drive(read, b, Fresh(), turns);
      var out, c := round.samples, read.meta.coverage;
      && Sorted(out) && AllPlaced(read, out)
      && |out| <= RowCap(b) && |out| <= c.count && Total(out) <= ByteCap(b) && Total(out) <= WorkCap(b)
      && (round.terminal == Some(Complete) && c.first.Some? && c.last.Some? ==>
            && (read.start <= c.first.value < read.end ==> out != [] && out[0].ts == c.first.value)
            && (read.start <= c.last.value < read.end ==> out != [] && out[|out| - 1].ts == c.last.value)
            && (read.start <= c.first.value < read.end && read.start <= c.last.value < read.end ==> |out| == c.count))
  {
    hide AllPlaced, Drive, Sorted, Tracks, Total, Believed;
    NothingForwarded(read);
    DriveTracks(read, b, [], Fresh(), turns);
    var round := Drive(read, b, Fresh(), turns);
    assert [] + round.samples == round.samples;
    TracksMeans(read, round.samples, round.progress);
  }

  lemma NothingForwarded(read: Read)
    ensures Tracks(read, [], Fresh())
  {
  }

  /** What the counters and a believed claim say about the samples themselves. */
  lemma TracksMeans(read: Read, out: seq<Item>, p: Progress)
    requires Tracks(read, out, p)
    ensures Sorted(out) && AllPlaced(read, out) && p.rows == |out| <= read.meta.coverage.count
    ensures p.bytes == p.work == Total(out)
    ensures var c := read.meta.coverage;
      Believed(read, p) && c.first.Some? && c.last.Some? ==>
        && (read.start <= c.first.value < read.end ==> out != [] && out[0].ts == c.first.value)
        && (read.start <= c.last.value < read.end ==> out != [] && out[|out| - 1].ts == c.last.value)
        && (read.start <= c.first.value < read.end && read.start <= c.last.value < read.end ==> |out| == c.count)
  {
    hide Total, AllPlaced, Sorted;
  }

  // ---------------------------------------------------------------- the honest provider

  /** Metadata of a stored series always passes. */
  lemma HonestMeta(p: Store.PointSeries)
    requires Stored(p.window)
    ensures MetaOk(Meta(p.version, true, CoverageOf(p.window)))
  {
  }

  /** A pull with room for a row yields a row or ends the read. */
  lemma FillProgress(items: seq<Item>, cursor: nat, end: int, budget: Budget)
    requires cursor <= |items| && budget.rows > 0
    ensures var (n, terminal) := Fill(items, cursor, end, budget, 0, 0); n > 0 || terminal.Some?
  {
  }

  /** One pull takes consecutive samples inside the range and the budget, and claims
      completion exactly at the end of the range. */
  lemma {:induction false} FillBounds(items: seq<Item>, cursor: nat, end: int, budget: Budget, taken: nat, bytes: nat)
    requires Sorted(items) && cursor <= |items| && taken <= budget.rows && bytes <= budget.bytes && bytes <= budget.work
    ensures var (n, terminal) := Fill(items, cursor, end, budget, taken, bytes);
      && cursor + n <= |items| && taken + n <= budget.rows
      && (forall i :: cursor <= i < cursor + n ==> items[i].ts < end && SampleBytes(items[i].val).Some?)
      && (terminal == Some(Complete) <==> cursor + n == |items| || items[cursor + n].ts >= end)
      && (terminal.Some? ==>
            terminal.value in {Complete, Failed(UnsupportedValue), Limited(Reason.Bytes), Limited(Reason.Work)})
    decreases |items| - cursor
  {
    hide SampleBytes, Sorted;
    if cursor < |items| && items[cursor].ts < end && taken < budget.rows && SampleBytes(items[cursor].val).Some? {
      var size := SampleBytes(items[cursor].val).value;
      if size <= Monus(budget.bytes, bytes) && size <= Monus(budget.work, bytes) {
        FillBounds(items, cursor + 1, end, budget, taken + 1, bytes + size);
      }
    }
  }

  /** The read that a session over this series serves. */
  ghost predicate Serves(read: Read, p: Store.PointSeries) {
    && Stored(p.window) && read.meta == Meta(p.version, true, CoverageOf(p.window))
    && forall ts :: read.shows(ts)
  }

  ghost predicate AtCursor(read: Read, p: Store.PointSeries, cursor: nat, progress: Progress) {
    var items, from := p.window.items, LowerBound(p.window.items, read.start);
    && from <= cursor <= |items|
    && progress.rows == cursor - from
    && (if cursor == from then progress.first.None? && progress.last.None?
        else progress.first == Some(items[from].ts) && progress.last == Some(items[cursor - 1].ts))
  }

  lemma HonestSample(read: Read, p: Store.PointSeries, cursor: nat, progress: Progress)
    requires Serves(read, p) && AtCursor(read, p, cursor, progress) && cursor < |p.window.items|
    requires p.window.items[cursor].ts < read.end
    ensures InPlace(read, progress, p.window.items[cursor].ts)
    ensures AtCursor(read, p, cursor + 1, Forward(progress, p.window.items[cursor]))
  {
    LowerBoundSplits(p.window.items, read.start);
  }

  /** The coordinator takes every honest sample its budget and schema allow. */
  lemma {:induction false} HonestAccepted(read: Read, p: Store.PointSeries, budget: Budget, cursor: nat,
                                          progress: Progress, taken: nat, bytes: nat, charges: nat -> Option<Terminal>)
    requires Serves(read, p) && AtCursor(read, p, cursor, progress)
    requires taken <= budget.rows && bytes <= budget.bytes && bytes <= budget.work
    requires forall n :: charges(n).Some? ==> charges(n).value.Limited? || charges(n).value.Interrupted?
    ensures var items := p.window.items;
      var n := Fill(items, cursor, read.end, budget, taken, bytes).0;
      && cursor + n <= |items|
      && (var (k, q, early) := Accept(read, budget, progress, bytes, items[cursor..cursor + n], charges);
          && k <= n && (early.None? ==> k == n) && AtCursor(read, p, cursor + k, q)
          && (early.Some? ==> early.value != Complete && early.value != Failed(InvalidProvider)))
    decreases |p.window.items| - cursor
  {
    hide Accept, Fill, Refusal, Forward, Size, AtCursor, Serves, Sorted;
    var items := p.window.items;
    CursorIn(read, p, cursor, progress);
    FillBounds(items, cursor, read.end, budget, taken, bytes);
    var n := Fill(items, cursor, read.end, budget, taken, bytes).0;
    var batch := items[cursor..cursor + n];
    if n == 0 {
      AcceptNothing(read, budget, progress, bytes, batch, charges);
    } else {
      var item := items[cursor];
      FillTook(items, cursor, read.end, budget, taken, bytes);
      HonestSample(read, p, cursor, progress);
      assert batch[0..] == batch && batch[1..] == items[cursor + 1..cursor + n];
      AcceptStep(read, budget, progress, bytes, batch, 0, charges);
      HonestRefusal(read, p, budget, progress, bytes, item, charges(progress.rows));
      if Refusal(read, budget, progress, bytes, item, charges(progress.rows)).None? {
        HonestAccepted(read, p, budget, cursor + 1, Forward(progress, item), taken + 1, bytes + Size(item), charges);
      }
    }
  }

  /** A pull that takes a sample had room for it, and goes on from the next one. */
  lemma FillTook(items: seq<Item>, cursor: nat, end: int, budget: Budget, taken: nat, bytes: nat)
    requires cursor <= |items| && bytes <= budget.bytes && bytes <= budget.work
    requires Fill(items, cursor, end, budget, taken, bytes).0 > 0
    ensures cursor < |items| && items[cursor].ts < end && taken < budget.rows && SampleBytes(items[cursor].val).Some?
    ensures bytes + Size(items[cursor]) <= budget.bytes && bytes + Size(items[cursor]) <= budget.work
    ensures Fill(items, cursor, end, budget, taken, bytes).0
            == 1 + Fill(items, cursor + 1, end, budget, taken + 1, bytes + Size(items[cursor])).0
  {
    hide SampleBytes;
  }

  /** A sample in its place and in budget is refused only for its value or by the budget. */
  lemma HonestRefusal(read: Read, p: Store.PointSeries, budget: Budget, progress: Progress, bytes: nat, item: Item,
                      charge: Option<Terminal>)
    requires Serves(read, p) && InPlace(read, progress, item.ts) && SampleBytes(item.val).Some?
    requires bytes + Size(item) <= budget.bytes && bytes + Size(item) <= budget.work
    requires charge.Some? ==> charge.value.Limited? || charge.value.Interrupted?
    ensures var refusal := Refusal(read, budget, progress, bytes, item, charge);
      refusal.Some? ==> refusal.value != Complete && refusal.value != Failed(InvalidProvider)
  {
    hide SampleBytes, InPlace;
    Shown(read, p, item.ts);
  }

  lemma CursorIn(read: Read, p: Store.PointSeries, cursor: nat, progress: Progress)
    requires Serves(read, p) && AtCursor(read, p, cursor, progress)
    ensures Sorted(p.window.items) && cursor <= |p.window.items|
  {
  }

  lemma Shown(read: Read, p: Store.PointSeries, ts: int)
    requires Serves(read, p)
    ensures read.shows(ts)
  {
  }

  /** Every exchange of the session is with the honest producer. */
  ghost predicate Honest(read: Read, b: Bounds, p: Store.PointSeries, cursor: nat, progress: Progress, turns: seq<Turn>)
    decreases |turns|
  {
    turns == [] ||
    (var turn := turns[0];
     var items := p.window.items;
     && Outside(turn) && turn.current == read.meta && cursor <= |items|
     && (var budget := PullBudget(b, progress, turn.retained, turn.workLeft);
         var (n, terminal) := Fill(items, cursor, read.end, budget, 0, 0);
         && cursor + n <= |items| && turn.response == Ok(Batch(items[cursor..cursor + n], terminal))
         && (var round := Exchange(read, b, progress, turn);
             round.terminal.None? ==> Honest(read, b, p, cursor + |round.samples|, round.progress, turns[1..]))))
  }

  lemma CompleteBelieved(read: Read, p: Store.PointSeries, cursor: nat, progress: Progress)
    requires Serves(read, p) && AtCursor(read, p, cursor, progress)
    requires cursor == |p.window.items| || p.window.items[cursor].ts >= read.end
    ensures Believed(read, progress)
  {
    LowerBoundSplits(p.window.items, read.start);
  }

  /** What an honest exchange leaves behind. */
  ghost predicate Advanced(read: Read, p: Store.PointSeries, cursor: nat, round: Round) {
    var items, next := p.window.items, cursor + |round.samples|;
    && next <= |items| && round.samples == items[cursor..next]
    && (forall i :: cursor <= i < next ==> items[i].ts < read.end)
    && round.terminal != Some(Failed(InvalidProvider))
    && (round.terminal == Some(Complete) ==> next == |items| || items[next].ts >= read.end)
  }

  lemma Stalled(read: Read, p: Store.PointSeries, cursor: nat, round: Round)
    requires cursor <= |p.window.items| && round.samples == []
    requires round.terminal.Some? ==> round.terminal.value.Limited? || round.terminal.value.Interrupted?
    ensures Advanced(read, p, cursor, round)
  {
  }

  lemma HonestJudge(read: Read, p: Store.PointSeries, cursor: nat, progress: Progress, budget: Budget, turn: Turn)
    requires Serves(read, p) && AtCursor(read, p, cursor, progress) && budget.rows > 0 && cursor <= |p.window.items|
    requires Outside(turn) && turn.current == read.meta
    requires var (n, terminal) := Fill(p.window.items, cursor, read.end, budget, 0, 0);
      cursor + n <= |p.window.items| && turn.response == Ok(Batch(p.window.items[cursor..cursor + n], terminal))
    ensures var round := Judge(read, budget, progress, turn.response, turn.current, turn.charges, turn.stop);
      Advanced(read, p, cursor, round) && AtCursor(read, p, cursor + |round.samples|, round.progress)
  {
    hide AtCursor, Serves, Believed, Sorted, Fill, Accept;
    var items := p.window.items;
    CursorIn(read, p, cursor, progress);
    FillBounds(items, cursor, read.end, budget, 0, 0);
    FillProgress(items, cursor, read.end, budget);
    var (n, terminal) := Fill(items, cursor, read.end, budget, 0, 0);
    var batch := items[cursor..cursor + n];
    HonestAccepted(read, p, budget, cursor, progress, 0, 0, turn.charges);
    var (k, q, early) := Accept(read, budget, progress, 0, batch, turn.charges);
    Slice(items, cursor, n, k);
    if early.None? && terminal == Some(Complete) {
      CompleteBelieved(read, p, cursor + n, q);
    }
  }

  lemma Slice(items: seq<Item>, cursor: nat, n: nat, k: nat)
    requires k <= n && cursor + n <= |items|
    ensures items[cursor..cursor + n][..k] == items[cursor..cursor + k]
  {
  }

  lemma HonestExchange(read: Read, b: Bounds, p: Store.PointSeries, cursor: nat, progress: Progress, turn: Turn)
    requires Serves(read, p) && AtCursor(read, p, cursor, progress) && Honest(read, b, p, cursor, progress, [turn])
    ensures var round := Exchange(read, b, progress, turn);
      Advanced(read, p, cursor, round) && AtCursor(read, p, cursor + |round.samples|, round.progress)
  {
    hide AtCursor, Serves, Advanced, Fill, PullBudget, Judge;
    CursorIn(read, p, cursor, progress);
    var budget := PullBudget(b, progress, turn.retained, turn.workLeft);
    if turn.interrupted.None? && budget.rows > 0 && budget.bytes > 0 && budget.work > 0 {
      HonestJudge(read, p, cursor, progress, budget, turn);
    } else {
      Stalled(read, p, cursor, Exchange(read, b, progress, turn));
    }
  }

  /** The samples of a series in a half-open range. */
  function InRange(items: seq<Item>, start: int, end: int): seq<Item> {
    if LowerBound(items, start) <= LowerBound(items, end)
    then items[LowerBound(items, start)..LowerBound(items, end)]
    else []
  }

  lemma AdvancedTwice(read: Read, p: Store.PointSeries, cursor: nat, round: Round, rest: Round)
    requires Advanced(read, p, cursor, round) && Advanced(read, p, cursor + |round.samples|, rest)
    ensures Advanced(read, p, cursor, Round(round.samples + rest.samples, rest.progress, rest.terminal))
  {
    var items, next := p.window.items, cursor + |round.samples|;
    assert items[cursor..next] + items[next..next + |rest.samples|] == items[cursor..next + |rest.samples|];
  }

  lemma {:induction false} HonestDrive(read: Read, b: Bounds, p: Store.PointSeries, cursor: nat, progress: Progress,
                                       turns: seq<Turn>)
    requires Serves(read, p) && AtCursor(read, p, cursor, progress) && Honest(read, b, p, cursor, progress, turns)
    ensures Advanced(read, p, cursor, Drive(read, b, progress, turns))
    decreases |turns|
  {
    hide AtCursor, Serves, Exchange, Fill, PullBudget, Advanced;
    CursorIn(read, p, cursor, progress);
    if turns == [] {
      Stalled(read, p, cursor, Drive(read, b, progress, turns));
    } else {
      HonestExchange(read, b, p, cursor, progress, turns[0]);
      var round := Exchange(read, b, progress, turns[0]);
      if round.terminal.None? {
        HonestDrive(read, b, p, cursor + |round.samples|, round.progress, turns[1..]);
        AdvancedTwice(read, p, cursor, round, Drive(read, b, round.progress, turns[1..]));
      }
    }
  }

  /** Reading an unchanged series forwards consecutive samples from the start of the
      range, is never called an invalid provider, and when complete has forwarded
      exactly the samples in the range. */
  lemma HonestExact(read: Read, b: Bounds, p: Store.PointSeries, turns: seq<Turn>)
    requires Serves(read, p) && Honest(read, b, p, LowerBound(p.window.items, read.start), Fresh(), turns)
    ensures MetaOk(read.meta)
    ensures var round := Drive(read, b, Fresh(), turns);
      && round.samples <= InRange(p.window.items, read.start, read.end)
      && round.terminal != Some(Failed(InvalidProvider))
      && (round.terminal == Some(Complete) ==> round.samples == InRange(p.window.items, read.start, read.end))
  {
    hide Drive, Honest, MetaOk;
    var items, from := p.window.items, LowerBound(p.window.items, read.start);
    HonestMeta(p);
    HonestDrive(read, b, p, from, Fresh(), turns);
    LowerBoundSplits(items, read.start);
    LowerBoundSplits(items, read.end);
    var round := Drive(read, b, Fresh(), turns);
    var next, to := from + |round.samples|, LowerBound(items, read.end);
    assert next > from ==> items[next - 1].ts < read.end;
    if from <= to {
      assert next <= to;
      assert items[from..to][..next - from] == items[from..next];
    }
  }

  // ---------------------------------------------------------------- an ample honest read completes

  /** Nothing outside the read gets in its way: no interruption, no failed charge, and at
      least the session's own caps left of the request's budget. */
  ghost predicate Unhindered(b: Bounds, turn: Turn) {
    && turn.interrupted.None? && (forall n :: turn.charges(n).None?)
    && ByteCap(b) <= Monus(turn.retained, b.bytesHeadroom) / (if b.wire then 64 else 1)
    && WorkCap(b) <= Monus(turn.workLeft, b.workHeadroom) / (if b.wire then 32 else 1)
  }

  /** Caps that cover the samples of a read, each of which a batch can hold. */
  ghost predicate Enough(read: Read, b: Bounds, wanted: seq<Item>) {
    && 0 < b.batchRows && 0 < b.batchBytes
    && Max(1, |wanted|) <= RowCap(b) && Max(1, Total(wanted)) <= ByteCap(b) && Max(1, Total(wanted)) <= WorkCap(b)
    && forall i :: 0 <= i < |wanted| ==>
         SampleBytes(wanted[i].val).Some? && Size(wanted[i]) <= b.batchBytes && read.allows(wanted[i].val)
  }

  lemma {:induction false} TotalAppend(a: seq<Item>, c: seq<Item>)
    ensures Total(a + c) == Total(a) + Total(c)
    decreases |c|
  {
    if c == [] {
      assert a + c == a;
    } else {
      TotalAppend(a, c[..|c| - 1]);
      assert (a + c)[..|a + c| - 1] == a + c[..|c| - 1];
    }
  }

  lemma TotalPrefix(items: seq<Item>, k: nat)
    requires k < |items|
    ensures Total(items[..k]) + Size(items[k]) <= Total(items)
  {
    TotalAppend(items[..k + 1], items[k + 1..]);
    assert items[..k + 1] + items[k + 1..] == items;
    assert items[..k + 1][..k] == items[..k];
  }

  /** A pull that does not finish the range for want of rows or bytes ends only when it may
      not take another sample, and never for the first one. */
  lemma FillFeeds(items: seq<Item>, cursor: nat, end: int, budget: Budget)
    requires cursor < |items| && items[cursor].ts < end && SampleBytes(items[cursor].val).Some?
    requires budget.rows > 0 && Size(items[cursor]) <= budget.bytes && Size(items[cursor]) <= budget.work
    ensures Fill(items, cursor, end, budget, 0, 0).0 > 0
  {
    hide SampleBytes;
  }

  /** A sample of the range whose value no series may carry. */
  predicate Unsupported(items: seq<Item>, i: nat, end: int) {
    i < |items| && items[i].ts < end && SampleBytes(items[i].val).None?
  }

  /** Past its first sample, a pull ends without a verdict, completes, or meets a value no
      series may carry. */
  lemma {:induction false} FillEnds(items: seq<Item>, cursor: nat, end: int, budget: Budget, taken: nat, bytes: nat)
    requires cursor <= |items| && taken > 0
    ensures var (n, terminal) := Fill(items, cursor, end, budget, taken, bytes);
      && cursor + n <= |items|
      && (terminal.Some? ==> terminal.value == Complete || Unsupported(items, cursor + n, end))
    decreases |items| - cursor
  {
    hide SampleBytes;
    if cursor < |items| && items[cursor].ts < end && taken < budget.rows && SampleBytes(items[cursor].val).Some? {
      FillEnds(items, cursor + 1, end, budget, taken + 1, bytes + SampleBytes(items[cursor].val).value);
    }
  }

  /** The position of an honest session inside the samples it has to deliver. */
  ghost predicate Midway(read: Read, p: Store.PointSeries, wanted: seq<Item>, cursor: nat, progress: Progress) {
    var items, from := p.window.items, LowerBound(p.window.items, read.start);
    && Serves(read, p) && AtCursor(read, p, cursor, progress)
    && wanted == InRange(items, read.start, read.end)
    && cursor - from <= |wanted| && progress.bytes == progress.work == Total(wanted[..cursor - from])
  }

  /** Where the wanted samples lie in the series. */
  lemma WantedAt(read: Read, p: Store.PointSeries, wanted: seq<Item>)
    requires Serves(read, p) && wanted == InRange(p.window.items, read.start, read.end)
    ensures var items, from := p.window.items, LowerBound(p.window.items, read.start);
      && from + |wanted| <= |items| && items[from..from + |wanted|] == wanted
      && (forall i :: from <= i < from + |wanted| ==> items[i].ts < read.end)
      && (from + |wanted| == |items| || items[from + |wanted|].ts >= read.end)
  {
    LowerBoundSplits(p.window.items, read.start);
    LowerBoundSplits(p.window.items, read.end);
  }

  /** The next sample fits the next pull. */
  lemma NextFits(read: Read, b: Bounds, p: Store.PointSeries, wanted: seq<Item>, cursor: nat, progress: Progress,
                 turn: Turn)
    requires Midway(read, p, wanted, cursor, progress) && Enough(read, b, wanted) && Unhindered(b, turn)
    requires cursor - LowerBound(p.window.items, read.start) < |wanted|
    ensures var budget := PullBudget(b, progress, turn.retained, turn.workLeft);
      var item := p.window.items[cursor];
      && budget.rows > 0 && budget.bytes > 0 && budget.work > 0
      && item.ts < read.end && SampleBytes(item.val).Some? && Size(item) <= budget.bytes && Size(item) <= budget.work
  {
    hide Serves, InRange, RowCap, ByteCap, WorkCap;
    var k := cursor - LowerBound(p.window.items, read.start);
    WantedAt(read, p, wanted);
    TotalPrefix(wanted, k);
    assert wanted[k] == p.window.items[cursor];
    SampleCosts(wanted[k]);
  }

  lemma SampleCosts(item: Item)
    requires SampleBytes(item.val).Some?
    ensures 0 < Size(item)
  {
  }

  /** With nothing wanted, the first pull completes at once. */
  lemma NothingWanted(read: Read, b: Bounds, p: Store.PointSeries, wanted: seq<Item>, cursor: nat, progress: Progress,
                      turn: Turn)
    requires Midway(read, p, wanted, cursor, progress) && Enough(read, b, wanted) && Unhindered(b, turn) && wanted == []
    ensures var budget := PullBudget(b, progress, turn.retained, turn.workLeft);
      && budget.rows > 0 && budget.bytes > 0 && budget.work > 0
      && Fill(p.window.items, cursor, read.end, budget, 0, 0) == (0, Some(Complete))
  {
    hide Serves, InRange, RowCap, ByteCap, WorkCap;
    WantedAt(read, p, wanted);
    assert wanted[..0] == [];
    assert Total([]) == 0;
  }

  /** No honest sample of the range is refused. */
  lemma {:induction false} AllTaken(read: Read, p: Store.PointSeries, budget: Budget, cursor: nat, n: nat,
                                    progress: Progress, taken: nat, bytes: nat, charges: nat -> Option<Terminal>)
    requires Serves(read, p) && AtCursor(read, p, cursor, progress) && (forall k :: charges(k).None?)
    requires taken <= budget.rows && bytes <= budget.bytes && bytes <= budget.work
    requires n == Fill(p.window.items, cursor, read.end, budget, taken, bytes).0 && cursor + n <= |p.window.items|
    requires forall i :: cursor <= i < cursor + n ==> read.allows(p.window.items[i].val)
    ensures var items := p.window.items;
      var (k, q, early) := Accept(read, budget, progress, bytes, items[cursor..cursor + n], charges);
      && k == n && early.None? && q.bytes == progress.bytes + Total(items[cursor..cursor + n])
      && q.work == progress.work + Total(items[cursor..cursor + n])
    decreases n
  {
    hide Accept, Fill, Forward, Size, AtCursor, Serves, Refusal, InPlace;
    var items := p.window.items;
    var batch := items[cursor..cursor + n];
    if n == 0 {
      AcceptNothing(read, budget, progress, bytes, batch, charges);
      assert Total(batch) == 0;
    } else {
      var item := items[cursor];
      FillTook(items, cursor, read.end, budget, taken, bytes);
      HonestSample(read, p, cursor, progress);
      assert batch[0..] == batch && batch[1..] == items[cursor + 1..cursor + n];
      AcceptStep(read, budget, progress, bytes, batch, 0, charges);
      NotRefused(read, p, budget, progress, bytes, item, charges(progress.rows));
      ForwardIs(progress, item);
      AllTaken(read, p, budget, cursor + 1, n - 1, Forward(progress, item), taken + 1, bytes + Size(item), charges);
      TotalAppend([item], batch[1..]);
      assert batch == [item] + batch[1..];
      TotalStep([], item);
      assert [] + [item] == [item] && Total([]) == 0;
    }
  }

  lemma NotRefused(read: Read, p: Store.PointSeries, budget: Budget, progress: Progress, bytes: nat, item: Item,
                   charge: Option<Terminal>)
    requires Serves(read, p) && InPlace(read, progress, item.ts) && SampleBytes(item.val).Some? && read.allows(item.val)
    requires bytes + Size(item) <= budget.bytes && bytes + Size(item) <= budget.work && charge.None?
    ensures Refusal(read, budget, progress, bytes, item, charge).None?
  {
    hide SampleBytes, InPlace;
    Shown(read, p, item.ts);
  }

  /** One unhindered exchange completes the read, or forwards at least one sample and leaves
      the session midway. */
  lemma AmpleExchange(read: Read, b: Bounds, p: Store.PointSeries, wanted: seq<Item>, cursor: nat, progress: Progress,
                      turn: Turn)
    requires Midway(read, p, wanted, cursor, progress) && Enough(read, b, wanted) && Unhindered(b, turn)
    requires wanted == [] || cursor - LowerBound(p.window.items, read.start) < |wanted|
    requires Honest(read, b, p, cursor, progress, [turn])
    ensures var round := Exchange(read, b, progress, turn);
      || round.terminal == Some(Complete)
      || (&& round.terminal.None? && round.samples != []
          && Midway(read, p, wanted, cursor + |round.samples|, round.progress)
          && cursor + |round.samples| - LowerBound(p.window.items, read.start) < |wanted|)
  {
    hide Serves, AtCursor, Believed, Fill, Accept, PullBudget, InRange, Enough, Sorted, Midway, Unhindered;
    var items, from := p.window.items, LowerBound(p.window.items, read.start);
    var budget := PullBudget(b, progress, turn.retained, turn.workLeft);
    AmpleFill(read, b, p, wanted, cursor, progress, turn);
    var (n, terminal) := Fill(items, cursor, read.end, budget, 0, 0);
    MidwayParts(read, p, wanted, cursor, progress);
    UnhinderedParts(b, turn);
    HonestJudge(read, p, cursor, progress, budget, turn);
    AllTaken(read, p, budget, cursor, n, progress, 0, 0, turn.charges);
    var batch := items[cursor..cursor + n];
    var (k, q, early) := Accept(read, budget, progress, 0, batch, turn.charges);
    assert batch[..n] == batch;
    if terminal == Some(Complete) {
      FillBounds(items, cursor, read.end, budget, 0, 0);
      HonestAccepted(read, p, budget, cursor, progress, 0, 0, turn.charges);
      CompleteBelieved(read, p, cursor + n, q);
    } else {
      MidwayMoves(read, p, wanted, cursor, n, progress, q);
    }
  }

  lemma MidwayParts(read: Read, p: Store.PointSeries, wanted: seq<Item>, cursor: nat, progress: Progress)
    requires Midway(read, p, wanted, cursor, progress)
    ensures Serves(read, p) && AtCursor(read, p, cursor, progress) && cursor <= |p.window.items|
    ensures Sorted(p.window.items)
  {
    hide Serves, InRange;
    CursorIn(read, p, cursor, progress);
  }

  lemma UnhinderedParts(b: Bounds, turn: Turn)
    requires Unhindered(b, turn)
    ensures turn.interrupted.None? && forall n :: turn.charges(n).None?
  {
    hide ByteCap, WorkCap;
  }

  /** The pull of an unhindered exchange takes what is wanted until it completes, and every
      value it takes is allowed. */
  lemma AmpleFill(read: Read, b: Bounds, p: Store.PointSeries, wanted: seq<Item>, cursor: nat, progress: Progress,
                  turn: Turn)
    requires Midway(read, p, wanted, cursor, progress) && Enough(read, b, wanted) && Unhindered(b, turn)
    requires wanted == [] || cursor - LowerBound(p.window.items, read.start) < |wanted|
    ensures var items, from := p.window.items, LowerBound(p.window.items, read.start);
      var budget := PullBudget(b, progress, turn.retained, turn.workLeft);
      && cursor <= |items| && budget.rows > 0 && budget.bytes > 0 && budget.work > 0
      && (var (n, terminal) := Fill(items, cursor, read.end, budget, 0, 0);
          && cursor + n <= from + |wanted| <= |items|
          && (forall i :: cursor <= i < cursor + n ==> read.allows(items[i].val))
          && (terminal == Some(Complete) || (terminal.None? && n > 0 && cursor + n < from + |wanted|)))
  {
    hide Serves, AtCursor, Fill, PullBudget, InRange, SampleBytes, Sorted, Size, RowCap, ByteCap, WorkCap, Total,
         Unhindered;
    var items, from := p.window.items, LowerBound(p.window.items, read.start);
    var budget := PullBudget(b, progress, turn.retained, turn.workLeft);
    WantedAt(read, p, wanted);
    CursorIn(read, p, cursor, progress);
    AtCursorBounds(read, p, cursor, progress);
    if wanted == [] {
      NothingWanted(read, b, p, wanted, cursor, progress, turn);
    } else {
      NextFits(read, b, p, wanted, cursor, progress, turn);
      FillFeeds(items, cursor, read.end, budget);
      FillBounds(items, cursor, read.end, budget, 0, 0);
      var (n, terminal) := Fill(items, cursor, read.end, budget, 0, 0);
      FillTook(items, cursor, read.end, budget, 0, 0);
      FillRest(items, cursor, read.end, budget);
      FillEnds(items, cursor + 1, read.end, budget, 1, Size(items[cursor]));
      StopsInside(items, from, |wanted|, cursor, n, read.end);
      assert forall i :: from <= i < from + |wanted| ==> items[i] == wanted[i - from];
    }
  }

  lemma AtCursorBounds(read: Read, p: Store.PointSeries, cursor: nat, progress: Progress)
    requires AtCursor(read, p, cursor, progress)
    ensures LowerBound(p.window.items, read.start) <= cursor <= |p.window.items|
  {
  }

  /** After its first sample a pull goes on as a pull that has taken one. */
  lemma FillRest(items: seq<Item>, cursor: nat, end: int, budget: Budget)
    requires cursor < |items| && Fill(items, cursor, end, budget, 0, 0).0 > 0
    ensures Fill(items, cursor, end, budget, 0, 0).1 == Fill(items, cursor + 1, end, budget, 1, Size(items[cursor])).1
  {
    hide SampleBytes;
  }

  /** A pull of samples before the end of the range stays inside the wanted ones. */
  lemma StopsInside(items: seq<Item>, from: nat, wanted: nat, cursor: nat, n: nat, end: int)
    requires from <= cursor < from + wanted <= |items| && cursor + n <= |items|
    requires from + wanted == |items| || items[from + wanted].ts >= end
    requires forall i :: cursor <= i < cursor + n ==> items[i].ts < end
    ensures cursor + n <= from + wanted
  {
  }

  lemma MidwayMoves(read: Read, p: Store.PointSeries, wanted: seq<Item>, cursor: nat, n: nat, progress: Progress,
                    q: Progress)
    requires Midway(read, p, wanted, cursor, progress)
    requires var items, from := p.window.items, LowerBound(p.window.items, read.start);
      && cursor + n <= from + |wanted| <= |items| && AtCursor(read, p, cursor + n, q)
      && q.bytes == progress.bytes + Total(items[cursor..cursor + n])
      && q.work == progress.work + Total(items[cursor..cursor + n])
    ensures Midway(read, p, wanted, cursor + n, q)
  {
    hide Serves, InRange, Total;
    var items, from := p.window.items, LowerBound(p.window.items, read.start);
    WantedAt(read, p, wanted);
    var k := cursor - from;
    assert wanted[k..k + n] == items[cursor..cursor + n];
    TotalAppend(wanted[..k], wanted[k..k + n]);
    assert wanted[..k] + wanted[k..k + n] == wanted[..k + n];
  }

  lemma {:induction false} AmpleDrive(read: Read, b: Bounds, p: Store.PointSeries, wanted: seq<Item>, cursor: nat,
                                      progress: Progress, turns: seq<Turn>)
    requires Midway(read, p, wanted, cursor, progress) && Enough(read, b, wanted)
    requires Honest(read, b, p, cursor, progress, turns)
    requires wanted == [] || cursor - LowerBound(p.window.items, read.start) < |wanted|
    requires |wanted| - (cursor - LowerBound(p.window.items, read.start)) < |turns| && turns != []
    requires forall i :: 0 <= i < |turns| ==> Unhindered(b, turns[i])
    ensures Drive(read, b, progress, turns).terminal == Some(Complete)
    decreases |turns|
  {
    hide Midway, Enough, Exchange, Unhindered, Fill, PullBudget;
    AmpleExchange(read, b, p, wanted, cursor, progress, turns[0]);
    var round := Exchange(read, b, progress, turns[0]);
    if round.terminal.None? {
      AmpleDrive(read, b, p, wanted, cursor + |round.samples|, round.progress, turns[1..]);
    }
  }

  /** An honest read that nothing hinders, under caps that cover its range, completes within
      one pull more than it has samples, with exactly the samples of the range. */
  lemma HonestCompletes(read: Read, b: Bounds, p: Store.PointSeries, turns: seq<Turn>)
    requires Serves(read, p) && Honest(read, b, p, LowerBound(p.window.items, read.start), Fresh(), turns)
    requires Enough(read, b, InRange(p.window.items, read.start, read.end))
    requires |InRange(p.window.items, read.start, read.end)| < |turns|
    requires forall i :: 0 <= i < |turns| ==> Unhindered(b, turns[i])
    ensures var round := Drive(read, b, Fresh(), turns);
      round.terminal == Some(Complete) && round.samples == InRange(p.window.items, read.start, read.end)
  {
    hide Drive, Honest, Serves, Enough, Unhindered, InRange;
    var wanted := InRange(p.window.items, read.start, read.end);
    assert Total(wanted[..0]) == 0;
    AmpleDrive(read, b, p, wanted, LowerBound(p.window.items, read.start), Fresh(), turns);
    HonestExact(read, b, p, turns);
  }

  /** Reading a range is the map restricted to it: no sample of the range is skipped and
      none outside it is returned. */
  lemma InRangeExact(items: seq<Item>, start: int, end: int, ts: int)
    requires Sorted(items)
    ensures Has(InRange(items, start, end), ts) <==> start <= ts < end && Has(items, ts)
  {
    LowerBoundSplits(items, start);
    LowerBoundSplits(items, end);
    var from, to := LowerBound(items, start), LowerBound(items, end);
    if Has(items, ts) && start <= ts < end {
      var i :| 0 <= i < |items| && items[i].ts == ts;
      assert from <= i < to;
      assert InRange(items, start, end)[i - from].ts == ts;
    }
    if Has(InRange(items, start, end), ts) {
      var i :| 0 <= i < |InRange(items, start, end)| && InRange(items, start, end)[i].ts == ts;
      assert items[from + i].ts == ts;
    }
  }
}
