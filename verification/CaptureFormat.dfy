/** Captured samples: validation, greedy chunking, and their nine-column form. */
module CaptureFormat {
  import opened Prelude

  datatype Sample = Sample(seconds: int, nanos: nat, offset: int, zone: string, val: Value)

  function Instant(s: Sample): int {
    s.seconds * 1_000_000_000 + s.nanos
  }

  datatype Kind = BoolKind | NumberKind | StrKind

  datatype Header = Header(
    id: string, kind: Kind, zone: string, start: int, end: int, first: Option<int>, last: Option<int>,
    evicted: Option<int>, retained: nat, returned: nat, complete: bool, totalBytes: nat, totalWork: nat)

  datatype Limits = Limits(
    batchRows: nat, batchBytes: nat, fieldBytes: nat, groupsPerPart: nat,
    partBytes: nat, totalBytes: nat, parts: nat, manifestBytes: nat, footerBytes: nat)

  datatype Error = Limit | Invalid | Options

  /** Which times the clock library can represent, and which numbers a schema admits. */
  datatype Env = Env(dated: (int, nat, int) -> bool, admits: (nat, Option<string>) -> bool)

  predicate ValidValue(env: Env, header: Header, v: Value) {
    match v
    case NA => true
    case Bool(_) => header.kind.BoolKind?
    case Str(_) => header.kind.StrKind?
    case Number(bits, unit) => header.kind.NumberKind? && env.admits(bits, unit)
    case Rich(_) => false
  }

  function FieldBytes(v: Value): nat {
    match v
    case Str(s) => |s|
    case Number(_, unit) => if unit.Some? then |unit.value| else 0
    case _ => 0
  }

  function SampleBytes(s: Sample): nat {
    512 + FieldBytes(s.val)
  }

  function TotalBytes(samples: seq<Sample>): nat {
    if samples == [] then 0 else TotalBytes(samples[..|samples| - 1]) + SampleBytes(samples[|samples| - 1])
  }

  lemma {:induction false} TotalBytesAppend(a: seq<Sample>, b: seq<Sample>)
    ensures TotalBytes(a + b) == TotalBytes(a) + TotalBytes(b)
    decreases |b|
  {
    if b == [] {
      assert a + b == a;
    } else {
      TotalBytesAppend(a, b[..|b| - 1]);
      assert (a + b)[..|a + b| - 1] == a + b[..|b| - 1];
    }
  }

  lemma TotalBytesSlice(samples: seq<Sample>, i: nat, j: nat)
    requires i <= j < |samples|
    ensures TotalBytes(samples[i..j + 1]) == TotalBytes(samples[i..j]) + SampleBytes(samples[j])
  {
    assert samples[i..j + 1][..j - i] == samples[i..j];
  }

  // ---------------------------------------------------------------- the validator

  datatype Validator = Validator(rows: nat, bytes: nat, first: Option<int>, last: Option<int>)

  function NewValidator(): Validator {
    Validator(0, 0, None, None)
  }

  predicate Genuine(env: Env, header: Header, s: Sample) {
    s.zone == header.zone && env.dated(s.seconds, s.nanos, s.offset)
  }

  function AcceptOne(env: Env, header: Header, v: Validator, s: Sample): Option<Validator> {
    var at, bytes := Instant(s), Min(v.bytes + SampleBytes(s), U64_MAX);
    if !Genuine(env, header, s) || at < header.start || at >= header.end || (v.last.Some? && at <= v.last.value)
       || header.first.None? || at < header.first.value || header.last.None? || at > header.last.value
       || !ValidValue(env, header, s.val) || v.rows >= header.returned
       || bytes > header.totalBytes || bytes > header.totalWork then None
    else Some(Validator(v.rows + 1, bytes, if v.first.None? then Some(at) else v.first, Some(at)))
  }

  function AcceptAll(env: Env, header: Header, v: Validator, samples: seq<Sample>): Option<Validator> {
    if samples == [] then Some(v)
    else
      match AcceptAll(env, header, v, samples[..|samples| - 1])
      case None => None
      case Some(w) => AcceptOne(env, header, w, samples[|samples| - 1])
  }

  predicate Finishes(header: Header, v: Validator) {
    && v.rows == header.returned
    && (header.first.Some? && header.last.Some? && header.complete ==>
          var includesFirst := header.start <= header.first.value < header.end;
          var includesLast := header.start <= header.last.value < header.end;
          && (includesFirst ==> v.first == header.first) && (includesLast ==> v.last == header.last)
          && (includesFirst && includesLast ==> v.rows == header.retained))
  }

  lemma {:induction false} AcceptAppend(env: Env, header: Header, v: Validator, a: seq<Sample>, b: seq<Sample>)
    ensures AcceptAll(env, header, v, a + b) ==
      match AcceptAll(env, header, v, a) case None => None case Some(w) => AcceptAll(env, header, w, b)
    decreases |b|
  {
    hide AcceptOne;
    if b == [] {
      assert a + b == a;
    } else {
      AcceptAppend(env, header, v, a, b[..|b| - 1]);
      assert (a + b)[..|a + b| - 1] == a + b[..|b| - 1];
    }
  }

  /** What acceptance tells about the samples. */
  lemma {:induction false} AcceptFacts(env: Env, header: Header, v: Validator, samples: seq<Sample>)
    requires AcceptAll(env, header, v, samples).Some?
    ensures forall i :: 0 <= i < |samples| ==>
      Genuine(env, header, samples[i]) && ValidValue(env, header, samples[i].val)
    ensures AcceptAll(env, header, v, samples).value.rows == v.rows + |samples|
    decreases |samples|
  {
    if samples != [] {
      AcceptFacts(env, header, v, samples[..|samples| - 1]);
      assert forall i :: 0 <= i < |samples| - 1 ==> samples[i] == samples[..|samples| - 1][i];
    }
  }

  // What a header admits, said of the samples themselves.

  predicate InPlace(header: Header, s: Sample) {
    && header.start <= Instant(s) < header.end
    && header.first.Some? && header.first.value <= Instant(s) && header.last.Some? && Instant(s) <= header.last.value
  }

  predicate Increasing(samples: seq<Sample>) {
    forall i, j :: 0 <= i < j < |samples| ==> Instant(samples[i]) < Instant(samples[j])
  }

  predicate AllGenuine(env: Env, header: Header, samples: seq<Sample>) {
    forall i :: 0 <= i < |samples| ==>
      Genuine(env, header, samples[i]) && ValidValue(env, header, samples[i].val) && InPlace(header, samples[i])
  }

  /** Genuine samples of valid values, strictly increasing, inside the range and the
      retained bounds, no more than announced and within both byte totals. */
  predicate Acceptable(env: Env, header: Header, samples: seq<Sample>) {
    && AllGenuine(env, header, samples) && Increasing(samples) && |samples| <= header.returned
    && (samples != [] ==> Min(TotalBytes(samples), U64_MAX) <= Min(header.totalBytes, header.totalWork))
  }

  /** The validator's counters for samples it has accepted. */
  function Counted(samples: seq<Sample>): Validator {
    Validator(|samples|, Min(TotalBytes(samples), U64_MAX),
              if samples == [] then None else Some(Instant(samples[0])),
              if samples == [] then None else Some(Instant(samples[|samples| - 1])))
  }

  lemma AcceptableStep(env: Env, header: Header, front: seq<Sample>, s: Sample)
    requires Acceptable(env, header, front)
    ensures Acceptable(env, header, front + [s]) <==> AcceptOne(env, header, Counted(front), s).Some?
    ensures AcceptOne(env, header, Counted(front), s).Some? ==>
      AcceptOne(env, header, Counted(front), s) == Some(Counted(front + [s]))
  {
    hide Genuine, ValidValue, TotalBytes, SampleBytes, Instant;
    var all := front + [s];
    TotalBytesPush(front, s);
    assert all[|front|] == s;
    if Acceptable(env, header, all) {
      assert Genuine(env, header, all[|front|]) && ValidValue(env, header, all[|front|].val);
      assert InPlace(header, all[|front|]);
      assert front != [] ==> Instant(all[|front| - 1]) < Instant(all[|front|]);
    }
    if AcceptOne(env, header, Counted(front), s).Some? {
      assert Increasing(all) by {
        forall i, j | 0 <= i < j < |all| ensures Instant(all[i]) < Instant(all[j]) {
          if j == |front| {
            assert Instant(front[i]) <= Instant(front[|front| - 1]);
          }
        }
      }
    }
  }

  lemma TotalBytesPush(front: seq<Sample>, s: Sample)
    ensures TotalBytes(front + [s]) == TotalBytes(front) + SampleBytes(s)
  {
    assert (front + [s])[..|front|] == front;
  }

  lemma AcceptablePrefix(env: Env, header: Header, samples: seq<Sample>, i: nat)
    requires Acceptable(env, header, samples) && i <= |samples|
    ensures Acceptable(env, header, samples[..i])
  {
    hide Genuine, ValidValue, TotalBytes, Instant, InPlace;
    PrefixBytes(samples, i);
  }

  /** The validator accepts exactly the acceptable sequences, and then counts them. */
  lemma {:induction false} AcceptedIff(env: Env, header: Header, samples: seq<Sample>)
    ensures AcceptAll(env, header, NewValidator(), samples) ==
      if Acceptable(env, header, samples) then Some(Counted(samples)) else None
    decreases |samples|
  {
    hide AcceptOne, Acceptable, Counted;
    if samples == [] {
      NothingAcceptable(env, header);
    } else {
      var front, last := samples[..|samples| - 1], samples[|samples| - 1];
      AcceptedIff(env, header, front);
      assert samples == front + [last];
      if Acceptable(env, header, front) {
        AcceptableStep(env, header, front, last);
      } else if Acceptable(env, header, samples) {
        AcceptablePrefix(env, header, samples, |front|);
      }
    }
  }

  lemma NothingAcceptable(env: Env, header: Header)
    ensures Acceptable(env, header, []) && Counted([]) == NewValidator()
  {
  }

  method Validate(env: Env, header: Header, v: Validator, samples: seq<Sample>) returns (r: Option<Validator>)
    ensures r == AcceptAll(env, header, v, samples)
    ensures v == NewValidator() ==> r == if Acceptable(env, header, samples) then Some(Counted(samples)) else None
  {
    hide AcceptOne, Acceptable, Counted;
    AcceptedIff(env, header, samples);
    var w := v;
    for i := 0 to |samples|
      invariant AcceptAll(env, header, v, samples[..i]) == Some(w)
    {
      assert samples[..i + 1][..i] == samples[..i];
      var next := AcceptOne(env, header, w, samples[i]);
      if next.None? {
        Rejected(env, header, v, samples, i + 1);
        return None;
      }
      w := next.value;
    }
    assert samples[..|samples|] == samples;
    r := Some(w);
  }

  lemma Rejected(env: Env, header: Header, v: Validator, samples: seq<Sample>, i: nat)
    requires i <= |samples| && AcceptAll(env, header, v, samples[..i]).None?
    ensures AcceptAll(env, header, v, samples).None?
  {
    AcceptAppend(env, header, v, samples[..i], samples[i..]);
    assert samples[..i] + samples[i..] == samples;
  }

  // ---------------------------------------------------------------- greedy chunks

  predicate ChunkFits(chunk: seq<Sample>, limits: Limits) {
    |chunk| <= limits.batchRows && TotalBytes(chunk) <= limits.batchBytes
  }

  /** The end of the longest run that fits, growing from `end`. */
  function Longest(samples: seq<Sample>, start: nat, end: nat, limits: Limits): (e: nat)
    requires start <= end <= |samples|
    ensures end <= e <= |samples|
    decreases |samples| - end
  {
    if end < |samples| && ChunkFits(samples[start..end + 1], limits)
    then Longest(samples, start, end + 1, limits)
    else end
  }

  /** The greedy chunks from `start`, up to a sample that fits in none. */
  function ChunksFrom(samples: seq<Sample>, start: nat, limits: Limits): seq<seq<Sample>>
    requires start <= |samples|
    decreases |samples| - start
  {
    var end := Longest(samples, start, start, limits);
    if end == start then [] else [samples[start..end]] + ChunksFrom(samples, end, limits)
  }

  /** The longest run from `start` that fits, and an error when not even one sample does. */
  method NextChunk(samples: seq<Sample>, start: nat, limits: Limits) returns (r: Result<nat, Error>)
    requires start < |samples|
    ensures r.Ok? ==> start < r.value <= |samples| && ChunkFits(samples[start..r.value], limits)
    ensures r.Ok? && r.value < |samples| ==> !ChunkFits(samples[start..r.value + 1], limits)
    ensures r.Err? ==> r.error == Limit && !ChunkFits(samples[start..start + 1], limits)
    ensures r.Ok? ==> r.value == Longest(samples, start, start, limits)
  {
    var end, bytes := start, 0;
    assert samples[start..start] == [];
    while end < |samples| && end - start < limits.batchRows
      invariant start <= end <= |samples| && bytes == TotalBytes(samples[start..end])
      invariant ChunkFits(samples[start..end], limits)
      invariant Longest(samples, start, end, limits) == Longest(samples, start, start, limits)
    {
      TotalBytesSlice(samples, start, end);
      var size := SampleBytes(samples[end]);
      if bytes + size > limits.batchBytes {
        break;
      }
      bytes := bytes + size;
      end := end + 1;
    }
    r := if end == start then Err(Limit) else Ok(end);
  }

  // ---------------------------------------------------------------- columns

  datatype Columns = Columns(
    id: seq<string>, sec: seq<int>, nano: seq<nat>, offset: seq<int>, present: seq<bool>,
    boolean: seq<Option<bool>>, number: seq<Option<nat>>, text: seq<Option<string>>, unit: seq<Option<string>>)

  function Rows(c: Columns): nat {
    |c.id|
  }

  predicate Aligned(c: Columns) {
    |c.sec| == |c.nano| == |c.offset| == |c.present| == |c.boolean| == |c.number| == |c.text| == |c.unit| == |c.id|
  }

  function BoolSlot(v: Value): Option<bool> {
    if v.Bool? then Some(v.b) else None
  }

  function NumberSlot(v: Value): Option<nat> {
    if v.Number? then Some(v.bits) else None
  }

  function TextSlot(v: Value): Option<string> {
    if v.Str? then Some(v.s) else None
  }

  function UnitSlot(v: Value): Option<string> {
    if v.Number? then v.unit else None
  }

  function Tabulate(header: Header, samples: seq<Sample>): (c: Columns)
    ensures Aligned(c) && Rows(c) == |samples|
  {
    var n := |samples|;
    Columns(
      seq(n, i => header.id),
      seq(n, i requires 0 <= i < n => samples[i].seconds),
      seq(n, i requires 0 <= i < n => samples[i].nanos),
      seq(n, i requires 0 <= i < n => samples[i].offset),
      seq(n, i requires 0 <= i < n => !samples[i].val.NA?),
      seq(n, i requires 0 <= i < n => BoolSlot(samples[i].val)),
      seq(n, i requires 0 <= i < n => NumberSlot(samples[i].val)),
      seq(n, i requires 0 <= i < n => TextSlot(samples[i].val)),
      seq(n, i requires 0 <= i < n => UnitSlot(samples[i].val)))
  }

  /** Samples the writer will turn into one batch. */
  predicate Batchable(env: Env, header: Header, samples: seq<Sample>, limits: Limits) {
    && samples != [] && ChunkFits(samples, limits)
    && forall i :: 0 <= i < |samples| ==>
         ValidValue(env, header, samples[i].val) && FieldBytes(samples[i].val) <= limits.fieldBytes
  }

  lemma {:induction false} PrefixBytes(samples: seq<Sample>, i: nat)
    requires i <= |samples|
    ensures TotalBytes(samples[..i]) <= TotalBytes(samples)
  {
    TotalBytesAppend(samples[..i], samples[i..]);
    assert samples[..i] + samples[i..] == samples;
  }

  method ToColumns(env: Env, header: Header, samples: seq<Sample>, limits: Limits) returns (r: Result<Columns, Error>)
    ensures r.Ok? <==> Batchable(env, header, samples, limits)
    ensures r.Ok? ==> r.value == Tabulate(header, samples)
  {
    hide Tabulate, ValidValue, FieldBytes;
    if samples == [] || |samples| > limits.batchRows {
      return Err(Limit);
    }
    var bytes := 0;
    for i := 0 to |samples|
      invariant bytes == TotalBytes(samples[..i]) <= limits.batchBytes
      invariant forall j :: 0 <= j < i ==>
        ValidValue(env, header, samples[j].val) && FieldBytes(samples[j].val) <= limits.fieldBytes
    {
      assert samples[..i + 1][..i] == samples[..i];
      PrefixBytes(samples, i + 1);
      bytes := bytes + SampleBytes(samples[i]);
      if bytes > limits.batchBytes {
        return Err(Limit);
      }
      if !ValidValue(env, header, samples[i].val) {
        return Err(Invalid);
      }
      if FieldBytes(samples[i].val) > limits.fieldBytes {
        return Err(Limit);
      }
    }
    assert samples[..|samples|] == samples;
    r := Ok(Tabulate(header, samples));
  }

  /** The value one row stands for: exactly the slot of the point's kind is filled. */
  function RowValue(header: Header, c: Columns, i: nat, limits: Limits): Result<Value, Error>
    requires Aligned(c) && i < Rows(c)
  {
    var b, n, s, u := c.boolean[i], c.number[i], c.text[i], c.unit[i];
    if !c.present[i] then
      if b.Some? || n.Some? || s.Some? || u.Some? then Err(Invalid) else Ok(NA)
    else if header.kind.BoolKind? && b.Some? && n.None? && s.None? && u.None? then Ok(Bool(b.value))
    else if header.kind.NumberKind? && b.None? && n.Some? && s.None? then
      if u.Some? && |u.value| > limits.fieldBytes then Err(Limit) else Ok(Number(n.value, u))
    else if header.kind.StrKind? && b.None? && n.None? && s.Some? && u.None? then
      if |s.value| > limits.fieldBytes then Err(Limit) else Ok(Str(s.value))
    else Err(Invalid)
  }

  function RowSample(env: Env, header: Header, c: Columns, i: nat, limits: Limits): Result<Sample, Error>
    requires Aligned(c) && i < Rows(c)
  {
    if c.id[i] != header.id then Err(Invalid)
    else
      match RowValue(header, c, i, limits)
      case Err(e) => Err(e)
      case Ok(val) =>
        if !env.dated(c.sec[i], c.nano[i], c.offset[i]) then Err(Invalid)
        else Ok(Sample(c.sec[i], c.nano[i], c.offset[i], header.zone, val))
  }

  /** The first `n` rows as samples. */
  function Untabulate(env: Env, header: Header, c: Columns, limits: Limits, n: nat): Result<seq<Sample>, Error>
    requires Aligned(c) && n <= Rows(c)
  {
    if n == 0 then Ok([])
    else
      match Untabulate(env, header, c, limits, n - 1)
      case Err(e) => Err(e)
      case Ok(front) =>
        match RowSample(env, header, c, n - 1, limits)
        case Err(e) => Err(e)
        case Ok(s) => if TotalBytes(front + [s]) > limits.batchBytes then Err(Limit) else Ok(front + [s])
  }

  function SamplesOf(env: Env, header: Header, c: Columns, limits: Limits): Result<seq<Sample>, Error> {
    if !Aligned(c) || Rows(c) > limits.batchRows then Err(Invalid) else Untabulate(env, header, c, limits, Rows(c))
  }

  method FromColumns(env: Env, header: Header, c: Columns, limits: Limits) returns (r: Result<seq<Sample>, Error>)
    ensures r == SamplesOf(env, header, c, limits)
  {
    hide RowSample;
    if !Aligned(c) || Rows(c) > limits.batchRows {
      return Err(Invalid);
    }
    var samples, bytes := [], 0;
    for i := 0 to Rows(c)
      invariant Untabulate(env, header, c, limits, i) == Ok(samples) && bytes == TotalBytes(samples)
    {
      var row := RowSample(env, header, c, i, limits);
      if row.Err? {
        Stuck(env, header, c, limits, i + 1, Rows(c));
        return Err(row.error);
      }
      assert (samples + [row.value])[..|samples|] == samples;
      bytes := bytes + SampleBytes(row.value);
      if bytes > limits.batchBytes {
        Stuck(env, header, c, limits, i + 1, Rows(c));
        return Err(Limit);
      }
      samples := samples + [row.value];
    }
    r := Ok(samples);
  }

  lemma {:induction false} Stuck(env: Env, header: Header, c: Columns, limits: Limits, n: nat, m: nat)
    requires Aligned(c) && n <= m <= Rows(c) && Untabulate(env, header, c, limits, n).Err?
    ensures Untabulate(env, header, c, limits, m) == Untabulate(env, header, c, limits, n)
    decreases m
  {
    hide RowSample;
    if n < m {
      Stuck(env, header, c, limits, n, m - 1);
    }
  }

  lemma RowReads(env: Env, header: Header, samples: seq<Sample>, limits: Limits, i: nat)
    requires i < |samples| && Genuine(env, header, samples[i])
    requires ValidValue(env, header, samples[i].val) && FieldBytes(samples[i].val) <= limits.fieldBytes
    ensures RowSample(env, header, Tabulate(header, samples), i, limits) == Ok(samples[i])
  {
  }

  lemma RowsStep(env: Env, header: Header, c: Columns, limits: Limits, n: nat, front: seq<Sample>, s: Sample)
    requires Aligned(c) && 0 < n <= Rows(c) && Untabulate(env, header, c, limits, n - 1) == Ok(front)
    requires RowSample(env, header, c, n - 1, limits) == Ok(s) && TotalBytes(front + [s]) <= limits.batchBytes
    ensures Untabulate(env, header, c, limits, n) == Ok(front + [s])
  {
    hide RowSample, TotalBytes;
  }

  lemma NoRows(env: Env, header: Header, c: Columns, limits: Limits)
    requires Aligned(c)
    ensures Untabulate(env, header, c, limits, 0) == Ok([])
  {
  }

  lemma {:induction false} RowsRead(env: Env, header: Header, samples: seq<Sample>, limits: Limits, n: nat)
    requires Batchable(env, header, samples, limits) && n <= |samples|
    requires forall i :: 0 <= i < |samples| ==> Genuine(env, header, samples[i])
    ensures Untabulate(env, header, Tabulate(header, samples), limits, n) == Ok(samples[..n])
  {
    hide RowSample, Tabulate, ValidValue, Genuine, Untabulate, TotalBytes, FieldBytes;
    var c := Tabulate(header, samples);
    if n == 0 {
      NoRows(env, header, c, limits);
    } else {
      RowsRead(env, header, samples, limits, n - 1);
      RowReads(env, header, samples, limits, n - 1);
      assert samples[..n - 1] + [samples[n - 1]] == samples[..n];
      PrefixBytes(samples, n);
      RowsStep(env, header, c, limits, n, samples[..n - 1], samples[n - 1]);
    }
  }

  /** Turning samples into columns and back is the identity. */
  lemma ColumnsRoundTrip(env: Env, header: Header, samples: seq<Sample>, limits: Limits)
    requires Batchable(env, header, samples, limits)
    requires forall i :: 0 <= i < |samples| ==> Genuine(env, header, samples[i])
    ensures SamplesOf(env, header, Tabulate(header, samples), limits) == Ok(samples)
  {
    hide Untabulate, Tabulate;
    RowsRead(env, header, samples, limits, |samples|);
    assert samples[..|samples|] == samples;
  }

  /** What the reader accepts as a batch is valid, so it can be written again. */
  lemma {:induction false} ReadIsValid(env: Env, header: Header, c: Columns, limits: Limits, n: nat)
    requires Aligned(c) && n <= Rows(c) && Untabulate(env, header, c, limits, n).Ok?
    ensures var samples := Untabulate(env, header, c, limits, n).value;
      && |samples| == n && TotalBytes(samples) <= limits.batchBytes
      && forall i :: 0 <= i < n ==> Genuine(env, header, samples[i]) && FieldBytes(samples[i].val) <= limits.fieldBytes
  {
    hide TotalBytes, RowSample, Genuine, FieldBytes;
    if n > 0 {
      ReadIsValid(env, header, c, limits, n - 1);
      RowIsValid(env, header, c, limits, n - 1);
    } else {
      assert TotalBytes([]) == 0 by { NoBytes(); }
    }
  }

  lemma NoBytes()
    ensures TotalBytes([]) == 0
  {
  }

  lemma RowIsValid(env: Env, header: Header, c: Columns, limits: Limits, i: nat)
    requires Aligned(c) && i < Rows(c) && RowSample(env, header, c, i, limits).Ok?
    ensures var s := RowSample(env, header, c, i, limits).value;
      Genuine(env, header, s) && FieldBytes(s.val) <= limits.fieldBytes
  {
  }
}
