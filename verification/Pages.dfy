/** The Parquet page preflight: definition levels in the RLE/bit-packed hybrid at
    bit width one, PLAIN payloads, pages tiling a column chunk, and chunks tiling
    the file up to its footer. */
module Pages {
  import opened Prelude
  import opened Compact
  import CompactBounds
  import CompactPrint

  // ---------------------------------------------------------------- levels

  type bit = x: int | 0 <= x < 2

  function Pow2(k: nat): nat {
    if k == 0 then 1 else 2 * Pow2(k - 1)
  }

  lemma {:induction false} Pow2Positive(k: nat)
    ensures Pow2(k) > 0
  {
    if k > 0 {
      Pow2Positive(k - 1);
    }
  }

  /** A run of the hybrid encoding: one repeated level, or groups of eight bits. */
  datatype Run = Repeated(n: nat, level: bit) | Packed(groups: seq<byte>)

  /** Bit `i` of a packed run, least significant bit first. */
  function PackedBit(groups: seq<byte>, i: nat): bit
    requires i < 8 * |groups|
  {
    Pow2Positive(i % 8);
    groups[i / 8] / Pow2(i % 8) % 2
  }

  function Levels(run: Run): seq<bit> {
    match run
    case Repeated(n, level) => seq(n, _ => level)
    case Packed(groups) => seq(8 * |groups|, i requires 0 <= i < 8 * |groups| => PackedBit(groups, i))
  }

  /** The level sequence a run list denotes. */
  function Denoted(runs: seq<Run>): seq<bit> {
    if runs == [] then [] else Levels(runs[0]) + Denoted(runs[1..])
  }

  function Ones(levels: seq<bit>): nat {
    if levels == [] then 0 else levels[0] + Ones(levels[1..])
  }

  /** One run of the encoding: a varint header whose low bit picks the kind. */
  function RunAt(bytes: seq<byte>, pos: nat): (r: Parsed<Run>)
    ensures r.Good? ==> pos < r.pos <= |bytes|
  {
    match VarintFrom(bytes, pos, 0)
    case Bad(e) => Bad(e)
    case Good(header, p, _) =>
      var n := header / 2;
      if n == 0 then Bad(Invalid)
      else if header % 2 == 0 then
        if p >= |bytes| || bytes[p] > 1 then Bad(Invalid) else Good(Repeated(n, bytes[p]), p + 1, 0)
      else if p + n > |bytes| then Bad(Invalid)
      else Good(Packed(bytes[p..p + n]), p + n, 0)
  }

  /** The whole of `bytes` from `pos`, read as runs. */
  function RunsFrom(bytes: seq<byte>, pos: nat): Option<seq<Run>>
    decreases |bytes| - pos
  {
    if pos >= |bytes| then Some([])
    else
      match RunAt(bytes, pos)
      case Bad(_) => None
      case Good(run, p, _) =>
        match RunsFrom(bytes, p)
        case None => None
        case Some(rest) => Some([run] + rest)
  }

  /** Runs that cover exactly `count` levels: each is needed, and only a packed run
      at the end may carry padding, less than one group of it. */
  predicate Covers(runs: seq<Run>, count: nat)
    decreases |runs|
  {
    if runs == [] then count == 0
    else
      var n := |Levels(runs[0])|;
      if n < count then Covers(runs[1..], count - n)
      else 0 < count && runs[1..] == [] && (n == count || (runs[0].Packed? && n - count < 8))
  }

  /** The level question for a decoded run list: `total` of the first `left` are one. */
  ghost predicate Answers(runs: seq<Run>, left: nat, total: int) {
    Covers(runs, left) && left <= |Denoted(runs)| && total == Ones(Denoted(runs)[..left])
  }

  ghost predicate PresentFrom(bytes: seq<byte>, pos: nat, left: nat, present: int) {
    RunsFrom(bytes, pos).Some? && Answers(RunsFrom(bytes, pos).value, left, present)
  }

  /** What the level section says: `present` of its `count` levels are one. */
  ghost predicate Present(bytes: seq<byte>, count: nat, present: nat) {
    PresentFrom(bytes, 0, count, present)
  }

  lemma {:induction false} CoversDenotes(runs: seq<Run>, count: nat)
    requires Covers(runs, count)
    ensures count <= |Denoted(runs)| < count + 8
    ensures |Denoted(runs)| > count ==> runs != [] && runs[|runs| - 1].Packed?
    decreases |runs|
  {
    if runs != [] {
      var n := |Levels(runs[0])|;
      if n < count {
        CoversDenotes(runs[1..], count - n);
      } else {
        assert Denoted(runs) == Levels(runs[0]);
      }
    }
  }

  lemma {:induction false} OnesConcat(a: seq<bit>, b: seq<bit>)
    ensures Ones(a + b) == Ones(a) + Ones(b)
  {
    if a == [] {
      assert a + b == b;
    } else {
      assert (a + b)[1..] == a[1..] + b;
      OnesConcat(a[1..], b);
    }
  }

  lemma {:induction false} OnesRepeated(n: nat, level: bit)
    ensures Ones(seq(n, _ => level)) == n * level
  {
    if n > 0 {
      assert seq(n, _ => level)[1..] == seq(n - 1, _ => level);
      OnesRepeated(n - 1, level);
    }
  }

  /** The inner filter over a packed run. */
  method CountPacked(groups: seq<byte>, taken: nat) returns (ones: nat)
    requires taken <= 8 * |groups|
    ensures ones == Ones(Levels(Packed(groups))[..taken])
  {
    ones := 0;
    ghost var all := Levels(Packed(groups));
    for k := 0 to taken
      invariant ones == Ones(all[..k])
    {
      OnesConcat(all[..k], [all[k]]);
      assert all[..k + 1] == all[..k] + [all[k]];
      ones := ones + PackedBit(groups, k);
    }
  }

  /** What is left to read, and what has been counted, at one point of the loop. */
  ghost predicate Reading(bytes: seq<byte>, count: nat, pos: nat, produced: nat, present: nat) {
    && pos <= |bytes| && produced <= count
    && (forall total: nat ::
          Present(bytes, count, total) <==> PresentFrom(bytes, pos, count - produced, total - present))
  }

  /** Reading one run reduces the question to the bytes after it. */
  ghost predicate StepTarget(bytes: seq<byte>, pos: nat, left: nat, total: int)
    requires pos < |bytes| && RunAt(bytes, pos).Good?
  {
    var r := RunAt(bytes, pos);
    var n := |Levels(r.value)|;
    var taken := Min(n, left);
    && (n <= left || (r.value.Packed? && n - left < 8))
    && PresentFrom(bytes, r.pos, left - taken, total - Ones(Levels(r.value)[..taken]))
  }

  lemma StepRun(bytes: seq<byte>, pos: nat, left: nat, total: int)
    requires pos < |bytes| && left > 0 && RunAt(bytes, pos).Good?
    ensures PresentFrom(bytes, pos, left, total) <==> StepTarget(bytes, pos, left, total)
  {
    hide Covers, Ones, Denoted, Levels, RunAt;
    var r := RunAt(bytes, pos);
    var rest := RunsFrom(bytes, r.pos);
    RunNonempty(bytes, pos);
    if rest.Some? {
      assert RunsFrom(bytes, pos) == Some([r.value] + rest.value);
      OneRun(r.value, rest.value, left, total);
    }
  }

  lemma RunNonempty(bytes: seq<byte>, pos: nat)
    requires RunAt(bytes, pos).Good?
    ensures |Levels(RunAt(bytes, pos).value)| > 0
  {
    hide VarintFrom;
  }

  lemma OneRun(run: Run, rest: seq<Run>, left: nat, total: int)
    requires |Levels(run)| > 0 && left > 0
    ensures var n := |Levels(run)|; var taken := Min(n, left);
      Answers([run] + rest, left, total) <==>
        (n <= left || (run.Packed? && n - left < 8)) && Answers(rest, left - taken, total - Ones(Levels(run)[..taken]))
  {
    var n := |Levels(run)|;
    var runs := [run] + rest;
    assert runs[1..] == rest;
    var d := Denoted(runs);
    assert d == Levels(run) + Denoted(rest);
    if n < left {
      assert Levels(run)[..n] == Levels(run);
      if left <= |d| {
        assert d[..left] == Levels(run) + Denoted(rest)[..left - n];
        OnesConcat(Levels(run), Denoted(rest)[..left - n]);
      }
    } else {
      assert d[..left] == Levels(run)[..left];
      if rest == [] {
        assert Denoted(rest)[..0] == [];
      }
    }
  }

  /** `definition_levels`: accepts exactly the encodings that cover `count` levels,
      and returns how many of those levels are one. */
  method DefinitionLevels(levels: seq<byte>, count: nat) returns (r: Option<nat>)
    ensures r.Some? ==> Present(levels, count, r.value)
    ensures r.None? ==> forall n: nat :: !Present(levels, count, n)
  {
    hide RunsFrom, Covers, Ones, Denoted, Levels, VarintFrom, PresentFrom;
    var pos: nat, produced: nat, present: nat := 0, 0, 0;
    while produced < count
      invariant Reading(levels, count, pos, produced, present)
      decreases count - produced
    {
      var left := count - produced;
      if pos >= |levels| {
        NoRuns(levels, pos, left);
        return None;
      }
      var run := RunAt(levels, pos);
      if run.Bad? {
        BadRun(levels, pos, left);
        return None;
      }
      RunNonempty(levels, pos);
      forall total: int ensures PresentFrom(levels, pos, left, total) <==> StepTarget(levels, pos, left, total) {
        StepRun(levels, pos, left, total);
      }
      match run.value {
        case Repeated(n, level) =>
          RepeatedFacts(n, level);
          if n > left {
            return None;
          }
          produced, present := produced + n, present + n * level;
        case Packed(groups) =>
          PackedSize(groups);
          var taken := Min(8 * |groups|, left);
          if 8 * |groups| - taken >= 8 {
            return None;
          }
          var ones := CountPacked(groups, taken);
          produced, present := produced + taken, present + ones;
      }
      pos := run.pos;
    }
    AtEnd(levels, pos);
    r := if pos == |levels| then Some(present) else None;
  }

  lemma NoRuns(bytes: seq<byte>, pos: nat, left: nat)
    requires pos >= |bytes| && left > 0
    ensures forall total: int :: !PresentFrom(bytes, pos, left, total)
  {
  }

  lemma BadRun(bytes: seq<byte>, pos: nat, left: nat)
    requires pos < |bytes| && RunAt(bytes, pos).Bad?
    ensures forall total: int :: !PresentFrom(bytes, pos, left, total)
  {
  }

  lemma RepeatedFacts(n: nat, level: bit)
    ensures |Levels(Repeated(n, level))| == n && Ones(Levels(Repeated(n, level))[..n]) == n * level
  {
    assert Levels(Repeated(n, level))[..n] == seq(n, _ => level);
    OnesRepeated(n, level);
  }

  lemma PackedSize(groups: seq<byte>)
    ensures |Levels(Packed(groups))| == 8 * |groups|
    ensures Levels(Packed(groups))[..8 * |groups|] == Levels(Packed(groups))
  {
  }

  lemma AtEnd(bytes: seq<byte>, pos: nat)
    requires pos <= |bytes|
    ensures forall total: int :: PresentFrom(bytes, pos, 0, total) <==> pos == |bytes| && total == 0
  {
    if pos < |bytes| && RunAt(bytes, pos).Good? {
      RunNonempty(bytes, pos);
    }
  }

  // ---------------------------------------------------------------- every level sequence has an encoding

  predicate Encodable(run: Run) {
    match run
    case Repeated(n, _) => 0 < n && 2 * n <= U64_MAX
    case Packed(groups) => 0 < |groups| && 2 * |groups| + 1 <= U64_MAX
  }

  function EncodeRun(run: Run): seq<byte> {
    match run
    case Repeated(n, level) => CompactPrint.Varint(2 * n) + [level]
    case Packed(groups) => CompactPrint.Varint(2 * |groups| + 1) + groups
  }

  function Encode(runs: seq<Run>): seq<byte> {
    if runs == [] then [] else EncodeRun(runs[0]) + Encode(runs[1..])
  }

  lemma RunDecodes(bytes: seq<byte>, pos: nat, run: Run)
    requires Encodable(run) && CompactPrint.At(bytes, pos, EncodeRun(run))
    ensures RunAt(bytes, pos) == Good(run, pos + |EncodeRun(run)|, 0)
  {
    hide VarintFrom, CompactPrint.Varint;
    CompactPrint.RoomIsU64();
    match run
    case Repeated(n, level) =>
      var head := CompactPrint.Varint(2 * n);
      CompactPrint.AtSplit(bytes, pos, head, [level]);
      CompactPrint.VarintParses(bytes, pos, 2 * n, 0);
      CompactPrint.AtHead(bytes, pos + |head|, [level]);
    case Packed(groups) =>
      var head := CompactPrint.Varint(2 * |groups| + 1);
      CompactPrint.AtSplit(bytes, pos, head, groups);
      CompactPrint.VarintParses(bytes, pos, 2 * |groups| + 1, 0);
  }

  /** Decoding undoes encoding, so the level section of any run list is read back. */
  lemma {:induction false} RunsDecode(bytes: seq<byte>, pos: nat, runs: seq<Run>)
    requires (forall i :: 0 <= i < |runs| ==> Encodable(runs[i])) && pos <= |bytes| && bytes[pos..] == Encode(runs)
    ensures RunsFrom(bytes, pos) == Some(runs)
    decreases |runs|
  {
    hide EncodeRun, RunAt, Encodable, CompactPrint.At;
    if runs == [] {
      assert pos == |bytes|;
    } else {
      var head, tail := EncodeRun(runs[0]), Encode(runs[1..]);
      assert bytes[pos..pos + |head + tail|] == bytes[pos..];
      CompactPrint.AtSplit(bytes, pos, head, tail);
      RunDecodes(bytes, pos, runs[0]);
      assert bytes[pos + |head|..] == tail;
      RunsDecode(bytes, pos + |head|, runs[1..]);
      assert [runs[0]] + runs[1..] == runs;
      RunNonempty(bytes, pos);
    }
  }

  // ---------------------------------------------------------------- page bodies

  datatype Physical = Boolean | Int32 | Int64 | Double | ByteArray | Foreign

  datatype Column = Column(physical: Physical, optional: bool)

  function Le32(b: seq<byte>): nat
    requires |b| >= 4
  {
    (b[0] as int) + 256 * (b[1] as int) + 65_536 * (b[2] as int) + 16_777_216 * (b[3] as int)
  }

  /** `payload` is exactly `n` length-prefixed byte arrays. */
  predicate ByteArrays(payload: seq<byte>, n: nat)
    decreases n
  {
    if n == 0 then payload == []
    else |payload| >= 4 && 4 + Le32(payload) <= |payload| && ByteArrays(payload[4 + Le32(payload)..], n - 1)
  }

  /** `payload` is exactly `n` PLAIN values of a physical type. */
  predicate Plain(payload: seq<byte>, physical: Physical, n: nat) {
    match physical
    case Boolean => |payload| == (n + 7) / 8
    case Int32 => |payload| == 4 * n
    case Int64 => |payload| == 8 * n
    case Double => |payload| == 8 * n
    case ByteArray => ByteArrays(payload, n)
    case Foreign => false
  }

  ghost predicate Carries(levels: seq<byte>, payload: seq<byte>, count: nat, physical: Physical, present: nat) {
    Present(levels, count, present) && Plain(payload, physical, present)
  }

  ghost predicate Agrees(levels: seq<byte>, payload: seq<byte>, count: nat, physical: Physical) {
    exists present: nat :: Carries(levels, payload, count, physical, present)
  }

  /** A page body: for an optional column a length-prefixed level section, then
      exactly one PLAIN value for each present level. */
  ghost predicate Body(body: seq<byte>, count: nat, column: Column) {
    if !column.optional then Plain(body, column.physical, count)
    else
      && |body| >= 4 && 4 + Le32(body) <= |body|
      && Agrees(body[4..4 + Le32(body)], body[4 + Le32(body)..], count, column.physical)
  }

  method CheckByteArrays(payload: seq<byte>, n: nat) returns (ok: bool)
    ensures ok <==> ByteArrays(payload, n)
  {
    var pos: nat := 0;
    for k := 0 to n
      invariant pos <= |payload|
      invariant ByteArrays(payload, n) <==> ByteArrays(payload[pos..], n - k)
    {
      if pos + 4 > |payload| {
        return false;
      }
      var length := Le32(payload[pos..pos + 4]);
      assert Le32(payload[pos..]) == length;
      if pos + 4 + length > |payload| {
        return false;
      }
      assert payload[pos..][4 + length..] == payload[pos + 4 + length..];
      pos := pos + 4 + length;
    }
    ok := pos == |payload|;
  }

  method PageBody(body: seq<byte>, count: nat, column: Column) returns (ok: bool)
    ensures ok <==> Body(body, count, column)
  {
    hide PresentFrom, ByteArrays;
    var present, payload := count, body;
    if column.optional {
      if |body| < 4 || 4 + Le32(body) > |body| {
        return false;
      }
      var levels := DefinitionLevels(body[4..4 + Le32(body)], count);
      if levels.None? {
        return false;
      }
      present, payload := levels.value, body[4 + Le32(body)..];
      OneAnswer(body[4..4 + Le32(body)], payload, count, column.physical, present);
    }
    match column.physical
    case Boolean => ok := |payload| == (present + 7) / 8;
    case Int32 => ok := |payload| == 4 * present;
    case Int64 => ok := |payload| == 8 * present;
    case Double => ok := |payload| == 8 * present;
    case ByteArray => ok := CheckByteArrays(payload, present);
    case Foreign => ok := false;
  }

  /** A level section has one answer, so only that many values can follow it. */
  lemma OneAnswer(levels: seq<byte>, payload: seq<byte>, count: nat, physical: Physical, present: nat)
    requires Present(levels, count, present)
    ensures Agrees(levels, payload, count, physical) <==> Plain(payload, physical, present)
  {
    hide RunsFrom, Covers, Denoted, Ones, Plain;
    if Plain(payload, physical, present) {
      assert Carries(levels, payload, count, physical, present);
    }
  }

  // ---------------------------------------------------------------- pages tile a chunk

  /** One page: header length, body length, value count. */
  datatype Page = Page(head: nat, raw: nat, count: nat)

  const MAX_PAGE_HEADER_BYTES: nat := 4096
  const ENCODING_PLAIN: int := 0
  const ENCODING_RLE: int := 3
  const PAGE_TYPE_DATA_PAGE: int := 0

  function FieldOf(fields: seq<Entry>, id: int): Option<Node> {
    if fields == [] then None
    else if fields[0].id == id then Some(fields[0].node)
    else FieldOf(fields[1..], id)
  }

  function IntOf(fields: seq<Entry>, id: int): Option<int> {
    match FieldOf(fields, id)
    case Some(Int(v)) => Some(v)
    case _ => None
  }

  /** The checks on a parsed page header, for a chunk of `rows` values. */
  function HeaderPage(fields: seq<Entry>, head: nat, available: nat, rows: nat, ceiling: nat): (p: Option<Page>)
    ensures p.Some? ==> p.value.head == head && p.value.raw <= available && 0 < p.value.count <= rows
  {
    var kind, raw, compressed := IntOf(fields, 1), IntOf(fields, 2), IntOf(fields, 3);
    if kind != Some(PAGE_TYPE_DATA_PAGE) || raw.None? || raw != compressed || raw.value < 0
       || raw.value > ceiling || raw.value > available then None
    else
      match FieldOf(fields, 5)
      case Some(Struct(data)) =>
        var count := IntOf(data, 1);
        if count.None? || count.value <= 0 || count.value > rows || IntOf(data, 2) != Some(ENCODING_PLAIN)
           || IntOf(data, 3) != Some(ENCODING_RLE) || IntOf(data, 4) != Some(ENCODING_RLE) then None
        else Some(Page(head, raw.value, count.value))
      case _ => None
  }

  function HeaderWindow(chunk: seq<byte>, pos: nat): seq<byte>
    requires pos <= |chunk|
  {
    chunk[pos..pos + Min(|chunk| - pos, MAX_PAGE_HEADER_BYTES)]
  }

  ghost function PageAt(chunk: seq<byte>, pos: nat, rows: nat, column: Column, ceiling: nat): (p: Option<Page>)
    requires pos < |chunk|
    ensures p.Some? ==> 0 < p.value.head && pos + p.value.head + p.value.raw <= |chunk| && 0 < p.value.count <= rows
  {
    match ParseStruct(HeaderWindow(chunk, pos), CompactBounds.PageHeader(), 0, 0, 0)
    case Bad(_) => None
    case Good(fields, head, _) =>
      match HeaderPage(fields, head, |chunk| - pos - head, rows, ceiling)
      case None => None
      case Some(page) =>
        if Body(chunk[pos + head..pos + head + page.raw], page.count, column) then Some(page) else None
  }

  /** The whole chunk from `pos`, read as pages. */
  ghost function PagesFrom(chunk: seq<byte>, pos: nat, rows: nat, column: Column, ceiling: nat): Option<seq<Page>>
    requires pos <= |chunk|
    decreases |chunk| - pos
  {
    if pos == |chunk| then Some([])
    else
      match PageAt(chunk, pos, rows, column, ceiling)
      case None => None
      case Some(page) =>
        match PagesFrom(chunk, pos + page.head + page.raw, rows, column, ceiling)
        case None => None
        case Some(rest) => Some([page] + rest)
  }

  function Values(pages: seq<Page>): nat {
    if pages == [] then 0 else pages[0].count + Values(pages[1..])
  }

  function Extent(pages: seq<Page>): nat {
    if pages == [] then 0 else pages[0].head + pages[0].raw + Extent(pages[1..])
  }

  /** A chunk the page preflight accepts. */
  ghost predicate ChunkOk(chunk: seq<byte>, rows: nat, column: Column, ceiling: nat, most: nat) {
    var pages := PagesFrom(chunk, 0, rows, column, ceiling);
    pages.Some? && |pages.value| <= most && Values(pages.value) == rows
  }

  /** An accepted chunk is tiled exactly: its pages' headers and bodies follow one
      another from the first byte to the last, and their counts add up to the rows. */
  lemma {:induction false} PagesTile(chunk: seq<byte>, pos: nat, rows: nat, column: Column, ceiling: nat)
    requires pos <= |chunk| && PagesFrom(chunk, pos, rows, column, ceiling).Some?
    ensures var pages := PagesFrom(chunk, pos, rows, column, ceiling).value;
      && pos + Extent(pages) == |chunk|
      && forall i :: 0 <= i < |pages| ==> Placed(chunk, pos + Extent(pages[..i]), rows, column, ceiling, pages[i])
    decreases |chunk| - pos
  {
    hide PageAt, PagesFrom, Extent, Placed;
    PagesUnfold(chunk, pos, rows, column, ceiling);
    var pages := PagesFrom(chunk, pos, rows, column, ceiling).value;
    if pos < |chunk| {
      var page := pages[0];
      var next := pos + page.head + page.raw;
      PagesTile(chunk, next, rows, column, ceiling);
      ExtentCons(page, pages[1..]);
      assert pages == [page] + pages[1..];
      forall i | 0 <= i < |pages|
        ensures Placed(chunk, pos + Extent(pages[..i]), rows, column, ceiling, pages[i])
      {
        if i == 0 {
          NoExtent();
          assert pages[..0] == [];
        } else {
          ExtentCons(page, pages[1..][..i - 1]);
          assert pages[..i] == [page] + pages[1..][..i - 1];
          assert pages[i] == pages[1..][i - 1];
        }
      }
    } else {
      NoExtent();
    }
  }

  /** This page is what stands at this offset. */
  ghost predicate Placed(chunk: seq<byte>, at: nat, rows: nat, column: Column, ceiling: nat, page: Page) {
    at < |chunk| && PageAt(chunk, at, rows, column, ceiling) == Some(page)
  }

  lemma PagesUnfold(chunk: seq<byte>, pos: nat, rows: nat, column: Column, ceiling: nat)
    requires pos <= |chunk| && PagesFrom(chunk, pos, rows, column, ceiling).Some?
    ensures var pages := PagesFrom(chunk, pos, rows, column, ceiling).value;
      if pos == |chunk| then pages == []
      else
        && pages != [] && Placed(chunk, pos, rows, column, ceiling, pages[0])
        && pos + pages[0].head + pages[0].raw <= |chunk| && 0 < pages[0].head
        && PagesFrom(chunk, pos + pages[0].head + pages[0].raw, rows, column, ceiling) == Some(pages[1..])
  {
    hide PageAt;
    if pos < |chunk| {
      var page := PageAt(chunk, pos, rows, column, ceiling).value;
      var rest := PagesFrom(chunk, pos + page.head + page.raw, rows, column, ceiling).value;
      assert ([page] + rest)[1..] == rest;
    }
  }

  lemma ExtentCons(page: Page, rest: seq<Page>)
    ensures Extent([page] + rest) == page.head + page.raw + Extent(rest)
  {
    assert ([page] + rest)[1..] == rest;
  }

  lemma NoExtent()
    ensures Extent([]) == 0
  {
  }

  method PageGuard(chunk: seq<byte>, rows: nat, column: Column, ceiling: nat, most: nat) returns (ok: bool)
    ensures ok <==> ChunkOk(chunk, rows, column, ceiling, most)
  {
    hide PageAt;
    var pos, values, count := 0, 0, 0;
    ghost var done: seq<Page> := [];
    ghost var all := PagesFrom(chunk, 0, rows, column, ceiling);
    if all.Some? {
      assert done + all.value == all.value;
    }
    while pos < |chunk|
      invariant 0 <= pos <= |chunk| && count == |done| <= most && values == Values(done)
      invariant all ==
        match PagesFrom(chunk, pos, rows, column, ceiling) case None => None case Some(rest) => Some(done + rest)
      decreases |chunk| - pos
    {
      count := count + 1;
      if count > most {
        AtLeastOne(chunk, pos, rows, column, ceiling);
        return false;
      }
      var page := ReadPage(chunk, pos, rows, column, ceiling);
      if page.None? {
        return false;
      }
      ghost var next := pos + page.value.head + page.value.raw;
      ghost var rest := PagesFrom(chunk, next, rows, column, ceiling);
      if rest.Some? {
        assert done + ([page.value] + rest.value) == done + [page.value] + rest.value;
      }
      ValuesSnoc(done, page.value);
      done := done + [page.value];
      values := values + page.value.count;
      pos := pos + page.value.head + page.value.raw;
    }
    assert done + [] == done;
    ok := values == rows;
  }

  lemma AtLeastOne(chunk: seq<byte>, pos: nat, rows: nat, column: Column, ceiling: nat)
    requires pos < |chunk|
    ensures var r := PagesFrom(chunk, pos, rows, column, ceiling); r.Some? ==> |r.value| > 0
  {
    hide PageAt;
  }

  lemma {:induction false} ValuesSnoc(pages: seq<Page>, page: Page)
    ensures Values(pages + [page]) == Values(pages) + page.count
  {
    if pages != [] {
      ValuesSnoc(pages[1..], page);
      assert (pages + [page])[1..] == pages[1..] + [page];
    }
  }

  method ReadPage(chunk: seq<byte>, pos: nat, rows: nat, column: Column, ceiling: nat) returns (p: Option<Page>)
    requires pos < |chunk|
    ensures p == PageAt(chunk, pos, rows, column, ceiling)
  {
    hide Body, CompactBounds.PageHeader, ParseFields;
    var fields := ParseStruct(HeaderWindow(chunk, pos), CompactBounds.PageHeader(), 0, 0, 0);
    if fields.Bad? {
      return None;
    }
    var page := HeaderPage(fields.value, fields.pos, |chunk| - pos - fields.pos, rows, ceiling);
    if page.None? {
      return None;
    }
    var body := chunk[pos + fields.pos..pos + fields.pos + page.value.raw];
    var ok := PageBody(body, page.value.count, column);
    p := if ok then page else None;
  }
}
