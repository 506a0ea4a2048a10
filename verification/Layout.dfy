/** The byte layout of one Parquet part: magic, column chunks, footer, length, magic. */
module Layout {
  import opened Prelude
  import opened Compact
  import CompactBounds
  import Pages

  const MAGIC: seq<byte> := [0x50, 0x41, 0x52, 0x31]
  const MIN_FILE_BYTES: nat := 12

  /** What a chunk of this profile never has. */
  datatype Extra = DictionaryPage | FilePath | Statistics | BloomFilter | ColumnIndex | OffsetIndex

  /** A column chunk as the footer describes it. */
  datatype Chunk = Chunk(
    offset: int, size: int, raw: int, values: int, extras: set<Extra>, compressed: bool,
    physical: Pages.Physical, maxRepetition: int, maxDefinition: int, encodings: seq<int>)

  datatype Group = Group(rows: int, chunks: seq<Chunk>)

  datatype Limits = Limits(partBytes: nat, footerBytes: nat, batchRows: nat, ceiling: nat)

  /** Physical type and optionality of each column of the capture schema. */
  const COLUMNS: seq<Pages.Column> := [
    Pages.Column(Pages.ByteArray, false), Pages.Column(Pages.Int64, false), Pages.Column(Pages.Int32, false),
    Pages.Column(Pages.Int32, false), Pages.Column(Pages.Boolean, false), Pages.Column(Pages.Boolean, true),
    Pages.Column(Pages.Double, true), Pages.Column(Pages.ByteArray, true), Pages.Column(Pages.ByteArray, true)]

  // ---------------------------------------------------------------- the footer

  function PhysicalCode(physical: Pages.Physical): int {
    match physical
    case Boolean => 0
    case Int32 => 1
    case Int64 => 2
    case Double => 5
    case ByteArray => 6
    case Foreign => -1
  }

  function ListOf(fields: seq<Entry>, id: int): seq<Node> {
    match Pages.FieldOf(fields, id)
    case Some(List(items)) => items
    case _ => []
  }

  predicate PlainOrRle(encoding: Option<int>) {
    encoding == Some(Pages.ENCODING_PLAIN) || encoding == Some(Pages.ENCODING_RLE)
  }

  /** The schema root has nine children and no type; each leaf is the column in its place. */
  predicate ElementOk(node: Node, i: nat) {
    && node.Struct?
    && (var children, kind := Pages.IntOf(node.fields, 5), Pages.IntOf(node.fields, 1);
        var repetition := Pages.IntOf(node.fields, 3);
        if i == 0 then children == Some(|COLUMNS|) && kind.None? && repetition.None?
        else
          && i <= |COLUMNS| && (children.None? || children == Some(0))
          && kind == Some(PhysicalCode(COLUMNS[i - 1].physical))
          && repetition == Some(if COLUMNS[i - 1].optional then 1 else 0))
  }

  predicate StatsOk(node: Node) {
    && node.Struct? && Pages.IntOf(node.fields, 1) == Some(Pages.PAGE_TYPE_DATA_PAGE)
    && PlainOrRle(Pages.IntOf(node.fields, 2))
  }

  predicate ChunkMetaOk(node: Node) {
    && node.Struct? && Pages.FieldOf(node.fields, 3).Some? && Pages.FieldOf(node.fields, 3).value.Struct?
    && (var meta := Pages.FieldOf(node.fields, 3).value.fields;
        && (forall e :: e in ListOf(meta, 2) ==> e.Int? && PlainOrRle(Some(e.v)))
        && (forall e :: e in ListOf(meta, 13) ==> StatsOk(e)))
  }

  predicate GroupMetaOk(node: Node) {
    node.Struct? && forall c :: c in ListOf(node.fields, 1) ==> ChunkMetaOk(c)
  }

  /** The footer's integers that are turned into structure: child counts, types and encodings. */
  predicate Profile(fields: seq<Entry>) {
    && (forall i :: 0 <= i < |ListOf(fields, 2)| ==> ElementOk(ListOf(fields, 2)[i], i))
    && (forall g :: g in ListOf(fields, 4) ==> GroupMetaOk(g))
  }

  /** A footer of the profile, to its last byte. */
  predicate ProfileFooter(footer: seq<byte>) {
    var parsed := ParseStruct(footer, CompactBounds.FileMetaData(), 0, 0, 0);
    parsed.Good? && parsed.pos == |footer| && Profile(parsed.value)
  }

  /** Where the footer starts, when the framing around it and its profile are right. */
  function FooterStart(bytes: seq<byte>, limits: Limits): (r: Option<nat>)
    ensures r.Some? ==> 4 <= r.value <= |bytes| - 8
    ensures r.Some? ==> bytes[..4] == MAGIC && bytes[|bytes| - 4..] == MAGIC
                        && Pages.Le32(bytes[|bytes| - 8..]) == |bytes| - 8 - r.value
    ensures r.Some? ==> ProfileFooter(bytes[r.value..|bytes| - 8])
  {
    if |bytes| < MIN_FILE_BYTES || |bytes| > limits.partBytes then None
    else
      var size := Pages.Le32(bytes[|bytes| - 8..|bytes| - 4]);
      if bytes[..4] != MAGIC || bytes[|bytes| - 4..] != MAGIC then None
      else if size > limits.footerBytes || size > |bytes| - MIN_FILE_BYTES then None
      else
        var start := |bytes| - 8 - size;
        if ProfileFooter(bytes[start..|bytes| - 8]) then Some(start) else None
  }

  /** A framed footer is found where it starts if and only if sizes and profile allow. */
  lemma FooterFramed(data: seq<byte>, footer: seq<byte>, length: seq<byte>, limits: Limits)
    requires |length| == 4 && Pages.Le32(length) == |footer|
    ensures var bytes := MAGIC + data + footer + length + MAGIC;
      FooterStart(bytes, limits) ==
      if |bytes| <= limits.partBytes && |footer| <= limits.footerBytes && ProfileFooter(footer)
      then Some(4 + |data|) else None
  {
    hide ProfileFooter, Pages.Le32;
    var bytes := MAGIC + data + footer + length + MAGIC;
    assert bytes[..4] == MAGIC && bytes[|bytes| - 4..] == MAGIC;
    assert bytes[|bytes| - 8..|bytes| - 4] == length;
    assert bytes[4 + |data|..|bytes| - 8] == footer;
  }

  // ---------------------------------------------------------------- chunks tile the data

  /** The bytes a run of chunks claims. */
  function Claimed(chunks: seq<Chunk>): int {
    if chunks == [] then 0 else Claimed(chunks[..|chunks| - 1]) + chunks[|chunks| - 1].size
  }

  /** A chunk of its column's type and levels, uncompressed, with nothing besides its pages. */
  predicate PlainChunk(chunk: Chunk, column: Pages.Column) {
    && chunk.extras == {} && !chunk.compressed && chunk.raw == chunk.size && chunk.physical == column.physical
    && chunk.maxRepetition == 0 && chunk.maxDefinition == (if column.optional then 1 else 0)
    && forall i :: 0 <= i < |chunk.encodings| ==> PlainOrRle(Some(chunk.encodings[i]))
  }

  ghost predicate ChunkAccepted(bytes: seq<byte>, chunk: Chunk, at: int, rows: int, column: Pages.Column, footer: nat,
                                limits: Limits) {
    && PlainChunk(chunk, column) && chunk.values == rows && 0 < rows
    && chunk.offset == at && 0 < chunk.size && 0 <= at && at + chunk.size <= footer <= |bytes|
    && Pages.ChunkOk(bytes[at..at + chunk.size], rows, column, limits.ceiling, limits.batchRows)
  }

  /** The group's chunks lie end to end from `at`, one for each column. */
  ghost predicate GroupAccepted(bytes: seq<byte>, group: Group, at: int, profile: seq<Pages.Column>, footer: nat,
                                limits: Limits) {
    && 0 < group.rows <= limits.batchRows && |group.chunks| == |profile|
    && Claimed(group.chunks) <= limits.ceiling
    && forall k :: 0 <= k < |group.chunks| ==>
         ChunkAccepted(bytes, group.chunks[k], at + Claimed(group.chunks[..k]), group.rows, profile[k], footer, limits)
  }

  function Span(groups: seq<Group>): int {
    if groups == [] then 0 else Span(groups[..|groups| - 1]) + Claimed(groups[|groups| - 1].chunks)
  }

  /** The groups lie end to end from the leading magic to the footer. */
  ghost predicate Accepted(bytes: seq<byte>, groups: seq<Group>, profile: seq<Pages.Column>, footer: nat,
                           limits: Limits) {
    && (forall g :: 0 <= g < |groups| ==>
          GroupAccepted(bytes, groups[g], 4 + Span(groups[..g]), profile, footer, limits))
    && 4 + Span(groups) == footer
  }

  method CheckChunk(bytes: seq<byte>, chunk: Chunk, at: nat, rows: int, column: Pages.Column, footer: nat,
                    limits: Limits)
    returns (ok: bool)
    requires at <= footer <= |bytes| && 0 < rows
    ensures ok <==> ChunkAccepted(bytes, chunk, at, rows, column, footer, limits)
  {
    hide Pages.ChunkOk;
    if !PlainChunk(chunk, column) || chunk.values != rows || chunk.offset != at
       || chunk.size <= 0 || at + chunk.size > footer {
      return false;
    }
    ok := Pages.PageGuard(bytes[at..at + chunk.size], rows, column, limits.ceiling, limits.batchRows);
  }

  lemma ChunkFacts(bytes: seq<byte>, chunk: Chunk, at: int, rows: int, column: Pages.Column, footer: nat,
                   limits: Limits)
    requires ChunkAccepted(bytes, chunk, at, rows, column, footer, limits)
    ensures chunk.offset == at && 0 < chunk.size && 0 <= at && at + chunk.size <= footer <= |bytes|
    ensures ChunkBytes(bytes, chunk) == bytes[at..at + chunk.size]
  {
    hide Pages.ChunkOk;
  }

  method CheckGroup(bytes: seq<byte>, group: Group, at: nat, profile: seq<Pages.Column>, footer: nat, limits: Limits)
    returns (end: Option<nat>)
    requires at <= footer <= |bytes|
    ensures end.Some? <==> GroupAccepted(bytes, group, at, profile, footer, limits)
    ensures end.Some? ==> at <= end.value == at + Claimed(group.chunks) <= footer
  {
    hide ChunkAccepted, Claimed;
    if group.rows <= 0 || group.rows > limits.batchRows || |group.chunks| != |profile| {
      return None;
    }
    var next, total := at, 0;
    NothingClaimed(group.chunks);
    for k := 0 to |group.chunks|
      invariant at <= next <= footer && total == next - at <= limits.ceiling
      invariant total == Claimed(group.chunks[..k])
      invariant forall j :: 0 <= j < k ==>
        ChunkAccepted(bytes, group.chunks[j], at + Claimed(group.chunks[..j]), group.rows, profile[j], footer, limits)
    {
      ClaimedStep(group.chunks, k);
      var ok := CheckChunk(bytes, group.chunks[k], next, group.rows, profile[k], footer, limits);
      if !ok {
        return None;
      }
      ChunkFacts(bytes, group.chunks[k], next, group.rows, profile[k], footer, limits);
      next, total := next + group.chunks[k].size, total + group.chunks[k].size;
      if total > limits.ceiling {
        TooMuch(bytes, group, at, profile, footer, limits, k + 1);
        return None;
      }
    }
    assert group.chunks[..|group.chunks|] == group.chunks;
    end := Some(next);
  }

  lemma NothingClaimed(chunks: seq<Chunk>)
    ensures Claimed(chunks[..0]) == 0
  {
  }

  lemma ClaimedStep(chunks: seq<Chunk>, k: nat)
    requires k < |chunks|
    ensures Claimed(chunks[..k + 1]) == Claimed(chunks[..k]) + chunks[k].size
  {
    assert chunks[..k + 1][..k] == chunks[..k];
  }

  /** Chunks have positive sizes, so a prefix over the ceiling puts the group over it. */
  lemma {:induction false} PrefixClaims(bytes: seq<byte>, group: Group, at: int, profile: seq<Pages.Column>,
                                        footer: nat, limits: Limits, k: nat)
    requires GroupAccepted(bytes, group, at, profile, footer, limits) && k <= |group.chunks|
    ensures Claimed(group.chunks[..k]) <= Claimed(group.chunks)
    decreases |group.chunks| - k
  {
    hide ChunkAccepted, Claimed;
    if k == |group.chunks| {
      assert group.chunks[..k] == group.chunks;
    } else {
      PrefixClaims(bytes, group, at, profile, footer, limits, k + 1);
      ClaimedStep(group.chunks, k);
      ChunkFacts(bytes, group.chunks[k], at + Claimed(group.chunks[..k]), group.rows, profile[k], footer, limits);
    }
  }

  lemma TooMuch(bytes: seq<byte>, group: Group, at: int, profile: seq<Pages.Column>, footer: nat, limits: Limits,
                k: nat)
    requires k <= |group.chunks| && Claimed(group.chunks[..k]) > limits.ceiling
    ensures !GroupAccepted(bytes, group, at, profile, footer, limits)
  {
    if GroupAccepted(bytes, group, at, profile, footer, limits) {
      PrefixClaims(bytes, group, at, profile, footer, limits, k);
    }
  }

  method CheckLayout(bytes: seq<byte>, groups: seq<Group>, profile: seq<Pages.Column>, footer: nat, limits: Limits)
    returns (ok: bool)
    requires 4 <= footer <= |bytes|
    ensures ok <==> Accepted(bytes, groups, profile, footer, limits)
  {
    hide GroupAccepted, Claimed;
    var next := 4;
    for g := 0 to |groups|
      invariant 4 <= next <= footer && next == 4 + Span(groups[..g])
      invariant forall j :: 0 <= j < g ==>
        GroupAccepted(bytes, groups[j], 4 + Span(groups[..j]), profile, footer, limits)
    {
      assert groups[..g + 1][..g] == groups[..g];
      var end := CheckGroup(bytes, groups[g], next, profile, footer, limits);
      if end.None? {
        assert !GroupAccepted(bytes, groups[g], 4 + Span(groups[..g]), profile, footer, limits);
        return false;
      }
      next := end.value;
    }
    assert groups[..|groups|] == groups;
    ok := next == footer;
  }

  // ---------------------------------------------------------------- what acceptance means

  function ChunkBytes(bytes: seq<byte>, chunk: Chunk): seq<byte> {
    if 0 <= chunk.offset && 0 <= chunk.size && chunk.offset + chunk.size <= |bytes|
    then bytes[chunk.offset..chunk.offset + chunk.size]
    else []
  }

  function ChunksBytes(bytes: seq<byte>, chunks: seq<Chunk>): seq<byte> {
    if chunks == [] then [] else ChunksBytes(bytes, chunks[..|chunks| - 1]) + ChunkBytes(bytes, chunks[|chunks| - 1])
  }

  function GroupsBytes(bytes: seq<byte>, groups: seq<Group>): seq<byte> {
    if groups == [] then []
    else GroupsBytes(bytes, groups[..|groups| - 1]) + ChunksBytes(bytes, groups[|groups| - 1].chunks)
  }

  lemma Splice(bytes: seq<byte>, a: nat, b: nat, c: nat)
    requires a <= b <= c <= |bytes|
    ensures bytes[a..b] + bytes[b..c] == bytes[a..c]
  {
  }

  lemma {:induction false} GroupTiles(bytes: seq<byte>, group: Group, at: nat, profile: seq<Pages.Column>, footer: nat,
                                      limits: Limits, k: nat)
    requires at <= |bytes| && GroupAccepted(bytes, group, at, profile, footer, limits) && k <= |group.chunks|
    ensures 0 <= Claimed(group.chunks[..k]) && at + Claimed(group.chunks[..k]) <= |bytes|
    ensures ChunksBytes(bytes, group.chunks[..k]) == bytes[at..at + Claimed(group.chunks[..k])]
    decreases k
  {
    hide ChunkAccepted, Claimed, ChunkBytes;
    if k == 0 {
      NothingClaimed(group.chunks);
    } else {
      GroupTiles(bytes, group, at, profile, footer, limits, k - 1);
      ClaimedStep(group.chunks, k - 1);
      assert group.chunks[..k][..k - 1] == group.chunks[..k - 1];
      var from := at + Claimed(group.chunks[..k - 1]);
      ChunkFacts(bytes, group.chunks[k - 1], from, group.rows, profile[k - 1], footer, limits);
      Splice(bytes, at, from, from + group.chunks[k - 1].size);
    }
  }

  lemma {:induction false} GroupsTile(bytes: seq<byte>, groups: seq<Group>, profile: seq<Pages.Column>, footer: nat,
                                      limits: Limits, g: nat)
    requires 4 <= |bytes| && Accepted(bytes, groups, profile, footer, limits) && g <= |groups|
    ensures 0 <= Span(groups[..g]) && 4 + Span(groups[..g]) <= |bytes|
    ensures GroupsBytes(bytes, groups[..g]) == bytes[4..4 + Span(groups[..g])]
    decreases g
  {
    hide GroupAccepted, Claimed, ChunksBytes;
    if g > 0 {
      GroupsTile(bytes, groups, profile, footer, limits, g - 1);
      assert groups[..g][..g - 1] == groups[..g - 1];
      var group := groups[g - 1];
      var at := 4 + Span(groups[..g - 1]);
      assert GroupAccepted(bytes, group, at, profile, footer, limits);
      assert group.chunks[..|group.chunks|] == group.chunks;
      GroupTiles(bytes, group, at, profile, footer, limits, |group.chunks|);
      Splice(bytes, 4, at, at + Claimed(group.chunks));
    }
  }

  /** Every byte of an accepted part has exactly one owner: the magics, one chunk,
      the footer, or the footer length. */
  lemma PartTiles(bytes: seq<byte>, groups: seq<Group>, profile: seq<Pages.Column>, limits: Limits)
    requires FooterStart(bytes, limits).Some?
    requires Accepted(bytes, groups, profile, FooterStart(bytes, limits).value, limits)
    ensures var start := FooterStart(bytes, limits).value;
      bytes == MAGIC + GroupsBytes(bytes, groups) + bytes[start..|bytes| - 8] + bytes[|bytes| - 8..|bytes| - 4] + MAGIC
  {
    hide FooterStart, GroupsBytes, GroupAccepted, Pages.Le32, Span;
    var start := FooterStart(bytes, limits).value;
    GroupsTile(bytes, groups, profile, start, limits, |groups|);
    assert groups[..|groups|] == groups;
    Splice(bytes, 0, 4, start);
    Splice(bytes, 0, start, |bytes| - 8);
    Splice(bytes, 0, |bytes| - 8, |bytes| - 4);
    Splice(bytes, 0, |bytes| - 4, |bytes|);
  }

  /** Inside an accepted chunk the pages tile its bytes and their counts sum to its rows. */
  lemma ChunkPages(bytes: seq<byte>, chunk: Chunk, at: int, rows: int, column: Pages.Column, footer: nat,
                   limits: Limits)
    requires ChunkAccepted(bytes, chunk, at, rows, column, footer, limits)
    ensures var pages := Pages.PagesFrom(ChunkBytes(bytes, chunk), 0, rows, column, limits.ceiling);
      pages.Some? && Pages.Extent(pages.value) == chunk.size && Pages.Values(pages.value) == rows
  {
    hide Pages.PagesFrom, Pages.Extent, Pages.Values;
    Pages.PagesTile(ChunkBytes(bytes, chunk), 0, rows, column, limits.ceiling);
  }
}
