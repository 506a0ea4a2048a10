/** A codec with the sizes of uncompressed PLAIN columns and a JSON manifest. It meets the
    margins the capture limits are built on, so those margins can be met. */
module CaptureSizes {
  import opened Prelude
  import opened CaptureFormat
  import opened Capture
  import opened CaptureExport

  /** Longest point id, and a bound on zone names. */
  const MAX_ID_BYTES: nat := 256
  const MAX_ZONE_BYTES: nat := 64

  // ---------------------------------------------------------------- the codec

  function TextBytes(text: Option<string>): nat {
    if text.Some? then 4 + |text.value| else 0
  }

  /** Nine columns of one row: fixed widths, length prefixes, and a byte per nullable level. */
  function RowBytes(c: Columns, i: nat): nat
    requires Aligned(c) && i < Rows(c)
  {
    4 + |c.id[i]| + 8 + 4 + 4 + 1 + 1 + 8 + 4 + TextBytes(c.text[i]) + TextBytes(c.unit[i])
  }

  function RowsBytes(c: Columns, n: nat): nat
    requires Aligned(c) && n <= Rows(c)
  {
    if n == 0 then 0 else RowsBytes(c, n - 1) + RowBytes(c, n - 1)
  }

  function TableBytes(c: Columns): nat {
    if Aligned(c) then RowsBytes(c, Rows(c)) else 0
  }

  function PartText(part: Part): nat {
    62 + |part.name| + |part.sha| + |Decimal(part.ordinal)| + |Decimal(part.bytes)| + |Decimal(part.rows)|
    + |Decimal(part.groups)|
  }

  function PartsText(parts: seq<Part>): nat {
    if parts == [] then 0 else PartsText(parts[..|parts| - 1]) + PartText(parts[|parts| - 1])
  }

  function LimitsText(l: Limits): nat {
    |Decimal(l.batchRows)| + |Decimal(l.batchBytes)| + |Decimal(l.fieldBytes)| + |Decimal(l.groupsPerPart)|
    + |Decimal(l.partBytes)| + |Decimal(l.totalBytes)| + |Decimal(l.parts)| + |Decimal(l.manifestBytes)|
    + |Decimal(l.footerBytes)|
  }

  /** A header's fixed text, and its id and zone with every character escaped to eight. */
  function HeaderText(h: Header): nat {
    2048 + 8 * (|h.id| + |h.zone|)
  }

  function ManifestText(m: Manifest): nat {
    291 + |m.consistency| + HeaderText(m.header) + LimitsText(m.limits) + |Decimal(m.rows)| + PartsText(m.parts)
  }

  function TableGroup(c: Columns): nat {
    1024 + TableBytes(c)
  }

  function Footer(groups: seq<Columns>): nat {
    8 + 1372 + 434 * |groups|
  }

  /** The bytes add up, and no group passes the encoded ceiling of a full batch. */
  predicate Tiled(l: Limits, file: File) {
    && file.bytes == MAGIC_BYTES + GroupsSize(file.groups) + Footer(file.groups) <= l.partBytes
    && forall i :: 0 <= i < |file.groups| ==> TableGroup(file.groups[i]) <= EncodedCeiling(l.batchBytes)
  }

  function GroupsSize(groups: seq<Columns>): nat {
    if groups == [] then 0 else GroupsSize(groups[..|groups| - 1]) + TableGroup(groups[|groups| - 1])
  }

  function PlainCodec(l: Limits): Codec {
    Codec(c => 3393 + TableBytes(c), TableGroup, Footer, f => seq(64, i => '0'), f => Tiled(l, f), HeaderText,
          ManifestText)
  }

  // ---------------------------------------------------------------- batches

  lemma RowCharged(header: Header, chunk: seq<Sample>, i: nat)
    requires i < |chunk| && |header.id| <= MAX_ID_BYTES
    ensures RowBytes(Tabulate(header, chunk), i) <= SampleBytes(chunk[i])
  {
  }

  /** The rows of a batch weigh no more than its samples are charged. */
  lemma {:induction false} RowsCharged(header: Header, chunk: seq<Sample>, n: nat)
    requires n <= |chunk| && |header.id| <= MAX_ID_BYTES
    ensures RowsBytes(Tabulate(header, chunk), n) <= TotalBytes(chunk[..n])
  {
    hide Tabulate, RowBytes, SampleBytes;
    if n > 0 {
      RowsCharged(header, chunk, n - 1);
      RowCharged(header, chunk, n - 1);
      assert chunk[..n][..n - 1] == chunk[..n - 1];
    }
  }

  lemma TableCharged(env: Env, header: Header, l: Limits, chunk: seq<Sample>)
    requires Writable(env, header, l, chunk) && |header.id| <= MAX_ID_BYTES
    ensures TableBytes(Tabulate(header, chunk)) <= TotalBytes(chunk) <= l.batchBytes
  {
    hide Tabulate, Genuine, ValidValue, FieldBytes, TotalBytes;
    RowsCharged(header, chunk, |chunk|);
    assert chunk[..|chunk|] == chunk;
  }

  lemma ProducedCharged(env: Env, header: Header, l: Limits, batch: Columns)
    requires Produced(env, header, l, batch) && |header.id| <= MAX_ID_BYTES
    ensures TableBytes(batch) <= l.batchBytes
  {
    hide Writable, Tabulate, TableBytes;
    var chunk :| batch == Tabulate(header, chunk) && Writable(env, header, l, chunk);
    TableCharged(env, header, l, chunk);
  }

  lemma GroupsAreFair(env: Env, header: Header, l: Limits)
    requires ValidLimits(l) && |header.id| <= MAX_ID_BYTES
    ensures FairGroups(env, PlainCodec(l), header, l) && OneRowArrow(env, PlainCodec(l), header, l)
  {
    hide Produced, Writable, Tabulate, TableBytes, Tiled, SampleBytes;
    forall batch | Produced(env, header, l, batch)
      ensures PlainCodec(l).group(batch) + MIN_FILE_BYTES <= EncodedCeiling(PlainCodec(l).arrow(batch))
    {
      ProducedCharged(env, header, l, batch);
    }
    forall s | Writable(env, header, l, [s])
      ensures PlainCodec(l).arrow(Tabulate(header, [s])) <= SampleBytes(s) + ARROW_BATCH_BYTES
    {
      TableCharged(env, header, l, [s]);
      OneCharge(s);
    }
  }

  lemma OneCharge(s: Sample)
    ensures TotalBytes([s]) == SampleBytes(s)
  {
    assert [s][..0] == [];
    assert TotalBytes([s][..0]) == 0;
  }

  // ---------------------------------------------------------------- parts

  lemma {:induction false} SizesAgree(l: Limits, groups: seq<Columns>)
    ensures GroupBytes(PlainCodec(l), groups) == GroupsSize(groups)
    decreases |groups|
  {
    hide TableGroup, Tiled;
    if groups != [] {
      SizesAgree(l, groups[..|groups| - 1]);
    }
  }

  lemma PartsAreFair(env: Env, header: Header, l: Limits)
    requires ValidLimits(l) && |header.id| <= MAX_ID_BYTES
    ensures FairParts(env, PlainCodec(l), header, l)
  {
    hide Produced, TableBytes, GroupsSize, GroupBytes;
    forall groups | groups != [] && |groups| <= l.groupsPerPart && AllProduced(env, header, l, groups)
      ensures FairPart(PlainCodec(l), l, groups)
    {
      SizesAgree(l, groups);
      forall i | 0 <= i < |groups|
        ensures TableGroup(groups[i]) <= EncodedCeiling(l.batchBytes)
      {
        ProducedCharged(env, header, l, groups[i]);
      }
    }
  }

  // ---------------------------------------------------------------- manifests

  function Ten(k: nat): nat {
    if k == 0 then 1 else 10 * Ten(k - 1)
  }

  lemma {:induction false} Digits(n: nat, k: nat)
    requires n < Ten(k) && 0 < k
    ensures |Decimal(n)| <= k
  {
    if n >= 10 {
      Digits(n / 10, k - 1);
    }
  }

  /** Numbers below a hundred million have at most eight digits. */
  lemma EightDigits(n: nat)
    requires n < 100_000_000
    ensures |Decimal(n)| <= 8
  {
    assert Ten(4) == 10_000 && Ten(8) == 100_000_000;
    Digits(n, 8);
  }

  lemma {:induction false} PaddedLength(digits: string)
    requires |digits| <= 4
    ensures |Padded(digits)| == 4
    decreases 4 - |digits|
  {
    if |digits| < 4 {
      PaddedLength("0" + digits);
    }
  }

  lemma NameLength(n: nat)
    requires n < 256
    ensures |PartName(n)| == 17
  {
    hide Padded, Decimal;
    assert Ten(4) == 10_000;
    Digits(n, 4);
    PaddedLength(Decimal(n));
  }

  lemma RowsWithin(groups: nat, rows: nat)
    requires groups <= 16 && rows <= 1024
    ensures groups * rows <= 16_384
  {
    assert groups * rows <= 16 * rows;
  }

  lemma PartWithin(l: Limits, i: nat, part: Part)
    requires ValidLimits(l) && i < l.parts && PartListed(l, i, part)
    ensures PartText(part) <= MANIFEST_PART_BYTES && part.rows <= 16_384
  {
    hide Decimal, PartName, Reserve;
    NameLength(i);
    RowsWithin(part.groups, l.batchRows);
    EightDigits(part.ordinal);
    EightDigits(part.bytes);
    EightDigits(part.rows);
    EightDigits(part.groups);
  }

  lemma {:induction false} PartsWithin(l: Limits, parts: seq<Part>)
    requires ValidLimits(l) && Listed(l, parts)
    ensures PartsText(parts) <= MANIFEST_PART_BYTES * |parts| && SumRows(parts) <= 16_384 * |parts|
    decreases |parts|
  {
    hide PartText, PartListed, ValidLimits;
    if parts != [] {
      var last := |parts| - 1;
      PartsWithin(l, parts[..last]);
      PartWithin(l, last, parts[last]);
    }
  }

  lemma LimitsWithin(l: Limits)
    requires ValidLimits(l)
    ensures LimitsText(l) <= 72
  {
    hide Decimal, Reserve;
    EightDigits(l.batchRows);
    EightDigits(l.batchBytes);
    EightDigits(l.fieldBytes);
    EightDigits(l.groupsPerPart);
    EightDigits(l.partBytes);
    EightDigits(l.totalBytes);
    EightDigits(l.parts);
    EightDigits(l.manifestBytes);
    EightDigits(l.footerBytes);
  }

  lemma ManifestsAreFair(header: Header, l: Limits)
    requires ValidLimits(l)
    ensures FairManifests(PlainCodec(l), header, l)
  {
    hide PartsText, LimitsText, Decimal, SumRows, PartListed, HeaderText;
    LimitsWithin(l);
    forall parts | Listed(l, parts)
      ensures PlainCodec(l).manifestBytes(Describe(header, l, parts))
              <= ManifestFloor(PlainCodec(l).headerBytes(header), |parts|)
    {
      PartsWithin(l, parts);
      EightDigits(SumRows(parts));
    }
  }

  // ---------------------------------------------------------------- the margins can be met

  /** A codec whose manifest holds the text of its header, its consistency and its parts, and
      which refuses parts over the limits, is fair to every header with an admissible id. */
  lemma PlainIsFair(env: Env, header: Header, l: Limits)
    requires ValidLimits(l) && |header.id| <= MAX_ID_BYTES
    ensures Fair(env, PlainCodec(l), header, l) && OneRowArrow(env, PlainCodec(l), header, l)
    ensures forall m ::
      PlainCodec(l).manifestBytes(m) >= PlainCodec(l).headerBytes(m.header) + |m.consistency| + PartsText(m.parts)
    ensures forall h :: PlainCodec(l).headerBytes(h) >= |h.id| + |h.zone|
    ensures forall f :: PlainCodec(l).layout(f) ==> f.bytes <= l.partBytes
  {
    hide FairGroups, FairParts, FairManifests, OneRowArrow, ValidLimits, PartsText, LimitsText, Decimal;
    GroupsAreFair(env, header, l);
    PartsAreFair(env, header, l);
    ManifestsAreFair(header, l);
  }

  /** With it, every empty and one-row capture is exportable. */
  lemma SmallCapturesPublish(env: Env, header: Header, l: Limits, incoming: seq<seq<Sample>>)
    requires ValidLimits(l) && HeaderOk(header) && BatchesFit(incoming, l) && |Concat(incoming)| <= 1
    requires Acceptable(env, header, Concat(incoming)) && Finishes(header, Counted(Concat(incoming)))
    requires |header.id| <= MAX_ID_BYTES && |header.zone| <= MAX_ZONE_BYTES
    ensures Exportable(env, PlainCodec(l), header, l, incoming)
  {
    hide Fair, OneRowArrow, ValidLimits, HeaderOk, BatchesFit, Concat, Acceptable, Finishes, Counted, ManifestText,
         Tiled, Exportable;
    PlainIsFair(env, header, l);
    SmallCapturesFit(env, PlainCodec(l), header, l, incoming);
  }
}
