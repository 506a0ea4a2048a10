/** Capture files: the opening checks, the part-rolling writer, and the dataset reader. */
module Capture {
  import opened Prelude
  import opened CaptureFormat

  /** A Parquet file as its row groups and its size. */
  datatype File = File(groups: seq<Columns>, bytes: nat)

  datatype Part = Part(ordinal: nat, name: string, bytes: nat, sha: string, rows: nat, groups: nat)

  datatype Manifest = Manifest(
    version: nat, schema: nat, consistency: string, header: Header, limits: Limits, rows: nat, parts: seq<Part>)

  /** A digest as the manifest spells it. */
  predicate Hex64(s: string) {
    |s| == 64 && forall i :: 0 <= i < 64 ==> '0' <= s[i] <= '9' || 'a' <= s[i] <= 'f'
  }

  type Digest = s: string | Hex64(s) witness seq(64, i => '0')

  /** Sizes and digests the libraries compute; `layout` is the byte-level part check and
      `headerBytes` the size of a header as the manifest spells it. */
  datatype Codec = Codec(
    arrow: Columns -> nat, group: Columns -> nat, footer: seq<Columns> -> nat, sha: File -> Digest,
    layout: File -> bool, headerBytes: Header -> nat, manifestBytes: Manifest -> nat)

  const MAX_ROWS: nat := 10_000
  const MAX_GRID_BYTES: nat := 16_777_216
  const MIN_FILE_BYTES: nat := 12
  const MAGIC_BYTES: nat := 4
  const ARROW_BATCH_BYTES: nat := 4096
  const FOOTER_BASE_BYTES: nat := 2048
  const FOOTER_GROUP_BYTES: nat := 768
  const MANIFEST_BASE_BYTES: nat := 512
  const MANIFEST_HEADER_BYTES: nat := 16_384
  const MANIFEST_PART_BYTES: nat := 256
  const CONSISTENCY: string := "completedGenerationCheckedLiveCapture"

  function Decimal(n: nat): string {
    (if n < 10 then "" else Decimal(n / 10)) + ["0123456789"[n % 10]]
  }

  function Padded(digits: string): string
    decreases 4 - |digits|
  {
    if |digits| < 4 then Padded("0" + digits) else digits
  }

  function PartName(n: nat): string {
    "part-" + Padded(Decimal(n)) + ".parquet"
  }

  function EncodedCeiling(bytes: nat): nat {
    Min(Min(2 * bytes, U64_MAX) + 65_536, U64_MAX)
  }

  function Reserve(arrow: nat, footer: nat): nat {
    Min(EncodedCeiling(arrow) + footer, U64_MAX)
  }

  function FooterFloor(groups: nat): nat {
    FOOTER_BASE_BYTES + FOOTER_GROUP_BYTES * groups
  }

  function ManifestFloor(headerBytes: nat, parts: nat): nat {
    MANIFEST_BASE_BYTES + headerBytes + MANIFEST_PART_BYTES * parts
  }

  predicate ValidLimits(l: Limits) {
    && 0 < l.batchRows <= 1024 && 512 <= l.batchBytes <= 1_048_576 && 0 < l.fieldBytes <= 32_768
    && 0 < l.groupsPerPart <= 16
    && Max(1024, Reserve(l.batchBytes + ARROW_BATCH_BYTES, l.footerBytes)) <= l.partBytes <= 8_388_608
    && l.partBytes <= l.totalBytes <= 67_108_864 && 0 < l.parts <= 256
    && ManifestFloor(MANIFEST_HEADER_BYTES, l.parts) <= l.manifestBytes <= 262_144
    && FooterFloor(l.groupsPerPart) <= l.footerBytes <= 131_072
  }

  predicate HeaderOk(h: Header) {
    && h.returned <= MAX_ROWS && h.returned <= h.retained && h.start <= h.end
    && (h.retained == 0 <==> h.first.None? && h.last.None?) && (h.first.Some? <==> h.last.Some?)
    && (h.first.Some? ==>
          && h.first.value <= h.last.value && (h.retained == 1 ==> h.first == h.last)
          && (h.evicted.Some? ==> h.evicted.value < h.first.value))
    && h.complete
  }

  function TotalRows(groups: seq<Columns>): nat {
    if groups == [] then 0 else TotalRows(groups[..|groups| - 1]) + Rows(groups[|groups| - 1])
  }

  function GroupBytes(codec: Codec, groups: seq<Columns>): nat {
    if groups == [] then 0 else GroupBytes(codec, groups[..|groups| - 1]) + codec.group(groups[|groups| - 1])
  }

  function SumRows(parts: seq<Part>): nat {
    if parts == [] then 0 else SumRows(parts[..|parts| - 1]) + parts[|parts| - 1].rows
  }

  function SumBytes(parts: seq<Part>): nat {
    if parts == [] then 0 else SumBytes(parts[..|parts| - 1]) + parts[|parts| - 1].bytes
  }

  function Flat(files: seq<File>): seq<Columns> {
    if files == [] then [] else Flat(files[..|files| - 1]) + files[|files| - 1].groups
  }

  // ---------------------------------------------------------------- what the reader checks

  predicate GroupsOk(groups: seq<Columns>, l: Limits) {
    forall i :: 0 <= i < |groups| ==> 0 < Rows(groups[i]) <= l.batchRows && Aligned(groups[i])
  }

  /** A part's bytes against its manifest entry. */
  predicate PartChecked(codec: Codec, l: Limits, file: File, part: Part) {
    && MIN_FILE_BYTES <= file.bytes == part.bytes <= l.partBytes && codec.sha(file) == part.sha
    && codec.footer(file.groups) <= l.footerBytes + 8 && codec.layout(file)
    && |file.groups| == part.groups && TotalRows(file.groups) == part.rows && GroupsOk(file.groups, l)
  }

  predicate PartListed(l: Limits, i: nat, part: Part) {
    && part.ordinal == i && part.name == PartName(i) && Hex64(part.sha) && MIN_FILE_BYTES <= part.bytes <= l.partBytes
    && 0 < part.groups <= l.groupsPerPart && 0 < part.rows <= part.groups * l.batchRows
  }

  /** The manifest and the part files as `open` accepts them. */
  predicate Opens(codec: Codec, m: Manifest, files: seq<File>) {
    && m.version == 1 && m.schema == 1 && m.consistency == CONSISTENCY
    && ValidLimits(m.limits) && HeaderOk(m.header) && |m.parts| <= m.limits.parts
    && codec.manifestBytes(m) <= m.limits.manifestBytes
    && m.header.returned == m.rows <= MAX_ROWS
    && |m.parts| <= |files|
    && (forall i :: 0 <= i < |m.parts| ==>
          PartListed(m.limits, i, m.parts[i]) && PartChecked(codec, m.limits, files[i], m.parts[i]))
    && SumBytes(m.parts) <= m.limits.totalBytes && SumRows(m.parts) == m.rows
  }

  lemma {:induction false} SumsGrow(parts: seq<Part>, i: nat)
    requires i <= |parts|
    ensures SumRows(parts[..i]) <= SumRows(parts) && SumBytes(parts[..i]) <= SumBytes(parts)
    decreases |parts|
  {
    if i < |parts| {
      SumsGrow(parts[..|parts| - 1], i);
      assert parts[..|parts| - 1][..i] == parts[..i];
    } else {
      assert parts[..i] == parts;
    }
  }

  method Open(codec: Codec, m: Manifest, files: seq<File>) returns (ok: bool)
    ensures ok <==> Opens(codec, m, files)
  {
    hide PartListed, PartChecked, ValidLimits, HeaderOk, PartName;
    if m.version != 1 || m.schema != 1 || m.consistency != CONSISTENCY
       || !ValidLimits(m.limits) || |m.parts| > m.limits.parts || codec.manifestBytes(m) > m.limits.manifestBytes
       || m.rows > MAX_ROWS || m.header.returned != m.rows {
      return false;
    }
    var rows, bytes := 0, 0;
    for i := 0 to |m.parts|
      invariant rows == SumRows(m.parts[..i]) && bytes == SumBytes(m.parts[..i]) && bytes <= m.limits.totalBytes
      invariant i <= |files|
      invariant forall j :: 0 <= j < i ==>
        PartListed(m.limits, j, m.parts[j]) && PartChecked(codec, m.limits, files[j], m.parts[j])
    {
      assert m.parts[..i + 1][..i] == m.parts[..i];
      SumsGrow(m.parts, i + 1);
      if !PartListed(m.limits, i, m.parts[i]) {
        return false;
      }
      rows, bytes := rows + m.parts[i].rows, bytes + m.parts[i].bytes;
      if bytes > m.limits.totalBytes || rows > MAX_ROWS {
        return false;
      }
      if i >= |files| || !PartChecked(codec, m.limits, files[i], m.parts[i]) {
        return false;
      }
    }
    assert m.parts[..|m.parts|] == m.parts;
    ok := rows == m.rows && HeaderOk(m.header);
  }

  // ---------------------------------------------------------------- the writer

  /** Every finished part is one the reader accepts. */
  predicate PartsOk(codec: Codec, l: Limits, parts: seq<Part>, files: seq<File>) {
    && |files| == |parts| <= l.parts
    && (forall i :: 0 <= i < |parts| ==> PartListed(l, i, parts[i]) && PartChecked(codec, l, files[i], parts[i]))
    && SumBytes(parts) <= l.totalBytes
  }

  lemma {:induction false} RowsBounded(groups: seq<Columns>, l: Limits)
    requires GroupsOk(groups, l)
    ensures |groups| <= TotalRows(groups) <= |groups| * l.batchRows
  {
    if groups != [] {
      var last := |groups| - 1;
      RowsBounded(groups[..last], l);
      assert last * l.batchRows + l.batchRows == |groups| * l.batchRows;
    }
  }

  lemma PartsGrow(codec: Codec, l: Limits, parts: seq<Part>, files: seq<File>, file: File, part: Part)
    requires PartsOk(codec, l, parts, files) && |parts| < l.parts && SumBytes(parts) + part.bytes <= l.totalBytes
    requires PartListed(l, |parts|, part) && PartChecked(codec, l, file, part)
    ensures PartsOk(codec, l, parts + [part], files + [file])
    ensures SumRows(parts + [part]) == SumRows(parts) + part.rows && Flat(files + [file]) == Flat(files) + file.groups
    ensures SumBytes(parts + [part]) == SumBytes(parts) + part.bytes
  {
    hide PartListed, PartChecked;
    assert (parts + [part])[..|parts|] == parts && (files + [file])[..|files|] == files;
  }

  // ---------------------------------------------------------------- the sizes the limits are built on

  /** Samples an export may turn into one batch. */
  predicate Writable(env: Env, header: Header, l: Limits, chunk: seq<Sample>) {
    Batchable(env, header, chunk, l) && forall i :: 0 <= i < |chunk| ==> Genuine(env, header, chunk[i])
  }

  ghost predicate Produced(env: Env, header: Header, l: Limits, batch: Columns) {
    exists chunk :: batch == Tabulate(header, chunk) && Writable(env, header, l, chunk)
  }

  ghost predicate AllProduced(env: Env, header: Header, l: Limits, groups: seq<Columns>) {
    forall i :: 0 <= i < |groups| ==> Produced(env, header, l, groups[i])
  }

  predicate Listed(l: Limits, parts: seq<Part>) {
    |parts| <= l.parts && forall i :: 0 <= i < |parts| ==> PartListed(l, i, parts[i])
  }

  /** The manifest of an export that wrote these parts. */
  function Describe(header: Header, l: Limits, parts: seq<Part>): Manifest {
    Manifest(1, 1, CONSISTENCY, header, l, SumRows(parts), parts)
  }

  /** A row group is within the encoded ceiling of its batch. */
  ghost predicate FairGroups(env: Env, codec: Codec, header: Header, l: Limits) {
    forall batch :: Produced(env, header, l, batch) ==>
      codec.group(batch) + MIN_FILE_BYTES <= EncodedCeiling(codec.arrow(batch))
  }

  /** The footer of a part is within its floor, and the layout check accepts the part. */
  ghost predicate FairPart(codec: Codec, l: Limits, groups: seq<Columns>) {
    var data, footer := MAGIC_BYTES + GroupBytes(codec, groups), codec.footer(groups);
    && 8 <= footer <= FooterFloor(|groups|) + 8
    && (data + footer <= l.partBytes ==> codec.layout(File(groups, data + footer)))
  }

  ghost predicate FairParts(env: Env, codec: Codec, header: Header, l: Limits) {
    forall groups ::
      (&& groups != [] && |groups| <= l.groupsPerPart && AllProduced(env, header, l, groups)
       && MAGIC_BYTES + GroupBytes(codec, groups) <= l.partBytes) ==> FairPart(codec, l, groups)
  }

  /** A manifest is within the floor for its own header and parts. */
  ghost predicate FairManifests(codec: Codec, header: Header, l: Limits) {
    forall parts :: Listed(l, parts) ==>
      codec.manifestBytes(Describe(header, l, parts)) <= ManifestFloor(codec.headerBytes(header), |parts|)
  }

  /** The margins the reserve and the floors are built on, for what one export can produce:
      batches of its own samples, parts of such batches, and the manifest of listed parts
      under its own header. */
  ghost predicate Fair(env: Env, codec: Codec, header: Header, l: Limits) {
    FairGroups(env, codec, header, l) && FairParts(env, codec, header, l) && FairManifests(codec, header, l)
  }

  lemma FairGroup(env: Env, codec: Codec, header: Header, l: Limits, batch: Columns)
    ensures var reserve := Reserve(codec.arrow(batch), l.footerBytes);
      Fair(env, codec, header, l) && Produced(env, header, l, batch) && ValidLimits(l) && reserve <= l.partBytes ==>
        codec.group(batch) + MIN_FILE_BYTES + l.footerBytes <= reserve <= l.partBytes <= 8_388_608
  {
    hide EncodedCeiling, Produced, FairParts, FairManifests;
  }

  lemma FairFooter(env: Env, codec: Codec, header: Header, l: Limits, groups: seq<Columns>)
    requires groups != [] && |groups| <= l.groupsPerPart && AllProduced(env, header, l, groups)
    requires Fair(env, codec, header, l) && ValidLimits(l) && MAGIC_BYTES + GroupBytes(codec, groups) <= l.partBytes
    ensures 8 <= codec.footer(groups) <= l.footerBytes + 8 && FairPart(codec, l, groups)
  {
    hide FairGroups, FairManifests, GroupBytes, AllProduced;
  }

  lemma FairManifest(env: Env, codec: Codec, header: Header, l: Limits, parts: seq<Part>)
    requires Listed(l, parts) && codec.headerBytes(header) <= MANIFEST_HEADER_BYTES
    ensures Fair(env, codec, header, l) && ValidLimits(l) ==>
      codec.manifestBytes(Describe(header, l, parts)) <= l.manifestBytes
  {
    hide FairGroups, FairParts, PartListed, Describe;
  }

  class Writer {
    ghost const env: Env
    const codec: Codec
    const header: Header
    const limits: Limits
    var parts: seq<Part>
    var files: seq<File>
    var rows: nat
    var totalBytes: nat
    var current: Option<seq<Columns>>
    var currentRows: nat
    var sinkBytes: nat
    var cap: nat
    ghost var spent: nat

    ghost predicate Valid()
      reads this
    {
      && PartsOk(codec, limits, parts, files) && rows == SumRows(parts)
      && totalBytes == SumBytes(parts) <= limits.totalBytes
      && (match current
          case None => currentRows == 0
          case Some(groups) => groups != [] && |groups| < limits.groupsPerPart && OpenOk(groups))
    }

    /** The open part so far. */
    ghost predicate OpenOk(groups: seq<Columns>)
      reads this
    {
      && currentRows == TotalRows(groups) && GroupsOk(groups, limits)
      && sinkBytes == MAGIC_BYTES + GroupBytes(codec, groups) <= cap
      && cap == Min(limits.partBytes, Monus(limits.totalBytes, totalBytes)) && |parts| < limits.parts
    }

    /** The parts opened so far. */
    ghost function Used(): nat
      reads this
    {
      |parts| + if current.Some? then 1 else 0
    }

    /** The reserves of the batches written cover their bytes, and the open part still has
        room for a whole footer. */
    ghost predicate Comfortable()
      reads this
    {
      && totalBytes + (if current.Some? then sinkBytes + limits.footerBytes + 8 else 0) <= spent
      && (current.Some? ==>
            sinkBytes + limits.footerBytes + 8 <= cap && AllProduced(env, header, limits, current.value))
    }

    /** Sizes are fair and the limits validated. */
    ghost predicate Sized() {
      Fair(env, codec, header, limits) && ValidLimits(limits)
    }

    /** A batch that is sure to find room. */
    ghost predicate Roomy(batch: Columns)
      reads this
    {
      var reserve := Reserve(codec.arrow(batch), limits.footerBytes);
      && Comfortable() && Sized() && Produced(env, header, limits, batch)
      && reserve <= limits.partBytes && spent + reserve <= limits.totalBytes && Used() < limits.parts
    }

    /** Every batch written so far, in order. */
    ghost function Written(): seq<Columns>
      reads this
    {
      Flat(files) + if current.Some? then current.value else []
    }

    constructor (ghost env: Env, codec: Codec, header: Header, limits: Limits)
      ensures Valid() && Written() == [] && current.None? && Comfortable() && Used() == 0 && spent == 0
      ensures this.env == env && this.codec == codec && this.header == header && this.limits == limits
    {
      this.env := env;
      this.codec, this.header, this.limits := codec, header, limits;
      parts, files, rows, totalBytes, current, currentRows, sinkBytes, cap := [], [], 0, 0, None, 0, 0, 0;
      spent := 0;
    }

    /** With fair sizes the open part can take its footer and passes the layout check. */
    lemma Footing(groups: seq<Columns>)
      requires current == Some(groups) && groups != [] && |groups| <= limits.groupsPerPart && OpenOk(groups)
      requires Comfortable() && Sized()
      ensures 8 <= codec.footer(groups) <= limits.footerBytes + 8 && sinkBytes + codec.footer(groups) <= cap
      ensures codec.layout(File(groups, sinkBytes + codec.footer(groups)))
    {
      hide GroupBytes, GroupsOk, TotalRows, AllProduced, Fair, ValidLimits;
      FairFooter(env, codec, header, limits, groups);
    }

    /** Close the open part, read it back and check it as the reader would. */
    method FinishPart() returns (failure: Option<Error>)
      requires PartsOk(codec, limits, parts, files) && rows == SumRows(parts)
      requires totalBytes == SumBytes(parts) <= limits.totalBytes
      requires current.None? ==> currentRows == 0
      requires current.Some? ==> current.value != [] && |current.value| <= limits.groupsPerPart && OpenOk(current.value)
      modifies this
      ensures failure.None? ==> Valid() && current.None? && Written() == old(Written())
      ensures failure.None? ==> Used() == old(Used()) && spent == old(spent)
      ensures old(Comfortable()) && Sized() ==> failure.None? && Comfortable()
    {
      hide PartListed, PartChecked, PartsOk, Flat, GroupBytes, GroupsOk, TotalRows, SumRows, SumBytes, PartName, Sized,
           AllProduced;
      if current.None? {
        return None;
      }
      var groups := current.value;
      if Comfortable() && Sized() {
        Footing(groups);
      }
      current := None;
      var bytes := sinkBytes + codec.footer(groups);
      if bytes > cap {
        return Some(Limit);
      }
      var file := File(groups, bytes);
      var part := Part(|parts|, PartName(|parts|), bytes, codec.sha(file), currentRows, |groups|);
      if bytes < MIN_FILE_BYTES || codec.footer(groups) > limits.footerBytes + 8 || !codec.layout(file) {
        return Some(Invalid);
      }
      Finishable(codec, limits, file, part);
      PartsGrow(codec, limits, parts, files, file, part);
      parts, files := parts + [part], files + [file];
      totalBytes, rows := totalBytes + bytes, rows + currentRows;
      currentRows := 0;
      failure := None;
    }

    /** A part is open and can take one more group. */
    ghost predicate Open()
      reads this
    {
      && PartsOk(codec, limits, parts, files) && rows == SumRows(parts)
      && totalBytes == SumBytes(parts) <= limits.totalBytes
      && current.Some? && |current.value| < limits.groupsPerPart && OpenOk(current.value)
    }

    /** The open part, and the total, have room for this reserve on top of a magic. */
    ghost predicate Spare(reserve: nat)
      reads this
    {
      && sinkBytes + reserve <= cap + MAGIC_BYTES && totalBytes + sinkBytes <= spent + MAGIC_BYTES
      && current.Some? && AllProduced(env, header, limits, current.value)
    }

    /** Roll to a new part when the reserve might not fit, and open one if none is open. */
    method Roll(reserve: nat) returns (failure: Option<Error>)
      requires Valid() && 0 < limits.groupsPerPart
      modifies this
      ensures failure.None? ==> Open() && Written() == old(Written())
      ensures failure.None? ==> Used() <= old(Used()) + 1 && spent == old(spent)
      ensures old(Comfortable()) && Sized() && MIN_FILE_BYTES <= reserve <= limits.partBytes < U64_MAX
              && old(spent) + reserve <= limits.totalBytes && old(Used()) < limits.parts
              ==> failure.None? && Spare(reserve)
    {
      hide Flat, GroupBytes, PartsOk, SumRows, SumBytes, TotalRows, GroupsOk, Sized, AllProduced;
      if current.Some? && Min(sinkBytes + reserve, U64_MAX) > limits.partBytes {
        failure := FinishPart();
        if failure.Some? {
          return;
        }
      }
      if reserve > limits.partBytes || reserve > Monus(limits.totalBytes, totalBytes) {
        return Some(Limit);
      }
      if current.None? {
        if |parts| >= limits.parts {
          return Some(Limit);
        }
        cap := Min(limits.partBytes, Monus(limits.totalBytes, totalBytes));
        if MAGIC_BYTES > cap {
          return Some(Limit);
        }
        current, sinkBytes := Some([]), MAGIC_BYTES;
        NoGroups(codec, limits);
        NoneProduced(env, header, limits);
      }
      failure := None;
    }

    /** Write one row group through the capped sink, and finish a full part. */
    method Append(batch: Columns, ghost reserve: nat) returns (failure: Option<Error>)
      requires Open() && 0 < Rows(batch) <= limits.batchRows && Aligned(batch)
      modifies this
      ensures failure.None? ==> Valid() && Written() == old(Written()) + [batch]
      ensures failure.None? ==> Used() == old(Used()) && spent == old(spent) + reserve
      ensures old(Spare(reserve)) && Sized() && Produced(env, header, limits, batch)
              && codec.group(batch) + MIN_FILE_BYTES + limits.footerBytes <= reserve
              ==> failure.None? && Comfortable()
    {
      hide Flat, GroupBytes, PartsOk, SumRows, SumBytes, TotalRows, GroupsOk, Sized, AllProduced;
      var groups := current.value;
      if sinkBytes + codec.group(batch) > cap {
        return Some(Limit);
      }
      GroupsPush(codec, limits, groups, batch);
      ProducedPush(env, header, limits, groups, batch);
      sinkBytes := sinkBytes + codec.group(batch);
      spent := spent + reserve;
      current := Some(groups + [batch]);
      currentRows := currentRows + Rows(batch);
      assert Written() == old(Written()) + [batch];
      if |groups| + 1 == limits.groupsPerPart {
        failure := FinishPart();
      } else {
        failure := None;
      }
    }

    /** Append one batch as a row group, rolling to a new part when it might not fit. */
    method Write(batch: Columns) returns (failure: Option<Error>)
      requires Valid() && 0 < Rows(batch) <= limits.batchRows && Aligned(batch) && 0 < limits.groupsPerPart
      modifies this
      ensures failure.None? ==> Valid() && Written() == old(Written()) + [batch]
      ensures failure.None? ==>
        Used() <= old(Used()) + 1 && spent == old(spent) + Reserve(codec.arrow(batch), limits.footerBytes)
      ensures old(Roomy(batch)) ==> failure.None? && Comfortable()
    {
      hide Flat, PartsOk, SumRows, SumBytes, OpenOk, Fair, ValidLimits, Reserve, Comfortable, Spare, Produced;
      var reserve := Reserve(codec.arrow(batch), limits.footerBytes);
      FairGroup(env, codec, header, limits, batch);
      failure := Roll(reserve);
      if failure.Some? {
        return;
      }
      failure := Append(batch, reserve);
    }

    /** Close the last part and describe the capture. */
    method Prepare() returns (r: Result<Manifest, Error>)
      requires Valid()
      modifies this
      ensures r.Ok? ==>
        && r.value == Manifest(1, 1, CONSISTENCY, header, limits, rows, parts)
        && codec.manifestBytes(r.value) <= limits.manifestBytes
        && PartsOk(codec, limits, parts, files) && rows == SumRows(parts) && Flat(files) == old(Written())
      ensures old(Comfortable()) && Sized() && codec.headerBytes(header) <= MANIFEST_HEADER_BYTES ==> r.Ok?
    {
      hide Flat, GroupBytes, SumRows, SumBytes, TotalRows, GroupsOk, Fair, ValidLimits, PartListed, PartChecked;
      var failure := FinishPart();
      if failure.Some? {
        return Err(failure.value);
      }
      assert Written() == Flat(files);
      var manifest := Manifest(1, 1, CONSISTENCY, header, limits, rows, parts);
      if codec.headerBytes(header) <= MANIFEST_HEADER_BYTES {
        FairManifest(env, codec, header, limits, parts);
      }
      r := if codec.manifestBytes(manifest) > limits.manifestBytes then Err(Limit) else Ok(manifest);
    }
  }

  /** A part of good groups that passed the size checks is one the reader accepts. */
  lemma Finishable(codec: Codec, l: Limits, file: File, part: Part)
    requires file.groups != [] && |file.groups| <= l.groupsPerPart && GroupsOk(file.groups, l)
    requires MIN_FILE_BYTES <= file.bytes <= l.partBytes
    requires codec.footer(file.groups) <= l.footerBytes + 8 && codec.layout(file)
    requires part == Part(part.ordinal, PartName(part.ordinal), file.bytes, codec.sha(file), TotalRows(file.groups),
                          |file.groups|)
    ensures PartListed(l, part.ordinal, part) && PartChecked(codec, l, file, part)
  {
    hide TotalRows, GroupsOk, PartName;
    RowsBounded(file.groups, l);
  }

  lemma NoGroups(codec: Codec, l: Limits)
    ensures TotalRows([]) == 0 && GroupBytes(codec, []) == 0 && GroupsOk([], l)
  {
  }

  lemma NoneProduced(env: Env, header: Header, l: Limits)
    ensures AllProduced(env, header, l, [])
  {
  }

  lemma ProducedPush(env: Env, header: Header, l: Limits, groups: seq<Columns>, batch: Columns)
    ensures AllProduced(env, header, l, groups) && Produced(env, header, l, batch) ==>
      AllProduced(env, header, l, groups + [batch])
  {
    hide Produced;
  }

  lemma GroupsPush(codec: Codec, l: Limits, groups: seq<Columns>, batch: Columns)
    requires GroupsOk(groups, l) && 0 < Rows(batch) <= l.batchRows && Aligned(batch)
    ensures GroupsOk(groups + [batch], l)
    ensures TotalRows(groups + [batch]) == TotalRows(groups) + Rows(batch)
    ensures GroupBytes(codec, groups + [batch]) == GroupBytes(codec, groups) + codec.group(batch)
  {
    assert (groups + [batch])[..|groups|] == groups;
  }

  // ---------------------------------------------------------------- reading a dataset

  /** The batches from one position of a dataset to its end. */
  function From(files: seq<File>, part: nat, group: nat): seq<Columns>
    requires part <= |files| && (part < |files| ==> group <= |files[part].groups|)
    decreases |files| - part
  {
    if part == |files| then [] else files[part].groups[group..] + From(files, part + 1, 0)
  }

  /** One batch: its samples and the validator after them. */
  function ReadOne(env: Env, header: Header, limits: Limits, v: Validator, batch: Columns)
    : Result<(seq<Sample>, Validator), Error>
  {
    match SamplesOf(env, header, batch, limits)
    case Err(e) => Err(e)
    case Ok(samples) =>
      match AcceptAll(env, header, v, samples)
      case None => Err(Invalid)
      case Some(w) => Ok((samples, w))
  }

  function Prepend(samples: seq<Sample>, rest: Result<seq<Sample>, Error>): Result<seq<Sample>, Error> {
    if rest.Ok? then Ok(samples + rest.value) else rest
  }

  /** Read batches in order, checking each as a whole. */
  function ReadAll(env: Env, header: Header, limits: Limits, v: Validator, batches: seq<Columns>)
    : Result<seq<Sample>, Error>
    decreases |batches|
  {
    if batches == [] then if Finishes(header, v) then Ok([]) else Err(Invalid)
    else
      match ReadOne(env, header, limits, v, batches[0])
      case Err(e) => Err(e)
      case Ok((samples, w)) => Prepend(samples, ReadAll(env, header, limits, w, batches[1..]))
  }

  /** Skip finished parts until a group is found or the dataset ends. */
  method Seek(files: seq<File>, part: nat, group: nat) returns (p: nat, g: nat, found: bool)
    requires part <= |files| && (part < |files| ==> group <= |files[part].groups|)
    ensures p <= |files| && (p < |files| ==> g <= |files[p].groups|) && From(files, p, g) == From(files, part, group)
    ensures if found then p < |files| && g < |files[p].groups| else From(files, p, g) == [] && p == |files|
  {
    hide From;
    p, g := part, group;
    while p < |files|
      invariant p <= |files| && (p < |files| ==> g <= |files[p].groups|)
      invariant From(files, p, g) == From(files, part, group)
      decreases |files| - p
    {
      if g < |files[p].groups| {
        return p, g, true;
      }
      SkipsEmpty(files, p, g);
      p, g := p + 1, 0;
    }
    AtEnd(files, g);
    found := false;
  }

  lemma AtEnd(files: seq<File>, group: nat)
    ensures From(files, |files|, group) == []
  {
  }

  class Dataset {
    const env: Env
    const codec: Codec
    const manifest: Manifest
    const files: seq<File>
    var validator: Validator
    var part: nat
    var group: nat
    var reader: Option<seq<Columns>>
    var complete: bool
    var failed: bool

    ghost predicate Valid()
      reads this
    {
      && Opens(codec, manifest, files) && part <= |manifest.parts|
      && (part < |manifest.parts| ==> group <= |files[part].groups|)
      && (reader.Some? ==> part < |manifest.parts| && group < |files[part].groups|
                           && (reader.value == [] || reader.value == [files[part].groups[group]]))
    }

    /** The batches this reader has still to return. */
    ghost function Left(): seq<Columns>
      requires Valid()
      reads this
    {
      var disk := files[..|manifest.parts|];
      if reader.Some? then reader.value + From(disk, part, group + 1) else From(disk, part, group)
    }

    constructor (env: Env, codec: Codec, manifest: Manifest, files: seq<File>)
      requires Opens(codec, manifest, files)
      ensures Valid() && !complete && !failed && validator == NewValidator() && this.env == env
      ensures this.manifest == manifest && this.files == files && Left() == From(files[..|manifest.parts|], 0, 0)
    {
      this.env, this.codec, this.manifest, this.files := env, codec, manifest, files;
      validator, part, group, reader, complete, failed := NewValidator(), 0, 0, None, false, false;
    }

    /** Move to the next group that has a batch to give. */
    method Advance() returns (more: bool)
      requires Valid() && (reader.Some? ==> reader.value == [])
      modifies this`part, this`group, this`reader
      ensures Valid() && Left() == old(Left())
      ensures more ==> reader.Some? && reader.value != []
      ensures !more ==> Left() == [] && reader.None?
    {
      hide From, PartChecked, PartListed, ValidLimits, HeaderOk, SumRows, SumBytes;
      var disk := files[..|manifest.parts|];
      var at := if reader.Some? then group + 1 else group;
      assert reader.Some? ==> reader.value + From(disk, part, at) == From(disk, part, at);
      part, group, more := Seek(disk, part, at);
      if more {
        ReadsOne(disk, part, group);
        reader := Some([disk[part].groups[group]]);
      } else {
        reader := None;
      }
    }

    /** The batch the current group reader holds. */
    method Take() returns (batch: Columns)
      requires Valid() && reader.Some? && reader.value != []
      modifies this`reader
      ensures Valid() && reader == Some([])
      ensures old(Left()) != [] && batch == old(Left())[0] && Left() == old(Left())[1..]
    {
      hide PartChecked, PartListed, ValidLimits, HeaderOk, SumRows, SumBytes, From;
      batch := reader.value[0];
      assert Left() == [batch] + From(files[..|manifest.parts|], part, group + 1);
      reader := Some([]);
    }

    /** Turn one batch into samples the validator accepts. */
    method Decode(batch: Columns) returns (r: Result<seq<Sample>, Error>)
      modifies this`validator
      ensures match ReadOne(env, manifest.header, manifest.limits, old(validator), batch)
              case Err(e) => r == Err(e)
              case Ok((samples, w)) => r == Ok(samples) && validator == w
    {
      hide SamplesOf, AcceptAll;
      var samples := FromColumns(env, manifest.header, batch, manifest.limits);
      if samples.Err? {
        return Err(samples.error);
      }
      var next := Validate(env, manifest.header, validator, samples.value);
      if next.None? {
        return Err(Invalid);
      }
      validator := next.value;
      r := Ok(samples.value);
    }

    /** The next batch of samples, or None once everything was read and adds up. */
    method NextInner() returns (r: Result<Option<seq<Sample>>, Error>)
      requires Valid() && !complete
      modifies this`part, this`group, this`reader, this`validator, this`complete
      ensures Valid()
      ensures old(Left()) == [] ==>
        && validator == old(validator)
        && if Finishes(manifest.header, validator) then r == Ok(None) && complete else r.Err? && !complete
      ensures old(Left()) != [] ==> !complete
      ensures old(Left()) != [] ==>
        match ReadOne(env, manifest.header, manifest.limits, old(validator), old(Left())[0])
        case Err(e) => r == Err(e)
        case Ok((samples, w)) => r == Ok(Some(samples)) && validator == w && Left() == old(Left())[1..]
    {
      hide ReadOne, Opens, From, Finishes;
      if reader.None? || reader.value == [] {
        var more := Advance();
        if !more {
          if !Finishes(manifest.header, validator) {
            return Err(Invalid);
          }
          complete := true;
          return Ok(None);
        }
      }
      var batch := Take();
      var samples := Decode(batch);
      r := if samples.Ok? then Ok(Some(samples.value)) else Err(samples.error);
    }

    /** A failed reader stays failed; a completed one has nothing more. */
    method NextBatch() returns (r: Result<Option<seq<Sample>>, Error>)
      requires Valid()
      modifies this
      ensures Valid()
      ensures old(failed) ==> r == Err(Invalid)
      ensures failed <==> r.Err?
      ensures !old(failed) && old(complete) ==> r == Ok(None) && complete
      ensures r == Ok(None) ==> complete
    {
      hide Opens, From, Finishes, ReadOne;
      if failed {
        return Err(Invalid);
      }
      if complete {
        return Ok(None);
      }
      r := NextInner();
      if r.Err? {
        failed, reader := true, None;
      }
    }

    /** Read to the end. */
    method Drain() returns (r: Result<seq<Sample>, Error>)
      requires Valid() && !complete
      modifies this
      ensures r.Ok? <==> ReadAll(env, manifest.header, manifest.limits, old(validator), old(Left())).Ok?
      ensures r.Ok? ==> complete && r == ReadAll(env, manifest.header, manifest.limits, old(validator), old(Left()))
    {
      hide ReadOne, Opens, Finishes, From;
      var out: seq<Sample> := [];
      ghost var goal := ReadAll(env, manifest.header, manifest.limits, validator, Left());
      if goal.Ok? {
        assert out + goal.value == goal.value;
      }
      while true
        invariant Valid() && !complete
        invariant var rest := ReadAll(env, manifest.header, manifest.limits, validator, Left());
          goal == if rest.Ok? then Ok(out + rest.value) else rest
        decreases |Left()|
      {
        ghost var left := Left();
        var batch := NextInner();
        if batch.Err? {
          return Err(batch.error);
        }
        if batch.value.None? {
          assert out + [] == out;
          return Ok(out);
        }
        ghost var rest := ReadAll(env, manifest.header, manifest.limits, validator, left[1..]);
        if rest.Ok? {
          assert out + (batch.value.value + rest.value) == out + batch.value.value + rest.value;
        }
        out := out + batch.value.value;
      }
    }
  }

  lemma ReadsOne(files: seq<File>, part: nat, group: nat)
    requires part < |files| && group < |files[part].groups|
    ensures From(files, part, group) == [files[part].groups[group]] + From(files, part, group + 1)
  {
    FromPart(files, part, group);
    FromPart(files, part, group + 1);
    hide From;
    var here, later := files[part].groups, From(files, part + 1, 0);
    assert here[group..] == [here[group]] + here[group + 1..];
    assert [here[group]] + here[group + 1..] + later == [here[group]] + (here[group + 1..] + later);
  }

  lemma FromPart(files: seq<File>, part: nat, group: nat)
    requires part < |files| && group <= |files[part].groups|
    ensures From(files, part, group) == files[part].groups[group..] + From(files, part + 1, 0)
  {
  }

  lemma SkipsEmpty(files: seq<File>, part: nat, group: nat)
    requires part < |files| && group == |files[part].groups|
    ensures From(files, part, group) == From(files, part + 1, 0)
  {
  }

  lemma {:induction false} FlatIsFrom(files: seq<File>, part: nat)
    requires part <= |files|
    ensures Flat(files) == Flat(files[..part]) + From(files, part, 0)
    decreases |files| - part
  {
    if part == |files| {
      assert files[..part] == files;
    } else {
      FlatIsFrom(files, part + 1);
      assert files[..part + 1][..part] == files[..part];
      assert files[part].groups[0..] == files[part].groups;
    }
  }
}
