/** Exporting a history stream: greedy chunks through the writer, and what comes back. */
module CaptureExport {
  import opened Prelude
  import opened CaptureFormat
  import opened Capture

  function Concat(batches: seq<seq<Sample>>): seq<Sample> {
    if batches == [] then [] else Concat(batches[..|batches| - 1]) + batches[|batches| - 1]
  }

  function Tables(header: Header, chunks: seq<seq<Sample>>): seq<Columns> {
    if chunks == [] then [] else Tables(header, chunks[..|chunks| - 1]) + [Tabulate(header, chunks[|chunks| - 1])]
  }

  predicate AllBatchable(env: Env, header: Header, limits: Limits, chunks: seq<seq<Sample>>) {
    forall i :: 0 <= i < |chunks| ==> Batchable(env, header, chunks[i], limits)
  }

  lemma {:induction false} ConcatFirst(chunks: seq<seq<Sample>>, header: Header)
    requires chunks != []
    ensures Concat(chunks) == chunks[0] + Concat(chunks[1..])
    ensures Tables(header, chunks) == [Tabulate(header, chunks[0])] + Tables(header, chunks[1..])
    decreases |chunks|
  {
    hide Tabulate;
    var last := |chunks| - 1;
    if last > 0 {
      ConcatFirst(chunks[..last], header);
      assert chunks[..last][1..] == chunks[1..][..last - 1];
    }
  }

  /** Reading the tables of any accepted chunks gives back the chunks, joined. */
  lemma {:induction false} ChunksReadBack(env: Env, header: Header, limits: Limits, v: Validator,
                                          chunks: seq<seq<Sample>>)
    requires AllBatchable(env, header, limits, chunks)
    requires AcceptAll(env, header, v, Concat(chunks)).Some?
    requires Finishes(header, AcceptAll(env, header, v, Concat(chunks)).value)
    ensures ReadAll(env, header, limits, v, Tables(header, chunks)) == Ok(Concat(chunks))
    decreases |chunks|
  {
    hide SamplesOf, AcceptAll, Finishes, Batchable, Tabulate, Genuine, ValidValue;
    if chunks == [] {
      assert AcceptAll(env, header, v, []) == Some(v) by { AcceptNothing(env, header, v); }
    } else {
      ConcatFirst(chunks, header);
      AcceptAppend(env, header, v, chunks[0], Concat(chunks[1..]));
      AcceptFacts(env, header, v, chunks[0]);
      ColumnsRoundTrip(env, header, chunks[0], limits);
      var w := AcceptAll(env, header, v, chunks[0]).value;
      assert ReadOne(env, header, limits, v, Tables(header, chunks)[0]) == Ok((chunks[0], w));
      ChunksReadBack(env, header, limits, w, chunks[1..]);
      assert Tables(header, chunks)[1..] == Tables(header, chunks[1..]);
    }
  }

  lemma AcceptNothing(env: Env, header: Header, v: Validator)
    ensures AcceptAll(env, header, v, []) == Some(v)
  {
  }

  // ---------------------------------------------------------------- when there is room

  /** Samples small enough for the batch and field limits. */
  predicate SamplesFit(samples: seq<Sample>, limits: Limits) {
    forall i :: 0 <= i < |samples| ==>
      SampleBytes(samples[i]) <= limits.batchBytes && FieldBytes(samples[i].val) <= limits.fieldBytes
  }

  function ReserveOf(codec: Codec, header: Header, limits: Limits, chunk: seq<Sample>): nat {
    Reserve(codec.arrow(Tabulate(header, chunk)), limits.footerBytes)
  }

  function Needs(codec: Codec, header: Header, limits: Limits, chunks: seq<seq<Sample>>): nat {
    if chunks == [] then 0 else ReserveOf(codec, header, limits, chunks[0]) + Needs(codec, header, limits, chunks[1..])
  }

  /** A part for each chunk and the reserves of all of them within the total: with fair
      sizes the remaining chunks are sure to be written. */
  predicate Ample(codec: Codec, header: Header, limits: Limits, used: nat, spent: nat, chunks: seq<seq<Sample>>) {
    && used + |chunks| <= limits.parts
    && spent + Needs(codec, header, limits, chunks) <= limits.totalBytes
    && forall i :: 0 <= i < |chunks| ==> ReserveOf(codec, header, limits, chunks[i]) <= limits.partBytes
  }

  lemma {:induction false} NeedsAppend(codec: Codec, header: Header, limits: Limits, a: seq<seq<Sample>>,
                                       b: seq<seq<Sample>>)
    ensures Needs(codec, header, limits, a + b) == Needs(codec, header, limits, a) + Needs(codec, header, limits, b)
  {
    hide ReserveOf;
    if a == [] {
      assert a + b == b;
    } else {
      NeedsAppend(codec, header, limits, a[1..], b);
      assert (a + b)[1..] == a[1..] + b;
    }
  }

  /** Writing some of the chunks leaves room for the others. */
  lemma AmpleSplit(codec: Codec, header: Header, limits: Limits, used: nat, spent: nat,
                   a: seq<seq<Sample>>, b: seq<seq<Sample>>, after: nat)
    requires Ample(codec, header, limits, used, spent, a + b) && after <= used + |a|
    ensures Ample(codec, header, limits, used, spent, a)
    ensures Ample(codec, header, limits, after, spent + Needs(codec, header, limits, a), b)
  {
    hide ReserveOf;
    NeedsAppend(codec, header, limits, a, b);
    assert forall i :: 0 <= i < |a| ==> (a + b)[i] == a[i];
    assert forall i :: 0 <= i < |b| ==> (a + b)[|a| + i] == b[i];
  }

  lemma NeedsOne(codec: Codec, header: Header, limits: Limits, chunk: seq<Sample>)
    ensures Needs(codec, header, limits, [chunk]) == ReserveOf(codec, header, limits, chunk)
  {
    hide ReserveOf;
    assert [chunk][1..] == [];
  }

  // ---------------------------------------------------------------- the export

  /** How far an export has come. */
  ghost predicate Exported(env: Env, w: Writer, v: Validator, chunks: seq<seq<Sample>>, done: seq<Sample>)
    reads w
  {
    && w.Valid() && AllBatchable(env, w.header, w.limits, chunks) && Concat(chunks) == done
    && w.Written() == Tables(w.header, chunks) && AcceptAll(env, w.header, NewValidator(), done) == Some(v)
  }

  /** The writer has room for these chunks, and the validator accepts these samples. */
  ghost predicate Ready(env: Env, w: Writer, v: Validator, samples: seq<Sample>, chunks: seq<seq<Sample>>)
    reads w
  {
    && w.env == env && w.Comfortable() && w.Sized() && Ample(w.codec, w.header, w.limits, w.Used(), w.spent, chunks)
    && SamplesFit(samples, w.limits) && AcceptAll(env, w.header, v, samples).Some?
  }

  /** One chunk through validator, columns and writer. */
  method ExportChunk(env: Env, w: Writer, v: Validator, chunk: seq<Sample>, ghost chunks: seq<seq<Sample>>,
                     ghost done: seq<Sample>)
    returns (r: Result<Validator, Error>)
    requires Exported(env, w, v, chunks, done) && ValidLimits(w.limits) && chunk != [] && ChunkFits(chunk, w.limits)
    modifies w
    ensures r.Ok? ==>
      Exported(env, w, r.value, chunks + [chunk], done + chunk) && AcceptAll(env, w.header, v, chunk) == Some(r.value)
    ensures r.Ok? ==>
      w.Used() <= old(w.Used()) + 1 && w.spent == old(w.spent) + ReserveOf(w.codec, w.header, w.limits, chunk)
    ensures old(Ready(env, w, v, chunk, [chunk])) ==> r.Ok? && w.Comfortable()
  {
    hide ValidLimits, PartsOk, AcceptAll, Tabulate, Flat, Concat, Tables, ChunkFits, ValidValue, Needs,
         Fair, Genuine;
    var next := Validate(env, w.header, v, chunk);
    if next.None? {
      return Err(Invalid);
    }
    AcceptFacts(env, w.header, v, chunk);
    var batch := ToColumns(env, w.header, chunk, w.limits);
    if batch.Err? {
      return Err(batch.error);
    }
    BatchShape(env, w.header, chunk, w.limits);
    NeedsOne(w.codec, w.header, w.limits, chunk);
    assert old(Ready(env, w, v, chunk, [chunk])) ==> w.Roomy(batch.value) by {
      assert [chunk][0] == chunk && Writable(env, w.header, w.limits, chunk);
    }
    var failure := w.Write(batch.value);
    if failure.Some? {
      return Err(failure.value);
    }
    AcceptAppend(env, w.header, NewValidator(), done, chunk);
    ChunkPush(env, w.header, w.limits, chunks, chunk);
    r := Ok(next.value);
  }

  lemma OneFits(samples: seq<Sample>, start: nat, limits: Limits)
    requires start < |samples| && SamplesFit(samples[start..], limits) && ValidLimits(limits)
    ensures ChunkFits(samples[start..start + 1], limits)
  {
    hide FieldBytes, ValidLimits;
    var one := samples[start..start + 1];
    assert one[0] == samples[start..][0] && one[..0] == [];
    assert TotalBytes(one[..0]) == 0;
    RowsAllowed(limits);
  }

  lemma RowsAllowed(limits: Limits)
    requires ValidLimits(limits)
    ensures 0 < limits.batchRows
  {
  }

  /** The first greedy chunk, and the rest. */
  lemma FirstChunk(samples: seq<Sample>, start: nat, limits: Limits)
    requires start < |samples|
    ensures var end := Longest(samples, start, start, limits);
      end > start ==> ChunksFrom(samples, start, limits) == [samples[start..end]] + ChunksFrom(samples, end, limits)
    ensures ChunksFrom(samples, |samples|, limits) == []
  {
    hide ChunkFits;
  }

  /** Accepting the rest is accepting its first chunk and then what follows. */
  lemma ReadySplit(env: Env, header: Header, limits: Limits, v: Validator, samples: seq<Sample>, start: nat, end: nat)
    requires start <= end <= |samples| && SamplesFit(samples[start..], limits)
    requires AcceptAll(env, header, v, samples[start..]).Some?
    ensures SamplesFit(samples[start..end], limits) && SamplesFit(samples[end..], limits)
    ensures AcceptAll(env, header, v, samples[start..end]).Some?
    ensures AcceptAll(env, header, AcceptAll(env, header, v, samples[start..end]).value, samples[end..]).Some?
  {
    hide AcceptAll, SampleBytes, FieldBytes;
    assert samples[start..] == samples[start..end] + samples[end..];
    AcceptAppend(env, header, v, samples[start..end], samples[end..]);
    var rest := samples[start..];
    assert forall i :: 0 <= i < end - start ==> samples[start..end][i] == rest[i];
    assert forall i :: 0 <= i < |samples| - end ==> samples[end..][i] == rest[end - start + i];
  }

  /** Write one incoming batch in greedy chunks. */
  method ExportBatch(env: Env, w: Writer, v: Validator, samples: seq<Sample>, ghost chunks: seq<seq<Sample>>,
                     ghost done: seq<Sample>)
    returns (r: Result<Validator, Error>)
    requires Exported(env, w, v, chunks, done) && ValidLimits(w.limits)
    modifies w
    ensures r.Ok? ==> Exported(env, w, r.value, chunks + ChunksFrom(samples, 0, w.limits), done + samples)
    ensures r.Ok? ==>
      && w.Used() <= old(w.Used()) + |ChunksFrom(samples, 0, w.limits)|
      && w.spent == old(w.spent) + Needs(w.codec, w.header, w.limits, ChunksFrom(samples, 0, w.limits))
    ensures old(Ready(env, w, v, samples, ChunksFrom(samples, 0, w.limits))) ==> r.Ok? && w.Comfortable()
  {
    hide ValidLimits, AcceptAll, ChunkFits, ChunksFrom, Exported, SamplesFit, Ample, Fair, AllProduced;
    var start, validator := 0, v;
    ghost var all, written := ChunksFrom(samples, 0, w.limits), [];
    ghost var ready := Ready(env, w, v, samples, all);
    assert done + samples[..0] == done && chunks + written == chunks && samples[0..] == samples;
    assert Needs(w.codec, w.header, w.limits, written) == 0;
    while start < |samples|
      invariant 0 <= start <= |samples| && all == written + ChunksFrom(samples, start, w.limits)
      invariant Exported(env, w, validator, chunks + written, done + samples[..start])
      invariant w.Used() <= old(w.Used()) + |written|
      invariant w.spent == old(w.spent) + Needs(w.codec, w.header, w.limits, written)
      invariant ready ==> Ready(env, w, validator, samples[start..], ChunksFrom(samples, start, w.limits))
      decreases |samples| - start
    {
      hide Needs;
      ghost var rest := ChunksFrom(samples, start, w.limits);
      if ready {
        OneFits(samples, start, w.limits);
      }
      var end := NextChunk(samples, start, w.limits);
      if end.Err? {
        return Err(end.error);
      }
      FirstChunk(samples, start, w.limits);
      ghost var chunk, later := samples[start..end.value], ChunksFrom(samples, end.value, w.limits);
      ghost var used, spent := w.Used(), w.spent;
      NeedsOne(w.codec, w.header, w.limits, chunk);
      NeedsAppend(w.codec, w.header, w.limits, written, [chunk]);
      if ready {
        ReadySplit(env, w.header, w.limits, validator, samples, start, end.value);
        AmpleSplit(w.codec, w.header, w.limits, used, spent, [chunk], later, used);
      }
      var next := ExportChunk(env, w, validator, samples[start..end.value], chunks + written, done + samples[..start]);
      if next.Err? {
        return Err(next.error);
      }
      if ready {
        AmpleSplit(w.codec, w.header, w.limits, used, spent, [chunk], later, w.Used());
      }
      assert done + samples[..start] + chunk == done + samples[..end.value];
      assert chunks + written + [chunk] == chunks + (written + [chunk]);
      assert written + ([chunk] + later) == written + [chunk] + later;
      written := written + [chunk];
      start, validator := end.value, next.value;
    }
    NoChunks(samples, w.limits);
    assert samples[..start] == samples && written + [] == written;
    r := Ok(validator);
  }

  lemma NoChunks(samples: seq<Sample>, limits: Limits)
    ensures ChunksFrom(samples, |samples|, limits) == []
  {
    hide ChunkFits;
  }

  lemma BatchShape(env: Env, header: Header, chunk: seq<Sample>, limits: Limits)
    requires Batchable(env, header, chunk, limits) && ValidLimits(limits)
    ensures 0 < Rows(Tabulate(header, chunk)) <= limits.batchRows && Aligned(Tabulate(header, chunk))
    ensures 0 < limits.groupsPerPart
  {
    hide Tabulate, ValidValue, FieldBytes;
  }

  lemma ChunkPush(env: Env, header: Header, limits: Limits, chunks: seq<seq<Sample>>, chunk: seq<Sample>)
    requires AllBatchable(env, header, limits, chunks) && Batchable(env, header, chunk, limits)
    ensures AllBatchable(env, header, limits, chunks + [chunk])
    ensures Concat(chunks + [chunk]) == Concat(chunks) + chunk
    ensures Tables(header, chunks + [chunk]) == Tables(header, chunks) + [Tabulate(header, chunk)]
  {
    hide Batchable, Tabulate;
    assert (chunks + [chunk])[..|chunks|] == chunks;
  }

  /** All chunks of a stream of batches. */
  function AllChunks(incoming: seq<seq<Sample>>, limits: Limits): seq<seq<Sample>> {
    if incoming == [] then [] else ChunksFrom(incoming[0], 0, limits) + AllChunks(incoming[1..], limits)
  }

  predicate BatchesFit(incoming: seq<seq<Sample>>, limits: Limits) {
    forall k :: 0 <= k < |incoming| ==>
      TotalBytes(incoming[k]) <= MAX_GRID_BYTES && |incoming[k]| <= MAX_ROWS && SamplesFit(incoming[k], limits)
  }

  /** A stream that is sure to be captured: acceptable to the end under its header, in
      batches and samples within limits, under a header the manifest floor admits, with fair
      sizes and room for every chunk. */
  ghost predicate Exportable(env: Env, codec: Codec, header: Header, limits: Limits, incoming: seq<seq<Sample>>) {
    && ValidLimits(limits) && HeaderOk(header) && BatchesFit(incoming, limits)
    && Acceptable(env, header, Concat(incoming)) && Finishes(header, Counted(Concat(incoming)))
    && Fair(env, codec, header, limits) && codec.headerBytes(header) <= MANIFEST_HEADER_BYTES
    && Ample(codec, header, limits, 0, 0, AllChunks(incoming, limits))
  }

  lemma {:induction false} ConcatSplit(batches: seq<seq<Sample>>, k: nat)
    requires k <= |batches|
    ensures Concat(batches) == Concat(batches[..k]) + Concat(batches[k..])
    decreases |batches|
  {
    if k == |batches| {
      assert batches[..k] == batches;
    } else {
      var last := |batches| - 1;
      ConcatSplit(batches[..last], k);
      assert batches[..last][..k] == batches[..k] && batches[..last][k..] == batches[k..][..last - k];
    }
  }

  /** The next batch of an acceptable stream is accepted where the validator stands. */
  lemma NextAccepted(env: Env, header: Header, incoming: seq<seq<Sample>>, k: nat, v: Validator)
    requires k < |incoming| && Acceptable(env, header, Concat(incoming))
    requires AcceptAll(env, header, NewValidator(), Concat(incoming[..k])) == Some(v)
    ensures AcceptAll(env, header, v, incoming[k]).Some?
  {
    hide AcceptAll, Acceptable, Counted, Concat;
    AcceptedIff(env, header, Concat(incoming));
    ConcatSplit(incoming, k + 1);
    ConcatStep(incoming, k);
    AcceptAppend(env, header, NewValidator(), Concat(incoming[..k + 1]), Concat(incoming[k + 1..]));
    AcceptAppend(env, header, NewValidator(), Concat(incoming[..k]), incoming[k]);
  }

  lemma ConcatStep(incoming: seq<seq<Sample>>, k: nat)
    requires k < |incoming|
    ensures Concat(incoming[..k + 1]) == Concat(incoming[..k]) + incoming[k]
  {
    assert incoming[..k + 1][..k] == incoming[..k];
  }

  /** Pull every batch through the validator and the writer. */
  method ExportAll(env: Env, w: Writer, incoming: seq<seq<Sample>>)
    returns (r: Result<Validator, Error>, ghost chunks: seq<seq<Sample>>)
    requires Exported(env, w, NewValidator(), [], []) && ValidLimits(w.limits)
    requires w.env == env && w.Comfortable() && w.Used() == 0 && w.spent == 0
    modifies w
    ensures r.Ok? ==> Exported(env, w, r.value, chunks, Concat(incoming))
    ensures Exportable(env, w.codec, w.header, w.limits, incoming) ==> r.Ok? && w.Comfortable()
  {
    hide ValidLimits, HeaderOk, AcceptAll, Finishes, Exported, SamplesFit, Ample, Acceptable, ChunksFrom, Concat, Needs,
         Fair, AllProduced;
    var validator := NewValidator();
    chunks := [];
    ghost var ready := Exportable(env, w.codec, w.header, w.limits, incoming);
    assert incoming[0..] == incoming && incoming[..0] == [];
    NothingConcat();
    for k := 0 to |incoming|
      invariant Exported(env, w, validator, chunks, Concat(incoming[..k]))
      invariant ready ==>
        w.Comfortable() && Ample(w.codec, w.header, w.limits, w.Used(), w.spent, AllChunks(incoming[k..], w.limits))
    {
      ConcatStep(incoming, k);
      if TotalBytes(incoming[k]) > MAX_GRID_BYTES || |incoming[k]| > MAX_ROWS {
        return Err(Limit), chunks;
      }
      ghost var here, later := ChunksFrom(incoming[k], 0, w.limits), AllChunks(incoming[k + 1..], w.limits);
      ghost var used, spent := w.Used(), w.spent;
      assert incoming[k..][1..] == incoming[k + 1..];
      ExportedAccepts(env, w, validator, chunks, Concat(incoming[..k]));
      if ready {
        AmpleSplit(w.codec, w.header, w.limits, used, spent, here, later, used);
        NextAccepted(env, w.header, incoming, k, validator);
      }
      var next := ExportBatch(env, w, validator, incoming[k], chunks, Concat(incoming[..k]));
      if next.Err? {
        return Err(next.error), chunks;
      }
      if ready {
        AmpleSplit(w.codec, w.header, w.limits, used, spent, here, later, w.Used());
      }
      validator, chunks := next.value, chunks + here;
    }
    assert incoming[..|incoming|] == incoming;
    r := Ok(validator);
  }

  lemma ExportedAccepts(env: Env, w: Writer, v: Validator, chunks: seq<seq<Sample>>, done: seq<Sample>)
    requires Exported(env, w, v, chunks, done)
    ensures AcceptAll(env, w.header, NewValidator(), done) == Some(v)
  {
  }

  lemma NothingConcat()
    ensures Concat([]) == []
  {
  }

  /** A whole export: pull every batch, chunk, validate and write it, then publish, unless the
      stream was cut. What is published opens, and reading it to the end returns the source
      samples in order; and a stream that was not cut is published whenever it is exportable. */
  method Export(env: Env, codec: Codec, header: Header, limits: Limits, incoming: seq<seq<Sample>>, cut: bool)
    returns (r: Result<(Manifest, seq<File>), Error>)
    ensures r.Ok? ==>
      var (manifest, files) := r.value;
      && manifest.header == header && manifest.limits == limits && Opens(codec, manifest, files)
      && |files| == |manifest.parts|
      && ReadAll(env, header, limits, NewValidator(), From(files, 0, 0)) == Ok(Concat(incoming))
    ensures r.Ok? ==> ValidLimits(limits) && HeaderOk(header) && !cut && Acceptable(env, header, Concat(incoming))
    ensures !cut && Exportable(env, codec, header, limits, incoming) ==> r.Ok?
  {
    hide ValidLimits, HeaderOk, AcceptAll, Acceptable, Finishes, PartsOk, Batchable, Flat, Tables, ReadAll, From,
         Counted, Ample;
    if !ValidLimits(limits) {
      return Err(Options);
    }
    CompletedHeader(header);
    if !HeaderOk(header.(complete := true)) {
      return Err(Invalid);
    }
    var writer := new Writer(env, codec, header, limits);
    NothingExported(env, header, limits);
    assert Exported(env, writer, NewValidator(), [], []);
    var validator, chunks := ExportAll(env, writer, incoming);
    if validator.Err? {
      return Err(validator.error);
    }
    AcceptedIff(env, header, Concat(incoming));
    if cut || !header.complete || !Finishes(header, validator.value) {
      return Err(Invalid);
    }
    ExportableFair(env, codec, header, limits, incoming);
    var manifest := writer.Prepare();
    if manifest.Err? {
      return Err(manifest.error);
    }
    var files := writer.files;
    ChunksReadBack(env, header, limits, NewValidator(), chunks);
    FlatStart(files);
    Published(env, codec, manifest.value, files, chunks, validator.value);
    r := Ok((manifest.value, files));
  }

  /** Export, open the published files and drain them: whatever was published reads back as
      exactly the source samples. */
  method ExportThenRead(env: Env, codec: Codec, header: Header, limits: Limits, incoming: seq<seq<Sample>>, cut: bool)
    returns (published: bool, read: Result<seq<Sample>, Error>)
    ensures if published then read == Ok(Concat(incoming)) else read.Err?
    ensures !cut && Exportable(env, codec, header, limits, incoming) ==> published
  {
    hide Opens, From, ReadAll, Exportable, Acceptable, ValidLimits, HeaderOk;
    var capture := Export(env, codec, header, limits, incoming, cut);
    if capture.Err? {
      return false, Err(capture.error);
    }
    var (manifest, files) := capture.value;
    var ok := Open(codec, manifest, files);
    assert ok && files[..|manifest.parts|] == files;
    var dataset := new Dataset(env, codec, manifest, files);
    read := dataset.Drain();
    published := true;
  }

  lemma CompletedHeader(header: Header)
    ensures HeaderOk(header) <==> header.complete && HeaderOk(header.(complete := true))
  {
    assert header.complete ==> header.(complete := true) == header;
  }

  lemma ExportableFair(env: Env, codec: Codec, header: Header, limits: Limits, incoming: seq<seq<Sample>>)
    ensures Exportable(env, codec, header, limits, incoming) ==>
      Fair(env, codec, header, limits) && ValidLimits(limits) && codec.headerBytes(header) <= MANIFEST_HEADER_BYTES
  {
    hide Fair, ValidLimits, HeaderOk, Acceptable, Finishes, Counted, BatchesFit;
  }

  // ---------------------------------------------------------------- the floors suffice for small captures

  /** The Arrow memory of one row: its charge and a fixed overhead. */
  ghost predicate OneRowArrow(env: Env, codec: Codec, header: Header, limits: Limits) {
    forall s :: Writable(env, header, limits, [s]) ==>
      codec.arrow(Tabulate(header, [s])) <= SampleBytes(s) + ARROW_BATCH_BYTES
  }

  lemma {:induction false} FewChunks(incoming: seq<seq<Sample>>, limits: Limits)
    requires ValidLimits(limits) && BatchesFit(incoming, limits) && |Concat(incoming)| <= 1
    ensures AllChunks(incoming, limits) == if Concat(incoming) == [] then [] else [Concat(incoming)]
    decreases |incoming|
  {
    hide ValidLimits, ChunkFits, SamplesFit;
    if incoming != [] {
      var first, rest := incoming[0], incoming[1..];
      ConcatSplit(incoming, 1);
      assert incoming[..1] == [first];
      ConcatOne(first);
      FewChunks(rest, limits);
      NoChunks(first, limits);
      if first != [] {
        assert first[0..] == first;
        OneFits(first, 0, limits);
        FirstChunk(first, 0, limits);
        assert |first| == 1 && first[0..1] == first;
        assert Longest(first, 0, 0, limits) == Longest(first, 0, 1, limits) == 1;
        assert AllChunks(rest, limits) == [] && Concat(incoming) == first;
        assert ChunksFrom(first, 0, limits) == [first] + [];
      } else {
        assert Concat(incoming) == Concat(rest);
      }
    }
  }

  lemma ConcatOne(batch: seq<Sample>)
    ensures Concat([batch]) == batch
  {
    assert [batch][..0] == [];
    assert Concat([batch][..0]) == [];
  }

  /** Limits that pass their own validation leave room for an empty and a one-row capture. */
  lemma SmallCapturesFit(env: Env, codec: Codec, header: Header, limits: Limits, incoming: seq<seq<Sample>>)
    requires ValidLimits(limits) && HeaderOk(header) && BatchesFit(incoming, limits) && |Concat(incoming)| <= 1
    requires Acceptable(env, header, Concat(incoming)) && Finishes(header, Counted(Concat(incoming)))
    requires Fair(env, codec, header, limits) && codec.headerBytes(header) <= MANIFEST_HEADER_BYTES
    requires OneRowArrow(env, codec, header, limits)
    ensures Exportable(env, codec, header, limits, incoming)
  {
    hide Fair, Writable, HeaderOk, Acceptable, Finishes, Counted, BatchesFit, AllChunks, Concat, ValidLimits, Needs,
         ReserveOf, OneRowArrow;
    FewChunks(incoming, limits);
    var all := Concat(incoming);
    if all == [] {
      assert Needs(codec, header, limits, []) == 0 by { NoNeeds(codec, header, limits); }
    } else {
      assert all == [all[0]];
      NeedsOne(codec, header, limits, all);
      OnlyFits(incoming, limits);
      OneWritable(env, header, limits, all[0]);
      RowReserve(env, codec, header, limits, all[0]);
    }
  }

  lemma NoNeeds(codec: Codec, header: Header, limits: Limits)
    ensures Needs(codec, header, limits, []) == 0
  {
  }

  /** The part floor reserves for any one row. */
  lemma RowReserve(env: Env, codec: Codec, header: Header, limits: Limits, s: Sample)
    requires ValidLimits(limits) && OneRowArrow(env, codec, header, limits) && Writable(env, header, limits, [s])
    requires SampleBytes(s) <= limits.batchBytes
    ensures ReserveOf(codec, header, limits, [s]) <= limits.partBytes <= limits.totalBytes && 0 < limits.parts
  {
    hide Tabulate, SampleBytes, Writable;
    assert codec.arrow(Tabulate(header, [s])) <= SampleBytes(s) + ARROW_BATCH_BYTES;
  }

  /** One acceptable sample within the limits makes a batch. */
  lemma OneWritable(env: Env, header: Header, limits: Limits, s: Sample)
    requires ValidLimits(limits) && Acceptable(env, header, [s]) && SamplesFit([s], limits)
    ensures Writable(env, header, limits, [s])
  {
    hide ValidLimits, ValidValue, Genuine, FieldBytes;
    OneFits([s], 0, limits);
    assert [s][0..] == [s] && [s][0..1] == [s] && [s][0] == s;
  }

  lemma {:induction false} OnlyFits(incoming: seq<seq<Sample>>, limits: Limits)
    requires BatchesFit(incoming, limits)
    ensures SamplesFit(Concat(incoming), limits)
    decreases |incoming|
  {
    hide SampleBytes, FieldBytes, TotalBytes;
    if incoming != [] {
      var last := |incoming| - 1;
      OnlyFits(incoming[..last], limits);
      assert SamplesFit(incoming[last], limits);
    }
  }

  lemma NothingExported(env: Env, header: Header, limits: Limits)
    ensures Concat([]) == [] && Tables(header, []) == [] && AllBatchable(env, header, limits, [])
    ensures AcceptAll(env, header, NewValidator(), []) == Some(NewValidator())
  {
  }

  lemma FlatStart(files: seq<File>)
    ensures Flat(files) == From(files, 0, 0)
  {
    FlatIsFrom(files, 0);
    assert Flat(files[..0]) == [];
  }

  lemma {:induction false} TablesRows(header: Header, chunks: seq<seq<Sample>>)
    ensures TotalRows(Tables(header, chunks)) == |Concat(chunks)|
    decreases |chunks|
  {
    hide Tabulate;
    if chunks != [] {
      var last := |chunks| - 1;
      TablesRows(header, chunks[..last]);
      assert Tables(header, chunks)[..last] == Tables(header, chunks[..last]) by {
        TablesLength(header, chunks[..last]);
      }
      TablesLength(header, chunks);
    }
  }

  lemma {:induction false} TablesLength(header: Header, chunks: seq<seq<Sample>>)
    ensures |Tables(header, chunks)| == |chunks|
    decreases |chunks|
  {
    hide Tabulate;
    if chunks != [] {
      TablesLength(header, chunks[..|chunks| - 1]);
    }
  }

  lemma {:induction false} TotalRowsAppend(a: seq<Columns>, b: seq<Columns>)
    ensures TotalRows(a + b) == TotalRows(a) + TotalRows(b)
    decreases |b|
  {
    if b == [] {
      assert a + b == a;
    } else {
      TotalRowsAppend(a, b[..|b| - 1]);
      assert (a + b)[..|a + b| - 1] == a + b[..|b| - 1];
    }
  }

  lemma {:induction false} PartRows(codec: Codec, l: Limits, parts: seq<Part>, files: seq<File>)
    requires |parts| == |files| && forall i :: 0 <= i < |parts| ==> PartChecked(codec, l, files[i], parts[i])
    ensures TotalRows(Flat(files)) == SumRows(parts)
    decreases |parts|
  {
    if parts != [] {
      var last := |parts| - 1;
      PartRows(codec, l, parts[..last], files[..last]);
      TotalRowsAppend(Flat(files[..last]), files[last].groups);
      assert PartChecked(codec, l, files[last], parts[last]);
    }
  }

  /** The manifest's row count is the header's, so the capture reopens. */
  lemma Published(env: Env, codec: Codec, m: Manifest, files: seq<File>, chunks: seq<seq<Sample>>, v: Validator)
    requires m.version == 1 && m.schema == 1 && m.consistency == CONSISTENCY
    requires ValidLimits(m.limits) && HeaderOk(m.header) && codec.manifestBytes(m) <= m.limits.manifestBytes
    requires PartsOk(codec, m.limits, m.parts, files) && m.rows == SumRows(m.parts)
    requires Flat(files) == Tables(m.header, chunks)
    requires AcceptAll(env, m.header, NewValidator(), Concat(chunks)) == Some(v) && Finishes(m.header, v)
    ensures Opens(codec, m, files) && |files| == |m.parts|
  {
    hide PartListed, PartChecked, ValidLimits;
    PartRows(codec, m.limits, m.parts, files);
    TablesRows(m.header, chunks);
    AcceptFacts(env, m.header, NewValidator(), Concat(chunks));
  }
}
