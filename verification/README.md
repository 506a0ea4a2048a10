# A verified model of rusty-haystack

This project models the parts of rusty-haystack that carry its promises, and proves those
promises: history writes with exactly-once receipts in memory and in SQLite, state
subscriptions, the typed Compact Thrift and Parquet preflight, bounded history reads,
capture export and reopen, record sanitizing, cursor paging and the application lifecycle.
`dafny verify dfyconfig.toml` checks all of it.

## What is modelled

**History writes.** A point's series is a strictly increasing vector of samples with a
watermark. `Series` gives the native path (binary-search upserts, then trim) and the
submission path (stable sort, last-wins dedupe, two-way merge, trim) as loops and proves both
equal to one function, which refines the last-writer-wins map of everything ever written.
`Store` is the authority: points, receipts, the change ledger and the sequence counter, as an
object updated in place and as functions on its value. `StoreRuns` is the protocol as a state
machine: native writes, resets, snapshots taken early and plans published late, rejections.
Each lock-held region is one step. `StoreContents` says what the points hold on every run.

**SQLite.** `Sqlite` adds the durable tables, the reservation and publish transactions, the
settlement of an ambiguous commit, crashes and reopens. A transaction is acknowledged, or it
commits and its acknowledgement is lost, or it aborts, or the process dies right after it.
`SqliteRuns` carries the invariant that ties the tables to one log of applied operations;
`Recovery` proves that every reachable database passes the recovery validator or fails it for
one reason only; `FromSqlite` is the validator's own loops.

**Subscriptions.** `Subscription` is one watch's record, its deliveries, and the client that
applies what it acknowledged. `Registry` is the shared table with its byte and count limits.
`SubscriptionRuns` runs both: an operation reads a record, captures the graph under a policy,
and publishes by compare-and-swap while the graph commits, leases lapse, watches are
replaced, acknowledgements are lost, late or repeated, and the service stops.

**Compact Thrift and Parquet preflight.** `Compact` is the shape-driven parser of the Apache
Thrift compact protocol (sections "Integer encoding", "Struct" and "List and Set"),
`CompactParser` the same parser as an object moving a cursor, `CompactPrint` a printer with
every encoding choice explicit, `CompactTight` the messages that attain the static bounds.
`Pages` decodes bit-width-one levels (Apache Parquet Encodings, section "Run Length Encoding /
Bit-Packing Hybrid") and checks PLAIN page bodies and page tiling; `Layout` checks the framing
of a part, the profile of its footer and the tiling of its chunks; `FooterTight` finds the
largest footer that passes.

**Bounded reads.** `Reads` is the in-memory producer and the coordinator that polices any
provider; `ReadSessions` runs whole sessions against arbitrary and honest providers.

**Capture.** `CaptureFormat` is sample validation, greedy chunking and the nine-column form;
`Capture` the part-rolling writer, the opening checks and the reader; `CaptureExport` the
export loop, what it publishes and when it is sure to publish. That it is sure to publish rests
on size margins of the encodings (`Capture.Fair`), stated for what one export can produce;
`CaptureSizes` gives a codec that meets them.

**Sanitizing, paging, lifecycle.** `Sanitize`, `Paging` and `Lifecycle`.

Random identities are fresh by assumption: incarnations, watch ids and delivery tokens never
repeat. Clocks, cancellation, policy answers and budget charges are inputs of each step.
Codecs, digests, sizes and schema tables are function-valued parameters; a graph state and a
policy key determine the sanitized view, and the canonical row encoding is injective.
Names and entity ids that only need an order are numbered in their sort order.

## What turned out differently

- A SQLite reservation that commits but loses its acknowledgement leaves a durable row that the
  open projection never charged. Later reservations can then push the durable total over the
  receipt byte limit, and the database no longer opens under the limits it was written with
  (`Recovery.LostReservationOverruns`, under limits every configuration check lets through).
  That limit is the only check a reachable database can fail, and only after such a loss
  (`Recovery.RecoveryCondition`, `Recovery.RecoveryComplete`).
- A subscription scope reports its first graph revision as acknowledged before the client has
  acknowledged anything. "The client holds the view at `acknowledged`" is true exactly when the
  scope has been acknowledged once or has nothing to show
  (`SubscriptionTheorems.AcknowledgedCondition`, with a run in `UnacknowledgedScope`).
- The comment that a footer has about 3,000 nodes describes a written footer. The largest one
  the shape parses has 7,903 (`CompactBounds.FooterBounds`, attained in
  `CompactTight.FooterMaximum`), and the largest one that also passes the profile has 7,901
  (`FooterTight.ProfileBound`, attained in `FooterTight.ProfileMaximum`). The ceilings are still
  out of reach, even though an unknown field is counted before it is refused.

## Model

| member | source | states |
|---|---|---|
| Series.Search | haystack-app/src/history_store.rs:290-293 | the binary search finds the instant, or the one place where inserting it keeps the order |
| Series.UpsertAll | haystack-app/src/history_store.rs:289-297 | the upsert loop keeps the series sorted and overlays exactly the written instants, last write winning |
| Series.InsertAllMeaning | haystack-app/src/history_store.rs:289-297 | repeated upserts mean the old map overlaid by the last-writer-wins map of the batch |
| Series.Dedupe | haystack-app/src/history_mutation.rs:706-721 | after a stable sort, keeping the last of each run of equal instants gives the batch's last-writer-wins map, sorted |
| Series.Merge | haystack-app/src/history_mutation.rs:722-741 | the two-way merge is sorted and means the old map overlaid by the incoming one |
| Series.NativeNext | haystack-app/src/history_store.rs:278-298 | the native path computes `Apply`, with the exact unique and evicted counts |
| Series.PrepareNext | haystack-app/src/history_mutation.rs:698-742 | sort, dedupe, merge and trim compute the same series, watermark, unique and evicted counts as the native path |
| Series.OldestNeverSinks | haystack-app/src/history_store.rs:342-350 | once full, the oldest retained instant never moves back, so an evicted instant stays evicted |
| Series.ApplyRefines | haystack-app/src/history_store.rs:257-350 | one bounded write refines overlaying the unbounded map |
| Series.BoundedRefinesUnbounded | haystack-app/src/history_store.rs:257-350 | after any writes the items are the newest `capacity` instants of everything written and the watermark is the greatest instant dropped, below every retained one |
| Series.RefinementIsUnique | haystack-app/src/history_store.rs:342-350 | that description leaves one possible series and watermark |
| Store.HisStore.constructor | haystack-app/src/history_store.rs:112-146 | a new authority is empty |
| Store.HisStore.PointInPlace | haystack-app/src/history_store.rs:163-195 | a point is found, or created with a new incarnation unless the point limit is reached |
| Store.HisStore.AppendChange | haystack-app/src/history_store.rs:213-222 | the ledger grows by one change and keeps its newest entries within capacity |
| Store.HisStore.Write | haystack-app/src/history_store.rs:257-314 | the native write leaves the authority exactly where `NativeWrite` says, or untouched on error; when room cannot be reserved only a created point stays |
| Store.HisStore.ResetPoint | haystack-app/src/history_store.rs:223-256 | a reset installs an empty series under a new incarnation and logs what it dropped |
| Store.HisStore.PrepareSubmission | haystack-app/src/history_mutation.rs:575-778 | a plan is the request applied to the series it snapshot, or the reason it cannot be |
| Store.HisStore.BindReceipt | haystack-app/src/history_mutation.rs:291-348 | an operation is bound once, within the receipt count and byte limits |
| Store.HisStore.PublishPlan | haystack-app/src/history_mutation.rs:892-978 | publication compares incarnation and generation, then installs series, change and receipt together, or rejects |
| Store.HisStore.RejectPlan | haystack-app/src/history_mutation.rs:871-891 | a rejection settles the receipt and touches nothing else |
| StoreRuns.SerializablePublication | haystack-app/src/history_mutation.rs:892-978 | on every run: versions determine content, every published plan is its request applied to the series it was compared with, the ledger is consecutive and chained per point, and receipts and log agree |
| StoreRuns.PublishedFromCurrent | haystack-app/src/history_mutation.rs:892-978 | a plan that passes the compare equals applying its request to the series current at publication |
| StoreRuns.ExactlyOnce | haystack-app/src/history_mutation.rs:349-574 | a Committed receipt has one effect, at its sequence; a Pending, Rejected or absent one has none |
| StoreRuns.VersionDeterminesContent | haystack-app/src/history_store.rs:206-212 | wherever a run shows one version twice, samples and watermark are the same |
| StoreRuns.OutcomeIsFinal | haystack-app/src/history_mutation.rs:330-348 | a bound request never changes and a settled outcome is final |
| StoreRuns.LedgerIsSuffix | haystack-app/src/history_store.rs:213-222 | the ledger is the last min(sequence, capacity) changes, consecutive |
| StoreRuns.StepsAreTheStore | haystack-app/src/history_store.rs:223-314 | the machine's write and reset steps are the store's |
| StoreContents.PointsRefineWrites | haystack-app/src/history_store.rs:223-350 | on every run each point holds the newest `capacity` instants of all native writes and published plans since its last reset, its watermark being the greatest of them dropped |
| SqliteRuns.PlanFromReplay | haystack-app/src/history_sqlite.rs:538-640 | a plan that may still publish equals its request applied to the durable replay of the log |
| SqliteRuns.PrunedIsAppended | haystack-app/src/history_sqlite.rs:600-640 | pruning ledger rows by sequence keeps the same changes as the live bounded ledger |
| SqliteRuns.PublishDurable | haystack-app/src/history_sqlite.rs:538-773 | the publish transaction keeps the tables the replay of one log, with ledger, receipts and points in agreement |
| SqliteRuns.ReserveDurable | haystack-app/src/history_sqlite.rs:412-442 | a committed reservation adds a Pending or Rejected row with no effect |
| SqliteRuns.SettleDurable | haystack-app/src/history_sqlite.rs:443-497 | settling an ambiguous outcome rejects only a row that is still Pending |
| SqliteRuns.RunKeeps | haystack-app/src/history_sqlite.rs:412-773 | every run of reserves, publishes, rejections, lost acknowledgements, crashes and reopens keeps tables, log and live projection in agreement |
| Recovery.ExactlyOnceUnderFaults | haystack-app/src/history_sqlite.rs:412-773 | on every faulty run the durable series are the replay of a log holding an operation once if its receipt is Committed and never otherwise |
| Recovery.DurableRefinesWrites | haystack-app/src/history_sqlite.rs:412-773 | on every faulty run each durable point holds the newest `capacity` instants its committed operations wrote |
| Recovery.OutcomeIsFinal | haystack-app/src/history_sqlite.rs:443-536 | over every faulty run a durable row keeps its request and a settled outcome is final |
| Recovery.DurableIsSound | haystack-app/src/history_sqlite.rs:163-375 | reachable tables pass every row, chaining and newest-change check |
| Recovery.DurableIsProved | haystack-app/src/history_sqlite.rs:163-375 | every retained change and every point tip is proven by exactly one receipt |
| Recovery.RecoveryCondition | haystack-app/src/history_sqlite.rs:163-375 | a reachable database opens if and only if its receipts fit the byte limit |
| Recovery.RecoveryComplete | haystack-app/src/history_sqlite.rs:163-375 | with no lost reservation it always opens, to the live ledger, sequence, receipts and series, charging no more bytes than the live store |
| Recovery.LostReservationOverruns | haystack-app/src/history_sqlite.rs:349-352 | under valid store and native limits, with every row counted and fitting, a run of accepted reservations, one with a lost acknowledgement, that leaves a database the validator refuses |
| FromSqlite.CheckPoints | haystack-app/src/history_sqlite.rs:187-242 | the point loop accepts exactly the tables whose every point row is valid |
| FromSqlite.CheckChanges | haystack-app/src/history_sqlite.rs:243-294 | the ledger loop accepts exactly a consecutive ledger chained per point |
| FromSqlite.CheckReceipts | haystack-app/src/history_sqlite.rs:295-375 | the receipt loop with its proof flags accepts exactly when every row is valid and every tip and change has one proof |
| FromSqlite.Open | haystack-app/src/history_sqlite.rs:163-375 | recovery succeeds if and only if the database is recoverable, and rebuilds that authority |
| Ordered.NormalizeSorts | haystack-app/src/subscription.rs:1272-1277 | normalizing sorts, drops duplicates and keeps exactly the members |
| Ordered.AscendingUnique | haystack-app/src/subscription.rs:1272-1277 | the same members always normalize to the same list |
| Subscription.DeliverApplies | haystack-app/src/subscription.rs:880-945 | applying a delivery turns what the client holds into exactly what was captured |
| Subscription.TakeKeeps | haystack-app/src/subscription.rs:1028-1070 | acknowledging the outstanding delivery leaves the client holding its projection |
| Subscription.PrepareKeeps | haystack-app/src/subscription.rs:946-1101 | every record any request can prepare keeps client, projection and outstanding delivery in step |
| Registry.AdmitKeeps | haystack-app/src/subscription.rs:440-535 | creation keeps bindings and entries one to one, the byte total exact and every count within its limit |
| Registry.InstallKeeps | haystack-app/src/subscription.rs:1124-1206 | publication reserves growth before installing members, so every live membership is covered |
| Registry.RemoveKeeps | haystack-app/src/subscription.rs:382-397 | removal gives back exactly the entry's bytes and its binding |
| Registry.TerminateKeeps | haystack-app/src/subscription.rs:1102-1123 | stopping a record frees its active slot and keeps its bytes accounted |
| Registry.MaintainKeeps | haystack-app/src/subscription.rs:1207-1245 | a maintenance pass keeps the whole table invariant |
| Registry.FirstPublicationFits | haystack-app/src/subscription.rs:482-490 | bytes reserved for the requested ids cover the normalized ids, so a first publication never fails for capacity |
| Registry.Owner.constructor | haystack-app/src/subscription.rs:105-110 | a new table is empty |
| Registry.Owner.Count | haystack-app/src/subscription.rs:467-481 | the scan counts active entries, the session's entries and its active ones |
| Registry.Owner.AdmitCreation | haystack-app/src/subscription.rs:455-535 | a known key returns its watch or conflicts; a new one is admitted exactly when all five limits allow |
| Registry.Owner.RemoveEntry | haystack-app/src/subscription.rs:382-397 | the table loses the entry, its binding and its bytes |
| Registry.Owner.InstallRecord | haystack-app/src/subscription.rs:1138-1202 | compare-and-swap of one record with its growth, or the reason it was not done |
| Registry.Owner.TerminateRecord | haystack-app/src/subscription.rs:1102-1123 | stops a record only if its revision has not moved |
| Registry.Owner.Age | haystack-app/src/subscription.rs:1214-1236 | lapsed leases stop; closed sessions and dead legacy watches are marked |
| Registry.Owner.Maintain | haystack-app/src/subscription.rs:1207-1245 | after the pass exactly the unmarked entries remain, with their bindings and bytes |
| Registry.Owner.Clear | haystack-app/src/subscription.rs:327-334 | shutdown empties the table |
| SubscriptionRuns.PublishSteps | haystack-app/src/subscription.rs:1124-1206 | a publication that wins its compare-and-swap was prepared from the current record, and keeps the whole invariant |
| SubscriptionRuns.StepKeeps | haystack-app/src/subscription.rs:415-713 | every step keeps the invariant and only moves records forward |
| SubscriptionTheorems.Reconstruction | haystack-app/src/subscription.rs:880-1101 | on every run the client holds the view at the acknowledged revision, the outstanding delivery leads to the view at its own, and acknowledged deliveries chain without gap or repeat |
| SubscriptionTheorems.AcknowledgedCondition | haystack-app/src/subscription.rs:960-999 | the client holds the view at `acknowledged` if and only if the scope was acknowledged once or shows nothing |
| SubscriptionTheorems.UnacknowledgedScope | haystack-app/src/subscription.rs:960-988 | a run in which it does not, under valid limits, with the row within the view limit and the delivery within the delivery limit |
| SubscriptionTheorems.IdleIsCurrent | haystack-app/src/subscription.rs:1013-1021 | an idle answer is given only to a client holding the current view |
| SubscriptionTheorems.OneOutstanding | haystack-app/src/subscription.rs:983-1070 | the outstanding delivery is unchanged until acknowledged, replaced or terminated |
| SubscriptionTheorems.RegistryHolds | haystack-app/src/subscription.rs:439-535 | the table invariant holds on every run |
| SubscriptionTheorems.EndIsFinal | haystack-app/src/subscription.rs:568-586 | a closed or stopped watch is never live again and a removed one never returns |
| CompactBounds.ValueAccepted | haystack-analytics/src/reader.rs:547-600 | on arbitrary bytes an accepted value conforms to its shape: known unique field ids, integers and counts in range |
| CompactBounds.StructAccepted | haystack-analytics/src/reader.rs:509-546 | the same for an accepted struct |
| CompactBounds.StructBounded | haystack-analytics/src/reader.rs:502-546 | within its static bounds no parse, accepted or refused, meets the node or depth ceiling |
| CompactBounds.FooterBounds | haystack-analytics/src/reader.rs:335-425 | the footer shape admits at most 7,903 nodes and depth 7 |
| CompactTight.BoundIsAttained | haystack-analytics/src/reader.rs:463-600 | for every regular shape some message, accepted to its last byte, visits exactly as many nodes as the static bound |
| CompactTight.FooterMaximum | haystack-analytics/src/reader.rs:335-425 | some message the footer shape parses to its last byte has 7,903 nodes, the maximum of the typed parse |
| CompactBounds.PageBounds | haystack-analytics/src/reader.rs:405-425 | the page header shape admits at most 8 nodes and depth 1 |
| CompactBounds.CeilingsUnreachable | haystack-analytics/src/reader.rs:19-29 | no footer or page header, from any bytes, reaches a ceiling |
| CompactPrint.ValueParses | haystack-analytics/src/reader.rs:463-600 | parsing a printed tree, with any choice of short or long headers, returns the tree and consumes its bytes |
| CompactPrint.RoundTrip | haystack-analytics/src/reader.rs:463-600 | a printed struct followed by anything parses back exactly |
| CompactParser.Parser.ReadVarint | haystack-analytics/src/reader.rs:476-489 | the varint loop reads the number the bytes denote and stops after it |
| CompactParser.Parser.Structure | haystack-analytics/src/reader.rs:509-546 | the struct loop returns what the parsing function says and leaves the cursor there |
| CompactParser.Parser.ReadValue | haystack-analytics/src/reader.rs:547-600 | likewise for a value of any wire type |
| CompactParser.Parser.ReadList | haystack-analytics/src/reader.rs:570-600 | likewise for a list, in order and in number |
| Pages.CoversDenotes | haystack-analytics/src/reader.rs:854-895 | runs that cover a count denote at least that many levels, padding only in the last packed run |
| Pages.CountPacked | haystack-analytics/src/reader.rs:876-890 | counting set bits of a packed run counts the ones among its first levels |
| Pages.DefinitionLevels | haystack-analytics/src/reader.rs:858-895 | the decoder returns the number of ones in the level sequence, and refuses exactly when there is none to return |
| Pages.RunsDecode | haystack-analytics/src/reader.rs:858-895 | decoding undoes encoding for every run list |
| Pages.CheckByteArrays | haystack-analytics/src/reader.rs:835-846 | the length-prefixed payload splits into exactly the present values |
| Pages.PageBody | haystack-analytics/src/reader.rs:818-853 | a body is accepted if and only if it is its levels followed by exactly one PLAIN value per present level |
| Pages.PageGuard | haystack-analytics/src/reader.rs:771-817 | a chunk is accepted if and only if it reads as pages to its last byte, within the page limit, with counts summing to the rows |
| Pages.PagesTile | haystack-analytics/src/reader.rs:771-817 | the pages of an accepted chunk follow one another from its first byte to its last |
| Layout.CheckGroup | haystack-analytics/src/reader.rs:707-757 | a group's chunks lie end to end within the encoded ceiling and each passes the page preflight |
| Layout.CheckLayout | haystack-analytics/src/reader.rs:705-764 | the loop accepts exactly the layouts whose chunks tile the bytes from the magic to the footer |
| Layout.FooterStart | haystack-analytics/src/reader.rs:611-680 | an accepted footer parses to its last byte, passes the profile, and is framed by both magics and its recorded length |
| Layout.FooterFramed | haystack-analytics/src/reader.rs:656-680 | conversely a framed footer is found where it starts if and only if part and footer are within their limits and it parses and passes the profile |
| FooterTight.StructWeighs | haystack-analytics/src/reader.rs:502-600 | an accepted parse, from any bytes, has counted exactly the fields and elements of the tree it returns |
| FooterTight.ProfileBound | haystack-analytics/src/reader.rs:616-654 | no footer that passes the profile has more than 7,901 nodes |
| FooterTight.ProfileMaximum | haystack-analytics/src/reader.rs:616-654 | some footer that passes the profile has 7,901 nodes |
| Layout.PartTiles | haystack-analytics/src/reader.rs:685-764 | every byte of an accepted part belongs to a magic, one chunk, the footer or its length |
| Layout.ChunkPages | haystack-analytics/src/reader.rs:744-757 | inside an accepted chunk the pages fill its size and their counts are its rows |
| Reads.LowerBoundSplits | haystack-app/src/history_store.rs:410-415 | the opening cursor separates samples before the range from the rest |
| Reads.MemorySession.constructor | haystack-app/src/history_store.rs:387-444 | a session starts at that cursor with the series' own coverage |
| Reads.MemorySession.Next | haystack-app/src/history_store.rs:456-523 | one pull returns the samples `Fill` describes and moves past exactly those; a changed series is reported |
| Reads.Coordinator.constructor | haystack-app/src/history.rs:478-482 | a session starts with nothing forwarded |
| Reads.Coordinator.ForwardItems | haystack-app/src/history.rs:603-664 | samples are forwarded until the first refusal, with the counters of exactly those forwarded |
| Reads.Coordinator.Receive | haystack-app/src/history.rs:525-687 | one response is judged as a whole: faults, changed metadata, malformed batches, samples, and the completion claim |
| ReadSessions.CoordinatorSound | haystack-app/src/history.rs:585-687 | whatever a provider returns, forwarded samples are increasing, inside range and retained bounds and within all totals, and Complete is forwarded only with the retained endpoints delivered and the count right |
| ReadSessions.HonestMeta | haystack-app/src/history.rs:826-852 | metadata of a stored series always passes |
| ReadSessions.FillProgress | haystack-app/src/history_store.rs:484-523 | a pull with a positive row budget yields a row or ends the read |
| ReadSessions.FillBounds | haystack-app/src/history_store.rs:484-523 | a pull stays inside range and budget and claims completion exactly at the end of the range |
| ReadSessions.HonestAccepted | haystack-app/src/history.rs:603-664 | every honest sample is forwarded unless its value or the request's own budget forbids it |
| ReadSessions.HonestExact | haystack-app/src/history_store.rs:387-523 | reading an unchanged series is never called invalid, and a completed read forwarded exactly the samples of the range |
| ReadSessions.HonestCompletes | haystack-app/src/history.rs:485-687 | an honest read that nothing hinders, under caps covering its range, completes within one pull more than it has samples, with exactly those samples |
| ReadSessions.InRangeExact | haystack-app/src/history_store.rs:387-523 | those are the stored instants with start <= t < end, no more and no fewer |
| CaptureFormat.NextChunk | haystack-analytics/src/export.rs:231-248 | a chunk is nonempty, within row and byte limits, and cannot be longer; refused only if one sample is too big |
| CaptureFormat.AcceptedIff | haystack-core/src/codecs/history.rs:906-937 | samples are accepted if and only if genuine, of valid values, strictly increasing, inside range and retained bounds, no more than announced and within both byte totals; the counters then describe them |
| CaptureFormat.Validate | haystack-core/src/codecs/history.rs:906-937 | the loop computes that verdict and those counters |
| CaptureFormat.ToColumns | haystack-analytics/src/format.rs:319-404 | a batch is built if and only if rows, bytes, values and fields are within limits, and is the table of its samples |
| CaptureFormat.FromColumns | haystack-analytics/src/format.rs:412-478 | reading columns gives the row samples in order or the first row's error |
| CaptureFormat.ColumnsRoundTrip | haystack-analytics/src/format.rs:319-478 | columns built from samples read back as those samples |
| CaptureFormat.ReadIsValid | haystack-analytics/src/format.rs:412-478 | whatever columns are accepted yield genuine times, fields and bytes within limits |
| Capture.Writer.constructor | haystack-analytics/src/writer.rs:100-136 | a new writer holds no part |
| Capture.Writer.FinishPart | haystack-analytics/src/writer.rs:191-233 | a finished part passes the reader's checks and the totals follow it; under valid limits, with fair sizes and a footer's room left, it always finishes |
| Capture.Writer.Write | haystack-analytics/src/writer.rs:137-190 | a batch becomes the next row group, rolling parts so that no byte, group or part cap is passed; under valid limits and fair sizes a batch of the stream's samples whose reserve fits is always written |
| Capture.Writer.Prepare | haystack-analytics/src/writer.rs:234-248 | the manifest describes exactly the finished parts and fits its limit, which the manifest floor ensures for a header of at most 16,384 bytes |
| Capture.Open | haystack-analytics/src/reader.rs:86-153 | opening accepts exactly the manifests and files that satisfy every version, header, name, digest, count, ordinal, row, byte and part check |
| Capture.Dataset.constructor | haystack-analytics/src/reader.rs:139-153 | a reader starts before the first group |
| Capture.Seek | haystack-analytics/src/reader.rs:202-213 | skipping finished parts loses and repeats no group |
| Capture.Dataset.NextInner | haystack-analytics/src/reader.rs:180-228 | each call returns the next group's samples once, and None only when all were read and add up |
| Capture.Dataset.NextBatch | haystack-analytics/src/reader.rs:168-179 | a failed reader stays failed and a complete one stays complete |
| Capture.Dataset.Drain | haystack-analytics/src/reader.rs:168-228 | reading to the end returns all batches in order, or fails |
| CaptureExport.ChunksReadBack | haystack-analytics/src/writer.rs:137-265 | reading the tables of accepted chunks returns the chunks joined |
| CaptureExport.ExportBatch | haystack-analytics/src/export.rs:227-265 | one incoming batch is written completely, in order, in the greedy chunks; always, when there is room for them |
| CaptureExport.Export | haystack-analytics/src/export.rs:205-299 | whatever is published opens, and reading it to the end returns the source samples in order; it is published only from an acceptable stream that ended Complete, and always from an exportable one |
| CaptureExport.ExportThenRead | haystack-analytics/src/export.rs:205-299 | exporting, opening what was published and draining it returns exactly the source samples, and an exportable stream is always published |
| CaptureExport.SmallCapturesFit | haystack-analytics/src/format.rs:133-170 | limits that validate leave room for an empty and a one-row capture of any valid header within the header bytes the manifest floor reserves |
| CaptureSizes.PlainIsFair | haystack-analytics/src/format.rs:21-95 | the margins can be met: a codec of PLAIN column sizes, whose manifest holds the text of its header and parts and whose layout check refuses parts over the limit, is fair to every header with an admissible id |
| CaptureSizes.SmallCapturesPublish | haystack-analytics/src/format.rs:135-145 | with that codec every empty and one-row capture under valid limits is exportable |
| Sanitize.SplitOnceMeans | haystack-app/src/sanitize.rs:168-177 | the library of a catalog reference ends at its first "::" |
| Sanitize.ValueVisibleMeans | haystack-app/src/sanitize.rs:178-242 | a value is visible if and only if no identity at any depth is denied |
| Sanitize.CopyMasks | haystack-app/src/sanitize.rs:243-329 | copying leaves no denied tag, column or display at any depth, discloses nothing new, and changes nothing already masked |
| Sanitize.SurvivesIff | haystack-app/src/sanitize.rs:56-84 | exactly which tags survive, and that each survives as its masked copy |
| Sanitize.SanitizeIsSound | haystack-app/src/sanitize.rs:56-84 | a sanitized record is clean at every depth and sanitizing it again returns it |
| Sanitize.ReauthorizedIff | haystack-app/src/subscription.rs:857-879 | a retained row passes reauthorization if and only if it is clean under the policy in force |
| Paging.SelectStep | haystack-app/src/service.rs:1762-1785 | keeping page_size + 1 names while scanning is selecting among all names seen |
| Paging.SelectCatalog | haystack-app/src/service.rs:1674-1742 | for any scan order the selection is the page_size + 1 smallest admissible names after the cursor |
| Paging.CatalogPage | haystack-app/src/service.rs:1662-1757 | a catalog page is the page of the sorted admissible names |
| Paging.EntityPage | haystack-app/src/service.rs:1574-1662 | an entity page is the page of the sorted matches |
| Paging.CursorSplits | haystack-app/src/service.rs:1648-1662 | a page after any cursor is a page of the one full sorted list |
| Paging.FollowCatalog | haystack-app/src/service.rs:1662-1757 | following the cursor to the page that says it is complete collects the sorted admissible names, each once, whatever the scan order of each page |
| Paging.FollowEntities | haystack-app/src/service.rs:1574-1661 | the same for the matching entities |
| Paging.PagesAreExact | haystack-app/src/service.rs:1574-1786 | pages concatenate to the full sorted list, each match once, complete on the last page only |
| Lifecycle.Owner.constructor | haystack-app/src/lifecycle.rs:591-608 | a new lifecycle is starting and tracks no work |
| Lifecycle.Owner.Admit | haystack-app/src/lifecycle.rs:619-629 | work is admitted if and only if the application is running |
| Lifecycle.Owner.SealNow | haystack-app/src/lifecycle.rs:630-641 | the first seal closes admission and keeps a failure visible |
| Lifecycle.Owner.Fail | haystack-app/src/lifecycle.rs:642-653 | the first failure is kept, the application is sealed, and a terminated one ignores it |
| Lifecycle.Owner.TimeOut | haystack-app/src/lifecycle.rs:662-671 | a timeout is a failure and the close result if there is none yet |
| Lifecycle.Owner.Complete | haystack-app/src/lifecycle.rs:672-689 | termination reports the first close result and the cleanup errors |
| Lifecycle.StepKeeps | haystack-app/src/lifecycle.rs:590-818 | every interleaved step keeps control, phase and resource events consistent |
| Lifecycle.SealIsFinal | haystack-app/src/lifecycle.rs:619-641 | after sealing nothing is admitted or spawned on any run, and finished work stays finished |
| Lifecycle.CloseIsFinal | haystack-app/src/lifecycle.rs:662-689 | the first close result, first failure and termination report are never revised |
| Lifecycle.TerminationIsEarned | haystack-app/src/lifecycle.rs:701-818 | at termination all guarded work has ended, the partly started resource was rolled back once, and each initialized one was closed once in reverse order; success is reported exactly when nothing failed, and the report names every cleanup error in order |

## Left out

- PostgreSQL history storage, entity mutations, the change feed, typed watches and the simulator.
- Error kinds of the preflight: page, chunk and layout checks state acceptance, not whether a refusal is Limit or Invalid.
- Parquet, Arrow, Zinc, JSON and digest encodings; a part is its row groups and its size, and a manifest its fields.
- Files, fsync, permissions, links, private directories and the two-name publication of a manifest.
- Header text and export ids: a recorded header is assumed to read back, and an export id to be well formed.
- Time zones, calendar ranges and the display of instants; an instant is an integer.
- Work, value and retained budgets of reads and subscriptions appear only as steps that may fail; pull budgets, view and delivery limits and capture limits are arithmetic.
- Lock waits, deadlines and wake-ups; leases are compared with a clock that only moves forward.
- Cursor tables, their encryption and expiry, and query filtering; a match is a predicate on names.
- Row order inside a delivery: a delivery's rows are a map from id to row, since every row carries its id.
- Reopening a store with a larger per-point capacity.
- Store.HisStore.PrepareSubmission: schema, policy and size checks only add reasons to refuse, and the point is created by a step of its own.
- Store.HisStore.PublishPlan: graph, policy and stop checks refuse a plan before it is published, which is a rejection step.
- FromSqlite.CheckPoints: whether a stored instant can be represented, and a row's columns agreeing with its payload, belong to the row codec.
- Registry.Owner.AdmitCreation: session identity is a number, so two sessions with one id are the same session.
- CaptureExport.Export: publication is proved for streams whose chunk reserves fit; that the Parquet, Arrow and JSON libraries stay within the margins the limits are built on is assumed, since the source measures it.
- Capture.Dataset.NextInner: files do not change while a dataset is read, so the second hash check always passes.
- Lifecycle.StepKeeps: the drain and stop deadlines are a choice of step, not a time.
