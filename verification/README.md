# Provelume protocol and publication model

This project models the parts of the Provelume repository whose correctness depends on more than one function: the
campaign ledger and its receipt chain, policy recovery over a commit history, resumable publication, the brand-asset
renderer and its file encoders, and the transactional installers and append-only histories. Every definition is plain
Dafny; every property below is a contract of a lemma or a method.

## Reading order

- `Basics`, `Text`, `StructuralDiff`, `CampaignState`: shared datatypes, strings and identifier grammars, the structural
  JSON difference and the dotted-path frame check, and the typed campaign with its JSON form. The frame theorem turns a
  string test on paths into the prefix order on positions, which is what lets a frame check on JSON say something about
  typed fields.
- `CampaignRules`, `Events`, `Receipts`: one state, one event with what it may change, and the chain of receipts with the
  replay loop that checks it. `Steps` and `ChainTheorems` prove what one step and a whole chain keep, `Append`,
  `Continuation`, `Initialization` and `Ideas` how a chain starts and grows, `Frames` which moves an event always allows,
  `Legacy` and `Migration` the schema-1 form and exactly which of its campaigns migrate, `Retraction` when a published
  campaign can lose its publication. `Examples` follows one campaign from its owner issue to a release and holds the
  campaigns at which the stated exceptions occur.
- `CommitDag`, `Policy`, `PolicyRecovery`: the elimination and search loops over a commit history, policy resolution,
  evidence freshness, the recovery plan and its verification.
- `Publication`, `PublicationRun`, `PublicationExamples`, `AssetPages`: the qualified bundle, the receipt, the kit and the
  readiness marker; the public record and the local stage as mutable objects; `prepare` and `finalize` as methods that may
  stop at any call; one bundle on which all of it happens.
- `PathPoints`, `Raster`, `Renderer`, `ByteOrder`, `Png`, `Ico`: path commands to outlines, the pointwise coverage rule, the
  span-filling buffers that refine it, and the PNG and ICO writers against independent readers.
- `VendorSync`, `Transfer`, `CiHistory`: installation with rollback, two-phase materialisation of a file inventory, the
  append-only history of workflow runs, and the first-parent walk that proves a merge.

## How the source's notions appear

- A digest is an ideal, injective one: a datatype term that contains what was digested. Equal digests mean equal contents.
- A refusal (`fail`, `require`, an exception) is `None`, `false` or a named outcome; nothing is excluded by a precondition
  that the source handles.
- An interruption of publication is a countdown of client calls; the call at which it reaches zero fails, and an upload
  or a creation in progress may or may not have happened.
- The old grammar's `\d` also admits digits beyond `0` to `9`; the parameter `extra` is that set of characters.
- Where the source folds the case of paths, the fold is a parameter: the theorems hold for every fold of names.
- Geometry is exact real arithmetic; a square root is a parameter with its defining property.

## What the proofs show about the code

- Resubmitting an accepted event returns the campaign unchanged, except when the event recorded an idea: then it is
  refused exactly when the last observed event names a slice and the idea's issue does not identify one
  (`Append.ReplayResult`; a campaign on which this happens is `Examples.ResubmissionIsRefused`).
- An idea can be recorded in any state of a campaign, with one exception: while the last observed event is the opening of
  a slice's issue, the receipt binding refuses every other issue (`Ideas.IdeaIsAccepted`; `Examples.IdeaIsRefused`).
- Publication is permanent in every chain that starts with an empty inbox, native or migrated
  (`ChainTheorems.PublicationIsPermanent`). It is not in general: the event of an idea that was in the inbox when the
  campaign was migrated passes the binding whatever else it changes. A published campaign can lose its publication in one
  append exactly when its inbox holds an idea whose event no receipt carries (`Retraction.RetractsExactly`;
  `Examples.PublicationIsLost`).
- A schema-1 campaign that the old validator accepts migrates exactly when its identifiers fit the narrower grammar, its
  train id is not `NONE`, and its observed event resolves (`Migration.MigratesExactly`).
- In `prepare`, a retained stage that holds another receipt than the public one makes the run refuse
  (`PublicationRun.PrepareQualified`; `PublicationExamples.StaleRun` reaches such a stage, for any two times of
  observation); a fresh stage never does (`PublicationRun.Rerun`).
- A vendor synchronisation that fails and is rolled back restores every file on a host with permission bits
  (`VendorSync.RollbackRestores`). On other hosts it restores the bytes, and the modes exactly when no replaced file had
  another mode than a new one gets (`VendorSync.RollbackKeepsBytes`). Directories made for new files stay, exactly when
  one was absent above an attempted item (`VendorSync.LeavesDirectories`; `VendorSync.LeftoverDirectory`).
- Some checks are redundant. The second routing check of the recovery planner cannot fail
  (`PolicyRecovery.CorrectedIsCoherent`). Neither can the digest and transition checks of `validate_append_only` between
  two valid campaigns of which one has exactly one receipt more (`Continuation.ContinuesExactly`).

## Model

| member | source | states |
|---|---|---|
| StructuralDiff.ChangedPathsExact | tools/agent_protocol_v1_4_1.py:1871-1892 | the difference lists the path of every topmost difference of two JSON trees and nothing else |
| StructuralDiff.ChangedPathsEmpty | tools/agent_protocol_v1_4_1.py:1871-1892 | the difference is empty exactly on equal values |
| StructuralDiff.DisagreementHasTopmost | tools/agent_protocol_v1_4_1.py:1871-1892 | values that disagree anywhere have a reported difference above or below that position |
| StructuralDiff.AllowedIsPrefix | tools/agent_protocol_v1_4_1.py:1895-1896 | on dot-free non-empty keys the dotted-string test is the prefix order on positions |
| StructuralDiff.FrameExact | tools/agent_protocol_v1_4_1.py:2061-2074 | on any two JSON trees, the frame check accepts exactly when every topmost difference is at or below an allowed position |
| StructuralDiff.FrameAgrees | tools/agent_protocol_v1_4_1.py:2061-2074 | after an accepted frame check any two JSON trees agree at every position neither at, below nor above an allowed one |
| CampaignState.StateJsonIsClean | tools/agent_protocol_v1_4_1.py:481-486 | the JSON form of every campaign has only keys for which the path test is exact |
| CampaignState.FramedKeepsTrain | tools/agent_protocol_v1_4_1.py:2061-2074 | a frame that does not touch the train keeps it as a typed value |
| CampaignState.FramedKeepsSlice | tools/agent_protocol_v1_4_1.py:2061-2074 | a frame that does not touch a slice keeps it, whatever its index |
| CampaignState.FramedKeepsLedger | tools/agent_protocol_v1_4_1.py:2061-2074 | a frame that does not touch a slice's ledger keeps every entry |
| CampaignRules.CheckLedger | tools/agent_protocol_v1_4_1.py:626-659 | the ledger loop accepts exactly numbered ledgers with one owner, distinct pull requests and only the last entry open |
| CampaignRules.CheckSlice | tools/agent_protocol_v1_4_1.py:708-739 | the per-slice checks decide slice validity and count its open pull request |
| CampaignRules.CheckSlices | tools/agent_protocol_v1_4_1.py:698-750 | one pass with two flags and two counters decides the pairwise rules: distinct ids, terminal first, one active, one open |
| CampaignRules.CountsDecide | tools/agent_protocol_v1_4_1.py:698-750 | for slices in good order, the two counts are at most one exactly when the pairwise rules hold |
| Receipts.ReplayReceipt | tools/agent_protocol_v1_4_1.py:1159-1275 | one replay step reconstructs the state after a receipt, or refuses exactly when its effect is not permitted |
| Receipts.KeysAreNew | tools/agent_protocol_v1_4_1.py:1145-1150 | distinct event identities give distinct idempotency keys, so the key check never adds a refusal |
| Receipts.ValidateReceipts | tools/agent_protocol_v1_4_1.py:1097-1306 | the replay loop accepts exactly the valid chains: linked, reconstructing every state, with every effect permitted, ending in the campaign's own state |
| Steps.StepShape | tools/agent_protocol_v1_4_1.py:2004-2074 | a receipt extends the idea inbox, or moves at most the one slice its event names, or only the train |
| Steps.PublishStep | tools/agent_protocol_v1_4_1.py:926-1090 | a train becomes published only by a release event that carries the published build |
| Steps.PublishedStays | tools/agent_protocol_v1_4_1.py:2004-2074 | no later step changes the state, version or build of a published train |
| Steps.HistoryKeeps | tools/agent_protocol_v1_4_1.py:662-695 | a continued ledger keeps every non-open entry and changes at most the open last one |
| Steps.FinishedLedgerFrozen | tools/agent_protocol_v1_4_1.py:662-695 | a finished slice's ledger never changes again |
| Steps.StepKeeps | tools/agent_protocol_v1_4_1.py:2077-2110 | one step keeps identity, slice order, assigned issues, terminal states and settled ledger entries |
| Steps.ObservedEntry | tools/agent_protocol_v1_4_1.py:926-1090 | the binding of a closing or merging event points at one entry whose own event it is |
| Steps.TerminalStep | tools/agent_protocol_v1_4_1.py:926-1090 | an entry is closed or merged by its own event, unless that event had already closed or merged an older entry |
| ChainTheorems.StepAt | tools/agent_protocol_v1_4_1.py:1222-1275 | every receipt after the first is one bound, valid transition between reconstructed states |
| ChainTheorems.ChainKeeps | tools/agent_protocol_v1_4_1.py:1097-1306 | for all earlier and later states of a chain, the later keeps all that the earlier settled |
| ChainTheorems.InboxProvenance | tools/agent_protocol_v1_4_1.py:2012-2023 | in every valid chain an idea in the inbox was there at first or was recorded by a receipt with that idea's event |
| ChainTheorems.EveryReceiptObserves | tools/agent_protocol_v1_4_1.py:926-1090 | every later receipt of a valid chain records an idea, observes its own event, or carries an idea that was there at first |
| ChainTheorems.TerminalProvenance | tools/agent_protocol_v1_4_1.py:926-1306 | in a native chain every closed or merged entry was made so by a receipt that carries exactly that entry's event |
| ChainTheorems.PublishedProvenance | tools/agent_protocol_v1_4_1.py:926-1306 | in a native chain the published build was introduced by a release event that carries that commit |
| ChainTheorems.PublicationHolds | tools/agent_protocol_v1_4_1.py:926-1306 | a published train keeps state, version and build as long as no receipt carries an idea that was there at first |
| ChainTheorems.PublicationIsPermanent | tools/agent_protocol_v1_4_1.py:1097-1306 | in every chain that starts with an empty inbox, once published, every later state keeps state, version and build |
| Retraction.RetractionNeedsIdea | tools/agent_protocol_v1_4_1.py:943-967 | an append that takes a publication back carries the event of an idea in the inbox that no receipt carries |
| Retraction.UnspentRetracts | tools/agent_protocol_v1_4_1.py:943-967 | every such idea lets one append take the publication back |
| Retraction.RetractsExactly | tools/agent_protocol_v1_4_1.py:943-967 | a published campaign can lose its publication in one append exactly when its inbox holds such an idea |
| Initialization.InitializedIsValid | tools/agent_protocol_v1_4_1.py:826-913 | an initial state with its one receipt is a valid native campaign exactly when its owner issue fits an event reference |
| Append.ExtendedIsValid | tools/agent_protocol_v1_4_1.py:2140-2160 | after a valid transition, the extended chain is valid exactly when the event is new and bound to the new state |
| Append.AppendTransitionReceipt | tools/agent_protocol_v1_4_1.py:2113-2160 | appending and re-checking the whole chain accepts exactly what the rule on the last state and event accepts |
| Append.AppendIsValid | tools/agent_protocol_v1_4_1.py:2113-2160 | an accepted append is a valid campaign that retains every receipt and adds at most one |
| Append.IdleTransition | tools/agent_protocol_v1_4_1.py:2004-2074 | an event that changes nothing is a valid transition unless it must name one slice and does not |
| Frames.SliceEventIsFramed | tools/agent_protocol_v1_4_1.py:2024-2074 | a state that differs only in the progress fields and in the fields its event owns in one slice passes the frame check |
| Frames.TrainEventIsFramed | tools/agent_protocol_v1_4_1.py:2024-2074 | the same for the train fields of a release or upstream event |
| Frames.SliceEventTransits | tools/agent_protocol_v1_4_1.py:2004-2110 | a slice event that moves its own slice as a valid continuation, and nothing else, is a valid transition |
| Frames.TrainEventTransits | tools/agent_protocol_v1_4_1.py:2004-2110 | a candidate or release event that moves only its train fields is a valid transition |
| Append.ReplayResult | tools/agent_protocol_v1_4_1.py:2124-2137 | resubmitting an accepted event returns the result unchanged, with the exact exception for recorded ideas |
| Append.HeadFixesCampaign | tools/agent_protocol_v1_4_1.py:470-517 | equal last receipt digests mean identical receipts and identical states |
| Ideas.IdeaIsFramed | tools/agent_protocol_v1_4_1.py:2004-2074 | recording an idea changes nothing outside the inbox items, whatever the campaign |
| Ideas.IdeaStateIsValid | tools/agent_protocol_v1_4_1.py:531-545 | a valid state with one more idea is valid exactly when the idea is a new issue |
| Ideas.IdeaIsAccepted | tools/agent_protocol_v1_4_1.py:2113-2160 | exactly when a valid campaign accepts a new idea |
| Examples.MergedExample | tools/agent_protocol_v1_4_1.py:2113-2160 | a native campaign of four receipts reaches a merged pull request |
| Examples.ReleasedExample | tools/agent_protocol_v1_4_1.py:2113-2160 | two receipts later the campaign is published |
| Examples.IdeaIsRefused | tools/agent_protocol_v1_4_1.py:926-967 | behind the opening of a slice's issue, a new idea of that campaign is refused |
| Examples.ResubmissionIsRefused | tools/agent_protocol_v1_4_1.py:2124-2137 | behind its merge, an idea is accepted once and its resubmission is refused |
| Examples.PublicationIsLost | tools/agent_protocol_v1_4_1.py:943-967 | a migrated published campaign whose inbox holds one idea loses its publication in one accepted append |
| Continuation.ContinuesExactly | tools/agent_protocol_v1_4_1.py:2163-2178 | between valid campaigns the continuation check accepts exactly equality or one appended receipt |
| Continuation.AppendContinues | tools/agent_protocol_v1_4_1.py:2113-2178 | every accepted append passes the continuation check |
| Continuation.ContinuationsKeep | tools/agent_protocol_v1_4_1.py:2163-2178 | over any number of continuations no receipt is rewritten and nothing settled is lost |
| Migration.StateProjects | tools/agent_protocol_v1_4_1.py:1727-1844 | an accepted old state projects onto an accepted new one exactly when its identifiers fit and its train id is not NONE |
| Migration.EventProjects | tools/agent_protocol_v1_4_1.py:1663-1724 | the inferred event is valid exactly when its reference is short enough |
| Migration.MigratesExactly | tools/agent_protocol_v1_4_1.py:1727-1844 | exactly which schema-1 campaigns migrate |
| Migration.MigratedIsValid | tools/agent_protocol_v1_4_1.py:1792-1844 | a projected campaign with its one receipt passes the schema-2 validator |
| Migration.OldValidNarrow | tools/agent_protocol_v1_4.py:382-556 | an old campaign whose identifiers fit the new grammar is accepted without the wider digits too |
| Migration.MigrationIsIdempotent | tools/agent_protocol_v1_4_1.py:1727-1744 | migrating a migrated campaign returns it unchanged |
| CommitDag.Prepare | tools/agent_protocol_v1_4_9.py:400-410 | the children lists and parent counts are exactly the inventory's edges |
| CommitDag.Release | tools/agent_protocol_v1_4_9.py:413-419 | taking one commit away keeps every count equal to the parents still pending and queues exactly the freed commits |
| CommitDag.Eliminate | tools/agent_protocol_v1_4_9.py:411-420 | taking queued commits in any order, the elimination processes every commit exactly when the parent relation inside the inventory has no cycle |
| CommitDag.StuckHasCycle | tools/agent_protocol_v1_4_9.py:411-420 | a non-empty set in which every commit has a parent in the set contains a cycle |
| CommitDag.Search | tools/agent_protocol_v1_4_9.py:421-428 | the search ends with exactly the commits a parent walk from the head reaches |
| CommitDag.TrailsEndAtAnchors | tools/agent_protocol_v1_4_9.py:369-428 | in an acyclic gap-free history every maximal trail ends at an anchor within the inventory's size |
| Policy.EvidenceFreshness | tools/agent_protocol_v1_4_9.py:226-282 | the loop classifies each row by its dependencies, in order, or refuses a malformed inventory |
| PolicyRecovery.CheckHistory | tools/agent_protocol_v1_4_9.py:369-428 | scan, elimination and search together accept exactly the gap-free acyclic histories reachable from the head |
| PolicyRecovery.AcceptedHistoryIsAnchored | tools/agent_protocol_v1_4_9.py:369-428 | in an accepted history every parent trail from the head ends at an exact anchor within the inventory's size |
| PolicyRecovery.PlanPolicyRecovery | tools/agent_protocol_v1_4_9.py:285-525 | a plan is made exactly when every requirement holds, and is the signed body of the observations |
| PolicyRecovery.CorrectedIsCoherent | tools/agent_protocol_v1_4_9.py:437-476 | the derived policy is always coherent with the route and differs from the checkpoint's |
| PolicyRecovery.PlanIsAccepted | tools/agent_protocol_v1_4_9.py:528-600 | every plan the planner makes passes the verifier's checks on plans |
| PolicyRecovery.PlanRoundTrip | tools/agent_protocol_v1_4_9.py:528-665 | the verifier accepts exactly the planned child of a made plan at matching coordinates |
| PolicyRecovery.ReuseAfterCompensation | tools/agent_protocol_v1_4_9.py:226-282 | after compensation every row keeps its place, id and result; of the rows reusable before, those on HEAD or POLICY are stale and those on settled coordinates stay reusable |
| Publication.NamesDistinct | scripts/publication_receipt.py:29-49 | qualified and generated names are distinct even when case is ignored |
| PublicationRun.PublicRecord.UploadOnce | scripts/publication_publish.py:98-107 | a public asset is never overwritten; the call succeeds exactly when the asset is these bytes or was absent |
| PublicationRun.UploadBundle | scripts/publication_publish.py:168-171 | adds only missing qualified files and keeps the record safe wherever it stops |
| PublicationRun.SafeInventory | scripts/publication_receipt.py:52-84 | a safe record that holds the required names passes the name rules of the inventory check of that phase |
| PublicationRun.CreatedReceiptIsGood | scripts/publication_receipt.py:87-155 | a created receipt identifies the event and the bundle, and an existing receipt is returned byte for byte |
| PublicationRun.ReceiptIsCreated | scripts/publication_receipt.py:87-155 | a viable event with its payloads public always yields a receipt, reusing one that fits |
| PublicationRun.PrepareQualified | scripts/publication_publish.py:110-196 | keeps the record safe at every stop, leaves a receipt and kit that fit, refuses a stage that disagrees with the record, and never fails when uninterrupted with an agreeing one |
| PublicationRun.FinalizeQualified | scripts/publication_publish.py:199-251 | keeps the record safe at every stop; success means payloads, receipt, kit and marker are public and exact |
| PublicationRun.ReadyIsFinal | scripts/publication_dry_run.py:152-157 | once the marker is public no safe run can add or change anything |
| PublicationRun.Run | scripts/publication_publish.py:110-251 | either phase on any bundle, in any stage, stopped anywhere, keeps the record safe and every public asset |
| PublicationRun.RunSchedule | scripts/publication_dry_run.py:132-157 | any schedule of interrupted runs in fresh or retained stages keeps safety and creates the release at most once |
| PublicationRun.Rerun | scripts/publication_dry_run.py:148-154 | from any such state one uninterrupted run in a fresh stage reaches the marker and changes no public asset |
| PublicationRun.Exercise | scripts/publication_dry_run.py:132-161 | interrupted runs, one complete run and a repetition end complete with exactly one creation |
| PublicationExamples.StaleStage | scripts/publication_publish.py:172-186 | for any viable job, two preparations at different times and one finalization leave an own stage that disagrees with the record |
| PublicationExamples.StaleRun | scripts/publication_publish.py:172-186 | a further run in that stage refuses, with calls to spare and a safe record |
| PublicationExamples.ExampleRuns | scripts/publication_dry_run.py:132-161 | the rehearsal of a concrete bundle ends complete with one creation under any schedule, and its stale run is refused |
| AssetPages.ReadAll | scripts/publication_publish.py:50-82 | for any four pages the loop returns the rows up to the first page that is not full, or refuses exactly as the page and total bounds demand |
| AssetPages.UnchangingList | scripts/publication_publish.py:50-82 | when the pages serve one list the loop returns all of it, and refuses exactly the lists of more than 300 assets |
| PathPoints.BlendInRange | scripts/generate_windows_icon.py:105-116 | a cubic with bounded control points stays within the bounds |
| PathPoints.TraceOnCanvas | scripts/generate_windows_icon.py:73-119 | no vertex leaves the canvas; the outline ends at the cursor, or where it started when it closes |
| PathPoints.Points | scripts/generate_windows_icon.py:73-119 | over letters and numbers, the parser's loop accepts exactly the bounded spellings of paths with one leading move and gives their trace |
| PathPoints.SpellRoundTrip | scripts/generate_windows_icon.py:82-92 | reading the tokens of any command list gives back that list |
| PathPoints.CommandsAreSpelled | scripts/generate_windows_icon.py:82-92 | tokens that read as commands are exactly the spelling of those commands |
| Raster.CrossingsPairUp | scripts/generate_windows_icon.py:226-231 | a closed outline crosses every row an even number of times, so the strict pairing never fails |
| Raster.NothingOutside | scripts/generate_windows_icon.py:212-220 | a shape covers nothing outside the rows the renderer visits |
| Raster.SortCounts | scripts/generate_windows_icon.py:230 | sorting the cuts changes no count of cuts at or left of a point |
| Raster.PairsAreOdd | scripts/generate_windows_icon.py:230-231 | paired spans of sorted cuts hold a point exactly when an odd number of cuts is at or left of it |
| Raster.PolygonSpans | scripts/generate_windows_icon.py:226-231 | the spans of a polygon row are exactly its even-odd interior |
| Raster.DiscSpan | scripts/generate_windows_icon.py:222-224 | the span of a disc row is exactly the disc with its left edge and without its right one |
| Raster.ClippedRange | scripts/generate_windows_icon.py:232-234 | the clipped integer range holds exactly the pixel centres inside the real interval |
| Renderer.FillSpan | scripts/generate_windows_icon.py:235-238 | a span write changes exactly the addressed pixels, inside the buffer |
| Renderer.FillRow | scripts/generate_windows_icon.py:232-238 | one row changes exactly at the centres its spans hold |
| Renderer.FillShape | scripts/generate_windows_icon.py:208-238 | a shape paints exactly the samples it covers by the pointwise rule |
| Renderer.PaintAll | scripts/generate_windows_icon.py:204-238 | the sample buffer holds the painter's rule at every sample; it is refused exactly when a colour is not six hexadecimal digits or a polygon has no points |
| Renderer.TotalBounded | scripts/generate_windows_icon.py:242-251 | weighted sums never exceed 255 times their weight, so every averaged channel is a byte |
| Renderer.EdgeKeepsInk | scripts/generate_windows_icon.py:252-263 | on the edge of one ink the colour is that ink and only the opacity is the covered fraction |
| Renderer.Rgba | scripts/generate_windows_icon.py:204-265 | every output pixel is the average of the pointwise painter's rule over its sixteen samples; refused exactly for such a shape |
| Png.ChunkRoundTrip | scripts/generate_windows_icon.py:268-269 | reading a written chunk gives back kind, data and rest (section 3.2 of RFC 2083) |
| Png.FilterRoundTrip | scripts/generate_windows_icon.py:274 | filter-zero scan lines of any stride give back the data (section 6.2 of RFC 2083) |
| Png.StoredRoundTrip | scripts/generate_windows_icon.py:275-283 | a stored-block reader takes every block and stops at the last one, which alone is final (section 3.2.4 of RFC 1951) |
| Png.PiecesJoin | scripts/generate_windows_icon.py:275 | the pieces of at most 65535 bytes join to the rows |
| Png.CompressionRoundTrip | scripts/generate_windows_icon.py:276-285 | the wrapper's header and checksum are accepted and give back the rows (section 2.2 of RFC 1950) |
| Png.WriteRoundTrip | scripts/generate_windows_icon.py:272-291 | reading a written PNG gives back its size and every pixel byte, for every size |
| Png.IconSizesFit | scripts/generate_windows_icon.py:18 | every size up to 256 fits the four-byte fields |
| Ico.Write | scripts/generate_windows_icon.py:294-303 | the running-offset loop writes the specified layout, and refuses exactly when a field overflows |
| Ico.PayloadIsTiled | scripts/generate_windows_icon.py:295-302 | the images tile the rest of the file in order, without gap or overlap |
| Ico.EntryRoundTrip | scripts/generate_windows_icon.py:298-302 | each directory entry's offset and length slice back exactly its own image and size |
| Ico.ReadRoundTrip | scripts/generate_windows_icon.py:294-303 | a reader that follows the directory recovers every size and image |
| VendorSync.SyncedMeansNoDrift | tools/agent_protocol_v1_4_2_ops.py:775-777 | the drift list is empty exactly when every destination has the planned bytes and executable bit |
| VendorSync.Checkout.Install | tools/agent_protocol_v1_4_2_ops.py:787-804 | an installation replaces exactly the changed files before the fault, with planned bytes and otherwise preserved modes, and makes the directories above those it attempts |
| VendorSync.Checkout.Rollback | tools/agent_protocol_v1_4_2_ops.py:805-813 | a rollback puts back every replaced file and removes every new one, in reverse order; stopped early, it leaves exactly the first of them installed |
| VendorSync.InstalledIsSynced | tools/agent_protocol_v1_4_2_ops.py:787-804 | after all replacements every destination is in sync and unplanned files are untouched |
| VendorSync.Checkout.Sync | tools/agent_protocol_v1_4_2_ops.py:767-814 | the exact files and directories after a run, for every fault: all items installed, or all put back; check mode never writes and a repetition changes nothing |
| VendorSync.RollbackRestores | tools/agent_protocol_v1_4_2_ops.py:805-813 | with permission bits a completed rollback leaves exactly the files there were |
| VendorSync.RollbackKeepsBytes | tools/agent_protocol_v1_4_2_ops.py:805-813 | without them all bytes are back, and all modes exactly when no replaced file had another than a new one gets |
| VendorSync.LeavesDirectories | tools/agent_protocol_v1_4_2_ops.py:797 | a run leaves a new directory exactly when one was absent above some attempted item |
| VendorSync.LeftoverDirectory | tools/agent_protocol_v1_4_2_ops.py:787-813 | a rolled-back installation of one new file leaves its directory |
| Transfer.AcceptedIsConflictFree | tools/agent_protocol_transfer.py:146-194 | for every fold of components, the collision checks accept exactly inventories with no folded duplicate and no file above another |
| Transfer.CheckPaths | tools/agent_protocol_transfer.py:146-194 | the two loops over folded paths and parents decide that freedom of conflict |
| Transfer.CheckHistory | tools/agent_protocol_transfer.py:104-128 | the history loop accepts exactly paths of distinct, well-formed commits on a root outside them |
| Transfer.Tree.Check | tools/agent_protocol_transfer.py:428-487 | the check phase writes nothing and accepts exactly the ready destinations, symbolic links and the destination root included |
| Transfer.Tree.WriteRow | tools/agent_protocol_transfer.py:488-495 | writing a row never meets a path conflict and disturbs no other row |
| Transfer.Tree.Materialize | tools/agent_protocol_transfer.py:428-501 | nothing is written unless every check passes; the result has exactly the manifest's files and bytes; a repetition changes nothing |
| CiHistory.CheckRuns | tools/agent_protocol_v1_4_2_ops.py:298-352 | the map of latest runs decides unique ids, required evidence and the success of each latest run |
| CiHistory.ValidateCi | tools/agent_protocol_v1_4_2_ops.py:275-352 | an observation is accepted exactly when it is fresh, names its repository and head, is well formed and holds the required evidence |
| CiHistory.CheckJobs | tools/agent_protocol_v1_4_2_ops.py:376-384 | the job table decides that every job is still there and every completed one unchanged |
| CiHistory.CheckAppendOnly | tools/agent_protocol_v1_4_2_ops.py:366-384 | the run table decides that every earlier run is retained |
| CiHistory.HistoryIsKept | tools/agent_protocol_v1_4_2_ops.py:356-384 | along any accepted sequence every later observation keeps identity and every run of every earlier one |
| CiHistory.CompletedStays | tools/agent_protocol_v1_4_2_ops.py:356-384 | completed attempts and jobs never change and no job id of an earlier attempt is lost |
| CiHistory.ValidateMerge | tools/agent_protocol_v1_4_2_ops.py:515-546 | accepts exactly fresh connector evidence that binds the accepted content, with a non-repeating first-parent walk of exact commits from the default branch to the merge |

## Left out

- Closed objects: the source's exact-key and closed-choice checks on JSON objects become the typed records, so malformed JSON is not represented.
- SHA-256 and CRC-32: digests are ideal terms and the CRC is a parameter; collisions are not represented. Asset digests that the public record reports are taken to be the assets' own.
- `CampaignRules.CheckSlices`: identifiers are compared as strings; the pattern engine of the source appears only through the stated grammars.
- Campaign handoffs, bundles, word counts and the conformance fixture: checks on one value without run behaviour.
- `PublicationRun.SafeInventory`: an asset row is its name and bytes; the upload state and size of a row are not represented, so the refusals of incomplete or oversized assets are not.
- `PublicationRun.ReceiptIsCreated`: for the same reason the refusals for an asset's state, size and reported digest are not represented.
- `PublicationRun.PrepareQualified`: nor are they here, nor size limits of metadata files; clocks are arguments, and a release lookup is one call although it reads several pages (an interruption between pages changes nothing public).
- `PublicationRun.PublicRecord.Create`: an interrupted creation leaves any part of the files public; half-uploaded assets and concurrent publishers are not represented.
- Kit archives: a kit is its member map and an encoding number; the archive's byte format is not represented.
- Canonical metadata: the helpers of `provelume.publication` appear by contract (write if absent, else require equal; identity determines bytes).
- `AssetPages.ReadAll`: a page that is not a JSON list does not occur, and the four answers are given at once.
- `Renderer.Rgba`: floating-point rounding is not represented; the XML scene and the stroke outlines that build shapes are not part of this model.
- `PathPoints.Points`: the path is a sequence of letters and numbers; the pattern that splits a string into them and the refusal of other characters are not represented.
- `VendorSync.Checkout.Sync`: reading the canonical commit and rendering the provenance files happen before it; the directories above one item are made together, and only faults that the source catches occur.
- `Transfer.Tree.Materialize`: the envelope of the manifest, the dependency records and the trusted digest are compared before it; the host keeps an executable bit.
- Qualification, diagnosis, packaging, interface and bootstrap scripts, pull-request bodies, waits and audits: host plumbing or checks on one value.
