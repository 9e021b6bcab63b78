# Tally, modelled and proved

Tally keeps a version history for coding agents. A **manifest** maps paths to records (mode, path, blob), a
**patch** has two forms, an *intent* (ops that find their place by searching for text) and a *realized* delta (records
removed and added), and a **line** of a fork's log carries both, together with the sum the state must have afterwards.
Tally's claim is that states are sums, deltas are group elements, and several independent replays of one history agree.
This project models the parts of Tally where that claim is at stake and proves them in Dafny 4.11.

    dafny verify dfyconfig.toml

## How things are modelled

- **Hashes.** A hash names exactly one content, so a blob hash is the bytes it names and the pool is the set of
  contents it holds. A line's id covers everything in the line, `prev` included, so an id is the line itself. A
  segment's id covers its entry table and payload, so a segment is its list of entries.
- **Sums.** A manifest sum is an element of the free abelian group on records (`Setsum`), and a segment's image sum is
  a multiset of blobs and (fork, line) pairs (`Images`). The eight columns of residues that the code computes with are
  a homomorphic image of the ideal sum (`Columns`).
- **Bytes.** Contents and log files are sequences of bytes. UTF-8 validity, character boundaries and the encoding of
  characters are explicit where the code relies on them.
- **State.** `Manifest`, `Track`, `Session` and `Repository` are classes whose methods change their fields in place,
  each tied by its contract to a function of the old state. The race of many pushing clients is a state machine over
  the store's sequence of manifests, with one action per step a client takes (`Wire`).
- **What comes from outside.** The clock, the author, the packed length of a segment, the length of a serialized line
  and the parser of transcript calls into intents are parameters.

## What is proved, core by core

1. **The session planner** (`Tracks`, `Programs`, `Planner`, `PassState`, `Sessions`, `Pieces`, `Regions`, `Alignment`,
   `Planning`). A planned edit is found by searching, so rewriting an earlier edit could move or hide a later one. The
   proof gives every op the offset it had when planned. Replay by offset always succeeds after a fold; where the strict
   replay by search succeeds too, it must have found those offsets, so absorption preserves what the session did. Where
   strict replay declines, the unwound plan lands every call as written. Every byte's origin is carried along, so a
   region of the working tree is folded into an op only where that op wrote the bytes it replaces.
2. **The push protocol** (`Segments`, `Serve`, `Remote`, `Delta`, `PlanPush`, `Folding`, `Images`, `Assembly`, `Swap`,
   `SwapGood`, `Wire`). For every interleaving of any number of clients each log only grows, no fork disappears, what
   is published can be unpacked, diverged forks are refused, and folding conserves the image.
3. **Patches, logs and union** (`Patch`, `Setsum`, `Columns`, `Strata`, `Logs`, `Repo`, `Reenact`, `Tripwire`,
   `Unions`, `UnionLaws`, `MergeOrder`, `Restoring`, `AnchorSearch`, `Restorable`).
4. **Diffs and edit synthesis** (`Diff`, `Lines`, `Utf8`, `Synth`, `Commit`, `ReplaceAll`), **blame and constructs**
   (`Blame`), and **canonical text and the log file** (`Encoding`, `Json`, `LogFile`).

Four expectations one could have of the code, or that its own comments state, are false, and the model says exactly when
they hold.

- *Blame shows the manifest.* `blame_path` replays intents only, and `append_realized_batch` and `repoint` land lines
  that have none. The file such a line adds is in the manifest and not in blame (`Blame.SilentLineHides`). After any
  stretch of lines whose intents do not name a path, blame still shows it exactly where they left it as it was
  (`Blame.SilentLinesShow`). A repository re-enacts when each line's intent reaches what its delta records wherever the
  delta adjudicates; applying, snapshots, forks and unions keep that, `apply_realized` does if and only if the intent it
  is given re-enacts the delta, a batch does if and only if no draft moves anything, and in every repository that
  re-enacts blame shows the head (`Blame.BlameShowsHead`).
- *Re-running an intent agrees with replaying its delta.* It does exactly where the delta still adjudicates
  (`Strata.StrataAgree`); elsewhere the intent may realize something else, and union then records the new realization.
- *Restore finds every anchor; snapshots do not get in its way* (src/serve.rs:442-444). The search counts the forks a
  round crosses off, not the states it learns, so it can give up one round short. A fork made from a parent that is then
  moved back to an earlier state and snapshotted there is enough (`Restorable.SnapshotStalls`). It fails exactly where a
  round brings no anchor while one is missing (`AnchorSearch.ResolveAnchors`), which never happens where every fork
  began at its parent's anchor or past it (`Restorable.RootedRestores`).
- *A replace-all edit gets the smallest unique window of whole lines* (src/patch.rs:265-269). Both sides widen together,
  so the window is the first unique one of that series (`ReplaceAll.UniqueWindow`), and a smaller one may do
  (`ReplaceAll.NotTheSmallest`).

## Model

| member | source | states |
|---|---|---|
| Planning.Plan | src/claude.rs:820-899 | pass 1 leaves one program that lands by offset; of the regions the line diff finds between its contents and the working tree, exactly those that lie in one op's bytes, by the origins of that program, and whose op can take all of its pieces are taken; the aligned plan is landed exactly where it replays strictly, and then ends at the calls' own state with the tree's bytes in those regions and nowhere else, otherwise the calls are landed as written and nothing is taken; no accepted call is lost, a landed intent differs from the call's own in `new_str`s alone, errors are exactly pass 1's, and there is none where every blob is pooled |
| Planner.StrictIsPinned | src/claude.rs:904-939 | a rewritten plan that lands by offset and whose strict replay (every search unique) succeeds ends at the state the offsets give |
| Programs.FoldKeeps | src/claude.rs:1013-1089 | folding a rewrite of bytes one op wrote into that op, however many ops lie between: the program still lands by offset, its state is the old one with that one splice, and the origin of every other byte is unchanged |
| Planning.FallbackIsExact | src/claude.rs:943-969 | the unwound plan lands every call pass 1 accepted, skips none, and ends at pass 1's manifest, under strict and lenient replay alike |
| Tracks.AttributionInvariant | src/claude.rs:676-750 | after any sequence of edits and rewrites, runs are sorted and disjoint, pieces of one op keep disjoint ascending `at` ranges, and each run's slice of the content is its op's slice of the op's current `new_str` |
| Tracks.Track.Edit | src/claude.rs:676-725 | the runs and scars after an edit are those of `EditRuns` and `EditScars`, which the attribution proof ties to the provenance of every byte |
| Tracks.Track.RewriteWithin | src/claude.rs:731-750 | a rewrite inside one run grows that run and shifts the later runs, the later pieces of its op, and the scars |
| Tracks.EditMarked | src/claude.rs:676-725 | after an edit a scar still stands, moved along, wherever bytes of the base content were lost between two that are now neighbours |
| Tracks.RewriteMarked | src/claude.rs:731-761 | and so after a rewrite, whose splice only moves scars or swallows those inside it |
| Tracks.UnownedUnscarredIsBase | src/claude.rs:764-771 | a stretch with no owner and no scar strictly inside is one contiguous stretch of the content before the session |
| Planner.Replay | src/claude.rs:904-939 | strict and lenient replay of a plan: what lands, what is skipped, and when strict replay declines |
| Sessions.Session.Stage | src/claude.rs:974-991 | every path the intent names is staged at what the manifest holds, where the pool has it and no content is carried already; nothing else of the session moves |
| Sessions.Session.Absorb | src/claude.rs:1013-1089 | a call folds exactly where each of its ops is a unique edit inside bytes of one and the same earlier call; then that one line takes new `new_str`s and lists the call, and the plan still lands by offset on the state the call left; where it does not fold, nothing has changed |
| Sessions.Session.AttributeOne | src/claude.rs:1097-1140 | one op attributed: its bytes become a run of it, the path's carried content is spliced, and no other path's notes move |
| Sessions.Session.Attribute | src/claude.rs:1097-1140 | a call's ops attributed in order keep every track in step with the provenance of the plan so far |
| Planning.Unwind | src/claude.rs:943-969 | absorbed calls and aligned lines go back to their faithful intents, one by one |
| Regions.StrippedIsNarrowed | src/claude.rs:1154-1170 | trimming the common head and tail of a changed region leaves a region with the same effect |
| Regions.Trim | src/claude.rs:1154-1170 | the trimmed region lies in the one given, has its effect, and has no byte in common left at either end |
| Regions.OwnerIsHeld | src/claude.rs:1173-1185 | the run found to contain a trimmed region does own its bytes: they are the op's own, in order, from the seat it names |
| Alignment.AlignOp | src/claude.rs:1308-1350 | an op widened over the bytes named beside it takes all of the tree's pieces or none: none exactly where they are out of order or a cut falls inside a character |
| Alignment.WidenedLands | src/claude.rs:1240-1276 | wherever an op's text is unique and the bytes it widens over stand beside it, the widened text is unique as well, and replacing it lands what the op landed with each piece in its place |
| Alignment.AlignOps | src/claude.rs:1197-1302 | the loop over owned regions rewrites each owning op once, by all of its pieces, whatever the order; the others stand as written |
| Alignment.SeatsInOrder | src/claude.rs:1326-1341 | the pieces of one op ascend without overlap, as its regions do, so its sort changes nothing and its order check never fails |
| Alignment.Align | src/claude.rs:1197-1302 | the plan becomes pass 1's plan aligned by what each path gives to the tree, a function of pass 1's notes and the tree; it still lands by offset, on the old state with the tree's bytes in just those regions, and each of them is one the line diff found and bytes its op wrote, in order |
| Alignment.WholeOverlayIsTree | src/claude.rs:1197-1302 | where every changed region of a path is taken, the path is the working tree's |
| Wire.PushSafety | src/wire.rs:295-357 | over every interleaving of any number of clients, no fork of a published manifest is missing from a later one, and its log there extends the earlier log |
| Wire.StoreOnlyGrows | src/wire.rs:106-117 | put-if-absent: what is published stays published, in every run |
| Wire.ReachableUnpacks | src/delta.rs:191-319 | in every reachable manifest every blob is stored once, all segments are uploaded, chains are acyclic and within the limit, and every construct resolves |
| Wire.DecisionsAreRight | src/delta.rs:130-189 | in every reachable world the planner's verdict on a fork (in sync, ahead, behind, diverged) is how its log stands to the store's |
| Wire.BehindIsBehind | src/delta.rs:130-189 | a fork left alone because its head was synced before really is a proper prefix of the store's |
| Wire.DivergedCannotStart | src/delta.rs:130-189 | a client with a fork that neither extends nor is extended by the store's cannot start a push at all |
| Wire.Prepare | src/wire.rs:295-357 | discover, load, plan and assemble: over a good store the attempt is honest and over the latest manifest; the one refusal that is a caller's fault is a diverged fork, exactly |
| Delta.DecideIsSafe | src/delta.rs:130-189 | a fork is pushed past exactly where the store's log is a prefix of the local one; anything else is left alone or refused |
| PlanPush.DecideForks | src/delta.rs:130-189 | the heads and synced ids a plan carries are those of all forks in sync or ahead, unless one diverged |
| PlanPush.LineCandidates | src/delta.rs:208-235 | a pushed line adds one candidate for each blob to send that it adds and none before it did, each with the base its own entries give for that path |
| PlanPush.Collect | src/delta.rs:196-236 | candidates name distinct blobs to send, and every such blob that a pushed line adds is named |
| PlanPush.Classify | src/delta.rs:238-295 | at the fixpoint every candidate is a construct exactly where its base's depth is below the keyframe interval and the replay gives the blob, one deeper than its base; all others are keyframes, and those for want of a depth have a base that is neither stored nor sent, is no candidate, or is stuck as well |
| Assembly.PlanOf | src/delta.rs:117-321 | an error exactly where a fork diverged (or a base cannot be read); else a plan that sends exactly the pool's missing blobs, each once and resolvable, and each fork's missing lines |
| Delta.CompactionCandidates | src/delta.rs:340-364 | the greatest set of small segments that is a suffix of every fork's list |
| Folding.FoldInputs | src/delta.rs:410-502 | reading folded segments back: an error exactly where a span is misfiled (two of one fork, or of a fork that does not list the segment); else their entries and each fork's folded lines in list order |
| Folding.NoneMisfiled | src/delta.rs:410-502 | over a good manifest no span is misfiled |
| Folding.JoinedDistinct | src/delta.rs:586-594 | over a good manifest nothing folded is stored twice, nor sent again |
| Images.ImageConserved | src/delta.rs:604-617 | built image = folded image + pushed entries, for every honest attempt, whatever was folded and wherever it was cut |
| Images.SwapDelta | src/serve.rs:147-149 | across a swap the total image grows by exactly the pushed entries, and by nothing for a pure compaction |
| Assembly.Assemble | src/delta.rs:543-662 | assembly over a good manifest never fails a check, makes an honest attempt, and returns nothing exactly for an empty plan |
| Swap.NextLog | src/delta.rs:619-630 | after a swap each fork's log is its old log followed by its pushed span, whatever was folded and wherever segments were cut |
| SwapGood.SwapIsGood | src/delta.rs:543-662 | a push over a good manifest publishes a good one that extends it: lists live and without repeats, spans listed, blobs stored once, chains bounded |
| SwapGood.SwapCarriesBlobs | src/delta.rs:543-662 | afterwards the store holds what it held and the pusher's whole pool |
| SwapGood.SwapCarriesLogs | src/delta.rs:619-630 | every fork the push publishes reads exactly as it does locally, every other as before |
| Segments.BuildSegments | src/segment.rs:370-390 | cutting keeps every entry, in order, and makes no empty segment |
| Segments.Reconstruct | src/segment.rs:577-636 | the loop that rebuilds a blob from a base and a line's ops is `ConstructBlob`, which never returns anything but the target |
| Serve.Round | src/serve.rs:366-391 | in one round exactly the constructs with a base at hand are rebuilt and the rest deferred; a round without progress means none was ready |
| Serve.Resolve | src/serve.rs:365-403 | constructs resolve to exactly the entries' blobs, and bounded chains never get stuck |
| Serve.UnpackSegments | src/serve.rs:285-440 | unpacking gives exactly the live segments' blobs and each fork's log, and succeeds on every good manifest |
| Remote.Discover | src/remote.rs:212-249 | from any cached manifest, or none, discovery ends at the latest of a chained store |
| Remote.Load | src/remote.rs:278-349 | a view loads exactly where blobs are stored once, bases are live and chains are not cycles; its depths are the chains' lengths |
| Restoring.Derive | src/serve.rs:501-533 | a log entered from a known state adds exactly the sums of the lines that replay from there, each with the manifest that has it |
| AnchorSearch.ResolveAnchors | src/serve.rs:534-562 | the search ends, fails exactly where some round brings no fork's anchor while one is missing, and otherwise knows every anchor as a manifest of that sum |
| Restorable.RootedRestores | src/serve.rs:442-444 | so it succeeds wherever every fork began at the empty manifest or at its parent's anchor or past it |
| Restorable.SnapshotStalls | src/serve.rs:534-562 | and fails on an honest repository where a fork began before its parent's snapshot, though one round more would have found the anchor |
| Restorable.HonestForks | src/repo.rs:1131-1142 | the logs of that repository are sound, and every fork of it is anchored at a state it passed through |
| Spans.FindUniqueSpec | src/patch.rs:165-188 | the search succeeds exactly when there is one occurrence, else it reports the count |
| Patch.Manifest.Insert | src/manifest.rs:59-68 | an insert is refused, changing nothing, where the path is taken |
| Patch.Manifest.Remove | src/manifest.rs:71-80 | a removal is refused, changing nothing, unless this very record is there |
| Patch.ApplyRealizedToManifest | src/patch.rs:146-159 | entry by entry adjudication succeeds exactly where replay is defined, and ends where it does |
| Patch.ApplyIntent | src/patch.rs:307-439 | all of an intent's ops or none: an error leaves the manifest as it was |
| Setsum.ReplaySum | src/patch.rs:131-159 | a delta that adjudicates moves the manifest's sum by its own arithmetic |
| Setsum.SumFixesManifest | src/manifest.rs:98-100 | equal sums are equal manifests |
| Setsum.ReplayUndone | src/repo.rs:491-523 | a delta's inverse adjudicates wherever the delta did and restores the manifest |
| Setsum.OrderDoesNotMatter | src/patch.rs:131-159 | two orders of the same deltas that both adjudicate reach the same manifest |
| Columns.GroupLaws | core.js:111-112 | columns under `addS` and `negS` are an abelian group |
| Columns.ColumnsFollowIdeal | core.js:96-112 | what the ideal sums equate, the columns equate, whatever the digest |
| Columns.UndoRestoresColumns | core.js:111-112 | a delta and its inverse leave the columns where they were, with no manifest consulted |
| Strata.IntentRealizes | src/patch.rs:307-439 | what an intent realized adjudicates where the intent ran and replays to where it ended |
| Strata.ShortcutIsSound | src/union.rs:212-244 | if a realized delta adjudicates against a drifted manifest, re-running its intent there succeeds with the identical delta, blobs and manifest |
| Strata.StrataAgree | src/union.rs:212-244 | the two strata part exactly where re-running would realize something else |
| Logs.Seal | src/log.rs:225-246 | sealing succeeds exactly on admissible lines and changes only the stamp |
| Logs.HeadFixesLog | src/log.rs:216-218 | a head id fixes the whole log behind it |
| Logs.LastStateSpec | src/log.rs:460-462 | the last position at which a sum holds, or that there is none |
| Logs.VerifyChain | src/log.rs:468-491 | verification accepts exactly the chained logs whose every line's arithmetic holds, and returns the final sum |
| Repo.LoadsIffSound | src/repo.rs:416-487 | a fork whose anchor no line has reached loads exactly when its log is a sound history from the anchor's manifest |
| Repo.Repository.CurrentState | src/repo.rs:416-487 | over every run loading a held fork succeeds, with the sum its last line claims |
| Repo.Repository.Apply | src/repo.rs:691-745 | one new sealed line whose delta the intent realized at the head, or nothing; exactly when the intent runs and the line is admissible |
| Repo.Repository.ApplyRealized | src/repo.rs:751-800 | a delta lands exactly where it adjudicates, its added blobs are pooled and the line is admissible; the repository goes on re-enacting if and only if the intent re-enacts the delta |
| Repo.Repository.AppendRealizedBatch | src/repo.rs:812-875 | all drafts or none; each landed line carries its draft and the sum of the state it reached |
| Repo.Repository.AppendSealed | src/repo.rs:889-909 | sealed lines that keep the history sound extend one log and touch nothing else |
| Repo.Repository.Snapshot | src/repo.rs:1131-1142 | a snapshot moves the anchor and changes neither the log nor the state it loads |
| Repo.Repository.CreateFork | src/repo.rs:215-224 | a new fork begins at the head of an old one, exactly where the name is free and valid |
| Repo.Repository.Unwind | src/repo.rs:503-520 | inverse replay from the head reaches the state after any line |
| Repo.Repository.ManifestAt | src/repo.rs:491-523 | exactly the head, the anchor and every logged sum can be asked for, and the manifest returned is the one held there |
| Reenact.RanReenacts | src/repo.rs:691-745 | what an intent realized where it ran, it re-enacts |
| Reenact.SilentReenacts | src/repo.rs:812-875 | a line without an intent re-enacts exactly where its delta moves nothing |
| Unions.MergeIsSound | src/union.rs:149-306 | what a union lands keeps the target's history sound, line by line; an incomplete union lands nothing |
| Unions.Union | src/union.rs:108-307 | one batch on the target or nothing at all, and what is landed or reported is what validation in memory decided |
| Unions.MergeReenacts | src/union.rs:212-290 | what a union lands re-enacts where the source's lines do, re-realized lines included |
| UnionLaws.RepeatLandsNothing | src/union.rs:149-306 | repeating a complete union at once lands no line and is complete again |
| UnionLaws.CommutingLinesSwap | src/union.rs:593-604 | lines certified to commute reach one state in either order, and neither makes a read of the other stale |
| UnionLaws.LandedReadsStand | src/union.rs:568-587 | in a complete union every read of a landed line stands against the state the line landed on, where a concurrent line wrote its path |
| UnionLaws.TargetReadsStand | src/union.rs:511-564 | without a stranding conflict, no read of the target's own concurrent lines is made stale by what the union wrote |
| MergeOrder.DisjointUnionsComplete | src/union.rs:108-307 | forks of one anchor that write apart and recorded no reads all merge, and the result holds each branch's writes |
| MergeOrder.UnionOrderDoesNotMatter | src/union.rs:108-307 | and every permutation of the unions reaches the same manifest, whichever strata they use |
| MergeOrder.MergedSumIsDigests | src/union.rs:108-307 | whose sum is the target's plus every branch's digest |
| Tripwire.TripwireSound | src/union.rs:404-489 | a scoped read that is not stale has every line its spans cover matched, in strictly increasing order, to an equal line of the target's current blob |
| Tripwire.FreshSpansAreLocated | src/union.rs:404-460 | and every span located, unless the target holds the very blob that was read |
| Tripwire.CheckRead | src/union.rs:404-460 | the loop over spans decides staleness as the predicate defines it, own-side changes included |
| Tripwire.SpanIsLocated | src/union.rs:471-500 | a located span names existing lines in order, and the one occurrence of a literal span lies in them |
| Lines.SplitConcat | src/diff.rs:249-258 | splitting into lines loses nothing |
| Lines.LineOfOffset | src/union.rs:471-489 | the line feeds before an offset number the line that holds it |
| Lines.LineCount | src/diff.rs:249-258 | how many lines there are, counted by terminators |
| Diff.LcsEdits | src/diff.rs:272-310 | table and walk produce the script of the longest common subsequence |
| Diff.ScriptIsOptimal | src/diff.rs:272-310 | the script's equals are a common subsequence, and none is longer |
| Diff.ChangedRanges | src/diff.rs:196-246 | one range, from line boundary to line boundary, for each maximal stretch of changes in the script; they ascend without overlap, and splicing them into the old content gives the new |
| Diff.HunkIsMaximal | src/diff.rs:196-246 | every range is that of a stretch of changes with an equal line, or an end, on either side |
| Diff.ChangeHasHunk | src/diff.rs:196-246 | and every change of the script lies in such a stretch, with its range among them |
| Lines.ChangedRegions | src/diff.rs:196-246 | the same for two byte contents by their lines, refused exactly where one is not text |
| Synth.SynthesizeEdit | src/diff.rs:510-560 | an edit exactly where both sides are text and the old one is not empty: its old text is unique, it replaces to the new content, and widening ends |
| Commit.DiffManifests | src/diff.rs:44-68 | one change for every path on which two manifests differ, and for no other |
| Commit.SynthesizedIntentReplays | src/diff.rs:444-503 | for any two manifests with pooled blobs, the synthesized intent runs on the first and ends at the second |
| Commit.CommitReplays | src/repo.rs:1095-1127 | and so does the realized form of the same difference |
| Commit.CommitReenacts | src/repo.rs:1095-1127 | the two forms agree wherever the delta adjudicates, not only where they were made |
| Commit.CommitTree | src/repo.rs:1095-1127 | a commit moves the head to the working manifest on the chosen paths; with pooled blobs it succeeds exactly where something chosen changed, and keeps the repository re-enacting |
| Commit.Repoint | src/repo.rs:1224-1259 | repointing moves the head to the target by one line without an intent, after which the repository no longer re-enacts; it succeeds exactly where the fork exists, is not there already, and every blob the move adds is pooled |
| ReplaceAll.UniqueWindow | src/patch.rs:270-301 | the window is the first unique one of those that take in a line more on both sides at a time, and contains the span; widening ends |
| ReplaceAll.NoneWithinIsUnique | src/patch.rs:270-301 | no stretch of an earlier window is unique, so every unique one sticks out of it on some side |
| ReplaceAll.NotTheSmallest | src/patch.rs:265-269 | a text in which a smaller window of whole lines would do |
| ReplaceAll.AnchoredReplaceAll | src/patch.rs:228-264 | edits exactly where text contains a non-empty old text; each is unique where it is applied, and replaying them is the one left-to-right replacement, even where the new text contains the old |
| Blame.BaseIsBefore | src/delta.rs:213-229 | the base a realized delta names for a path is the blob the path held before the line |
| Blame.ConstructAgrees | src/segment.rs:577-636 | a construct over that base reproduces the path's blob after the line, provided the line's ops on the path are inline and no other path adds the same blob |
| Blame.BlameAgrees | src/blame.rs:33-99 | blame never fails on a history of applications; its bytes are the manifest's blob at every state, with one owner each |
| Blame.LoggedIsApplied | src/repo.rs:691-745 | a sound log from the empty state whose lines re-enact is a history of applications |
| Blame.BlameShowsHead | src/repo.rs:1267-1271 | so in every re-enacting repository a fork that began empty can be blamed, and blame shows its head |
| Blame.SilentLinesShow | src/blame.rs:33-99 | after any stretch of lines whose intents do not name the path, blame shows the manifest exactly where the whole stretch left the path as it was |
| Blame.SilentLineHides | src/repo.rs:812-875 | the file a batch creates in an empty fork is in the manifest and not in blame |
| Blame.OwnerWroteLast | src/blame.rs:33-99 | the owner of a byte is the last line to write it: tracing the byte back from the end, the line whose op's own text holds it at the offset reached, no later op on the path having covered it |
| Blame.OwnerKeeps | src/blame.rs:33-99 | for any point of the history, the bytes blamed on earlier lines are exactly those the path already held there, under the same owners and in the same order |
| Blame.BlamePath | src/blame.rs:33-99 | the replay loop yields the rolled-up ownership of a present path, and an error for an absent one |
| Blame.RolledUpLines | src/blame.rs:123-152 | rolled up, there is one entry per line of the content, its text that line and its owner the newest of the line's bytes |
| Json.RoundTrip | src/ident.rs:243-312 | canonical text reads back as the value written, whatever follows |
| Json.CanonicalIsInjective | src/ident.rs:237-288 | equal canonical texts are equal values up to the order of object keys |
| Json.KeyOrderDoesNotShow | src/ident.rs:243-288 | the order an object's keys came in does not show |
| Json.NoLf | src/ident.rs:294-312 | no canonical text holds a raw line feed |
| Encoding.EncodeDecode | src/log.rs:394-437 | what is encoded as UTF-8 decodes back |
| Encoding.LfIsItself | src/log.rs:394-437 | a line-feed byte occurs exactly where the character does |
| LogFile.ParseLogLenient | src/log.rs:394-437 | the reading loop returns the records before the first line that is not one and their byte length, or corruption where a record follows damage |
| LogFile.ParseLogStrict | src/log.rs:440-453 | strict reading wants every byte to belong to a record |
| LogFile.SealedLinesRecover | src/log.rs:394-437 | sealed lines followed by any strict byte prefix of one more recover as exactly those lines and their byte length, even where the cut is inside a character |
| LogFile.MidLogIsCorrupt | src/log.rs:394-437 | damage with a record anywhere after it is reported, never truncated |
| LogFile.StrictWantsAll | src/log.rs:440-453 | strictly, the same bytes are the lines only where nothing of the next was written |
| LogFile.FileDecidesLines | src/log.rs:394-437 | the file of sealed lines decides the lines |

## Left out

- Alignment.AlignOps: widening in `align` (src/claude.rs:1240-1276), where a changed region reaches past its op's bytes
  into unowned bytes beside them: only regions inside one run are aligned end to end, since strict replay alone does not
  pin where a widened op lands. `Alignment.AlignOp` has the widening itself, `Alignment.WidenedLands` says what it does
  to the content the op ran on, and `Tracks.UnownedUnscarredIsBase` what finding its bytes relies on.
- Alignment.AlignOp: pieces are taken in the order given, where the source sorts them by seat; those of an op's regions
  are in order already (`Alignment.SeatsInOrder`).
- `reads_for` and annotations (src/claude.rs:552-627): the read sets and prose of planned lines.
- Overflowed lines and spilled reads (`line_blob`): every line and its reads are inline.
- PlanPush.ListSpans: forks come in any order, where the source takes them by name; likewise the blobs to send and the
  folded segments, which the source takes by hash. Every result holds for each order.
- Serve.UnpackSegments: the per-segment image check (src/serve.rs:405-422) is not modelled, because a segment here is
  its entries, and so cannot carry others than its id commits to.
- Segments.BuildSegments: where the cuts fall depends on frame lengths, which are a parameter.
- Unions.Union: conflicts are a set, so the order in which they are reported is not modelled, and one clock reading
  serves all lines of a union.
- Json.RoundTrip: the reader is the inverse of the writer on canonical texts; how a general JSON parser treats other
  texts is not part of the model, nor is checking a parsed line's id.
- Tracks.EditMarked: scars are a set, and the source keeps a list that may repeat one.
- Zstandard frames, dictionaries, size hashes, cached `.idx` and `.pk` files, base64: encodings that are the identity
  here.
- SHA3: `stateOf` and the digest itself; the columns take the digest as a parameter.
- `continuity_log`, `lineage_base_sum`, `manifest_at_lineage` (src/repo.rs:530-634).
- Crash atomicity of a batched append: a torn batch leaves a prefix of whole lines.
- Changes to a client's repository between the several reads of one plan: an attempt is planned against one state of
  it, which may change at any time before and after.
- `fetch`, mirrors, `fuse`, `remove_fork`, garbage collection and restore of the working tree.
- Renames, hunk headers and the rendering of diffs (src/diff.rs:87-163, src/diff.rs:330-415): presentation only.
- Files, locks, `fsync`, git, the command line, ignore rules, views and revision expressions.
