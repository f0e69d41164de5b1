# Bergman: a verified model

Bergman maintains Apache Iceberg tables: it compacts data files, rewrites manifests, drops delete files nothing needs,
expires snapshots and removes orphan files, while writers keep committing. This project models that engine in Dafny and
proves that none of it changes what a reader sees or deletes a file still in use. `dafny verify dfyconfig.toml` checks it.

Reading follows the Iceberg Table Spec, sections "Sequence Numbers" and "Scan Planning": the content of a table is a
multiset of rows per partition, and a delete file applies to a data file by partition, sequence number and, for positional
deletes, path.

- Reading and writing: `Tables` (files, deletes, content), `Foreground` (what writers commit), `Producer` (manifests,
  summaries, the request), `Dangling` and `Maintenance` (deletes nothing needs).
- Compaction: `Grouping`, `Rewrite` and `AntiJoin` (reading a group with its deletes applied), `Compact`,
  `CompactionSafety`, `QuietRun`; `Manifests` re-packs metadata.
- Protocol: `Protocol` is the commit protocol as a state machine over all interleavings; `Committing` holds the re-send and
  rebuild loops over a catalog object driven by an arbitrary script.
- Deletion: `Deletion` is the deletion protocol as a state machine with a clock; `Reachability`, `Orphans` and `Expire` are
  the code that produces its kill lists, and `Retained` relates a table's metadata to the protocol's states.
- The rest: `Events`, `Daemon`, `Discovery`, `Budget`; `Paths`, `Encodings`, `Strings`, `Sorting` and `Wrappers`.

## Where code and comments part

- `bucket_by_equality_deletes` (src/ops/compact/rewrite.rs:139-175) calls its order deterministic. It is if and only if no two
  files of the group have different equality deletes of which the first, by path, is the same (`Rewrite.BucketOrderIsFixed`);
  two files and two ordinary deletes are enough for it not to be (`Rewrite.BucketOrderCanVary`). The sets of
  `equality_delete_sets`, whose order is promised too, always come in one order (`AntiJoin.SplitIsUnique`).
- The orphan scan refuses an empty reachable set (src/ops/orphans.rs:109-121); `compute` always adds the version hint, so
  the set is never empty (`Reachability.NeverEmpty`).
- `apply_budget` bounds nothing at a budget of the 64-bit maximum (`Budget.KeptBytesWithinBudget`).
- A name ending in a backslash swallows the separator after it (`Encodings.TranslateMeetsRender`); a tuple longer than its
  spec has its surplus ignored (`Encodings.PartitionPathInjective`).
- The group filter reads an equality delete by its columns' names (src/ops/compact/rewrite.rs:460-517), and a nested field's
  name need not be its own (src/policy/resolve.rs:166-183): a delete on `s.id` in a table with a column `id` is joined on
  that column (`AntiJoin.NestedKeyIsMisread`). Where such deletes can be read at all, the rows are right for every bucket
  of them if and only if looking the names up finds the same fields (`AntiJoin.ChainReadsTasks`, `AntiJoin.MisaddressedIsMisread`).
- A debounce of zero starves the sweep (`Daemon.NoDebounceStarves`, `Daemon.SweepComesIffDebounced`). With a positive one at
  most one event cycle precedes an overdue sweep while senders remain; once they are gone it can be two
  (`Daemon.ClosedSourceAddsOne`).
- The summary counts every added file as data (`Producer.SummaryIsARecount`).

## Assumptions

- One normalized path names one live file; output paths and snapshot ids are fresh.
- Loaded sequence numbers are at most the table's last one. `Dangling.DeadAppliesToNone` also needs every data entry to
  carry one (`Dangling.UnnumberedDataIsMissed`).
- The list of partitions a run targets names none twice; the analysis collects it from a map
  (src/health/analyze.rs:154-162).
- In `Protocol`, the compactions workers post are of groups whose equality deletes' names find their own fields; `QuietRun` and
  `Committing` ask that only where they speak of rows.
- The Iceberg library's schema builder refuses two fields of one name, so a delete whose key fields' names find two such is an
  error.
- A scan task's deletes are exactly the applicable ones; every file reports a record count.
- Writers change neither the default partition spec nor the schema during a run, and do not roll `main` back. They may commit
  to other branches, which only raises the last sequence number.
- Writers reference files live in their parent or staged by themselves; paths are never reused; the store's clock and the
  engine's agree.
- No time passes within one poll of the daemon.

## Model

| member | source | states |
|---|---|---|
| Protocol.MainReadsAsWritten | src/ops/compact/mod.rs:626-894 | In every run of writers, workers, re-sends, late or lost deliveries and crashes, every partition of `main` holds each row exactly as often as replaying the writers' commits alone gives. |
| Protocol.StepKeepsInv | src/commit/snapshot.rs:369-450 | Every step keeps the protocol invariant: held versions are sound and fixed by the head they saw, names identify one file for ever, each posted commit is invisible to its base and not accepted twice. |
| Protocol.MaintenanceStutters | src/commit/snapshot.rs:369-450 | Every step but a writer's commit leaves each partition's content and the writers' history alone. |
| Protocol.AcceptedAtMostOnce | src/commit/rest.rs:265-310 | A posted commit that took effect is refused at every later delivery, in any run. |
| Protocol.NothingLeftToRewrite | src/ops/compact/mod.rs:644-679 | Once a group's commit took effect, seen or not, no version loaded later offers any file of the group, so a reload selects nothing. |
| Protocol.GoneForGood | src/ops/compact/mod.rs:154-170 | A file once on `main` and no longer there never returns, in any continuation of any run. |
| Protocol.DeadForGood | src/commit/snapshot.rs:808-845 | A delete file called dead by sequence numbers on some version of `main` applies to no live data file then or in any later state of any run. |
| Protocol.WorkIsInvisible | src/commit/snapshot.rs:173-234 | Whatever a compaction, a dangling-delete removal or a manifest rewrite builds from a sound version reads alike, adds only files under fresh names at the next number, and removes only what was live. |
| Protocol.AcceptanceIsFirst | src/commit/snapshot.rs:418-426 | A commit the compare-and-swap accepts was built on exactly the snapshot `main` holds, and was not accepted before. |
| Foreground.WriteMeansItsChange | src/ops/compact/mod.rs:626-643 | An append, equality delete, positional delete, overwrite, or data and delete files committed together under one number (an upsert) changes every row's multiplicity in every partition exactly as its row-level meaning says; a positional delete reaches the data of its own commit, an equality delete does not. |
| Foreground.SameRowsStaySame | src/ops/compact/mod.rs:784-797 | Two layouts of the same rows stay layouts of the same rows under any later appends, equality deletes and upserts, each under its own sequence numbers. |
| Tables.ReplacementPreservesContent | src/ops/compact/mod.rs:780-797 | Replacing files by new ones that hold the rows a reader saw in them, while dropping only deletes that apply to no file that stays, changes no partition. |
| Tables.ContentPermuted | src/ops/manifests.rs:24-30 | What a reader gets does not depend on the order files are listed in. |
| CompactionSafety.CompactionPreservesContent | src/ops/compact/mod.rs:784-874 | The commit one attempt builds leaves the rows of every partition as they were. |
| CompactionSafety.CompactionCommutesWithLaterWrites | src/ops/compact/mod.rs:784-874 | And every later run of appends, partition-scoped or global equality deletes, and upserts gives the same rows with the compaction as without it. |
| CompactionSafety.GroupRetiresIdle | src/ops/compact/mod.rs:1041-1045 | No delete a group retires applies to a data file that stays. |
| CompactionSafety.GroupPicksData | src/ops/compact/mod.rs:163-169 | Among data files, a group's commit removes exactly the files its paths name. |
| Compact.RewriteOnce | src/ops/compact/mod.rs:687-874 | An attempt succeeds if and only if its group is not refused for mixed specs or foreign formats, all its deletes can be read, its tuples agree, its row count is one the metadata allows, and every manifest it touches can be rebuilt; its errors are the code's, and never one that makes its caller reload. The request removes the group and the deletes only it needs and adds files of the group's partition holding exactly the rows the joins leave, which are the rows read where the names of the group's key fields find them, and as many as the metadata counts, or no more where there are deletes. |
| Compact.PlainIsCommittable | src/ops/compact/mod.rs:687-874 | On a healthy table, files of one partition that are Parquet with readable Parquet deletes and rightly counted rows always get as far as a commit. |
| Compact.HonestRewriteIsAccepted | src/ops/compact/mod.rs:977-1010 | Where record counts are right, a rewrite that yields exactly the rows a reader sees never breaks the row-count contract. |
| Compact.NothingMissing | src/commit/snapshot.rs:197-225 | All an attempt removes is live in the snapshot it read, so its own plan is never stale. |
| Compact.ScanMembers | src/ops/compact/mod.rs:452-470 | A scan's tasks are the live data files, each with exactly the deletes that apply to it. |
| QuietRun.Run | src/ops/compact/mod.rs:311-397 | On a quiet table, whatever fails, every partition reads as before wherever the names of the groups' key fields find them: a rewrite, a re-read, or a commit that takes effect though its worker is told otherwise. Every targeted file with a delete or over the upper bound is offered, and of two small ones that fit together at least one. If no group fails, every group is committed and its files are gone, no targeted file has an applicable delete, and every delete that applied only to targeted files is gone; unless some commit took effect unnoticed, no group is built twice. On a healthy table with plain files and good answers nothing fails; and once the removal's own commit lands, no delete file is left without a target, ones that name a single file aside. |
| QuietRun.OfferGroup | src/ops/compact/mod.rs:316-343 | A group built at the version `main` holds is still wholly there and worth rewriting, and commits if and only if it can be built there; its commit's parent is the head of `main`, and none of its files is left. |
| QuietRun.OfferAll | src/ops/compact/mod.rs:311-384 | The loop's whole story, group by group: a group is lost exactly when it cannot be built or its commit fails, `main` moves exactly when a commit lands, the table is read again exactly after a commit heard of. It ends only with every group offered, after three lost in a row, or when its own commit cannot be read back; the report counts the endings; if none failed nothing of any group is left. |
| QuietRun.SelectedIsCommittable | src/ops/compact/mod.rs:585-592 | At any version a quiet run reaches from a healthy table, a group of plain files gets as far as its commit. |
| QuietRun.StillWorth | src/ops/compact/mod.rs:585-592 | However many groups committed before, a later group selects as many files with the deletes they had, and is still worth a commit. |
| QuietRun.GroupStands | src/ops/compact/mod.rs:316-343 | One group's commit keeps every later group's files and every delete still needed, and leaves none of its own files. |
| QuietRun.OwnGoneAtTheEnd | src/ops/compact/mod.rs:784-797 | A delete that is still live and applied to something applies to something still live; so with all targets clean, deletes only they needed are gone. |
| QuietRun.SharedCountsTwice | src/ops/compact/mod.rs:473-572 | Two groups sharing a file would count it twice, which the one-listing bound of the offered groups excludes. |
| Grouping.Pack | src/ops/compact/mod.rs:595-617 | Packing concatenates back to its input; every group is one file or within the byte cap and the file cap; no group is closed before the file that follows it would burst a cap; and there are at most 1 + n/K + 2*bytes/B groups. |
| Grouping.BuildGroups | src/ops/compact/mod.rs:473-572 | Every group lies in one targeted partition of the current spec and is several files, or one with deletes or over the upper bound; no undeleted file between the bounds is in any. Every targeted file with a delete or over the upper bound is in one, and of two under the lower bound that fit a group together at least one is. Within a partition groups fill smallest first; they come by falling file count and then rising bytes; no file is offered twice when the list of partitions names none twice. |
| Grouping.IndexByPartition | src/ops/compact/mod.rs:484-500 | The index lists, for every partition, exactly its tasks in scan order, and nothing for any other. |
| Rewrite.BucketByEqualityDeletes | src/ops/compact/rewrite.rs:139-175 | Buckets share one set of equality deletes each, hold exactly the group's tasks between them, and come sorted by their first delete's path; they are the group's buckets in one determined order wherever `BucketOrderIsFixed` says there is one. |
| Rewrite.BucketOrderIsFixed | src/ops/compact/rewrite.rs:164-173 | Whatever order the map yields its buckets in, sorting leaves one, if and only if no two files of the group carry different equality deletes of which the first, by path, is the same. |
| Rewrite.BucketOrderCanVary | src/ops/compact/rewrite.rs:164-173 | For any two delete paths: a file at 5 under a delete at 6, and a file at 3 under it and another at 4, each carrying exactly what applies to it, come out in either order. |
| AntiJoin.EqualityDeleteSets | src/ops/compact/rewrite.rs:442-486 | The equality deletes of a bucket are split by the column names their field ids have: each set holds all the deletes on its columns in their order, the sets come sorted by their columns and none twice, and between them cover every delete. A field the schema does not know is an error, and nothing else is. |
| AntiJoin.ResolvableIffReadable | src/ops/compact/rewrite.rs:442-517 | A delete can be joined if and only if it has key fields, the schema knows each, each one's name finds a known field, and no two of those share a name. |
| AntiJoin.SplitIsUnique | src/ops/compact/rewrite.rs:432-486 | And so the same deletes always give the same sets in the same order. |
| AntiJoin.JoinComparesKeys | src/ops/compact/rewrite.rs:460-517 | The join on a delete's column names compares rows as the delete's own fields do, for all rows, if and only if looking those names up finds that same set of fields. |
| AntiJoin.NameKeyIsKey | src/ops/compact/rewrite.rs:460-517 | The key tuple read by name is the delete's own for every row if and only if each key field's name finds that very field. |
| AntiJoin.Frame | src/ops/compact/rewrite.rs:208-299 | A bucket's frame is the chain of one null-safe anti-join per key-column set, and holds, in order, the rows no join names; it is an error exactly when some delete's columns are unknown, not found by name, or found under one name twice, and then that delete's error. |
| AntiJoin.ChainReadsTasks | src/ops/compact/rewrite.rs:247-298 | Where the names of the bucket's key fields find them, the chain of joins over its scans equals filtering each file by each of its own deletes, in order. |
| AntiJoin.MisaddressedIsMisread | src/ops/compact/rewrite.rs:442-517 | And only there: for every list of key fields the reader accepts whose names find other fields, some well-formed bucket of deletes on them is read wrongly. |
| AntiJoin.NestedKeyIsMisread | src/ops/compact/rewrite.rs:506-517 | One such case: an equality delete on the nested field `s.id` in a table with a column `id` of its own. |
| AntiJoin.StreamGroup | src/ops/compact/rewrite.rs:69-132 | The union of the buckets holds exactly the row multiset the joins leave of each file, for every schema; it is an error exactly when some delete of the group cannot be read, and then that delete's error. |
| AntiJoin.StreamedIsRead | src/ops/compact/rewrite.rs:69-132 | Wherever the names of the group's key fields find them, that is filtering each file by each of its own deletes, in order. |
| AntiJoin.Roll | src/ops/compact/rewrite.rs:69-132 | The files written hold the streamed rows in order, each counts its own rightly, carries the group's partition under the next name, and is closed at the first row that fills it; only the last may fall short. |
| Producer.WriteManifests | src/commit/snapshot.rs:514-627 | Succeeds exactly when every manifest that loses some live entries and keeps others has a known spec and a kind its format has. Each manifest written lost nothing and is kept as it is, or is one rebuilt under its own spec and kind with every entry that stays, in order, under its own numbers, or is the one of added files. |
| Producer.RebuiltIs | src/commit/snapshot.rs:514-600 | A manifest that loses nothing is kept, one that keeps nothing goes, and any other is rebuilt exactly when it can be. |
| Manifests.WrittenKeepsFacts | src/commit/snapshot.rs:514-627 | Read entry by entry, the written manifests say of every file that stays what the parent's said, its spec, snapshot id, sequence number and file sequence number, and of every added file that this snapshot added it at the next number. |
| Producer.WrittenReads | src/commit/snapshot.rs:514-627 | A written manifest set shows a reader every live file not removed, under its own sequence number, and the added files at the next one. |
| Producer.RewriteFiles | src/commit/snapshot.rs:173-234 | Refuses v3 tables, removals from an empty table and paths that are not live; fails when some manifest that loses some entries and keeps others cannot be rebuilt, or the current snapshot is not the head of `main`; and otherwise always succeeds, unless there is nothing to do. The request is built on the head, its snapshot holds what was live without the removed files plus the added ones, and publishes a recount of it. |
| Producer.CountEntries | src/commit/snapshot.rs:864-911 | One pass counts files, records and bytes of what survives and of what goes, positional and equality delete files apart. |
| Producer.SummaryIsARecount | src/commit/snapshot.rs:718-796 | The published totals equal a recount of the manifests written if and only if every added file is a data file. |
| Dangling.FindFloors | src/commit/snapshot.rs:283-301 | The floors bound the number of every numbered data entry, per partition and over the table, and each is attained. |
| Dangling.DanglingDeleteFiles | src/commit/snapshot.rs:263-310 | The paths returned are exactly the delete entries both derivations call dead, sorted and named once. |
| Dangling.DeadAppliesToNone | src/commit/snapshot.rs:808-845 | A delete dead by sequence numbers applies to no live data file and to none a later commit adds. |
| Dangling.AliveHasATarget | src/commit/snapshot.rs:808-845 | A numbered delete that is not dead and names no single file still applies to some live data file. |
| Dangling.UnnumberedDataIsMissed | src/commit/snapshot.rs:287-289 | A data entry without a sequence number is skipped, and a delete that applies to it is then called dead. |
| Dangling.DeadReachesOnlyUnnumbered | src/commit/snapshot.rs:283-301 | A delete called dead still applies to some live data file if and only if a data entry without a number lies in its reach and its own number is positive, or for a positional delete not negative. |
| Dangling.DanglingRemovalPreserves | src/ops/compact/mod.rs:895-949 | Dropping deletes that no task carries changes no partition. |
| Maintenance.DropDangling | src/ops/compact/mod.rs:903-949 | The dangling removal's request removes exactly what both derivations call dead; when there is something to remove it succeeds unless the format, a manifest that cannot be rebuilt or a moved head forbids it; when there is nothing, nothing is asked. |
| Maintenance.DroppedIffIdle | src/commit/snapshot.rs:263-310 | A delete file is dropped only if it applies to no live data file; and where data files are numbered, every numbered delete that applies to none and names no single file is dropped. |
| Maintenance.DropLeavesNone | src/ops/compact/mod.rs:903-949 | So after the removal every delete file left applies to some live data file, ones that name a single file aside. |
| Maintenance.DropPreservesContent | src/ops/compact/mod.rs:903-949 | The dangling removal's commit leaves every partition's rows as they were. |
| Committing.Commit | src/commit/rest.rs:265-310 | At most four sends; all but the last were answered busy; the last answer alone decides the result, and a busy one is final only at the fourth send. |
| Committing.OnlyALostSwapIsRebuilt | src/commit/rest.rs:265-338 | An answer makes the caller rebuild if and only if it is 409 or 412, so none that is sent again as it stands does; 401 and 403 are refusals, 404 bad metadata. |
| Committing.AtMostOneEffect | src/commit/rest.rs:265-310 | However many sends, and whatever others commit between them, the request took effect at most once; if it did, nothing of its group is left on `main`. |
| Committing.SuccessTookEffect | src/commit/rest.rs:281-284 | Success is never reported for a commit that did not take effect. |
| Committing.HonestFailureTookNone | src/commit/rest.rs:317-338 | A failure heard from a catalog that always answered for itself means the commit took no effect. |
| Committing.RewriteAndCommit | src/ops/compact/mod.rs:626-684 | At most three attempts of four sends each, every one after the first built faithfully from the version reloaded after the last was lost. Exactly how it ends: told of success; with nothing worth rewriting in the version then in hand; or in an error that is the last commit's own, that of a group that cannot be built, or a failed reload's; a conflict only after three attempts. Of all that is sent at most one takes effect, always the last one built; if it did and the reload answers, the loop ends with nothing left to do and no error. |
| Committing.LostUntilTheEnd | src/ops/compact/mod.rs:644-677 | A conflict is what the caller hears only when all three attempts were lost, each built from the version loaded after the one before. |
| Committing.TryOnce | src/ops/compact/mod.rs:644-663 | One attempt sends what it built from the version in hand, again after every busy answer, and is lost exactly on a conflict; it sends nothing exactly when that version has nothing worth rewriting or the group cannot be built from it. |
| Committing.Catalog.Send | src/commit/rest.rs:266-284 | A send lets others commit first, then processes the request or not, then tells its sender the truth, a gateway's answer, or nothing. |
| Committing.Catalog.Reload | src/ops/compact/mod.rs:670-677 | A reload finds the table as other commits left it, or fails. |
| Committing.ConflictMeansSuperseded | src/commit/rest.rs:317-338 | A conflict the catalog itself answers means the version the commit was built on is superseded for good and this send changed nothing, so rebuilding from a reload is what can succeed. |
| Manifests.AttemptRewrite | src/ops/manifests.rs:88-220 | Nothing is sent for an unwritten table, for too few undersized manifests, or when as many would come out; it is refused for v3, for a live entry no manifest could hold and for a moved head; and otherwise always sent: strictly fewer manifests, the re-packing of the parent's. |
| Manifests.RepackedKeepsFacts | src/ops/manifests.rs:141-190 | Re-packing keeps the multiset of what entries say: spec, file, snapshot id, sequence number and file sequence number, with the writer's defaults only where a number is missing. |
| Manifests.RepackedKeepsNumbers | src/ops/manifests.rs:141-190 | Where every live entry has its numbers, the re-packed entries are those very entries, number for number. |
| Manifests.RepackPreservesContent | src/ops/manifests.rs:141-220 | A manifest rewrite shows a reader the same live files, and the same rows in every partition. |
| Manifests.RepackedNeverMixes | src/ops/manifests.rs:154-184 | A manifest of the new list is one of the parent's, untouched because large enough, or holds one content kind and entries written under its own spec only. |
| Manifests.ClusteredAdjacent | src/ops/manifests.rs:245-267 | After clustering, anything between two entries of one partition is of that partition. |
| Manifests.ClusteredKeepsOrder | src/ops/manifests.rs:245-267 | Within a partition the entries keep the order the parent's manifests had. |
| Manifests.PackedClustersPartitions | src/ops/manifests.rs:274-361 | A bucket's manifests, read in order, hold its clustered entries. |
| Manifests.WritePacked | src/ops/manifests.rs:274-361 | Every entry continues the one it came from, existing, in order, under its own numbers, in manifests of the bucket's spec and kind that hold max(1, target / (256 + 48 per column)) entries each, the last perhaps fewer; none for no entries. Refused exactly for delete files in a v1 table. |
| Manifests.RunsTerminate | src/ops/manifests.rs:179-190 | Repeated successful runs on a quiet table stop: the manifest count falls with every commit. |
| Manifests.Run | src/ops/manifests.rs:56-86 | At most three commits, each re-packed from the table as loaded for that attempt, each after the first only because the one before was lost; it reports nothing to do only for a table that has nothing to gain, and an error only for a failed load, a table that cannot be re-packed or a commit refused for good. |
| Deletion.NeededFilesExist | src/ops/orphans.rs:123-251 | In every reachable state of writers, expirations, orphan scans and deletions, every file a retained snapshot needs exists, when writers commit strictly sooner than the configured age. |
| Deletion.StepKeepsInv | src/ops/expire.rs:196-261 | Every step keeps it: what is doomed is out of reach and can never be committed again. |
| Deletion.AgeBoundIsExact | src/policy/mod.rs:63 | No run ever loses a needed file if and only if every writer's limit is at most the configured age. |
| Deletion.SlowWriterLosesAFile | src/ops/orphans.rs:123 | With a longer limit, a run in which a writer commits what a scan has just verified as garbage loses a needed file. |
| Orphans.Run | src/ops/orphans.rs:76-277 | Refused exactly for an age under a day or another table's location inside this one's. Otherwise it succeeds exactly when both loads can be read and the listing is clean, and deletes exactly the sorted candidates still unreachable after the reload, cut to the ceiling; every candidate is deleted, spared or withheld; a dry run, or one with no candidate, deletes nothing and loads nothing again. |
| Orphans.Sift | src/ops/orphans.rs:123-176 | The listing is reduced to its candidates, or the scan stops at the first error or foreign metadata document, with that error or a refusal. |
| Orphans.DoomedAreOrphans | src/ops/orphans.rs:123-251 | Everything deleted was listed, unreachable at both loads, strictly inside the location, and old enough by a known time. |
| Orphans.OrphansAreDoomed | src/ops/orphans.rs:123-251 | Every listed object that is at least the configured age, inside and unreachable at both loads is on the list before the ceiling. |
| Orphans.ForeignTableStopsTheRun | src/ops/orphans.rs:136-188 | A listing holding a metadata document below `L/r/metadata/`, `r` non-empty, anywhere in it, is never clean, so no run over it deletes anything, unless what follows `L/` itself begins with a slash and `metadata/`; which paths listed in the location's own spelling never do. |
| Orphans.RunIsAScan | src/ops/orphans.rs:116-251 | A whole run on metadata that describes the protocol's states is a run of the deletion protocol: a scan begun under this age limit, a find for every candidate of the listing, and a verification whose kill list is exactly what the run deletes. |
| Orphans.SparesExactlyTheReachable | src/ops/orphans.rs:348-356 | Re-verification spares every copy of what became reachable and no copy of anything else, and keeps a sorted list sorted. |
| Orphans.WithholdBeyond | src/ops/delete.rs:78-85 | The list is cut to the ceiling, and what is left out is counted. |
| Expire.DeleteNowUnreachable | src/ops/expire.rs:196-261 | The list is exactly what was reachable before, is not after, and lies inside the location, logged metadata documents aside, sorted and cut to the ceiling; it fails exactly when a retained snapshot cannot be read. |
| Expire.KillIsAnExpiration | src/ops/expire.rs:196-261 | Where the metadata before and after describe the protocol's states, committing the expiration and dooming that list is one expiration step of the deletion protocol. |
| Expire.CommitWithRetry | src/ops/expire.rs:118-162 | At most three attempts, each on the table as last loaded and each after one lost to a conflict; `None` exactly when all are lost; any other failure is returned as it is, and an error after a lost attempt is a failed reload's. |
| Expire.CutoffMillis | src/ops/expire.rs:165-168 | The cutoff is the age subtracted from now, never in the future, and saturates at both ends instead of wrapping. |
| Reachability.Compute | src/ops/reachability.rs:133-247 | The set holds exactly the paths the metadata names, each by what it is and under its normal form: every file in every manifest of every retained snapshot, the manifests and their lists, statistics, logged and current documents and the version hint; or there is an error, exactly when some manifest cannot be read. |
| Reachability.ReachableHoweverSpelled | src/ops/reachability.rs:54-60 | A path is reachable under an alias of its scheme, with a slash doubled in it and one at its end, exactly when it is under its own spelling, and is if the metadata names it. |
| Reachability.NeverEmpty | src/ops/orphans.rs:109-121 | A computed set always names the version hint, so the scan's refusal of an empty one cannot arise from it. |
| Retained.CollectedIsReach | src/ops/reachability.rs:133-247 | Computed from metadata that describes a state of the deletion protocol, the set is what that state reaches. |
| Retained.ReadingIsAStep | src/ops/reachability.rs:133-247 | So computing it is the protocol's step of reading. |
| Paths.CollapseSlashes | src/ops/reachability.rs:103-127 | The loop leaves the same characters but no doubled or trailing slash after the scheme. |
| Paths.NormalizeIdempotent | src/ops/reachability.rs:85-101 | Normalizing twice is normalizing once. |
| Paths.NormalFormsAreObjects | src/ops/reachability.rs:85-127 | Two paths have one normal form if and only if both name one kind of store, in any alias and case, or neither names one, and they have the same pieces between slashes, with a leading slash in both or in neither. |
| Paths.InsideIsSegmentPrefix | src/ops/reachability.rs:255-265 | A path is inside a location exactly when the location's segments are a proper prefix of the path's. |
| Paths.InsideIsStrictOrder | src/ops/reachability.rs:255-265 | Containment is irreflexive and transitive. |
| Paths.NestedRootIsForeign | src/ops/orphans.rs:324-341 | A root reported betrays a metadata document below a non-empty directory of the location. |
| Paths.ForeignIsDetected | src/ops/orphans.rs:324-341 | A metadata document below a non-empty directory `r` of the location is detected if and only if what follows the location does not itself begin with `/metadata/`. |
| Paths.SameKindOfAddressIsDetected | src/ops/orphans.rs:324-341 | Which holds of every path that carries a scheme only if the location does, so of every path listed in the location's own spelling. |
| Encodings.PartitionPathInjective | src/health/partition.rs:79-116 | With injective field renderings, two tuples have one key if and only if they agree on every field of the spec, null and absent told apart. |
| Encodings.SpecKeyInjective | src/health/partition.rs:79-116 | Tuples no longer than their spec have one key if and only if they are one, bound spec or not, as long as its renderings are injective. |
| Encodings.KeyDecodes | src/health/partition.rs:79-158 | A key read back gives, field by field, what was rendered. |
| Encodings.EscapeIsReadable | src/health/partition.rs:138-158 | An escaped value holds no separator and reads back as itself, never as null or absent. |
| Encodings.RenderPartition | src/health/partition.rs:79-116 | The loop builds that key; a spec with fields that do not bind to the schema gives the raw tuple's own rendering. |
| Encodings.RenderTable | src/policy/matcher.rs:82-107 | Segments encoded one after another with separators between them give the table reference's rendering. |
| Encodings.RenderDecodes | src/policy/matcher.rs:82-107 | A rendered table reference reads back as itself. |
| Encodings.RenderInjective | src/policy/matcher.rs:82-107 | Two references with one rendering are one. |
| Encodings.DecodeEncode | src/policy/matcher.rs:99-107 | An encoded segment decodes to itself. |
| Encodings.TranslateMeetsRender | src/policy/matcher.rs:115-138 | A table written segment by segment with its dots escaped translates to exactly its rendering if and only if no segment but the last ends in a backslash. |
| Encodings.TranslatePattern | src/policy/matcher.rs:115-138 | The loop with one character of lookahead computes the translation. |
| Events.EventStream.PollBatch | src/sched/event_stream.rs:117-150 | Nothing accepted is lost: accepted is delivered plus held; a batch is non-empty, sorted, duplicate-free and all the window collected. |
| Events.EventStream.Notify | src/sched/event_stream.rs:89-101 | A notification is accepted exactly when fewer than 1024 are queued and the receiving end still stands, and then it is held. |
| Events.EventStream.Cancel | src/sched/event_stream.rs:103-116 | Dropping the wait leaves the window and everything in it. |
| Events.PollConserves | src/sched/event_stream.rs:117-150 | What was held before a poll is delivered by it or held after it, and nothing else is. |
| Events.OpenWindowWaits | src/sched/event_stream.rs:117-150 | With a positive debounce a poll that finds no closed window delivers nothing. |
| Events.ClosedWindowDelivers | src/sched/event_stream.rs:117-150 | The first poll at or after a window's close delivers it whole. |
| Events.PollExactly | src/sched/event_stream.rs:117-150 | While senders remain, exactly what a poll does: the first name taken opens a window that closes a full debounce later, a window with time left takes all that is queued, one whose time has come is delivered whole. |
| Daemon.SoonestIsLeast | src/sched/trigger.rs:80-107 | The chosen trigger is never later than the interval or any schedule, and an overdue interval beats every schedule. |
| Daemon.NextAfter | src/sched/trigger.rs:80-107 | The loop over schedules finds it. |
| Daemon.ArmedForTheSoonest | src/sched/mod.rs:133-187 | A timer newly set goes off at the soonest of the deadline and the schedules' next occurrences, at once for one that has passed, and for what comes then. |
| Daemon.TurnMeans | src/sched/mod.rs:133-213 | A window whose time has come is handed over whatever the timer says, nothing reported is lost over a turn, and otherwise the timer alone decides, by when it goes off and what for. |
| Daemon.OnlyTheIntervalMovesTheDeadline | src/sched/mod.rs:166-181 | The deadline changes only when the interval fires, to a full interval from then. |
| Daemon.SweepAlwaysComes | src/sched/mod.rs:133-187 | In every run from a loop just built, with a positive debounce, an overdue sweep comes however busy the tables: within three wake-ups and after at most one event cycle while senders remain, within two and none without an event source, within five and two wherever the senders go away. |
| Daemon.ClosedRunsDown | src/sched/event_stream.rs:117-150 | With its senders gone, an overdue loop makes exactly one event cycle for each window left, none, one or two, then notices the source is gone, then sweeps. |
| Daemon.NoDebounceStarves | src/sched/event_stream.rs:117-150 | With no debounce, a report before every wake-up keeps the sweep out for any number of them. |
| Daemon.SweepComesIffDebounced | src/sched/mod.rs:133-187 | Some number of wake-ups always suffices for an overdue sweep, whatever ran before and is reported meanwhile, if and only if the loop has no event source or a positive debounce. |
| Daemon.ClosedSourceAddsOne | src/sched/event_stream.rs:117-150 | With its senders gone, the next two wake-ups are both event cycles if and only if the window has closed and more is queued than a wait under way takes with it. |
| Daemon.Daemon.Wake | src/sched/mod.rs:133-213 | One poll of the loop: notifications first, then the alarm set when the wait began; every cycle is counted. |
| Discovery.Discover | src/catalog/discovery.rs:60-140 | Terminates on every finite catalog, cycles and diamonds included; fails exactly when the roots or a reachable namespace cannot be listed, and with that error; otherwise lists each reachable namespace once and returns exactly their tables, sorted. |
| Discovery.ClosedHoldsAll | src/catalog/discovery.rs:92-137 | A set holding the roots and the children of its members holds every reachable namespace. |
| Budget.MaintenancePlan.ApplyBudget | src/plan/mod.rs:272-325 | In place: tables by falling score; each operation charged in turn or deferred; a table that lost work carries a note of how much, and one left with neither work nor notes goes. |
| Budget.MostFragmentedFirst | src/plan/mod.rs:272-283 | The order tables are charged in: scores fall, and tables of one score keep the order they came in. |
| Budget.KeptInTurn | src/plan/mod.rs:284-300 | Under a budget below the 64-bit maximum, an operation is kept if and only if it costs nothing or fits with what was kept before it. |
| Budget.NothingMoreFits | src/plan/mod.rs:272-325 | No room is wasted: whatever any table lost is a rewrite that would break the budget beside all that was kept. |
| Budget.AffordablePlanIsKept | src/plan/mod.rs:272-325 | A plan the budget can afford whole is left whole, and nothing is deferred. |
| Budget.KeptBytesWithinBudget | src/plan/mod.rs:272-325 | Kept data bytes stay within the budget if and only if it is below the 64-bit maximum or everything planned fits 64 bits. |
| Budget.DeferredIsExact | src/plan/mod.rs:302-314 | The deferred list is exactly the tables that lost an operation. |
| Budget.DeferredIsNoted | src/plan/mod.rs:302-321 | A deferred table stays in the plan with its metadata work and a note counting what it lost; any other is untouched. |
| Budget.EveryMetadataOperationSurvives | src/plan/mod.rs:284-300 | All operations that read no data files survive, in order, across all tables. |
| Budget.MaintenancePlan.TotalInputBytes | src/plan/mod.rs:208-215 | The total is the data bytes of every planned operation. |
| Budget.MaintenancePlan.RetainOperations | src/plan/mod.rs:251-257 | Only operations of the kinds asked for remain, and tables with neither work nor notes go. |
| Budget.RetainedExactly | src/plan/mod.rs:251-257 | What a table keeps is every copy of every operation of a wanted kind and no other, in order, and all else it says. |

## Left out

- AntiJoin.Roll: takes which rows fill a file as a given predicate, because the size a Parquet writer has reached is outside
  the model; sorting, spilling and memory limits are left out too, since none changes which rows are written.
- Committing.Catalog.Send: an environment step: it fixes no times, so waits between sends and the `Retry-After` header are
  not modelled, nor are errors fetching a token.
- Committing.Catalog.Reload: returns the table alone; the scan and manifest index are built from it by the attempt.
- Daemon.Daemon.Wake: one poll of the loop; shutdown, the cycle limit and the maintenance window, which end or postpone whole
  cycles around it, are not modelled.
- Discovery.Discover: lists a level's namespaces one after another, because the order in which concurrent listings arrive
  changes neither the set walked nor the sorted result.
- Orphans.Run: stops at the kill list; deleting it, up to 32 at a time and counting failures, is an effect outside the model.
- Compact.RewriteOnce: takes the scan and the manifest index from one listing, so the refusal for a delete file the index
  does not know cannot arise; table properties such as `write.format.default` are not modelled.
- Budget.MaintenancePlan.ApplyBudget: takes each table's fragmentation score as a given integer.
- A writer's commit is one atomic step: its own re-sends and retries are not modelled.
- Which snapshots expire is any subset: the selection is the Iceberg library's.
- The HTTP client, tokens, request bodies, the table UUID requirement and branch retention.
- Parquet, Avro, Arrow and DataFusion internals; DataFusion's joins are the functions they compute.
- Format v3 beyond its refusal; partition-spec and schema evolution during a run; `main` rollback.
- Glob matching, cron expressions and time zones: schedules are given next occurrences.
- Policy layering and validation, health ratios, estimates, metrics, audit records and the command line.
- 64-bit overflow of summary totals: counts are unbounded there.
