# PatriotPot, modelled and proved

PatriotPot is a Cowrie honeypot with three pieces of logic that must not go wrong quietly:

* **The evidence archiver** (`native/s3-archive.py`) copies the append-only `cowrie.json` to S3, one
  record per object, under conditional writes (`If-None-Match: *`, section 13.1.2 of RFC 9110; a 412
  answer is section 15.5.13). It finds the file by inode, decides with a 64-byte anchor whether the
  old byte range may continue, and can die between any two steps.
* **The Discord monitor** (`native/discord-monitor.py` and its modules) tails the same file, clusters
  events, enriches clusters on background threads, and posts to two webhooks under rate governors.
  One atomic save ties the parts together.
* **The change-set guard** (`Invoke-PatriotPot.ps1`) decides by comparing canonical texts whether an
  IAM policy changed by one approved ARN and nothing else.

Every file has one module. Verify the project with `dafny verify dfyconfig.toml`.

| part | modules, in reading order |
|---|---|
| shared | `Options`, `Sequences`, `Letters`, `OrderedDict`, `Records` |
| archiver | `ObjectKeys`, `Evidence`, `Anchors`, `WriteOnceStore`, `Archive`, `ArchiveSafety`, `ArchiveManifests`, `ArchiveVisits`, `ArchiveAppendOnly`, `ArchiveRetry`, `ArchiveStuck`, `ArchiveLostCommit`, `ArchiveRuns`, `StateMigration` |
| clusters and summaries | `Display`, `SessionClusters`, `ClusterObjects`, `SessionEmbed`, `SessionMembers`, `EmbedContents` |
| enrichment | `EnrichmentCache`, `ProviderGovernor`, `Broker`, `BrokerBound`, `BrokerAnswers`, `EnrichmentWorker` |
| delivery | `DiscordGovernor`, `DeliveryQueue`, `DeliveryPacing`, `DeliveryTiming`, `DeliveryFates`, `DeliveryLedger`, `ChannelIsolation` |
| monitor protocol | `MonitorProtocol`, `MonitorAbsorption`, `MonitorJournal`, `MonitorEvents`, `MonitorQueues`, `MonitorDelivery`, `MonitorAlerts`, `MonitorEffects`, `MonitorObjects` |
| change-set guard | `CanonicalJson`, `CanonicalEquality`, `RoleGuard`, `RolePlaces` |

## How the model is built

Code that computes is functions. Code that changes state is classes whose methods are proved equal to
such functions of the old state; whole histories are then folds of the functions, and the theorems are
about every history.

The outside world is input. A file is what each single read sees, so a writer may change it between
any two reads. A PUT or GET is a script of answers, lost responses included. Clock readings, answers
of the webhooks and the moment of a crash are parameters. `save_state` is one atomic step that may
fail. A SHA-256 digest is represented by what it is a digest of, so digests are equal exactly when
the preimages are.

Threads are interleaved steps. `MonitorProtocol` is one machine whose steps are those of the log
writer, the polling thread, the worker threads and the webhooks, with a crash possible at any point
and any order of enabled steps; it allows more orders than the code does, so what holds in all its runs
holds in the program's. `MonitorObjects` proves that the polling thread's procedures, up to a whole
poll, are such runs, with the worker threads moving between and inside their loops. `MonitorJournal`
keeps, beside a run, the effects that reached the live and the saved state, and proves that replaying
them gives exactly those states. Lookups of threat providers are interleaved in the same way, in
`ProviderGovernor` for one provider and in `Broker` and `BrokerBound` for the shared cache and all
governors.

## What turned out not to hold

* A manifest contains source name, kind and snapshot size, so a retry after growth or rename fails
  closed; `ArchiveRetry.RetryDecides` says exactly when a retry commits. `ArchiveLostCommit.CommitIsLost`
  and `ArchiveLostCommit.RetryAfterLoss` give a run where it does not, after growth and after a rename;
  then the record is stuck for good (`ArchiveLostCommit.LossIsFinal`, `ArchiveLostCommit.GrowthIsFinal`,
  `ArchiveStuck.StuckUnlessAgreed`).
* The first exception ends a run of the archiver, and rotated files come first: one stuck file keeps the
  files after it, the current one included, from being archived at all (`ArchiveRuns.BlockedFileStarves`,
  `ArchiveLostCommit.RotationStarves`).
* An anchor sees 64 bytes: `Anchors.RegrowthUndetected`.
* A quiet ip-keyed cluster is overwritten by the next event: `SessionClusters.QuietClusterIsOverwritten`;
  `SessionClusters.SupersededExactly` says exactly when, `SessionClusters.NothingSuperseded` gives an
  order under which it is not.
* `post_payload` does not catch every exception an HTTP client can raise (a malformed status line is an
  `HTTPException`, not an `OSError`). Such a POST, or a recovery digest raising after a delivery, leaves
  a possibly delivered item at the head of the queue: `MonitorDelivery.EscapedIsSentAgain`, and
  `MonitorAlerts.AcceptedTwice` for a run from the start.
  `MonitorDelivery.TakenAtMostOnce` holds for every other item.
* The recovery digest ignores the governor: `DeliveryPacing.SendsSpacedExactly` says exactly when the
  interval holds for everything sent, `DeliveryPacing.DigestBypassesGovernor` gives a run where it fails.
* Checking and noting a provider call are two steps, so with W threads up to W - 1 calls start inside a
  cooldown: `BrokerBound.AtMostOthersStart`, `ProviderGovernor.BoundIsTight`. Which lookups those
  are: `Broker.OnlyEarlierChecksCall`.
* A cooldown is overwritten rather than extended. `ProviderGovernor.EndMovesBack` says exactly when its
  end moves back; one thread never does it (`NeverBackAlone`), two can (`TwoThreadsMoveItBack`).
* The alerted kinds are added to the live cluster after its copy was taken. Without a crash a cluster
  alerts once for each kind (`MonitorAlerts.OneAlertPerClusterAndKind`); `MonitorAlerts.ForgottenExactly`
  says exactly when a restart forgets, and `MonitorAlerts.AlertsTwice` gives the run.
* In the guard a literal `true`, or an array holding the ARN among other things, passes for the ARN, and
  an array in the rebuilt list is spliced: `RoleGuard.TakenForTheArn`, `RoleGuard.NestedListGoesWrong`.
  `RoleGuard.AcceptsOnlyTheArn` gives the exact condition under which acceptance means what it should,
  up to letter case, which the guard ignores although IAM does not (`RoleGuard.OtherCaseIsTaken`).

Where comments in the sources say otherwise, the model follows the code: the contract in
`native/discord-monitor.py:213-217` never retries an item, which holds up to the exception above; the
comment at `Invoke-PatriotPot.ps1:1255-1262` promises structural equality, which holds up to letter case.

## Model

| member | source | states |
|---|---|---|
| `Records.CompleteRecords` | native/s3-archive.py:626-635 | the cursor loop yields exactly the LF-terminated records of the data, each with its relative end |
| `Records.Find` | native/s3-archive.py:630-632 | the position of the next LF at or after the cursor, or none |
| `Records.SplitCovers` | native/s3-archive.py:626-635 | the records joined, followed by the unterminated tail, are the data: nothing dropped, nothing repeated |
| `Records.SplitUnique` | native/s3-archive.py:626-635 | any sequence of records and any open tail is what splitting their concatenation gives back |
| `Records.SplitAppend` | native/s3-archive.py:626-635 | cut at a record boundary, the records of a file are those of the two parts: slicing growth over runs changes nothing |
| `Records.SplitPrefix` | native/s3-archive.py:626-635 | the first k records form a prefix that ends at a boundary and splits into exactly those k records |
| `ObjectKeys.PaddedRoundTrip` | native/s3-archive.py:720-724 | a zero-padded decimal field reads back as the number, also when the number is wider than the field |
| `ObjectKeys.DecText` | native/s3-archive.py:720-724 | a printed number is its decimal digits without a leading zero |
| `ObjectKeys.PaddedWidth` | native/s3-archive.py:720-724 | a number of at most that many digits prints at exactly the field's width |
| `ObjectKeys.RangePathText` | native/s3-archive.py:720-724 | the printed path, field by field: decimal device and inode, six digits of generation, twenty of start and end |
| `ObjectKeys.RangePathInjective` | native/s3-archive.py:720-724 | two printed range paths are equal iff device, inode, generation, start and end are equal |
| `Evidence.KeyTextInjective` | native/s3-archive.py:400-432 | the printed key texts, 64 hex digits included, are equal iff inode, generation, range and digest are, and no segment key has the text of a manifest key; the two digests at hand are assumed to print differently |
| `Anchors.ReadRange` | native/s3-archive.py:479-492 | the chunked read loop returns what the bounded read of a changing file is defined to see, chunk by chunk |
| `Anchors.ReadAtAppending` | native/s3-archive.py:479-492 | while the file only grows, a bounded read below a size it already had returns those bytes whatever happens between chunks |
| `Anchors.AnchorsAgree` | native/s3-archive.py:495-533 | the anchor cut from a snapshot and the one recomputed from the descriptor equal the anchor of the whole file at that offset |
| `Anchors.AnchorDecides` | native/s3-archive.py:546-560 | a saved anchor matches the present file iff the file reaches the offset and its last 64 bytes before it, or all of them if there are fewer, are unchanged |
| `Anchors.RegrowthUndetected` | native/s3-archive.py:546-560 | different earlier content with the same last 64 bytes is accepted: what the anchor does not promise |
| `WriteOnceStore.PutOnceSafe` | native/s3-archive.py:318-377 | for every sequence of answers: a return means the stored body has the expected digest, at most one version of one key is created, at most 4 PUTs and 7 seconds of backoff |
| `WriteOnceStore.PutOnceHealthy` | native/s3-archive.py:318-377 | with a healthy network the call returns iff the key is free or its newest version is this very body; otherwise it fails closed and changes nothing |
| `WriteOnceStore.PutOnceRetry` | native/s3-archive.py:334-345 | after any first attempt at all, a retry of the same data body ends in one version, found as existing iff the first stored it |
| `WriteOnceStore.PutOnceDecides` | native/s3-archive.py:318-377 | every call, decided by its answers: after n < 4 conflicts, timeouts and 5xx, n + 1 requests and 0, 1, 3 or 7 seconds; what then ends it, what the bucket holds, and that a body counts as existing iff the key was taken or a lost request had stored it |
| `WriteOnceStore.PutOnceExhausted` | native/s3-archive.py:332-376 | four such answers: a transient failure after 4 requests and 7 seconds, the body stored iff one of them reached the server |
| `WriteOnceStore.PutOnceRefuses` | native/s3-archive.py:320-321 | a segment key that its digest does not end is refused before any request |
| `WriteOnceStore.LostResponseThenPrecondition` | native/s3-archive.py:336-358 | a stored but unacknowledged body is recognised by the same call through the 412 answer, not stored again |
| `WriteOnceStore.EvidenceClient.VerifyObject` | native/s3-archive.py:251-315 | the GET and hash steps, in order, decide as specified from key, digest, version and the answer |
| `WriteOnceStore.EvidenceClient.Attempt` | native/s3-archive.py:332-375 | one attempt: the bucket after it, and whether the call ends with a result, an error, or another round |
| `WriteOnceStore.EvidenceClient.PutOnceCall` | native/s3-archive.py:318-377 | the retry loop's bucket, result, attempts and total sleep are those of the specified call; the final AssertionError is not reached |
| `Archive.Archiver.UploadWithManifest` | native/s3-archive.py:391-432 | data PUT before manifest PUT; the bucket and success flag are those of the specified upload |
| `Archive.Archiver.CommitSegment` | native/s3-archive.py:713-762 | one record: upload, then offset, anchor and counter, then save; any failure leaves the specified earlier state |
| `Archive.Archiver.CommitSnapshot` | native/s3-archive.py:708-762 | the record loop commits the records of the snapshot one after the other, stopping at the first failure |
| `Archive.Archiver.ArchivePathCall` | native/s3-archive.py:638-762 | one whole visit: open checks, legacy marker, lineage decision, snapshot, stability test, record loop |
| `ArchiveSafety.CommittedRangesTile` | native/s3-archive.py:699-762 | any writer, from any loaded state, fresh or migrated: in every reachable world the committed ranges of every inode and generation tile [base, offset) without gap or overlap, and every committed segment is stored with its manifest |
| `ArchiveSafety.NothingUndone` | native/s3-archive.py:563-603 | any writer, from any loaded state: a lineage's persisted (generation, offset) never decreases lexicographically, and no committed evidence disappears |
| `ArchiveSafety.TilesDisjoint` | native/s3-archive.py:400-409 | two different committed ranges of one generation never overlap: the contract the manifests declare |
| `ArchiveSafety.SegmentAnchorAvailable` | native/s3-archive.py:710-714 | the error about an unavailable segment anchor cannot be raised once the snapshot passed the stability test |
| `ArchiveSafety.ResetsExactly` | native/s3-archive.py:575-603 | the lineage decision about a known inode resets its generation iff the size fell below the offset or the window read back is not the anchored one; a lineage still as it was loaded iff its offset does not fit, or its anchor has no digest, another digest, or a wrong field |
| `ArchiveSafety.StableMeans` | native/s3-archive.py:675-698 | any writer: the stability test, whose failure resets the generation too, holds iff the snapshot is complete, the file did not shrink below it and its last window, and the one at the start, read the same before and after |
| `ArchiveVisits.VisitArchives` | native/s3-archive.py:668-762 | any writer, any generation g: a visit that is not stable leaves the lineage at the start of g + 1 and commits nothing; a stable one that returns has committed exactly the records of the file's bytes from the lineage's offset on, in order, under g, and the saved offset is the end of the last, with no LF behind it |
| `ArchiveVisits.VisitDescribes` | native/s3-archive.py:391-432 | a visit that returns has stored each record under its own key, beside a manifest with the visit's name, kind and size and the anchor of the record's end |
| `ArchiveVisits.VisitFinishes` | native/s3-archive.py:699-762 | on a healthy network a stable visit returns iff every record's manifest key is free or holds the very manifest this visit writes |
| `ArchiveManifests.ManifestsDiffer` | native/s3-archive.py:726-737 | two true manifests under one key are equal iff source name, kind and snapshot size are equal |
| `ArchiveManifests.UploadManifests` | native/s3-archive.py:391-422 | an upload keeps every stored manifest true of the file it describes |
| `ArchiveManifests.UploadHealthy` | native/s3-archive.py:391-422 | with a healthy network an upload succeeds iff its manifest key is free or holds this very manifest; the data object is stored either way |
| `ArchiveAppendOnly.AppendsAreStable` | native/s3-archive.py:675-698 | appends between any two reads of a visit never fail the stability test, and the snapshot is the file's bytes |
| `ArchiveAppendOnly.TrackContinues` | native/s3-archive.py:590-602 | against a file that is only appended to, a lineage of any generation continues iff it fits the file and the file reaches its offset: appends alone never reset one |
| `ArchiveAppendOnly.ArchivePathTrack` | native/s3-archive.py:638-762 | a visit that returns leaves no complete record of what it saw uncommitted, in whatever generation the file is archived |
| `ArchiveAppendOnly.RunTrack` | native/s3-archive.py:638-799 | the invariant behind the prefix theorem holds after every history of visits, run ends and crashes of files that are append-only from a loaded state on |
| `ArchiveAppendOnly.ArchiveIsThePrefix` | native/s3-archive.py:626-762 | files append-only from any loaded state on, in any generation: the commits are in one generation, the loaded one if its lineage fits the file, else the next; they are exactly the complete records between the offset gone on from and the saved one, in order, and joined they are that stretch |
| `ArchiveAppendOnly.VisitCatchesUp` | native/s3-archive.py:638-762 | after any such history a visit that returns has made the commits exactly the complete records up to the size it saw, and saved the offset where they end: nothing is left behind in any generation |
| `ArchiveRetry.RetryDecides` | native/s3-archive.py:708-762 | after any append-only history, in any generation, a healthy retry of an uncommitted segment commits iff no manifest was stored for it or the stored one has the same source name, kind and snapshot size; otherwise the offset does not move |
| `ArchiveStuck.StuckUnlessAgreed` | native/s3-archive.py:391-432 | an append-only file whose next record has a stored manifest: through every continuation the offset stands, as long as no visit to it has exactly the stored source name, kind and snapshot size |
| `ArchiveStuck.StuckForEver` | native/s3-archive.py:391-432 | if that manifest tells of a smaller file than was seen since, no continuation whatever moves the offset |
| `ArchiveLostCommit.CommitIsLost` | native/s3-archive.py:391-432 | a run that gets there: the process dies after the manifest of a first record was stored and before the save |
| `ArchiveLostCommit.RetryAfterLoss` | native/s3-archive.py:708-762 | after that run, a healthy visit to the file under any name and with any appended content commits iff name, kind and size are unchanged |
| `ArchiveLostCommit.LossIsFinal` | native/s3-archive.py:391-432 | after that run no append-only history moves the offset until a visit finds the file under its first name, not rotated and exactly as long as the record |
| `ArchiveLostCommit.GrowthIsFinal` | native/s3-archive.py:391-432 | one visit to the grown file, and no condition on the later ones is left |
| `ArchiveLostCommit.GrownIsAppendOnly` | native/s3-archive.py:638-762 | the history it speaks of is one an append-only file can have |
| `ArchiveLostCommit.RotationStarves` | native/s3-archive.py:765-799 | after that run and a rotation, a healthy run archives nothing of the new current file, and a run without the renamed file archives it |
| `Archive.Archiver.LockedRunCall` | native/s3-archive.py:765-799 | one run: load, the visits in order up to the first that raises, save |
| `ArchiveRuns.RunIsHistory` | native/s3-archive.py:786-799 | every run is a history of visits, so what holds after every history holds after every run |
| `ArchiveRuns.BlockedFileStarves` | native/s3-archive.py:765-783 | a blocked file keeps every file that comes after it in the runs from being visited, for any number of runs, while its visits do not have the stored name, kind and size |
| `ArchiveRuns.StarvedStands` | native/s3-archive.py:765-783 | the offset of a file so starved never moves |
| `StateMigration.MigrationKeepsWitness` | native/s3-archive.py:536-560 | a migrated digest-only anchor is accepted for exactly the descriptors it was accepted for before |
| `StateMigration.Version1Restarts` | native/s3-archive.py:575-603 | a version 1 source that had advanced starts over in generation 1, one that had not continues in generation 0 |
| `StateMigration.Version1Archived` | native/s3-archive.py:105-144 | after the upgrade of a version 1 state and any append-only history, a visit that returns has committed exactly the complete records of the whole file, in generation 1 if version 1 had advanced it |
| `StateMigration.LoadKeeps` | native/s3-archive.py:105-144 | loading forgets nothing: version 3 is the saved state, version 2 keeps its markers and every lineage's generation and offset |
| `StateMigration.MarkerDecides` | native/s3-archive.py:606-623 | a version 1 marker stops the replay iff the rotated file still has its inode, size and content |
| `StateMigration.UpgradeKeepsTiling` | native/s3-archive.py:575-603 | from whatever state file an older archiver left, every later history tiles from the offset that file claims and never goes back |
| `OrderedDict.EvictionSplits` | native/session_cluster.py:236-252 | eviction loses and copies nothing, keeps at most the bound, and evicts nothing ranked above a kept entry |
| `OrderedDict.SortSorted` | native/session_cluster.py:247 | the sort is an ascending rearrangement |
| `OrderedDict.SortStable` | native/session_cluster.py:247 | the sort keeps the order of what ranks the same |
| `OrderedDict.PutKeepsPlaces` | native/session_cluster.py:213-216 | assigning to a key of the dict keeps its place, a new key comes last |
| `Display.Sanitize` | native/session_cluster.py:56-63 | the result fits the maximum length and holds no control character and no backtick |
| `Display.SanitizeIdempotent` | native/session_cluster.py:56-63 | sanitising a sanitised text changes nothing |
| `Display.CleanedText` | native/session_cluster.py:56-60 | character by character: which codes are dropped, a backtick becomes an apostrophe, everything else stays |
| `Display.SanitizedText` | native/session_cluster.py:61-63 | a text that fits is shown whole; a longer one is cut to exactly the length and ends in an ellipsis |
| `Display.SuspiciousMeans` | native/session_cluster.py:66-68 | a command is suspicious iff it mentions one of the 21 words, letter case apart |
| `SessionClusters.Recorded` | native/session_cluster.py:90-115 | every event kind adds exactly one to the count, moves the activity time, and keeps key, creation time and alerted kinds |
| `SessionClusters.ObservedCount` | native/session_cluster.py:202-217 | one observe adds one recorded event and loses those of the cluster it supersedes |
| `SessionClusters.FlushSplits` | native/session_cluster.py:219-229 | the flush removes exactly the clusters that are too quiet or too old, and conserves event counts |
| `SessionClusters.EvictSplits` | native/session_cluster.py:236-252 | eviction keeps at most the bound, conserves event counts, and removes only clusters active no more recently than every kept one |
| `SessionClusters.EventsConserved` | native/session_cluster.py:202-274 | every run of observe, flush, evict, save and restart: absorbed events equal the counts of active, flushed, evicted and superseded clusters, live and saved |
| `SessionClusters.NothingSuperseded` | native/session_cluster.py:202-229 | nothing is superseded when events carry a session or a flush at the same time precedes each observe |
| `SessionClusters.SupersededExactly` | native/session_cluster.py:202-217 | run level, in any order: nothing is superseded iff no event without a session met the cluster of its address when that had been quiet for longer than the window and was not flushed yet (only if: while no restart goes back before the loss) |
| `SessionClusters.QuietClusterIsOverwritten` | native/session_cluster.py:206-215 | without that order a quiet ip-keyed cluster is overwritten and its events reach no summary |
| `SessionMembers.SameKey` | native/session_cluster.py:195-200 | two events share a cluster iff they name the same session, or neither names one and the addresses are equal |
| `SessionMembers.RecordedSketch` | native/session_cluster.py:90-115 | recording an event in the summary of a list gives the summary of the longer list: first and last timestamps, last credentials, first commands, first eight suspicious ones, first downloads and uploads |
| `SessionMembers.ClustersAreRemembered` | native/session_cluster.py:202-274 | every run: all clusters, active, flushed, evicted, overwritten or saved, are the summaries of the event lists a second machine keeps by session or address, in the same places and order |
| `SessionMembers.NoClusterMixes` | native/session_cluster.py:195-217 | every run: all events of a list carry the session it is named after, or none and its address |
| `SessionMembers.EverySightingOnce` | native/session_cluster.py:202-252 | every run: the lists hold each absorbed event as often as it was absorbed |
| `ClusterObjects.SessionCluster.RecordEvent` | native/session_cluster.py:90-115 | the method's effect on all fields is the specified one |
| `ClusterObjects.SessionClusterManager.Observe` | native/session_cluster.py:202-217 | the dict of cluster objects after the call, the object returned and whether it is new |
| `ClusterObjects.SessionClusterManager.FlushExpired` | native/session_cluster.py:219-229 | the key loop pops and returns exactly the expired clusters, in dict order |
| `ClusterObjects.SessionClusterManager.EvictOverflow` | native/session_cluster.py:236-252 | the deletion loop removes and returns exactly the overflow, least recently active first |
| `SessionEmbed.RecordedBuilt` | native/session_cluster.py:90-115 | recording keeps the invariant that the suspicious list is the first eight suspicious commands, each at most 120 characters |
| `SessionEmbed.EveryClusterBuilt` | native/session_cluster.py:202-274 | every cluster held, flushed, evicted or superseded in any run satisfies that invariant |
| `SessionEmbed.NotableFits` | native/session_cluster.py:387-388 | the notable-commands block is never truncated |
| `SessionEmbed.BackticksBalanced` | native/session_cluster.py:387-388 | the block shown has exactly two backticks per command |
| `SessionEmbed.EmbedFits` | native/session_cluster.py:361-418 | title, description, footer and all field names and values total less than 6000 characters, whatever the providers returned |
| `EmbedContents.ShowsSession` | native/session_cluster.py:361-418 | title, colour, description and activity, word for word |
| `EmbedContents.ShowsLogin` | native/session_cluster.py:372-378 | the credentials of a login, uncut, and the other text only for a session without one |
| `EmbedContents.ShowsCommands` | native/session_cluster.py:387-388 | the suspicious commands, at most eight, one to a line between backticks |
| `EmbedContents.ShowsProviders` | native/session_cluster.py:286-346 | each provider's field shows that provider's own values, or its status when that is not ok |
| `EnrichmentCache.SetSplits` | native/threat_intel/cache.py:61-76 | one set keeps the bound, leaves survivors untouched, and evicts only entries that expire no later than every kept one |
| `EnrichmentCache.CacheIsLossy` | native/threat_intel/cache.py:52-76 | after any history of sets each entry held is the last one set for its key |
| `EnrichmentCache.GetReturnsLast` | native/threat_intel/cache.py:52-59 | get answers nothing, or the last value set for the key, unexpired; and a key still held and unexpired is answered |
| `EnrichmentCache.SetThenGet` | native/threat_intel/cache.py:52-68 | an entry set with room left is answered until now plus its time to live, and not from then on |
| `EnrichmentCache.SetSize` | native/threat_intel/cache.py:70-76 | nothing is evicted that there is room for |
| `EnrichmentCache.RoomyCacheAnswers` | native/threat_intel/cache.py:52-76 | while there is room for every key, get answers exactly as an unbounded map whose values expire |
| `EnrichmentCache.SetMayEvictItself` | native/threat_intel/cache.py:61-76 | in a full cache a new key survives its own set iff some older entry expires no later |
| `EnrichmentCache.Cache.Lookup` | native/threat_intel/cache.py:52-59 | the method answers as specified |
| `EnrichmentCache.Cache.Store` | native/threat_intel/cache.py:61-68 | the dict after a set, within the bound |
| `EnrichmentCache.Cache.EvictIfNeeded` | native/threat_intel/cache.py:70-76 | the deletion loop removes exactly the entries expiring first |
| `ProviderGovernor.CheckPasses` | native/threat_intel/rate_governor.py:42-45 | every interleaving: can_call lets a lookup pass iff the pause of the latest 429 is over and min_interval has gone by since the latest call started |
| `ProviderGovernor.ProviderRateGovernor.NoteLimited` | native/threat_intel/rate_governor.py:55-69 | cooldown end and miss count after a 429, announced or not |
| `ProviderGovernor.BackoffAddsUp` | native/threat_intel/rate_governor.py:42-69 | serial unannounced 429s: the k-th call comes no earlier than the sum of the k-1 doubled and capped backoffs after the first |
| `ProviderGovernor.AtMostOthersCall` | native/threat_intel/broker.py:135-154 | with W interleaved lookups at most W-1 calls start inside the cooldown set by the latest 429 |
| `ProviderGovernor.BoundIsTight` | native/threat_intel/broker.py:136-144 | for every W from two on a run reaches that bound: check and note are not one step |
| `ProviderGovernor.EndMovesBack` | native/threat_intel/rate_governor.py:55-69 | a step moves a provider's cooldown end back iff it is a 429 whose pause ends before the running one |
| `ProviderGovernor.NeverBackAlone` | native/threat_intel/rate_governor.py:55-69 | with one lookup thread no reachable step moves it back |
| `ProviderGovernor.TwoThreadsMoveItBack` | native/threat_intel/broker.py:135-154 | with two threads a run does: the second 429 of two overlapping calls cuts the first one's pause short |
| `Broker.KeyInjective` | native/threat_intel/cache.py:20-21 | cache keys are equal iff provider and address are |
| `Broker.HitRepeatsAnAnswer` | native/threat_intel/broker.py:119-174 | every interleaving, from any loaded cache: a cache hit is the loaded entry or an earlier network answer for the same provider and address, changed in cache_hit only, before its expiry |
| `Broker.CacheIsTheSets` | native/threat_intel/broker.py:119-174 | every interleaving: the shared cache is the loaded one after the storing steps of the run, in their order, and nothing else |
| `Broker.OnlyEarlierChecksCall` | native/threat_intel/broker.py:135-154 | every interleaving: a lookup that can still call while its provider cools down had passed the check before a later 429 of that provider |
| `Broker.CooldownStopsEveryAddress` | native/threat_intel/broker.py:135-154 | while a provider cools down every check, for any address, fails and changes nothing shared; only a lookup already past its check reaches the network, and only an answer to a running call moves the end |
| `BrokerBound.AtMostOthersStart` | native/threat_intel/broker.py:135-154 | the broker's own interleavings: if at most W lookups of a provider are past the check at a time, at most W-1 of its calls start inside the cooldown its latest 429 set |
| `Broker.ThreatIntelBroker.ReadCache` | native/threat_intel/broker.py:119-133 | the cache and credential step of one lookup |
| `Broker.ThreatIntelBroker.CheckGovernor` | native/threat_intel/broker.py:135-141 | the can_call step of one lookup |
| `Broker.ThreatIntelBroker.StartCall` | native/threat_intel/broker.py:142-144 | the note_call_attempt step: only this provider's governor changes |
| `Broker.ThreatIntelBroker.TakeAnswer` | native/threat_intel/broker.py:144-154 | the step after the network: a 429 or a success is noted with this provider's governor |
| `Broker.ThreatIntelBroker.StoreAnswer` | native/threat_intel/broker.py:155-174 | the last step: a cacheable answer is stored, and the envelope returned |
| `Broker.EnrichIp` | native/threat_intel/broker.py:97-117 | one envelope per provider, whatever raised or timed out |
| `Broker.ThreatIntelBroker.LookupProvider` | native/threat_intel/broker.py:119-174 | a whole lookup that no other thread disturbs is those five steps in order, leaving early as the source does |
| `BrokerAnswers.LookupDecides` | native/threat_intel/broker.py:119-174 | an undisturbed lookup, decided by cache, credential and pause: which envelope it returns, and that only a call changes what is shared |
| `BrokerAnswers.AnswerIsRepeated` | native/threat_intel/broker.py:119-174 | with room in the cache an answer is repeated without a call for 45 minutes, 3 or 18 hours by provider, a failure for 5 minutes, an exception not at all |
| `BrokerAnswers.AnswerPauses` | native/threat_intel/broker.py:144-154 | every interleaving: a 429 pauses its own provider for the seconds it names, between 1 and 600, or else for 30 seconds doubled with each one in a row, up to 600; any other answer starts the doubling over |
| `BrokerAnswers.BackoffNumbers` | native/threat_intel/rate_governor.py:55-69 | the n-th unannounced 429 in a row: 30, 60, 120, 240, 480 and then always 600 seconds |
| `EnrichmentWorker.EveryTaskOnce` | native/threat_intel/worker.py:39-65 | every interleaving of submits, thread steps and drains: inflight is accepted minus freed, within bounds, and each accepted task is in exactly one place or drained once |
| `EnrichmentWorker.FinishHolds` | native/threat_intel/worker.py:45-52 | giving back a slot neither loses nor copies a task |
| `EnrichmentWorker.DeliverHolds` | native/threat_intel/worker.py:53 | putting the result into the queue, later, neither loses nor copies a task |
| `EnrichmentWorker.ThreatIntelWorker.TrySubmit` | native/threat_intel/worker.py:39-56 | refused iff max_inflight slots are taken; otherwise the slot is taken and the cluster goes to the pool |
| `EnrichmentWorker.ThreatIntelWorker.DrainCompleted` | native/threat_intel/worker.py:58-65 | the loop empties the queue and returns its contents in order |
| `DiscordGovernor.DiscordRateGovernor.NoteHeldBack` | native/discord_rate_governor.py:49-57 | the largest backlog met while degraded |
| `DiscordGovernor.DiscordRateGovernor.NoteDelivered` | native/discord_rate_governor.py:59-66 | reports recovery and the backlog once, and leaves degraded mode |
| `DiscordGovernor.DiscordRateGovernor.NoteLimited` | native/discord_rate_governor.py:68-75 | cooldown clamped between one second and the maximum; whether degraded mode is new |
| `DeliveryPacing.PacingKept` | native/discord-monitor.py:620-653 | every run of drains: POSTs on a channel are at least min_interval apart, none starts before a 429's clamped cooldown ends, each 429 moves that end forward |
| `DeliveryTiming.PausesKept` | native/discord_rate_governor.py:42-75 | the same in numbers: after a 429 answered at t that asks for s seconds, or the default, no POST before t + s, where s counts as 1 if smaller and as the maximum if larger |
| `DeliveryTiming.DefaultPauses` | native/discord_rate_governor.py:16-18 | with the defaults: 60 seconds if asked for, 30 if not told, at least 1, at most 300 |
| `DeliveryTiming.TurnSendsExactly` | native/discord-monitor.py:620-627 | and no longer: after any run a turn sends a POST iff the interval since the last POST and the pause of the last 429 are over, otherwise it sends nothing and leaves the queue alone |
| `DeliveryPacing.LoopPaced` | native/discord-monitor.py:620-653 | the same across one drain, which takes at most as many turns as the queue is long |
| `DeliveryPacing.EpisodesReported` | native/discord-monitor.py:629-633 | a digest follows exactly the delivery that ends a degraded episode with a backlog, and reports its largest backlog |
| `DeliveryPacing.OneDigestPerEpisode` | native/discord-monitor.py:629-633 | between two digests of a channel there is a 429 |
| `DeliveryPacing.SendsSpacedExactly` | native/discord-monitor.py:620-653 | every run: all requests of a channel, digests included, keep the interval iff each digest keeps it from the delivery before it and the next POST from the digest |
| `DeliveryPacing.DigestBypassesGovernor` | native/discord-monitor.py:633 | the governor sees to neither: a concrete run that breaks both |
| `DeliveryQueue.MonitorState.RecordSeen` | native/discord-monitor.py:470-473 | appending to seen keeps the latest MAX_SEEN ids |
| `DeliveryQueue.MonitorState.EnqueuePending` | native/discord-monitor.py:476-489 | refuses a known id; otherwise drops the oldest of a full queue to dead letters and seen, then appends |
| `DeliveryQueue.MonitorState.LoadState` | native/discord-monitor.py:213-229 | everything pending is dead-lettered as suppressed and marked seen, legacy first; nothing stays pending |
| `DeliveryQueue.MonitorState.BuryAll` | native/discord-monitor.py:609-619 | without a webhook the whole queue is dead-lettered in order |
| `DeliveryQueue.MonitorState.TakeTurn` | native/discord-monitor.py:620-653 | one turn of the send loop, whole or cut short by an exception in a save, the POST or the digest: governor, log, queue, lists and the saved file |
| `DeliveryQueue.MonitorState.DrainPending` | native/discord-monitor.py:599-653 | a whole drain, or one that an exception ends: queue, lists, governor, log, and what the file holds afterwards |
| `DeliveryQueue.DrainKeepsOrder` | native/discord-monitor.py:620-653 | items leave from the head only: what was settled followed by what stays is what was there |
| `DeliveryFates.FatesFollowAnswers` | native/discord-monitor.py:624-653 | the n-th item settled by a drain is that of its n-th POST: delivered after a 2xx, a dead letter after a failure; a 429 settles nothing and ends the drain; a drain that nothing ends empties the queue |
| `DeliveryFates.FileKeepsUp` | native/discord-monitor.py:624-653 | when no save raises, the file knows of everything a drain settled |
| `DeliveryFates.NothingSentWithoutWebhook` | native/discord-monitor.py:609-619 | without a webhook nothing is sent and the whole queue becomes dead letters, in order |
| `DeliveryFates.SettledLists` | native/discord-monitor.py:470-473 | settling any items leaves the last 2048 ids and the last 128 dead letters |
| `DeliveryFates.EnqueueDecides` | native/discord-monitor.py:476-489 | enqueuing in full: when nothing changes, when the item is appended, and what a queue of 256 loses first |
| `DeliveryFates.RestartDecides` | native/discord-monitor.py:213-229 | a restart empties both queues; what was pending becomes dead letters and counts as seen, legacy first |
| `DeliveryQueue.SavedBeforeEveryPost` | native/discord-monitor.py:624-627 | when a POST is sent the saved queue still holds its item at the head |
| `DeliveryLedger.HistoriesInOrder` | native/discord-monitor.py:470-489 | every history: accepted items are the settled ones followed by the pending ones, in order; at most 256 pending, unique ids, none in seen; seen and dead letters are the latest entries |
| `DeliveryLedger.StepIsTheOperation` | native/discord-monitor.py:476-489 | the histories move by the monitor's own operations |
| `DeliveryLedger.SeenWindowSuffices` | native/discord-monitor.py:470-473 | the bounded seen list gives the same history as an unbounded one when repeats are at most MAX_SEEN recorded ids apart |
| `DeliveryLedger.ForgottenLineReturns` | native/discord-monitor.py:492-507 | on a line the two lists differ iff its digest was recorded and has left the window |
| `ChannelIsolation.ChannelsDoNotInterfere` | native/discord-monitor.py:599-653 | fresh ids: in every interleaving each channel's queue, governor, fates and POSTs are those of its own operations run alone |
| `ChannelIsolation.RunsAlone` | native/discord-monitor.py:476-489 | fresh ids: a channel behaves as if it never looked at the lists it shares |
| `MonitorJournal.AbsorbedExactlyOnce` | native/discord-monitor.py:492-538 | every run with appends, rotations, truncations, failed saves and crashes: seen, clusters, awaited and flushed clusters and queues, saved and live, are what queue_line leaves when applied once, in order, to exactly the complete lines before the offsets, between effects that feed no line |
| `MonitorEvents.EventsAccounted` | native/discord-monitor.py:492-596 | every run: the usable lines absorbed equal the events of the clusters held, of those flushed or evicted, and of those overwritten, saved and live |
| `MonitorAbsorption.LinesFedOnce` | native/discord-monitor.py:666-702 | every run: the live and saved offsets are record boundaries inside the tailed file, and the lines handed on are exactly the complete ones before the offsets of it and of the files left behind, each once, in order |
| `MonitorAbsorption.NoFileSkipped` | native/discord-monitor.py:740-758 | when no rotation is missed and every file left could be read to its end, the files read follow one another without a gap and all their complete lines were absorbed |
| `MonitorAbsorption.GrowingKeeps` | native/discord-monitor.py:666-702 | appends and rotations by the writer never invalidate a saved offset |
| `MonitorQueues.OfferOk` | native/discord-monitor.py:476-489 | an id never accepted before is accepted, and no settled id becomes pending |
| `MonitorQueues.RecoverOk` | native/discord-monitor.py:803-823 | startup recovery turns every awaited cluster into an accepted summary, in whatever order the file lists them |
| `MonitorDelivery.RunInv` | native/discord-monitor.py:547-653 | the protocol invariant holds after every run with distinct log lines and flush ids |
| `MonitorDelivery.TakenAtMostOnce` | native/discord-monitor.py:620-653 | no item id is taken twice by Discord over all runs and crash points, except one whose POST was taken but raised past post_payload; what is taken had been saved as enqueued |
| `MonitorDelivery.EscapedIsSentAgain` | native/discord-monitor.py:447-467 | that exception does break it: the item is still at the head and is sent again |
| `MonitorDelivery.TurnIsOnePost` | native/discord-monitor.py:624-653 | a posting turn of the drain loop is one POST of the machine, on the queues and on disk |
| `MonitorDelivery.SummarizedExactlyOnce` | native/discord-monitor.py:564-596 | saved state and memory: each flushed cluster is awaited or its summary was accepted, never both, each once; the awaited ones are exactly the worker's unhandled tasks; inflight within its limit |
| `MonitorDelivery.NothingLeftAwaiting` | native/discord-monitor.py:803-823 | when the worker holds nothing, and after every restart, no flushed cluster lacks its summary |
| `MonitorEffects.SummaryShowsAnswer` | native/discord-monitor.py:547-596 | every run with distinct ids: the item accepted for a drained result is the rendering of its cluster with the answer that task's own thread ended with |
| `MonitorEffects.RefusedShowsNone` | native/discord-monitor.py:583-586 | a cluster the full worker refuses is summarized at once, without enrichment |
| `MonitorEffects.RecoveredShowsNone` | native/discord-monitor.py:803-823 | a summary recovered at startup shows no enrichment |
| `MonitorEffects.AlertRaised` | native/discord-monitor.py:526-538 | the first event of a priority kind at a cluster appends the alert of that very event to the legacy queue and marks the kind |
| `MonitorEffects.AlertOnlyThen` | native/discord-monitor.py:526-538 | and nothing else queues anything for a line |
| `MonitorEffects.RepeatedLineIgnored` | native/discord-monitor.py:492-507 | a line that comes again at once changes nothing |
| `MonitorEffects.LineMarked` | native/discord-monitor.py:492-512 | every line is remembered; a remembered one changes nothing, and one that is no event record nothing else |
| `MonitorEffects.FlushTakesOut` | native/discord-monitor.py:564-576 | a flush leaves at most the maximum of clusters, none too quiet or too old, and every other one is to be summarized, once |
| `MonitorEffects.FlushIdsDiffer` | native/discord-monitor.py:541-544 | two flush ids are equal iff key, creation time, activity time and event count are |
| `MonitorDelivery.CrashInv` | native/discord-monitor.py:213-229 | the invariant survives a crash at any step, a POST on its way included |
| `MonitorAlerts.OneAlertPerClusterAndKind` | native/discord-monitor.py:526-538 | every run: between two alerts of one kind for one key the cluster was flushed, evicted or overwritten, or the process restarted |
| `MonitorAlerts.ForgottenExactly` | native/discord-monitor.py:519-538 | every run: a cluster that alerted before the last save comes back from a crash without the alerted kind iff no copy of the clusters was taken between the alert and that save |
| `MonitorAlerts.AlertsTwice` | native/discord-monitor.py:519-538 | such a crash makes the next line of that kind alert again, and without the crash it does not: two concrete runs |
| `MonitorAlerts.AcceptedTwice` | native/discord-monitor.py:447-467 | a run from the start in which one alert is taken twice by Discord, through an exception post_payload does not catch |
| `MonitorObjects.Monitor.HandleLine` | native/discord-monitor.py:492-538 | queue_line's effect on the state dict and the manager |
| `MonitorObjects.Monitor.TakeTurn` | native/discord-monitor.py:620-653 | one turn of the send loop, exceptions included, is a run of the machine with worker threads moving during the POST; its own steps are the specified ones, so a lost POST counts as taken iff it arrived |
| `MonitorObjects.Monitor.DrainPending` | native/discord-monitor.py:599-653 | the same for a whole drain, which equals the specified drain |
| `MonitorObjects.Monitor.Consume` | native/discord-monitor.py:666-702 | the line loop, a save and a legacy drain after each line, while the writer appends: a run of the machine that absorbs exactly the lines it moves the offset past and, unless an exception ends it, leaves no complete line unread |
| `MonitorObjects.Monitor.FollowLog` | native/discord-monitor.py:728-758 | begin, rotation with the old inode found or not, detected truncation, and reading: a run of the machine that, unless an exception ends it, ends at the current file with every complete line read |
| `MonitorObjects.Monitor.FlushExpired` | native/discord-monitor.py:572-587 | whatever worker steps fall between: a run of the machine whose own steps are flush, one step per cluster, save unless it raises |
| `MonitorObjects.Monitor.CollectResults` | native/discord-monitor.py:589-596 | whatever worker steps fall between: a run of the machine whose own steps are collect, one take per result until none is there, one step per result, save unless it raises |
| `MonitorObjects.Monitor.PollOnce` | native/discord-monitor.py:713-761 | a whole poll, in every branch and up to its first exception, is a run of the machine; unless one ends it no complete line of the current file is left unread |
| `MonitorObjects.RunContinues` | native/discord-monitor.py:713-761 | a run of the machine followed by what the methods do is a run again, so what holds of every run holds after every poll |
| `MonitorObjects.Monitor.RecoverAwaiting` | native/discord-monitor.py:803-823 | the recovery loop over restorable entries leaves what the machine's restart leaves |
| `MonitorObjects.Monitor.constructor` | native/discord-monitor.py:826-839 | loading: saved state with pending items suppressed, manager restored from it |
| `CanonicalEquality.TwoPasses` | Invoke-PatriotPot.ps1:1267 | the two Replace passes escape each backslash and quote once |
| `CanonicalEquality.FoldCanon` | Invoke-PatriotPot.ps1:1254-1284 | the canonical text without letter case is the print of the document's normal form |
| `CanonicalEquality.PrintCancels` | Invoke-PatriotPot.ps1:1254-1284 | the printer is a prefix code: a printed value ends where it ends |
| `CanonicalEquality.NormalDecides` | Invoke-PatriotPot.ps1:1272-1278 | normal forms are equal iff the documents are equal up to property order and letter case |
| `CanonicalEquality.CanonicalTextDecides` | Invoke-PatriotPot.ps1:1254-1284 | canonical texts are equal under -ne iff the documents are equal up to property order and letter case |
| `RoleGuard.AcceptanceMeans` | Invoke-PatriotPot.ps1:1311-1407 | the guard accepts iff the ARN occurs once and either the new document without that Resource entry, the other array entries of its list spliced in, is the old one, or it is the whole of one Resource and the documents are the same |
| `RolePlaces.OccurrencesArePlaces` | Invoke-PatriotPot.ps1:1323-1333 | the count is the number of places: a Resource that is the ARN as one string, or an entry of a Resource list that is it, a literal true, or an array with one of them |
| `RolePlaces.AcceptsOnePlace` | Invoke-PatriotPot.ps1:1311-1407 | the guard accepts iff there is exactly one place, and the document is the old one if that is a whole Resource, or becomes it when that entry is removed; so two places of either kind are refused |
| `RolePlaces.PassesExactly` | Invoke-PatriotPot.ps1:1369-1395 | the whole guard passes iff one single detail carries two policy documents and the comparison accepts them |
| `RoleGuard.AdditionAccepted` | Invoke-PatriotPot.ps1:1399-1407 | inserting one occurrence into a Resource list is accepted iff the old document is that document with the list spliced: without an array in the list iff nothing else differs, with one never when nothing else differs |
| `RoleGuard.RemoveUndoesInsert` | Invoke-PatriotPot.ps1:1341-1352 | cutting the inserted entry gives the document back, and the script's rebuild gives it back with that list spliced |
| `RoleGuard.OnlyPlace` | Invoke-PatriotPot.ps1:1323-1354 | with one occurrence the list that is rebuilt and the entry that is removed are the only ones possible |
| `RoleGuard.AcceptsOnlyTheArn` | Invoke-PatriotPot.ps1:1311-1407 | letter case aside, an accepted change adds the ARN string and nothing else iff the list that holds the occurrence has no array and no literal true; under that condition exactly those additions are accepted |
| `RoleGuard.OtherCaseIsTaken` | Invoke-PatriotPot.ps1:1330-1332 | letter case is lost: any spelling of the ARN passes as the addition, next to an entry that changed its case |
| `RoleGuard.TakenForTheArn` | Invoke-PatriotPot.ps1:1330-1332 | three entries pass as the one addition: the ARN, a literal true, and an array holding the ARN among anything else, because of how -eq converts and filters |
| `RoleGuard.NestedListGoesWrong` | Invoke-PatriotPot.ps1:1348-1350 | a list holding an array: adding the ARN to it is rejected, and accepted against a list that held the array's entries separately |
| `RoleGuard.Rebuild` | Invoke-PatriotPot.ps1:1346-1352 | the loop that rebuilds the list drops the one entry and splices the others, as += does |
| `RoleGuard.CountOccurrences` | Invoke-PatriotPot.ps1:1323-1333 | the nested counting loops count every occurrence in every statement |
| `RoleGuard.FindPlace` | Invoke-PatriotPot.ps1:1338-1346 | the search finds the first statement with a hit in its list, and the first hit there |
| `RoleGuard.RemoveSingleArnOccurrence` | Invoke-PatriotPot.ps1:1311-1356 | fails unless exactly one occurrence exists; otherwise the document with that one list rebuilt |
| `RoleGuard.AssertInstanceRoleChangeIsAuthParityOnly` | Invoke-PatriotPot.ps1:1358-1407 | passes iff exactly one detail parses on both sides and the guard accepts it |

## Left out

- Archive: the `current` and `updated_at` bookkeeping, the lock, the instance id, the glob order and the spool files of the archiver.
- Archive: a buffered read is served from one state of the file; the cache inside Python's buffered reader is not modelled.
- WriteOnceStore: boto3, checksum headers other than equal, absent or wrong, versions other than the ones the store returns; a GET answers with the object the store holds or with an error.
- StateMigration: malformed state files, and fields of versions 1 and 2 that no later step reads.
- Evidence: SHA-256 and JSON text; a digest is its preimage, a manifest its record of fields.
- Evidence.KeyTextInjective: assumes of the two digests at hand, and of no others, that different ones print different hex texts.
- ArchiveSafety.ResetsExactly: only the lineage decision of a visit; the reset after a failed stability test is `ArchiveSafety.StableMeans`.
- ArchiveAppendOnly.ArchiveIsThePrefix: from the loaded state on no file is truncated or rewritten, a loaded lineage that fits its file ends a record, and stored manifests of the generation to be continued are of that file; a history with a truncation is two such histories, or has the tiling of `ArchiveSafety.CommittedRangesTile`.
- ArchiveRuns.BlockedFileStarves: which paths a run lists, and in which order, is given; the blocked file has no version 1 marker.
- MonitorProtocol: a line is unusable or an event record; the decoder, the alert text and the summary text are parameters.
- MonitorProtocol: rotated files are no longer written, a truncation that the file has outgrown before the next poll goes unnoticed there and is absent here, and submitting to the executor and building a payload do not raise.
- MonitorAbsorption.NoFileSkipped: assumes no second rotation between two polls, no lost inode and no truncation; without that `MonitorJournal.AbsorbedExactlyOnce` still holds for what was read.
- MonitorDelivery.TakenAtMostOnce: assumes distinct log lines and distinct flush ids, counts a 429 as not accepted, and excludes an item whose accepted POST ended in an exception that `post_payload` does not catch.
- MonitorDelivery.SummarizedExactlyOnce: assumes distinct log lines and distinct flush ids.
- MonitorObjects.Monitor.PollOnce: no rotation falls into the poll itself; the steps of its drains, flush and collection are pinned by those methods and not again here.
- MonitorObjects.Monitor.RecoverAwaiting: the branch that drops an entry `from_dict` cannot read; the entries here are clusters, which `to_dict` wrote.
- MonitorObjects.Monitor.constructor: the startup POST of `main`; it carries no queued item.
- MonitorObjects.Monitor.DrainPending: the recovery digest is `DeliveryQueue.Entry.Digest` of the specified drain; the machine does not count it as an item.
- MonitorAlerts.OneAlertPerClusterAndKind: an alert whose text cannot be built counts as raised, as the source counts it.
- ChannelIsolation.ChannelsDoNotInterfere: assumes that no item id is offered twice, since a repeated id is judged by the shared `seen` list.
- DeliveryQueue: the older versions of the monitor's state file and the credential cache; whether a webhook is known is a parameter of each drain.
- DeliveryTiming.TurnSendsExactly: of runs in which no save before a POST raises, since such a turn counts as an attempt without a request.
- BrokerAnswers.LookupDecides: of a lookup that no other thread disturbs; `Broker` has the interleaved ones.
- DeliveryPacing.PacingKept: assumes that the clock does not run backwards within a turn, a nonnegative interval and a positive maximum cooldown.
- ProviderGovernor.NeverBackAlone: assumes nonnegative configured cooldowns.
- ProviderGovernor.BackoffAddsUp: exact real arithmetic; the doubling overflows nothing.
- SessionClusters: the order in which a restart lists clusters (the file sorts its keys) only matters for ties in eviction and is not modelled; neither is skipping a malformed stored cluster, nor `flush_all`.
- ClusterObjects: the JSON form of a cluster; saving and restoring one gives it back.
- SessionEmbed: the inline flags, the printed duration (a parameter of bounded length) and Unicode case folding in the search for interesting commands.
- EnrichmentCache: loading and saving the cache file.
- Broker: normalising provider answers, the credentials' refresh, the query time, API version and response hash; an answer is its status and content.
- CanonicalJson: `ConvertTo-Json -Depth 30` on deeper documents, dates that the JSON reader converts, the culture rules of sorting and of `-eq` beyond ASCII letter case, and how an empty object prints.
- RoleGuard: an empty ARN, an ARN that reads as a number, and arrays nested twice inside a Resource list.
- Everything else in the repository: provider clients, parameter store, egress firewall, systemd units, CloudFormation template and the rest of the deployment script are input/output or single checks.
