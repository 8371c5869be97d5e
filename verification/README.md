# ctf-koth-evals-template, verified model

A Dafny 4.11 model of the parts of the evals platform where something can go wrong between
functions: the lease-based run queue behind `/internal/*`, the server-sent-events hub, the scoring
arithmetic and the distribution view, suite slugs, and challenge bundles. Every property holds for
all inputs, all interleavings and all run lengths. `dafny verify dfyconfig.toml` checks the project.

## How it is laid out

- `Tables`, `Queue`: the rows of `runs` and `workers`, and what one database update makes of them.
  SQL NULL is an option, `NOT IN` is three-valued, the order of equals is left open.
- `Handlers`: the class with the server's mutable state. Each method is one section under `writeMu`,
  written as the handler writes it and proved equal to the functions of `Queue`.
- `Protocol`: the server as a state machine made of those functions. A worker request is
  `Arrive` (the middleware decides under its own mutex), perhaps `Record` (the heartbeat write, which
  may fail), then a claim, a result or something read-only; the sweeper, the operator's cancel, retry
  and prioritize, enqueues, the clock and a restart of the process come in between in any order.
  Submissions are persisted outside `writeMu`, so a new row's `created_at` may lie before its commit.
- `Effects`: what each event writes, column by column.
- `Invariants`, `Leases`, `History`, `Heartbeats`, `Retries`, `Accounting`, `Fairness`: what all behaviours of that
  machine keep.
- `Hub`, `Wakeup`: the channels, and the machine combined with the hub and the pages, where the notify after a commit is a
  separate step.
- `Sorting`, `Sums`, `Scoring`, `Distributions`: `sort` as its documentation promises it, sums of reals,
  the six strategies, the comparison view.
- `Slug`: file names for suites.
- `Paths`, `Sources`, `Bundle`, `Replay`, `Extraction`: `filepath` on Unix, the directory to be packed with its links
  and what a walk of it finds, packing, replaying entries under a umask and the kernel's permission checks, and
  extraction next to rivals that fail and crash.

Time is an integer on one clock that never goes back; scores are exact reals; a standard deviation is
given by its square; the result, error and log columns are opaque strings.

## Where the code and its documentation part

- "Treat workers stale after 30s of silence" (README.md:127, internal/server/sweeper.go:13-17): the
  heartbeat is throttled, so only silences up to workerTimeout − heartbeatTTL are safe.
  `Leases.LeaseLossIff` gives the exact bound; `Leases.UnaccountedIsUnprotected` shows that a heartbeat still
  waiting for the lock, or lost, leaves no bound at all.
- "Every call a worker makes upserts its row" (README.md:125): exactly the calls that give a name under which no write
  has been booked within the TTL (`Heartbeats.CallUpsertsIff`). A lease taken without a name falls at a sweep exactly
  when no worker that goes by "unknown" has been written within workerTimeout (`Heartbeats.AnonymousLeaseFalls`; both
  outcomes occur, `Heartbeats.AnonymousLeases`).
- "Pushes on every run state change" (README.md:285) does not keep every page current. A page with no notify, message or
  fetch outstanding has fetched after every announced change since its channel was registered (`Wakeup.NoLostWakeup`),
  and it is out of date exactly when rows have been seeded since its last fetch, as `seed-demo` is another process and
  pushes nothing, or when it was out of date already as its channel was registered and has not fetched since
  (`Wakeup.OutOfDateIff`). Pages fetch before their stream is open (web/src/pages/Overview.tsx:52-60), and a stream that
  reconnects by itself fetches nothing (web/src/api/events.ts:41-43). `Wakeup.SeedMissed`, `Wakeup.FetchedTooEarly` and
  `Wakeup.ReconnectMisses` are runs of the three kinds.
- "Above everything else currently queued" (internal/server/public_api.go:597-600): not above a run of another
  submission prioritized at the same instant and no younger (`Fairness.RivalsOutrunIff`, `Fairness.RivalReachable`).
- "Symlinks are followed" (internal/bundle/bundle.go:26): each path is followed when it is read, but the walk enters no
  link and no root that is a link. So it is true exactly of directories without a link, the root included, to a
  directory that holds something to pack (`Sources.LinksFollowedIff`; `Sources.LinkedDirectoryLoses` and
  `Sources.LinkedRootLoses` are two that lose a file).
- A bundle with a top-level name starting with ".." packs and can never be extracted, and so does one with a
  directory its extractor may not write into (`Replay.RoundTrip` gives the exact condition; `Replay.DottedFileStuck`
  and `Replay.ReadOnlyDirectoryStuck` are directories that show it).
- `running` (README.md:123) is never reached (`Invariants.Reachable`).
- Retry promises the next claim a clean slate (internal/server/public_api.go:563-566): it is clean but for the logs. What
  the earlier attempt wrote to stdout or stderr is still in the row after the next report exactly when that report
  brings none, or the very same (`Retries.CleanSlateIff`; `Retries.StaleLogs` is a run of the server in which it does).

## Model

| member | source | states |
|---|---|---|
| Queue.HeadExistsIff | internal/server/internal_api.go:75-90 | the claim query has a first row exactly when something is pending |
| Queue.SweepMeetsPurposeIff | internal/server/sweeper.go:42-63 | for any tables, the SQL sweep requeues exactly the orphaned claims if and only if no claimed row has a NULL holder or nobody is fresh |
| Queue.SweepByRows | internal/server/sweeper.go:53-63 | the rows counted by the sweep are the rows changed; it changes nothing exactly when it counts none |
| Protocol.RowMoves | internal/server/internal_api.go:92-97 | no event deletes a row, and each row moves only as its event says |
| Protocol.RowAppears | internal/server/public_api.go:450-463 | rows appear only by an enqueue, pending, with the schema defaults |
| Queue.ParsesIff | internal/server/internal_api.go:263-269 | a reported status is taken for an end exactly if it spells that end, and "succeeded", "failed", "timed_out" and "cancelled" are all there are |
| Effects.RequestKeepsName | internal/server/internal_api.go:60-63 | a request is known throughout by the X-Worker-Id it came with |
| Effects.ClaimBooks | internal/server/internal_api.go:57-106 | in every behaviour a claim takes a pending run of the highest priority, the oldest of these, and writes its status, the request's whole name ("unknown" for none) and the time, nothing else |
| Effects.GrantLasts | internal/server/sweeper.go:39-63 | from end to end: a run granted to a named worker stays that worker's, row and all, until it is reported on or cancelled, if at every sweep the worker has made a request within workerTimeout − heartbeatTTL and its heartbeats are accounted for |
| Effects.ReportWrites | internal/server/internal_api.go:174-261 | which reports take effect, by the spelling of the status and the row's own status; then the row carries the status spelled and the time, and every other column as the report fills it or else as it was |
| Effects.SweepWrites | internal/server/sweeper.go:42-63 | a sweep changes status, worker_id and claimed_at of the orphans, and no other column or row |
| Effects.CancelReaches | internal/server/public_api.go:513-561 | after a cancel nothing of its target is pending, claimed or running; what changed got the status and the time, nothing else |
| Effects.RetryReaches | internal/server/public_api.go:567-595 | after a retry nothing of its submission has ended without success; a retried run keeps its priority, date and logs |
| Effects.PrioritizeReaches | internal/server/public_api.go:601-622 | "send to top" writes the time as priority to the submission's pending runs, and nothing else |
| Effects.EnqueueAdds | ent/schema/run.go:17-38 | new runs carry what was supplied and the schema's defaults; no other run changes |
| Effects.OthersLeaveRuns | internal/server/heartbeat.go:29-42 | the clock, requests coming and going, heartbeats, an empty-handed claim and a restart change no run |
| Effects.WorkerRow | internal/server/heartbeat.go:55-77 | a worker's row begins with its first heartbeat at zero; a heartbeat dates it, a counted success dates and counts, nothing else touches it, created_at never changes |
| Invariants.Reachable | internal/server/internal_api.go:57-106 | in every reachable state each status carries exactly its columns, running never occurs, created ≤ claimed ≤ finished ≤ now, and every worker's contact and cache entry is backed by its row, a write still owed, or a recorded loss |
| Leases.LiveLeasesSurvive | internal/server/heartbeat.go:19-77 | in every interleaving a sweep leaves alone each run of a named worker that made a request within workerTimeout − heartbeatTTL, if no heartbeat of its is owed or lost |
| Leases.SilenceCosts | internal/server/heartbeat.go:44-53 | for every longer silence there is a behaviour in which the lease is taken |
| Leases.LeaseLossIff | internal/server/sweeper.go:39-63 | a silence can cost an accounted-for worker its lease if and only if it exceeds workerTimeout − 5 s |
| Leases.UnaccountedIsUnprotected | internal/server/heartbeat.go:29-42 | with the first heartbeat still owed, or lost, a run can be swept away in the instant of its holder's request, whatever the timeout |
| History.ClaimsAreSeparated | internal/server/internal_api.go:65-106 | between two grants of one run lies a sweep that reclaimed it from an unseen holder, or a retry of its submission after it ended without success |
| History.SweepIsExact | internal/server/sweeper.go:42-63 | on reachable states the sweep requeues precisely the claimed runs whose worker is not fresh, in both branches of the query, and changes nothing else |
| Heartbeats.CallUpsertsIff | internal/server/heartbeat.go:29-53 | in every behaviour a call goes on to write its worker's row if and only if it names a worker that has booked no write within heartbeatTTL in the life of this process |
| Heartbeats.SweptIffUntouched | internal/server/sweeper.go:39-63 | a sweep takes a held run if and only if no heartbeat write and no counted success of its holder lies within workerTimeout |
| Heartbeats.AnonymousLeaseFalls | internal/server/internal_api.go:60-63 | a lease taken without a name falls at a sweep if and only if no worker calling itself "unknown" was written within workerTimeout; always, if there never was one |
| Heartbeats.AnonymousLeases | internal/server/internal_api.go:60-63 | behaviours of both kinds: a nameless lease swept in the instant of its claim whatever the timeout, and one kept by a namesake |
| Retries.CleanSlateIff | internal/server/public_api.go:563-595 | whatever claims, sweeps, cancels and retries lie between, the first report after a retry leaves a row with its own score, result, error and start, and with a log of the earlier attempt if and only if it brings none or the same |
| Retries.StaleLogs | internal/server/internal_api.go:234-240 | a behaviour in which a silent success shows the output of the failed attempt before it |
| History.DeadLeasesReturn | internal/server/sweeper.go:13-17 | a sweep at least workerTimeout after a worker's last request left the server returns every run it still holds |
| History.EndIsFinal | internal/server/internal_api.go:195-218 | a succeeded row never changes again; a failed or timed-out one does not until its submission is retried; a cancelled one stays cancelled until then |
| History.OneReportLands | internal/server/internal_api.go:200-222 | of all reports on one attempt, whoever sends them, only one takes effect, cancelled reports excepted, and none ever does after a success |
| History.LeasesConserved | internal/server/internal_api.go:93-106 | leases granted = reclaimed + ended by a report + cancelled + held now, after any number of steps |
| Accounting.HandledRunsAddUp | internal/server/internal_api.go:242-257 | the counters of all workers plus the accepted successes no counter saw equal the number of succeeded runs |
| Accounting.NamedSuccessesCount | internal/server/heartbeat.go:67-77 | with the bump and the reporter's heartbeats in order, an accepted success is counted exactly when it carries a name |
| Fairness.DrainingIsSorting | internal/server/internal_api.go:75-97 | the sequences in which claims can drain the queue are exactly the listings of the pending runs sorted by priority descending, created_at ascending |
| Fairness.WaitIsBounded | ent/schema/run.go:22-26 | in every behaviour, while a run waits, the grants to others are at most the runs ahead of it plus those put before it since, by a sweep, a retry, an enqueue with no later date or "send to top"; without these it is claimed within its rank plus one |
| Fairness.WaitingUnchanged | internal/server/public_api.go:609-615 | a waiting run keeps every column but the priority its own submission is given |
| Fairness.RivalsOutrunIff | internal/server/public_api.go:597-615 | after "send to top" the next claim can go to another submission if and only if that one has a pending run prioritized at the same instant and no younger |
| Fairness.RivalReachable | internal/server/public_api.go:597-615 | two submissions sent to the top in one instant: the second can be outrun by the first |
| Handlers.Deps.ShouldHeartbeat | internal/server/heartbeat.go:44-53 | a write is due exactly when the cache has no entry younger than the TTL, and only then is the entry renewed |
| Handlers.Deps.UpsertWorker | internal/server/heartbeat.go:55-65 | a new worker starts at zero, an old one keeps its counter and gets a new last_seen |
| Handlers.Deps.BumpRunsHandled | internal/server/heartbeat.go:67-77 | counts one more for an existing named worker and touches nothing otherwise |
| Handlers.Deps.HandleClaim | internal/server/internal_api.go:57-106 | grants some run that no pending run precedes and changes only that row; 204 exactly when nothing is pending; notifies exactly on a grant |
| Handlers.Deps.HandleResult | internal/server/internal_api.go:174-261 | which reply, when the report lands, the whole row it leaves, whose counter moves, and that it notifies exactly when it lands |
| Handlers.Deps.SweepTick | internal/server/sweeper.go:25-63 | the new table, the count, and that it notifies exactly when a row changed |
| Handlers.Deps.CancelTarget | internal/server/public_api.go:513-561 | cancels what is in flight of the run or submission; the count is the number of rows changed |
| Handlers.Deps.RetrySubmission | internal/server/public_api.go:567-595 | re-enqueues what ended without success; the queue grows by the count |
| Handlers.Deps.PrioritizeSubmission | internal/server/public_api.go:601-622 | sets the priority of the submission's pending runs; the count is their number |
| Hub.Broadcaster.Subscribe | internal/server/events.go:28-34 | registers a new, empty, open channel |
| Hub.Broadcaster.Unsubscribe | internal/server/events.go:36-43 | removes the channel and closes it only if it was registered |
| Hub.Broadcaster.Broadcast | internal/server/events.go:45-56 | each subscriber keeps all it had unread, in order, and has the message after it unless eight were unread; none is closed |
| Wakeup.ChangesOwe | internal/server/events.go:58-66 | every step that changes a run is followed by a notify, but for rows inserted by another process |
| Wakeup.OwesOnlyFor | internal/server/events.go:10-18 | nothing else notifies: an empty-handed claim, a sweep that reclaims nothing and a refused report wake nobody |
| Wakeup.NoLostWakeup | internal/server/events.go:10-18 | in every run, a page with no notify, message or fetch outstanding has fetched after every claim, accepted result, non-empty sweep, operator action and announced enqueue since its channel was registered, drops or no drops |
| Wakeup.OutOfDateIff | web/src/api/events.ts:32-43 | in every run, such a page shows other rows than there are if and only if another process has seeded some since its last fetch, or its rows were not those of the moment when its channel was registered and it has not fetched since |
| Wakeup.SeedMissed | cmd/ctf-evals/seed.go:54-62 | a run in which a listening page misses a seeded row |
| Wakeup.FetchedTooEarly | web/src/pages/Overview.tsx:52-60 | a run in which a change announced between a page's fetch and the registration of its channel is lost on it |
| Wakeup.ReconnectMisses | web/src/api/events.ts:41-43 | a run in which a page whose stream broke and reconnected misses what was announced in between |
| Wakeup.StreamsInOrder | internal/server/events.go:28-56 | what a subscriber has read and holds is an in-order selection of the broadcasts since it subscribed, at most eight unread, its channel not closed |
| Wakeup.DropsIffFull | internal/server/events.go:49-54 | a broadcast misses a subscriber exactly when eight messages are unread |
| Wakeup.UnreadKept | internal/server/events.go:45-56 | no step but reading it, unsubscribing and a restart takes an unread message from a channel or moves it |
| Wakeup.GivenLasts | internal/server/events.go:28-56 | what a channel was given, read or unread, is a prefix of what it is given later |
| Wakeup.MissedIffEightUnread | internal/server/events.go:49-54 | a broadcast sent while a channel was registered is missing from what it was given, at once and for ever, if and only if eight messages were unread when it was sent |
| Scoring.Aggregate | internal/scoring/aggregate.go:34-100 | not-a-number exactly for no scores, otherwise what the strategy asks for |
| Scoring.MiddleScore | internal/scoring/aggregate.go:39-46 | the middle of the sorted scores, or midway between the two middles |
| Scoring.MostFrequent | internal/scoring/aggregate.go:47-60 | in whatever order the counts are visited, the smallest among the most frequent scores |
| Scoring.Greatest | internal/scoring/aggregate.go:61-68 | a score that no score exceeds |
| Scoring.Least | internal/scoring/aggregate.go:69-76 | a score that exceeds no score |
| Scoring.Deviation | internal/scoring/aggregate.go:77-90 | zero below two scores, else the root of the squares about the mean over n − 1 |
| Scoring.AggregateIgnoresOrder | internal/scoring/aggregate.go:34-100 | any rearrangement of the scores and any iteration order give the same result, for all strategies |
| Scoring.AllLieBetween | internal/scoring/aggregate.go:34-100 | mean, median and mode lie between the least and the greatest score |
| Scoring.ModeOfDistinct | internal/scoring/aggregate.go:47-60 | when no score comes twice, the mode is the least score |
| Scoring.MedianMinimises | internal/scoring/aggregate.go:39-46 | no number has a smaller total distance to the scores than the median |
| Scoring.MedianMirrors | internal/scoring/aggregate.go:39-46 | negating all scores negates the median, so of two middles it takes neither but the midpoint |
| Scoring.MeanNearMedian | internal/scoring/aggregate.go:77-98 | (mean − median)² is at most the square of the standard deviation, for every non-empty list |
| Scoring.SpreadWithinRange | internal/scoring/aggregate.go:61-98 | (n − 1)·sd² ≤ n·(max − mean)·(mean − min) |
| Scoring.NoSpreadIff | internal/scoring/aggregate.go:77-90 | the standard deviation is zero exactly when all scores agree |
| Scoring.DeviationIsPairwise | internal/scoring/aggregate.go:77-90 | without the mean: 2n(n − 1)·sd² is the sum of (x − y)² over all pairs of scores |
| Distributions.LessIsStrictWeak | internal/server/suite_analytics.go:85-92 | without empty entries the comparator is a strict weak order |
| Distributions.GetDistributions | internal/server/suite_analytics.go:23-95 | not found exactly for a missing suite; else one entry per submission with a scored success, holding exactly its scores; an earlier entry has the larger sum over count, or the same and no later submission time |
| Distributions.Group | internal/server/suite_analytics.go:61-78 | in whatever order the rows come, one bucket per contributing submission with exactly its scores |
| Distributions.Flatten | internal/server/suite_analytics.go:80-84 | in whatever order the map is visited, every bucket once |
| Distributions.DistributionsOnlyGrow | internal/server/suite_analytics.go:37-42 | along any behaviour a submission's runs and score multiset in an earlier state are contained in those of a later one |
| Distributions.EachRunCountsOnce | internal/server/suite_analytics.go:37-42 | a run counts for a submission exactly if it is of the suite and of that submission, succeeded and has a score, and it counts once |
| Slug.Slug | internal/server/suite_analytics.go:218-238 | the collapse-and-trim loop yields the letters and digits with one dash per inner gap, or "suite" |
| Slug.SlugIsNormalForm | internal/server/suite_analytics.go:216-238 | the result is non-empty, a–z, 0–9 and single inner dashes, and a name is its own slug exactly if it has that form |
| Slug.SlugIsIdempotent | internal/server/suite_analytics.go:216-238 | slug(slug(x)) = slug(x) |
| Slug.SlugKeepsAlnums | internal/server/suite_analytics.go:221-236 | all letters and digits of the lower-cased name survive in order; "suite" if there are none |
| Slug.SlugPartsAtGaps | internal/server/suite_analytics.go:218-238 | against the name: the slug begins and ends with its first and last letter or digit, and between two neighbours stands one dash exactly if anything stood between them in the name |
| Paths.CleanRelative | internal/bundle/bundle.go:147-152 | a walked path is its own clean form, with and without the directory slash |
| Paths.CleanLaws | internal/bundle/bundle.go:148-152 | cleaning undoes a step down and up again, a step nowhere and a doubled slash |
| Paths.LexMeans | internal/bundle/bundle.go:41 | the sort order: a prefix first, else whichever has the smaller character where they first differ |
| Bundle.Pack | internal/bundle/bundle.go:27-88 | fails exactly on a root that does not lead to a directory, a link that leads nowhere, or a file that cannot be read; else one entry per walked file and directory, sorted, with its permissions and bytes |
| Bundle.ArchiveReads | internal/bundle/bundle.go:46-79 | entry by entry: name with a slash for a directory, kind, the nine permission bits of 0777, bytes; paths strictly ascending in byte order |
| Bundle.Write | internal/bundle/bundle.go:46-79 | the loop over the sorted paths: fails exactly at a path that cannot be resolved or read, skips devices, and emits the archive of the rest |
| Bundle.Collect | internal/bundle/bundle.go:175-192 | every path that real directories lead to, once, relative to the root and without it: the walk enters no link, not even the root |
| Sources.LinksFollowedIff | internal/bundle/bundle.go:25-26 | what is packed is all that resolves below the root if and only if no walked link, the root included, leads to a directory with something to pack in it |
| Sources.LinkedDirectoryLoses | internal/bundle/bundle.go:175-192 | a directory with one link: the directory it leads to is packed, the file there is not |
| Sources.LinkedRootLoses | internal/bundle/bundle.go:27-39 | a root that is a link to a directory passes the check and packs nothing |
| Sources.WalkedParent | internal/bundle/bundle.go:175-192 | every walked path is relative, and its parent is the root or a real directory walked too |
| Replay.ParentFirst | internal/bundle/bundle.go:41-81 | in sorted order a directory stands before everything in it, so no parent is made with a default mode |
| Replay.WriteAt | internal/bundle/bundle.go:147-173 | a packed entry is written under its own name exactly if it is not mistaken for an escape and its directory may be written |
| Replay.RoundTrip | internal/bundle/bundle.go:120-134 | replaying a packed tree rebuilds the same paths, bytes and permissions under the umask, and succeeds if and only if no path starts with ".." and every directory that holds something can be written and searched by its owner (or the process is privileged) |
| Replay.RoundTripExactIff | internal/bundle/bundle.go:96-145 | bit by bit: what was walked comes back unchanged if and only if no path begins with "..", every holding directory lets its owner write and search under the umask (or the process is privileged), and no mode has a bit in the umask or outside 0777 |
| Replay.ArrivesAs | internal/bundle/bundle.go:46-79 | from node to node: exactly the walked paths that resolve and are no device arrive, with mode & 0777 & ^umask and all their bytes |
| Replay.LinkedDirectoryArrivesEmpty | internal/bundle/bundle.go:46-62 | a link to a directory, whatever that holds, arrives as a directory with nothing in it |
| Replay.GuardConfines | internal/bundle/bundle.go:147-152 | for every entry name, the guard accepts exactly the names that lead to the root itself or below it, less those whose first part begins with two dots |
| Replay.ExtractsBelowRoot | internal/bundle/bundle.go:147-173 | of any archive whatever, all that extracts lies below the root |
| Replay.UnsafeNeverExtracts | internal/bundle/bundle.go:120-134 | one unsafe name anywhere, and the archive does not extract |
| Replay.OthersSkipped | internal/bundle/bundle.go:170-172 | entries that are neither files nor directories make no difference, wherever they stand |
| Replay.SecondEntry | internal/bundle/bundle.go:154-169 | a second entry of a file replaces its bytes and keeps its mode, if its owner may write it; of a directory it changes nothing |
| Replay.LoneFile | internal/bundle/bundle.go:157-169 | directories that no entry names are made with mode 0755 under the umask, all the way up |
| Replay.LoneDirectory | internal/bundle/bundle.go:154-156 | directories above a directory entry that no entry names are made with that entry's own mode under the umask |
| Replay.DottedFileStuck | internal/bundle/bundle.go:147-151 | a directory with a file "..a" packs into an archive that no process can extract |
| Replay.ReadOnlyDirectoryStuck | internal/bundle/bundle.go:154-173 | a file in a directory of mode 0555 packs into an archive that no unprivileged process can extract |
| Replay.ArchiveIffIdentity | internal/bundle/bundle.go:1-6 | two trees pack to the same archive, however walked, if and only if paths, bytes and permissions agree |
| Replay.ArchiveIffSame | internal/bundle/bundle.go:1-6 | … that is: the same paths, kinds and bytes, and modes that agree in all nine bits of 0777 |
| Extraction.Disk.Extract | internal/bundle/bundle.go:99-145 | alone: an existing destination is untouched, success means the complete tree, failure means nothing there, and the temporary tree is gone after a success, and after a failure if the process may remove it |
| Extraction.Disk.Unpack | internal/bundle/bundle.go:120-134 | the loop over the entries is the replay, and changes one temporary tree only |
| Extraction.AllOrNothing | internal/bundle/bundle.go:99-145 | with any number of extractors interleaved, failing and crashing anywhere, the destination is absent or complete, and nil means it is complete |
| Extraction.NothingLeftBehind | internal/bundle/bundle.go:114-141 | an extractor that has returned has left no temporary tree, unless removing it failed |
| Extraction.CompleteForEver | internal/bundle/bundle.go:136-144 | once complete it is never changed again |
| Extraction.LatecomerDoesNothing | internal/bundle/bundle.go:99-104 | an extractor that finds the destination present makes no temporary tree and returns nil |
| Extraction.TakenIsRefused | internal/bundle/bundle.go:136-141 | a rename onto a present destination, unless both looks missed it and it is empty, changes neither tree and makes its extractor the loser |
| Extraction.LoserReturnsNil | internal/bundle/bundle.go:136-141 | an extractor that finds the destination taken when it would rename, in os.Rename's own look or in rename(2), returns nil, unless its last stat fails |
| Extraction.NilIffGood | internal/bundle/bundle.go:96-145 | an extractor spared faults of its own returns nil if and only if the archive is good, however rivals interleave, fail and crash |
| Extraction.PackThenExtract | internal/bundle/bundle.go:27-145 | a packed directory extracted among rivals: whoever returns nil has all that was walked in place, and then every path was admissible |

## Left out

- HTTP, JSON, CSV, routing, authentication, configuration, the SPA, and the worker's poll loop: workers are arbitrary
  senders of requests.
- The code ent generates: only the meaning of the updates the handlers make is used.
- The leaderboard, ETA, p-values and listings of internal/server/public_api.go.
- Database failures: a claim, sweep or operator action that fails changes nothing and is no event; a heartbeat or a
  bump that fails is one.
- Floating-point rounding, NaN and infinite scores, and 64-bit overflow of counters and timestamps.
- SHA-256 and the byte layout of tar: an archive is its sequence of entries, perhaps ending in a read error, and random
  suffixes are distinct names.
- Hub.Broadcaster.Broadcast: does not model blocking of the hub's own mutex; each of its methods is one step.
- Replay.WriteEntry: works on the directory's contents as a value, so what a failing entry leaves in the temporary tree
  is not kept; the tree is removed next, and Extraction's Fault leaves arbitrary contents instead.
- Extraction.Disk.Extract: does not compute whether os.RemoveAll can finish; it is a parameter, as an archive can hold a
  directory that its unprivileged extractor may not list.
- Wakeup.SysNext: a page's fetch is one step and succeeds; a response that overtakes a later one, or an error, is not
  modelled. A message that the server took from the channel counts as read when it reaches the page.
- Extraction: nothing but extractors touches the destination, and all of them share a umask.
- Bundle.Pack: directories that cannot be listed or searched, files that change while they are packed, and names that are
  not text are not modelled; where a link leads is given, not computed from its text.
- Slug.Slug: lower-casing is a parameter known only to fix a–z, 0–9 and the dash.
