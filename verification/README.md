# Periscope verification

A Dafny model of the parts of the Periscope backend where correctness does not follow from reading one
function: the session and id-token protocol, the can-i batcher, the audit store, cursor paging and batched
fetching, and the bounded structures that many requests share. `dafny verify dfyconfig.toml` checks it all.

Code that changes state is a class or a method with loops, proved against functions or relations on values.
Code that several goroutines run at once is a state machine: one step for each lock, store, registry or
channel operation, and a run is any interleaving of steps. Times are integer nanoseconds.

## What is proved

- **Sessions** (`SessionStore`, `SessionProtocol`, `SessionSafety`, `SessionReads`, `SessionRefusals`,
  `SessionOutcomes`, `SingleFlight`, `SingleUse`). Any number of FreshIDToken calls, Middleware requests, logins,
  logouts and cleanups, with a clock that moves between any two steps. A deleted session never comes back, what a
  login fixed never changes, a served request's record passed both timeouts, a returned id_token was the stored one
  and had 90 seconds left, and one with 90 seconds left is returned without asking the provider. A call is refused
  only if its session was gone, stale or lapsed while it ran, or the provider refused. Refresh tokens are single-use
  as long as every Middleware write-back and refresh is harmless: a write-back is when the session is gone, or its
  token is unspent or about to be overwritten; a refresh is when its token is unspent and, if granted, the session is
  gone and no FreshIDToken call holds that token. After exactly the other Middleware steps a spent token can be
  presented again. The code does not rule these out: two requests, one of them late with its write-back, are enough.
- **can-i** (`CanICacheKey`, `CanIRouting`, `CanIWork`, `CanIBatch`, `CanIShared`, `CanIRevocation`). Whatever mix of
  cache, rules reviews and access reviews answered, every index is answered once and in place with what the cache held
  alive or its own call said, nothing is allowed that the API server would deny, and without failed calls every answer
  is the API server's; only a cancelled call ends a request. Cache keys meet exactly when the questions are the same.
  With any number of requests over the one cache while the API server's policy changes, each answer is what it said
  during the request, or before it by at most the TTL and the time a request took from an answer to the clock read
  that stores it; a permission taken away is gone after that bound, which is reached.
- **Audit store** (`Migrations`, `AuditQuery`, `AuditQueryMeaning`, `AuditPaging`, `AuditRetention`). Boots that fail
  at any statement keep the schema a prefix of the migrations; the emitted WHERE text, cut apart and evaluated with
  SQL's three truth values, selects the events that pass the filters; following the offset gives every match once; a
  retention pass leaves what the age limit keeps and, over target, comes within a row of it.
- **Paging and batching** (`PodPaging`, `PodWalk`, `InspectorFetch`, `InspectorMeaning`, `InspectorCopies`). A client
  that follows the pods cursor over a changing list sees each steady pod once and finishes; this holds for every list
  exactly when no namespace extends another by a character below '/'. A chunked Inspector listing holds the findings
  of one unchunked call, each as often exactly when no finding spans two chunks.
- **Shared structures** (`TtlCache`, `CacheRuns`, `EksCache`, `StreamLimiter`, `WatchStream`, `ShellRegistry`,
  `SessionCap`). A cache hit is the last Put to its key, at most a TTL ago; the caches look like a map without a cap
  in exactly the runs in which no Put leaves more keys live than the cap; the stream cap holds; the client of a watch
  stream gets a gap-free prefix, one frame for each event, and at most one closing event, for its cause; the
  shell-session caps are overrun by overlapping openings, by at most their number less one, and each reaches that
  bound.
- **Tiers and minor versions** (`Tiers`, `K8sMinor`).

`Ordering`, `Sequences` and `Wrappers` hold sorting, byte order, distinctness and options.

Where a comment in the source and its code disagree the model follows the code: `pruneBySize` is described as a
loop over tenths of the rows and is a single estimate (`internal/audit/sqlite_sink.go:407-446`), and the pods
list is said to be in the cursor's order, which it is not for every pair of namespaces
(`cmd/periscope/cve_handler.go:287-300`).

## Model

| member | source | states |
|---|---|---|
| SessionStore.MemoryStore.Create | internal/auth/session.go:92-97 | the record is stored under its ID and nothing else changes |
| SessionStore.MemoryStore.Get | internal/auth/session.go:99-104 | the stored record or nothing, and the store is unchanged |
| SessionStore.MemoryStore.Update | internal/auth/session.go:106-114 | fails exactly for an ID that is not there, and then changes nothing; otherwise replaces that record alone |
| SessionStore.MemoryStore.Delete | internal/auth/session.go:116-121 | removes that ID alone |
| SessionStore.MemoryStore.Cleanup | internal/auth/session.go:81-90 | keeps exactly the records not past their absolute expiry, unchanged, in whatever order the map is walked |
| SessionSafety.SafeStep | internal/auth/middleware.go:86-123 | every step of every caller keeps the invariant: each record, in the store or in a caller's hands, descends from the login of its ID |
| SessionSafety.SafeRun | internal/auth/middleware.go:86-123 | the invariant holds in every state of every interleaving |
| SessionSafety.FreshFrame | internal/auth/idtoken.go:75-114 | a FreshIDToken step moves its own thread and no other, and leaves the clock and the login history alone |
| SessionSafety.GuardFrame | internal/auth/middleware.go:86-123 | the same for a Middleware step |
| SessionSafety.StoreShrinks | internal/auth/session.go:106-121 | no step but a login with a new ID adds a key to the store |
| SessionSafety.DeletedNeverReappears | internal/auth/session.go:106-121 | a session that was there and is gone stays gone, whatever stale copies are still written back |
| SessionSafety.LoginFieldsNeverChange | internal/auth/oidc.go:134-154 | subject, email, groups and absolute expiry of a stored session are those of its login at every later instant |
| SessionReads.ReadDuringTheCall | internal/auth/idtoken.go:75-114 | the record a caller holds was in the store at an instant of its own call |
| SessionReads.ReturnedTokenIsFresh | internal/auth/idtoken.go:76-125 | on the fast, waited and refreshed paths a returned id_token was the session's stored token during the call and had at least 90 seconds to live when it was checked |
| SessionReads.ServedRequestsWereChecked | internal/auth/middleware.go:86-125 | a request given an identity read its record from the store, that record passed the absolute and idle checks, and the identity is the record's |
| SessionRefusals.MissedSessionWasGone | internal/auth/session.go:99-104 | for a call that found no session there is an instant at which its thread existed and the store did not hold that session |
| SessionRefusals.ReauthHasCause | internal/auth/idtoken.go:68-114 | a FreshIDToken call asks for a new login only if, at an instant of the call, its session was not in the store, or the stored id_token was unreadable or less than 90 seconds from expiry by the call's end and had no refresh token, or the provider refused it, or the call had just stored it |
| SessionRefusals.RejectionHasCause | internal/auth/middleware.go:81-120 | Middleware turns a request away only if, at an instant of the call, its session was not in the store, or a record then stored was past a timeout when checked, or the provider refused the refresh |
| SessionRefusals.RefreshesAreStale | internal/auth/idtoken.go:85-98 | in every run FreshIDToken asks the provider only while the id_token it read is unreadable or has less than 90 seconds left, and presents the refresh token that was stored with it at an instant of the call |
| SessionOutcomes.FastPathReturns | internal/auth/idtoken.go:76-78 | in every run the check without the lock returns the stored id_token exactly when it is readable and has at least 90 seconds left at that instant |
| SessionOutcomes.SlowPathReturns | internal/auth/idtoken.go:85-96 | the same under the lock; otherwise the provider is asked exactly when the session is there and has a refresh token |
| SessionOutcomes.AnswerIsDecided | internal/auth/idtoken.go:68-114 | every answer of a FreshIDToken call is the one due at the instant it was decided: a stored token with 90 seconds left, or a new login for a session that is not there, a stale one without refresh token, a refused refresh, or a stale token after one |
| SessionOutcomes.ConfirmedIsRenewed | internal/auth/idtoken.go:98-113 | what a refreshing call checks last is the record it read with the grant's tokens, the old refresh token and id_token kept where the grant has none, and exactly this was stored |
| SessionOutcomes.CheckTurnsAway | internal/auth/middleware.go:86-105 | a record is dropped exactly when it is past its absolute expiry or idle for longer than the configured time |
| SessionOutcomes.RefreshesWhenDue | internal/auth/middleware.go:107-120 | a request refreshes exactly with a client, a refresh token and less than 60 seconds to the access token's expiry |
| SessionOutcomes.ServedWroteBack | internal/auth/middleware.go:107-125 | a served request replaced its session's record, and no other, by the one it read, renewed by the grant if a refresh was due, with the time of its check as last activity |
| SessionOutcomes.RejectedDropsSession | internal/auth/middleware.go:81-120 | a request turned away had no session ID, found no session, or deleted that session and no other |
| SessionOutcomes.NoCallIsStuck | internal/auth/idtoken.go:68-114 | in every state of every run an unfinished call can take its next step, whatever the provider answers, or waits for a lock that another call holds, which can |
| SingleFlight.OneFlightPerSession | internal/auth/idtoken.go:155-163 | two callers past the shard lock are there for different sessions |
| SingleFlight.FlightStep | internal/auth/idtoken.go:68-114 | every step, of a provider that rotates and a Middleware that does no harm, keeps the single-flight invariant: a spent token is stored only while its redeemer is about to replace it |
| SingleFlight.FlightRun | internal/auth/idtoken.go:68-114 | the single-flight invariant holds in every state of every run of such steps |
| SingleFlight.RefreshTokenIsSpentOnce | internal/auth/idtoken.go:80-106 | in such a run a refresh token presented twice, by whomever, was not redeemed the first time |
| SingleFlight.RefreshOnlyWhenStale | internal/auth/idtoken.go:85-98 | in such a run FreshIDToken asks the provider only when its id_token is unreadable or has less than 90 seconds left at that instant, and this and the refresh token are the stored ones unless the session was deleted meanwhile |
| SingleFlight.RefreshesDoNotOverlap | internal/auth/idtoken.go:80-83 | in every run at most one call per session is past the lock at any time |
| SingleFlight.WithoutMiddlewareWrites | internal/auth/idtoken.go:80-106 | a run with a rotating provider and no Middleware write-back or refresh is such a run, and its log has no attempt with a token after a success with it |
| SingleUse.SingleUseBreaksExactly | internal/auth/middleware.go:110-123 | after one more step of such a run a spent token can be presented again exactly when that step is a harmful write-back or refresh of Middleware |
| SingleUse.HarmIsRedemption | internal/auth/middleware.go:110-123 | after a harmful step, unless it is itself a refused presentation, there is a continuation in which the token written back or redeemed is redeemed again |
| SingleUse.FlightPresentsOnce | internal/auth/idtoken.go:80-106 | while the single-flight invariant holds, no continuation of harmless steps presents a spent token |
| SingleUse.WriteBackBreaksSingleUse | internal/auth/middleware.go:122-123 | for every OIDC configuration and every session with a refresh token and a readable id_token: a run of harmless steps that begins with its login and in which a request for it is served, after which another request's late write-back lets this session's first refresh token be redeemed twice |
| CanICacheKey.KeySharedExactly | cmd/periscope/cani_cache.go:72-94 | two lookups share a key exactly when cluster, check and the multiset of groups agree and the actors agree or both lists are empty |
| CanICacheKey.JoinInjective | cmd/periscope/cani_cache.go:80-83 | lists of separator-free fields join to the same text only if they are the same list |
| CanIBatch.CanICache.Get | cmd/periscope/cani_cache.go:40-52 | a hit is the stored result, not expired at the clock read; a miss drops that entry if it is there and no other |
| CanIBatch.CanICache.Put | cmd/periscope/cani_cache.go:55-61 | stores the result for the TTL from the clock read, and nothing else |
| CanIBatch.PutKeepsTrust | cmd/periscope/cani_cache.go:55-94 | storing an answer for one question leaves the cache trustworthy for every question anyone asks |
| CanIBatch.Consult | cmd/periscope/cani_handler.go:129-135 | a hit never allows what the API server denies, and is its answer when no failed outcome was stored within the TTL |
| CanIBatch.ScanCache | cmd/periscope/cani_handler.go:129-135 | splits the indices into answered hits and pending ones, each index in one list once |
| CanIRouting.Route | cmd/periscope/cani_handler.go:147-156 | every pending index goes to its namespace's bucket if eligible and to the single reviews if not, each once |
| CanIRouting.RulesReviewExactly | cmd/periscope/cani_handler.go:147-163 | a check is answered by a rules review exactly if it has a namespace, no subresource and no name, and at least three such checks are pending in its namespace |
| CanIBatch.DenyBucket | cmd/periscope/cani_handler.go:165-177 | after a failed rules review exactly the bucket's indices are denied with the error's code, and these denials are cached |
| CanIBatch.EvaluateBucket | cmd/periscope/cani_handler.go:179-190 | exactly the bucket's indices get the API server's answers, and these are cached |
| CanIBatch.ReviewBuckets | cmd/periscope/cani_handler.go:158-191 | in any order of the map: the indices in buckets of three or more are answered once, all others join the single reviews; the client is gone exactly if the last call was cancelled |
| CanIBatch.ReviewSingly | cmd/periscope/cani_handler.go:194-220 | one review, and one backend call, for each remaining index; denied with the code when the call fails in any way but cancellation, which alone ends the request |
| CanIRouting.LoopsMakePlan | cmd/periscope/cani_handler.go:147-194 | one rules review for each large bucket, in any order, and then one access review for each other pending index are a plan for the pending indices |
| CanIBatch.AnswerPending | cmd/periscope/cani_handler.go:142-220 | the client is gone exactly if the last call made was cancelled; otherwise none was, the calls made are such a plan, as many as the backend counted, and answer each pending index once, in the plan's order |
| CanIBatch.CanI | cmd/periscope/cani_handler.go:106-222 | every index is answered once and in place; allowed implies the API server allows; without failed calls the answers are the API server's; cache hits are exactly what is alive, and every other result is what its own call said, or a denial with that call's code, and is cached for the TTL; no response is given exactly when a call was cancelled; more than 64 checks are refused and anonymous actors denied |
| CanIShared.StepIsSound | cmd/periscope/cani_handler.go:129-222 | every step of any of the concurrent requests, of the policy and of the clock keeps the invariant: what is cached or held is a logged answer to a question with that key, and no index of a request is forgotten |
| CanIShared.RunIsSound | cmd/periscope/cani_cache.go:40-61 | the invariant holds in every state of every interleaving, with look-up, clock read, delete and store as separate steps |
| CanIShared.PlanExists | cmd/periscope/cani_handler.go:147-163 | whatever indices are pending, they can be split into one rules review for each namespace with three or more eligible ones and one access review for each other |
| CanIShared.NeverStuck | cmd/periscope/cani_handler.go:129-222 | a request that is neither finished nor cancelled can take its next step in every state of every run |
| CanIShared.DelayOf | cmd/periscope/cani_cache.go:55-61 | every run has a longest time from an answer to the clock read for storing it |
| CanIRevocation.ResultsAreRecent | cmd/periscope/cani_handler.go:129-222 | a finished request has for each index the answer the API server gave to that question, or the code of a failed call, at an instant of the run: its own answer, during the request, or one before it by at most the TTL and the delay |
| CanIRevocation.RevocationTakesHold | cmd/periscope/cani_cache.go:40-61 | a request that comes later than the TTL and the delay after a permission was taken away for good is denied it |
| CanIRevocation.RevocationBoundIsReached | cmd/periscope/cani_cache.go:55-61 | for every TTL and delay and every change of policy that takes a permission away: a run in which a request that comes exactly that much later is still allowed |
| Migrations.Database.RunMigrations | internal/audit/sqlite_sink.go:204-233 | the loop of transactions leaves the disk and the outcome that the step-by-step definition gives, for a fault at any statement |
| Migrations.MigrateFromKeepsConsistent | internal/audit/sqlite_sink.go:215-231 | the schema stays the first `user_version` migrations in order; a failure names the migration whose statement failed |
| Migrations.BootKeepsConsistent | internal/audit/sqlite_sink.go:204-233 | one boot: the version never falls, success is full migration and happens exactly without faults; a database that cannot be read or is newer is left untouched and reported, with both versions |
| Migrations.SucceedsExactlyWithoutFaults | internal/audit/sqlite_sink.go:215-232 | a nil return exactly when no transaction met a fault |
| Migrations.FailsAtFirstFault | internal/audit/sqlite_sink.go:215-231 | a failure names a migration exactly if its transaction is the first to meet a fault |
| Migrations.BootsKeepConsistent | internal/audit/sqlite_sink.go:190-233 | any sequence of boots of binaries built from one append-only list keeps the schema its first `user_version` entries, each applied once |
| Migrations.CleanBootCompletes | internal/audit/sqlite_sink.go:198-233 | after any failing boots, one faultless boot completes the schema |
| AuditQuery.RecordRoundTrip | internal/audit/sqlite_sink.go:303-325 | a recorded event scans back unchanged but for its route, which no SELECT reads |
| AuditQuery.JoinParts | internal/audit/sqlite_sink.go:583-589 | the loop joins the clauses with " AND " in order |
| AuditQuery.BuildQueryWhere | internal/audit/sqlite_sink.go:536-581 | appending clause by clause gives the text and arguments of the filters that are set, in step |
| AuditQueryMeaning.SplitUndoesJoin | internal/audit/sqlite_sink.go:583-589 | cutting the joined text at " AND " gives back the clauses |
| AuditQueryMeaning.ClauseMeans | internal/audit/sqlite_sink.go:540-575 | each clause, read back from its text, compares the right column with the right operator |
| AuditQueryMeaning.ConjunctionMeans | internal/audit/sqlite_sink.go:536-581 | the conjunction with its arguments bound by position is true exactly when each filter holds |
| AuditQueryMeaning.PlaceholdersMatchArgs | internal/audit/sqlite_sink.go:536-581 | as many placeholders in the text as arguments |
| AuditQueryMeaning.WhereSelectsMatches | internal/audit/sqlite_sink.go:536-581 | over a stored row, with empty strings as NULL and three truth values, the WHERE text is true exactly for events that pass every set filter, From inclusive and To exclusive |
| AuditPaging.AuditTable.RunQuery | internal/audit/sqlite_sink.go:475-531 | a limit from 1 to 500 is kept, a larger one is 500, any other 50; a negative offset is 0; counts, and returns that page of the ordered matches |
| AuditPaging.OrderIsDetermined | internal/audit/sqlite_sink.go:468-472 | with unique ids there is one sequence in (timestamp, id) descending order |
| AuditPaging.FoundIsMatches | internal/audit/sqlite_sink.go:490-531 | the rows found are the matching rows as often as in the table, by descending (timestamp, id), and Total counts them |
| AuditPaging.MovedQueryIsPage | internal/audit/sqlite_sink.go:485-506 | another offset gives another page of the same sequence |
| AuditPaging.PageThenRest | internal/audit/sqlite_sink.go:502-531 | what follows an offset is the page there and what follows the page |
| AuditPaging.WalkSeesEveryMatchOnce | internal/audit/sqlite_sink.go:475-531 | stepping the offset by the returned limit gives every matching row once, in order |
| AuditRetention.AuditDatabase.DeleteBefore | internal/audit/sqlite_sink.go:370-379 | exactly the rows older than the cutoff go, and their number is returned |
| AuditRetention.AuditDatabase.DeleteOldest | internal/audit/sqlite_sink.go:447-456 | exactly that many rows go, none newer than one that stays |
| AuditRetention.AuditDatabase.PruneBySize | internal/audit/sqlite_sink.go:410-457 | nothing on an error, a file within the target or an empty table; otherwise the estimated number of oldest rows, at least one and at most all |
| AuditRetention.AuditDatabase.RunRetention | internal/audit/sqlite_sink.go:367-405 | the age prune leaves exactly the rows of the last `retentionDays`; if the file is then over target and no size statement fails, oldest rows go until the remainder is within the two bounds below of the target, and none otherwise; it vacuums exactly when something was deleted |
| AuditRetention.ToDropBounds | internal/audit/sqlite_sink.go:439-446 | the estimate lies between one and the row count |
| AuditRetention.PruneLandsNearTarget | internal/audit/sqlite_sink.go:437-446 | if size is proportional to rows, what is left exceeds the target by less than an average row, and not at all once a tenth of the excess is worth a row |
| AuditRetention.PruneKeepsEnough | internal/audit/sqlite_sink.go:437-446 | unless a single row goes, what is left is short of the target by at most a tenth of the excess |
| PodPaging.SortPods | cmd/periscope/cve_handler.go:287-294 | the snapshot becomes the sequence sorted by namespace, then name |
| PodPaging.FindStart | cmd/periscope/cve_handler.go:300-302 | the loop computes the binary search for the first key past the cursor |
| PodPaging.ServePods | cmd/periscope/cve_handler.go:287-318 | sorts in place and returns that page of the sorted snapshot with its next cursor |
| PodPaging.SortOrderIsKeyOrder | cmd/periscope/cve_handler.go:289-302 | sort order and key order agree on two pods whose namespaces are not misordered |
| PodPaging.MisorderedDisagrees | cmd/periscope/cve_handler.go:289-302 | they disagree on every two pods whose namespaces are |
| PodWalk.SearchSplits | cmd/periscope/cve_handler.go:300-302 | over ascending keys the search finds the one index that separates passed from unpassed keys |
| PodWalk.PageIsSlice | cmd/periscope/cve_handler.go:298-317 | a page is the first rows after the cursor; next is the last row's key, empty exactly on the last page |
| PodWalk.SeenAscends | cmd/periscope/cve_handler.go:287-318 | however the list changes between pages, keys only go up: no row twice, none from behind the cursor |
| PodWalk.SeenComesFromSnapshots | cmd/periscope/cve_handler.go:304-312 | every row was in one of the snapshots the walk asked for |
| PodWalk.SteadyPodIsSeen | cmd/periscope/cve_handler.go:296-318 | a pod past the cursor and in every snapshot is seen by a walk that finishes |
| PodWalk.WalkSeesSteadyPodsOnce | cmd/periscope/cve_handler.go:287-318 | from an empty cursor each pod present throughout comes exactly once |
| PodWalk.WalkEnds | cmd/periscope/cve_handler.go:304-318 | if only finitely many different pods ever take part, the walk reaches an empty next |
| PodWalk.UnchangedListIsTiled | cmd/periscope/cve_handler.go:287-318 | over an unchanged list the pages put together are the sorted list |
| PodWalk.MisorderedListLosesPod | cmd/periscope/cve_handler.go:287-318 | for any misordered pair of namespaces and any page size, a list whose last pod is in every snapshot and on no page |
| PodWalk.ListsAreTiledExactlyWhenSafe | cmd/periscope/cve_handler.go:287-318 | every list over a set of namespaces is tiled exactly when none of them extends another by a character below '/' |
| InspectorFetch.ProjectFinding | internal/awsinspector/client.go:303-313 | one row per resource with a join key, in order |
| InspectorFetch.ProjectHas | internal/awsinspector/client.go:303-330 | a row is there exactly for a non-empty join key of one of the resources |
| InspectorMeaning.ProjectMeans | internal/awsinspector/client.go:303-330 | a finding has a row under exactly the non-empty IDs of its EC2 instances and hashes of its ECR images |
| InspectorFetch.DedupIDs | internal/awsinspector/client.go:370-387 | the loop with its seen set computes the deduplicated list |
| InspectorFetch.DedupKeepsEachOnce | internal/awsinspector/client.go:370-387 | no ID twice, no empty ID, no other lost |
| InspectorFetch.DedupKeepsOrder | internal/awsinspector/client.go:370-387 | first occurrences keep their order |
| InspectorFetch.ChunksTile | internal/awsinspector/client.go:389-404 | chunks concatenate to the input with sizes 1 to the limit, only the last short |
| InspectorFetch.AddPages | internal/awsinspector/client.go:172-185 | page by page the rows are appended under their IDs; a fault stops with what is there |
| InspectorFetch.ListByIDs | internal/awsinspector/client.go:165-190 | chunk by chunk the fetched findings' rows are grouped by ID, up to the first fault |
| InspectorMeaning.FetchStopsAtFault | internal/awsinspector/client.go:165-190 | what is fetched is every page of every chunk, in order, before the first fault, and an error is returned exactly if there is one |
| InspectorFetch.EnsureKeysIn | internal/awsinspector/client.go:196-202 | adds the missing IDs in order and overwrites none |
| InspectorFetch.ListFindingsByInstance | internal/awsinspector/client.go:142-147 | deduplicated, in chunks of 50, every requested ID a key |
| InspectorFetch.ListFindingsByImageDigest | internal/awsinspector/client.go:154-159 | deduplicated, in chunks of 10, every requested digest a key |
| InspectorMeaning.RequestedAreKeys | internal/awsinspector/client.go:133-159 | every requested ID is a key, also after a fault |
| InspectorMeaning.ChunksMatchWhole | internal/awsinspector/client.go:171-173 | some chunk's filter selects a finding exactly when the filter for all IDs does |
| InspectorMeaning.ListingIsDue | internal/awsinspector/client.go:161-190 | under each ID exactly the rows of the selected findings; after a fault some of them |
| InspectorMeaning.ChunkSizeDoesNotShow | internal/awsinspector/client.go:165-190 | the sets of findings per ID do not depend on the chunk size |
| InspectorMeaning.RequestedResourceIsComplete | internal/awsinspector/client.go:142-159 | no finding of a requested resource is missed |
| InspectorCopies.SameRowsExactlyWhenNoFindingSpans | internal/awsinspector/client.go:171-190 | per ID each row comes as often as in one unchunked call exactly when no finding in the account has resources in two chunks |
| InspectorCopies.SingleResourcesListTheSame | internal/awsinspector/client.go:171-190 | with at most one resource to a finding chunking cannot show |
| TtlCache.Cache.Get | cmd/periscope/helm_cache.go:56-69 | the value of an entry not past its expiry, or nothing; an entry past it is dropped, and no other |
| TtlCache.Cache.Put | cmd/periscope/helm_cache.go:71-82 | stores the entry for the TTL and evicts exactly when over the cap |
| TtlCache.Cache.EvictLocked | cmd/periscope/helm_cache.go:87-112 | drops the expired entries; if still over the cap leaves exactly max*9/10 of the live ones, none expiring before one that went |
| TtlCache.Cache.Sweep | cmd/periscope/helm_cache.go:88-93 | exactly the entries not past their expiry stay |
| TtlCache.Cache.Trim | cmd/periscope/helm_cache.go:107-111 | the target number stays, none expiring before one that went |
| TtlCache.Cache.InvalidateCluster | cmd/periscope/eks_nodegroups_cache.go:112-121 | exactly the keys that start with the cluster and a bar go |
| CacheRuns.HitsAreCurrent | cmd/periscope/helm_cache.go:56-82 | over any sequence of calls a hit is that of the map without a cap |
| CacheRuns.HitIsLastPut | cmd/periscope/helm_cache.go:56-82 | in every run a value that Get returns at `now` was put under that key by the last call to put or invalidate it, at `t` with `now <= t + ttl` |
| CacheRuns.CapHolds | cmd/periscope/helm_cache.go:71-112 | at most max entries after every call |
| CacheRuns.BelowCapIsExact | cmd/periscope/helm_cache.go:56-112 | while no Put leaves more than max keys live, however many have expired, every look-up, misses included, is that of a map without a cap |
| CacheRuns.LastPutIsHit | cmd/periscope/helm_cache.go:56-112 | conversely, in a run in which no Put leaves more than max keys live, such a Put makes a later Get return its value |
| CacheRuns.CapShowsExactly | cmd/periscope/helm_cache.go:56-112 | in a run some look-up differs from the map without a cap exactly if some Put leaves more than max keys live |
| EksCache.ResponseCache.GetList | cmd/periscope/eks_addons_cache.go:52-64 | the list of the live entry under the cluster's list key |
| EksCache.ResponseCache.PutDetail | cmd/periscope/eks_addons_cache.go:92-102 | stores the detail under the cluster's and name's key for the TTL |
| EksCache.ResponseCache.InvalidateDetail | cmd/periscope/eks_addons_cache.go:144-148 | drops that detail's entry alone |
| EksCache.KeysDoNotClash | cmd/periscope/eks_addons_cache.go:156-157 | no two clusters, lists or details share a key, and a cluster's prefix starts its own keys alone |
| EksCache.ServedListIsLast | cmd/periscope/eks_addons_cache.go:52-76 | a served list is the last put for that cluster and not invalidated since, within the TTL |
| EksCache.ServedDetailIsLast | cmd/periscope/eks_addons_cache.go:78-102 | the same for a detail, by cluster and name |
| EksCache.ListHitIsLastPut | cmd/periscope/eks_addons_cache.go:52-76 | in every run a list that GetList returns at `now` was put for that cluster by the last call to put or invalidate it, at `t` with `now <= t + ttl` |
| EksCache.DetailHitIsLastPut | cmd/periscope/eks_addons_cache.go:78-102 | the same for a detail, by cluster and name |
| EksCache.LastListIsHit | cmd/periscope/eks_addons_cache.go:52-76 | conversely, while no Put leaves more than max keys live, such a list is returned |
| EksCache.LastDetailIsHit | cmd/periscope/eks_addons_cache.go:78-102 | and such a detail |
| StreamLimiter.UserStreamLimiter.Acquire | cmd/periscope/main.go:2822-2833 | admits exactly below the cap, or always without one, and then counts one more |
| StreamLimiter.UserStreamLimiter.Release | cmd/periscope/main.go:2835-2847 | counts one less and keeps no zero entry |
| StreamLimiter.StreamTracker.Register | cmd/periscope/main.go:2954-2960 | adds the entry under the next id |
| StreamLimiter.StreamTracker.Snapshot | cmd/periscope/main.go:2969-2978 | every active entry once, ids ascending |
| StreamLimiter.CountIsOpenHandlers | cmd/periscope/main.go:2822-2847 | in every interleaving an actor's count is the number of its open handlers, at most the cap, and absent when zero |
| StreamLimiter.RefusedExactlyAtCap | cmd/periscope/main.go:2822-2833 | in every interleaving a handler is refused exactly when its actor has as many handlers open as the cap allows |
| StreamLimiter.TrackerShowsOpenStreams | cmd/periscope/main.go:2954-2965 | active holds exactly the streams registered and not deregistered, each under one handler's id |
| StreamLimiter.IdsAreNotReused | cmd/periscope/main.go:2954-2960 | a later stream gets a larger id |
| StreamLimiter.ListedStreamsAreCapped | cmd/periscope/main.go:3100-3122 | an actor never has more than the cap of streams in the tracker |
| WatchStream.RunIsOk | cmd/periscope/main.go:3126-3207 | the channel, handler and wire invariants hold in every state of every interleaving |
| WatchStream.ClientGetsPrefix | cmd/periscope/main.go:3184-3205 | the data frames written are, one for one and in order, those of a gap-free prefix of the events offered, each with its event's kind, resource version and payload; only events of unknown kind have none; the channel holds at most 256 |
| WatchStream.BackpressureComesLast | cmd/periscope/main.go:2906-2927 | a backpressure close comes after every accepted event was written one for one, one event was refused, and the channel held 256 when it was |
| WatchStream.BackpressureExactly | cmd/periscope/main.go:3185-3199 | when the producer's end closes the stream, the client is told of backpressure exactly if a Send overflowed and the watch did not fail |
| WatchStream.ClosingEventIsFinal | cmd/periscope/main.go:3165-3207 | at most one closing event; nothing is written after it, now or later |
| WatchStream.ClosedExactlyByCause | cmd/periscope/main.go:3165-3207 | each closing event is on the wire exactly if its cause came to pass: the server stopped, the session was found invalid, the watch failed with that message, or a Send overflowed and the watch did not fail |
| WatchStream.ErrorIsFromWatch | cmd/periscope/main.go:3138-3148 | the error the handler goes by is the one the watch returned |
| WatchStream.EverythingCanBeDelivered | cmd/periscope/main.go:3140-3207 | for any events there is a run in which they are offered and the client gets one frame for each known one, and nothing else, before the plain end |
| WatchStream.EndOfFileIsComplete | cmd/periscope/main.go:3184-3199 | when the producer's end closes the stream everything accepted was written one for one; at a plain end with the client still there, everything offered |
| ShellRegistry.Registry.Add | internal/clustershell/registry.go:39-47 | refuses a taken ID and changes nothing, otherwise adds that record |
| ShellRegistry.Registry.Remove | internal/clustershell/registry.go:50-54 | removes that ID alone |
| ShellRegistry.Registry.CountForActor | internal/clustershell/registry.go:70-80 | the number of the actor's sessions |
| ShellRegistry.Registry.CountForCluster | internal/clustershell/registry.go:85-95 | the number of the cluster's sessions |
| SessionCap.StepLoad | cmd/periscope/cluster_shell_handler.go:134-183 | a step adds exactly its handler to the openings of an actor or cluster below the cap and leaves its sessions, or does not raise their sum |
| SessionCap.LoadIsBounded | cmd/periscope/cluster_shell_handler.go:134-183 | per actor and per cluster, sessions and openings never exceed cap - 1 plus the largest number of openings that overlapped |
| SessionCap.CapHoldsWithoutOverlap | cmd/periscope/cluster_shell_handler.go:134-183 | openings that do not overlap keep the cap |
| SessionCap.RegistryIsOpenSessions | cmd/periscope/cluster_shell_handler.go:169-183 | the registry holds exactly the open sessions, each under one handler's ID |
| SessionCap.BoundIsReached | cmd/periscope/cluster_shell_handler.go:134-183 | for the cap of every actor, in every cluster, and that of every cluster, and every number of overlapping openings for which the other cap has room, a run that ends with cap - 1 plus that many sessions |
| Tiers.NewResolver | internal/authz/mode.go:99-122 | accepts exactly the known modes, the empty one meaning shared, with valid tiers where tier mode needs them, and fills in the default prefix |
| Tiers.RankTellsTier | internal/authz/tiers.go:30-55 | no two valid tiers share a rank |
| Tiers.TiersAscend | internal/authz/tiers.go:30-55 | read, triage, write, maintain and admin, in this ascending order, are the tiers, and everything else ranks below them |
| Tiers.TierForGroups | internal/authz/mode.go:184-202 | a highest-ranked mapped tier, the default tier when no group is mapped |
| Tiers.TierDependsOnGroupSet | internal/authz/mode.go:184-202 | permuting or repeating groups changes nothing |
| Tiers.MoreGroupsLowerExactly | internal/authz/mode.go:184-202 | further groups lower a user exactly when none was mapped before and the default was above all that now are |
| Tiers.PrefixAll | internal/authz/mode.go:204-214 | the non-blank groups behind the prefix, in order |
| Tiers.PrefixedHas | internal/authz/mode.go:204-214 | a group is sent exactly for a non-blank one of the user's |
| Tiers.Resolve | internal/authz/mode.go:132-160 | nobody in shared mode or without a subject, the tier's one group in tier mode, the prefixed groups in raw mode |
| Tiers.ResolvedGroupsAreTheTier | internal/authz/mode.go:132-150 | the same groups resolve to the same tier group, none exactly when nothing is mapped and there is no default |
| Tiers.AnyGroupIn | internal/authz/mode.go:267-281 | true exactly when a group is on both lists |
| Tiers.IsAuditAdmin | internal/authz/mode.go:238-265 | an explicit list decides in every mode; otherwise the admin tier, the dashboard's allowlist, or nobody |
| K8sMinor.ParseK8sMinor | cmd/periscope/eks_addons_handler.go:695-729 | the loops find the first dot and the digits after it, and parse both 64-bit numbers or fail |
| K8sMinor.ParseOfParts | cmd/periscope/eks_addons_handler.go:692-729 | text made of a part without a dot, a dot, at least one digit and a rest that starts with none parses, exactly if that part and the digits are 64-bit numbers, to these two; the rest is ignored |
| K8sMinor.ParseHasParts | cmd/periscope/eks_addons_handler.go:692-729 | no text of another form parses |
| K8sMinor.AtoiExactly | cmd/periscope/eks_addons_handler.go:709-724 | digits with at most one sign in front are read as their number exactly within 64 bits, and nothing else is read |
| K8sMinor.AtoiReadsItoa | cmd/periscope/eks_addons_handler.go:731-733 | a printed integer reads back within 64 bits, and is refused outside |
| K8sMinor.ParseReadsFormat | cmd/periscope/eks_addons_handler.go:695-733 | parsing what was printed gives the version back exactly when the minor is not negative |
| K8sMinor.NextMinorIsSuccessor | cmd/periscope/eks_addons_handler.go:684-690 | the printed numeric successor exactly below the largest int, empty exactly for text that does not parse |
| K8sMinor.CompatRange | cmd/periscope/eks_addons_handler.go:652-679 | the numerically lowest and highest entry that parse, both empty if none does |

## Left out

- SingleFlight.RefreshTokenIsSpentOnce: false of runs with harmful Middleware steps, because the code takes no per-session lock there; SingleUse.SingleUseBreaksExactly says which steps these are.
- SingleFlight.RefreshTokenIsSpentOnce: the provider is assumed to rotate, every success bringing an access token and a refresh token never issued before; a redemption whose response was lost counts as failed.
- CanICacheKey.KeySharedExactly: SHA-256 cut to 64 bits is assumed not to collide on the texts compared, and cluster names, groups and fields to be free of the separators.
- CanIBatch.CanI: one request at a time under one policy; CanIShared has many, interleaved, under a policy that changes.
- CanIShared.RunIsSound: a request follows any plan; CanIBatch.AnswerPending shows that the loops make one. A rules review answers for one instant.
- CanIBatch.CanI: the rules evaluator is assumed to agree with access reviews on eligible checks, and answers to ignore the actor when no groups are sent.
- AuditRetention.ToDropBounds: float64 is exact rationals, so rounding of the ratio is not modelled.
- InspectorMeaning.ListingIsDue: Inspector is assumed to answer a filter, in some pages and order, with exactly the findings that have a resource in it.
- PodWalk.ListsAreTiledExactlyWhenSafe: cursors are keys; their base64 form is assumed to round-trip, and a cursor that does not decode is the empty one.
- JWT parsing (`jwtExp`), cookies, public paths, session-ID randomness: an expiry function, and IDs that logins never repeat.
- `SessionValid`, the dev middleware and the HTTP side of the middleware.
- The shard hash: any function from session IDs to locks.
- Ticking of retention and cleanup, VACUUM and the WAL: a pass is one call.
- `actor_groups` and `extra` columns, JSON in them, and SQLite itself beyond atomic transactions and an evaluator for the emitted WHERE text.
- Errors of the SELECTs in `Query` and of single inserts, which only return or log.
- Library sorts: sorting is an insertion sort; where the order of ties could show, the result is stated as a relation.
- Inspector's CVSS maximum, package names and console links, and `IsEnabled`.
- `buildPodRow`, the workload roll-up, `buildAddonVersionsValue`, `buildAddonSummary`, `buildAddonsCounts` and the glyph: sums and branches that each body settles.
- The insights, AMI, add-on version, catalog, config-schema and chart caches, which repeat `TtlCache`; the catalog and schema ones keep at least one entry.
- `helmListCacheKey`, which repeats the group digest of the can-i key.
- The k8s watch primitive: it is assumed to stop after a refused Send, and may return at any time with any error. A write to a dropped connection counts as written.
- Go's 64-bit overflow of stream ids, row counts and times.
- `List` and `SnapshotForActor` of the shell registry, the tier gate before it and the session's life after it.
- The route table, the generic list, detail and yaml handlers, exec, tunnel, Helm, Karpenter and EKS calls.
