# Event delivery, token families and the search cache, verified

This project models the parts of the repository whose correctness spans many
functions and many interleavings, and proves what they promise for every run:

* **Durable event delivery** (`live-search/src/db.rs`, migrations 001 and 004).
  Writers insert and delete rows in transactions; a trigger takes a
  transaction-scoped advisory lock and draws `event_seq`; commit publishes the
  rows and queues their notifications. The listener connects, LISTENs, replays
  missed rows page by page and then takes notifications. Connections die, queries
  fail, and every reply of the database is computed at one step and processed at a
  later one, with anything in between (`EventLog`, `Listener`, `ListenerRuns`, `Delivery`,
  `Writers`, `Guarantees`, `Replay`, `Redelivery`, `Loss`, `CatchUp`, `Backfill`).
* **Refresh-token families** (`gateway/src/auth/refresh.rs`, `handlers.rs`,
  migrations 100 and 101), twice. First with atomic transactions: the table is
  shown to mean a map from family to its history, and `rotate`, login with its
  compensation, and logout to be steps of a run over that map (`TokenFamilies`,
  `TokenRuns`, `RefreshStore`). Then statement by statement under READ COMMITTED
  with row locks, where the chains are shown to be the same and what a bulk
  revocation reaches is stated exactly (`TokenInterleaving`, `TokenTimes`,
  `TokenLineage`, `TokenRevocation`).
* **The version-stamped search cache** (`live-search/src/cache.rs`, `app.rs`), as
  a class and as concurrent searches over the event log (`SearchCache`,
  `CacheFreshness`).
* Around these: keyset pagination through opaque cursors (`Paging`, `Keyset`,
  `Cursor`, `Text`, `Base64`), the SSE fan-out and the live page (`Sse`,
  `EndToEnd`), PEM and DER (`Pem`), and the key fingerprint (`Fingerprint`).

`Witnesses`, `TokenWitnesses` and `Redelivery` hold concrete runs that show why the
main qualifications are there. `dafny verify dfyconfig.toml` checks everything.

## What the proofs turned up

* **A revocation can miss a row.** With transactions one at a time, presenting a
  spent token kills its family for good (`TokenRuns.ReplayMakesDead`). Under READ
  COMMITTED it need not. The revoking UPDATE works on the rows its statement saw;
  a rotation of the same family that commits its new row afterwards leaves that row
  unrevoked, although the replay was refused and its revocation committed
  (`TokenWitnesses.ReplayCanMissARow`, and `LogoutCanMissARow` for logout).
  `TokenRevocation.ReplayMisses` and `LogoutMisses` say exactly which rows escape,
  and `ReplayMakesDeadBySteps` which commits let the family live: it dies if no
  rotation of the family commits in between. What holds without
  qualification is that a family whose committed rows are all revoked stays dead
  (`TokenRevocation.DeadStaysDead`), that at most one row of a family is ever
  unrevoked, and that no token is exchanged twice.
* **A surviving row is lost exactly when a notification skips it.** In every run,
  failures included, a row the position has passed was never broadcast if and only if
  some delivered notification moved the position over it while it had not gone out
  (`Loss.LostExactlyWhenSkipped`); it is then lost for good (`Loss.LostForever`).
  Two ways lead there without any error being reported:
  * `recv` reopens a lost connection by itself (`live-search/src/db.rs:327`), no replay
    follows, and the next notification moves the position over what was committed in
    between (`Witnesses.SilentReconnectHidesRow`).
  * `forward_notification` looks a row up by the id in the payload. If a client inserts
    under the id of a row that was deleted meanwhile, the lookup finds the younger row,
    and the position jumps over rows still queued in between; their notifications are
    then dropped as already covered (`Witnesses.ReusedIdHidesRow`). Where no query
    fails and no connection is replaced silently, this is the only way
    (`Guarantees.LostExactlyWhenOvertaken`), and never using an id twice, as the
    default `gen_random_uuid()` ensures, excludes it (`Guarantees.NothingIsLost`).
* **A row goes out twice only after a torn replay.** A replay that fails after some
  pages has broadcast those rows without moving `last_seen_seq` and without
  invalidating the cache (`live-search/src/db.rs:386`). Without such a failure the
  broadcast strictly increases (`Guarantees.BroadcastIsOrderly`) and every row that
  went out was committed before some invalidation (`Guarantees.BroadcastWasBumped`);
  after one, every surviving row it sent goes out again in some continuation
  (`Redelivery.TornReplayRepeats`). `Redelivery.TornReplayRepeatsRows` and
  `TornReplayKeepsCache` are concrete runs.
* **A cached answer can outlive an invalidation.** `insert` stamps the version
  current at insert time. A search that read before a commit and stamps after the
  invalidation leaves a stale entry that hits (`Witnesses.LateStampIsHit`);
  `CacheFreshness.StaleHitWasStampedLate` says this is the only way.
* `cache.rs:10` says the version is bumped on insert, update and delete. The
  trigger fires on insert only (`migrations/001_create_search_results.up.sql:40-43`),
  and a notification that is already covered, unreadable, or whose row is gone does
  not bump. The model follows the code.

## Assumptions about the environment

* A connection may die at any time, unnoticed until the listener receives. Then
  either `recv` reports an error (`live-search/src/db.rs:345`), or the client library
  opens a new connection inside `recv` and reports nothing, and the notifications in
  between are gone for good. Both are steps of the model.
* Commit appends a transaction's notifications, in order, to the queue of every
  listening connection. Only the insert trigger sends readable payloads on the
  channel; others may send unreadable ones.
* A token digest can be presented only after a login or rotation returned it, or
  (in the atomic model) when it belongs to no login still waiting to be returned. A
  repeated jti or digest is an INSERT error, so no randomness is assumed.
* Fewer than 2^64 cache invalidations.

## Model

| member | source | states |
|---|---|---|
| EventLog.CommitOrder | migrations/004_add_event_sequence.up.sql:37-50 | For any interleaving of multi-row transactions with commits and rollbacks: committed `event_seq` values strictly increase in commit order, and whatever commits later lies above everything already committed |
| EventLog.OrderInsert | migrations/004_add_event_sequence.up.sql:41-42 | Drawing a number under the advisory lock keeps every uncommitted row above the committed log, and uncommitted rows in the hands of one transaction only |
| EventLog.IdStep | migrations/001_create_search_results.up.sql:4 | At every step two rows with one id never coexist: the older is deleted before the younger can be seen |
| Writers.DrawnOnce | migrations/004_add_event_sequence.up.sql:41-42 | Of two inserts in a run the later draws the greater number, whether the earlier one was committed, rolled back or is open |
| Writers.SeqNeverDecreases | migrations/004_add_event_sequence.up.sql:42 | The sequence never goes back |
| Writers.LockIsHeldByOpen | migrations/004_add_event_sequence.up.sql:41 | In every reachable state only an open transaction holds the lock |
| Writers.EndReleasesLock | migrations/004_add_event_sequence.up.sql:8-12 | Commit, rollback and a failed statement close the transaction and free its lock |
| Writers.DrawingLocks | migrations/004_add_event_sequence.up.sql:41-42 | A number is drawn only under the lock, which stays with the transaction until it ends |
| Writers.CommitNotifies | migrations/001_create_search_results.up.sql:24-44 | On a listening connection a commit queues one notification for each of its rows, in order, and no other writer of rows queues any |
| Writers.OnlyCommitShows | migrations/004_add_event_sequence.up.sql:8-12 | A commit shows all rows of its transaction and hides what it deleted at once; no other step changes what readers see |
| Writers.RolledBackForever | migrations/004_add_event_sequence.up.sql:42 | A row rolled back becomes visible in no continuation, and its number is never used again |
| Backfill.RowNumberIsPlace | migrations/004_add_event_sequence.up.sql:20-27 | `row_number()` over `(created_at, id)` is a row's place in the sorted listing |
| Backfill.BackfillStartsTheLog | migrations/004_add_event_sequence.up.sql:20-35 | Every table is numbered 1..n without gaps or repeats, oldest first, and the sequence continues at n + 1, which is a start state of the event log |
| EventLog.BackfillStaysBelow | migrations/004_add_event_sequence.up.sql:19-35 | Over every run history keeps its numbers and all new values lie above it |
| Listener.PgListener.Run | live-search/src/db.rs:279-363 | The nested loops, answer by answer, end in the state the reaction function gives, for every sequence of answers the listener can receive |
| Listener.PgListener.Resync | live-search/src/db.rs:366-404 | Replay consumes answers up to a short page or an error; position and cache move only when it finishes |
| Listener.PgListener.BroadcastBatch | live-search/src/db.rs:388-393 | A batch goes out whole and in order and leaves the cursor on its last row |
| Listener.PgListener.ForwardNotification | live-search/src/db.rs:207-262 | Broadcast and invalidation happen together and exactly when the row found lies above the position |
| Listener.PgListener.Forward | live-search/src/db.rs:320-358 | The live loop runs until a receive error or shutdown, advancing the position only by forwarded rows |
| Listener.BackoffClosedForm | live-search/src/db.rs:285-356 | In every run the nth consecutive failure sleeps min(250 ms * 2^(n-1), 30 s), counting connect and receive errors and starting over at a connect or a notification |
| Listener.StoppedExactlyOnShutdown | live-search/src/db.rs:290-326 | For every sequence of answers, the listener has stopped if and only if shutdown was requested |
| Listener.FailureIsRetried | live-search/src/db.rs:297-308 | After a failed connect or receive it keeps its position, sleeps once and goes on to a connect that replays from there |
| ListenerRuns.ListenerFollows | live-search/src/db.rs:279-404 | In every run of the event log, whatever happens around it, the listener has received a conforming sequence of answers and is exactly where its own loops leave it |
| Delivery.InvStep | live-search/src/db.rs:279-404 | The invariant of log, ids, cursor, queue, reply in flight and accounts is kept by every step, writers and failures included |
| Delivery.LookupSettles | live-search/src/db.rs:230-261 | After one notification every row at or below the new position is accounted for, and every other row is still to come |
| Delivery.PageSettles | live-search/src/db.rs:375-398 | After one replayed page every row up to the new cursor is accounted for, whatever committed or was deleted since the page was read |
| Delivery.ReplayFails | live-search/src/db.rs:311-318 | A failed replay loses at most rows committed before its LISTEN that it had not reached |
| Delivery.SilentStep | live-search/src/db.rs:327 | A reconnect hidden inside `recv` loses at most the rows whose notification had not been received |
| Guarantees.DeliveryAccounting | live-search/src/db.rs:207-404 | In every run, a committed row at or below `last_seen_seq` that was never deleted was broadcast, or its own lookup failed, or it was committed before a LISTEN whose replay failed before reaching it, or it was overtaken under a reused id, or its notification went down with a connection replaced without an error |
| Loss.LostExactlyWhenSkipped | live-search/src/db.rs:207-404 | In every run, torn replays, failed lookups, silent reconnects and reused ids included: a surviving row the position has passed was never broadcast if and only if at some step a delivered notification moved the position over it before it had gone out |
| Loss.LostForever | live-search/src/db.rs:249-261 | Once passed and not broadcast, a row is broadcast in no continuation |
| CatchUp.CanCatchUp | live-search/src/db.rs:279-363 | From every reachable state, unless shut down, some continuation without writes and without new failures ends with a listener that has caught up, every surviving row broadcast or on one of the accounts |
| CatchUp.TakenForever | live-search/src/db.rs:327-343 | A notification once taken is never queued again, so none is taken twice |
| Witnesses.SilentReconnectHidesRow | live-search/src/db.rs:327 | A run without failed queries, delays or reused ids, ending with a listener that has caught up, in which a visible row is passed and never broadcast |
| Guarantees.LostExactlyWhenOvertaken | live-search/src/db.rs:230-261 | For runs in which no query fails and no connection is replaced silently: then the skipping notification found a younger row under another row's id |
| Guarantees.NothingIsLostExactly | live-search/src/db.rs:271-277 | In such runs, a listener that has caught up has broadcast every surviving row if and only if no lookup overtook one of them |
| Guarantees.OvertakingNeedsReuse | live-search/src/db.rs:230-261 | Nothing but an insert under the id of an earlier row can cause overtaking |
| Witnesses.ReusedIdHidesRow | live-search/src/db.rs:230-261 | A run without any error after which a visible row is passed and never broadcast |
| Guarantees.BroadcastIsOrderly | live-search/src/db.rs:246-261 | In every run whose failed replays all fail before sending a row, broadcast rows strictly increase in `event_seq`, so each goes out at most once even if replay and notification both carry it |
| Redelivery.TornReplayRepeats | live-search/src/db.rs:311-318 | The other half: from every reachable state in which a replay can fail after sending a surviving row above `last_seen_seq`, some continuation broadcasts that row twice |
| Redelivery.TornReplayRepeatsRows | live-search/src/db.rs:311-318 | A run with a hundred rows, a full page, a failed fetch and a reconnect that broadcasts a row twice |
| Guarantees.NothingIsLost | live-search/src/db.rs:271-277 | A condition writers can keep: when no id is used twice, a listener that has caught up without errors has broadcast every surviving row |
| Guarantees.BroadcastWasCommitted | live-search/src/db.rs:177-203 | Only committed rows are ever broadcast |
| Guarantees.PositionNeverDecreases | live-search/src/db.rs:311-344 | In every run whatsoever `last_seen_seq` never moves back |
| Guarantees.BumpRun | live-search/src/db.rs:259-261 | In every run each row the position has passed was committed before some cache invalidation |
| Guarantees.BroadcastWasBumped | live-search/src/db.rs:400-402 | In every run without a torn replay, and outside a replay, each row broadcast was committed before some cache invalidation |
| Redelivery.TornReplayKeepsCache | live-search/src/db.rs:386 | A run whose failed replay leaves a hundred rows broadcast and no invalidation after their commits |
| Replay.ReplayEqualsQuery | live-search/src/db.rs:366-404 | Whatever commits between pages, a successful replay broadcasts exactly what one unpaged query of the last table read returns, and moves to its last row |
| Replay.ReplayMeetsSurvivors | live-search/src/db.rs:366-404 | Deletions between pages hide no surviving row from replay |
| Replay.ReplayFetchCount | live-search/src/db.rs:174-175 | With a static backlog of n rows replay is still running after fewer than n / 100 + 1 fetches and is over after exactly that many, with the whole backlog sent |
| Replay.BacklogFetchCount | live-search/src/db.rs:366-404 | The same for the visible rows of any reachable state |
| Paging.FetchCount | live-search/src/db.rs:395-397 | On a static table of n rows fetch i is short if and only if i >= n / limit, so a reader that stops at a short page does stop |
| Paging.StaticPage | live-search/src/db.rs:376-382 | Each page of a static table is the corresponding slice of the sorted listing |
| Redelivery.ReplayReaches | live-search/src/db.rs:375-398 | From every reachable replaying state, replay left alone reaches every surviving row above its cursor |
| Replay.NewlyVisibleIsAbove | migrations/004_add_event_sequence.up.sql:8-12 | A row visible later and not now lies above every row visible now |
| Replay.ReplayInRun | live-search/src/db.rs:366-404 | The same equality for the tables met along any run of the event log without deletions, wherever the fetches fall |
| Paging.ListingIsUnique | live-search/src/db.rs:376-382 | An ordered listing of a table has exactly one answer |
| Paging.PagedEqualsUnpaged | live-search/src/db.rs:375-398 | Pages over a growing table concatenate to one unpaged query |
| Paging.WalkAscends | live-search/src/db.rs:410-446 | Pages chained by their last key never repeat a row, however the table changes |
| Keyset.CursorKeepsPosition | live-search/src/db.rs:466-491 | The text of a stored row's cursor decodes to that row's exact position |
| Keyset.SearchNeverRepeats | live-search/src/db.rs:410-446 | Chaining `search_with_cursor` through opaque cursors returns rows strictly descending by (created_at, id), even with inserts and deletes between pages |
| Keyset.SearchFinds | live-search/src/db.rs:410-446 | A matching row present throughout is returned exactly once, down to where the walk stops |
| Keyset.SearchReturnsMatches | live-search/src/db.rs:416-443 | Every row returned matches the query and was in the table when its page was read |
| Keyset.SearchPageIsPage | live-search/src/db.rs:416-443 | The row comparison `(created_at, id) < cursor` with descending order and LIMIT selects exactly the next page of the newest-first listing |
| Keyset.SearchIsListing | live-search/src/db.rs:410-446 | On a static table the first short page is the one after n / limit full ones, and then the pages are the whole sorted listing |
| Cursor.DecodeOfEncode | live-search/src/db.rs:467-491 | For every instant and UUID: the instant floored to microseconds, and the same UUID |
| Cursor.RawCursorShape | live-search/src/db.rs:468 | The text is the microseconds, a bar and the UUID in hyphenated groups |
| Cursor.EncodeIsInjective | live-search/src/db.rs:467-470 | Two cursors are equal exactly when UUIDs and floored instants are |
| Cursor.FromMicrosExactly | live-search/src/db.rs:487-488 | A count of microseconds is accepted if and only if it lies in years -262143 to 262142 |
| Text.ParseOfPrintI64 | live-search/src/db.rs:484-486 | Signed decimal text of every 64-bit integer parses back, and contains no bar |
| Text.ParseIsExact | live-search/src/db.rs:484-486 | A sign is optional, a digit is needed, and exactly the 64-bit values are accepted |
| Text.ParseOfPrintUuid | live-search/src/db.rs:489 | Hyphenated UUID text parses back |
| Text.UuidSpellings | live-search/src/db.rs:489 | Plain, braced and URN spellings read as the same UUID |
| Base64.DecodeOfEncodeUrl | live-search/src/db.rs:450-463 | Decoding undoes encoding for every byte string |
| Base64.EncodeOfDecodeUrl | live-search/src/db.rs:459-463 | The decoder accepts canonical spellings only: whatever decodes is the encoding of what it decodes to |
| Base64.SextetsAreBits | live-search/src/db.rs:450-452 | Octets and sextets are the same bits, most significant first, zero-padded on the right (RFC 4648, section 4) |
| Base64.AlphabetTable | live-search/src/db.rs:450-452 | The alphabets are those of RFC 4648, sections 4 and 5 |
| SearchCache.CacheHandle.Get | live-search/src/cache.rs:81-87 | An entry answers exactly while its stamp is the current version |
| SearchCache.CacheHandle.Insert | live-search/src/cache.rs:90-96 | The entry is stamped with the version at insert time; other entries stay |
| SearchCache.CacheHandle.InvalidateAll | live-search/src/cache.rs:105-111 | One more invalidation on a counter that wraps at 2^64 |
| SearchCache.VersionsAreDistinct | live-search/src/cache.rs:83-106 | Wrapped versions are equal exactly when the invalidation counts are, within 2^64 |
| SearchCache.InvalidationMissesAll | live-search/src/cache.rs:98-106 | Right after an invalidation every stored entry misses |
| SearchCache.FoundAfterInsert | live-search/src/cache.rs:81-96 | What was stored is found under its query until the next invalidation, and no other query notices |
| SearchCache.Search | live-search/src/app.rs:42-88 | Each outcome of `search` and its effect on the cache: unavailable, bad length, hit, failed query, fresh answer stored |
| CacheFreshness.MovesKeepInv | live-search/src/app.rs:56-88 | Over every interleaving of searches, commits, deliveries and evictions, every entry is the query's answer on the table its read saw, with ordered read and stamp |
| CacheFreshness.ServedExactlyWhenCurrent | live-search/src/cache.rs:81-87 | In every run, comparing versions serves the entry if and only if no invalidation came after its stamp; otherwise the search goes on to the database |
| CacheFreshness.LookupTakesEntry | live-search/src/cache.rs:82 | A lookup finds the entry of its query if there is one |
| CacheFreshness.MissIsAnsweredByQuery | live-search/src/app.rs:60-88 | A search that missed is answered by its query on the table it read, and later lookups find that answer |
| CacheFreshness.OnlyStoreAndEvictTouchCache | live-search/src/app.rs:76-88 | Only a store adds an entry, under its own query, only expiry or eviction takes one away, and a failed query stores nothing |
| CacheFreshness.StaleHitWasStampedLate | live-search/src/cache.rs:81-111 | An answer served from the cache misses a visible row at or below `last_seen_seq` if and only if the row committed after the answer's read and an invalidation after that commit fell before the stamp |
| CacheFreshness.PromptEntryIsFresh | live-search/src/app.rs:56-88 | Without an invalidation between read and stamp, every answer served from the entry saw every visible row the listener has passed |
| Witnesses.LateStampIsHit | live-search/src/cache.rs:90-96 | A run in which a stale entry hits |
| TokenFamilies.RotateSucceedsExactly | gateway/src/auth/refresh.rs:61-151 | `rotate` returns a token if and only if the presented one is the live tip with `expires_at > now`, the lifetime is positive, the draw is unused and nothing fails; then it returns what was drawn, for that family's subject, and extends that family only |
| RefreshStore.AcceptedTable | gateway/src/auth/refresh.rs:113-150 | Over the tables before and after `rotate`, field by field: an unrevoked token with `expires_at > now` has its row stamped `now` and linked, one row is added for the drawn token with `now + ttl`, and nothing else changes |
| RefreshStore.ReplayedTable | gateway/src/auth/refresh.rs:87-111 | Any other known token, expired tips included: every row of its family ends revoked, the others stay, and no token is returned |
| RefreshStore.UntouchedTable | gateway/src/auth/refresh.rs:67-151 | For a token no row knows, and for errors other than an unheard commit, the table is the same before and after |
| RefreshStore.FailedTable | gateway/src/auth/refresh.rs:67-146 | A lifetime that is not positive, a failed statement or commit, no draw, or a taken jti or digest: the outcome is an error and the table is the same |
| TokenFamilies.LineageOfRow | migrations/100_create_refresh_tokens.up.sql:1-14 | `replaced_by` leads from the root (`jti = family_id`) to each row in exactly one number of steps and never back; subject shared and non-nil; unrevoked only if unreplaced |
| TokenFamilies.OneTip | gateway/src/auth/refresh.rs:113-144 | A family has one unreplaced row and at most one unrevoked row |
| TokenFamilies.RowCount | gateway/src/auth/refresh.rs:132-144 | A family has as many rows as issued tokens |
| TokenFamilies.DigestsAreUnique | migrations/101_refresh_token_hash_unique.up.sql:4-5 | The unique index holds in every state that refines families |
| TokenRuns.ReachedHasInv | gateway/src/auth/refresh.rs:113-144 | In every reachable state the tokens exchanged from a family, in order, are its chain without the tip |
| TokenRuns.RowsAreExchanges | gateway/src/auth/refresh.rs:132-144 | Row count of a family equals its exchanges plus one |
| TokenRuns.NoTokenTwice | gateway/src/auth/refresh.rs:74-146 | No token is accepted twice over any run |
| TokenRuns.DeadStaysDead | gateway/src/auth/refresh.rs:87-130 | With transactions one at a time, no continuation of any length changes a dead family, accepts one of its tokens or hands out another |
| TokenRuns.ReplayMakesDead | gateway/src/auth/refresh.rs:87-111 | With transactions one at a time, a spent, revoked or expired known token makes its family dead; `TokenRevocation.ReplayMakesDeadExactly` is what holds when they overlap |
| TokenRuns.LogoutMakesDead | gateway/src/auth/handlers.rs:284-292 | With transactions one at a time, logout makes every issued family of its subject dead and leaves other subjects alone; `TokenRevocation.LogoutMisses` is what holds when they overlap |
| RefreshStore.TokenStore.Rotate | gateway/src/auth/refresh.rs:61-151 | Every path of `rotate` is the corresponding step on families; the table still stores them exactly; no stamp is rewritten or cleared |
| RefreshStore.TokenStore.ReplaceToken | gateway/src/auth/refresh.rs:113-150 | The UPDATE and INSERT together extend the family by one member, or nothing changes |
| RefreshStore.TokenStore.RefuseToken | gateway/src/auth/refresh.rs:87-111 | The family UPDATE kills the family of a known token and no other |
| RefreshStore.TokenStore.InsertLogin | gateway/src/auth/handlers.rs:130-142 | A login starts a family whose root is its own row, unless jti or digest is taken |
| RefreshStore.TokenStore.RemoveUnissued | gateway/src/auth/handlers.rs:191-203 | Compensation removes exactly the family that was just started, or leaves everything |
| RefreshStore.TokenStore.Login | gateway/src/auth/handlers.rs:123-185 | A token is returned if and only if the insert, the session rotation where there was a session, the session insert and the session save succeed; a failed login whose compensation works leaves no trace, and any other leaves one family whose token nobody was given |
| RefreshStore.TokenStore.Logout | gateway/src/auth/handlers.rs:284-292 | Every row of the subject ends revoked, earlier revocations keep their time, other subjects' rows are untouched |
| RefreshStore.StampedTablesAgree | gateway/src/auth/refresh.rs:96-142 | Families and time stamps determine the whole table: no row, link, expiry or earlier stamp is free |
| RefreshStore.RefineExtend | gateway/src/auth/refresh.rs:121-144 | The two writes of a rotation turn a table storing the families into one storing the extended families |
| RefreshStore.RefineRevoke | gateway/src/auth/refresh.rs:96-102 | Revoking unrevoked rows of whole families is killing those families |
| RefreshStore.ConflictIsTaken | migrations/101_refresh_token_hash_unique.up.sql:4-5 | The INSERT fails exactly when the drawn jti or digest belongs to some member |
| TokenInterleaving.StepKeepsInv | gateway/src/auth/refresh.rs:74-146 | Each statement of each transaction, interleaved with all others, keeps: locked rows are unrevoked, digests unique, one unrevoked row per family, exchanged tokens revoked |
| TokenInterleaving.AtMostOneActive | gateway/src/auth/refresh.rs:74-146 | However statements interleave, every committed state has at most one unrevoked row per family |
| TokenInterleaving.NoTokenTwice | gateway/src/auth/refresh.rs:74-146 | However statements interleave, no token is exchanged twice |
| TokenInterleaving.RevocationsStay | gateway/src/auth/refresh.rs:96-130 | A committed revocation is neither rewritten nor cleared by any step |
| TokenTimes.RotationWrites | gateway/src/auth/refresh.rs:113-144 | However statements interleave: a rotation that commits replaced the row of the token presented at its begin, unrevoked and unexpired at that time; the old row is stamped with that time, the new one was created then, carries the drawn token and expires one lifetime later |
| TokenTimes.LoginWrites | gateway/src/auth/handlers.rs:130-142 | A login adds one row, its own root, not yet handed out |
| TokenTimes.OnlyCommitsWrite | gateway/src/auth/refresh.rs:72-146 | No other statement changes the committed table, aborts included |
| TokenTimes.PresentedTokenHasRow | gateway/src/auth/refresh.rs:88-93 | A token that was handed out always has its row, so the lookup of an inactive one finds its family |
| TokenTimes.IssuedExactlyWhenHandedOut | gateway/src/auth/refresh.rs:146-150 | A token can be presented if and only if a login returned it or a rotation whose commit was heard of did |
| TokenRevocation.RevocationMisses | gateway/src/auth/refresh.rs:95-103 | Whatever interleaves with a bulk revocation from its snapshot to its commit: a row is unrevoked afterwards if and only if it was unrevoked just before and is not one the snapshot showed in its scope (less logins taken back meanwhile) |
| TokenRevocation.RevocationStamps | gateway/src/auth/refresh.rs:96-103 | The rows a revocation reaches get the time of its transaction, and nothing else of any row changes |
| TokenRevocation.SweepReachesWhatItSaw | gateway/src/auth/handlers.rs:284-292 | A committed bulk UPDATE has revoked every row of its scope that its snapshot showed, of issued and unheard tokens alike, unless the row was deleted |
| TokenRevocation.ReplayMisses | gateway/src/auth/refresh.rs:95-103 | For the revocation after a replay, exactly the unrevoked rows outside the snapshot escape, with no proviso |
| TokenRevocation.LogoutMisses | gateway/src/auth/handlers.rs:284-292 | The same for a logout, for every row whose login had been returned when it started |
| TokenRevocation.ReplayMakesDeadExactly | gateway/src/auth/refresh.rs:87-111 | The family is dead after the commit if and only if the statement saw every row of it that is unrevoked just before the commit |
| TokenRevocation.FamilyHistory | gateway/src/auth/refresh.rs:113-144 | Between two points of a run a family grows by the rows that commits of its rotations add, and by nothing else |
| TokenRevocation.ReplayMakesDeadBySteps | gateway/src/auth/refresh.rs:87-111 | The family is dead after the commit if and only if every row that a rotation of it committed since the statement began is already revoked |
| TokenRevocation.UndisturbedReplayMakesDead | gateway/src/auth/refresh.rs:87-111 | If no rotation of the family commits in between, the replay leaves the family dead |
| TokenRevocation.DeadStaysDead | gateway/src/auth/refresh.rs:74-146 | However statements interleave, a family whose committed rows are all revoked stays so, and none of its tokens is exchanged again |
| TokenWitnesses.ReplayCanMissARow | gateway/src/auth/refresh.rs:87-111 | A run in which a replay is refused and its revocation commits, and a row of the family is unrevoked, unexpired and issued |
| TokenWitnesses.LogoutCanMissARow | gateway/src/auth/handlers.rs:284-292 | The same after a logout |
| TokenLineage.RunRefines | gateway/src/auth/refresh.rs:113-144 | However statements interleave, every committed table stores a map of families exactly |
| TokenLineage.Lineage | migrations/100_create_refresh_tokens.up.sql:1-14 | In every interleaved state: one acyclic chain by `replaced_by` from the root to a single tip, one non-nil subject, only the tip unrevoked |
| Sse.ClientAccounting | live-search/src/sse.rs:36-59 | One `Connected`, then an in-order subsequence of what was sent after subscribing; results plus skipped counts equal how far the client has moved |
| Sse.PollShows | live-search/src/sse.rs:47-55 | In every run a poll shows a client at most `capacity` messages behind exactly the next message; one further behind is told how much it lost and left exactly `capacity` behind |
| Sse.NeverBehindNeverLags | live-search/src/sse.rs:47-55 | A client that never polls more than `capacity` behind is never told of a lag |
| Sse.StartsAtSubscription | live-search/src/sse.rs:44 | A client starts with the first message sent after its latest subscription |
| Sse.ChannelCarriesRows | live-search/src/db.rs:177-203 | The channel has carried one event for each row sent, in order |
| Sse.UnlaggedClient | live-search/src/sse.rs:36-59 | A client never told of a lag was shown exactly the messages it moved past |
| Sse.LiveFeed.ApplySseEvent | live-search/src/app.rs:315-344 | The page shows exactly the last min(n, 200) of the n results received |
| EndToEnd.ClientSeesTheTable | live-search/src/sse.rs:36-59 | A client that read everything without lag was shown every row broadcast since it subscribed, and if it was there from the start every surviving row, under the condition of NothingIsLostExactly |
| EndToEnd.ClientMissesOnlySkipped | live-search/src/sse.rs:36-59 | Whatever failed, such a client was shown every surviving row the position has passed and no notification skipped |
| Pem.PemEncode | gateway/src/pem.rs:47-62 | The loop over positions yields header, base64 in lines of 64 with a shorter last one, and footer |
| Pem.ReadOfArmor | gateway/src/pem.rs:47-62 | A strict reader (RFC 7468, sections 2 and 3) recovers every byte string under every name |
| Pem.UnwrapOfLines | gateway/src/pem.rs:54-59 | Joining the lines gives the base64 text, and only the last line may be shorter than 64 |
| Pem.LineAt | gateway/src/pem.rs:54-59 | Body line i is the ith run of 64 characters of the base64 text |
| Base64.DecodeOfEncodeStandard | gateway/src/pem.rs:50 | Padded base64 (RFC 4648, section 4) decodes to the bytes encoded |
| Pem.ReadOfPkcs8 | gateway/src/pem.rs:13-25 | All nested length octets match their contents: the reader takes the private key information apart and returns the seed |
| Pem.ReadOfSpki | gateway/src/pem.rs:31-41 | The same for the public key information |
| Pem.Pkcs8Der | gateway/src/pem.rs:13-25 | A DER reader accepts the bytes built, and returns the seed, if and only if the seed has 32 bytes; then they are the nested encoding of RFC 8410, section 7, and the header never depends on the seed |
| Pem.SpkiDer | gateway/src/pem.rs:31-41 | The same for the public key (RFC 8410, section 4) |
| Fingerprint.MixIsInjective | gateway/src/settings.rs:22-25 | One FNV-1a round is a bijection on 64-bit states for a fixed byte, and separates bytes for a fixed state |
| Fingerprint.ShortFingerprint | gateway/src/settings.rs:20-27 | The loop computes the 64-bit FNV-1a hash, printed as sixteen hexadecimal digits |
| Fingerprint.FingerprintSeparates | gateway/src/settings.rs:20-27 | Inputs of one length that differ in exactly one byte have different fingerprints |
| Fingerprint.KnownHashes | gateway/src/settings.rs:21-25 | The hashes of the empty input and of one published input |

## Left out

- CacheFreshness.StaleHitWasStampedLate: insertions only; an updated row sends no notification, so only the entry's lifetime bounds that staleness, and deleted rows are not claimed to leave the cache.
- Replay.ReplayInRun: runs without deletions; with deletions `Replay.ReplayMeetsSurvivors` is what holds.
- TokenRuns.ReplayMakesDead: for transactions one at a time only; when they overlap it is false, and `TokenRevocation.ReplayMakesDeadExactly` takes its place.
- TokenRuns.LogoutMakesDead: for transactions one at a time only, and for families whose token was returned, because a failed login may still take the others back.
- TokenRevocation.LogoutMisses: leaves out logins not returned when the logout starts; `TokenRevocation.RevocationMisses` covers them up to their being taken back.
- SearchCache.Search: trimming and lower-casing are a parameter.
- Two inserts under one id within one transaction: PostgreSQL merges their identical payloads into one notification, the model queues two.
- Row UPDATEs on `search_results`, savepoints inside a writer's transaction, and changes made directly to the sequence.
- The text-search and similarity conditions and ranking: a query is an uninterpreted function of the row set and the normalized string, and keyset search takes an arbitrary matching predicate. Limits below 1 are database errors.
- SHA-256, JWT signing, Ed25519, the operating system's random generator and password comparison: a token is its digest, draws are parameters.
- `create_jwt` failing after a committed rotation behaves like a commit whose success is not heard of (`CommitFails(true)`).
- Timestamps whose sum with the lifetime overflows chrono's calendar; leap seconds in cursors.
- Non-UTF-8 bytes in a cursor: `decode_cursor` is modelled on bytes, and such bytes fail in every field, so the separate UTF-8 error is the same `None`. Error texts are not modelled.
- tokio's broadcast channel is a log with a window: a receiver that fell behind is told how far and moved to the oldest message kept. JSON encoding of events and keep-alive comments.
- moka's lifetime and capacity are a step that drops any entry at any time.
- A sleep cut short by shutdown is recorded as begun. Liveness: no claim that a listener ever catches up.
- HTTP routing, sessions and CSRF, configuration, telemetry, pages and translations.
