# AudioAPIInterface query resolution, in Dafny

This project models the core of the audio cog's `AudioAPIInterface`
(`redbot/cogs/audio/apis/interface.py`). It has three parts.

- **The deferred write queue.** `_tasks` maps a request identity to three
  task groups, `update`, `insert` and `global`. `append_task` fills it.
  `run_tasks` flushes one identity and `run_all_pending_tasks` drains them
  all. `route_tasks` sends one group to the store it belongs to.
- **The tiered resolver `fetch_track`.** It looks up a local cache
  candidate and the global cache, then applies the lazy short-circuit, then
  calls the Lavalink backend. A poisoned local entry gets a single forced
  retry. Afterwards it schedules `update`, `global` and `insert` writes
  under explicit guards.
- **Autoplay.** The candidate sources are tried in order: the configured
  playlist, then a random track from the local cache, then the Top 100
  playlist resolved through `fetch_track`. Then comes the bounded random
  selection loop, and what happens once a track is accepted.

Layout:

- `types.dfy` (module `Types`): queries, tracks and payloads. A payload is
  an `Envelope`; `LoadResult` is the envelopes whose tag is a real load type.
  It also holds the `V2_COMPACT` normalisation and the task and store-call
  values.
- `routing.dfy` (module `Routing`): `route_tasks`, as a specification
  function and as the looping method.
- `queue.dfy` (module `TaskQueue`): the `_tasks` dict as a value
  (`Pending`, with Python's insertion order kept as `order`). It defines
  what appending and flushing do to it. It also holds the flush-all
  *as written*, used by the finding below.
- `resolver.dfy` (module `Resolver`): `fetch_track` as a recursive
  function of its inputs (`Resolve`), and the lemmas about precedence,
  `called_api`, the retry and the write guards.
- `autoplay.dfy` (module `Autoplay`): `get_random_track_from_db`, the
  selection loop, and the acceptance effects as a list of events.
- `interface.dfy` (module `Interface`): the class `AudioAPIInterface`. Its
  fields `tasks` and `order` are the `_tasks` dict. Its methods update them
  in place. Each method is proved to match the value-level definitions
  above.

Store calls that may raise are given by an oracle `fails: Call -> bool`.
`asyncio.gather` over the three groups is modelled as running them one
after another: each group runs to its end or to its own first failure, and
the issued calls are concatenated. The local store, the global store and
the backend are parameters of `Resolver.Env`. The same holds for the
serialisation `json.dumps` and the clock reading. The random picks are
nondeterministic choices (`:|`).

Where the code differs from what one might expect of it, the model
follows the code:

- `lazy` stops before a local candidate is used, not only when there is
  none.
- A `run_tasks` whose routing fails keeps the batch for a later flush; the
  writes are not dropped.
- The `update` group is routed as a list. `route_tasks` only dispatches
  `update` for a dict, so flushing never issues an update call. N
  appended tasks therefore do not yield N store calls.
- Autoplay makes at most N−1 random picks before raising, not N.
- The local lookup suppresses the global lookup, so a poisoned local entry
  is retried through the backend without consulting the global cache.
- On the retry path, the publish and insert writes of the final result are
  appended twice: once inside the retry and once after it returns.

## Model

| member | source | states |
|---|---|---|
| Types.Normalize | redbot/cogs/audio/apis/interface.py:94-95 | a stored `V2_COMPACT` tag becomes `V2_COMPAT`; every other payload is unchanged; tracks, error flag and query are preserved |
| Types.Interpret | redbot/cogs/audio/apis/interface.py:96 | `LoadResult(data)` succeeds exactly when the tag is a load-type member, and then it is the payload itself |
| Types.NormalizedInterprets | redbot/cogs/audio/apis/interface.py:251-253 | after normalisation every payload is interpretable; the result is `V2_COMPAT` exactly when the stored tag was `V2_COMPACT` or `V2_COMPAT`; normalising is idempotent |
| Types.TagOf | redbot/cogs/audio/apis/interface.py:175 | an event name selects the group with that name and no other; any other name is a missing key |
| Types.ContainsAt | redbot/cogs/audio/apis/interface.py:313 | `substr in s` holds whenever `substr` occurs at some offset of `s` |
| Types.ContainsOccurs | redbot/cogs/audio/apis/interface.py:313 | conversely, `substr in s` holds only when `substr` occurs at some offset of `s`; with `ContainsAt`, `Contains` is exactly substring occurrence |
| Routing.Route | redbot/cogs/audio/apis/interface.py:107-125 | no contract of its own: the reference definition of `route_tasks` that `RouteTasks` is proved equal to and that `InsertLoopCalls`, `RouteOtherwiseNothing` and `GlobalRouteCalls` are about |
| Routing.InsertLoop | redbot/cogs/audio/apis/interface.py:116-119 | no contract of its own: the insert loop, one `insert` per lavalink pair until a call raises; `InsertLoopCalls` states its calls |
| Routing.UpdateLoop | redbot/cogs/audio/apis/interface.py:120-123 | no contract of its own: the update loop, passing the whole data on each lavalink key; reached only for a dict, which a flush never routes |
| Routing.GlobalGather | redbot/cogs/audio/apis/interface.py:124-125 | no contract of its own: the gathered publishes, one per entry, failing if any raised or an entry is not a keyword mapping; `GlobalRouteCalls` states its calls |
| Routing.InsertLoopCalls | redbot/cogs/audio/apis/interface.py:116-119 | routing a list as insert calls insert once per `("lavalink", d)` pair, in order. It completes exactly when no call raised and all pairs were sent. When a call raises it is the last call made |
| Routing.RouteOtherwiseNothing | redbot/cogs/audio/apis/interface.py:115-125 | empty data, a list routed as update, a dict routed as insert or global, and any other action all dispatch nothing |
| Routing.GlobalRouteCalls | redbot/cogs/audio/apis/interface.py:124-125 | a global list of publish arguments issues one `update_global` per element, in order, and fails when one raised. A list holding a `(table, d)` pair issues nothing and fails |
| Routing.GlobalCalls | redbot/cogs/audio/apis/interface.py:125 | the gathered publish calls, one per element with that element's arguments |
| Routing.RouteTasks | redbot/cogs/audio/apis/interface.py:107-125 | the looping `route_tasks` issues exactly the calls of `Route` and reports the same completion |
| TaskQueue.Batch.Push | redbot/cogs/audio/apis/interface.py:175 | appending extends exactly the named group by the task and leaves the other two groups unchanged |
| TaskQueue.LockId | redbot/cogs/audio/apis/interface.py:172 | the identity is `_id` when it is truthy (present and non-zero), else the context's message id |
| TaskQueue.Append | redbot/cogs/audio/apis/interface.py:170-175 | the identity gets a batch (an empty one if it was absent); the task is added to exactly the named group, or to none for an unknown event; every other identity is unchanged; the insertion order gains the identity at its end exactly when it was absent, and stays well formed |
| TaskQueue.AppendAll | redbot/cogs/audio/apis/interface.py:170-175 | no contract of its own: a run of `append_task` calls under one identity; `AppendAllConcat`, `AppendAllGroups` and `AppendAllFrame` are about it |
| TaskQueue.AppendAllConcat | redbot/cogs/audio/apis/interface.py:170-175 | appending two runs of writes one after the other equals appending their concatenation |
| TaskQueue.AppendAllGroups | redbot/cogs/audio/apis/interface.py:170-175 | a run of writes extends each group of the identity by exactly the writes of that tag, in order |
| TaskQueue.AppendAllFrame | redbot/cogs/audio/apis/interface.py:173-174 | a run of writes adds only this identity and changes no other identity's batch. An empty run changes nothing. The order stays well formed |
| TaskQueue.Without | redbot/cogs/audio/apis/interface.py:143 | removing an identity from the insertion order keeps exactly the other identities |
| TaskQueue.WithoutConcat | redbot/cogs/audio/apis/interface.py:143 | removing an identity from two joined runs of the order removes it from each run |
| TaskQueue.WithoutAbsent | redbot/cogs/audio/apis/interface.py:143 | removing an identity the order does not hold leaves the order as it was |
| TaskQueue.WithoutKeepsOrder | redbot/cogs/audio/apis/interface.py:143 | deleting an identity held once closes the gap: the identities before and after it keep their order |
| TaskQueue.WithoutDistinct | redbot/cogs/audio/apis/interface.py:143 | the order without the identity still lists each identity once |
| TaskQueue.Delete | redbot/cogs/audio/apis/interface.py:143 | `del _tasks[lock_id]` removes that key and keeps every other entry as it was |
| TaskQueue.DeleteWellOrdered | redbot/cogs/audio/apis/interface.py:143 | deleting an identity keeps the insertion order well formed |
| TaskQueue.FlushBatch | redbot/cogs/audio/apis/interface.py:141-142 | no contract of its own: the three routes gathered for one batch, in key order, succeeding when all three did; `FlushBatchCalls` states its calls |
| TaskQueue.RunTasksSpec | redbot/cogs/audio/apis/interface.py:127-149 | no contract of its own: the reference definition of `run_tasks` that `AudioAPIInterface.RunTasks` is proved against and `RunTasksOnce` is about |
| TaskQueue.RunTasksOnce | redbot/cogs/audio/apis/interface.py:137-147 | after a successful flush the identity is gone, so a second flush issues nothing and changes nothing. A failed flush leaves the state as it was |
| TaskQueue.FlushBatchCalls | redbot/cogs/audio/apis/interface.py:139-142 | flushing a batch never issues an update call. When no call raises, it issues one insert per lavalink insert pair plus one publish per global entry, and completes |
| TaskQueue.Concat | redbot/cogs/audio/apis/interface.py:157-159 | no contract of its own: each group concatenated across identities in insertion order, as `extend` would; `ConcatHolds`, `ConcatSplit` and `ConcatAround` are about it |
| TaskQueue.Merged | redbot/cogs/audio/apis/interface.py:156-159 | no contract of its own: the three concatenated groups of the corrected flush; `RunAllCarriesEveryTask` is about it |
| TaskQueue.ConcatHolds | redbot/cogs/audio/apis/interface.py:157-159 | a task is in the concatenated group exactly when some identity's batch holds it in that group |
| TaskQueue.RunAllSpec | redbot/cogs/audio/apis/interface.py:151-168 | the flush of all identities leaves `_tasks` empty whatever the routing does |
| TaskQueue.ConcatSplit | redbot/cogs/audio/apis/interface.py:157-159 | concatenating the groups over two joined runs of identities is concatenating the two results |
| TaskQueue.ConcatAround | redbot/cogs/audio/apis/interface.py:157-159 | the concatenation over a run of identities is the part before position i, then the group of the identity at i, then the part after it |
| TaskQueue.RunAllCarriesEveryTask | redbot/cogs/audio/apis/interface.py:156-161 | the merged groups routed by the flush of all identities hold exactly the tasks of all batches, and each identity's group appears whole, once, between the groups of the identities before it and those after it in insertion order |
| TaskQueue.Nested | redbot/cogs/audio/apis/interface.py:157-159 | the per-tag list as written holds one inner list per identity: the i-th element is the i-th identity's whole group, not its tasks |
| TaskQueue.RouteNested | redbot/cogs/audio/apis/interface.py:115-125 | no contract of its own: `route_tasks` applied to the list of lists that line 159 builds; insert unpacks each inner list and never sees "lavalink", global applies `**` to a list and raises |
| TaskQueue.RunAllAsWritten | redbot/cogs/audio/apis/interface.py:151-163 | no contract of its own: `run_all_pending_tasks` as written; `RunAllAsWrittenDropsWrites` and `RunAllAsWrittenCounterexample` are about it |
| TaskQueue.RunAllAsWrittenDropsWrites | redbot/cogs/audio/apis/interface.py:156-163 | as written, flushing all identities issues no store call, and fails whenever anything was pending |
| TaskQueue.RunAllAsWrittenCounterexample | redbot/cogs/audio/apis/interface.py:159 | with one identity holding one insert, the corrected flush inserts its row while the flush as written issues nothing and fails |
| Resolver.LookupKey | redbot/cogs/audio/apis/interface.py:219-220 | the key carries the ` - lyrics` suffix exactly when lyrics are preferred and the query is a YouTube search |
| Resolver.LocalHit | redbot/cogs/audio/apis/interface.py:221-240 | a local candidate exists exactly when caching is on, the call is not forced, the query is not local, and the store holds a dict under the key |
| Resolver.GlobalEntry | redbot/cogs/audio/apis/interface.py:241-253 | a global answer exists exactly when the global cache was asked and answered |
| Resolver.Precedence | redbot/cogs/audio/apis/interface.py:264-287 | a valid global entry decides; else lazy stops; else a local candidate is used; else the backend is called. Each case holds exactly under its condition |
| Resolver.Look | redbot/cogs/audio/apis/interface.py:221-247 | a forced call has no local candidate and no global answer, and, unless lazy, goes to the backend |
| Resolver.PostWrites | redbot/cogs/audio/apis/interface.py:291-328 | no contract of its own: the publish and the insert scheduled once the result is known; `PostWritesGuarded` and `GuardedResultsAreWritten` are about it |
| Resolver.Settle | redbot/cogs/audio/apis/interface.py:288-328 | no contract of its own: a missing result becomes LOAD_FAILED, then the post writes follow the earlier ones |
| Resolver.Resolve | redbot/cogs/audio/apis/interface.py:177-335 | no contract of its own: the reference definition of `fetch_track` (reply and scheduled writes) that `AudioAPIInterface.FetchTrack` is proved against and the lemmas below are about |
| Resolver.BackendCalls | redbot/cogs/audio/apis/interface.py:263-287 | no contract of its own: how many times one call, its retry included, reaches the backend; `RetryIsBounded` is about it |
| Resolver.GlobalEntryWins | redbot/cogs/audio/apis/interface.py:254-265 | a valid global entry is the reply with `called_api` false, normalised, and the backend is not called |
| Resolver.LazyNeverCallsBackend | redbot/cogs/audio/apis/interface.py:266-267 | without a valid global entry, lazy never calls the backend. The reply is the invalid global answer if one came, else LOAD_FAILED |
| Resolver.LocalHitServed | redbot/cogs/audio/apis/interface.py:268-274 | a local candidate without error is the reply, with `called_api` false; neither the global cache nor the backend is asked |
| Resolver.ForcedIgnoresCaches | redbot/cogs/audio/apis/interface.py:221-247 | the outcome of a forced call does not depend on what either cache holds |
| Resolver.RetryIsBounded | redbot/cogs/audio/apis/interface.py:275-277 | one call reaches the backend at most once. A poisoned local candidate reaches it exactly once, through the forced retry, whose reply becomes the reply |
| Resolver.CalledApiMeansBackend | redbot/cogs/audio/apis/interface.py:263-287 | `called_api` is true exactly when the backend was reached. TrackEnqueueError is raised exactly when the backend raised RuntimeError |
| Resolver.WritesShape | redbot/cogs/audio/apis/interface.py:229-328 | the writes of a call, in order: the update of a local candidate, those of the retry, then the publish and the insert of the final result |
| Resolver.AllGuardedConcat | redbot/cogs/audio/apis/interface.py:229-328 | guarded runs of writes stay guarded when concatenated |
| Resolver.PostWritesGuarded | redbot/cogs/audio/apis/interface.py:291-328 | the publish and the insert after a result each meet their guard |
| Resolver.WritesAreGuarded | redbot/cogs/audio/apis/interface.py:229-328 | every scheduled write meets the guard of its tag. Update is keyed by the lookup key. Global needs global read on, no valid entry, an API key, a non-local query, no error and a track. Insert needs caching on, no error, a non-local query, tracks, all four markers, and `last_updated` equal to `last_fetched` |
| Resolver.UpdateWriteOnLocalHit | redbot/cogs/audio/apis/interface.py:229-232 | an update write is scheduled exactly when there was a local candidate, and it is then the first write |
| Resolver.GuardedResultsAreWritten | redbot/cogs/audio/apis/interface.py:291-328 | a successful result that meets the publish guard is published, and one that meets the insert guard is cached |
| Resolver.RetryWritesTwice | redbot/cogs/audio/apis/interface.py:275-328 | on the retry path, the insert of a cacheable backend result is scheduled twice |
| Autoplay.GetRandomTrackFromDb | redbot/cogs/audio/apis/interface.py:78-105 | a track comes back exactly when a row was found and it has a track, and the track is one of the row's. A `V2_COMPACT` row is normalised first, so it is not lost |
| Autoplay.SelectTrack | redbot/cogs/audio/apis/interface.py:370-400 | no candidates: nothing. One candidate: accepted with no pick and no check. Several: at most N−1 picks, all among the candidates. An accepted pick is the last one, passes every check, and every earlier pick failed one: the loop stops at the first acceptable pick. The consulted picks are exactly the picks that pass validity and the path check, in order (`Consulted`), so every pick passing both reaches the allow-list check. Exhaustion means exactly N−1 picks, all rejected, and happens whenever no candidate is acceptable |
| Autoplay.Consulted | redbot/cogs/audio/apis/interface.py:383-390 | no more picks are consulted than made; the reference definition of which picks reach the allow-list check, used by `SelectTrack`'s ensures |
| Autoplay.ConsultedStep | redbot/cogs/audio/apis/interface.py:383-390 | a new pick joins the consulted picks, after the earlier ones, exactly when its query is valid and names no missing local file |
| Autoplay.ConsultedExactly | redbot/cogs/audio/apis/interface.py:383-390 | a track reaches the allow-list check exactly when it was picked and its query is valid and names no missing local file |
| Autoplay.ScreenedPicksConsulted | redbot/cogs/audio/apis/interface.py:383-390 | each pick reaches the allow-list check exactly when its query is valid and names no missing local file |
| Autoplay.AfterAcceptance | redbot/cogs/audio/apis/interface.py:401-426 | the track is annotated and enqueued as the bot. The `red_audio_track_auto_play` event is dispatched with the track and the bot as requester. The autoplay channels are the notify and voice channels when notify is set, else none. Playback starts exactly when idle, as the last effect |
| Autoplay.QueueFrom | redbot/cogs/audio/apis/interface.py:370-426 | the outcome for a candidate list meets `Settles`: nothing without candidates, the single candidate as is, an acceptable candidate or DatabaseError among several, with the acceptance effects |
| Interface.AudioAPIInterface.constructor | redbot/cogs/audio/apis/interface.py:50-67 | the queue starts empty and well formed |
| Interface.AudioAPIInterface.AppendTask | redbot/cogs/audio/apis/interface.py:170-175 | the new state is `Append` of the old one under `LockId`, and the call succeeds exactly when the event names a group |
| Interface.AudioAPIInterface.ScheduleIf | redbot/cogs/audio/apis/interface.py:291-328 | appends the write under the identity when its condition holds, and nothing otherwise |
| Interface.AudioAPIInterface.RunTasks | redbot/cogs/audio/apis/interface.py:127-149 | the calls issued and the new state are those of `RunTasksSpec` for `message_id`, else the context's id, else no identity |
| Interface.AudioAPIInterface.RunAllPendingTasks | redbot/cogs/audio/apis/interface.py:151-168 | the corrected flush (groups extended, not appended; see Findings): the loop builds the per-tag concatenation in insertion order, the map ends empty, and the calls are those of `RunAllSpec` |
| Interface.AudioAPIInterface.FetchTrack | redbot/cogs/audio/apis/interface.py:177-335 | the reply is `Resolve`'s reply, and the state is the old one with `Resolve`'s writes appended under the context's id |
| Interface.AudioAPIInterface.Finish | redbot/cogs/audio/apis/interface.py:288-328 | a missing result becomes LOAD_FAILED; the publish and the insert are appended exactly under their guards |
| Interface.AudioAPIInterface.Autoplay | redbot/cogs/audio/apis/interface.py:337-426 | a non-empty playlist is used without touching the queue. Failing that, with caching on, a random cached track is queued. Failing that, the Top 100 US playlist address, processed into a query, is resolved under the guild's id, TrackEnqueueError propagates, and its tracks go through selection |

## Left out

- I/O and the stores: `fetch_one`, `get_call`, `fetch_random`,
  `load_tracks` and the store writes are parameters or oracles. Logging is
  not modelled.
- `asyncio.Lock` and the concurrency of `asyncio.gather`. Flushes are
  sequential calls; the lock only serialises them. Inside a gather, the
  groups run one after another, each to its end or its first failure.
- `initialize`, `close` and `fetch_all_contribute`: database connection
  wrappers with no logic of their own.
- The freshness window of `get_random_track_from_db` (the `datetime` and
  `time.mktime` arithmetic, lines 83-91). `fetch_random` is an oracle whose
  answer is the `row` parameter.
- `json.dumps` is the abstract `Env.dumps`. The clock is `Env.now`, read
  once per top-level call. The retry therefore stamps its insert with the
  same time as the outer call.
- `Query.process_input` and `LoadResult` are not part of this model. A
  `Query` value stands for a processed query; the one autoplay builds from
  the Top 100 address goes through the abstract
  `AutoplaySource.processInput`. An `Envelope` stands for a
  payload, reduced to its tag, its tracks, its error flag and its `query`
  key. The error flag is an input, not derived from the tag.
- `cache_level` and the other config reads are the booleans of `Env`.
  `get_lyrics_status` is `Env.preferLyrics`.
- Autoplay.AutoplaySource: the playlist is modelled by a single track list.
  The source tests `playlist.tracks` for emptiness but uses
  `playlist.tracks_obj`, and the model assumes these agree.
- Autoplay.AfterAcceptance: the Discord objects (player, guild, channel) are
  reduced to their ids. The effects are recorded as events, not performed.
- Interface.AudioAPIInterface.Autoplay: the allow-list policy, the validity
  check and the path check are the abstract `Checks`. The notify channel
  lookup handed to the policy is not modelled.
- Routing.RouteTasks: a dict's items are seen only through its keys. For
  `update`, the whole data is passed on each matching key, as the source
  does.

- Interface.AudioAPIInterface.RunAllPendingTasks: runs the corrected flush,
  concatenating each group across identities as `extend` would. The code as
  written at line 159 appends whole lists; that flush is
  `TaskQueue.RunAllAsWritten`, whose loss of every write is shown by
  `TaskQueue.RunAllAsWrittenDropsWrites` (see Findings).

## Findings

| source | as written | input that shows it | evidently intended | confidence | as-written member | corrected member |
|---|---|---|---|---|---|---|
| redbot/cogs/audio/apis/interface.py:159 | `tasks[t].append(args)` appends each identity's whole list as one element, so each group becomes a list of lists; `route_tasks` then unpacks an inner list as `(table, d)` for insert (no call, or ValueError) and `**` a list for global (TypeError); since `_tasks` was already cleared, every pending write is lost | one identity with one lavalink insert pair: the flush issues no call and raises | `tasks[t].extend(args)`: each group is the concatenation of all identities' tasks, so every pending insert and publish is routed | high; not executed | TaskQueue.RunAllAsWrittenCounterexample | TaskQueue.RunAllSpec |
