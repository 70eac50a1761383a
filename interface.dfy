/** AudioAPIInterface: the object that owns the deferred write queue, flushes
    it per request or all at once, resolves queries through the cache tiers
    and picks the next track for autoplay. Its fields hold the `_tasks` dict;
    each method is proved against the value-level definitions of modules
    TaskQueue, Resolver and Autoplay. */
module Interface {
  import opened Types
  import opened Routing
  import opened TaskQueue
  import opened Resolver
  import opened Autoplay

  class AudioAPIInterface {
    /** `_tasks`: the pending batch of each request identity ... */
    var tasks: map<int, Batch>
    /** ... and the order in which those identities were first seen. */
    var order: seq<int>

    function State(): Pending
      reads this
    {
      Pending(tasks, order)
    }

    ghost predicate Valid()
      reads this
    {
      WellOrdered(State())
    }

    constructor ()
      ensures Valid() && State() == Pending(map[], [])
    {
      tasks := map[];
      order := [];
    }

    /** append_task(ctx, event, task, _id). Returns false where the source
        raises KeyError (an event naming no group); the batch has been
        created by then. */
    method AppendTask(ctxMessageId: int, event: string, task: Task, id: Option<int>) returns (ok: bool)
      requires Valid()
      modifies this
      ensures Valid()
      ensures State() == Append(old(State()), LockId(id, ctxMessageId), event, task)
      ensures ok <==> TagOf(event).Some?
    {
      var lockId := if id.Some? && id.value != 0 then id.value else ctxMessageId;
      ghost var expected := Append(State(), lockId, event, task);
      if lockId !in tasks {
        tasks := tasks[lockId := EmptyBatch];
        order := order + [lockId];
      }
      var tag := TagOf(event);
      if tag.None? {
        assert State() == expected;
        return false;
      }
      tasks := tasks[lockId := tasks[lockId].Push(tag.value, task)];
      assert State() == expected;
      ok := true;
    }

    /** Appends `w` under `id` when `cond` holds. */
    method ScheduleIf(cond: bool, id: int, w: Write)
      requires Valid()
      modifies this
      ensures Valid() && State() == AppendAll(old(State()), id, if cond then [w] else [])
    {
      if cond {
        var ok := AppendTask(id, TagName(w.tag), w.task, None);
        assert [w][..0] == [];
      }
    }

    /** run_tasks(ctx, message_id): route the three groups of one identity;
        the batch is deleted only when every route completed. */
    method RunTasks(ctxMessageId: Option<int>, messageId: Option<int>, fails: Call -> bool) returns (calls: seq<Call>)
      requires Valid()
      modifies this
      ensures Valid()
      ensures Flushed(State(), calls) == RunTasksSpec(old(State()), FlushId(messageId, ctxMessageId), fails)
    {
      var lockId: int;
      if messageId.Some? {
        lockId := messageId.value;
      } else if ctxMessageId.Some? {
        lockId := ctxMessageId.value;
      } else {
        return [];
      }
      if lockId !in tasks {
        return [];
      }
      var batch := tasks[lockId];
      var u, uOk := RouteTasks(TagName(Update), ListData(batch.update), fails);
      var i, iOk := RouteTasks(TagName(Insert), ListData(batch.insert), fails);
      var g, gOk := RouteTasks(TagName(Global), ListData(batch.global), fails);
      calls := u + i + g;
      if uOk && iOk && gOk {
        DeleteWellOrdered(State(), lockId);
        tasks := tasks - {lockId};
        order := Without(order, lockId);
      }
    }

    /** run_all_pending_tasks, corrected: each group is concatenated across
        identities in insertion order (as `extend` would), the map emptied,
        then the three lists routed. The code as written nests the groups
        instead; that flush is TaskQueue.RunAllAsWritten. */
    method RunAllPendingTasks(fails: Call -> bool) returns (calls: seq<Call>)
      requires Valid()
      modifies this
      ensures Valid() && State() == Pending(map[], [])
      ensures calls == RunAllSpec(old(State()), fails).calls
    {
      var update, insert, global := [], [], [];
      var i := 0;
      while i < |order|
        invariant 0 <= i <= |order|
        invariant update == Concat(tasks, order[..i], Update)
        invariant insert == Concat(tasks, order[..i], Insert)
        invariant global == Concat(tasks, order[..i], Global)
      {
        assert order[..i + 1][..i] == order[..i];
        var batch := tasks[order[i]];
        update := update + batch.update;
        insert := insert + batch.insert;
        global := global + batch.global;
        i := i + 1;
      }
      assert order[..i] == order;
      tasks, order := map[], [];
      var u, uOk := RouteTasks(TagName(Update), ListData(update), fails);
      var n, nOk := RouteTasks(TagName(Insert), ListData(insert), fails);
      var g, gOk := RouteTasks(TagName(Global), ListData(global), fails);
      calls := u + n + g;
    }

    /** fetch_track(ctx, player, query, forced, lazy, should_query_global),
        with the writes it schedules appended under the context's message
        id. */
    method FetchTrack(ctxMessageId: int, q: Query, forced: bool, lazy: bool, shouldQueryGlobal: bool, env: Env)
      returns (reply: Reply)
      requires Valid()
      modifies this
      ensures Valid()
      ensures reply == Resolve(q, forced, lazy, shouldQueryGlobal, env).reply
      ensures State() == AppendAll(old(State()), ctxMessageId, Resolve(q, forced, lazy, shouldQueryGlobal, env).writes)
      decreases if forced then 0 else 1
    {
      ghost var start := State();
      ghost var done: seq<Write> := [];
      var key := LookupKey(q, env.preferLyrics);
      var hit := LocalHit(q, key, forced, env);
      if hit.Some? {
        ScheduleIf(true, ctxMessageId, UpdateWrite(key));
        done := [UpdateWrite(key)];
      }
      var global := GlobalEntry(q, ConsultsGlobal(q, forced, shouldQueryGlobal, env, hit.Some?), env);
      var validGlobal := global.Some? && IsValidGlobal(global.value);
      ghost var l := Look(q, forced, lazy, shouldQueryGlobal, env);
      assert l == Lookup(key, hit, global, validGlobal, Precedence(validGlobal, lazy, hit.Some?));
      ResolveBySource(q, forced, lazy, shouldQueryGlobal, env);
      var results: Option<LoadResult> := None;
      var calledApi := false;
      if validGlobal || lazy {
        results := global;
      } else if hit.Some? {
        var r := LocalResult(hit.value, key);
        results := Some(r);
        if r.hasError {
          // A poisoned local entry: ask again, forced, which reaches the backend.
          var retry := FetchTrack(ctxMessageId, q, true, false, true, env);
          ghost var retryWrites := Resolve(q, true, false, true, env).writes;
          AppendAllConcat(start, ctxMessageId, done, retryWrites);
          done := done + retryWrites;
          if retry.TrackEnqueueError? {
            return TrackEnqueueError;
          }
          results, calledApi := Some(retry.result), retry.calledApi;
        }
      } else {
        calledApi := true;
        match env.backend(key)
        case Ok(r) => results := Some(r);
        case KeyErr => results := None;
        case RuntimeErr => return TrackEnqueueError;
      }
      assert Resolve(q, forced, lazy, shouldQueryGlobal, env) == Resolver.Settle(q, key, results, calledApi, validGlobal, done, env);
      ghost var r := if results.Some? then results.value else FailedResult;
      ghost var post := PostWrites(q, key, r, validGlobal && results.Some?, env);
      reply := Finish(ctxMessageId, q, key, results, calledApi, validGlobal, env);
      AppendAllConcat(start, ctxMessageId, done, post);
    }

    /** The tail of fetch_track once `results` and `called_api` are known: a
        missing result becomes LOAD_FAILED, then the global publish and the
        local insert are scheduled when their conditions hold. */
    method Finish(id: int, q: Query, key: string, results: Option<LoadResult>, calledApi: bool, validGlobal: bool, env: Env)
      returns (reply: Reply)
      requires Valid()
      modifies this
      ensures Valid()
      ensures var r := if results.Some? then results.value else FailedResult;
        && reply == Result(r, calledApi)
        && State() == AppendAll(old(State()), id, PostWrites(q, key, r, validGlobal && results.Some?, env))
    {
      var r := if results.Some? then results.value else FailedResult;
      var publish := PublishesGlobal(q, r, validGlobal && results.Some?, env);
      ghost var start := State();
      ScheduleIf(publish, id, Write(Global, GlobalArgs(r, q)));
      var insert := CachesLocally(q, r, env);
      ScheduleIf(insert, id, InsertWrite(key, env.dumps(r), env.now));
      AppendAllConcat(start, id, if publish then [Write(Global, GlobalArgs(r, q))] else [],
                      if insert then [InsertWrite(key, env.dumps(r), env.now)] else []);
      reply := Result(r, calledApi);
    }

    /** autoplay(player, playlist_api): the configured playlist, else a
        random cached track when caching is on, else the Top 100 playlist
        resolved through fetch_track under the guild's id (the synthetic
        context's message is the guild); then the selection tail. */
    method Autoplay(src: AutoplaySource, player: PlayerView, c: Checks, env: Env) returns (outcome: AutoplayOutcome)
      requires Valid()
      modifies this
      ensures Valid()
      ensures UsesPlaylist(src) ==> State() == old(State()) && Settles(outcome, src.playlist.value, c, player)
      ensures UsesRandomRow(src, env.cacheEnabled) ==>
        && State() == old(State())
        && outcome.Queued? && outcome.track in src.randomRow.value.tracks
        && outcome.events == AfterAcceptance(outcome.track, player)
      ensures !UsesPlaylist(src) && !UsesRandomRow(src, env.cacheEnabled) ==>
        var res := Resolve(src.processInput(Top100Us), false, false, true, env);
        && State() == AppendAll(old(State()), player.guildId, res.writes)
        && (res.reply.TrackEnqueueError? ==> outcome == EnqueueFailed)
        && (res.reply.Result? ==> Settles(outcome, res.reply.result.tracks, c, player))
    {
      if UsesPlaylist(src) {
        outcome := QueueFrom(src.playlist.value, c, player);
        return;
      }
      var tracks: seq<Track> := [];
      if env.cacheEnabled {
        var track := GetRandomTrackFromDb(src.randomRow);
        tracks := if track.None? then [] else [track.value];
      }
      if tracks == [] {
        var reply := FetchTrack(player.guildId, src.processInput(Top100Us), false, false, true, env);
        if reply.TrackEnqueueError? {
          return EnqueueFailed;
        }
        tracks := reply.result.tracks;
      }
      outcome := QueueFrom(tracks, c, player);
    }
  }
}
