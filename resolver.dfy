/** fetch_track's tiered resolution, as a function of its inputs: the local
    cache, the global cache, the lazy short-circuit and the backend, the
    single forced retry of a poisoned local entry, and the deferred writes it
    schedules. The method Interface.AudioAPIInterface.FetchTrack is proved
    to return exactly this reply and to append exactly these writes. */
module Resolver {
  import opened Types

  /** What `player.load_tracks` does: return a LoadResult, raise KeyError or
      raise RuntimeError. */
  datatype BackendReply = Ok(result: LoadResult) | KeyErr | RuntimeErr

  /** The collaborators and settings fetch_track reads.
      - cacheEnabled: the configured cache level includes the lavalink table;
      - globalCanRead: `global_api_user["can_read"]`;
      - hasApiKey: the global cache has an API key;
      - preferLyrics: the requester's lyrics preference;
      - local: `fetch_one` by query string: no key when it raised or found
        nothing, None when the stored value is not a non-empty dict;
      - globalStore: `get_call`, None when it raised;
      - dumps: `json.dumps` of a result's raw payload;
      - now: the clock, in seconds. */
  datatype Env = Env(
    cacheEnabled: bool,
    globalCanRead: bool,
    hasApiKey: bool,
    preferLyrics: bool,
    local: map<string, Option<Envelope>>,
    globalStore: Query -> Option<Envelope>,
    backend: string -> BackendReply,
    dumps: LoadResult -> string,
    now: int)

  /** fetch_track's return value `(results, called_api)`, or the
      TrackEnqueueError it raises. */
  datatype Reply = Result(result: LoadResult, calledApi: bool) | TrackEnqueueError

  /** The reply together with the writes appended for the caller's
      identity, in order. */
  datatype Resolution = Resolution(reply: Reply, writes: seq<Write>)

  const LyricsSuffix: string := " - lyrics"

  /** The string used as cache key and backend query. */
  function LookupKey(q: Query, preferLyrics: bool): (key: string)
    ensures preferLyrics && q.isYoutube && q.isSearch ==> key == q.text + LyricsSuffix
    ensures !(preferLyrics && q.isYoutube && q.isSearch) ==> key == q.text
  {
    if preferLyrics && q.isYoutube && q.isSearch then q.text + LyricsSuffix else q.text
  }

  /** The local candidate: looked up only when caching is on, the call is
      not forced and the query is not a local file. */
  function LocalHit(q: Query, key: string, forced: bool, env: Env): (hit: Option<Envelope>)
    ensures hit.Some? <==> env.cacheEnabled && !forced && !q.isLocal && key in env.local && env.local[key].Some?
    ensures hit.Some? ==> hit == env.local[key]
  {
    if env.cacheEnabled && !forced && !q.isLocal && key in env.local then env.local[key] else None
  }

  /** The global cache is asked only when it may be read, there is no local
      candidate, the caller allows it, the call is not forced and the query
      is not a local file. */
  predicate ConsultsGlobal(q: Query, forced: bool, shouldQueryGlobal: bool, env: Env, localHit: bool)
  {
    env.globalCanRead && !localHit && shouldQueryGlobal && !forced && !q.isLocal
  }

  /** The global answer, normalised, when the global cache was asked and
      answered. */
  function GlobalEntry(q: Query, consulted: bool, env: Env): (r: Option<LoadResult>)
    ensures r.Some? <==> consulted && env.globalStore(q).Some?
  {
    if consulted && env.globalStore(q).Some? then Some(Normalize(env.globalStore(q).value)) else None
  }

  predicate IsValidGlobal(r: LoadResult)
  {
    LoadTypeOf(r) in {PlaylistLoaded, TrackLoaded, SearchResult, V2Compat}
  }

  /** Which tier decides the result. */
  datatype Source = FromGlobal | LazyStop | FromLocal | FromBackend

  /** valid global entry > lazy > local candidate > backend. */
  function Precedence(validGlobal: bool, lazy: bool, localHit: bool): (s: Source)
    ensures s == FromGlobal <==> validGlobal
    ensures s == LazyStop <==> !validGlobal && lazy
    ensures s == FromLocal <==> !validGlobal && !lazy && localHit
    ensures s == FromBackend <==> !validGlobal && !lazy && !localHit
  {
    if validGlobal then FromGlobal
    else if lazy then LazyStop
    else if localHit then FromLocal
    else FromBackend
  }

  /** The facts one call works from, in the order the source derives them. */
  datatype Lookup = Lookup(key: string, hit: Option<Envelope>, global: Option<LoadResult>, validGlobal: bool, source: Source)

  function Look(q: Query, forced: bool, lazy: bool, shouldQueryGlobal: bool, env: Env): (l: Lookup)
    ensures forced ==> l.hit.None? && l.global.None? && !l.validGlobal
    ensures forced && !lazy ==> l.source == FromBackend
  {
    var key := LookupKey(q, env.preferLyrics);
    var hit := LocalHit(q, key, forced, env);
    var global := GlobalEntry(q, ConsultsGlobal(q, forced, shouldQueryGlobal, env, hit.Some?), env);
    var validGlobal := global.Some? && IsValidGlobal(global.value);
    Lookup(key, hit, global, validGlobal, Precedence(validGlobal, lazy, hit.Some?))
  }

  /** A local hit, as interpreted: its "query" set to the key, normalised. */
  function LocalResult(hit: Envelope, key: string): LoadResult
  {
    Normalize(hit.(query := Some(key)))
  }

  function UpdateWrite(key: string): Write
  {
    Write(Update, Pair(Lavalink, QueryKey(key)))
  }

  function InsertWrite(key: string, data: string, now: int): Write
  {
    Write(Insert, Pair(Lavalink, Rows([Row(key, data, now, now)])))
  }

  /** Whether a result is published to the global cache. */
  predicate PublishesGlobal(q: Query, r: LoadResult, validGlobal: bool, env: Env)
  {
    env.globalCanRead && !validGlobal && env.hasApiKey && !q.isLocal && !r.hasError && |r.tracks| >= 1
  }

  /** Whether a result is written to the local cache. */
  predicate CachesLocally(q: Query, r: LoadResult, env: Env)
  {
    env.cacheEnabled && !r.hasError && !q.isLocal && |r.tracks| > 0 && HasMarkers(env.dumps(r))
  }

  /** The writes scheduled once the result is known. */
  function PostWrites(q: Query, key: string, r: LoadResult, validGlobal: bool, env: Env): seq<Write>
  {
    (if PublishesGlobal(q, r, validGlobal, env) then [Write(Global, GlobalArgs(r, q))] else [])
    + (if CachesLocally(q, r, env) then [InsertWrite(key, env.dumps(r), env.now)] else [])
  }

  /** A missing result becomes the LOAD_FAILED result; then the post writes. */
  function Settle(q: Query, key: string, results: Option<LoadResult>, calledApi: bool, validGlobal: bool,
                  pre: seq<Write>, env: Env): Resolution
  {
    var r := if results.Some? then results.value else FailedResult;
    Resolution(Result(r, calledApi), pre + PostWrites(q, key, r, validGlobal && results.Some?, env))
  }

  /** fetch_track(ctx, player, query, forced, lazy, should_query_global). */
  function Resolve(q: Query, forced: bool, lazy: bool, shouldQueryGlobal: bool, env: Env): Resolution
    decreases if forced then 0 else 1
  {
    var l := Look(q, forced, lazy, shouldQueryGlobal, env);
    var pre := if l.hit.Some? then [UpdateWrite(l.key)] else [];
    match l.source
    case FromGlobal => Settle(q, l.key, l.global, false, true, pre, env)
    case LazyStop => Settle(q, l.key, l.global, false, false, pre, env)
    case FromLocal =>
      var r := LocalResult(l.hit.value, l.key);
      if !r.hasError then Settle(q, l.key, Some(r), false, false, pre, env)
      else
        var retry := Resolve(q, true, false, true, env);
        if retry.reply.TrackEnqueueError? then Resolution(TrackEnqueueError, pre + retry.writes)
        else Settle(q, l.key, Some(retry.reply.result), retry.reply.calledApi, false, pre + retry.writes, env)
    case FromBackend =>
      match env.backend(l.key)
      case Ok(r) => Settle(q, l.key, Some(r), true, false, pre, env)
      case KeyErr => Settle(q, l.key, None, true, false, pre, env)
      case RuntimeErr => Resolution(TrackEnqueueError, pre)
  }

  // Helper: Resolve's answer, case by case on the tier that decides it,
  // so the proof of AudioAPIInterface.FetchTrack stays cheap.
  lemma ResolveBySource(q: Query, forced: bool, lazy: bool, shouldQueryGlobal: bool, env: Env)
    ensures var l := Look(q, forced, lazy, shouldQueryGlobal, env);
      var pre := if l.hit.Some? then [UpdateWrite(l.key)] else [];
      var res := Resolve(q, forced, lazy, shouldQueryGlobal, env);
      && (l.validGlobal || lazy ==> res == Settle(q, l.key, l.global, false, l.validGlobal, pre, env))
      && (!l.validGlobal && !lazy && l.hit.Some? && !LocalResult(l.hit.value, l.key).hasError ==>
            res == Settle(q, l.key, Some(LocalResult(l.hit.value, l.key)), false, false, pre, env))
      && (!l.validGlobal && !lazy && l.hit.Some? && LocalResult(l.hit.value, l.key).hasError ==>
            var retry := Resolve(q, true, false, true, env);
            res == if retry.reply.TrackEnqueueError? then Resolution(TrackEnqueueError, pre + retry.writes)
                   else Settle(q, l.key, Some(retry.reply.result), retry.reply.calledApi, false, pre + retry.writes, env))
      && (!l.validGlobal && !lazy && l.hit.None? ==>
            res == match env.backend(l.key)
                   case Ok(r) => Settle(q, l.key, Some(r), true, false, pre, env)
                   case KeyErr => Settle(q, l.key, None, true, false, pre, env)
                   case RuntimeErr => Resolution(TrackEnqueueError, pre))
  {
  }

  /** How many times one fetch_track call (its retry included) reaches the
      backend. */
  function BackendCalls(q: Query, forced: bool, lazy: bool, shouldQueryGlobal: bool, env: Env): nat
    decreases if forced then 0 else 1
  {
    var l := Look(q, forced, lazy, shouldQueryGlobal, env);
    match l.source
    case FromBackend => 1
    case FromLocal =>
      if LocalResult(l.hit.value, l.key).hasError then BackendCalls(q, true, false, true, env) else 0
    case _ => 0
  }

  // ---- Precedence --------------------------------------------------------

  /** A valid global entry is returned as it is, without a backend call. */
  lemma GlobalEntryWins(q: Query, forced: bool, lazy: bool, shouldQueryGlobal: bool, env: Env)
    requires var l := Look(q, forced, lazy, shouldQueryGlobal, env); l.validGlobal
    ensures var l := Look(q, forced, lazy, shouldQueryGlobal, env);
      && Resolve(q, forced, lazy, shouldQueryGlobal, env).reply == Result(l.global.value, false)
      && l.global == Some(Normalize(env.globalStore(q).value))
      && BackendCalls(q, forced, lazy, shouldQueryGlobal, env) == 0
  {
  }

  /** Without a valid global entry, `lazy` returns without calling the
      backend, even when a local candidate exists: the result is the invalid
      global answer if one was fetched, else LOAD_FAILED. */
  lemma LazyNeverCallsBackend(q: Query, forced: bool, shouldQueryGlobal: bool, env: Env)
    requires !Look(q, forced, true, shouldQueryGlobal, env).validGlobal
    ensures var l := Look(q, forced, true, shouldQueryGlobal, env);
      && Resolve(q, forced, true, shouldQueryGlobal, env).reply
         == Result(if l.global.Some? then l.global.value else FailedResult, false)
      && BackendCalls(q, forced, true, shouldQueryGlobal, env) == 0
  {
  }

  /** A local candidate without error is served without a backend call, and
      the global cache is not asked. */
  lemma LocalHitServed(q: Query, shouldQueryGlobal: bool, env: Env)
    requires var l := Look(q, false, false, shouldQueryGlobal, env);
      l.hit.Some? && !LocalResult(l.hit.value, l.key).hasError
    ensures var l := Look(q, false, false, shouldQueryGlobal, env);
      && l.global.None?
      && Resolve(q, false, false, shouldQueryGlobal, env).reply == Result(LocalResult(l.hit.value, l.key), false)
      && BackendCalls(q, false, false, shouldQueryGlobal, env) == 0
  {
  }

  /** A forced call ignores both caches: its outcome does not depend on what
      the local or the global store holds. */
  lemma ForcedIgnoresCaches(q: Query, lazy: bool, shouldQueryGlobal: bool, env: Env,
                            local: map<string, Option<Envelope>>, global: Query -> Option<Envelope>)
    ensures Resolve(q, true, lazy, shouldQueryGlobal, env)
         == Resolve(q, true, lazy, shouldQueryGlobal, env.(local := local, globalStore := global))
  {
  }

  // ---- The bounded retry -------------------------------------------------

  /** One call reaches the backend at most once, and a poisoned local
      candidate (one whose result has an error) makes it do so exactly
      once, through the forced retry, whose reply becomes the reply. */
  lemma RetryIsBounded(q: Query, forced: bool, lazy: bool, shouldQueryGlobal: bool, env: Env)
    ensures BackendCalls(q, forced, lazy, shouldQueryGlobal, env) <= 1
    ensures var l := Look(q, forced, lazy, shouldQueryGlobal, env);
      l.source == FromLocal && LocalResult(l.hit.value, l.key).hasError ==>
        && BackendCalls(q, forced, lazy, shouldQueryGlobal, env) == 1
        && Resolve(q, forced, lazy, shouldQueryGlobal, env).reply == Resolve(q, true, false, true, env).reply
  {
  }

  /** `called_api` is true exactly when the backend was reached, and the
      call raises TrackEnqueueError exactly when the backend it reached
      raised RuntimeError. */
  lemma CalledApiMeansBackend(q: Query, forced: bool, lazy: bool, shouldQueryGlobal: bool, env: Env)
    ensures var res := Resolve(q, forced, lazy, shouldQueryGlobal, env);
      var key := LookupKey(q, env.preferLyrics);
      && (res.reply.Result? ==> (res.reply.calledApi <==> BackendCalls(q, forced, lazy, shouldQueryGlobal, env) == 1))
      && (res.reply.TrackEnqueueError? <==>
            BackendCalls(q, forced, lazy, shouldQueryGlobal, env) == 1 && env.backend(key).RuntimeErr?)
  {
  }

  // ---- The writes --------------------------------------------------------

  /** The writes of one call in the order they are appended: the update of
      a local candidate, then those of the forced retry, then the publish and
      insert of the final result (none when the call raises). */
  lemma WritesShape(q: Query, forced: bool, lazy: bool, shouldQueryGlobal: bool, env: Env)
    ensures var l := Look(q, forced, lazy, shouldQueryGlobal, env);
      var res := Resolve(q, forced, lazy, shouldQueryGlobal, env);
      var retried := l.source == FromLocal && LocalResult(l.hit.value, l.key).hasError;
      res.writes
        == (if l.hit.Some? then [UpdateWrite(l.key)] else [])
         + (if retried then Resolve(q, true, false, true, env).writes else [])
         + (if res.reply.Result? then PostWrites(q, l.key, res.reply.result, l.validGlobal, env) else [])
  {
  }

  /** The guard under which a write of each tag may appear:
      - update: keyed by the lookup key;
      - global: global read on, no valid global entry, an API key, not a
        local file, no error and at least one track;
      - insert: caching on, no error, not a local file, tracks, a
        serialisation with all four markers, one row whose last_updated
        equals its last_fetched. */
  ghost predicate Guarded(w: Write, q: Query, key: string, validGlobal: bool, env: Env)
  {
    match w.tag
    case Update => w.task == Pair(Lavalink, QueryKey(key))
    case Global =>
      && w.task.GlobalArgs? && w.task.query == q
      && PublishesGlobal(q, w.task.llresponse, validGlobal, env)
    case Insert =>
      exists r: LoadResult ::
        && CachesLocally(q, r, env)
        && w.task == Pair(Lavalink, Rows([Row(key, env.dumps(r), env.now, env.now)]))
  }

  ghost predicate AllGuarded(ws: seq<Write>, q: Query, key: string, validGlobal: bool, env: Env)
  {
    forall i | 0 <= i < |ws| :: Guarded(ws[i], q, key, validGlobal, env)
  }

  // Helper: guardedness of joined runs of writes, used by WritesAreGuarded.
  lemma AllGuardedConcat(a: seq<Write>, b: seq<Write>, q: Query, key: string, validGlobal: bool, env: Env)
    requires AllGuarded(a, q, key, validGlobal, env) && AllGuarded(b, q, key, validGlobal, env)
    ensures AllGuarded(a + b, q, key, validGlobal, env)
  {
  }

  lemma PostWritesGuarded(q: Query, key: string, r: LoadResult, validGlobal: bool, env: Env)
    ensures AllGuarded(PostWrites(q, key, r, validGlobal, env), q, key, validGlobal, env)
  {
  }

  /** Every write one call schedules, those of its retry included, meets
      the guard of its tag. */
  lemma {:induction false} WritesAreGuarded(q: Query, forced: bool, lazy: bool, shouldQueryGlobal: bool, env: Env)
    ensures var l := Look(q, forced, lazy, shouldQueryGlobal, env);
      AllGuarded(Resolve(q, forced, lazy, shouldQueryGlobal, env).writes, q, l.key, l.validGlobal, env)
    decreases if forced then 0 else 1
  {
    var l := Look(q, forced, lazy, shouldQueryGlobal, env);
    var res := Resolve(q, forced, lazy, shouldQueryGlobal, env);
    WritesShape(q, forced, lazy, shouldQueryGlobal, env);
    var pre := if l.hit.Some? then [UpdateWrite(l.key)] else [];
    var retried := l.source == FromLocal && LocalResult(l.hit.value, l.key).hasError;
    var extra := if retried then Resolve(q, true, false, true, env).writes else [];
    var post := if res.reply.Result? then PostWrites(q, l.key, res.reply.result, l.validGlobal, env) else [];
    assert AllGuarded(pre, q, l.key, l.validGlobal, env);
    if retried {
      WritesAreGuarded(q, true, false, true, env);
    }
    assert AllGuarded(extra, q, l.key, l.validGlobal, env);
    if res.reply.Result? {
      PostWritesGuarded(q, l.key, res.reply.result, l.validGlobal, env);
    }
    AllGuardedConcat(pre, extra, q, l.key, l.validGlobal, env);
    AllGuardedConcat(pre + extra, post, q, l.key, l.validGlobal, env);
  }

  // Helpers: no update write in a run, and its closure under joining, so the
  // proof of UpdateWriteOnLocalHit stays cheap.
  predicate NoUpdate(ws: seq<Write>)
  {
    forall i | 0 <= i < |ws| :: ws[i].tag != Update
  }

  lemma NoUpdateConcat(a: seq<Write>, b: seq<Write>)
    requires NoUpdate(a) && NoUpdate(b)
    ensures NoUpdate(a + b)
  {
    forall i | 0 <= i < |a + b| ensures (a + b)[i].tag != Update {
      if i >= |a| {
        assert (a + b)[i] == b[i - |a|];
      }
    }
  }

  /** An update write is scheduled exactly when there was a local candidate,
      and then it is the first write. */
  lemma {:induction false} UpdateWriteOnLocalHit(q: Query, forced: bool, lazy: bool, shouldQueryGlobal: bool, env: Env)
    ensures var l := Look(q, forced, lazy, shouldQueryGlobal, env);
      var ws := Resolve(q, forced, lazy, shouldQueryGlobal, env).writes;
      && ((exists i | 0 <= i < |ws| :: ws[i].tag == Update) <==> l.hit.Some?)
      && (l.hit.Some? ==> ws[0] == UpdateWrite(l.key))
    decreases if forced then 0 else 1
  {
    var l := Look(q, forced, lazy, shouldQueryGlobal, env);
    var res := Resolve(q, forced, lazy, shouldQueryGlobal, env);
    WritesShape(q, forced, lazy, shouldQueryGlobal, env);
    var retried := l.source == FromLocal && LocalResult(l.hit.value, l.key).hasError;
    var extra := if retried then Resolve(q, true, false, true, env).writes else [];
    if retried {
      // The retry is forced, so it has no local candidate and schedules no update.
      UpdateWriteOnLocalHit(q, true, false, true, env);
    }
    var post := if res.reply.Result? then PostWrites(q, l.key, res.reply.result, l.validGlobal, env) else [];
    var pre := if l.hit.Some? then [UpdateWrite(l.key)] else [];
    NoUpdateConcat(extra, post);
    assert res.writes == pre + (extra + post);
    if l.hit.Some? {
      assert res.writes[0] == UpdateWrite(l.key);
    } else {
      assert res.writes == extra + post;
    }
  }


  /** Conversely, a successful result that meets a guard is written: it is
      published when PublishesGlobal holds and cached when CachesLocally
      holds. */
  lemma GuardedResultsAreWritten(q: Query, forced: bool, lazy: bool, shouldQueryGlobal: bool, env: Env)
    requires Resolve(q, forced, lazy, shouldQueryGlobal, env).reply.Result?
    ensures var l := Look(q, forced, lazy, shouldQueryGlobal, env);
      var res := Resolve(q, forced, lazy, shouldQueryGlobal, env);
      var r := res.reply.result;
      && (PublishesGlobal(q, r, l.validGlobal, env) ==> Write(Global, GlobalArgs(r, q)) in res.writes)
      && (CachesLocally(q, r, env) ==> InsertWrite(l.key, env.dumps(r), env.now) in res.writes)
  {
    WritesShape(q, forced, lazy, shouldQueryGlobal, env);
  }

  /** A poisoned local candidate whose retry succeeds schedules the result's
      insert twice: once inside the retry and once more after it returns. */
  lemma RetryWritesTwice(q: Query, shouldQueryGlobal: bool, env: Env)
    requires var l := Look(q, false, false, shouldQueryGlobal, env);
      l.hit.Some? && LocalResult(l.hit.value, l.key).hasError
    requires var key := LookupKey(q, env.preferLyrics);
      env.backend(key).Ok? && CachesLocally(q, env.backend(key).result, env)
    ensures var key := LookupKey(q, env.preferLyrics);
      var ins := InsertWrite(key, env.dumps(env.backend(key).result), env.now);
      var ws := Resolve(q, false, false, shouldQueryGlobal, env).writes;
      |ws| > 1 && ws[|ws| - 1] == ins && ins in ws[..|ws| - 1]
  {
    var key := LookupKey(q, env.preferLyrics);
    var r := env.backend(key).result;
    var ins := InsertWrite(key, env.dumps(r), env.now);
    var retry := Resolve(q, true, false, true, env);
    var ws := Resolve(q, false, false, shouldQueryGlobal, env).writes;
    var g := if PublishesGlobal(q, r, false, env) then [Write(Global, GlobalArgs(r, q))] else [];
    assert retry.writes == g + [ins];
    assert ws == [UpdateWrite(key)] + retry.writes + (g + [ins]);
    assert ws[..|ws| - 1][|g| + 1] == ins;
  }
}
