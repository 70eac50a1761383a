/** Values shared by the audio query-resolution core: queries, tracks, load
    results as stored and as interpreted, deferred write tasks and the store
    calls they turn into. */
module Types {

  datatype Option<+T> = None | Some(value: T)

  /** A Lavalink track, reduced to the fields the core reads. */
  datatype Track = Track(title: string, author: string, uri: string)

  /** A processed query: its text (`str(query)`) and the flags derived from it.
      Query.process_input is not part of this model; a Query value stands for
      its result. */
  datatype Query = Query(
    text: string,
    isLocal: bool,
    isYoutube: bool,
    isSearch: bool,
    valid: bool,
    localTrackPath: Option<string>)

  /** The members of Lavalink's LoadType enumeration. */
  datatype LoadType = TrackLoaded | PlaylistLoaded | SearchResult | V2Compat | NoMatches | LoadFailed

  /** The `loadType` tag of a stored or fetched payload: a LoadType member, or
      the legacy spelling "V2_COMPACT". The model treats the legacy spelling
      as one `LoadResult` cannot interpret, which is why every read path
      rewrites it first. */
  datatype StoredType = Tagged(loadType: LoadType) | V2Compact

  /** A payload as read from a store or returned by the backend (the dict
      behind a LoadResult). `query` is the "query" key the resolver adds to a
      local hit before interpreting it. */
  datatype Envelope = Envelope(tag: StoredType, tracks: seq<Track>, hasError: bool, query: Option<string>)

  /** A LoadResult: a payload whose tag names a LoadType member. */
  type LoadResult = e: Envelope | e.tag.Tagged? witness Envelope(Tagged(LoadFailed), [], true, None)

  function LoadTypeOf(r: LoadResult): LoadType
  {
    r.tag.loadType
  }

  /** The result synthesised when no tier produced one. */
  const FailedResult: LoadResult := Envelope(Tagged(LoadFailed), [], true, None)

  /** Rewrites the legacy tag V2_COMPACT to V2_COMPAT; every other payload is
      left as it is. */
  function Normalize(e: Envelope): (r: LoadResult)
    ensures e.tag.V2Compact? ==> LoadTypeOf(r) == V2Compat
    ensures e.tag.Tagged? ==> r == e
    ensures r.tracks == e.tracks && r.hasError == e.hasError && r.query == e.query
  {
    if e.tag.V2Compact? then e.(tag := Tagged(V2Compat)) else e
  }

  /** `LoadResult(data)`: interpreting a payload fails when its tag is not a
      LoadType member. */
  function Interpret(e: Envelope): (r: Option<LoadResult>)
    ensures r.Some? <==> e.tag.Tagged?
    ensures r.Some? ==> r.value == e
  {
    if e.tag.Tagged? then Some(e) else None
  }

  /** Normalising first makes every payload interpretable, and the interpreted
      type is V2_COMPAT exactly when the stored tag was V2_COMPACT or V2_COMPAT. */
  lemma NormalizedInterprets(e: Envelope)
    ensures Interpret(Normalize(e)).Some?
    ensures LoadTypeOf(Interpret(Normalize(e)).value) == V2Compat <==> (e.tag == V2Compact || e.tag == Tagged(V2Compat))
    ensures Normalize(Normalize(e)) == Normalize(e)
  {
  }

  /** A row of the local `lavalink` table as written by an insert task. */
  datatype Row = Row(query: string, data: string, lastUpdated: int, lastFetched: int)

  /** The second half of a `(table, payload)` task: a list of rows to insert,
      or the `{"query": key}` mapping of an update. */
  datatype Payload = Rows(rows: seq<Row>) | QueryKey(key: string)

  /** A deferred write: a `(table, payload)` pair, or the keyword arguments
      `llresponse` and `query` of a global publish. */
  datatype Task = Pair(table: string, payload: Payload) | GlobalArgs(llresponse: LoadResult, query: Query)

  /** A call issued to a store when tasks are routed. */
  datatype Call =
    | InsertCall(payload: Payload)                          // local_cache_api.lavalink.insert
    | UpdateCall(keys: seq<Task>)                           // local_cache_api.lavalink.update
    | UpdateGlobalCall(llresponse: LoadResult, query: Query) // global_cache_api.update_global

  const Lavalink: string := "lavalink"

  /** The three task groups of a batch, in the order their keys are created. */
  datatype Tag = Update | Insert | Global

  function TagName(t: Tag): (s: string)
    ensures |s| > 0
  {
    match t
    case Update => "update"
    case Insert => "insert"
    case Global => "global"
  }

  /** The group an event name selects; any other name is a missing key. */
  function TagOf(event: string): (t: Option<Tag>)
    ensures t.Some? ==> TagName(t.value) == event
    ensures forall u: Tag :: TagName(u) == event ==> t == Some(u)
  {
    if event == "update" then Some(Update)
    else if event == "insert" then Some(Insert)
    else if event == "global" then Some(Global)
    else None
  }

  /** A task to append under a group. */
  datatype Write = Write(tag: Tag, task: Task)

  /** `substr in s` on Python strings. */
  predicate Contains(s: string, substr: string)
    decreases |s|
  {
    if |substr| <= |s| && s[..|substr|] == substr then true
    else if s == [] then false
    else Contains(s[1..], substr)
  }

  /** The four keys a serialised payload must mention before it is cached. */
  predicate HasMarkers(data: string)
  {
    && Contains(data, "loadType")
    && Contains(data, "playlistInfo")
    && Contains(data, "isSeekable")
    && Contains(data, "isStream")
  }

  /** `substr` occurs in `s` at offset `i`. */
  predicate OccursAt(s: string, substr: string, i: nat)
  {
    i + |substr| <= |s| && s[i..i + |substr|] == substr
  }

  /** An occurrence at some offset makes `Contains` hold. */
  lemma {:induction false} ContainsAt(s: string, substr: string, i: nat)
    requires OccursAt(s, substr, i)
    ensures Contains(s, substr)
    decreases i
  {
    if i > 0 && !(|substr| <= |s| && s[..|substr|] == substr) {
      assert s[1..][i - 1..i - 1 + |substr|] == s[i..i + |substr|];
      ContainsAt(s[1..], substr, i - 1);
    }
  }

  /** `Contains` holds only where there is an occurrence at some offset. */
  lemma {:induction false} ContainsOccurs(s: string, substr: string)
    requires Contains(s, substr)
    ensures exists i: nat :: OccursAt(s, substr, i)
    decreases |s|
  {
    if |substr| <= |s| && s[..|substr|] == substr {
      assert OccursAt(s, substr, 0);
    } else {
      ContainsOccurs(s[1..], substr);
      var j: nat :| OccursAt(s[1..], substr, j);
      assert s[1..][j..j + |substr|] == s[j + 1..j + 1 + |substr|];
      assert OccursAt(s, substr, j + 1);
    }
  }
}
