/** The autoplay selector: the random pick from the local cache, the bounded
    selection loop over the candidate tracks, and what happens once a track
    is accepted. The fallback order of candidate sources is in
    Interface.AudioAPIInterface.Autoplay, which also needs fetch_track. */
module Autoplay {
  import opened Types

  /** get_random_track_from_db. `row` is what `fetch_random` returned for
      the freshness window (None when it found nothing or raised). The
      stored V2_COMPACT tag is rewritten before the row is interpreted, so
      every row with a track yields one of its tracks, picked at random. */
  method GetRandomTrackFromDb(row: Option<Envelope>) returns (track: Option<Track>)
    ensures track.Some? <==> row.Some? && |row.value.tracks| > 0
    ensures track.Some? ==> track.value in row.value.tracks
  {
    if row.None? {
      return None;
    }
    // Once the tag is normalised the payload always interprets, so the
    // exception handler around LoadResult is never reached on this path.
    NormalizedInterprets(row.value);
    var results := Interpret(Normalize(row.value)).value;
    var tracks := results.tracks;
    if |tracks| == 0 {
      // random.choice raised IndexError; swallowed likewise.
      return None;
    }
    var i :| 0 <= i < |tracks|;
    track := Some(tracks[i]);
  }

  /** The collaborators the selection loop consults for a pick:
      `Query.process_input` of the track, whether a local path exists, and
      the allow-list policy `is_query_allowed`. */
  datatype Checks = Checks(queryOf: Track -> Query, pathExists: string -> bool, allowed: Track -> bool)

  predicate MissingLocalFile(q: Query, pathExists: string -> bool)
  {
    q.isLocal && q.localTrackPath.Some? && !pathExists(q.localTrackPath.value)
  }

  /** A pick reaches the allow-list check when its query is valid and it
      names no missing local file. */
  predicate Screened(t: Track, c: Checks)
  {
    var q := c.queryOf(t);
    q.valid && !MissingLocalFile(q, c.pathExists)
  }

  /** A pick is kept when it passes the screening and the policy allows it. */
  predicate Acceptable(t: Track, c: Checks)
  {
    Screened(t, c) && c.allowed(t)
  }

  /** The picks that pass the screening, in the order they were made: the
      ones whose allow-list check is consulted. */
  function Consulted(picks: seq<Track>, c: Checks): (r: seq<Track>)
    ensures |r| <= |picks|
    decreases |picks|
  {
    if picks == [] then []
    else
      var last := picks[|picks| - 1];
      Consulted(picks[..|picks| - 1], c) + (if Screened(last, c) then [last] else [])
  }

  /** A new pick is consulted after the earlier ones exactly when it passes
      the screening. */
  lemma ConsultedStep(picks: seq<Track>, t: Track, c: Checks)
    ensures Consulted(picks + [t], c) == Consulted(picks, c) + (if Screened(t, c) then [t] else [])
  {
    assert (picks + [t])[..|picks|] == picks;
  }

  /** A track is consulted exactly when it was picked and passes the
      screening. */
  lemma {:induction false} ConsultedExactly(picks: seq<Track>, c: Checks, t: Track)
    ensures t in Consulted(picks, c) <==> t in picks && Screened(t, c)
    decreases |picks|
  {
    if picks != [] {
      var init, last := picks[..|picks| - 1], picks[|picks| - 1];
      ConsultedExactly(init, c, t);
      assert picks == init + [last];
    }
  }

  /** Every pick is consulted exactly when it passes the screening. */
  lemma ScreenedPicksConsulted(picks: seq<Track>, c: Checks)
    ensures forall i | 0 <= i < |picks| :: picks[i] in Consulted(picks, c) <==> Screened(picks[i], c)
  {
    forall i | 0 <= i < |picks| ensures picks[i] in Consulted(picks, c) <==> Screened(picks[i], c) {
      ConsultedExactly(picks, c, picks[i]);
    }
  }

  /** The loop's outcome: no candidates, an accepted track, or
      `DatabaseError("No valid entry found")`. */
  datatype Selection = NoCandidates | Accepted(track: Track) | Exhausted

  /** The selection loop. `picks` are the random choices made, in order;
      `consulted` the picks that reached the allow-list check. Among several
      candidates the loop stops at the first acceptable pick. */
  method SelectTrack(tracks: seq<Track>, c: Checks) returns (sel: Selection, picks: seq<Track>, consulted: seq<Track>)
    ensures |tracks| == 0 <==> sel == NoCandidates
    ensures |tracks| == 1 ==> sel == Accepted(tracks[0]) && picks == [] && consulted == []
    ensures |tracks| > 1 ==> |picks| <= |tracks| - 1
    ensures forall i | 0 <= i < |picks| :: picks[i] in tracks
    ensures consulted == Consulted(picks, c)
    ensures forall i | 0 <= i < |picks| :: picks[i] in consulted <==> Screened(picks[i], c)
    ensures |tracks| > 1 && sel.Accepted? ==>
      && |picks| > 0 && sel.track == picks[|picks| - 1] && Acceptable(sel.track, c)
      && forall i | 0 <= i < |picks| - 1 :: !Acceptable(picks[i], c)
    ensures sel == Exhausted ==>
      |tracks| > 1 && |picks| == |tracks| - 1 && forall i | 0 <= i < |picks| :: !Acceptable(picks[i], c)
    ensures |tracks| > 1 && (forall i | 0 <= i < |tracks| :: !Acceptable(tracks[i], c)) ==> sel == Exhausted
  {
    picks, consulted := [], [];
    if |tracks| == 0 {
      return NoCandidates, picks, consulted;
    }
    var multiple := |tracks| > 1;
    var valid := !multiple;
    var tries := |tracks|;
    var track := tracks[0];
    while !valid && multiple
      invariant 1 <= tries <= |tracks|
      invariant |picks| == |tracks| - tries
      invariant forall i | 0 <= i < |picks| :: picks[i] in tracks
      invariant consulted == Consulted(picks, c)
      invariant !multiple ==> valid && track == tracks[0] && picks == [] && consulted == []
      invariant multiple && valid ==> |picks| > 0 && track == picks[|picks| - 1] && Acceptable(track, c)
      invariant multiple && valid ==> forall i | 0 <= i < |picks| - 1 :: !Acceptable(picks[i], c)
      invariant !valid ==> forall i | 0 <= i < |picks| :: !Acceptable(picks[i], c)
      decreases tries
    {
      tries := tries - 1;
      if tries <= 0 {
        ScreenedPicksConsulted(picks, c);
        return Exhausted, picks, consulted;
      }
      var i :| 0 <= i < |tracks|;
      track := tracks[i];
      ConsultedStep(picks, track, c);
      picks := picks + [track];
      var query := c.queryOf(track);
      if !query.valid || MissingLocalFile(query, c.pathExists) {
        continue;
      }
      consulted := consulted + [track];
      if !c.allowed(track) {
        continue;
      }
      valid := true;
    }
    ScreenedPicksConsulted(picks, c);
    sel := Accepted(track);
  }

  /** The player as autoplay sees it. `notifyChannelId` is the stored
      notify channel, if any; `idle` is true when nothing is playing. */
  datatype PlayerView = PlayerView(
    guildId: int,
    botId: int,
    voiceChannelId: int,
    notifyChannelId: Option<int>,
    idle: bool,
    now: int)

  /** The side effects of accepting a track, recorded in order. */
  datatype Event =
    | Annotated(track: Track, autoplay: bool, enqueueTime: int, vc: int, requester: int)
    | Added(requester: int, track: Track)
    | Dispatched(name: string, track: Track, requester: int)
    | AutoPlayingIn(channels: seq<int>)
    | Played

  /** Lines 401-426: stamp the extras, enqueue as the bot, dispatch the
      event, record where autoplay runs, and start playback if idle. */
  function AfterAcceptance(t: Track, p: PlayerView): (events: seq<Event>)
    ensures |events| == (if p.idle then 5 else 4)
    ensures events[0] == Annotated(t, true, p.now, p.voiceChannelId, p.botId)
    ensures events[1] == Added(p.botId, t)
    ensures events[2] == Dispatched("red_audio_track_auto_play", t, p.botId)
    ensures Played in events <==> p.idle
    ensures p.idle ==> events[4] == Played
    ensures events[3] == AutoPlayingIn(
      if p.notifyChannelId.Some? && p.notifyChannelId.value != 0 then [p.notifyChannelId.value, p.voiceChannelId] else [])
  {
    var channels := if p.notifyChannelId.Some? && p.notifyChannelId.value != 0
                    then [p.notifyChannelId.value, p.voiceChannelId] else [];
    [ Annotated(t, true, p.now, p.voiceChannelId, p.botId),
      Added(p.botId, t),
      Dispatched("red_audio_track_auto_play", t, p.botId),
      AutoPlayingIn(channels) ]
    + (if p.idle then [Played] else [])
  }

  /** Where autoplay looks for candidates, before fetch_track: the
      configured playlist (None when fetching it raised) and the random row
      of the local cache, and `Query.process_input`, which turns the Top 100
      playlist's address into the query handed to fetch_track. */
  datatype AutoplaySource = AutoplaySource(
    enabled: bool,
    playlist: Option<seq<Track>>,
    randomRow: Option<Envelope>,
    processInput: string -> Query)

  /** The fallback playlist: YouTube's Top 100 songs in the US. */
  const Top100Us: string := "https://www.youtube.com/playlist?list=PL4fGSI1pDJn5rWitrRWFKdm-ulaFiIyoK"

  predicate UsesPlaylist(s: AutoplaySource)
  {
    s.enabled && s.playlist.Some? && |s.playlist.value| > 0
  }

  predicate UsesRandomRow(s: AutoplaySource, cacheEnabled: bool)
  {
    !UsesPlaylist(s) && cacheEnabled && s.randomRow.Some? && |s.randomRow.value.tracks| > 0
  }

  /** The outcome of one autoplay call. */
  datatype AutoplayOutcome =
    | NothingQueued
    | Queued(track: Track, events: seq<Event>)
    | DatabaseError
    | EnqueueFailed

  /** What the autoplay tail promises for a candidate list: nothing without
      candidates, the only candidate without any check, an acceptable
      candidate or DatabaseError among several, and the acceptance effects
      for whatever is queued. */
  predicate Settles(o: AutoplayOutcome, tracks: seq<Track>, c: Checks, p: PlayerView)
  {
    && !o.EnqueueFailed?
    && (|tracks| == 0 <==> o == NothingQueued)
    && (|tracks| == 1 ==> o == Queued(tracks[0], AfterAcceptance(tracks[0], p)))
    && (o.Queued? ==> o.track in tracks && o.events == AfterAcceptance(o.track, p))
    && (|tracks| > 1 && o.Queued? ==> Acceptable(o.track, c))
    && (o == DatabaseError ==> |tracks| > 1)
    && (|tracks| > 1 && (forall i | 0 <= i < |tracks| :: !Acceptable(tracks[i], c)) ==> o == DatabaseError)
  }

  /** Lines 370-426 once a candidate list is known: select, then apply the
      acceptance effects. */
  method QueueFrom(tracks: seq<Track>, c: Checks, p: PlayerView) returns (o: AutoplayOutcome)
    ensures Settles(o, tracks, c, p)
  {
    var sel, picks, consulted := SelectTrack(tracks, c);
    match sel
    case NoCandidates => o := NothingQueued;
    case Exhausted => o := DatabaseError;
    case Accepted(t) => o := Queued(t, AfterAcceptance(t, p));
  }
}
