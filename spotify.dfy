/**
 * The playlist synchroniser (src/spotify.ts): a `SpotifyHandler` that, once a
 * minute, re-scrapes the chart, rewrites the playlist when the chart changed,
 * and refreshes the playlist description.
 *
 * Everything remote is an input of one tick, a `World`: the clock readings, the
 * page rows (or a failed fetch), a search oracle from a query to the URIs it
 * finds (or a failed request), and whether the two playlist writes are rejected.
 * The remote calls the handler makes are appended to a log, `calls`. The
 * pending `setTimeout` is the flag `armed`.
 *
 * Each method of the class is proved to move the handler's state exactly as a
 * pure step function on `State` does; the properties are proved about those.
 */
module Spotify {
  import opened Wrappers
  import opened Strings
  import opened Scrapper

  const MsPerMinute := 60 * 1000

  /** Why a tick was aborted: the error `loop` catches and stores. */
  datatype Failure =
    | ChartFetchFailed
    | SearchFailed(query: string)
    | ReplaceFailed(playlist: string)
    | DetailsFailed(playlist: string)

  /** A remote call the handler issued (logged whether or not it then failed). */
  datatype Call =
    | FetchChart
    | SearchTracks(query: string)
    | ReplaceTracks(playlist: string, uris: seq<string>)
    | ChangeDetails(playlist: string, description: string)

  /** What the outside world answers during one tick. */
  datatype World = World(
    syncClock: int,                          // `new Date()` in songsLoopWrapper, in ms
    describeClock: int,                      // `new Date()` in descriptionLoopWrapper, in ms
    chart: Option<seq<Row>>,                 // the page's rows; None when the fetch fails
    search: string -> Option<seq<string>>,   // track URIs per query; None when the request fails
    replaceFails: bool,                      // replaceTracksInPlaylist is rejected
    detailsFails: bool)                      // changePlaylistDetails is rejected

  /** The handler's fields, as a value. `lastSongs` stands for the JSON fingerprint. */
  datatype State = State(
    playlistId: Option<string>,
    updateInterval: int,
    lastUpdate: Option<int>,
    lastError: Option<Failure>,
    lastSongs: Option<seq<Song>>,
    iteration: int,
    armed: bool,
    accessToken: Option<string>,
    calls: seq<Call>)

  /** A state after an async step, and the error it threw, if any. */
  datatype Step = Step(state: State, err: Option<Failure>)

  /** The counter stays in 1..updateInterval. */
  predicate ValidState(s: State)
  {
    s.updateInterval >= 1 && 1 <= s.iteration <= s.updateInterval
  }

  /** The state the constructor leaves: the counter starts at `updateInterval`. */
  function Initial(updateInterval: int, playlistId: Option<string>): (s: State)
    requires updateInterval >= 1
    ensures ValidState(s) && s.iteration % s.updateInterval == 0
    ensures s.updateInterval == updateInterval && s.iteration == updateInterval && s.accessToken.None?
    ensures s.playlistId == playlistId && s.calls == [] && !s.armed
    ensures s.lastUpdate.None? && s.lastSongs.None? && s.lastError.None?
  {
    State(playlistId, updateInterval, None, None, None, updateInterval, false, None, [])
  }

  // ---------------------------------------------------------------------------
  // Track resolution (updatePlaylist's loop)

  /** The search query for a song. */
  function Query(song: Song): (q: string)
    ensures |q| == |song.title| + 1 + |song.artists|
  {
    song.title + " " + song.artists
  }

  /** The query is the title, one space, then the artists, so it determines both once the title is known. */
  lemma QueryParts(song: Song)
    ensures var q := Query(song);
            q[..|song.title|] == song.title && q[|song.title|] == ' ' && q[|song.title| + 1..] == song.artists
  {
  }

  predicate Answered(song: Song, search: string -> Option<seq<string>>)
  {
    search(Query(song)).Some?
  }

  function Hits(song: Song, search: string -> Option<seq<string>>): seq<string>
    requires Answered(song, search)
  {
    search(Query(song)).value
  }

  /** `searchResults[0].uri` when there is one, nothing otherwise. */
  function FirstHit(hits: seq<string>): (r: seq<string>)
    ensures |r| <= 1
    ensures r == [] <==> hits == []
    ensures r != [] ==> r[0] == hits[0]
  {
    if |hits| > 0 then [hits[0]] else []
  }

  function Queries(songs: seq<Song>): (qs: seq<string>)
    ensures |qs| == |songs|
    ensures forall k :: 0 <= k < |songs| ==> qs[k] == Query(songs[k])
  {
    if songs == [] then [] else Queries(songs[..|songs| - 1]) + [Query(songs[|songs| - 1])]
  }

  function SearchCalls(qs: seq<string>): (cs: seq<Call>)
    ensures |cs| == |qs|
  {
    if qs == [] then [] else SearchCalls(qs[..|qs| - 1]) + [SearchTracks(qs[|qs| - 1])]
  }

  /** The queries `updatePlaylist` sends, and the URIs it collects or the error that stopped it. */
  datatype Resolution = Resolution(queries: seq<string>, outcome: Result<seq<string>, Failure>)

  /**
   * The loop of `updatePlaylist` over a batch of songs: one search per song in
   * order, the first hit of each kept. A failed request stops the batch right
   * there, with that query as the last one sent.
   */
  function Resolve(songs: seq<Song>, search: string -> Option<seq<string>>): (r: Resolution)
    ensures |r.queries| <= |songs|
    ensures r.outcome.Ok? ==> |r.queries| == |songs| && |r.outcome.value| <= |songs|
    decreases |songs|
  {
    if songs == [] then Resolution([], Ok([]))
    else
      var prev := Resolve(songs[..|songs| - 1], search);
      if prev.outcome.Err? then prev
      else
        var q := Query(songs[|songs| - 1]);
        match search(q)
        case None => Resolution(prev.queries + [q], Err(SearchFailed(q)))
        case Some(hits) => Resolution(prev.queries + [q], Ok(prev.outcome.value + FirstHit(hits)))
  }

  /**
   * The batch succeeds exactly when every search answers, and then every song
   * was searched, in order. Otherwise it failed on the first song whose search
   * did not answer, with that song's query as the last one sent.
   */
  lemma {:induction false} ResolveOutcome(songs: seq<Song>, search: string -> Option<seq<string>>)
    ensures var r := Resolve(songs, search);
            r.outcome.Ok? <==> forall i :: 0 <= i < |songs| ==> Answered(songs[i], search)
    ensures var r := Resolve(songs, search);
            r.outcome.Ok? ==> r.queries == Queries(songs)
    ensures var r := Resolve(songs, search);
            r.outcome.Err? ==>
              1 <= |r.queries| && r.queries == Queries(songs[..|r.queries|]) &&
              (forall i :: 0 <= i < |r.queries| - 1 ==> Answered(songs[i], search)) &&
              !Answered(songs[|r.queries| - 1], search) &&
              r.outcome.error == SearchFailed(Query(songs[|r.queries| - 1]))
    decreases |songs|
  {
    if songs != [] {
      var init := songs[..|songs| - 1];
      ResolveOutcome(init, search);
      var prev := Resolve(init, search);
      PrefixOfPrefix(songs, |prev.queries|);
      if prev.outcome.Ok? {
        assert songs[..|songs|] == songs;
        if !Answered(songs[|songs| - 1], search) {
          assert Resolve(songs, search).queries == Queries(songs);
        }
      }
    }
  }

  lemma PrefixOfPrefix<T>(s: seq<T>, k: nat)
    requires |s| >= 1 && k <= |s| - 1
    ensures s[..|s| - 1][..k] == s[..k]
    ensures forall i :: 0 <= i < |s| - 1 ==> s[..|s| - 1][i] == s[i]
  {
  }

  /** One more answered song of the batch, as the loop of `updatePlaylist` sees it. */
  lemma ResolveNext(songs: seq<Song>, i: nat, search: string -> Option<seq<string>>, hits: seq<string>)
    requires i < |songs| && Resolve(songs[..i], search).outcome.Ok?
    requires search(Query(songs[i])) == Some(hits)
    ensures Queries(songs[..i + 1]) == Queries(songs[..i]) + [Query(songs[i])]
    ensures Resolve(songs[..i + 1], search) ==
              Resolution(Resolve(songs[..i], search).queries + [Query(songs[i])],
                         Ok(Resolve(songs[..i], search).outcome.value + FirstHit(hits)))
  {
    assert songs[..i + 1][..i] == songs[..i];
    assert songs[..i + 1][i] == songs[i];
  }

  /** A failed search ends the batch with that query as the last one sent. */
  lemma ResolveFails(songs: seq<Song>, i: nat, search: string -> Option<seq<string>>)
    requires i < |songs| && Resolve(songs[..i], search).outcome.Ok?
    requires search(Query(songs[i])).None?
    ensures Resolve(songs, search) ==
              Resolution(Resolve(songs[..i], search).queries + [Query(songs[i])], Err(SearchFailed(Query(songs[i]))))
  {
    assert songs[..i + 1][..i] == songs[..i];
    assert songs[..i + 1][i] == songs[i];
    ResolveStopsAtFailure(songs, i + 1, search);
  }

  lemma SearchCallsNext(qs: seq<string>, q: string)
    ensures SearchCalls(qs + [q]) == SearchCalls(qs) + [SearchTracks(q)]
  {
    assert (qs + [q])[..|qs|] == qs;
  }

  /** Once a search has failed, the later songs are never searched. */
  lemma {:induction false} ResolveStopsAtFailure(songs: seq<Song>, i: nat, search: string -> Option<seq<string>>)
    requires i <= |songs| && Resolve(songs[..i], search).outcome.Err?
    ensures Resolve(songs, search) == Resolve(songs[..i], search)
    decreases |songs| - i
  {
    if i == |songs| {
      assert songs[..i] == songs;
    } else {
      var init := songs[..|songs| - 1];
      PrefixOfPrefix(songs, i);
      ResolveStopsAtFailure(init, i, search);
    }
  }

  /** The positions of the songs whose search found at least one track, in increasing order. */
  function HitIndices(songs: seq<Song>, search: string -> Option<seq<string>>): (idx: seq<nat>)
    requires forall i :: 0 <= i < |songs| ==> Answered(songs[i], search)
    ensures forall k :: 0 <= k < |idx| ==> idx[k] < |songs|
    ensures forall k, l :: 0 <= k < l < |idx| ==> idx[k] < idx[l]
    decreases |songs|
  {
    if songs == [] then []
    else
      PrefixOfPrefix(songs, 0);
      HitIndices(songs[..|songs| - 1], search) +
        (if |Hits(songs[|songs| - 1], search)| > 0 then [|songs| - 1] else [])
  }

  /** A position is listed exactly when its song has a hit. */
  lemma {:induction false} HitIndicesExact(songs: seq<Song>, search: string -> Option<seq<string>>)
    requires forall i :: 0 <= i < |songs| ==> Answered(songs[i], search)
    ensures forall i :: 0 <= i < |songs| ==> (i in HitIndices(songs, search) <==> |Hits(songs[i], search)| > 0)
    decreases |songs|
  {
    if songs != [] {
      var init := songs[..|songs| - 1];
      PrefixOfPrefix(songs, 0);
      HitIndicesExact(init, search);
    }
  }

  /** The k-th URI is the first hit of the song at the k-th listed position. */
  lemma {:induction false} ResolvedTracksAt(songs: seq<Song>, search: string -> Option<seq<string>>)
    requires forall i :: 0 <= i < |songs| ==> Answered(songs[i], search)
    ensures Resolve(songs, search).outcome.Ok?
    ensures var uris := Resolve(songs, search).outcome.value;
            var idx := HitIndices(songs, search);
            |idx| == |uris| &&
            forall k :: 0 <= k < |idx| ==> |Hits(songs[idx[k]], search)| > 0 && uris[k] == Hits(songs[idx[k]], search)[0]
    decreases |songs|
  {
    if songs != [] {
      var init := songs[..|songs| - 1];
      PrefixOfPrefix(songs, 0);
      ResolvedTracksAt(init, search);
      var idx, idx' := HitIndices(songs, search), HitIndices(init, search);
      assert idx[..|idx'|] == idx';
    }
  }

  /**
   * When every search answers, the URIs are exactly the first hits of the songs
   * that have one, in song order: songs without a hit are skipped, none is
   * taken twice, and none is reordered.
   */
  lemma ResolvedTracks(songs: seq<Song>, search: string -> Option<seq<string>>)
    requires forall i :: 0 <= i < |songs| ==> Answered(songs[i], search)
    ensures Resolve(songs, search).outcome.Ok?
    ensures var uris := Resolve(songs, search).outcome.value;
            var idx := HitIndices(songs, search);
            |idx| == |uris| &&
            (forall k :: 0 <= k < |idx| ==>
               idx[k] < |songs| && |Hits(songs[idx[k]], search)| > 0 && uris[k] == Hits(songs[idx[k]], search)[0]) &&
            (forall k, l :: 0 <= k < l < |idx| ==> idx[k] < idx[l]) &&
            (forall i :: 0 <= i < |songs| ==> (i in idx <==> |Hits(songs[i], search)| > 0))
  {
    ResolvedTracksAt(songs, search);
    HitIndicesExact(songs, search);
  }

  // ---------------------------------------------------------------------------
  // The async steps of one tick

  /** `updatePlaylist`: resolve every song, then overwrite the playlist with the result. */
  function UpdatePlaylistStep(s: State, songs: seq<Song>, w: World): (r: Step)
    ensures r.state == s.(calls := r.state.calls) && s.calls <= r.state.calls
    ensures !Truthy(s.playlistId) ==> r == Step(s, None)
    ensures Truthy(s.playlistId) && Resolve(songs, w.search).outcome.Ok? ==>
              r.state.calls == s.calls + SearchCalls(Queries(songs)) +
                [ReplaceTracks(s.playlistId.value, Resolve(songs, w.search).outcome.value)] &&
              (r.err.Some? <==> w.replaceFails)
    ensures Truthy(s.playlistId) && Resolve(songs, w.search).outcome.Err? ==>
              r.err == Some(Resolve(songs, w.search).outcome.error) &&
              r.state.calls == s.calls + SearchCalls(Resolve(songs, w.search).queries)
  {
    if !Truthy(s.playlistId) then Step(s, None)
    else
      ResolveOutcome(songs, w.search);
      var res := Resolve(songs, w.search);
      var searched := s.(calls := s.calls + SearchCalls(res.queries));
      match res.outcome
      case Err(e) => Step(searched, Some(e))
      case Ok(uris) =>
        var pid := s.playlistId.value;
        Step(searched.(calls := searched.calls + [ReplaceTracks(pid, uris)]),
             if w.replaceFails then Some(ReplaceFailed(pid)) else None)
  }

  /** The effect of `updatePlaylist` with a playlist set, in one formula. */
  lemma UpdatePlaylistEffect(s: State, songs: seq<Song>, w: World)
    ensures !Truthy(s.playlistId) ==> UpdatePlaylistStep(s, songs, w) == Step(s, None)
    ensures Truthy(s.playlistId) ==>
            var res := Resolve(songs, w.search);
            var pid := s.playlistId.value;
            var r := UpdatePlaylistStep(s, songs, w);
            r.state == s.(calls := s.calls + SearchCalls(res.queries) +
                            if res.outcome.Ok? then [ReplaceTracks(pid, res.outcome.value)] else []) &&
            r.err == if res.outcome.Err? then Some(res.outcome.error)
                     else if w.replaceFails then Some(ReplaceFailed(pid)) else None
  {
  }

  /**
   * `songsLoopWrapper`: stamp the time, scrape, and rewrite the playlist only
   * when the chart differs from the cached one; the cache follows only a
   * successful rewrite.
   */
  function SongsStep(s: State, w: World): (r: Step)
    ensures r.state == s.(lastUpdate := r.state.lastUpdate, lastSongs := r.state.lastSongs, calls := r.state.calls)
    ensures r.state.lastUpdate == Some(w.syncClock)
    ensures |r.state.calls| > |s.calls| && r.state.calls[..|s.calls| + 1] == s.calls + [FetchChart]
    ensures w.chart.None? ==> r == Step(s.(lastUpdate := Some(w.syncClock), calls := s.calls + [FetchChart]), Some(ChartFetchFailed))
    ensures r.err.Some? ==> r.state.lastSongs == s.lastSongs
    ensures r.err.None? ==> w.chart.Some? && r.state.lastSongs == Some(Chart(w.chart.value))
    ensures w.chart.Some? && s.lastSongs == Some(Chart(w.chart.value)) ==>
              r == Step(s.(lastUpdate := Some(w.syncClock), calls := s.calls + [FetchChart]), None)
    ensures w.chart.Some? && s.lastSongs != Some(Chart(w.chart.value)) ==>
              var u := UpdatePlaylistStep(s.(lastUpdate := Some(w.syncClock), calls := s.calls + [FetchChart]), Chart(w.chart.value), w);
              r.err == u.err && r.state.calls == u.state.calls &&
              r.state.lastSongs == (if u.err.Some? then s.lastSongs else Some(Chart(w.chart.value)))
  {
    var stamped := s.(lastUpdate := Some(w.syncClock), calls := s.calls + [FetchChart]);
    match w.chart
    case None => Step(stamped, Some(ChartFetchFailed))
    case Some(rows) =>
      var current := Chart(rows);
      if stamped.lastSongs == Some(current) then Step(stamped, None)
      else
        var updated := UpdatePlaylistStep(stamped, current, w);
        assert updated.state.calls[..|s.calls| + 1] == s.calls + [FetchChart];
        if updated.err.Some? then updated
        else Step(updated.state.(lastSongs := Some(current)), None)
  }

  /** `Math.round(ms / 60000)` for an integer number of milliseconds: ties round up. */
  function RoundMinutes(ms: int): (m: int)
    ensures MsPerMinute * m - MsPerMinute / 2 <= ms < MsPerMinute * m + MsPerMinute / 2
  {
    (ms + MsPerMinute / 2) / MsPerMinute
  }

  /** The (last, next) minute counts the description shows, `elapsed` ms after the last sync. */
  function Minutes(updateInterval: int, elapsed: int): (m: (int, int))
    ensures m.0 + m.1 == updateInterval
    ensures MsPerMinute * m.1 - MsPerMinute / 2 <= updateInterval * MsPerMinute - elapsed < MsPerMinute * m.1 + MsPerMinute / 2
  {
    var next := RoundMinutes(updateInterval * MsPerMinute - elapsed);
    (updateInterval - next, next)
  }

  /** `descriptionLoopWrapper`: push the description, once there is a playlist and a sync time. */
  function DescribeStep(s: State, describe: (int, int) -> string, w: World): (r: Step)
    ensures r.state == s.(calls := r.state.calls)
    ensures !Truthy(s.playlistId) || s.lastUpdate.None? ==> r == Step(s, None)
    ensures Truthy(s.playlistId) && s.lastUpdate.Some? ==>
              var m := Minutes(s.updateInterval, w.describeClock - s.lastUpdate.value);
              r.state.calls == s.calls + [ChangeDetails(s.playlistId.value, describe(m.0, m.1))] &&
              (r.err.Some? <==> w.detailsFails)
  {
    if !Truthy(s.playlistId) || s.lastUpdate.None? then Step(s, None)
    else
      var pid := s.playlistId.value;
      var m := Minutes(s.updateInterval, w.describeClock - s.lastUpdate.value);
      Step(s.(calls := s.calls + [ChangeDetails(pid, describe(m.0, m.1))]),
           if w.detailsFails then Some(DetailsFailed(pid)) else None)
  }

  /** The counter after a completed productive tick: one more, wrapping from updateInterval to 1. */
  function Advance(iteration: int, updateInterval: int): (r: int)
    requires updateInterval >= 1 && 1 <= iteration <= updateInterval
    ensures 1 <= r <= updateInterval
    ensures r % updateInterval == (iteration + 1) % updateInterval
  {
    var next := iteration + 1;
    if next == updateInterval + 1 then next - updateInterval else next
  }

  /** A tick that gets past the guards: it has a token and a playlist. */
  predicate Productive(s: State)
  {
    Truthy(s.accessToken) && Truthy(s.playlistId)
  }

  /** The chart was fetched first thing in the tick from `s` to `r`. */
  predicate Synced(s: State, r: State)
  {
    |r.calls| > |s.calls| && r.calls[|s.calls|] == FetchChart
  }

  /** The body of the `try` past the guards: the song sync when due, then the description. */
  function CycleStep(s: State, describe: (int, int) -> string, w: World): (r: Step)
    requires ValidState(s)
    ensures r.state == s.(lastUpdate := r.state.lastUpdate, lastSongs := r.state.lastSongs, calls := r.state.calls)
    ensures s.calls <= r.state.calls
    ensures Truthy(s.playlistId) ==> (Synced(s, r.state) <==> s.iteration % s.updateInterval == 0)
  {
    var synced := if s.iteration % s.updateInterval == 0 then SongsStep(s, w) else Step(s, None);
    if synced.err.Some? then synced
    else
      var described := DescribeStep(synced.state, describe, w);
      assert synced.state.calls <= described.state.calls;
      described
  }

  /** `loop`: one tick of the handler. */
  function TickStep(s: State, describe: (int, int) -> string, w: World): (r: State)
    requires ValidState(s)
    ensures ValidState(r)
    ensures r.playlistId == s.playlistId && r.accessToken == s.accessToken && r.updateInterval == s.updateInterval
    ensures s.calls <= r.calls
  {
    var cleared := s.(armed := false);
    if !Truthy(cleared.accessToken) then cleared
    else if !Truthy(cleared.playlistId) then cleared.(armed := true)
    else
      var out := CycleStep(cleared, describe, w);
      var settled :=
        if out.err.Some? then out.state.(lastError := out.err)
        else out.state.(iteration := Advance(out.state.iteration, out.state.updateInterval));
      settled.(armed := true)
  }

  /**
   * Without a token the tick does nothing and is not rescheduled; with one it
   * always reschedules, and without a playlist that is all it does.
   */
  lemma TickGuards(s: State, describe: (int, int) -> string, w: World)
    requires ValidState(s)
    ensures !Truthy(s.accessToken) ==> TickStep(s, describe, w) == s.(armed := false)
    ensures Truthy(s.accessToken) ==> TickStep(s, describe, w).armed
    ensures Truthy(s.accessToken) && !Truthy(s.playlistId) ==> TickStep(s, describe, w) == s.(armed := true)
  {
  }

  /** A productive tick advances the counter when it completes, and records the error instead when it fails. */
  lemma TickCounter(s: State, describe: (int, int) -> string, w: World)
    requires ValidState(s) && Productive(s)
    ensures var out := CycleStep(s.(armed := false), describe, w);
            var r := TickStep(s, describe, w);
            if out.err.None? then r.iteration == Advance(s.iteration, s.updateInterval) && r.lastError == s.lastError
            else r.iteration == s.iteration && r.lastError == out.err
  {
  }

  /** A productive tick fetches the chart exactly when the counter stands at `updateInterval`. */
  lemma TickSyncs(s: State, describe: (int, int) -> string, w: World)
    requires ValidState(s) && Productive(s)
    ensures Synced(s, TickStep(s, describe, w)) <==> s.iteration == s.updateInterval
  {
    DueAtInterval(s);
    var out := CycleStep(s.(armed := false), describe, w);
    assert Synced(s, out.state) <==> s.iteration % s.updateInterval == 0;
  }

  /**
   * What a failed productive tick stores. A due sync that throws is the error,
   * and the description is skipped: the log ends with the sync's calls, and
   * the sync time stamped before the throw stays. A description write that
   * fails after a completed or skipped sync stores `DetailsFailed` and keeps
   * what the sync left. Either way the counter stays and the tick re-arms.
   */
  lemma TickErrors(s: State, describe: (int, int) -> string, w: World)
    requires ValidState(s) && Productive(s)
    ensures var sync := SongsStep(s.(armed := false), w);
            var r := TickStep(s, describe, w);
            s.iteration == s.updateInterval && sync.err.Some? ==>
              r.lastError == sync.err && r.calls == sync.state.calls && r.iteration == s.iteration &&
              r.lastUpdate == Some(w.syncClock) && r.lastSongs == s.lastSongs && r.armed
    ensures var sync := if s.iteration == s.updateInterval then SongsStep(s.(armed := false), w) else Step(s.(armed := false), None);
            var described := DescribeStep(sync.state, describe, w);
            var r := TickStep(s, describe, w);
            sync.err.None? && described.err.Some? ==>
              r.lastError == Some(DetailsFailed(s.playlistId.value)) && r.calls == described.state.calls &&
              r.lastUpdate == sync.state.lastUpdate && r.lastSongs == sync.state.lastSongs &&
              r.iteration == s.iteration && r.armed
  {
    DueAtInterval(s);
  }

  /**
   * What a productive tick that completes does: the sync when due, and nothing
   * to the sync time or the cache when not; then one description write from
   * the sync time the sync left.
   */
  lemma TickCompletes(s: State, describe: (int, int) -> string, w: World)
    requires ValidState(s) && Productive(s)
    ensures var due := s.iteration == s.updateInterval;
            var sync := if due then SongsStep(s.(armed := false), w) else Step(s.(armed := false), None);
            var r := TickStep(s, describe, w);
            sync.err.None? && !w.detailsFails ==>
              r.lastUpdate == sync.state.lastUpdate && r.lastSongs == sync.state.lastSongs &&
              (!due ==> r.lastUpdate == s.lastUpdate && r.lastSongs == s.lastSongs) &&
              (r.lastUpdate.Some? ==>
                 var m := Minutes(s.updateInterval, w.describeClock - r.lastUpdate.value);
                 r.calls == sync.state.calls + [ChangeDetails(s.playlistId.value, describe(m.0, m.1))])
  {
    DueAtInterval(s);
    CycleCompletes(s.(armed := false), describe, w);
  }

  /** In range, the counter divides by `updateInterval` exactly when it stands at it. */
  lemma DueAtInterval(s: State)
    requires ValidState(s)
    ensures s.iteration % s.updateInterval == 0 <==> s.iteration == s.updateInterval
  {
  }

  /** A cycle whose sync does not throw ends with the description step from the state the sync left. */
  lemma CycleCompletes(s: State, describe: (int, int) -> string, w: World)
    requires ValidState(s) && Truthy(s.playlistId)
    ensures var sync := if s.iteration % s.updateInterval == 0 then SongsStep(s, w) else Step(s, None);
            sync.err.None? ==>
              sync.state.playlistId == s.playlistId && sync.state.updateInterval == s.updateInterval &&
              CycleStep(s, describe, w) == DescribeStep(sync.state, describe, w)
  {
  }

  // ---------------------------------------------------------------------------
  // Properties across steps

  /** A second sync against an unchanged chart only fetches: no search and no write. */
  lemma SecondSyncWritesNothing(s: State, w: World, w': World)
    requires SongsStep(s, w).err.None? && w'.chart == w.chart
    ensures var first := SongsStep(s, w).state;
            SongsStep(first, w') == Step(first.(lastUpdate := Some(w'.syncClock), calls := first.calls + [FetchChart]), None)
  {
  }

  /**
   * A sync that got the chart and found it changed overwrites the playlist with
   * exactly the resolved URIs, then caches the chart.
   */
  lemma ChangedChartOverwrites(s: State, w: World)
    requires Truthy(s.playlistId) && w.chart.Some? && s.lastSongs != Some(Chart(w.chart.value))
    requires Resolve(Chart(w.chart.value), w.search).outcome.Ok? && !w.replaceFails
    ensures var songs := Chart(w.chart.value);
            var r := SongsStep(s, w);
            r.err.None? && r.state.lastSongs == Some(songs) &&
            r.state.calls == s.calls + [FetchChart] + SearchCalls(Queries(songs)) +
              [ReplaceTracks(s.playlistId.value, Resolve(songs, w.search).outcome.value)]
  {
  }

  /**
   * A changed chart whose write fails (a search is refused, or the replace is)
   * makes the sync throw with the time stamped and the cache untouched, so the
   * next sync tries again; a refused search means no replace at all.
   */
  lemma FailedWriteKeepsCache(s: State, w: World)
    requires Truthy(s.playlistId) && w.chart.Some? && s.lastSongs != Some(Chart(w.chart.value))
    requires Resolve(Chart(w.chart.value), w.search).outcome.Err? || w.replaceFails
    ensures var r := SongsStep(s, w);
            r.err.Some? && r.state.lastSongs == s.lastSongs && r.state.lastUpdate == Some(w.syncClock)
    ensures var res := Resolve(Chart(w.chart.value), w.search);
            res.outcome.Err? ==>
              SongsStep(s, w).err == Some(res.outcome.error) &&
              SongsStep(s, w).state.calls == s.calls + [FetchChart] + SearchCalls(res.queries)
  {
    var stamped := s.(lastUpdate := Some(w.syncClock), calls := s.calls + [FetchChart]);
    UpdatePlaylistEffect(stamped, Chart(w.chart.value), w);
  }

  /** The stamped time feeds the description: a whole number of minutes later, it shows exactly that. */
  lemma MinutesAfterWholeMinutes(updateInterval: int, k: int)
    ensures Minutes(updateInterval, k * MsPerMinute) == (k, updateInterval - k)
  {
  }

  lemma ModSucc(a: int, n: int)
    requires a >= 0 && n >= 1
    ensures (a + 1) % n == if a % n == n - 1 then 0 else a % n + 1
  {
    var q, r := a / n, a % n;
    assert a == q * n + r;
    if r == n - 1 {
      assert a + 1 == (q + 1) * n;
      ModOfMultiple(q + 1, n);
    } else {
      ModUnique(a + 1, q, r + 1, n);
    }
  }

  lemma ModOfMultiple(q: int, n: int)
    requires n >= 1
    ensures (q * n) % n == 0
  {
    ModUnique(q * n, q, 0, n);
  }

  lemma ModUnique(a: int, q: int, r: int, n: int)
    requires n >= 1 && 0 <= r < n && a == q * n + r
    ensures a % n == r
  {
    var q', r' := a / n, a % n;
    assert a == q' * n + r';
    var d := q - q';
    assert d * n == r' - r by {
      assert q * n - q' * n == (q - q') * n;
    }
    if d > 0 {
      MulAtLeast(d, n);
    } else if d < 0 {
      MulAtLeast(-d, n);
    }
  }

  lemma MulAtLeast(d: int, n: int)
    requires d >= 1 && n >= 1
    ensures d * n >= n
  {
    assert d * n == (d - 1) * n + n;
    assert (d - 1) * n >= 0;
  }

  /** The counter after `k` completed productive ticks from the initial `updateInterval`. */
  function CounterAfter(updateInterval: int, k: nat): (c: int)
    requires updateInterval >= 1
    ensures 1 <= c <= updateInterval
  {
    if k == 0 then updateInterval else Advance(CounterAfter(updateInterval, k - 1), updateInterval)
  }

  /** The counter runs through 1..updateInterval; it is due for a sync exactly every updateInterval ticks. */
  lemma {:induction false} CounterCadence(updateInterval: int, k: nat)
    requires updateInterval >= 1
    ensures CounterAfter(updateInterval, k) == if k % updateInterval == 0 then updateInterval else k % updateInterval
    ensures CounterAfter(updateInterval, k) % updateInterval == 0 <==> k % updateInterval == 0
  {
    var n := updateInterval;
    if k == 0 {
      assert 0 % n == 0;
    } else {
      CounterCadence(n, k - 1);
      ModSucc(k - 1, n);
      if (k - 1) % n == 0 {
        if n == 1 {
          assert k % n == 0;
        }
      }
    }
    var c := CounterAfter(n, k);
    if c == n {
      ModOfMultiple(1, n);
    } else {
      ModUnique(c, 0, c, n);
    }
  }

  /** The ticks from `s`, one world each, in order. */
  function Run(s: State, describe: (int, int) -> string, ws: seq<World>): (r: State)
    requires ValidState(s)
    ensures ValidState(r) && r.updateInterval == s.updateInterval
    ensures r.playlistId == s.playlistId && r.accessToken == s.accessToken
    decreases |ws|
  {
    if ws == [] then s
    else TickStep(Run(s, describe, ws[..|ws| - 1]), describe, ws[|ws| - 1])
  }

  /** Every tick of the run is productive and completes without error. */
  predicate Smooth(s: State, describe: (int, int) -> string, ws: seq<World>)
    requires ValidState(s)
    decreases |ws|
  {
    ws == [] ||
    (Smooth(s, describe, ws[..|ws| - 1]) &&
     var before := Run(s, describe, ws[..|ws| - 1]);
     Productive(before) && CycleStep(before.(armed := false), describe, ws[|ws| - 1]).err.None?)
  }

  lemma {:induction false} SmoothPrefix(s: State, describe: (int, int) -> string, ws: seq<World>, k: nat)
    requires ValidState(s) && Smooth(s, describe, ws) && k <= |ws|
    ensures Smooth(s, describe, ws[..k])
    decreases |ws| - k
  {
    if k < |ws| {
      assert ws[..|ws| - 1][..k] == ws[..k];
      SmoothPrefix(s, describe, ws[..|ws| - 1], k);
    } else {
      assert ws[..k] == ws;
    }
  }

  lemma {:induction false} SmoothRunCounter(s: State, describe: (int, int) -> string, ws: seq<World>)
    requires ValidState(s) && s.iteration == s.updateInterval && Smooth(s, describe, ws)
    ensures Run(s, describe, ws).iteration == CounterAfter(s.updateInterval, |ws|)
    decreases |ws|
  {
    if ws != [] {
      SmoothRunCounter(s, describe, ws[..|ws| - 1]);
    }
  }

  /**
   * From a fresh counter, along a run of productive ticks that all complete,
   * tick `k` syncs the chart exactly when `k` is a multiple of `updateInterval`.
   */
  lemma SyncEveryInterval(s: State, describe: (int, int) -> string, ws: seq<World>, k: nat)
    requires ValidState(s) && s.iteration == s.updateInterval && Smooth(s, describe, ws) && k < |ws|
    ensures var before := Run(s, describe, ws[..k]);
            Synced(before, TickStep(before, describe, ws[k])) <==> k % s.updateInterval == 0
  {
    SmoothPrefix(s, describe, ws, k + 1);
    assert ws[..k + 1][..k] == ws[..k];
    SmoothPrefix(s, describe, ws, k);
    SmoothRunCounter(s, describe, ws[..k]);
    CounterCadence(s.updateInterval, k);
  }

  // ---------------------------------------------------------------------------
  // The handler object

  class SpotifyHandler {
    var playlistId: Option<string>
    const description: (int, int) -> string
    const updateInterval: int

    var lastUpdate: Option<int>
    var lastError: Option<Failure>
    var lastSongs: Option<seq<Song>>

    var mainLoopIteration: int
    var armed: bool                 // a `mainLoopTimeout` is pending
    const updateIntervalMS: int

    var accessToken: Option<string> // the token held by the inherited API client
    var calls: seq<Call>            // the remote calls made so far

    ghost predicate Valid()
      reads this
    {
      ValidState(Snapshot()) && updateIntervalMS == updateInterval * MsPerMinute
    }

    function Snapshot(): State
      reads this
    {
      State(playlistId, updateInterval, lastUpdate, lastError, lastSongs,
            mainLoopIteration, armed, accessToken, calls)
    }

    constructor (updateInterval: int, description: (int, int) -> string, playlistId: Option<string>)
      requires updateInterval >= 1
      ensures Valid() && Snapshot() == Initial(updateInterval, playlistId)
      ensures this.description == description
    {
      this.playlistId := playlistId;
      this.description := description;
      this.updateInterval := updateInterval;
      this.lastUpdate, this.lastError, this.lastSongs := None, None, None;
      this.mainLoopIteration := updateInterval;
      this.armed := false;
      this.updateIntervalMS := updateInterval * 60 * 1000;
      this.accessToken := None;
      this.calls := [];
    }

    /** `setAccessToken` / `resetAccessToken` of the inherited API client. */
    method SetAccessToken(token: Option<string>)
      requires Valid()
      modifies this`accessToken
      ensures Valid() && Snapshot() == old(Snapshot()).(accessToken := token)
    {
      accessToken := token;
    }

    /** The search loop of `updatePlaylist`: one search per song, stopping at the first that fails. */
    method SearchSongs(songs: seq<Song>, w: World) returns (tracks: seq<string>, err: Option<Failure>)
      modifies this`calls
      ensures var res := Resolve(songs, w.search);
              calls == old(calls) + SearchCalls(res.queries) &&
              (res.outcome.Ok? ==> err.None? && tracks == res.outcome.value) &&
              (res.outcome.Err? ==> err == Some(res.outcome.error))
    {
      ghost var before := calls;
      ghost var sent: seq<string> := [];
      var log: seq<Call> := [];
      tracks := [];
      var i := 0;
      err := None;
      while i < |songs| && err.None?
        invariant 0 <= i <= |songs|
        invariant err.None? ==> Resolve(songs[..i], w.search) == Resolution(sent, Ok(tracks))
        invariant err.Some? ==> Resolve(songs, w.search) == Resolution(sent, Err(err.value))
        invariant log == SearchCalls(sent) && calls == before
      {
        var query := Query(songs[i]);
        SearchCallsNext(sent, query);
        log := log + [SearchTracks(query)];
        var res := w.search(query);
        if res.None? {
          ResolveFails(songs, i, w.search);
          err := Some(SearchFailed(query));
        } else {
          var hits := res.value;
          ResolveNext(songs, i, w.search, hits);
          tracks := tracks + FirstHit(hits);
        }
        sent := sent + [query];
        i := i + 1;
      }
      if err.None? {
        assert songs[..i] == songs;
      }
      assert Resolve(songs, w.search).queries == sent;
      calls := calls + log;
    }

    method UpdatePlaylist(songs: seq<Song>, w: World) returns (err: Option<Failure>)
      requires Valid()
      modifies this`calls
      ensures Valid()
      ensures !Truthy(playlistId) ==> calls == old(calls) && err.None?
      ensures Truthy(playlistId) ==>
                var res := Resolve(songs, w.search);
                calls == old(calls) + SearchCalls(res.queries) +
                  (if res.outcome.Ok? then [ReplaceTracks(playlistId.value, res.outcome.value)] else []) &&
                err == if res.outcome.Err? then Some(res.outcome.error)
                       else if w.replaceFails then Some(ReplaceFailed(playlistId.value)) else None
    {
      if !Truthy(playlistId) {
        return None;
      }
      // a failed search throws out of the loop, and nothing is replaced
      var newTracks;
      newTracks, err := SearchSongs(songs, w);
      if err.Some? {
        return;
      }
      calls := calls + [ReplaceTracks(playlistId.value, newTracks)];
      if w.replaceFails {
        return Some(ReplaceFailed(playlistId.value));
      }
    }

    method SongsLoopWrapper(w: World) returns (err: Option<Failure>)
      requires Valid()
      modifies this
      ensures Valid()
      ensures var st := SongsStep(old(Snapshot()), w); Snapshot() == st.state && err == st.err
    {
      lastUpdate := Some(w.syncClock);
      calls := calls + [FetchChart];
      if w.chart.None? {
        return Some(ChartFetchFailed);
      }
      var currentSongs := ScrapeRows(w.chart.value);
      if lastSongs != Some(currentSongs) {
        UpdatePlaylistEffect(Snapshot(), currentSongs, w);
        err := UpdatePlaylist(currentSongs, w);
        if err.Some? {
          return;
        }
        lastSongs := Some(currentSongs);
      }
      return None;
    }

    method DescriptionLoopWrapper(w: World) returns (err: Option<Failure>)
      requires Valid()
      modifies this
      ensures Valid()
      ensures var st := DescribeStep(old(Snapshot()), description, w); Snapshot() == st.state && err == st.err
    {
      if !Truthy(playlistId) || lastUpdate.None? {
        return None;
      }
      var diff := w.describeClock - lastUpdate.value;
      var nextUpdateTime := RoundMinutes(updateIntervalMS - diff);
      var lastUpdateTime := updateInterval - nextUpdateTime;
      var text := description(lastUpdateTime, nextUpdateTime);
      calls := calls + [ChangeDetails(playlistId.value, text)];
      if w.detailsFails {
        return Some(DetailsFailed(playlistId.value));
      }
      return None;
    }

    method Loop(w: World)
      requires Valid()
      modifies this
      ensures Valid()
      ensures Snapshot() == TickStep(old(Snapshot()), description, w)
    {
      armed := false;
      if !Truthy(accessToken) {
        return;
      }
      if Truthy(playlistId) {
        var err: Option<Failure> := None;
        if mainLoopIteration % updateInterval == 0 {
          err := SongsLoopWrapper(w);
        }
        if err.None? {
          err := DescriptionLoopWrapper(w);
        }
        if err.None? {
          mainLoopIteration := mainLoopIteration + 1;
          if mainLoopIteration == updateInterval + 1 {
            mainLoopIteration := mainLoopIteration - updateInterval;
          }
        } else {
          lastError := err;
        }
      }
      armed := true;
    }
  }
}
