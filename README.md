# Gorąca 20 playlist synchroniser, modelled in Dafny

The program keeps a Spotify playlist in step with the Radio ESKA "Gorąca 20" chart.
A `SpotifyHandler` ticks once a minute. The tick counter advances only on a productive
tick that completes, so a tick that throws is not counted. On every `updateInterval`-th
completed productive tick the handler scrapes the chart page, and the tick after a failed
sync syncs again. When the chart differs from the last one it wrote, it searches each song
and overwrites the playlist with the first hit of each song that has one. A productive tick
then rewrites the playlist description, unless its sync threw. The description gives the
minutes since the last sync attempt and until the next one. The sync time is stamped before
the scrape, so a failed attempt also counts as the last sync.
A small web front end lets the logged-in user pick which of their own
playlists to keep in sync.

The model has five modules:

- `Wrappers` (wrappers.dfy): `Option` and `Result`.
- `Strings` (strings.dfy): the JavaScript built-ins the program relies on.
  - `trim`, over the ECMAScript white-space set.
  - The decimal rendering of an integer number in a template literal, with the parser that reads it back.
  - Truthiness of a `string | undefined`: `undefined` and `""` are both false.
- `Scrapper` (scrapper.dfy): the `scrapeEska` walk over the chart's rows.
  - The HTTP fetch and the HTML parse are abstracted into a `seq<Row>`. A `Row` holds the hook flag, the title text, the artist item texts and the position text.
  - `ScrapeRows` and `CollectArtists` are the two loops. `ScrapeRows` is proved against the function `Chart`, and `CollectArtists` against `ArtistsOf`.
  - `Chart` is proved equal to an independent reference definition: filter out the hooks, cut after the first "20", map each row to a song.
- `Spotify` (spotify.dfy): the handler.
  - One tick runs against a `World`, which holds everything remote for that tick:
    - the two clock readings, in ms;
    - the chart rows, or a failed fetch;
    - a search oracle from a query to URIs, or a failed request;
    - whether the playlist replace or the details change is rejected.
  - The class `SpotifyHandler` has the source's fields, plus `armed`, which stands for the pending `setTimeout`.
  - `calls` is a log of the remote calls issued. A call that fails is logged and then throws.
  - Each method is proved to move the object exactly as a pure step function on the value `State` does: `UpdatePlaylistStep`, `SongsStep`, `DescribeStep`, `TickStep`. The properties are lemmas about those functions.
  - The lemmas cover track resolution, change detection, the description's minute arithmetic, the guards of `loop`, error handling, and the sync cadence over whole runs of ticks.
- `App` (app.dfy): the logic in src/app.ts.
  - The handler's configuration: ten minutes, and the selection read from the store.
  - The description template, with a parser and a round-trip lemma. The lemma shows that `next` sits in the "Następna aktualizacja za" slot and `last` in the "ostatnia aktualizacja" slot.
  - The owner filter of the dashboard.
  - The `/pl-id` toggle, with the JSON store as a `Store` object over a map.

Behaviour of the code that the model keeps:

- A tick without an access token returns from inside the `try` and does not re-arm, so no tick is pending afterwards (`TickGuards`).
- The description's `next` is the remaining time rounded to whole minutes, `Math.round((intervalMS - diff) / 60000)`, and `last` is `updateInterval - next` (`Minutes`).
- `loop` itself does not refresh credentials. The token is refreshed by a separate `setInterval` in src/app.ts, which is left out.
- Nothing prevents two `loop` calls from overlapping. `/pl-id` and the OAuth callback call `loop()` while a tick may be in flight. The model treats every tick as atomic (see "Left out").

One consequence of the code as written is proved as `NewSelectionNotFilled`. The chart cache `lastSongs` is not cleared when the selection changes. So once the cache matches the chart, a newly selected playlist receives no tracks until the chart itself changes; its ticks only update its description.

## Model

| member | source | states |
|---|---|---|
| Strings.Trim | src/scrapper.ts:19 | the result has no white space at either end and is no longer than the input |
| Strings.TrimKeepsMiddle | src/scrapper.ts:19-23 | trim keeps a contiguous slice and drops only white space on either side of it; a trimmed string is left alone; the result is empty exactly when the input is all white space |
| Strings.TrimEndDropsSpaces | src/scrapper.ts:19-23 | the trailing trim keeps a prefix and every dropped character is white space |
| Strings.TrimStartDropsSpaces | src/scrapper.ts:19-23 | the leading trim keeps a suffix and every dropped character is white space |
| Strings.TrimDropsTrailingSpace | src/scrapper.ts:19-23 | the space appended after the last artist item disappears in the final trim; the other spaces stay as separators (`AccumulatedIsJoined`) |
| Strings.IntToString | src/app.ts:18 | a rendered integer is non-empty, starts with a minus sign exactly when it is negative, and has no leading zero: it starts with 0 only when it is "0" |
| Strings.ParseNegative | src/app.ts:18 | a minus sign followed by digits reads back as the negated value of the digits |
| Strings.Truthy | src/spotify.ts:40 | `!x` on a `string | undefined`: undefined and the empty string are falsy, any non-empty string is truthy |
| Strings.NatToString | src/app.ts:18 | the rendering of a natural number is a non-empty string of decimal digits; its first digit is 0 exactly for zero, which renders as "0" |
| Strings.ParseNatToString | src/app.ts:18 | reading the digits of a natural number back gives the number |
| Strings.IntToStringRoundTrip | src/app.ts:18 | reading back the rendering of any integer, negative ones included, gives that integer |
| Strings.IntToStringIsNumeral | src/app.ts:18 | a rendered integer is non-empty and made only of digits and the minus sign |
| Scrapper.Accumulated | src/scrapper.ts:17-20 | the accumulator gains at least one character, the appended space, per artist item |
| Scrapper.ArtistsOf | src/scrapper.ts:23 | the artist string has no white space at either end, and is empty for a row without artist items |
| Scrapper.SongOf | src/scrapper.ts:21-24 | a row's song takes the title text verbatim, untrimmed |
| Scrapper.Chart | src/scrapper.ts:10-29 | the walk gives at most one song per row, and no song for an empty page |
| Scrapper.CollectArtists | src/scrapper.ts:17-23 | the inner loop's accumulator, trimmed, is the artist string of the row, and it has no white space at either end |
| Scrapper.ScrapeRows | src/scrapper.ts:10-29 | the row loop, with its early exit, returns exactly the chart of the rows |
| Scrapper.ChartAt | src/scrapper.ts:12-28 | one step of the walk at row i: a hook adds nothing, any other row adds its song, and a "20" stops the walk |
| Scrapper.ChartIsTruncatedFilter | src/scrapper.ts:12-28 | the chart equals the reference definition: drop the hook rows, cut right after the first row at "20", one song per remaining row in document order |
| Scrapper.ChartSkipsHook | src/scrapper.ts:14 | inserting a hook row anywhere, even one at position "20", changes nothing and never stops the walk |
| Scrapper.ChartKeepsAllWithoutTwenty | src/scrapper.ts:10-29 | when no non-hook row shows "20", every non-hook row gives one song, in order |
| Scrapper.ChartStopsAtTwenty | src/scrapper.ts:26-27 | the first non-hook row at "20" gives the last song; rows after it are never read |
| Scrapper.AccumulatedIsJoined | src/scrapper.ts:17-20 | the accumulator is the trimmed items joined with single spaces, plus one trailing space |
| Scrapper.JoinSpaceTrimmed | src/scrapper.ts:17-23 | joining non-blank trimmed items with single spaces gives a non-empty string with no white space at either end, starting with the first item |
| Scrapper.ArtistsAreJoined | src/scrapper.ts:17-23 | the artist string is the trimmed items, space-joined, in order, trimmed once more; with no blank item it is exactly the space-joined trimmed items |
| Spotify.Initial | src/spotify.ts:27-37 | the constructor's state: the given interval, the counter at that interval, so the first productive tick syncs; no token, no sync time, no cache, no error, no pending tick, no call made |
| Spotify.Query | src/spotify.ts:45 | the query's length is the title's plus one plus the artists' |
| Spotify.QueryParts | src/spotify.ts:45 | the query is the title, then one space, then the artists |
| Spotify.FirstHit | src/spotify.ts:47-49 | a song contributes at most one URI: the first result when there is one, none when the result list is empty |
| Spotify.Queries | src/spotify.ts:44-45 | one query per song, in order, each the title, a space and the artists |
| Spotify.Resolve | src/spotify.ts:42-50 | at most one query per song; when every search answers, every song was searched and at most one URI per song was kept |
| Spotify.ResolveOutcome | src/spotify.ts:44-50 | the search loop completes exactly when every search answers, and then it sent every song's query in order; otherwise it stopped at the first song whose search failed, with that query as the last one sent |
| Spotify.ResolveNext | src/spotify.ts:44-49 | an answered search extends the queries by that song's query and the URIs by its first hit |
| Spotify.ResolveFails | src/spotify.ts:44-46 | a failed search ends the batch with that query as the last one sent |
| Spotify.ResolveStopsAtFailure | src/spotify.ts:44-46 | once a search has failed, the later songs are never searched |
| Spotify.ResolvedTracks | src/spotify.ts:44-50 | when every search answers, the URIs are exactly the first hits of the songs that have one, in song order; a song with an empty result gives nothing; no song gives two |
| Spotify.HitIndices | src/spotify.ts:48-49 | the positions of the songs with a hit are in range and strictly increasing |
| Spotify.HitIndicesExact | src/spotify.ts:48-49 | a position is listed exactly when its song's search found at least one track |
| Spotify.ResolvedTracksAt | src/spotify.ts:44-50 | when every search answers, there is one URI per listed position, and the k-th is the first hit of the song at the k-th position |
| Spotify.UpdatePlaylistStep | src/spotify.ts:39-53 | with no playlist nothing happens and nothing is called; otherwise the searches are made and the playlist is overwritten with exactly the resolved URIs, or a failed search leaves the playlist untouched; only the call log changes |
| Spotify.UpdatePlaylistEffect | src/spotify.ts:39-53 | the whole effect of updatePlaylist in one formula, for both the unset and the set playlist |
| Spotify.SongsStep | src/spotify.ts:55-63 | the sync time is stamped whether or not the scrape or the replace fails; the chart is fetched first; an unchanged chart only fetches; a changed chart gives exactly the calls and the error of updatePlaylist, and the cache takes the new chart if and only if that succeeded |
| Spotify.FailedWriteKeepsCache | src/spotify.ts:59-62 | on a changed chart, a refused search or a rejected replace makes the sync throw with the time stamped and the cache unchanged; a refused search means no replace call at all |
| Spotify.RoundMinutes | src/spotify.ts:69 | Math.round of a millisecond span in minutes: the nearest whole minute, ties rounding up |
| Spotify.Minutes | src/spotify.ts:68-70 | last + next == updateInterval, next is the remaining time rounded to whole minutes, and neither is clamped |
| Spotify.DescribeStep | src/spotify.ts:65-77 | a no-op without a playlist or a sync time; otherwise exactly one description write with the template applied to (last, next) |
| Spotify.Advance | src/spotify.ts:89-91 | the counter after a completed tick stays in 1..updateInterval and agrees with iteration + 1 modulo updateInterval |
| Spotify.CycleStep | src/spotify.ts:85-92 | only the sync time, the cache and the call log change; a tick with a playlist syncs exactly when the counter is divisible by updateInterval |
| Spotify.TickStep | src/spotify.ts:79-99 | a tick keeps the counter in range, never changes the playlist, the token or the interval, and only appends to the call log |
| Spotify.TickGuards | src/spotify.ts:79-85 | without a token the tick makes no call and leaves no tick pending; with a token it always schedules the next tick; without a playlist that is all it does, and the counter is untouched |
| Spotify.TickCounter | src/spotify.ts:85-96 | a failed productive tick stores the error and keeps the counter, so the next tick retries the sync; a completed one advances the counter and keeps the stored error |
| Spotify.TickErrors | src/spotify.ts:85-98 | a due sync that throws is the stored error, and the description is skipped: the log ends with the sync's calls, `lastUpdate` keeps the stamp the sync set before it threw, and the cache is kept. A description write that fails after a completed or skipped sync stores `DetailsFailed` of the playlist and keeps the sync time and cache the sync left. In both cases the counter stays and the tick re-arms |
| Spotify.TickCompletes | src/spotify.ts:85-89 | on a productive tick whose sync does not throw and whose description write succeeds, the sync time and the cache are what the sync left, and a tick that is not due keeps both. The log is the sync's calls and then one `ChangeDetails` whose text uses the minutes from that sync time |
| Spotify.CycleCompletes | src/spotify.ts:86-88 | a cycle whose sync (due or skipped) does not throw keeps the playlist and the interval, and ends with the description step from the state the sync left |
| Spotify.DueAtInterval | src/spotify.ts:86 | with the counter in 1..updateInterval, `!(iteration % updateInterval)` holds exactly when the counter stands at updateInterval |
| Spotify.TickSyncs | src/spotify.ts:86-87 | a productive tick fetches the chart exactly when the counter stands at updateInterval |
| Spotify.SecondSyncWritesNothing | src/spotify.ts:59-62 | after a successful sync, a second sync against the same chart fetches and changes nothing else: no search and no replace |
| Spotify.ChangedChartOverwrites | src/spotify.ts:44-61 | a changed chart whose searches all answer gives exactly the fetch, one search per song and one full overwrite with the resolved URIs, and the cache takes the new chart |
| Spotify.MinutesAfterWholeMinutes | src/spotify.ts:66-72 | k whole minutes after the sync time the description shows exactly (k, updateInterval - k) |
| Spotify.CounterAfter | src/spotify.ts:34 | the counter after any number of completed ticks from the initial value lies in 1..updateInterval |
| Spotify.CounterCadence | src/spotify.ts:86-91 | after k completed ticks the counter is k mod updateInterval, or updateInterval at the multiples, so it is due exactly at the multiples of updateInterval |
| Spotify.Run | src/spotify.ts:79-99 | a run of ticks keeps the counter in range and never changes the playlist, the token or the interval |
| Spotify.SmoothRunCounter | src/spotify.ts:86-91 | along a run of completed productive ticks from the initial counter, the counter after k ticks is the k-th value of the cadence |
| Spotify.SyncEveryInterval | src/spotify.ts:86-91 | from the initial counter, along completed productive ticks, tick k fetches the chart exactly when k is a multiple of updateInterval |
| Spotify.SpotifyHandler.constructor | src/spotify.ts:27-37 | the new handler's fields are the initial state, with the given description, interval and selection |
| Spotify.SpotifyHandler.SetAccessToken | src/app.ts:78 | setting or resetting the token changes only the token |
| Spotify.SpotifyHandler.SearchSongs | src/spotify.ts:42-50 | the search loop logs one search per song until the first failure and returns the resolved URIs or that failure |
| Spotify.SpotifyHandler.UpdatePlaylist | src/spotify.ts:39-53 | the method's calls and thrown error are those of the resolution: nothing without a playlist, the searches, then the full replace only if every search answered |
| Spotify.SpotifyHandler.SongsLoopWrapper | src/spotify.ts:55-63 | the method moves the handler exactly as SongsStep |
| Spotify.SpotifyHandler.DescriptionLoopWrapper | src/spotify.ts:65-77 | the method moves the handler exactly as DescribeStep |
| Spotify.SpotifyHandler.Loop | src/spotify.ts:79-99 | the method moves the handler exactly as TickStep |
| App.Description | src/app.ts:17-18 | the description starts with the fixed head text and is longer than the three fixed texts together; where the numbers sit is stated by DescriptionRoundTrip |
| App.NumeralSpan | src/app.ts:18 | the measured numeral lies within the string |
| App.Filled | src/app.ts:18 | a filled template starts with its head |
| App.ReadNumber | src/app.ts:18 | reading a number consumes at least one character |
| App.NumeralSpanOf | src/app.ts:18 | a numeral followed by a non-numeral character spans exactly the numeral |
| App.ReadNumeral | src/app.ts:18 | a rendered integer followed by a space, or by nothing, reads back as that integer and leaves exactly what follows it |
| App.FilledRoundTrip | src/app.ts:17-18 | a template whose middle and tail start with a non-numeral reads back as the two numbers in their slots |
| App.DescriptionRoundTrip | src/app.ts:17-18 | reading a description back gives (last, next): next is in the "Następna aktualizacja za" slot and last in the "ostatnia aktualizacja" slot |
| App.DescriptionInjective | src/app.ts:17-18 | different minute pairs give different descriptions |
| App.OwnedPlaylists | src/app.ts:35-37 | a playlist is listed exactly when it is in the user's list and its owner id is the user's id |
| App.OwnedPlaylistsAppend | src/app.ts:37 | the filter distributes over concatenation, so the kept playlists stay in their original order |
| App.DashboardPlaylists | src/app.ts:33-38 | before login the dashboard lists nothing; after login only the user's own playlists |
| App.Toggle | src/app.ts:99-100 | asking for the stored id clears the selection; any other id replaces it |
| App.ToggleAlternates | src/app.ts:100 | repeated requests for one id alternate between that id and no selection |
| App.NewSelectionNotFilled | src/spotify.ts:59-62 | with the cache already matching the chart, the tick after a selection change writes no tracks to the new playlist |
| App.Store.constructor | src/app.ts:10 | the store holds the given entries |
| App.Store.Get | src/app.ts:99 | a key has a value exactly when it is stored |
| App.Store.Set | src/app.ts:102 | storing a value makes the key read back that value; storing undefined makes it read back undefined; other keys are untouched |
| App.CreateHandler | src/app.ts:12-20 | the handler starts with a ten-minute interval, this description template and the stored selection |
| App.SelectPlaylist | src/app.ts:97-105 | the handler and the store receive the same toggled selection; the tick that follows is exactly one loop tick from that state |

## Left out

- Express routes, views, static files and the server start-up (src/app.ts:22-115, apart from the toggle and the filter): HTTP plumbing.
- OAuth: the authorize URL, the code grant, and the `setInterval` token refresh (src/app.ts:51-95). The token is a field that `SetAccessToken` sets or resets.
- The `SpotifyWebApi` client's remote calls made by a tick: `searchTracks`, `replaceTracksInPlaylist`, `changePlaylistDetails`. Their answers are inputs of the tick, and the calls made are logged.
- The dashboard's `getMe` and `getUserPlaylists` (src/app.ts:34-35): they are not part of a tick and are not logged. `DashboardPlaylists` takes their answers as parameters.
- The axios GET and the cheerio HTML parse in `scrapeEska`: the page is given as its rows, and a failed fetch as a missing chart.
- File persistence of `simple-json-db`: the store is an in-memory map.
- `setTimeout` and `clearTimeout`: the pending timer is the flag `armed`, and every `loop()` call is one atomic tick.
- Concurrency between awaits. The source could run two ticks at once, or change `playlistId` while `updatePlaylist` is between searches. The model does not capture either interleaving.
- `Date`: the two readings of the clock in a tick are integer milliseconds, given as inputs.
- Spotify.RoundMinutes: models `Math.round` on the exact quotient. It does not model the floating-point rounding of dividing by 1000 and then by 60.
- `console.error` and `console.log`: output only.
- `lastError` of type `any` holds a `Failure` that names which call was rejected. The error objects of the libraries are not modelled.
- `JSON.stringify` as the cache fingerprint is modelled as the song sequence itself. The two agree because stringifying these records is injective.
- Spotify.SpotifyHandler.constructor: requires `updateInterval >= 1`. The source is only configured with 10, and with 0 its modulo would be NaN.
- App.SelectPlaylist: the requested id is a string. A request body without an `id` gives `undefined`, and JavaScript's loose equality between that and the stored value is not modelled.
- The earlier snapshots app.ts, app.js and src/utils.ts: they repeat the same scrape walk and glue. `readJSON` and `writeJSON` in src/utils.ts are file I/O.
- src/public/main.js, the browser click handlers, and healthcheck.js, an HTTP probe: neither is part of this model.
