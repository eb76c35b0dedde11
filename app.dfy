/**
 * The application wiring (src/app.ts) that carries logic of its own: the
 * handler's configuration and description template, the owner filter of the
 * dashboard, and the `/pl-id` toggle that selects the playlist to keep in sync.
 *
 * The JSON file store is a `Store` object over a map; the HTTP routes are
 * reduced to the methods that do what their handlers do.
 */
module App {
  import opened Wrappers
  import opened Strings
  import opened Scrapper
  import opened Spotify

  const UpdateInterval := 10
  const PlaylistKey := "playlistId"

  // ---------------------------------------------------------------------------
  // The description template

  const DescriptionHead := "Radio ESKA \U{1F3B5} Zautomatyzowana playlista z piosenkami z Gor\U{0105}cej 20. Nast\U{0119}pna aktualizacja za "
  const DescriptionMiddle := " minut, ostatnia aktualizacja "
  const DescriptionTail := " minut temu."

  /** The text pushed as the playlist description, `last` and `next` in whole minutes. */
  function Description(last: int, next: int): (d: string)
    ensures DescriptionHead <= d
    ensures |d| > |DescriptionHead| + |DescriptionMiddle| + |DescriptionTail|
  {
    Filled(DescriptionHead, next, DescriptionMiddle, last, DescriptionTail)
  }

  /** A template with two number slots, `next` after `head` and `last` after `middle`. */
  function Filled(head: string, next: int, middle: string, last: int, tail: string): (d: string)
    ensures head <= d
  {
    PrefixOfAppend(head, IntToString(next) + (middle + (IntToString(last) + tail)));
    head + (IntToString(next) + (middle + (IntToString(last) + tail)))
  }

  lemma PrefixOfAppend(a: string, b: string)
    ensures a <= a + b && (a + b)[|a|..] == b
  {
  }

  /** A character that may occur in a rendered integer. */
  predicate IsNumeral(c: char)
  {
    c == '-' || IsDigit(c)
  }

  /** The length of the longest prefix of `s` made of numeral characters. */
  function NumeralSpan(s: string): (k: nat)
    ensures k <= |s|
    decreases |s|
  {
    if s == [] || !IsNumeral(s[0]) then 0 else 1 + NumeralSpan(s[1..])
  }

  /**
   * Reads a description back into `(last, next)`: the head, a numeral, the
   * middle, a numeral, the tail, and nothing else.
   */
  function ParseDescription(d: string): (r: Option<(int, int)>)
  {
    ParseFilled(d, DescriptionHead, DescriptionMiddle, DescriptionTail)
  }

  /** Reads `head`, a numeral `next`, `middle`, a numeral `last` and `tail`, in that order. */
  function ParseFilled(d: string, head: string, middle: string, tail: string): (r: Option<(int, int)>)
  {
    if !(head <= d) then None
    else
      match ReadNumber(d[|head|..])
      case None => None
      case Some((next, rest)) =>
        if !(middle <= rest) then None
        else
          match ReadNumber(rest[|middle|..])
          case None => None
          case Some((last, rest')) => if rest' == tail then Some((last, next)) else None
  }

  /** The integer written at the front of `s`, and what follows it. */
  function ReadNumber(s: string): (r: Option<(int, string)>)
    ensures r.Some? ==> |r.value.1| < |s|
  {
    var k := NumeralSpan(s);
    match ParseInt(s[..k])
    case None => None
    case Some(v) => Some((v, s[k..]))
  }

  /** A numeral followed by a non-numeral character (or by nothing) spans exactly the numeral. */
  lemma {:induction false} NumeralSpanOf(x: string, rest: string)
    requires forall i :: 0 <= i < |x| ==> IsNumeral(x[i])
    requires rest == [] || !IsNumeral(rest[0])
    ensures NumeralSpan(x + rest) == |x|
    decreases |x|
  {
    if x != [] {
      assert (x + rest)[1..] == x[1..] + rest;
      NumeralSpanOf(x[1..], rest);
    } else {
      assert x + rest == rest;
    }
  }

  /** Reading a rendered integer off the front of a string that goes on with a non-numeral. */
  lemma ReadNumeral(n: int, rest: string)
    requires rest == [] || !IsNumeral(rest[0])
    ensures ReadNumber(IntToString(n) + rest) == Some((n, rest))
  {
    var x := IntToString(n) + rest;
    IntToStringIsNumeral(n);
    IntToStringRoundTrip(n);
    NumeralSpanOf(IntToString(n), rest);
    assert x[..|IntToString(n)|] == IntToString(n);
    assert x[|IntToString(n)|..] == rest;
  }

  /** Filling any head, middle and tail round-trips, as long as middle and tail do not start like a numeral. */
  lemma FilledRoundTrip(head: string, middle: string, tail: string, last: int, next: int)
    requires middle != [] && !IsNumeral(middle[0]) && (tail == [] || !IsNumeral(tail[0]))
    ensures ParseFilled(Filled(head, next, middle, last, tail), head, middle, tail) == Some((last, next))
  {
    var after := middle + (IntToString(last) + tail);
    PrefixOfAppend(head, IntToString(next) + after);
    ReadNumeral(next, after);
    PrefixOfAppend(middle, IntToString(last) + tail);
    ReadNumeral(last, tail);
  }

  /** `next` sits in the "Następna aktualizacja za" slot, `last` in the "ostatnia aktualizacja" slot. */
  lemma DescriptionRoundTrip(last: int, next: int)
    ensures ParseDescription(Description(last, next)) == Some((last, next))
  {
    assert DescriptionMiddle[0] == ' ' && DescriptionTail[0] == ' ';
    FilledRoundTrip(DescriptionHead, DescriptionMiddle, DescriptionTail, last, next);
  }

  /** Different minute counts give different descriptions. */
  lemma DescriptionInjective(last: int, next: int, last': int, next': int)
    requires Description(last, next) == Description(last', next')
    ensures last == last' && next == next'
  {
    DescriptionRoundTrip(last, next);
    DescriptionRoundTrip(last', next');
  }

  // ---------------------------------------------------------------------------
  // The dashboard's playlist list

  datatype Playlist = Playlist(id: string, name: string, ownerId: string)

  /** The user's playlists that the user owns, in the order the API lists them. */
  function OwnedPlaylists(items: seq<Playlist>, userId: string): (r: seq<Playlist>)
    ensures |r| <= |items|
    ensures forall p :: p in r <==> p in items && p.ownerId == userId
    decreases |items|
  {
    if items == [] then []
    else
      var init := OwnedPlaylists(items[..|items| - 1], userId);
      var last := items[|items| - 1];
      assert items == items[..|items| - 1] + [last];
      if last.ownerId == userId then init + [last] else init
  }

  /** Filtering distributes over concatenation, so the kept playlists keep their relative order. */
  lemma {:induction false} OwnedPlaylistsAppend(a: seq<Playlist>, b: seq<Playlist>, userId: string)
    ensures OwnedPlaylists(a + b, userId) == OwnedPlaylists(a, userId) + OwnedPlaylists(b, userId)
    decreases |b|
  {
    if b == [] {
      assert a + b == a;
    } else {
      var b' := b[..|b| - 1];
      assert (a + b)[..|a + b| - 1] == a + b';
      assert (a + b)[|a + b| - 1] == b[|b| - 1];
      OwnedPlaylistsAppend(a, b', userId);
    }
  }

  /** The list the dashboard renders: the owned playlists once logged in, none before. */
  function DashboardPlaylists(accessToken: Option<string>, userId: string, items: seq<Playlist>): (r: seq<Playlist>)
    ensures !Truthy(accessToken) ==> r == []
    ensures Truthy(accessToken) ==> forall p :: p in r <==> p in items && p.ownerId == userId
  {
    if Truthy(accessToken) then OwnedPlaylists(items, userId) else []
  }

  // ---------------------------------------------------------------------------
  // Selecting the playlist

  /** The `/pl-id` rule: asking for the stored id clears the selection, any other id replaces it. */
  function Toggle(current: Option<string>, requested: string): (r: Option<string>)
    ensures r.None? <==> current == Some(requested)
    ensures r.Some? ==> r.value == requested
  {
    if current == Some(requested) then None else Some(requested)
  }

  /** The selection after `k` requests for the same id. */
  function ToggleTimes(current: Option<string>, requested: string, k: nat): Option<string>
  {
    if k == 0 then current else Toggle(ToggleTimes(current, requested, k - 1), requested)
  }

  /**
   * Repeated requests for one id alternate between that id and no selection,
   * starting from the one that differs from the stored value.
   */
  lemma {:induction false} ToggleAlternates(current: Option<string>, requested: string, k: nat)
    requires k >= 1
    ensures ToggleTimes(current, requested, k) ==
              if (k % 2 == 1) == (current == Some(requested)) then None else Some(requested)
  {
    if k > 1 {
      ToggleAlternates(current, requested, k - 1);
    }
  }

  /**
   * The chart cache is not tied to the playlist: once the cache matches the
   * chart, a newly selected playlist receives no tracks on the next tick, only
   * (at most) the fetch and the description.
   */
  lemma NewSelectionNotFilled(s: State, describe: (int, int) -> string, w: World, selection: Option<string>)
    requires ValidState(s) && w.chart.Some? && s.lastSongs == Some(Chart(w.chart.value))
    ensures var r := TickStep(s.(playlistId := selection), describe, w);
            forall c :: c in r.calls[|s.calls|..] ==> c == FetchChart || c.ChangeDetails?
  {
  }

  /** The JSON file store: a key-value map that holds only strings. */
  class Store {
    var entries: map<string, string>

    constructor (entries: map<string, string>)
      ensures this.entries == entries
    {
      this.entries := entries;
    }

    /** `db.get`: the stored value, or nothing. */
    function Get(key: string): (r: Option<string>)
      reads this
      ensures r.Some? <==> key in entries
      ensures r.Some? ==> r.value == entries[key]
    {
      if key in entries then Some(entries[key]) else None
    }

    /** `db.set`: storing `undefined` leaves the key without a value. */
    method Set(key: string, value: Option<string>)
      modifies this
      ensures entries == if value.Some? then old(entries)[key := value.value] else old(entries) - {key}
      ensures Get(key) == value
      ensures forall k :: k != key ==> Get(k) == old(Get(k))
    {
      if value.Some? {
        entries := entries[key := value.value];
      } else {
        entries := entries - {key};
      }
    }
  }

  /** The handler the application starts with: ten minutes, the template above, the stored selection. */
  method CreateHandler(db: Store) returns (h: SpotifyHandler)
    ensures fresh(h) && h.Valid()
    ensures h.Snapshot() == Initial(UpdateInterval, db.Get(PlaylistKey))
    ensures h.description == Description && h.updateInterval == UpdateInterval
  {
    h := new SpotifyHandler(UpdateInterval, Description, db.Get(PlaylistKey));
  }

  /** `PUT /pl-id`: toggle against the stored id, give the handler and the store the result, then tick once. */
  method SelectPlaylist(h: SpotifyHandler, db: Store, requested: string, w: World)
    requires h.Valid()
    modifies h, db
    ensures h.Valid()
    ensures var selection := Toggle(old(db.Get(PlaylistKey)), requested);
            db.Get(PlaylistKey) == selection &&
            (forall k :: k != PlaylistKey ==> db.Get(k) == old(db.Get(k))) &&
            h.Snapshot() == TickStep(old(h.Snapshot()).(playlistId := selection), h.description, w)
  {
    var current := db.Get(PlaylistKey);
    var selection := Toggle(current, requested);
    h.playlistId := selection;
    db.Set(PlaylistKey, selection);
    h.Loop(w);
  }
}
