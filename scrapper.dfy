/**
 * The walk over the chart page's `.single-hit` rows (src/scrapper.ts). The HTTP
 * fetch and the HTML parsing are abstracted away: the page is the sequence of
 * its rows in document order, each reduced to what the walk reads from it.
 */
module Scrapper {
  import opened Strings

  /** One chart entry: the `song` record the walk produces. */
  datatype Song = Song(title: string, artists: string)

  /**
   * One `.single-hit` element: whether it carries the `radio--hook` class, the
   * text of its title child, the text of each artist item of its list, and the
   * text of its position element.
   */
  datatype Row = Row(isHook: bool, title: string, artistItems: seq<string>, position: string)

  /** The position text at which the walk stops. */
  const LastPosition := "20"

  /** The accumulator of the inner walk: each item trimmed and followed by one space. */
  function Accumulated(items: seq<string>): (acc: string)
    ensures |acc| >= |items|
  {
    if items == [] then "" else Accumulated(items[..|items| - 1]) + Trim(items[|items| - 1]) + " "
  }

  /** The artist string of a row: the accumulator, trimmed. */
  function ArtistsOf(items: seq<string>): (artists: string)
    ensures Trimmed(artists)
    ensures items == [] ==> artists == ""
  {
    Trim(Accumulated(items))
  }

  function SongOf(row: Row): (song: Song)
    ensures song.title == row.title
  {
    Song(row.title, ArtistsOf(row.artistItems))
  }

  /**
   * The songs the walk yields: hook rows are skipped, every other row gives one
   * song, and the walk ends right after the first non-hook row at position "20".
   */
  function Chart(rows: seq<Row>): (songs: seq<Song>)
    ensures |songs| <= |rows|
    ensures rows == [] ==> songs == []
  {
    if rows == [] then []
    else if rows[0].isHook then Chart(rows[1..])
    else if rows[0].position == LastPosition then [SongOf(rows[0])]
    else [SongOf(rows[0])] + Chart(rows[1..])
  }

  /** The inner `each` over the artist items, then the final `trim`. */
  method CollectArtists(items: seq<string>) returns (artists: string)
    ensures artists == ArtistsOf(items)
    ensures Trimmed(artists)
  {
    var acc := "";
    for i := 0 to |items|
      invariant acc == Accumulated(items[..i])
    {
      assert items[..i + 1][..i] == items[..i];
      acc := acc + Trim(items[i]) + " ";
    }
    assert items[..|items|] == items;
    artists := Trim(acc);
  }

  /** The outer `each` over the rows, with its early exit. */
  method ScrapeRows(rows: seq<Row>) returns (songs: seq<Song>)
    ensures songs == Chart(rows)
  {
    songs := [];
    var i := 0;
    while i < |rows|
      invariant 0 <= i <= |rows|
      invariant songs + Chart(rows[i..]) == Chart(rows)
    {
      var row := rows[i];
      ChartAt(rows, i);
      if !row.isHook {
        var artists := CollectArtists(row.artistItems);
        assert Song(row.title, artists) == SongOf(row);
        songs := songs + [SongOf(row)];
        if row.position == LastPosition {
          assert Chart(rows[i..]) == [SongOf(row)];
          return;
        }
      }
      i := i + 1;
    }
  }

  /** One step of the walk, seen from row `i`. */
  lemma ChartAt(rows: seq<Row>, i: nat)
    requires i < |rows|
    ensures Chart(rows[i..]) ==
      if rows[i].isHook then Chart(rows[i + 1..])
      else if rows[i].position == LastPosition then [SongOf(rows[i])]
      else [SongOf(rows[i])] + Chart(rows[i + 1..])
  {
    assert rows[i..][0] == rows[i];
    assert rows[i..][1..] == rows[i + 1..];
  }

  // ---------------------------------------------------------------------------
  // An independent reading of the walk: filter out the hooks, cut after the
  // first "20", then turn every remaining row into its song.

  function NonHook(rows: seq<Row>): (kept: seq<Row>)
    ensures |kept| <= |rows|
    ensures forall k :: 0 <= k < |kept| ==> !kept[k].isHook
  {
    if rows == [] then []
    else (if rows[0].isHook then [] else [rows[0]]) + NonHook(rows[1..])
  }

  function ThroughTwenty(rows: seq<Row>): seq<Row>
  {
    if rows == [] then []
    else if rows[0].position == LastPosition then [rows[0]]
    else [rows[0]] + ThroughTwenty(rows[1..])
  }

  function Songs(rows: seq<Row>): (songs: seq<Song>)
    ensures |songs| == |rows|
    ensures forall k :: 0 <= k < |rows| ==> songs[k] == SongOf(rows[k])
  {
    if rows == [] then [] else [SongOf(rows[0])] + Songs(rows[1..])
  }

  /** No non-hook row of `rows` shows position "20". */
  predicate NoTwenty(rows: seq<Row>)
  {
    forall j :: 0 <= j < |rows| ==> rows[j].isHook || rows[j].position != LastPosition
  }

  lemma {:induction false} ChartIsTruncatedFilter(rows: seq<Row>)
    ensures Chart(rows) == Songs(ThroughTwenty(NonHook(rows)))
    decreases |rows|
  {
    if rows != [] {
      ChartIsTruncatedFilter(rows[1..]);
      var rest := NonHook(rows[1..]);
      if rows[0].isHook {
        assert NonHook(rows) == [] + rest == rest;
      } else {
        assert NonHook(rows) == [rows[0]] + rest;
        assert ([rows[0]] + rest)[0] == rows[0] && ([rows[0]] + rest)[1..] == rest;
        if rows[0].position == LastPosition {
          assert [rows[0]][1..] == [];
        } else {
          var t := ThroughTwenty(rest);
          assert ([rows[0]] + t)[0] == rows[0] && ([rows[0]] + t)[1..] == t;
        }
      }
    }
  }

  /** A hook row, wherever it is inserted, changes nothing: not even at position "20". */
  lemma {:induction false} ChartSkipsHook(rows: seq<Row>, i: nat, hook: Row)
    requires i <= |rows| && hook.isHook
    ensures Chart(rows[..i] + [hook] + rows[i..]) == Chart(rows)
    decreases i
  {
    var r := rows[..i] + [hook] + rows[i..];
    if i == 0 {
      assert r[1..] == rows;
    } else {
      ChartSkipsHook(rows[1..], i - 1, hook);
      assert r[0] == rows[0];
      assert r[1..] == rows[1..][..i - 1] + [hook] + rows[1..][i - 1..];
    }
  }

  /** Without a "20" sentinel the walk keeps exactly the non-hook rows, in order. */
  lemma {:induction false} ChartKeepsAllWithoutTwenty(rows: seq<Row>)
    requires NoTwenty(rows)
    ensures Chart(rows) == Songs(NonHook(rows))
    ensures |Chart(rows)| == |NonHook(rows)|
    decreases |rows|
  {
    if rows != [] {
      assert NoTwenty(rows[1..]) by {
        forall j | 0 <= j < |rows[1..]| ensures rows[1..][j].isHook || rows[1..][j].position != LastPosition {
          assert rows[1..][j] == rows[j + 1];
        }
      }
      ChartKeepsAllWithoutTwenty(rows[1..]);
      if !rows[0].isHook {
        assert NonHook(rows) == [rows[0]] + NonHook(rows[1..]);
      }
    }
  }

  /**
   * The first non-hook row at position "20" ends the walk: its song is the last
   * one, every non-hook row before it gives a song, and nothing after it is
   * looked at.
   */
  lemma {:induction false} ChartStopsAtTwenty(before: seq<Row>, row: Row, after: seq<Row>)
    requires !row.isHook && row.position == LastPosition
    requires NoTwenty(before)
    ensures Chart(before + [row] + after) == Songs(NonHook(before)) + [SongOf(row)]
    decreases |before|
  {
    var rows := before + [row] + after;
    if before == [] {
      assert rows[0] == row;
    } else {
      var first := before[0];
      assert rows[0] == first;
      assert rows[1..] == before[1..] + [row] + after;
      assert NoTwenty(before[1..]) by {
        forall j | 0 <= j < |before| - 1
          ensures before[1..][j].isHook || before[1..][j].position != LastPosition
        {
          assert before[1..][j] == before[j + 1];
        }
      }
      ChartStopsAtTwenty(before[1..], row, after);
      var rest := NonHook(before[1..]);
      if first.isHook {
        assert NonHook(before) == [] + rest == rest;
      } else {
        assert first.position != LastPosition;
        assert NonHook(before) == [first] + rest;
        assert ([first] + rest)[0] == first && ([first] + rest)[1..] == rest;
      }
    }
  }

  // ---------------------------------------------------------------------------
  // The artist string against a plain space-join of the trimmed items.

  function TrimAll(items: seq<string>): (parts: seq<string>)
    ensures |parts| == |items|
    ensures forall k :: 0 <= k < |items| ==> parts[k] == Trim(items[k])
  {
    if items == [] then [] else TrimAll(items[..|items| - 1]) + [Trim(items[|items| - 1])]
  }

  /** The parts separated by single spaces. */
  function JoinSpace(parts: seq<string>): string
  {
    if parts == [] then ""
    else if |parts| == 1 then parts[0]
    else JoinSpace(parts[..|parts| - 1]) + " " + parts[|parts| - 1]
  }

  lemma {:induction false} AccumulatedIsJoined(items: seq<string>)
    requires items != []
    ensures Accumulated(items) == JoinSpace(TrimAll(items)) + " "
    decreases |items|
  {
    if |items| > 1 {
      var init := items[..|items| - 1];
      AccumulatedIsJoined(init);
      assert TrimAll(items)[..|items| - 1] == TrimAll(init);
    } else {
      assert items[..0] == [];
    }
  }

  lemma {:induction false} JoinSpaceTrimmed(parts: seq<string>)
    requires parts != []
    requires forall k :: 0 <= k < |parts| ==> parts[k] != "" && Trimmed(parts[k])
    ensures JoinSpace(parts) != [] && Trimmed(JoinSpace(parts))
    ensures JoinSpace(parts)[0] == parts[0][0]
    decreases |parts|
  {
    if |parts| > 1 {
      var init := parts[..|parts| - 1];
      JoinSpaceTrimmed(init);
      var j := JoinSpace(parts);
      assert j == JoinSpace(init) + " " + parts[|parts| - 1];
      assert j[0] == JoinSpace(init)[0];
      assert j[|j| - 1] == parts[|parts| - 1][|parts[|parts| - 1]| - 1];
    }
  }

  /**
   * The artist string is the trimmed items joined by single spaces, trimmed at
   * the ends; when no item is blank, it is exactly that join.
   */
  lemma ArtistsAreJoined(items: seq<string>)
    ensures ArtistsOf(items) == Trim(JoinSpace(TrimAll(items)))
    ensures (forall k :: 0 <= k < |items| ==> Trim(items[k]) != "") ==>
              ArtistsOf(items) == JoinSpace(TrimAll(items))
  {
    if items != [] {
      AccumulatedIsJoined(items);
      TrimDropsTrailingSpace(JoinSpace(TrimAll(items)), ' ');
      if forall k :: 0 <= k < |items| ==> Trim(items[k]) != "" {
        JoinSpaceTrimmed(TrimAll(items));
      }
    }
  }
}
