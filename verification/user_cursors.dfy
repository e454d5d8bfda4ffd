/**
 * The overlay of other users' cursors: cursors not reported for 5000 ms or
 * more are hidden, and each remaining cursor is drawn as a marker keyed by
 * its socket id, coloured by its position in the list of remaining cursors.
 */
module UserCursors {
  import opened Common

  /** The eight marker colours, used in turn. */
  const CursorColours: seq<Colour> :=
    ["#ff0000", "#00ff00", "#0000ff", "#ff00ff", "#00ffff", "#ffa500", "#800080", "#008000"]

  /** Milliseconds after which a cursor is no longer shown. */
  const StaleAfter := 5000

  /** A remote cursor: its canvas position and when it was last reported, in milliseconds. */
  datatype Cursor = Cursor(x: int, y: int, lastSeen: int)

  /** The entries of the cursor map, in the map's own order. */
  type Entries = seq<(SocketId, Cursor)>

  /** A marker on the overlay. */
  datatype Marker = Marker(key: SocketId, x: int, y: int, colour: Colour)

  predicate Fresh(c: Cursor, now: int)
  {
    now - c.lastSeen < StaleAfter
  }

  /** `a` is `b` with some entries dropped and the rest kept in order. */
  predicate IsSubsequence(a: Entries, b: Entries)
    decreases |b|
  {
    if a == [] then true
    else if b == [] then false
    else (a[0] == b[0] && IsSubsequence(a[1..], b[1..])) || IsSubsequence(a, b[1..])
  }

  predicate DistinctKeys(entries: Entries)
  {
    forall i, j :: 0 <= i < j < |entries| ==> entries[i].0 != entries[j].0
  }

  /**
   * The staleness filter. The entries of a map have distinct keys, and so
   * have the entries it keeps; with distinct keys, each kept entry appears once.
   */
  function Filter(entries: Entries, now: int): (kept: Entries)
    ensures forall e :: e in kept <==> e in entries && Fresh(e.1, now)
    ensures IsSubsequence(kept, entries)
    ensures DistinctKeys(entries) ==> DistinctKeys(kept)
    decreases |entries|
  {
    if entries == [] then []
    else if Fresh(entries[0].1, now) then [entries[0]] + Filter(entries[1..], now)
    else Filter(entries[1..], now)
  }

  /** The cursors shown at time `now`; a null or undefined map shows none. */
  function Visible(remoteCursors: Option<Entries>, now: int): Entries
  {
    Filter(if remoteCursors.Some? then remoteCursors.value else [], now)
  }

  /** One marker per cursor, the i-th in colour `i % 8` of the palette. */
  function Markers(cursors: Entries): (markers: seq<Marker>)
    ensures |markers| == |cursors|
    ensures forall i :: 0 <= i < |cursors| ==>
      markers[i] == Marker(cursors[i].0, cursors[i].1.x, cursors[i].1.y, CursorColours[i % |CursorColours|])
  {
    seq(|cursors|, i requires 0 <= i < |cursors| =>
      Marker(cursors[i].0, cursors[i].1.x, cursors[i].1.y, CursorColours[i % |CursorColours|]))
  }

  /** What the overlay shows at time `now`. */
  function Render(remoteCursors: Option<Entries>, now: int): seq<Marker>
  {
    Markers(Visible(remoteCursors, now))
  }

  /** A subsequence of a list whose keys are distinct has distinct keys too. */
  lemma {:induction false} SubsequenceKeepsDistinct(a: Entries, b: Entries)
    requires IsSubsequence(a, b) && DistinctKeys(b)
    ensures DistinctKeys(a)
    decreases |b|
  {
    if a != [] && b != [] {
      if a[0] == b[0] && IsSubsequence(a[1..], b[1..]) {
        SubsequenceKeepsDistinct(a[1..], b[1..]);
        SubsequenceElements(a[1..], b[1..]);
        forall j | 0 < j < |a|
          ensures a[0].0 != a[j].0
        {
          assert a[j] == a[1..][j - 1];
          var k :| 0 <= k < |b[1..]| && b[1..][k] == a[j];
          assert b[k + 1] == a[j];
        }
      } else {
        SubsequenceKeepsDistinct(a, b[1..]);
      }
    }
  }

  lemma {:induction false} SubsequenceElements(a: Entries, b: Entries)
    requires IsSubsequence(a, b)
    ensures forall j :: 0 <= j < |a| ==> exists k :: 0 <= k < |b| && b[k] == a[j]
    decreases |b|
  {
    if a != [] && b != [] {
      if a[0] == b[0] && IsSubsequence(a[1..], b[1..]) {
        SubsequenceElements(a[1..], b[1..]);
        forall j | 0 < j < |a|
          ensures exists k :: 0 <= k < |b| && b[k] == a[j]
        {
          assert a[j] == a[1..][j - 1];
          var k :| 0 <= k < |b[1..]| && b[1..][k] == a[j];
          assert b[k + 1] == a[j];
        }
        assert b[0] == a[0];
      } else {
        SubsequenceElements(a, b[1..]);
        forall j | 0 <= j < |a|
          ensures exists k :: 0 <= k < |b| && b[k] == a[j]
        {
          var k :| 0 <= k < |b[1..]| && b[1..][k] == a[j];
          assert b[k + 1] == a[j];
        }
      }
    }
  }

  /**
   * The overlay shows exactly the fresh cursors, each under its own socket id
   * and at its own position, in the map's order, one marker per socket id.
   */
  lemma RenderShowsFreshCursors(entries: Entries, now: int)
    requires DistinctKeys(entries)
    ensures var markers := Render(Some(entries), now);
      var shown := Visible(Some(entries), now);
      && |markers| == |shown|
      && IsSubsequence(shown, entries)
      && (forall e :: e in shown <==> e in entries && Fresh(e.1, now))
      && (forall i, j :: 0 <= i < j < |markers| ==> markers[i].key != markers[j].key)
  {
    SubsequenceKeepsDistinct(Visible(Some(entries), now), entries);
  }

  /** Every shown marker, the last one and a lone one included, has a colour from the palette. */
  lemma ShownColoursArePalette(remoteCursors: Option<Entries>, now: int)
    ensures forall k :: 0 <= k < |Render(remoteCursors, now)| ==> Render(remoteCursors, now)[k].colour in CursorColours
  {
  }

  /**
   * Colours are chosen by position among the cursors shown: two shown
   * cursors that are fewer than eight places apart never share a colour.
   */
  lemma PaletteByPosition(remoteCursors: Option<Entries>, now: int, i: nat, j: nat)
    requires i < j < |Render(remoteCursors, now)|
    ensures Render(remoteCursors, now)[i].colour in CursorColours
    ensures j - i < |CursorColours| ==> Render(remoteCursors, now)[i].colour != Render(remoteCursors, now)[j].colour
  {
    MarkerColoursByPosition(Visible(remoteCursors, now), i, j);
  }

  lemma MarkerColoursByPosition(cursors: Entries, i: nat, j: nat)
    requires i < j < |cursors|
    ensures Markers(cursors)[i].colour in CursorColours
    ensures j - i < |CursorColours| ==> Markers(cursors)[i].colour != Markers(cursors)[j].colour
  {
    if j - i < 8 {
      PositionsApartByLessThanEight(i, j);
      PaletteIsDistinct(i % 8, j % 8);
    }
  }

  lemma PaletteIsDistinct(a: nat, b: nat)
    requires a < |CursorColours| && b < |CursorColours| && a != b
    ensures CursorColours[a] != CursorColours[b]
  {
  }

  lemma PositionsApartByLessThanEight(i: nat, j: nat)
    requires i < j < i + 8
    ensures i % 8 != j % 8
  {
  }

  /** A null or undefined cursor map shows no markers. */
  lemma NoMapNoMarkers(now: int)
    ensures Render(None, now) == []
  {
  }

  /** A cursor last seen exactly 5000 ms ago is hidden; one seen 4999 ms ago is shown. */
  lemma StalenessBoundary(s: SocketId, x: int, y: int, now: int)
    ensures Render(Some([(s, Cursor(x, y, now - 5000))]), now) == []
    ensures Render(Some([(s, Cursor(x, y, now - 4999))]), now) == [Marker(s, x, y, CursorColours[0])]
  {
    assert [(s, Cursor(x, y, now - 4999))][1..] == [];
  }

  /** A cursor's colour depends on the cursors before it: when an earlier one goes stale, the later one changes colour. */
  lemma ColourShiftsWhenEarlierExpires(a: SocketId, b: SocketId, now: int)
    ensures var entries := [(a, Cursor(0, 0, now - 4000)), (b, Cursor(0, 0, now))];
      && Render(Some(entries), now)[1] == Marker(b, 0, 0, "#00ff00")
      && Render(Some(entries), now + 1000) == [Marker(b, 0, 0, "#ff0000")]
  {
    var entries := [(a, Cursor(0, 0, now - 4000)), (b, Cursor(0, 0, now))];
    var rest := [(b, Cursor(0, 0, now))];
    assert entries[1..] == rest && rest[1..] == [];
    assert Filter(rest, now) == rest && Filter(rest, now + 1000) == rest;
    assert Visible(Some(entries), now) == entries;
    assert Visible(Some(entries), now + 1000) == rest;
    assert 1 % |CursorColours| == 1;
  }
}
