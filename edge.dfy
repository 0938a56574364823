/**
 * The road slot of the board: an Edge with coordinates X and Y and an optional
 * owning player, claimed at most once (the behaviour Tests/edgeTests.py pins down).
 */
module Edges {
  import opened Wrappers
  import opened Decimal

  /** What `build` reports; the source raises an exception where this says AlreadyBuilt. */
  datatype BuildResult = Built | AlreadyBuilt

  /** The string form of an edge at (x, y) owned by `player`: `Unoccupied (x, y)` or `R<p> (x, y)`. */
  function EdgeString(x: int, y: int, player: Option<int>): string {
    OwnerTag(player) + " (" + IntToString(x) + ", " + IntToString(y) + ")"
  }

  function OwnerTag(player: Option<int>): string {
    match player
    case None => "Unoccupied"
    case Some(p) => "R" + IntToString(p)
  }

  /** Position of the first `c` in `s`, or |s| when there is none. */
  function IndexOf(s: string, c: char): (k: nat)
    ensures k <= |s|
    ensures k < |s| ==> s[k] == c
    ensures forall j :: 0 <= j < k ==> s[j] != c
  {
    if s == [] then 0 else if s[0] == c then 0 else 1 + IndexOf(s[1..], c)
  }

  function ParseOwnerTag(s: string): Option<Option<int>> {
    if s == "Unoccupied" then Some(None)
    else if |s| > 0 && s[0] == 'R' then
      match ParseInt(s[1..])
      case Some(p) => Some(Some(p))
      case None => None
    else None
  }

  /** Reads `(x, y)`. */
  function ParseCoordinates(s: string): Option<(int, int)> {
    if |s| < 2 || s[0] != '(' || s[|s| - 1] != ')' then None
    else
      var inner := s[1..|s| - 1];
      var comma := IndexOf(inner, ',');
      if comma + 1 >= |inner| || inner[comma + 1] != ' ' then None
      else
        match (ParseInt(inner[..comma]), ParseInt(inner[comma + 2..]))
        case (Some(x), Some(y)) => Some((x, y))
        case _ => None
  }

  /** Reads an edge's string form back into its X, Y and player; None on anything malformed. */
  function ParseEdgeString(s: string): Option<(int, int, Option<int>)> {
    var space := IndexOf(s, ' ');
    if space == |s| then None
    else
      match (ParseOwnerTag(s[..space]), ParseCoordinates(s[space + 1..]))
      case (Some(p), Some((x, y))) => Some((x, y, p))
      case _ => None
  }

  lemma {:induction false} IndexOfAfter(a: string, c: char, b: string)
    requires forall j :: 0 <= j < |a| ==> a[j] != c
    ensures IndexOf(a + [c] + b, c) == |a|
  {
    if a != [] {
      assert (a + [c] + b)[1..] == a[1..] + [c] + b;
      IndexOfAfter(a[1..], c, b);
    }
  }

  lemma ParseOwnerTagOf(player: Option<int>)
    ensures ParseOwnerTag(OwnerTag(player)) == Some(player)
  {
    if player.Some? {
      var s := OwnerTag(player);
      assert s[1..] == IntToString(player.value);
      ParseIntToString(player.value);
    }
  }

  lemma ParseCoordinatesOf(x: int, y: int)
    ensures ParseCoordinates("(" + IntToString(x) + ", " + IntToString(y) + ")") == Some((x, y))
  {
    var xs, ys := IntToString(x), IntToString(y);
    var s := "(" + xs + ", " + ys + ")";
    var inner := s[1..|s| - 1];
    assert inner == xs + [','] + (" " + ys);
    IndexOfAfter(xs, ',', " " + ys);
    assert inner[..|xs|] == xs;
    assert inner[|xs| + 2..] == ys;
    ParseIntToString(x);
    ParseIntToString(y);
  }

  lemma OwnerTagHasNoSpace(player: Option<int>)
    ensures forall j :: 0 <= j < |OwnerTag(player)| ==> OwnerTag(player)[j] != ' '
  {
    if player.Some? {
      var digits := IntToString(player.value);
      assert OwnerTag(player) == ['R'] + digits;
      assert forall j :: 0 < j < |digits| ==> IsDigit(digits[j]) by {
        assert forall j :: 0 <= j < |digits[1..]| ==> IsDigit(digits[1..][j]);
      }
    }
  }

  lemma SplitAtSpace(tag: string, rest: string)
    requires forall j :: 0 <= j < |tag| ==> tag[j] != ' '
    ensures var s := tag + [' '] + rest;
      IndexOf(s, ' ') == |tag| && s[..|tag|] == tag && s[|tag| + 1..] == rest
  {
    IndexOfAfter(tag, ' ', rest);
  }

  /** The string form names the coordinates and the owner: it can be read back. */
  lemma EdgeStringRoundTrip(x: int, y: int, player: Option<int>)
    ensures ParseEdgeString(EdgeString(x, y, player)) == Some((x, y, player))
  {
    var tag := OwnerTag(player);
    var coords := "(" + IntToString(x) + ", " + IntToString(y) + ")";
    assert EdgeString(x, y, player) == tag + [' '] + coords;
    OwnerTagHasNoSpace(player);
    SplitAtSpace(tag, coords);
    ParseOwnerTagOf(player);
    ParseCoordinatesOf(x, y);
  }

  /** Two edges print alike exactly when their coordinates and owner agree. */
  lemma EdgeStringInjective(x: int, y: int, p: Option<int>, x': int, y': int, p': Option<int>)
    ensures EdgeString(x, y, p) == EdgeString(x', y', p') <==> x == x' && y == y' && p == p'
  {
    EdgeStringRoundTrip(x, y, p);
    EdgeStringRoundTrip(x', y', p');
  }

  lemma OneDigitString(d: nat)
    requires d < 10
    ensures IntToString(d) == ["0123456789"[d]]
  {
  }

  /** The strings testEdgePrint expects. */
  lemma PrintedForms()
    ensures EdgeString(1, 2, None) == "Unoccupied (1, 2)"
    ensures EdgeString(1, 2, Some(5)) == "R5 (1, 2)"
    ensures EdgeString(5, 6, None) == "Unoccupied (5, 6)"
    ensures EdgeString(5, 6, Some(2)) == "R2 (5, 6)"
  {
    OneDigitString(1);
    OneDigitString(2);
    OneDigitString(5);
    OneDigitString(6);
  }

  class Edge {
    var X: int
    var Y: int
    var player: Option<int>

    /** `Edge(x, y)` leaves the edge unowned; `Edge(x, y, p)` gives it owner `p`. */
    constructor (x: int, y: int, player: Option<int> := None)
      ensures X == x && Y == y && this.player == player
    {
      X, Y, this.player := x, y, player;
    }

    /**
     * `isOccupied()`: a road stands on the edge. That is exactly when the
     * string form opens with a player tag instead of `Unoccupied`.
     */
    function IsOccupied(): (r: bool)
      reads this
      ensures r <==> OwnerTag(player) != "Unoccupied"
    {
      assert player.Some? ==> OwnerTag(player)[0] == 'R';
      player.Some?
    }

    /** Claims the edge for `p` when nobody owns it; a second build fails, even by the owner. */
    method Build(p: int) returns (r: BuildResult)
      modifies this`player
      ensures r == Built <==> old(player) == None
      ensures r == Built ==> player == Some(p)
      ensures r == AlreadyBuilt ==> player == old(player)
      ensures X == old(X) && Y == old(Y)
      ensures IsOccupied()
    {
      if player.Some? {
        return AlreadyBuilt;
      }
      player := Some(p);
      return Built;
    }

    /** The `__repr__` of the edge, which determines X, Y and player. */
    function ToString(): (s: string)
      reads this
      ensures ParseEdgeString(s) == Some((X, Y, player))
      ensures s[0] == (if IsOccupied() then 'R' else 'U')
    {
      EdgeStringRoundTrip(X, Y, player);
      EdgeString(X, Y, player)
    }

    /** A new edge with the same fields and no sharing with this one. */
    method DeepCopy() returns (e: Edge)
      ensures fresh(e)
      ensures e.X == X && e.Y == Y && e.player == player
    {
      e := new Edge(X, Y, player);
    }
  }

  /** testEdgeInit: both constructor forms. */
  method EdgeInitScenario() {
    var e1 := new Edge(1, 2);
    assert e1.X == 1 && e1.Y == 2 && e1.player == None;
    e1 := new Edge(1, 2, Some(5));
    assert e1.X == 1 && e1.Y == 2 && e1.player == Some(5);
    e1 := new Edge(3, 4, Some(6));
    assert e1.X == 3 && e1.Y == 4 && e1.player == Some(6);
  }

  /** testEdgePrint: the string form before and after a build. */
  method EdgePrintScenario() {
    PrintedForms();
    var e1 := new Edge(1, 2);
    assert e1.ToString() == "Unoccupied (1, 2)";
    var r := e1.Build(5);
    assert e1.ToString() == "R5 (1, 2)";
    e1 := new Edge(5, 6);
    assert e1.ToString() == "Unoccupied (5, 6)";
    r := e1.Build(2);
    assert e1.ToString() == "R2 (5, 6)";
  }

  /** testEdgeIsOccupied: unowned until built, for the edge at (3, 4) and for the one at (1, 2). */
  method EdgeIsOccupiedScenario() {
    var e1 := new Edge(3, 4);
    assert !e1.IsOccupied();
    var r := e1.Build(2);
    assert e1.IsOccupied();
    e1 := new Edge(1, 2);
    assert !e1.IsOccupied();
    r := e1.Build(5);
    assert e1.IsOccupied();
  }

  /** testEdgeCopy: the copy is another object and later writes to the original do not reach it. */
  method EdgeCopyScenario() {
    var e1 := new Edge(1, 2, Some(4));
    var e2 := e1.DeepCopy();
    assert e1 != e2;
    e1.X := 0;
    assert e2.X != 0;
    e1.Y := 3;
    assert e2.Y != 3;
    e1.player := Some(5);
    assert e2.player != Some(5);
  }

  /** testEdgeBuild: one build succeeds, a repeat by the same or another player fails and changes nothing. */
  method EdgeBuildScenario() {
    var e1 := new Edge(1, 2);
    var r := e1.Build(3);
    assert r == Built && e1.X == 1 && e1.Y == 2 && e1.player == Some(3);
    r := e1.Build(3);
    assert r == AlreadyBuilt && e1.player == Some(3) && e1.X == 1 && e1.Y == 2;
    r := e1.Build(4);
    assert r == AlreadyBuilt && e1.player == Some(3) && e1.X == 1 && e1.Y == 2;
  }
}
