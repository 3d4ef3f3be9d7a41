/** Waiting tiles: recount and Tenpai (internal/game/yaku/mentsu.go). */
module Tenpai {
  import opened Tiles
  import opened Search
  import opened Analysis

  function Copies(t: Tile, n: nat): seq<Tile>
  {
    if n == 0 then [] else Copies(t, n - 1) + [t]
  }

  // One tile per count, lowest kinds first.
  function Recounted(c: Counts, n: nat := KINDS): seq<Tile>
    requires n <= KINDS
  {
    if n == 0 then [] else Recounted(c, n - 1) + Copies(TileAt(n - 1), c[n - 1])
  }

  method Recount(c: Counts) returns (out: seq<Tile>)
    ensures out == Recounted(c)
  {
    out := [];
    for i := 0 to KINDS
      invariant out == Recounted(c, i)
    {
      for j := 0 to c[i]
        invariant out == Recounted(c, i) + Copies(TileAt(i), j)
      {
        out := out + [TileAt(i)];
      }
    }
  }

  lemma {:induction false} HeldCopies(i: nat, n: nat, k: nat)
    requires i < KINDS
    ensures AllCountable(Copies(TileAt(i), n)) && Held(Copies(TileAt(i), n), k) == if k == i then n else 0
  {
    IndexOfTileAt(i);
    if n > 0 {
      HeldCopies(i, n - 1, k);
      assert Copies(TileAt(i), n)[..n - 1] == Copies(TileAt(i), n - 1) by { CopiesLength(TileAt(i), n - 1); }
      CopiesLength(TileAt(i), n);
    }
  }

  lemma {:induction false} CopiesLength(t: Tile, n: nat)
    ensures |Copies(t, n)| == n
  {
    if n > 0 { CopiesLength(t, n - 1); }
  }

  lemma {:induction false} HeldRecounted(c: Counts, n: nat, k: nat)
    requires n <= KINDS && k < KINDS
    ensures AllCountable(Recounted(c, n)) && Held(Recounted(c, n), k) == if k < n then c[k] else 0
  {
    if n > 0 {
      HeldRecounted(c, n - 1, k);
      HeldCopies(n - 1, c[n - 1], k);
      HeldAppend(Recounted(c, n - 1), Copies(TileAt(n - 1), c[n - 1]), k);
    }
  }

  // Counting what recount wrote gives the counts back; its length is their sum.
  lemma RecountRoundTrip(c: Counts)
    ensures AllCountable(Recounted(c)) && Tally(Recounted(c)) == c && |Recounted(c)| == Sum(c)
  {
    forall k | 0 <= k < KINDS
      ensures AllCountable(Recounted(c)) && Held(Recounted(c), k) == c[k]
    {
      HeldRecounted(c, KINDS, k);
    }
    assert Held(Recounted(c), 0) == c[0];
    SumTally(Recounted(c));
  }

  // The counts of a closed fourteen-tile hand win.
  ghost predicate Wins(c: Counts)
  {
    Orphans(c) || AllPairs(c) || Standard(c, 4)
  }

  function Drawn(c: Counts, i: nat): Counts
    requires i < KINDS
  {
    c[i := c[i] + 1]
  }

  // The kinds a closed hand waits for.
  ghost function Waits(hand: seq<Tile>, n: nat := KINDS): set<Tile>
    requires AllCountable(hand) && n <= KINDS
  {
    set i | 0 <= i < n && Tally(hand)[i] < 4 && Wins(Drawn(Tally(hand), i)) :: TileAt(i)
  }

  lemma WaitsNext(hand: seq<Tile>, n: nat)
    requires AllCountable(hand) && n < KINDS
    ensures Waits(hand, n + 1) == Waits(hand, n) +
      if Tally(hand)[n] < 4 && Wins(Drawn(Tally(hand), n)) then {TileAt(n)} else {}
  {
  }

  lemma DrawnWins(hand: seq<Tile>, open: seq<Mentsu>, i: nat)
    requires AllCountable(hand) && |hand| == 13 && i < KINDS
    ensures AllCountable(Recounted(Drawn(Tally(hand), i)))
    ensures Decompositions(Recounted(Drawn(Tally(hand), i)), open) != [] <==> open == [] && Wins(Drawn(Tally(hand), i))
  {
    var c := Drawn(Tally(hand), i);
    RecountRoundTrip(c);
    SumTally(hand);
    SumUpdate(Tally(hand), i, c[i]);
    AnalysisDecidesWinning(Recounted(c), open);
  }

  // Whether the rebuilt hand of the counts with one more tile is a win.
  method TryDraw(ghost hand: seq<Tile>, open: seq<Mentsu>, ghost i: nat, drawn: Counts) returns (wins: bool)
    requires AllCountable(hand) && |hand| == 13 && i < KINDS && drawn == Drawn(Tally(hand), i)
    ensures wins <==> open == [] && Wins(drawn)
  {
    DrawnWins(hand, open, i);
    var full := Recount(drawn);
    var results := Analyze(full, open);
    wins := |results| > 0;
  }

  // Tenpai returns exactly the waits of a closed thirteen-tile hand, and nothing for an open
  // one: it rebuilds fourteen tiles, which Analyze never accepts beside open melds.
  method Tenpai(hand: seq<Tile>, open: seq<Mentsu>) returns (out: set<Tile>)
    requires AllCountable(hand)
    ensures out == if |hand| == 13 && open == [] then Waits(hand) else {}
  {
    out := {};
    if |hand| != 13 { return; }
    var base := CountTiles(hand);
    for i := 0 to KINDS
      invariant base == Tally(hand)
      invariant out == if open == [] then Waits(hand, i) else {}
    {
      WaitsNext(hand, i);
      if base[i] >= 4 { continue; }
      base := base[i := base[i] + 1];
      assert base == Drawn(Tally(hand), i);
      var wins := TryDraw(hand, open, i, base);
      if wins { out := out + {TileAt(i)}; }
      base := base[i := base[i] - 1];
      assert base == Tally(hand);
    }
  }
}
