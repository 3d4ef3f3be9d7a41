/** Who gets a discarded tile: the seat asked first that can and wants to (internal/game/loop.go). */
module Calls {
  import opened Basics
  import opened Tiles
  import opened Table
  import opened WinCheck
  import opened TurnSpec

  // The seat d places after the discarder.
  function Away(s: State, from: nat, d: nat): (k: nat)
    requires s.Valid()
    ensures k < |s.seats|
  {
    (from + d) % |s.seats|
  }

  // How many places after the discarder a seat sits.
  function Distance(s: State, from: nat, k: nat): nat
    requires from < |s.seats| && k < |s.seats|
  {
    if k >= from then k - from else k + |s.seats| - from
  }

  // Past the last seat comes the first.
  lemma Around(x: nat, n: nat)
    requires x < 2 * n
    ensures x % n == if x < n then x else x - n
  {
  }

  lemma AskedIsAway(s: State, from: nat, d: nat)
    requires s.Valid() && from < |s.seats| && 1 <= d < |s.seats|
    ensures Asked(s, After(s, from), d) == Away(s, from, d) == if from + d < |s.seats| then from + d else from + d - |s.seats|
    ensures Away(s, from, d) != from && Distance(s, from, Away(s, from, d)) == d
  {
    Around(from + 1, |s.seats|);
    Around(from + d, |s.seats|);
    Around(After(s, from) + d - 1, |s.seats|);
  }

  lemma AwayOfDistance(s: State, from: nat, k: nat)
    requires s.Valid() && from < |s.seats| && k < |s.seats| && k != from
    ensures 1 <= Distance(s, from, k) < |s.seats| && Away(s, from, Distance(s, from, k)) == k
  {
    AskedIsAway(s, from, Distance(s, from, k));
  }

  // ---------- Winning on the tile ----------

  // Checking this seat ends the first pass: a bot wins, or the check itself panics. A seat in
  // riichi is passed over, whatever it holds.
  predicate Stops(s: State, bots: set<nat>, vs: seq<Verdict>, k: nat)
    requires k < |s.seats| == |vs|
  {
    !s.seats[k].riichi && (vs[k].Crash? || (k in bots && vs[k].Wins?))
  }

  function RonOf(s: State, vs: seq<Verdict>, from: nat, k: nat): Step
    requires s.Valid() && from < |s.seats| && k < |s.seats| == |vs| && !vs[k].NoWin?
  {
    if vs[k].Crash? then Halt(s, Crashed)
    else Next(RonStep(EndStep(s, k), k, from, WinOf(k, false, vs[k], from)), k)
  }

  lemma RonEnds(s: State, vs: seq<Verdict>, from: nat, k: nat)
    requires s.Valid() && from < |s.seats| && k < |s.seats| == |vs| && vs[k].Wins?
    ensures var r := RonOf(s, vs, from, k);
      r.Next? && r.seat == k && r.state.winner == k && r.state.phase.Ended? && r.state.seats == s.seats
  {
  }

  lemma {:induction false} RonFrom(s: State, bots: set<nat>, vs: seq<Verdict>, from: nat, i: nat) returns (d: nat)
    requires s.Valid() && |vs| == |s.seats| && 1 <= i <= |s.seats| && from < |s.seats|
    ensures i <= d <= |s.seats| && forall e | i <= e < d :: !Stops(s, bots, vs, Away(s, from, e))
    ensures var ron := RonPass(s, bots, vs, from, After(s, from), i);
      if d == |s.seats| then ron == None
      else Stops(s, bots, vs, Away(s, from, d)) && ron == Some(RonOf(s, vs, from, Away(s, from, d)))
    decreases |s.seats| - i
  {
    d := i;
    if i < |s.seats| {
      AskedIsAway(s, from, i);
      if !Stops(s, bots, vs, Away(s, from, i)) {
        d := RonFrom(s, bots, vs, from, i + 1);
      }
    }
  }

  // ---------- Claiming the tile ----------

  // What the engine offers is exactly what it accepts of pon and kan from a seat without riichi.
  lemma OfferedExactly(s: State, k: nat, claimed: Tile, m: Meld)
    requires s.Valid() && k < |s.seats|
    ensures m in CandidatesOf(s.seats[k], claimed) <==>
      && !s.seats[k].riichi && m.kind in {Pon, Daiminkan} && m == MeldOf(m.kind, claimed)
      && CallStep(s, k, m).1.Done?
  {
  }

  // A bot that asks for a set and holds the rest of it.
  predicate Claims(s: State, bots: set<nat>, claimed: Tile, calls: map<nat, MeldType>, k: nat)
    requires k < |s.seats|
  {
    k in bots && k in calls && !s.seats[k].riichi && CopiesIn(s.seats[k].hand, claimed) >= |MeldOf(calls[k], claimed).tiles| - 1
  }

  lemma ClaimAccepted(s: State, bots: set<nat>, claimed: Tile, calls: map<nat, MeldType>, k: nat)
    requires s.Valid() && k < |s.seats|
    ensures Claims(s, bots, claimed, calls, k) <==>
      && CandidatesOf(s.seats[k], claimed) != [] && k in bots && k in calls
      && CallStep(s, k, MeldOf(calls[k], claimed)).1.Done?
  {
  }

  lemma {:induction false} ClaimFrom(s: State, bots: set<nat>, claimed: Tile, from: nat, i: nat, calls: map<nat, MeldType>)
    returns (d: nat)
    requires s.Valid() && 1 <= i <= |s.seats| && from < |s.seats|
    ensures i <= d <= |s.seats| && forall e | i <= e < d :: !Claims(s, bots, claimed, calls, Away(s, from, e))
    ensures var r := CallPass(s, bots, claimed, After(s, from), i, calls);
      if d == |s.seats| then r == Next(s, After(s, from))
      else var k := Away(s, from, d);
        Claims(s, bots, claimed, calls, k) && r == Next(CallStep(s, k, MeldOf(calls[k], claimed)).0, k)
    decreases |s.seats| - i
  {
    d := i;
    if i < |s.seats| {
      AskedIsAway(s, from, i);
      ClaimAccepted(s, bots, claimed, calls, Away(s, from, i));
      if !Claims(s, bots, claimed, calls, Away(s, from, i)) {
        d := ClaimFrom(s, bots, claimed, from, i + 1, calls);
      }
    }
  }

  // The turn moves the engine's seat exactly when some other bot claims.
  lemma ClaimedExists(s: State, bots: set<nat>, claimed: Tile, from: nat, calls: map<nat, MeldType>)
    requires s.Valid() && from < |s.seats|
    ensures var r := CallPass(s, bots, claimed, After(s, from), 1, calls);
      if exists k :: 0 <= k < |s.seats| && k != from && Claims(s, bots, claimed, calls, k) then r.seat == r.state.current
      else r == Next(s, After(s, from))
  {
    var d := ClaimFrom(s, bots, claimed, from, 1, calls);
    if exists k :: 0 <= k < |s.seats| && k != from && Claims(s, bots, claimed, calls, k) {
      var k :| 0 <= k < |s.seats| && k != from && Claims(s, bots, claimed, calls, k);
      AwayOfDistance(s, from, k);
    }
    if d < |s.seats| {
      AskedIsAway(s, from, d);
    }
  }

  // ---------- Who gets it ----------

  // The first pass goes to the nearest seat after the discarder that it stops at, among all
  // other seats, and comes to nothing exactly when there is no such seat.
  lemma NearestWins(s: State, bots: set<nat>, vs: seq<Verdict>, from: nat)
    requires s.Valid() && |vs| == |s.seats| && from < |s.seats|
    ensures var ron := RonPass(s, bots, vs, from, After(s, from), 1);
      && (ron.None? <==> forall j | 0 <= j < |s.seats| && j != from :: !Stops(s, bots, vs, j))
      && forall k | 0 <= k < |s.seats| && k != from && Stops(s, bots, vs, k) ::
        (forall j | 0 <= j < |s.seats| && j != from && Stops(s, bots, vs, j) :: Distance(s, from, k) <= Distance(s, from, j))
        ==> ron == Some(RonOf(s, vs, from, k))
  {
    var d := RonFrom(s, bots, vs, from, 1);
    forall j | 0 <= j < |s.seats| && j != from && Stops(s, bots, vs, j)
      ensures d < |s.seats| && d <= Distance(s, from, j)
    {
      AwayOfDistance(s, from, j);
    }
    if d < |s.seats| {
      AskedIsAway(s, from, d);
      forall k | 0 <= k < |s.seats| && k != from && Distance(s, from, k) == d
        ensures k == Away(s, from, d)
      {
        AwayOfDistance(s, from, k);
      }
    }
  }

  // Winning comes before claiming; among claims the nearest seat's goes first, and the turn
  // passes to the next seat exactly when nobody wins or claims.
  lemma NearestClaims(s: State, bots: set<nat>, claimed: Tile, from: nat, turn: Turn, k: nat)
    requires s.Valid() && from < |s.seats| && k < |s.seats| && k != from
    requires forall j | 0 <= j < |s.seats| && j != from :: !Stops(s, bots, Verdicts(s, claimed), j)
    ensures var r := Claimed(s, bots, claimed, from, After(s, from), turn);
      && (r == Next(s, After(s, from)) <==> forall j | 0 <= j < |s.seats| && j != from :: !Claims(s, bots, claimed, turn.calls, j))
      && (Claims(s, bots, claimed, turn.calls, k)
          && (forall j | 0 <= j < |s.seats| && j != from && Claims(s, bots, claimed, turn.calls, j) ::
              Distance(s, from, k) <= Distance(s, from, j))
          ==> r == Next(CallStep(s, k, MeldOf(turn.calls[k], claimed)).0, k))
  {
    NearestWins(s, bots, Verdicts(s, claimed), from);
    CallToNearest(s, bots, claimed, from, turn.calls, k);
  }

  lemma CallToNearest(s: State, bots: set<nat>, claimed: Tile, from: nat, calls: map<nat, MeldType>, k: nat)
    requires s.Valid() && from < |s.seats| && k < |s.seats| && k != from
    ensures var r := CallPass(s, bots, claimed, After(s, from), 1, calls);
      && (r == Next(s, After(s, from)) <==> forall j | 0 <= j < |s.seats| && j != from :: !Claims(s, bots, claimed, calls, j))
      && (Claims(s, bots, claimed, calls, k)
          && (forall j | 0 <= j < |s.seats| && j != from && Claims(s, bots, claimed, calls, j) :: Distance(s, from, k) <= Distance(s, from, j))
          ==> r == Next(CallStep(s, k, MeldOf(calls[k], claimed)).0, k))
  {
    var d := ClaimFrom(s, bots, claimed, from, 1, calls);
    forall j | 0 <= j < |s.seats| && j != from && Claims(s, bots, claimed, calls, j)
      ensures d < |s.seats| && d <= Distance(s, from, j)
    {
      AwayOfDistance(s, from, j);
    }
    if d < |s.seats| {
      AskedIsAway(s, from, d);
      AwayOfDistance(s, from, k);
      CallChanges(s, Away(s, from, d), MeldOf(calls[Away(s, from, d)], claimed));
    }
  }

  lemma CallChanges(s: State, k: nat, m: Meld)
    requires s.Valid() && k < |s.seats| && CallStep(s, k, m).1.Done?
    ensures CallStep(s, k, m).0 != s
  {
    assert |CallStep(s, k, m).0.seats[k].melds| == |s.seats[k].melds| + 1;
  }
}
