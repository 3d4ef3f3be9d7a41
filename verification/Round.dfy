/** The engine's round: fields updated in place, one method per step (internal/game/engine/round.go). */
module Round {
  import opened Tiles
  import opened Score
  import opened Table
  import opened Dora

  class Round {
    const dealer: nat
    const extra: Tile
    const dora: seq<Indicator>
    var seats: seq<Seat>
    var scores: seq<int>
    var sticks: nat
    var winner: int
    var wall: seq<Tile>
    var current: nat
    var phase: Phase
    var doubleRiichi: seq<bool>

    // The round as a value.
    ghost function State(): State
      reads this
    {
      Table.State(dealer, extra, seats, scores, sticks, winner, wall, current, phase, doubleRiichi, dora)
    }

    ghost predicate Valid()
      reads this
    {
      State().Valid()
    }

    // The seat count and the wall's hands bound every index the constructor touches.
    constructor (n: nat, initialScore: int, kyoku: nat, w: Wall)
      requires 0 < n <= |w.hands|
      ensures Valid() && State() == NewState(n, initialScore, kyoku, w)
    {
      var init := initialScore;
      if init == 0 { init := 25000; }
      dealer := kyoku % n;
      extra := w.extra;
      sticks, winner, phase := 0, -1, Dealing;
      var shown: seq<Indicator> := [];
      for i := 0 to MAX_DORA
        invariant shown == Indicators(w.dead, i)
      {
        var t := IndicatorAt(w.dead, i);
        if t != "" { shown := shown + [t]; }
      }
      dora := shown;
      wall := w.stack;
      current := kyoku % n;
      doubleRiichi := seq(n, _ => false);
      var players: seq<Seat> := [];
      var points: seq<int> := [];
      for i := 0 to n
        invariant |players| == |points| == i
        invariant forall k | 0 <= k < i :: players[k] == Seat(w.hands[k], [], false, []) && points[k] == init
      {
        players := players + [Seat(w.hands[i], [], false, [])];
        points := points + [init];
      }
      seats, scores := players, points;
    }

    method LeftWall() returns (n: nat)
      ensures n == |wall|
    {
      n := |wall|;
    }

    // The active seat, -1 once the round has ended.
    method Current() returns (seat: int)
      ensures seat == if phase.Ended? then -1 else current
    {
      if phase.Ended? { return -1; }
      return current;
    }

    method Start() returns (t: Tile, status: Status)
      requires Valid()
      modifies this
      ensures (State(), status) == StartStep(old(State()))
      ensures status.Done? ==> t == extra
    {
      if !phase.Dealing? { return "", Failed(NotTurn); }
      seats := seats[dealer := seats[dealer].(hand := seats[dealer].hand + [extra])];
      phase := Playing;
      current := dealer;
      return extra, Done;
    }

    method Draw() returns (t: Tile, status: Status)
      requires Valid()
      modifies this
      ensures (State(), status) == DrawStep(old(State()))
      ensures status.Done? ==> [t] + wall == old(wall)
    {
      if |wall| == 0 { return "", Failed(NoTiles); }
      t := wall[0];
      wall := wall[1..];
      seats := seats[current := seats[current].(hand := seats[current].hand + [t])];
      return t, Done;
    }

    method End(seat: int)
      modifies this
      ensures State() == EndStep(old(State()), seat)
    {
      winner := seat;
      phase := Ended;
    }

    method Discard(t: Tile) returns (status: Status)
      requires Valid()
      modifies this
      ensures (State(), status) == DiscardStep(old(State()), t)
    {
      if !phase.Playing? { return Failed(NotTurn); }
      var p := seats[current];
      var idx := IndexOf(p.hand, t);
      if idx < 0 { return Failed(InvalidDiscard); }
      CutIsRemoval(p.hand, t, idx);
      seats := seats[current := p.(hand := p.hand[..idx] + p.hand[idx + 1..], discards := p.discards + [t])];
      current := (current + 1) % |seats|;
      return Done;
    }

    method DeclareRiichi(t: Tile) returns (status: Status)
      requires Valid()
      modifies this
      ensures (State(), status) == RiichiStep(old(State()), t)
    {
      var p := seats[current];
      if |p.melds| != 0 { return Failed(InvalidRiichi); }
      var idx := IndexOf(p.hand, t);
      if idx < 0 { return Failed(InvalidDiscard); }
      var any := HasMeld();
      if |p.discards| == 0 && !any {
        doubleRiichi := doubleRiichi[current := true];
      }
      CutIsRemoval(p.hand, t, idx);
      seats := seats[current := p.(riichi := true, hand := p.hand[..idx] + p.hand[idx + 1..], discards := p.discards + [t])];
      sticks := sticks + 1;
      scores := scores[current := scores[current] - 1000];
      current := (current + 1) % |seats|;
      return Done;
    }

    method HasMeld() returns (any: bool)
      ensures any <==> AnyMeld(State())
    {
      for i := 0 to |seats|
        invariant forall k | 0 <= k < i :: seats[k].melds == []
      {
        if |seats[i].melds| > 0 { return true; }
      }
      return false;
    }

    method Candidates(seat: nat, claimed: Tile) returns (out: seq<Meld>)
      requires Valid() && seat < |seats|
      ensures out == CandidatesOf(seats[seat], claimed)
    {
      var p := seats[seat];
      if p.riichi { return []; }
      var count := 0;
      for n := 0 to |p.hand|
        invariant count == CopiesIn(p.hand[..n], claimed)
      {
        assert p.hand[..n + 1] == p.hand[..n] + [p.hand[n]];
        if p.hand[n] == claimed { count := count + 1; }
      }
      assert p.hand[..|p.hand|] == p.hand;
      out := [];
      if count >= 2 { out := out + [Meld(Pon, claimed, [claimed, claimed, claimed])]; }
      if count >= 3 { out := out + [Meld(Daiminkan, claimed, [claimed, claimed, claimed, claimed])]; }
    }

    method Call(seat: nat, m: Meld) returns (status: Status)
      requires Valid() && seat < |seats|
      modifies this
      ensures (State(), status) == CallStep(old(State()), seat, m)
    {
      var p := seats[seat];
      var need := if m.kind == Daiminkan then 4 else 3;
      var kept, removed := KeepRest(p.hand, m.tile, need - 1);
      if removed < need - 1 { return Failed(InvalidDiscard); }
      seats := seats[seat := p.(hand := kept, melds := p.melds + [m])];
      current := seat;
      return Done;
    }

    method ResolveTsumo(seat: nat, w: Win)
      requires Valid() && seat < |seats|
      modifies this
      ensures State() == TsumoStep(old(State()), seat, w)
    {
      if w.han <= 0 && !w.yakuman { return; }
      var pays := TsumoPayment(w.han, w.fu, seat == dealer);
      var total := 0;
      ghost var s := State();
      for i := 0 to |scores|
        invariant |scores| == |s.scores| && State() == s.(scores := scores)
        invariant forall k | 0 <= k < |scores| :: scores[k] == s.scores[k] - if k < i then TsumoShare(s, k, seat, w) else 0
        invariant total == TsumoPot(s, i, seat, w)
      {
        if i == seat { continue; }
        var pay := pays.1;
        if i == dealer { pay := pays.0; }
        scores := scores[i := scores[i] - pay];
        total := total + pay;
      }
      scores := scores[seat := scores[seat] + total];
    }

    method ResolveRon(seat: nat, from: nat, w: Win)
      requires Valid() && seat < |seats| && from < |seats|
      modifies this
      ensures State() == RonStep(old(State()), seat, from, w)
    {
      if w.han <= 0 && !w.yakuman {
        assert RonStep(State(), seat, from, w).scores == scores;
        return;
      }
      var payment: int := RonPayment(w.han, w.fu, seat == dealer);
      if payment > scores[from] { payment := scores[from]; }
      scores := scores[from := scores[from] - payment];
      scores := scores[seat := scores[seat] + payment];
    }
  }

  // ---------- Scans over the wall and over a hand ----------

  // The n-th indicator of the dead wall, blank when the wall is too short.
  method IndicatorAt(dead: seq<Tile>, n: nat) returns (t: Tile)
    ensures Indicators(dead, n + 1) == Indicators(dead, n) + if t != "" then [t] else []
  {
    var pos := 4 + n * 2;
    t := if pos >= |dead| then "" else dead[pos];
  }

  method IndexOf(hand: seq<Tile>, t: Tile) returns (idx: int)
    ensures idx < 0 ==> t !in hand
    ensures idx >= 0 ==> idx < |hand| && hand[idx] == t && t !in hand[..idx]
  {
    for i := 0 to |hand|
      invariant t !in hand[..i]
    {
      if hand[i] == t { return i; }
    }
    return -1;
  }

  lemma {:induction false} NoCopies(hand: seq<Tile>, t: Tile)
    ensures RemoveCopies(hand, t, 0) == hand
  {
    if hand != [] {
      NoCopies(hand[1..], t);
    }
  }

  lemma {:induction false} CutIsRemoval(hand: seq<Tile>, t: Tile, idx: nat)
    requires idx < |hand| && hand[idx] == t && t !in hand[..idx]
    ensures hand[..idx] + hand[idx + 1..] == RemoveCopies(hand, t, 1)
  {
    if idx == 0 {
      NoCopies(hand[1..], t);
    } else {
      assert hand[0] in hand[..idx];
      assert hand[1..][..idx - 1] == hand[..idx][1..];
      CutIsRemoval(hand[1..], t, idx - 1);
      assert hand[..idx] + hand[idx + 1..] == [hand[0]] + (hand[1..][..idx - 1] + hand[1..][idx..]);
    }
  }

  method KeepRest(hand: seq<Tile>, t: Tile, limit: nat) returns (kept: seq<Tile>, removed: nat)
    ensures removed == if CopiesIn(hand, t) < limit then CopiesIn(hand, t) else limit
    ensures kept == RemoveCopies(hand, t, limit)
  {
    kept, removed := [], 0;
    for n := 0 to |hand|
      invariant removed <= limit && removed <= CopiesIn(hand[..n], t)
      invariant removed < limit ==> removed == CopiesIn(hand[..n], t)
      invariant kept + RemoveCopies(hand[n..], t, limit - removed) == RemoveCopies(hand, t, limit)
    {
      assert hand[..n + 1] == hand[..n] + [hand[n]];
      assert hand[n..][1..] == hand[n + 1..] && hand[n..][0] == hand[n];
      if hand[n] == t && removed < limit {
        removed := removed + 1;
        continue;
      }
      KeptNext(kept, hand[n], RemoveCopies(hand[n + 1..], t, limit - removed));
      kept := kept + [hand[n]];
    }
    assert hand[..|hand|] == hand && hand[|hand|..] == [];
    assert hand == hand[..|hand|] + hand[|hand|..];
  }

  lemma KeptNext(kept: seq<Tile>, t: Tile, rest: seq<Tile>)
    ensures kept + [t] + rest == kept + ([t] + rest)
  {
  }
}
