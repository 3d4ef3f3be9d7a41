/** What every engine step keeps: tiles, points, and riichi bookkeeping (internal/game/engine/round.go). */
module Ledger {
  import opened Tiles
  import opened Score
  import opened Table

  // ---------- Tiles ----------

  function Taken(m: Meld): nat
  {
    Need(m.kind) - 1
  }

  // Copies of a tile a seat gave up for its melds; the claimed one is still in the discarder's pile.
  function InMelds(ms: seq<Meld>, t: Tile): nat
  {
    if ms == [] then 0
    else InMelds(ms[..|ms| - 1], t) + if ms[|ms| - 1].tile == t then Taken(ms[|ms| - 1]) else 0
  }

  function AtSeat(p: Seat, t: Tile): nat
  {
    CopiesIn(p.hand, t) + CopiesIn(p.discards, t) + InMelds(p.melds, t)
  }

  function AtSeats(ps: seq<Seat>, t: Tile): nat
  {
    if ps == [] then 0 else AtSeats(ps[..|ps| - 1], t) + AtSeat(ps[|ps| - 1], t)
  }

  function Undealt(s: State, t: Tile): nat
  {
    if s.phase.Dealing? && s.extra == t then 1 else 0
  }

  // Copies of a tile in the whole round outside the dead wall.
  function Copies(s: State, t: Tile): nat
  {
    CopiesIn(s.wall, t) + AtSeats(s.seats, t) + Undealt(s, t)
  }

  lemma {:induction false} AtSeatsUpdate(ps: seq<Seat>, i: nat, p: Seat, t: Tile)
    requires i < |ps|
    ensures AtSeats(ps[i := p], t) == AtSeats(ps, t) - AtSeat(ps[i], t) + AtSeat(p, t)
  {
    var n := |ps| - 1;
    if i == n {
      assert ps[i := p][..n] == ps[..n];
    } else {
      assert ps[i := p][..n] == ps[..n][i := p];
      AtSeatsUpdate(ps[..n], i, p, t);
    }
  }

  lemma StartKeepsTiles(s: State, t: Tile)
    requires s.Valid()
    ensures Copies(StartStep(s).0, t) == Copies(s, t)
  {
    var p := s.seats[s.dealer];
    AtSeatsUpdate(s.seats, s.dealer, p.(hand := p.hand + [s.extra]), t);
  }

  lemma DrawKeepsTiles(s: State, t: Tile)
    requires s.Valid()
    ensures Copies(DrawStep(s).0, t) == Copies(s, t)
  {
    if s.wall != [] {
      assert s.wall == [s.wall[0]] + s.wall[1..];
      var p := s.seats[s.current];
      AtSeatsUpdate(s.seats, s.current, p.(hand := p.hand + [s.wall[0]]), t);
    }
  }

  // Throwing a tile only moves it from the hand to the pile.
  lemma ThrownKeepsTiles(p: Seat, x: Tile, t: Tile)
    requires x in p.hand
    ensures AtSeat(Thrown(p, x), t) == AtSeat(p, t)
  {
    assert x in multiset(p.hand);
    RemoveCopiesCount(p.hand, x, 1, t);
  }

  lemma DiscardKeepsTiles(s: State, x: Tile, t: Tile)
    requires s.Valid()
    ensures Copies(DiscardStep(s, x).0, t) == Copies(s, t)
  {
    if DiscardStep(s, x).1.Done? {
      ThrownKeepsTiles(s.seats[s.current], x, t);
      AtSeatsUpdate(s.seats, s.current, Thrown(s.seats[s.current], x), t);
    }
  }

  lemma RiichiKeepsTiles(s: State, x: Tile, t: Tile)
    requires s.Valid()
    ensures Copies(RiichiStep(s, x).0, t) == Copies(s, t)
  {
    if RiichiStep(s, x).1.Done? {
      ThrownKeepsTiles(s.seats[s.current], x, t);
      AtSeatsUpdate(s.seats, s.current, Thrown(s.seats[s.current], x).(riichi := true), t);
    }
  }

  lemma CallKeepsTiles(s: State, i: nat, m: Meld, t: Tile)
    requires s.Valid() && i < |s.seats|
    ensures Copies(CallStep(s, i, m).0, t) == Copies(s, t)
  {
    if CallStep(s, i, m).1.Done? {
      var p, n := s.seats[i], Taken(m);
      var p' := p.(hand := RemoveCopies(p.hand, m.tile, n), melds := p.melds + [m]);
      RemoveCopiesCount(p.hand, m.tile, n, t);
      assert (p.melds + [m])[..|p.melds|] == p.melds;
      AtSeatsUpdate(s.seats, i, p', t);
    }
  }

  // ---------- Points ----------

  function Total(xs: seq<int>): int
  {
    if xs == [] then 0 else Total(xs[..|xs| - 1]) + xs[|xs| - 1]
  }

  // The points at the table, riichi sticks included.
  function Points(s: State): int
  {
    Total(s.scores) + 1000 * s.sticks
  }

  lemma {:induction false} TotalUpdate(xs: seq<int>, i: nat, x: int)
    requires i < |xs|
    ensures Total(xs[i := x]) == Total(xs) - xs[i] + x
  {
    var n := |xs| - 1;
    if i == n {
      assert xs[i := x][..n] == xs[..n];
    } else {
      assert xs[i := x][..n] == xs[..n][i := x];
      TotalUpdate(xs[..n], i, x);
    }
  }

  lemma RiichiKeepsPoints(s: State, t: Tile)
    requires s.Valid()
    ensures Points(RiichiStep(s, t).0) == Points(s)
  {
    TotalUpdate(s.scores, s.current, s.scores[s.current] - 1000);
  }

  // Up to seat n, a tsumo takes out of the scores what the pot has collected.
  lemma {:induction false} TsumoPrefix(s: State, n: nat, seat: nat, w: Win)
    requires s.Valid() && seat < |s.seats| && n <= |s.seats| && Pays(w)
    ensures Total(TsumoStep(s, seat, w).scores[..n]) ==
      Total(s.scores[..n]) - TsumoPot(s, n, seat, w) + if seat < n then TsumoPot(s, |s.scores|, seat, w) else 0
  {
    if n > 0 {
      TsumoPrefix(s, n - 1, seat, w);
      assert s.scores[..n][..n - 1] == s.scores[..n - 1];
      var paid := TsumoStep(s, seat, w).scores;
      assert paid[..n][..n - 1] == paid[..n - 1];
    }
  }

  lemma TsumoKeepsPoints(s: State, seat: nat, w: Win)
    requires s.Valid() && seat < |s.seats|
    ensures Points(TsumoStep(s, seat, w)) == Points(s)
  {
    if Pays(w) {
      TsumoPrefix(s, |s.seats|, seat, w);
      var paid := TsumoStep(s, seat, w).scores;
      assert paid[..|s.seats|] == paid && s.scores[..|s.seats|] == s.scores;
    }
  }

  lemma RonKeepsPoints(s: State, seat: nat, from: nat, w: Win)
    requires s.Valid() && seat < |s.seats| && from < |s.seats|
    ensures Points(RonStep(s, seat, from, w)) == Points(s)
  {
    var pay := RonMoves(s, seat, from, w);
    TotalUpdate(s.scores, from, s.scores[from] - pay);
    var paid := s.scores[from := s.scores[from] - pay];
    TotalUpdate(paid, seat, paid[seat] + pay);
  }

  // A ron moves the payment or all the discarder has, whichever is less, and so never drives a
  // non-negative discarder below zero.
  lemma RonIsCapped(s: State, seat: nat, from: nat, w: Win)
    requires s.Valid() && seat < |s.seats| && from < |s.seats| && seat != from && Pays(w)
    ensures var after, price := RonStep(s, seat, from, w), RonPayment(w.han, w.fu, seat == s.dealer);
      && s.scores[from] - after.scores[from] == after.scores[seat] - s.scores[seat]
      && s.scores[from] - after.scores[from] == (if price <= s.scores[from] then price else s.scores[from])
      && (s.scores[from] >= 0 ==> after.scores[from] >= 0)
      && (forall i | 0 <= i < |s.seats| && i != seat && i != from :: after.scores[i] == s.scores[i])
  {
  }

  // ---------- Any sequence of steps ----------

  datatype Op =
    | Start
    | Draw
    | Discard(tile: Tile)
    | Riichi(tile: Tile)
    | Call(seat: nat, meld: Meld)
    | Tsumo(seat: nat, win: Win)
    | Ron(seat: nat, from: nat, win: Win)
    | End(winner: int)

  // Seats a caller names must exist.
  predicate Legal(n: nat, op: Op)
  {
    match op
    case Call(seat, _) => seat < n
    case Tsumo(seat, _) => seat < n
    case Ron(seat, from, _) => seat < n && from < n
    case _ => true
  }

  function Apply(s: State, op: Op): (r: State)
    requires s.Valid() && Legal(|s.seats|, op)
    ensures r.Valid() && |r.seats| == |s.seats| && r.extra == s.extra && r.dealer == s.dealer
  {
    match op
    case Start => StartStep(s).0
    case Draw => DrawStep(s).0
    case Discard(t) => DiscardStep(s, t).0
    case Riichi(t) => RiichiStep(s, t).0
    case Call(i, m) => CallStep(s, i, m).0
    case Tsumo(i, w) => TsumoStep(s, i, w)
    case Ron(i, from, w) => RonStep(s, i, from, w)
    case End(w) => EndStep(s, w)
  }

  predicate AllLegal(n: nat, ops: seq<Op>)
  {
    forall k | 0 <= k < |ops| :: Legal(n, ops[k])
  }

  function RunOps(s: State, ops: seq<Op>): (r: State)
    requires s.Valid() && AllLegal(|s.seats|, ops)
    ensures r.Valid() && |r.seats| == |s.seats| && r.extra == s.extra
    decreases |ops|
  {
    if ops == [] then s else RunOps(Apply(s, ops[0]), ops[1..])
  }

  // Ending a round that never started throws the dealer's extra tile away.
  predicate LosesExtra(s: State, ops: seq<Op>)
    requires s.Valid() && AllLegal(|s.seats|, ops)
    decreases |ops|
  {
    ops != [] && ((s.phase.Dealing? && ops[0].End?) || LosesExtra(Apply(s, ops[0]), ops[1..]))
  }

  lemma StepKeepsTiles(s: State, op: Op, t: Tile)
    requires s.Valid() && Legal(|s.seats|, op) && !(s.phase.Dealing? && op.End?)
    ensures Copies(Apply(s, op), t) == Copies(s, t)
  {
    match op
    case Start => StartKeepsTiles(s, t);
    case Draw => DrawKeepsTiles(s, t);
    case Discard(x) => DiscardKeepsTiles(s, x, t);
    case Riichi(x) => RiichiKeepsTiles(s, x, t);
    case Call(i, m) => CallKeepsTiles(s, i, m, t);
    case _ =>
  }

  lemma {:induction false} DealtStaysDealt(s: State, ops: seq<Op>)
    requires s.Valid() && AllLegal(|s.seats|, ops) && !s.phase.Dealing?
    ensures !LosesExtra(s, ops) && !RunOps(s, ops).phase.Dealing?
    decreases |ops|
  {
    if ops != [] {
      DealtStaysDealt(Apply(s, ops[0]), ops[1..]);
    }
  }

  // Over any sequence of steps every tile keeps its number of copies, except that one copy of
  // the extra tile disappears when the round is ended before it is started.
  lemma {:induction false} RunKeepsTiles(s: State, ops: seq<Op>, t: Tile)
    requires s.Valid() && AllLegal(|s.seats|, ops)
    ensures Copies(RunOps(s, ops), t) == Copies(s, t) - if LosesExtra(s, ops) && t == s.extra then 1 else 0
    decreases |ops|
  {
    if ops != [] {
      var s' := Apply(s, ops[0]);
      RunKeepsTiles(s', ops[1..], t);
      if s.phase.Dealing? && ops[0].End? {
        DealtStaysDealt(s', ops[1..]);
      } else {
        StepKeepsTiles(s, ops[0], t);
      }
    }
  }

  // Conservation holds exactly for the runs that do not end the round before starting it.
  lemma TilesConservedExactly(s: State, ops: seq<Op>)
    requires s.Valid() && AllLegal(|s.seats|, ops)
    ensures (forall t :: Copies(RunOps(s, ops), t) == Copies(s, t)) <==> !LosesExtra(s, ops)
  {
    forall t
      ensures Copies(RunOps(s, ops), t) == Copies(s, t) - if LosesExtra(s, ops) && t == s.extra then 1 else 0
    {
      RunKeepsTiles(s, ops, t);
    }
    if LosesExtra(s, ops) {
      assert Copies(RunOps(s, ops), s.extra) == Copies(s, s.extra) - 1;
    }
  }

  lemma StepKeepsPoints(s: State, op: Op)
    requires s.Valid() && Legal(|s.seats|, op)
    ensures Points(Apply(s, op)) == Points(s)
  {
    match op
    case Riichi(t) => RiichiKeepsPoints(s, t);
    case Tsumo(i, w) => TsumoKeepsPoints(s, i, w);
    case Ron(i, from, w) => RonKeepsPoints(s, i, from, w);
    case _ =>
  }

  lemma {:induction false} RunKeepsPoints(s: State, ops: seq<Op>)
    requires s.Valid() && AllLegal(|s.seats|, ops)
    ensures Points(RunOps(s, ops)) == Points(s)
    decreases |ops|
  {
    if ops != [] {
      StepKeepsPoints(s, ops[0]);
      RunKeepsPoints(Apply(s, ops[0]), ops[1..]);
    }
  }

  // Double riichi is a riichi, and its discard is on record.
  predicate DoubleMeansRiichi(s: State)
    requires s.Valid()
  {
    forall i | 0 <= i < |s.seats| && s.doubleRiichi[i] :: s.seats[i].riichi && s.seats[i].discards != []
  }

  lemma {:induction false} RunKeepsDoubleRiichi(s: State, ops: seq<Op>)
    requires s.Valid() && AllLegal(|s.seats|, ops) && DoubleMeansRiichi(s)
    ensures DoubleMeansRiichi(RunOps(s, ops))
    decreases |ops|
  {
    if ops != [] {
      assert DoubleMeansRiichi(Apply(s, ops[0]));
      RunKeepsDoubleRiichi(Apply(s, ops[0]), ops[1..]);
    }
  }

  // ---------- From a new round ----------

  lemma {:induction false} TotalOfEqual(xs: seq<int>, x: int)
    requires forall k | 0 <= k < |xs| :: xs[k] == x
    ensures Total(xs) == |xs| * x
  {
    if xs != [] {
      TotalOfEqual(xs[..|xs| - 1], x);
    }
  }

  // Sum of scores plus a thousand per stick is players times the initial score, always.
  lemma PointsOfEveryRun(n: nat, initialScore: int, kyoku: nat, w: Wall, ops: seq<Op>)
    requires 0 < n <= |w.hands| && AllLegal(n, ops)
    ensures Points(RunOps(NewState(n, initialScore, kyoku, w), ops)) == n * if initialScore == 0 then 25000 else initialScore
    ensures DoubleMeansRiichi(RunOps(NewState(n, initialScore, kyoku, w), ops))
  {
    var s := NewState(n, initialScore, kyoku, w);
    TotalOfEqual(s.scores, if initialScore == 0 then 25000 else initialScore);
    RunKeepsPoints(s, ops);
    RunKeepsDoubleRiichi(s, ops);
  }

  // ---------- What a win is worth at the table ----------

  lemma FourShares(s: State, seat: nat, w: Win)
    requires seat < 4 && s.dealer < 4
    ensures TsumoPot(s, 4, seat, w) == TsumoTotal(w.han, w.fu, seat == s.dealer)
  {
    assert TsumoPot(s, 4, seat, w) == TsumoPot(s, 3, seat, w) + TsumoShare(s, 3, seat, w);
    assert TsumoPot(s, 3, seat, w) == TsumoPot(s, 2, seat, w) + TsumoShare(s, 2, seat, w);
    assert TsumoPot(s, 2, seat, w) == TsumoPot(s, 1, seat, w) + TsumoShare(s, 1, seat, w);
    assert TsumoPot(s, 1, seat, w) == TsumoShare(s, 0, seat, w);
  }

  lemma ShareInHundreds(s: State, i: nat, seat: nat, w: Win)
    ensures TsumoShare(s, i, seat, w) % 100 == 0
    ensures seat != s.dealer ==> TsumoShare(s, i, seat, w) <= TsumoShare(s, s.dealer, seat, w)
  {
    PaymentsInHundreds(w.han, w.fu, seat == s.dealer);
    DealerPaysMore(w.han, w.fu);
  }

  // At four seats a tsumo brings its winner what its payments add up to, which is the ron price
  // and at most 200 more; every loser pays a whole number of hundreds, and a dealer who loses
  // pays no less than the others.
  lemma TsumoSettles(s: State, seat: nat, w: Win, i: nat)
    requires s.Valid() && |s.seats| == 4 && seat < 4 && i < 4 && Pays(w)
    ensures var after, price := TsumoStep(s, seat, w).scores, RonPayment(w.han, w.fu, seat == s.dealer);
      && after[seat] - s.scores[seat] == TsumoTotal(w.han, w.fu, seat == s.dealer)
      && price <= after[seat] - s.scores[seat] <= price + 200
      && (i != seat ==> after[i] <= s.scores[i] && (s.scores[i] - after[i]) % 100 == 0)
      && (i != seat && s.dealer != seat ==> s.scores[i] - after[i] <= s.scores[s.dealer] - after[s.dealer])
  {
    TsumoAgainstRon(w.han, w.fu, seat == s.dealer);
    FourShares(s, seat, w);
    ShareInHundreds(s, i, seat, w);
    assert TsumoShare(s, seat, seat, w) == 0;
  }
}
