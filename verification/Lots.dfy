/** Lot sizes and follower orders, over the reals. */
module Lots {
  import opened Schema

  const MIN_LOT := 0.01
  const MAX_LOT := 100.0

  datatype Signal = Signal(
    account: string, action: string, side: string, symbol: string,
    lot: real, sl: real, tp: real, price: real, magic: int, pnl: real, comment: string, time: int)

  datatype Order = Order(account: string, password: string, server: string, multiplier: real, signal: Signal)

  /** math.Round: to the nearest integer, halves away from zero. */
  function Round(x: real): int {
    if x >= 0.0 then (x + 0.5).Floor else -((-x + 0.5).Floor)
  }

  function CalculateLot(masterLot: real, multiplier: real): real {
    var rawLot := masterLot * multiplier;
    var rounded := Round(rawLot * 100.0) as real / 100.0;
    var raised := if rounded < MIN_LOT then MIN_LOT else rounded;
    if raised > MAX_LOT then MAX_LOT else raised
  }

  /** The order carries the master's signal, except for its account, with the follower's lot. */
  function CreateFollowerOrder(f: Follower, s: Signal): Order {
    Order(f.account, f.passwordHash, f.server, f.multiplier,
          Signal("", s.action, s.side, s.symbol, CalculateLot(s.lot, f.multiplier), s.sl, s.tp, s.price, s.magic, s.pnl, s.comment, s.time))
  }

  function CopySignalFields(from: Signal, to: Signal): Signal {
    Signal(to.account, from.action, from.side, from.symbol, to.lot, from.sl, from.tp, from.price, from.magic, from.pnl, from.comment, from.time)
  }

  // ---- the grid ----

  /** The lots that can be ordered: 0.01, 0.02, ..., 100.00. */
  function GridLot(k: int): real {
    k as real / 100.0
  }

  function Abs(x: real): real {
    if x >= 0.0 then x else -x
  }

  lemma RoundWithinHalf(x: real)
    ensures Abs(Round(x) as real - x) <= 0.5
  {
  }

  lemma RoundIsNearest(x: real, k: int)
    ensures Abs(Round(x) as real - x) <= Abs(k as real - x)
  {
    RoundWithinHalf(x);
    var r := Round(x);
    if Abs(k as real - x) < Abs(r as real - x) {
      assert -1.0 < k as real - r as real < 1.0;
      assert k == r;
    }
  }

  lemma RoundMonotone(x: real, y: real)
    requires x <= y
    ensures Round(x) <= Round(y)
  {
  }

  lemma RoundOfInteger(k: int)
    ensures Round(k as real) == k
  {
  }

  /** The index on the grid of the calculated lot. */
  function LotIndex(raw: real): int {
    var r := Round(raw * 100.0);
    if r < 1 then 1 else if r > 10000 then 10000 else r
  }

  lemma LotOnGrid(l: real, m: real)
    ensures 1 <= LotIndex(l * m) <= 10000 && CalculateLot(l, m) == GridLot(LotIndex(l * m))
  {
    var r := Round(l * m * 100.0);
    assert GridLot(1) == MIN_LOT && GridLot(10000) == MAX_LOT;
    assert r < 1 <==> GridLot(r) < GridLot(1);
    assert r > 10000 <==> GridLot(r) > GridLot(10000);
  }

  lemma ClampedRoundIsNearest(x: real, k: int)
    requires 1 <= k <= 10000
    ensures var r := Round(x);
            var c := if r < 1 then 1 else if r > 10000 then 10000 else r;
            Abs(c as real - x) <= Abs(k as real - x)
  {
    RoundIsNearest(x, k);
    RoundIsNearest(x, 1);
    RoundIsNearest(x, 10000);
  }

  /** Rounding and then clamping projects onto the grid: no grid point is nearer to the raw lot. */
  lemma LotIsNearestGridPoint(l: real, m: real, k: int)
    requires 1 <= k <= 10000
    ensures Abs(CalculateLot(l, m) - l * m) <= Abs(GridLot(k) - l * m)
  {
    var x := l * m * 100.0;
    var c := LotIndex(l * m);
    LotOnGrid(l, m);
    ClampedRoundIsNearest(x, k);
    assert GridLot(c) - l * m == (c as real - x) / 100.0;
    assert GridLot(k) - l * m == (k as real - x) / 100.0;
  }

  /** `lot` is the grid point nearest to the raw lot, the larger one of two that are equally near. */
  ghost predicate IsLotFor(lot: real, raw: real) {
    && (exists c: int :: 1 <= c <= 10000 && lot == GridLot(c))
    && forall k: int :: 1 <= k <= 10000 ==>
         Abs(lot - raw) <= Abs(GridLot(k) - raw) && (Abs(lot - raw) == Abs(GridLot(k) - raw) ==> GridLot(k) <= lot)
  }

  /** A raw lot half-way between two grid points goes to the larger one. */
  lemma TieGoesUp(l: real, m: real, k: int)
    requires 1 <= k < 10000 && l * m * 100.0 == k as real + 0.5
    ensures CalculateLot(l, m) == GridLot(k + 1)
  {
    assert l * m * 100.0 + 0.5 == (k + 1) as real;
    assert Round(l * m * 100.0) == k + 1;
    LotOnGrid(l, m);
  }

  lemma NearerAbove(l: real, m: real, k: int)
    requires 1 <= k <= 10000 && Abs(CalculateLot(l, m) - l * m) == Abs(GridLot(k) - l * m)
    ensures GridLot(k) <= CalculateLot(l, m)
  {
    LotOnGrid(l, m);
    var c := LotIndex(l * m);
    var x := l * m * 100.0;
    assert GridLot(c) - l * m == (c as real - x) / 100.0;
    assert GridLot(k) - l * m == (k as real - x) / 100.0;
    assert c < k ==> 2.0 * x == c as real + k as real;
  }

  lemma LotIsForRaw(l: real, m: real)
    ensures IsLotFor(CalculateLot(l, m), l * m)
  {
    LotOnGrid(l, m);
    forall k: int | 1 <= k <= 10000
      ensures Abs(CalculateLot(l, m) - l * m) <= Abs(GridLot(k) - l * m)
      ensures Abs(CalculateLot(l, m) - l * m) == Abs(GridLot(k) - l * m) ==> GridLot(k) <= CalculateLot(l, m)
    {
      LotIsNearestGridPoint(l, m, k);
      if Abs(CalculateLot(l, m) - l * m) == Abs(GridLot(k) - l * m) { NearerAbove(l, m, k); }
    }
  }

  /** This determines the calculation: there is one such lot. */
  lemma LotDetermined(lot: real, l: real, m: real)
    ensures IsLotFor(lot, l * m) <==> lot == CalculateLot(l, m)
  {
    LotIsForRaw(l, m);
    if IsLotFor(lot, l * m) {
      var c: int :| 1 <= c <= 10000 && lot == GridLot(c);
      var d: int :| 1 <= d <= 10000 && CalculateLot(l, m) == GridLot(d);
      assert Abs(lot - l * m) <= Abs(GridLot(d) - l * m);
      assert Abs(CalculateLot(l, m) - l * m) <= Abs(GridLot(c) - l * m);
    }
  }

  /** The order goes to the follower's account on its server, with its password and multiplier; its signal is
      the master's but for the account, which is blank, and the lot. */
  predicate Addressed(o: Order, f: Follower, s: Signal) {
    && o.account == f.account && o.server == f.server && o.password == f.passwordHash && o.multiplier == f.multiplier
    && o.signal.account == ""
    && o.signal.action == s.action && o.signal.side == s.side && o.signal.symbol == s.symbol
    && o.signal.price == s.price && o.signal.sl == s.sl && o.signal.tp == s.tp && o.signal.magic == s.magic
    && o.signal.pnl == s.pnl && o.signal.comment == s.comment && o.signal.time == s.time
  }

  ghost predicate LotFits(lot: real, masterLot: real, multiplier: real) {
    IsLotFor(lot, masterLot * multiplier)
  }

  /** And its lot is the follower's. */
  ghost predicate OrderFits(o: Order, f: Follower, s: Signal) {
    Addressed(o, f, s) && LotFits(o.signal.lot, s.lot, f.multiplier)
  }

  lemma AddressedExactly(o: Order, f: Follower, s: Signal)
    ensures o == CreateFollowerOrder(f, s) <==> Addressed(o, f, s) && o.signal.lot == CalculateLot(s.lot, f.multiplier)
  {
  }

  lemma LotFitsExactly(lot: real, masterLot: real, multiplier: real)
    ensures LotFits(lot, masterLot, multiplier) <==> lot == CalculateLot(masterLot, multiplier)
  {
    LotDetermined(lot, masterLot, multiplier);
  }

  /** That is the order that is created, and no other fits. */
  lemma CreatedOrderFits(o: Order, f: Follower, s: Signal)
    ensures OrderFits(o, f, s) <==> o == CreateFollowerOrder(f, s)
  {
    AddressedExactly(o, f, s);
    LotFitsExactly(o.signal.lot, s.lot, f.multiplier);
  }

  /** A lot on the grid is its own projection, so calculating twice changes nothing. */
  lemma LotIdempotent(l: real, m: real)
    ensures CalculateLot(CalculateLot(l, m), 1.0) == CalculateLot(l, m)
  {
    LotOnGrid(l, m);
    var k := LotIndex(l * m);
    RoundOfInteger(k);
    assert GridLot(k) * 1.0 * 100.0 == k as real;
    LotOnGrid(GridLot(k), 1.0);
  }

  /** A larger multiplier never gives a smaller lot. */
  lemma LotMonotone(l: real, m1: real, m2: real)
    requires l >= 0.0 && m1 <= m2
    ensures CalculateLot(l, m1) <= CalculateLot(l, m2)
  {
    assert l * m1 <= l * m2;
    RoundMonotone(l * m1 * 100.0, l * m2 * 100.0);
  }

  /** The raw lot lies where rounding is off by at most half a step. */
  predicate InLotRange(l: real, m: real) {
    0.005 <= l * m <= 100.005
  }

  /** Inside the range the error is at most half a step, and only there: outside it the clamp adds to it. */
  lemma LotErrorExactly(l: real, m: real)
    ensures Abs(CalculateLot(l, m) - l * m) <= 0.005 <==> InLotRange(l, m)
  {
    var x := l * m * 100.0;
    LotOnGrid(l, m);
    RoundWithinHalf(x);
    var c := LotIndex(l * m);
    assert CalculateLot(l, m) - l * m == (c as real - x) / 100.0;
  }

  // ---- a whole fan-out ----

  function Sum(xs: seq<real>): real {
    if xs == [] then 0.0 else xs[0] + Sum(xs[1..])
  }

  /** The orders of one Distribute call, follower by follower. */
  function OrdersFor(fs: seq<Follower>, s: Signal): seq<Order> {
    seq(|fs|, i requires 0 <= i < |fs| => CreateFollowerOrder(fs[i], s))
  }

  function LotsOf(orders: seq<Order>): seq<real> {
    seq(|orders|, i requires 0 <= i < |orders| => orders[i].signal.lot)
  }

  function Multipliers(fs: seq<Follower>): seq<real> {
    seq(|fs|, i requires 0 <= i < |fs| => fs[i].multiplier)
  }

  function Scaled(l: real, xs: seq<real>): (ys: seq<real>)
    ensures |ys| == |xs|
  {
    if xs == [] then [] else [l * xs[0]] + Scaled(l, xs[1..])
  }

  lemma {:induction false} ScaledAt(l: real, xs: seq<real>, i: nat)
    requires i < |xs|
    ensures Scaled(l, xs)[i] == l * xs[i]
  {
    if i > 0 { ScaledAt(l, xs[1..], i - 1); }
  }

  lemma {:induction false} SumScaled(l: real, xs: seq<real>)
    ensures Sum(Scaled(l, xs)) == l * Sum(xs)
  {
    if xs != [] {
      SumScaled(l, xs[1..]);
      assert l * (xs[0] + Sum(xs[1..])) == l * xs[0] + l * Sum(xs[1..]);
    }
  }

  ghost predicate Close(xs: seq<real>, ys: seq<real>) {
    |xs| == |ys| && forall i :: 0 <= i < |xs| ==> Abs(xs[i] - ys[i]) <= 0.005
  }

  /** Two sums of `n` terms differ by at most half a step for each term. */
  ghost predicate SumsClose(xs: seq<real>, ys: seq<real>, n: nat) {
    Abs(Sum(xs) - Sum(ys)) <= n as real * 0.005
  }

  lemma {:induction false} SumError(xs: seq<real>, ys: seq<real>, n: nat)
    requires Close(xs, ys) && n == |xs|
    ensures SumsClose(xs, ys, n)
  {
    if xs != [] {
      SumError(xs[1..], ys[1..], n - 1);
      assert (n - 1) as real * 0.005 + 0.005 == n as real * 0.005;
    }
  }

  lemma ErrorAt(fs: seq<Follower>, s: Signal, i: nat)
    requires i < |fs| && InLotRange(s.lot, fs[i].multiplier)
    ensures Abs(LotsOf(OrdersFor(fs, s))[i] - Scaled(s.lot, Multipliers(fs))[i]) <= 0.005
  {
    var m := fs[i].multiplier;
    LotErrorExactly(s.lot, m);
    ScaledAt(s.lot, Multipliers(fs), i);
    assert LotsOf(OrdersFor(fs, s))[i] == CalculateLot(s.lot, m);
    assert Multipliers(fs)[i] == m;
  }

  ghost predicate AllInRange(fs: seq<Follower>, l: real) {
    forall i :: 0 <= i < |fs| ==> InLotRange(l, fs[i].multiplier)
  }

  lemma LotsClose(fs: seq<Follower>, s: Signal)
    requires AllInRange(fs, s.lot)
    ensures |LotsOf(OrdersFor(fs, s))| == |Multipliers(fs)| == |fs|
    ensures Close(LotsOf(OrdersFor(fs, s)), Scaled(s.lot, Multipliers(fs)))
  {
    forall i | 0 <= i < |fs|
      ensures Abs(LotsOf(OrdersFor(fs, s))[i] - Scaled(s.lot, Multipliers(fs))[i]) <= 0.005
    {
      ErrorAt(fs, s, i);
    }
  }

  lemma OrderedTotal(fs: seq<Follower>, s: Signal)
    requires AllInRange(fs, s.lot)
    ensures SumsClose(LotsOf(OrdersFor(fs, s)), Scaled(s.lot, Multipliers(fs)), |fs|)
  {
    LotsClose(fs, s);
    SumError(LotsOf(OrdersFor(fs, s)), Scaled(s.lot, Multipliers(fs)), |fs|);
  }

  /** The lots ordered for one signal add up to the sum of the raw lots, which is the master's lot times
      the sum of the multipliers, within half a step for each follower. */
  lemma TotalLotError(fs: seq<Follower>, s: Signal)
    requires AllInRange(fs, s.lot)
    ensures SumsClose(LotsOf(OrdersFor(fs, s)), Scaled(s.lot, Multipliers(fs)), |fs|)
    ensures Sum(Scaled(s.lot, Multipliers(fs))) == s.lot * Sum(Multipliers(fs))
  {
    OrderedTotal(fs, s);
    SumScaled(s.lot, Multipliers(fs));
  }

  /** The order's signal is the master's, copied over a blank signal that holds only the new lot. */
  lemma OrderCopiesSignal(f: Follower, s: Signal, blank: Signal)
    requires blank.account == "" && blank.lot == CalculateLot(s.lot, f.multiplier)
    ensures CreateFollowerOrder(f, s).signal == CopySignalFields(s, blank)
    ensures CopySignalFields(s, CopySignalFields(blank, s)) == s
  {
  }
}
