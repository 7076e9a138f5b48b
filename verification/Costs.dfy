/**
 The per-order cost model and the sizing of a buy against confirmed cash: what the shrinking loop
 returns, how far it can be from the best size, and when it is the best size.
 */
module Costs {
  import opened Common

  datatype CostConfig = CostConfig(
    fixedPerOrder: bool, fixedMinFee: real, perShareFee: real, proportionalRate: real, spreadBps: real, slippageBps: real)
  {
    predicate Valid() {
      && fixedMinFee >= 0.0 && perShareFee >= 0.0 && proportionalRate >= 0.0
      && spreadBps >= 0.0 && slippageBps >= 0.0
    }
  }

  function Commission(cfg: CostConfig, shares: real, notional: real): real {
    if cfg.fixedPerOrder then (if shares > 0.0 then MaxR(cfg.fixedMinFee, cfg.perShareFee * shares) else 0.0)
    else cfg.proportionalRate * notional
  }

  /** Half the spread plus slippage, as a fraction of notional. */
  function FrictionRate(cfg: CostConfig): real {
    cfg.spreadBps / 2.0 / 10000.0 + cfg.slippageBps / 10000.0
  }

  function OrderCost(cfg: CostConfig, shares: real, price: real): real {
    Commission(cfg, shares, shares * price) + FrictionRate(cfg) * (shares * price)
  }

  /** Commission on an order of `shares` at `price`. */
  function Fee(cfg: CostConfig, shares: real, price: real): real {
    Commission(cfg, shares, shares * price)
  }

  /** Cash a sale of `shares` brings in, costs taken off. */
  function Proceeds(cfg: CostConfig, shares: real, price: real): real {
    shares * price - OrderCost(cfg, shares, price)
  }

  lemma CommissionMonotone(cfg: CostConfig, a: real, b: real, x: real, y: real)
    requires cfg.Valid() && 0.0 <= a <= b && 0.0 <= x <= y
    ensures 0.0 <= Commission(cfg, a, x) <= Commission(cfg, b, y)
  {
    if cfg.fixedPerOrder {
      MulMono(a, b, cfg.perShareFee);
      assert cfg.perShareFee * a == a * cfg.perShareFee && cfg.perShareFee * b == b * cfg.perShareFee;
      MulMono(0.0, b, cfg.perShareFee);
    } else {
      MulMono(x, y, cfg.proportionalRate);
      MulMono(0.0, x, cfg.proportionalRate);
    }
  }

  /** More shares never cost less. */
  lemma CostMonotone(cfg: CostConfig, a: real, b: real, price: real)
    requires cfg.Valid() && 0.0 <= a <= b && price >= 0.0
    ensures 0.0 <= OrderCost(cfg, a, price) <= OrderCost(cfg, b, price)
  {
    MulMono(a, b, price);
    MulMono(0.0, a, price);
    CommissionMonotone(cfg, a, b, a * price, b * price);
    hide Commission;
    MulMono(a * price, b * price, FrictionRate(cfg));
    MulMono(0.0, a * price, FrictionRate(cfg));
  }

  /** Cash a buy of `shares` takes, costs included. */
  function Needed(cfg: CostConfig, shares: real, price: real): real {
    shares * price + OrderCost(cfg, shares, price)
  }

  lemma NeededMonotone(cfg: CostConfig, a: real, b: real, price: real)
    requires cfg.Valid() && 0.0 <= a <= b && price >= 0.0
    ensures Needed(cfg, a, price) <= Needed(cfg, b, price)
  {
    CostMonotone(cfg, a, b, price);
    MulMono(a, b, price);
    hide OrderCost;
  }

  predicate Affordable(cfg: CostConfig, n: int, price: real, available: real) {
    Needed(cfg, n as real, price) <= available
  }

  /** Whole shares the cash left after `r`'s own cost would buy. */
  function Shrunk(cfg: CostConfig, r: int, price: real, available: real): int
    requires price > 0.0
  {
    MinI(r - 1, ((available - OrderCost(cfg, r as real, price)) / price).Floor)
  }

  /** The loop: keep an affordable candidate, otherwise shrink by its own cost; zero means no buy. */
  function ShrinkFrom(cfg: CostConfig, r: int, price: real, available: real): int
    requires price > 0.0
    decreases if r > 0 then r else 0
  {
    if r <= 0 then 0
    else if Affordable(cfg, r, price, available) then r
    else ShrinkFrom(cfg, Shrunk(cfg, r, price, available), price, available)
  }

  /** The first candidate: what the cash alone would buy, never more than planned. */
  function SeedSize(planned: real, price: real, available: real): int
    requires price > 0.0
  {
    MinI((available / price).Floor, planned.Floor)
  }

  function Resized(cfg: CostConfig, planned: real, price: real, available: real): int
    requires price > 0.0
  {
    ShrinkFrom(cfg, SeedSize(planned, price, available), price, available)
  }

  method ResizeBuy(cfg: CostConfig, planned: real, price: real, available: real) returns (resized: int)
    requires price > 0.0
    ensures resized == Resized(cfg, planned, price, available)
  {
    hide OrderCost;
    resized := MinI((available / price).Floor, planned.Floor);
    while resized > 0
      invariant ShrinkFrom(cfg, resized, price, available) == Resized(cfg, planned, price, available)
      decreases resized
    {
      var cost := OrderCost(cfg, resized as real, price);
      if resized as real * price + cost <= available {
        break;
      }
      var shrink := ((available - cost) / price).Floor;
      resized := MinI(resized - 1, shrink);
    }
    if resized < 0 {
      resized := 0;
    }
  }

  // ------------------------------------------------------------ how good the size is

  /** Below `x / price` shares the notional is below `x`, and conversely. */
  lemma QuotientBounds(x: real, price: real, n: int)
    requires price > 0.0
    ensures n <= (x / price).Floor <==> n as real * price <= x
  {
    var q := x / price;
    assert q * price == x;
    if n <= q.Floor {
      assert n as real <= q;
      MulMono(n as real, q, price);
    } else {
      var gap := n as real - q;
      assert gap > 0.0;
      assert gap * price > 0.0;
      assert gap * price == n as real * price - x;
    }
  }

  /** One shrink is always enough. */
  lemma OneShrinkIsEnough(cfg: CostConfig, r: int, price: real, available: real)
    requires cfg.Valid() && price > 0.0 && r > 0
    ensures var s := Shrunk(cfg, r, price, available);
      ShrinkFrom(cfg, r, price, available) == if Affordable(cfg, r, price, available) then r else if s <= 0 then 0 else s
    ensures ShrinkFrom(cfg, r, price, available) > 0 ==>
      Affordable(cfg, ShrinkFrom(cfg, r, price, available), price, available)
  {
    var s := Shrunk(cfg, r, price, available);
    var spare := available - OrderCost(cfg, r as real, price);
    QuotientBounds(spare, price, s);
    if s > 0 {
      CostMonotone(cfg, s as real, r as real, price);
      assert Needed(cfg, s as real, price) == s as real * price + OrderCost(cfg, s as real, price);
    }
    hide OrderCost;
  }

  /** `best` is the largest affordable whole number of shares within the plan. */
  ghost predicate Best(cfg: CostConfig, best: int, planned: real, price: real, available: real) {
    && 0 <= best <= planned.Floor && (best == 0 || Affordable(cfg, best, price, available))
    && forall n :: best < n <= planned.Floor ==> !Affordable(cfg, n, price, available)
  }

  /** No affordable size within the plan exceeds the seed. */
  lemma SeedDominates(cfg: CostConfig, n: int, planned: real, price: real, available: real)
    requires cfg.Valid() && price > 0.0 && 0 <= n <= planned.Floor && Affordable(cfg, n, price, available)
    ensures n <= SeedSize(planned, price, available)
  {
    CostMonotone(cfg, 0.0, n as real, price);
    hide OrderCost;
    QuotientBounds(available, price, n);
  }

  /**
   The size sent is affordable, within the plan, and short of the best affordable size by less than one
   share plus the seed's extra cost in shares.
   */
  lemma ResizeNearlyBest(cfg: CostConfig, planned: real, price: real, available: real, best: int)
    requires cfg.Valid() && price > 0.0 && Best(cfg, best, planned, price, available)
    ensures var r := Resized(cfg, planned, price, available); var seed := SeedSize(planned, price, available);
      && 0 <= r <= best && r <= planned.Floor
      && (r > 0 ==> Affordable(cfg, r, price, available))
      && (best > 0 ==>
            (best - r) as real * price < price + OrderCost(cfg, seed as real, price) - OrderCost(cfg, best as real, price))
  {
    var seed := SeedSize(planned, price, available);
    var r := Resized(cfg, planned, price, available);
    if best > 0 {
      SeedDominates(cfg, best, planned, price, available);
      CostMonotone(cfg, best as real, seed as real, price);
    }
    if seed > 0 {
      OneShrinkIsEnough(cfg, seed, price, available);
      hide OrderCost, ShrinkFrom;
      if Affordable(cfg, seed, price, available) {
        assert seed <= best;
      } else {
        ShrinkGap(cfg, seed, best, price, available);
        assert r <= planned.Floor;
      }
    }
  }

  /** How far one shrink can overshoot the best size. */
  lemma ShrinkGap(cfg: CostConfig, seed: int, best: int, price: real, available: real)
    requires cfg.Valid() && price > 0.0 && 0 <= best <= seed && !Affordable(cfg, seed, price, available)
    requires best == 0 || Affordable(cfg, best, price, available)
    ensures var s := Shrunk(cfg, seed, price, available); var r := if s <= 0 then 0 else s;
      best > 0 ==> (best - r) as real * price < price + OrderCost(cfg, seed as real, price) - OrderCost(cfg, best as real, price)
  {
    hide OrderCost;
    var s := Shrunk(cfg, seed, price, available);
    var spare := available - OrderCost(cfg, seed as real, price);
    CostMonotone(cfg, best as real, seed as real, price);
    QuotientBounds(spare, price, (spare / price).Floor + 1);
    if best > 0 && s < best {
      assert s == (spare / price).Floor;
      assert (s + 1) as real * price > spare;
      GapArithmetic(best, s, price, spare);
      if s < 0 {
        MulMono(best as real, (best - s) as real, price);
      }
    } else if best > 0 {
      MulMono((best - MaxI(s, 0)) as real, 0.0, price);
    }
  }

  lemma GapArithmetic(best: int, s: int, price: real, spare: real)
    requires (s + 1) as real * price > spare
    ensures (best - s) as real * price < best as real * price - spare + price
  {
    assert (s + 1) as real * price == s as real * price + price;
    assert (best - s) as real * price == best as real * price - s as real * price;
  }

  /**
   Exactly when the best size is what is sent: there is none, the seed itself is affordable, or the best
   size is affordable even at the seed's cost.
   */
  lemma BestSentExactly(cfg: CostConfig, planned: real, price: real, available: real, best: int)
    requires cfg.Valid() && price > 0.0 && Best(cfg, best, planned, price, available)
    ensures var seed := SeedSize(planned, price, available);
      Resized(cfg, planned, price, available) == best
      <==> best == 0 || Affordable(cfg, seed, price, available)
           || best as real * price + OrderCost(cfg, seed as real, price) <= available
  {
    hide OrderCost, ShrinkFrom, Affordable, SeedSize;
    ResizeNearlyBest(cfg, planned, price, available, best);
    if best > 0 {
      var seed := SeedSize(planned, price, available);
      SeedDominates(cfg, best, planned, price, available);
      SeedWithinPlan(planned, price, available);
      OneShrinkIsEnough(cfg, seed, price, available);
      QuotientBounds(available - OrderCost(cfg, seed as real, price), price, best);
    }
  }

  lemma SeedWithinPlan(planned: real, price: real, available: real)
    requires price > 0.0
    ensures SeedSize(planned, price, available) <= planned.Floor
  {
  }

  /** So a seed that costs no more than the best size, as with a flat fee, always leads to the best size. */
  lemma FlatCostIsBest(cfg: CostConfig, planned: real, price: real, available: real, best: int)
    requires cfg.Valid() && price > 0.0 && Best(cfg, best, planned, price, available)
    requires OrderCost(cfg, SeedSize(planned, price, available) as real, price) <= OrderCost(cfg, best as real, price)
    ensures Resized(cfg, planned, price, available) == best
  {
    hide OrderCost, Resized, SeedSize;
    BestSentExactly(cfg, planned, price, available, best);
  }

  const STEEP := CostConfig(true, 0.0, 0.9, 0.0, 0.0, 0.0)

  lemma SteepCost(n: int)
    requires n >= 1
    ensures OrderCost(STEEP, n as real, 1.0) == 0.9 * n as real
    ensures Affordable(STEEP, n, 1.0, 10.0) <==> n <= 5
  {
    assert FrictionRate(STEEP) == 0.0;
    assert n as real * 1.0 == n as real;
    assert 0.0 * (n as real * 1.0) == 0.0;
    assert MaxR(0.0, 0.9 * n as real) == 0.9 * n as real;
  }

  /** It is not always the best: a fee per share near the price leaves four of five affordable shares unbought. */
  lemma ResizeCanUndershoot()
    ensures STEEP.Valid() && Best(STEEP, 5, 20.0, 1.0, 10.0) && Resized(STEEP, 20.0, 1.0, 10.0) == 1
  {
    hide OrderCost, Affordable, ShrinkFrom;
    SteepCost(10);
    SteepCost(1);
    SteepCost(5);
    forall n | 5 < n <= 20 ensures !Affordable(STEEP, n, 1.0, 10.0) {
      SteepCost(n);
    }
    assert SeedSize(20.0, 1.0, 10.0) == 10;
    assert Shrunk(STEEP, 10, 1.0, 10.0) == 1;
    OneShrinkIsEnough(STEEP, 10, 1.0, 10.0);
  }
}
