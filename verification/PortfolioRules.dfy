/**
 From target weights to orders in plain figures: what the clamp makes of each weight, what the diff does with
 one symbol, and when a holding counts as converged.
 */
module PortfolioRules {
  import opened Common
  import opened Portfolio
  import opened RebalanceSpec

  // ------------------------------------------------------------ the clamp

  /** One weight within its own bounds: not negative unless shorts are allowed, at most the position cap. */
  ghost predicate CappedTo(cfg: ClampConfig, w: real, capped: real) {
    var floored := if w < 0.0 && !cfg.allowShort then 0.0 else w;
    capped == if floored > cfg.maxWeight then cfg.maxWeight else floored
  }

  /** `capped` are the weights within their own bounds and `sizes` their absolute values. */
  ghost predicate CappedAll(cfg: ClampConfig, ws: Weights, capped: seq<real>, sizes: seq<real>) {
    && |capped| == |ws| && |sizes| == |ws|
    && (forall i :: 0 <= i < |ws| ==> CappedTo(cfg, ws[i].1, capped[i]))
    && (forall i :: 0 <= i < |ws| ==> sizes[i] == if capped[i] < 0.0 then -capped[i] else capped[i])
  }

  lemma {:induction false} GrossIsSum(ws: Weights, sizes: seq<real>)
    requires |sizes| == |ws| && forall i :: 0 <= i < |ws| ==> sizes[i] == AbsR(ws[i].1)
    ensures Gross(ws) == Sum(sizes)
  {
    if |ws| > 0 { GrossIsSum(ws[..|ws| - 1], sizes[..|ws| - 1]); }
  }

  /**
   The clamp keeps every symbol with its weight within its own bounds, and when their sizes together exceed the
   gross cap it scales all of them by the same factor, the one that brings the sum to the cap exactly.
   */
  lemma ClampExactly(cfg: ClampConfig, ws: Weights, capped: seq<real>, sizes: seq<real>)
    requires cfg.Valid() && CappedAll(cfg, ws, capped, sizes)
    ensures var r := Clamp(cfg, ws);
      var cap := if cfg.allowLeverage || cfg.maxGross < 1.0 then cfg.maxGross else 1.0;
      && |r| == |ws| && (forall i :: 0 <= i < |ws| ==> r[i].0 == ws[i].0)
      && (Sum(sizes) <= cap ==> forall i :: 0 <= i < |ws| ==> r[i].1 == capped[i])
      && (Sum(sizes) > cap ==> forall i :: 0 <= i < |ws| ==> Product(r[i].1, Sum(sizes)) == Product(capped[i], cap))
  {
    var clamped := ClampEach(cfg, ws);
    forall i | 0 <= i < |ws| ensures clamped[i] == (ws[i].0, capped[i]) {
      assert CappedTo(cfg, ws[i].1, capped[i]);
    }
    GrossIsSum(clamped, sizes);
    var cap := if cfg.allowLeverage || cfg.maxGross < 1.0 then cfg.maxGross else 1.0;
    assert GrossCap(cfg) == cap;
    hide CappedAll, CappedTo, Gross, ClampEach, Sum;
    if Sum(sizes) > cap {
      forall i | 0 <= i < |ws| ensures Product(Clamp(cfg, ws)[i].1, Sum(sizes)) == Product(capped[i], cap) {
        Rescaled(capped[i], cap, Sum(sizes));
      }
    }
  }

  ghost function Product(a: real, b: real): real { a * b }

  lemma Rescaled(w: real, cap: real, gross: real)
    requires gross > 0.0
    ensures Product(Times(w, cap / gross), gross) == Product(w, cap)
  {
    var f := cap / gross;
    assert f * gross == cap;
    assert w * f * gross == w * (f * gross);
  }

  // ------------------------------------------------------------ the diff

  /** `n` whole shares are what the weight's part of equity buys. */
  ghost predicate Buys(weight: real, equity: real, price: real, n: int) {
    n as real * price <= weight * equity < (n + 1) as real * price
  }

  lemma SharesBought(weight: real, equity: real, price: real, n: int)
    requires price > 0.0 && Buys(weight, equity, price, n)
    ensures TargetShares(weight, equity, price) == n
  {
    WholeQuotient(weight * equity, price, n);
  }

  lemma WholeQuotient(value: real, price: real, n: int)
    requires price > 0.0 && n as real * price <= value < (n + 1) as real * price
    ensures (value / price).Floor == n
  {
    var q := value / price;
    assert q * price == value;
    WholeBelow(q, value, price, n);
  }

  lemma WholeBelow(q: real, value: real, price: real, n: int)
    requires price > 0.0 && q * price == value && n as real * price <= value < (n + 1) as real * price
    ensures q.Floor == n
  {
    FactorsOrdered(n as real, q, price, n as real * price, value);
    FactorsOrdered(q, (n + 1) as real, price, value, (n + 1) as real * price);
  }

  lemma FactorsOrdered(a: real, b: real, k: real, ak: real, bk: real)
    requires k > 0.0 && ak == a * k && bk == b * k
    ensures ak <= bk ==> a <= b
    ensures ak < bk ==> a < b
  {
    if a > b { assert (a - b) * k > 0.0; }
  }

  lemma WeightAtLeast(shares: real, price: real, equity: real, band: real)
    requires equity > 0.0
    ensures WeightAt(shares, price, equity) < band <==> shares * price < band * equity
  {
    var w := WeightAt(shares, price, equity);
    assert w * equity == shares * price;
    if w < band { assert (band - w) * equity > 0.0; } else { MulMono(band, w, equity); }
  }

  /**
   One symbol exactly: with `n` whole shares the target, a holding is sold out when `n` is nil, whatever the band;
   otherwise the difference is traded whole when it is worth at least the band's part of equity, and left alone
   when it is nil or worth less.
   */
  lemma MoveExactly(held: real, weight: real, price: real, equity: real, band: real, n: int)
    requires price > 0.0 && equity > 0.0 && Buys(weight, equity, price, n)
    ensures var gap := if n as real < held then held - n as real else n as real - held;
      var exits := n == 0 && held > 0.0; var trades := gap != 0.0 && gap * price >= band * equity;
      MoveFor(held, weight, price, equity, band)
      == if exits then Exit else if trades then Change(n as real - held) else Stay
  {
    SharesBought(weight, equity, price, n);
    hide TargetShares, Buys, WeightAt;
    WeightAtLeast(AbsR(n as real - held), price, equity, band);
  }

  /** The order a move becomes: a full exit of the holding, or the difference on its own side. */
  lemma OrderExactly(id: int, symbol: string, held: real, move: Move)
    ensures OrderFor(id, symbol, held, move) ==
      match move
      case Stay => []
      case Exit => [Order(id, symbol, Side.Sell, held, true, None)]
      case Change(d) => [Order(id, symbol, if d > 0.0 then Side.Buy else Side.Sell, if d > 0.0 then d else -d, false, None)]
  {
  }

  // ------------------------------------------------------------ convergence

  /** A holding has converged exactly when its value is within the tolerance's part of equity, or one share, of its target's. */
  lemma ConvergedExactly(held: real, weight: real, price: real, equity: real, tolerance: real)
    requires equity > 0.0
    ensures var gap := if held * price < weight * equity then weight * equity - held * price else held * price - weight * equity;
      ConvergedAt(held, weight, price, equity, tolerance) <==> gap <= tolerance * equity || gap <= price
  {
    hide MaxR, AbsR, WeightAt;
    var w := WeightAt(held, price, equity);
    var one := WeightAt(1.0, price, equity);
    WorthOf(held, price, equity);
    WorthOf(1.0, price, equity);
    DeviationValue(w, weight, equity, held * price);
    GapWithin(AbsR(w - weight), MaxR(tolerance, one), tolerance, one, equity);
  }

  lemma WorthOf(shares: real, price: real, equity: real)
    requires equity > 0.0
    ensures WeightAt(shares, price, equity) * equity == shares * price
  {
  }

  lemma GapWithin(d: real, larger: real, a: real, b: real, k: real)
    requires k > 0.0 && larger == MaxR(a, b)
    ensures d <= larger <==> d * k <= a * k || d * k <= b * k
  {
    AtMostScaled(d, a, k);
    AtMostScaled(d, b, k);
  }

  lemma DeviationValue(w: real, weight: real, equity: real, value: real)
    requires equity > 0.0 && w * equity == value
    ensures AbsR(w - weight) * equity == if value < weight * equity then weight * equity - value else value - weight * equity
  {
    assert (w - weight) * equity == value - weight * equity;
    assert (weight - w) * equity == weight * equity - value;
    AtMostScaled(weight, w, equity);
  }

  /** A symbol without a usable price counts by its target weight alone. */
  lemma UnpricedExactly(symbol: string, positions: map<string, real>, targets: map<string, real>, prices: map<string, real>,
                        equity: real, tolerance: real)
    requires equity > 0.0 && !(symbol in prices && prices[symbol] > 0.0)
    ensures var weight := if symbol in targets then targets[symbol] else 0.0;
      AtTarget(symbol, positions, targets, prices, equity, tolerance) <==>
        weight == 0.0 || (-tolerance <= weight <= tolerance)
  {
  }
}
