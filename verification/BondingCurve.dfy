/**
 * The Pump bonding curve: constant-product quotes over integer reserves
 * (crates/biscuit/src/swap/pump/bonding_curve.rs), and what those quotes
 * guarantee over whole trading runs.
 *
 * All fields and amounts are unsigned 64-bit integers. A subtraction, addition
 * or multiplication that leaves that range is the error `Overflow`; the casts
 * `as u64`, which truncate silently, are written as `% U64_LIMIT`.
 */
module BondingCurve {
  import opened Prelude

  const FEE_DENOMINATOR: nat := 10_000

  datatype Curve = Curve(
    virtualToken: nat,
    virtualSol: nat,
    realToken: nat,
    realSol: nat,
    complete: bool)

  datatype QuoteError = CurveComplete | Overflow

  type Quote = Result<nat, QuoteError>

  ghost predicate Fits(c: Curve) {
    c.virtualToken < U64_LIMIT && c.virtualSol < U64_LIMIT && c.realToken < U64_LIMIT && c.realSol < U64_LIMIT
  }

  /** Tokens bought for `amount` lamports (lines 13-33). */
  function GetBuyPrice(c: Curve, amount: nat): Quote {
    if c.complete then Err(CurveComplete)
    else if amount == 0 then Ok(0)
    else if c.virtualSol + amount >= U64_LIMIT then Err(Overflow)
    else
      var n := c.virtualSol * c.virtualToken;
      var i := c.virtualSol + amount;
      var r := (n / i) % U64_LIMIT + 1;
      if r >= U64_LIMIT || c.virtualToken < r then Err(Overflow)
      else Ok(Min(c.realToken, c.virtualToken - r))
  }

  /** Lamports leaving the curve for `amount` tokens, before the fee (lines 45-46). */
  function GrossSale(c: Curve, amount: nat): nat
    requires amount > 0
  {
    ((amount * c.virtualSol) / (c.virtualToken + amount)) % U64_LIMIT
  }

  /** Lamports paid to a seller of `amount` tokens, net of the fee (lines 35-52). */
  function GetSellPrice(c: Curve, amount: nat, feeBps: nat): Quote {
    if c.complete then Err(CurveComplete)
    else if amount == 0 then Ok(0)
    else
      var n := GrossSale(c, amount);
      if n * feeBps >= U64_LIMIT then Err(Overflow)
      else
        var a := (n * feeBps) / FEE_DENOMINATOR;
        if n < a then Err(Overflow) else Ok(n - a)
  }

  /** Lamports that buy out `amount` tokens; the cap is on the SOL reserve, as written (lines 62-69). */
  function GetBuyOutPrice(c: Curve, amount: nat, feeBps: nat): Quote {
    var t := Min(amount, c.realSol);
    if t >= c.virtualToken then Err(Overflow)
    else
      var total := ((t * c.virtualSol) / (c.virtualToken - t) + 1) % U64_LIMIT;
      if total * feeBps >= U64_LIMIT then Err(Overflow)
      else
        var fee := (total * feeBps) / FEE_DENOMINATOR;
        if total + fee >= U64_LIMIT then Err(Overflow) else Ok(total + fee)
  }

  // ----- integer division -----

  lemma MulStrict(a: nat, b: nat, c: nat)
    requires a < b && c > 0
    ensures a * c < b * c
  {
    assert b * c == a * c + (b - a) * c;
    assert (b - a) * c > 0;
  }

  /** x / d >= q exactly when x >= q * d. */
  lemma QuotientAtLeast(x: nat, d: nat, q: nat)
    requires d > 0
    ensures x / d >= q <==> x >= q * d
  {
    QuotientBounds(x, d);
    if x / d >= q {
      ScaleMono(q, x / d, d);
    } else {
      ScaleMono(x / d + 1, q, d);
    }
  }

  lemma QuotientMono(x: nat, y: nat, d: nat)
    requires d > 0 && x <= y
    ensures x / d <= y / d
  {
    var q := x / d;
    QuotientAtLeast(x, d, q);
    QuotientAtLeast(y, d, q);
  }

  // ----- single quotes -----

  /** The virtual token reserve that a purchase must leave behind: floor(k / sol') + 1. */
  function Remainder(c: Curve, amount: nat): nat
    requires c.virtualSol + amount > 0
  {
    (c.virtualSol * c.virtualToken) / (c.virtualSol + amount) + 1
  }

  /** A positive purchase leaves at most the current reserve, unless there is no reserve at all. */
  lemma RemainderBound(c: Curve, amount: nat)
    requires amount > 0
    ensures c.virtualToken > 0 ==> 1 <= Remainder(c, amount) <= c.virtualToken
    ensures c.virtualToken == 0 ==> Remainder(c, amount) == 1
  {
    var n, i := c.virtualSol * c.virtualToken, c.virtualSol + amount;
    if c.virtualToken > 0 {
      MulStrict(c.virtualSol, i, c.virtualToken);
      QuotientAtLeast(n, i, c.virtualToken);
    } else {
      QuotientAtLeast(0, i, 1);
    }
  }

  /**
   * A positive purchase on an open curve has a quote unless the SOL sum overflows
   * or the curve holds no virtual tokens; neither the truncating cast nor the
   * final subtraction can fail otherwise.
   */
  lemma BuyQuote(c: Curve, amount: nat)
    requires Fits(c) && amount > 0
    ensures GetBuyPrice(c, amount).Ok? <==>
              !c.complete && c.virtualSol + amount < U64_LIMIT && c.virtualToken > 0
    ensures GetBuyPrice(c, amount).Ok? ==>
              && Remainder(c, amount) <= c.virtualToken
              && GetBuyPrice(c, amount).value == Min(c.realToken, c.virtualToken - Remainder(c, amount))
  {
    RemainderBound(c, amount);
    var q := (c.virtualSol * c.virtualToken) / (c.virtualSol + amount);
    assert q % U64_LIMIT == q;
  }

  /** What remains after a purchase is the least reserve that keeps the product strictly above the old one. */
  lemma RemainderKeepsProduct(c: Curve, amount: nat)
    requires c.virtualSol + amount > 0
    ensures Remainder(c, amount) * (c.virtualSol + amount) > c.virtualSol * c.virtualToken
    ensures (Remainder(c, amount) - 1) * (c.virtualSol + amount) <= c.virtualSol * c.virtualToken
  {
    QuotientBounds(c.virtualSol * c.virtualToken, c.virtualSol + amount);
  }

  lemma SaleArithmetic(sol: nat, token: nat, amount: nat, q: nat)
    requires amount > 0 && q * (token + amount) <= amount * sol < (q + 1) * (token + amount)
    ensures q <= sol
    ensures (sol - q) * (token + amount) >= sol * token
    ensures (sol - q - 1) * (token + amount) < sol * token
  {
    var d := token + amount;
    assert sol * d == sol * token + amount * sol;
    if q > sol {
      MulStrict(sol, q, d);
      assert false;
    }
    assert (sol - q) * d == sol * d - q * d;
    assert (sol - q - 1) * d == sol * d - (q + 1) * d;
  }

  /** A sale pays the most that leaves the product no smaller: one lamport more would lower it. */
  lemma SaleKeepsProduct(c: Curve, amount: nat)
    requires Fits(c) && amount > 0
    ensures GrossSale(c, amount) == (amount * c.virtualSol) / (c.virtualToken + amount)
    ensures GrossSale(c, amount) <= c.virtualSol
    ensures (c.virtualSol - GrossSale(c, amount)) * (c.virtualToken + amount) >= c.virtualSol * c.virtualToken
    ensures (c.virtualSol - GrossSale(c, amount) - 1) * (c.virtualToken + amount) < c.virtualSol * c.virtualToken
  {
    var x, d := amount * c.virtualSol, c.virtualToken + amount;
    var q := x / d;
    QuotientBounds(x, d);
    SaleArithmetic(c.virtualSol, c.virtualToken, amount, q);
    assert q % U64_LIMIT == q;
  }

  /** A seller never receives more than leaves the curve, whatever the fee. */
  lemma NetAtMostGross(c: Curve, amount: nat, feeBps: nat)
    requires amount > 0 && GetSellPrice(c, amount, feeBps).Ok?
    ensures GetSellPrice(c, amount, feeBps).value <= GrossSale(c, amount)
  {
  }

  lemma FeeArithmetic(n: nat, feeBps: nat)
    ensures var a := (n * feeBps) / FEE_DENOMINATOR;
            && (a <= n <==> n * feeBps < n * 10_000 + 10_000)
            && n * 10_000 - n * feeBps <= (n - a) * 10_000 < n * 10_000 - n * feeBps + 10_000
  {
    QuotientBounds(n * feeBps, FEE_DENOMINATOR);
  }

  /**
   * A sale has a quote exactly on an open curve whose fee neither overflows nor exceeds the
   * sale by a whole lamport or more, and then pays the share left by the fee, rounded up.
   */
  lemma NetIsShareRoundedUp(c: Curve, amount: nat, feeBps: nat)
    requires amount > 0
    ensures var n := GrossSale(c, amount);
            && (GetSellPrice(c, amount, feeBps).Ok? <==>
                  !c.complete && n * feeBps < U64_LIMIT && n * feeBps < n * 10_000 + 10_000)
            && (GetSellPrice(c, amount, feeBps).Ok? ==>
                  var share := n * 10_000 - n * feeBps;
                  share <= GetSellPrice(c, amount, feeBps).value * 10_000 < share + 10_000)
  {
    FeeArithmetic(GrossSale(c, amount), feeBps);
  }

  /** A completed curve refuses every quote with its own error, an open one only for overflow; nothing costs nothing. */
  lemma QuoteErrors(c: Curve, amount: nat, feeBps: nat)
    ensures GetBuyPrice(c, amount) == Err(CurveComplete) <==> c.complete
    ensures GetSellPrice(c, amount, feeBps) == Err(CurveComplete) <==> c.complete
    ensures GetBuyPrice(c, amount).Err? && !c.complete ==> GetBuyPrice(c, amount).error == Overflow
    ensures !c.complete ==> GetBuyPrice(c, 0) == Ok(0) && GetSellPrice(c, 0, feeBps) == Ok(0)
  {
  }

  // ----- trading runs -----

  datatype Trade = Buy(sol: nat) | Sell(tokens: nat, feeBps: nat)

  /** The reserves after a trade executed at its quoted amount; None when there is no quote or no room. */
  function Apply(c: Curve, t: Trade): Option<Curve> {
    match t
    case Buy(x) =>
      var q := GetBuyPrice(c, x);
      if q.Ok? && q.value <= c.virtualToken && q.value <= c.realToken && c.realSol + x < U64_LIMIT
      then Some(c.(virtualToken := c.virtualToken - q.value, virtualSol := c.virtualSol + x,
                   realToken := c.realToken - q.value, realSol := c.realSol + x))
      else None
    case Sell(k, fee) =>
      if GetSellPrice(c, k, fee).Err? then None
      else if k == 0 then Some(c)
      else
        var n := GrossSale(c, k);
        if n <= c.virtualSol && n <= c.realSol && c.virtualToken + k < U64_LIMIT && c.realToken + k < U64_LIMIT
        then Some(c.(virtualToken := c.virtualToken + k, virtualSol := c.virtualSol - n,
                     realToken := c.realToken + k, realSol := c.realSol - n))
        else None
  }

  function Execute(c: Curve, ts: seq<Trade>): Option<Curve>
    decreases |ts|
  {
    if ts == [] then Some(c)
    else match Apply(c, ts[0])
      case None => None
      case Some(c') => Execute(c', ts[1..])
  }

  function Product(c: Curve): nat {
    c.virtualSol * c.virtualToken
  }

  /** The lamports traders hand over in a run. */
  function PaidIn(ts: seq<Trade>): nat {
    if ts == [] then 0
    else (if ts[0].Buy? then ts[0].sol else 0) + PaidIn(ts[1..])
  }

  /** The lamports traders are paid in a run, net of fees. */
  function PaidOut(c: Curve, ts: seq<Trade>): nat
    requires Execute(c, ts).Some?
    decreases |ts|
  {
    if ts == [] then 0
    else
      (if ts[0].Sell? then GetSellPrice(c, ts[0].tokens, ts[0].feeBps).value else 0)
      + PaidOut(Apply(c, ts[0]).value, ts[1..])
  }

  /** A trade that puts SOL into the curve. */
  predicate Pays(t: Trade) {
    t.Buy? && t.sol > 0
  }

  lemma StepKeepsProduct(c: Curve, t: Trade)
    requires Fits(c) && c.virtualToken > 0 && Apply(c, t).Some?
    ensures var c' := Apply(c, t).value;
            && Fits(c')
            && c'.virtualToken > 0
            && Product(c') >= Product(c)
            && (Pays(t) ==> Product(c') > Product(c))
            && c'.virtualSol - c.virtualSol == c'.realSol - c.realSol
            && c'.virtualToken - c.virtualToken == c'.realToken - c.realToken
  {
    var c' := Apply(c, t).value;
    match t
    case Buy(x) =>
      if x > 0 {
        BuyQuote(c, x);
        RemainderKeepsProduct(c, x);
        ScaleMono(Remainder(c, x), c'.virtualToken, c'.virtualSol);
      }
    case Sell(k, fee) =>
      if k > 0 {
        SaleKeepsProduct(c, k);
      }
  }

  /** The SOL reserve moves by what traders pay in, less at least what they take out. */
  lemma StepConservesSol(c: Curve, t: Trade)
    requires Fits(c) && Apply(c, t).Some?
    ensures Apply(c, t).value.virtualSol <=
              c.virtualSol + PaidIn([t]) - PaidOut(c, [t])
  {
    assert [t][1..] == [];
    assert Execute(Apply(c, t).value, [t][1..]).Some?;
    if t.Sell? && t.tokens > 0 {
      NetAtMostGross(c, t.tokens, t.feeBps);
    }
  }

  /**
   * Safety over every run of quoted buys and sells: the virtual-reserve product
   * never decreases (and strictly increases as soon as someone pays), the virtual
   * token reserve stays positive, and virtual and real reserves move in step.
   */
  lemma {:induction false} RunKeepsProduct(c: Curve, ts: seq<Trade>)
    requires Fits(c) && c.virtualToken > 0 && Execute(c, ts).Some?
    ensures var c' := Execute(c, ts).value;
            && Fits(c')
            && c'.virtualToken > 0
            && Product(c') >= Product(c)
            && ((exists t :: t in ts && Pays(t)) ==> Product(c') > Product(c))
            && c'.virtualSol - c.virtualSol == c'.realSol - c.realSol
            && c'.virtualToken - c.virtualToken == c'.realToken - c.realToken
    decreases |ts|
  {
    if ts == [] {
    } else {
      StepKeepsProduct(c, ts[0]);
      RunKeepsProduct(Apply(c, ts[0]).value, ts[1..]);
      assert forall t :: t in ts ==> t == ts[0] || t in ts[1..];
    }
  }

  /** Over a run, traders take out at most what they paid in minus what the reserve gained. */
  lemma {:induction false} RunConservesSol(c: Curve, ts: seq<Trade>)
    requires Fits(c) && c.virtualToken > 0 && Execute(c, ts).Some?
    ensures Execute(c, ts).value.virtualSol <= c.virtualSol + PaidIn(ts) - PaidOut(c, ts)
    decreases |ts|
  {
    if ts == [] {
    } else {
      StepKeepsProduct(c, ts[0]);
      StepConservesSol(c, ts[0]);
      RunConservesSol(Apply(c, ts[0]).value, ts[1..]);
      assert [ts[0]][1..] == [];
    }
  }

  /** The tokens sold into the curve in a run. */
  function TokensIn(ts: seq<Trade>): nat {
    if ts == [] then 0
    else (if ts[0].Sell? then ts[0].tokens else 0) + TokensIn(ts[1..])
  }

  /** The tokens bought from the curve in a run, as quoted. */
  function TokensOut(c: Curve, ts: seq<Trade>): nat
    requires Execute(c, ts).Some?
    decreases |ts|
  {
    if ts == [] then 0
    else (if ts[0].Buy? then GetBuyPrice(c, ts[0].sol).value else 0) + TokensOut(Apply(c, ts[0]).value, ts[1..])
  }

  /** The lamports leaving the curve in a run, fees included. */
  function GrossOut(c: Curve, ts: seq<Trade>): nat
    requires Execute(c, ts).Some?
    decreases |ts|
  {
    if ts == [] then 0
    else
      (if ts[0].Sell? && ts[0].tokens > 0 then GrossSale(c, ts[0].tokens) else 0)
      + GrossOut(Apply(c, ts[0]).value, ts[1..])
  }

  /** Both virtual reserves change by exactly what the quotes of the run move. */
  lemma {:induction false} RunConservesReserves(c: Curve, ts: seq<Trade>)
    requires Execute(c, ts).Some?
    ensures var c' := Execute(c, ts).value;
            && c'.virtualSol + GrossOut(c, ts) == c.virtualSol + PaidIn(ts)
            && c'.virtualToken + TokensOut(c, ts) == c.virtualToken + TokensIn(ts)
            && c'.complete == c.complete
    decreases |ts|
  {
    if ts == [] {
    } else {
      RunConservesReserves(Apply(c, ts[0]).value, ts[1..]);
    }
  }

  /**
   * No run that leaves the curve with no more virtual tokens than it started with
   * extracts SOL: traders are paid at most what they paid in, and strictly less
   * as soon as one of them paid anything.
   */
  lemma NoFreeSol(c: Curve, ts: seq<Trade>)
    requires Fits(c) && c.virtualToken > 0 && Execute(c, ts).Some?
    requires Execute(c, ts).value.virtualToken <= c.virtualToken
    ensures PaidOut(c, ts) <= PaidIn(ts)
    ensures (exists t :: t in ts && Pays(t)) ==> PaidOut(c, ts) < PaidIn(ts)
  {
    var c' := Execute(c, ts).value;
    RunKeepsProduct(c, ts);
    RunConservesSol(c, ts);
    ScaleMono(c'.virtualToken, c.virtualToken, c'.virtualSol);
    assert c'.virtualSol * c.virtualToken >= Product(c);
    if c'.virtualSol < c.virtualSol {
      MulStrict(c'.virtualSol, c.virtualSol, c.virtualToken);
      assert false;
    }
  }

  lemma SaleBackBelow(c: Curve, c': Curve, x: nat, t: nat)
    requires Fits(c') && t > 0
    requires c'.virtualSol == c.virtualSol + x && c'.virtualToken + t == c.virtualToken
    requires Product(c') > Product(c)
    ensures GrossSale(c', t) < x
  {
    SaleKeepsProduct(c', t);
    var left := c'.virtualSol - GrossSale(c', t);
    assert left * c.virtualToken > c.virtualSol * c.virtualToken;
    if left <= c.virtualSol {
      ScaleMono(left, c.virtualSol, c.virtualToken);
      assert false;
    }
  }

  /** Buying with `x` lamports and selling the tokens straight back loses money at every fee. */
  lemma RoundTripLoses(c: Curve, x: nat, feeBps: nat)
    requires Fits(c) && c.virtualToken > 0 && x > 0
    requires Apply(c, Buy(x)).Some?
    ensures var tokens := GetBuyPrice(c, x).value;
            var back := GetSellPrice(Apply(c, Buy(x)).value, tokens, feeBps);
            back.Ok? ==> back.value < x
  {
    var t := GetBuyPrice(c, x).value;
    var c' := Apply(c, Buy(x)).value;
    if t > 0 {
      StepKeepsProduct(c, Buy(x));
      SaleBackBelow(c, c', x, t);
      if GetSellPrice(c', t, feeBps).Ok? {
        NetAtMostGross(c', t, feeBps);
      }
    }
  }

  // ----- splitting a purchase -----

  function Buys(xs: seq<nat>): seq<Trade> {
    if xs == [] then [] else [Buy(xs[0])] + Buys(xs[1..])
  }

  function Sum(xs: seq<nat>): nat {
    if xs == [] then 0 else xs[0] + Sum(xs[1..])
  }

  /** A purchase from reserves with a larger product leaves at least as much behind. */
  lemma RemainderMono(c: Curve, d: Curve, x: nat, y: nat)
    requires Product(c) <= Product(d)
    requires c.virtualSol + x == d.virtualSol + y > 0
    ensures Remainder(c, x) <= Remainder(d, y)
  {
    QuotientMono(Product(c), Product(d), c.virtualSol + x);
  }

  lemma {:induction false} BuysAddUp(c: Curve, xs: seq<nat>)
    requires Fits(c) && c.virtualToken > 0 && Execute(c, Buys(xs)).Some?
    ensures Execute(c, Buys(xs)).value.virtualSol == c.virtualSol + Sum(xs)
    ensures Sum(xs) == 0 ==> Execute(c, Buys(xs)).value == c
    decreases |xs|
  {
    if xs == [] {
    } else {
      assert Buys(xs)[1..] == Buys(xs[1..]);
      StepKeepsProduct(c, Buy(xs[0]));
      BuysAddUp(Apply(c, Buy(xs[0])).value, xs[1..]);
    }
  }

  /** After a list of purchases the curve holds at least the remainder of the single purchase. */
  lemma {:induction false} LastRemainder(c: Curve, xs: seq<nat>)
    requires Fits(c) && c.virtualToken > 0 && Execute(c, Buys(xs)).Some? && Sum(xs) > 0
    ensures Execute(c, Buys(xs)).value.virtualToken >= Remainder(c, Sum(xs))
    decreases |xs|
  {
    assert Buys(xs)[1..] == Buys(xs[1..]);
    var d := Apply(c, Buy(xs[0])).value;
    StepKeepsProduct(c, Buy(xs[0]));
    if Sum(xs[1..]) > 0 {
      LastRemainder(d, xs[1..]);
      RemainderMono(c, d, Sum(xs), Sum(xs[1..]));
    } else {
      BuysAddUp(d, xs[1..]);
      BuyQuote(c, xs[0]);
    }
  }

  /**
   * Splitting never helps: any list of purchases yields at most the tokens of one
   * purchase for the same total, which then has a quote, the cap on the real reserve
   * included.
   */
  lemma SplittingNeverHelps(c: Curve, xs: seq<nat>)
    requires Fits(c) && c.virtualToken > 0 && Execute(c, Buys(xs)).Some?
    requires xs != [] || !c.complete
    ensures GetBuyPrice(c, Sum(xs)).Ok?
    ensures c.virtualToken - Execute(c, Buys(xs)).value.virtualToken <= GetBuyPrice(c, Sum(xs)).value
  {
    RunKeepsProduct(c, Buys(xs));
    BuysAddUp(c, xs);
    assert xs != [] ==> Buys(xs)[0] == Buy(xs[0]);
    if Sum(xs) > 0 {
      BuyQuote(c, Sum(xs));
      LastRemainder(c, xs);
    }
  }

  // ----- the buy-out price -----

  /** The exact, untruncated zero-fee price of `t` tokens. */
  function ExactPrice(c: Curve, t: nat): (p: nat)
    requires t < c.virtualToken
    ensures p >= 1
  {
    (t * c.virtualSol) / (c.virtualToken - t) + 1
  }

  /** Without a fee the buy-out price is the exact price modulo the 64-bit cast. */
  lemma BuyOutIsExact(c: Curve, amount: nat)
    requires Min(amount, c.realSol) < c.virtualToken
    ensures GetBuyOutPrice(c, amount, 0) == Ok(ExactPrice(c, Min(amount, c.realSol)) % U64_LIMIT)
  {
    var total := ExactPrice(c, Min(amount, c.realSol)) % U64_LIMIT;
    assert total * 0 == 0;
  }

  /** A purchase leaves room for `t` tokens exactly from the exact price upwards. */
  lemma RemainderAtMost(c: Curve, t: nat, x: nat)
    requires t < c.virtualToken && x > 0
    ensures Remainder(c, x) <= c.virtualToken - t <==> x >= ExactPrice(c, t)
  {
    var n, i, m := c.virtualSol * c.virtualToken, c.virtualSol + x, c.virtualToken - t;
    QuotientAtLeast(n, i, m);
    assert Remainder(c, x) <= m <==> n < m * i;
    assert m * i == m * c.virtualSol + m * x;
    assert n == m * c.virtualSol + t * c.virtualSol;
    assert n < m * i <==> t * c.virtualSol < x * m;
    QuotientAtLeast(t * c.virtualSol, m, x);
  }

  /**
   * The buy-out price inverts the buy price: for t >= 1 tokens that the real reserve
   * covers, the purchases that yield at least t are exactly those of at least the
   * exact price. With fewer real tokens no amount yields t.
   */
  lemma BuyOutInvertsBuy(c: Curve, t: nat, x: nat)
    requires Fits(c) && 1 <= t < c.virtualToken
    requires GetBuyPrice(c, x).Ok?
    ensures GetBuyPrice(c, x).value >= t <==> x >= ExactPrice(c, t) && t <= c.realToken
  {
    if x > 0 {
      BuyQuote(c, x);
      RemainderAtMost(c, t, x);
    }
  }

  lemma ExactPriceMono(c: Curve, s: nat, t: nat)
    requires s <= t < c.virtualToken
    ensures ExactPrice(c, s) <= ExactPrice(c, t)
  {
    var p := (s * c.virtualSol) / (c.virtualToken - s);
    QuotientBounds(s * c.virtualSol, c.virtualToken - s);
    ScaleMono(s, t, c.virtualSol);
    ScaleMono(c.virtualToken - t, c.virtualToken - s, p);
    QuotientAtLeast(t * c.virtualSol, c.virtualToken - t, p);
  }

  /** `x` lamports have a quote, and it is at least `goal` tokens. */
  ghost predicate Yields(c: Curve, x: nat, goal: nat) {
    GetBuyPrice(c, x).Ok? && GetBuyPrice(c, x).value >= goal
  }

  /** `p` is the least purchase that yields at least `goal` tokens. */
  ghost predicate IsLeastPurchase(c: Curve, goal: nat, p: nat) {
    Yields(c, p, goal) && forall x: nat :: Yields(c, x, goal) ==> p <= x
  }

  /** A smaller positive purchase has a quote too. */
  lemma QuoteBelow(c: Curve, w: nat, p: nat)
    requires Fits(c) && 0 < w <= p && GetBuyPrice(c, p).Ok?
    ensures GetBuyPrice(c, w).Ok?
  {
    BuyQuote(c, p);
    BuyQuote(c, w);
  }

  /** What the real reserve can give must cost: nothing for no tokens, else the exact price. */
  function Needed(c: Curve, g: nat): nat
    requires g < c.virtualToken
  {
    if g == 0 then 0 else ExactPrice(c, g)
  }

  /** A goal within the real reserve has one least purchase, what it needs, if that can be paid at all. */
  lemma LeastPurchaseIff(c: Curve, g: nat, p: nat)
    requires Fits(c) && g < c.virtualToken && g <= c.realToken
    ensures IsLeastPurchase(c, g, p) <==>
              !c.complete && c.virtualSol + Needed(c, g) < U64_LIMIT && p == Needed(c, g)
  {
    var w := Needed(c, g);
    if g == 0 {
      assert Yields(c, 0, 0) <==> !c.complete;
    } else {
      BuyQuote(c, w);
      forall x: nat | GetBuyPrice(c, x).Ok?
        ensures Yields(c, x, g) <==> x >= w
      {
        BuyOutInvertsBuy(c, g, x);
      }
      if Yields(c, p, g) {
        QuoteBelow(c, w, p);
        assert Yields(c, w, g);
      }
    }
  }

  /**
   * What the buy-out price is worth. Asked for `amount` tokens, capped as written to t, of
   * which the real reserve can give g, it returns a price exactly when t is below the
   * virtual reserve. That price is the least purchase that yields g if and only if the
   * curve is open, the sum needed for g can be paid, and the 64-bit price of t is that sum.
   */
  lemma BuyOutIsLeastPurchase(c: Curve, amount: nat)
    requires Fits(c)
    ensures var t := Min(amount, c.realSol);
            var g := Min(t, c.realToken);
            && (GetBuyOutPrice(c, amount, 0).Ok? <==> t < c.virtualToken)
            && (t < c.virtualToken ==>
                  (IsLeastPurchase(c, g, GetBuyOutPrice(c, amount, 0).value) <==>
                    && !c.complete
                    && c.virtualSol + Needed(c, g) < U64_LIMIT
                    && ExactPrice(c, t) % U64_LIMIT == Needed(c, g)))
  {
    var t := Min(amount, c.realSol);
    if t < c.virtualToken {
      BuyOutIsExact(c, amount);
      LeastPurchaseIff(c, Min(t, c.realToken), GetBuyOutPrice(c, amount, 0).value);
    }
  }

  /**
   * If the real reserve covers what is asked for, the price is the least purchase as soon
   * as the curve is open and it can be paid; there is no other condition.
   */
  lemma BuyOutWithinReserve(c: Curve, amount: nat)
    requires Fits(c)
    requires 1 <= Min(amount, c.realSol) < c.virtualToken && Min(amount, c.realSol) <= c.realToken
    ensures var t := Min(amount, c.realSol);
            IsLeastPurchase(c, t, GetBuyOutPrice(c, amount, 0).value) <==>
              !c.complete && c.virtualSol + ExactPrice(c, t) < U64_LIMIT
  {
    var t := Min(amount, c.realSol);
    BuyOutIsLeastPurchase(c, amount);
    assert Needed(c, t) == ExactPrice(c, t) && Min(t, c.realToken) == t;
    assert ExactPrice(c, t) < U64_LIMIT ==> ExactPrice(c, t) % U64_LIMIT == ExactPrice(c, t);
  }

  /**
   * Beyond the real reserve the prices of what is asked for and of what can be had agree
   * exactly when the purchase of the latter already leaves so little that rounding
   * absorbs the difference.
   */
  lemma PriceBeyondReserve(c: Curve, t: nat)
    requires c.realToken < t < c.virtualToken
    ensures ExactPrice(c, t) == ExactPrice(c, c.realToken) <==>
              Remainder(c, ExactPrice(c, c.realToken)) <= c.virtualToken - t
  {
    RemainderAtMost(c, t, ExactPrice(c, c.realToken));
    ExactPriceMono(c, c.realToken, t);
  }

  /** A price that the cast truncates belongs to an amount no 64-bit purchase can buy. */
  lemma TruncatedPriceIsUnreachable(c: Curve, t: nat, x: nat)
    requires Fits(c) && 1 <= t < c.virtualToken
    ensures ExactPrice(c, t) >= U64_LIMIT && GetBuyPrice(c, x).Ok? ==> GetBuyPrice(c, x).value < t
  {
    if GetBuyPrice(c, x).Ok? {
      BuyOutInvertsBuy(c, t, x);
      if x > 0 {
        BuyQuote(c, x);
      }
    }
  }

  /** With fewer real tokens than asked for, a cheaper purchase already exhausts the reserve. */
  lemma BuyOutOverpaysBeyondReserve()
    ensures var c := Curve(100, 100, 10, 50, false);
            && GetBuyOutPrice(c, 50, 0) == Ok(101)
            && GetBuyPrice(c, 101) == Ok(10)
            && GetBuyPrice(c, 12) == Ok(10)
            && !IsLeastPurchase(c, 10, 101)
  {
    var c := Curve(100, 100, 10, 50, false);
    assert Yields(c, 12, 10);
  }

  /** A price of 2^64 lamports is truncated to nothing, although no purchase yields the token. */
  lemma BuyOutPriceIsTruncated()
    ensures var c := Curve(2, U64_LIMIT - 1, 1, 1, false);
            && GetBuyOutPrice(c, 1, 0) == Ok(0)
            && GetBuyPrice(c, 0) == Ok(0)
            && forall x: nat :: !Yields(c, x, 1)
  {
    var c := Curve(2, U64_LIMIT - 1, 1, 1, false);
    assert ExactPrice(c, 1) == U64_LIMIT;
    BuyOutIsExact(c, 1);
    forall x: nat
      ensures !Yields(c, x, 1)
    {
      if GetBuyPrice(c, x).Ok? {
        TruncatedPriceIsUnreachable(c, 1, x);
      }
    }
  }

  // ----- the fee on a buy-out -----

  /**
   * With a fee the buy-out price has a quote exactly when the price without one has and
   * neither the fee product nor the sum overflows; it then is that price plus the fee's
   * share of it, rounded down.
   */
  lemma BuyOutAddsFee(c: Curve, amount: nat, feeBps: nat)
    ensures var base, price := GetBuyOutPrice(c, amount, 0), GetBuyOutPrice(c, amount, feeBps);
            && (price.Ok? <==>
                  base.Ok? && base.value * feeBps < U64_LIMIT
                  && base.value * 10_000 + base.value * feeBps < U64_LIMIT * 10_000)
            && (price.Ok? ==>
                  var whole := base.value * 10_000 + base.value * feeBps;
                  price.value * 10_000 <= whole < price.value * 10_000 + 10_000)
  {
    var t := Min(amount, c.realSol);
    if t < c.virtualToken {
      BuyOutIsExact(c, amount);
      var total := ExactPrice(c, t) % U64_LIMIT;
      QuotientBounds(total * feeBps, FEE_DENOMINATOR);
    }
  }
}
