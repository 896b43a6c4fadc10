/**
 * Turning a priority fee into a compute-unit price
 * (crates/biscuit/src/swap/builder.rs), against the fee that the runtime charges
 * for that price.
 */
module ComputePrice {
  import opened Prelude

  const MICRO_LAMPORTS_PER_LAMPORT: nat := 1_000_000

  function SaturatingSub(a: nat, b: nat): nat {
    if a < b then 0 else a - b
  }

  /** The quotient before it is clamped to 64 bits. */
  function UnclampedPrice(fee: nat, units: nat): nat {
    SaturatingSub(fee * MICRO_LAMPORTS_PER_LAMPORT, MICRO_LAMPORTS_PER_LAMPORT - 1) / (units + 1)
  }

  function CalculateCuPrice(fee: nat, units: nat): nat {
    Min(UnclampedPrice(fee, units), U64_LIMIT - 1)
  }

  /** What the runtime charges: the price times the units, rounded up to whole lamports. */
  function ChargedFee(price: nat, units: nat): nat {
    (price * units + (MICRO_LAMPORTS_PER_LAMPORT - 1)) / MICRO_LAMPORTS_PER_LAMPORT
  }

  /** The price is the largest 64-bit number that, over one unit more, leaves 999999 micro-lamports of the fee. */
  lemma PriceIsLargest(fee: nat, units: nat, p: nat)
    ensures p <= CalculateCuPrice(fee, units) <==>
              p == 0 || (p < U64_LIMIT && p * (units + 1) + 999_999 <= fee * 1_000_000)
  {
    var budget := SaturatingSub(fee * MICRO_LAMPORTS_PER_LAMPORT, MICRO_LAMPORTS_PER_LAMPORT - 1);
    QuotientBounds(budget, units + 1);
    ScaleMono(p, budget / (units + 1), units + 1);
    ScaleMono(budget / (units + 1) + 1, p, units + 1);
    ScaleMono(1, p, units + 1);
  }

  /** The charge is the price of the units in whole lamports, rounded up. */
  lemma ChargeIsRoundedUp(price: nat, units: nat)
    ensures ChargedFee(price, units) * 1_000_000 - 1_000_000 < price * units
              <= ChargedFee(price, units) * 1_000_000
  {
    QuotientBounds(price * units + (MICRO_LAMPORTS_PER_LAMPORT - 1), MICRO_LAMPORTS_PER_LAMPORT);
  }

  /** Charging is monotone in the price. */
  lemma ChargedFeeMono(p: nat, q: nat, units: nat)
    requires p <= q
    ensures ChargedFee(p, units) <= ChargedFee(q, units)
  {
    assert q * units == p * units + (q - p) * units;
    assert (q - p) * units >= 0;
  }

  /** The price never charges more than the requested fee. */
  lemma NeverOverspends(fee: nat, units: nat)
    ensures ChargedFee(CalculateCuPrice(fee, units), units) <= fee
  {
    var p := UnclampedPrice(fee, units);
    var budget := SaturatingSub(fee * MICRO_LAMPORTS_PER_LAMPORT, MICRO_LAMPORTS_PER_LAMPORT - 1);
    QuotientBounds(budget, units + 1);
    assert p * (units + 1) == p * units + p;
    assert p * units <= budget;
    ChargedFeeMono(CalculateCuPrice(fee, units), p, units);
  }

  lemma ShortfallArithmetic(f: nat, p: nat, u: nat, c: nat)
    requires p * u <= c
    requires f - (MICRO_LAMPORTS_PER_LAMPORT - 1) < p * (u + 1) + (u + 1)
    ensures (f - c) * (u + 1) < f + (u + MICRO_LAMPORTS_PER_LAMPORT) * (u + 1)
  {
    var x := p * u;
    var gap := f - x - p;
    assert p * (u + 1) == x + p;
    assert gap * u <= (u + MICRO_LAMPORTS_PER_LAMPORT) * u by {
      ScaleMono(gap, u + MICRO_LAMPORTS_PER_LAMPORT, u);
    }
    assert (f - c) * (u + 1) <= (f - x) * (u + 1) by {
      ScaleMono(f - c, f - x, u + 1);
    }
    assert (gap + p) * (u + 1) == gap * u + gap + (x + p);
    assert (u + MICRO_LAMPORTS_PER_LAMPORT) * (u + 1) ==
           (u + MICRO_LAMPORTS_PER_LAMPORT) * u + (u + MICRO_LAMPORTS_PER_LAMPORT);
  }

  /**
   * Unless the price is clamped, the charge falls short of the requested fee by less
   * than fee / (units + 1) + units / 10^6 + 1 lamports; the bound is stated with the
   * denominators 10^6 and units + 1 multiplied out.
   */
  lemma ShortfallIsBounded(fee: nat, units: nat)
    requires UnclampedPrice(fee, units) < U64_LIMIT
    ensures (fee - ChargedFee(CalculateCuPrice(fee, units), units)) * MICRO_LAMPORTS_PER_LAMPORT * (units + 1)
              < fee * MICRO_LAMPORTS_PER_LAMPORT + (units + MICRO_LAMPORTS_PER_LAMPORT) * (units + 1)
  {
    var p := CalculateCuPrice(fee, units);
    var charged := ChargedFee(p, units);
    var scaledFee := fee * MICRO_LAMPORTS_PER_LAMPORT;
    var budget := SaturatingSub(scaledFee, MICRO_LAMPORTS_PER_LAMPORT - 1);
    QuotientBounds(budget, units + 1);
    assert charged * MICRO_LAMPORTS_PER_LAMPORT >= p * units;
    ShortfallArithmetic(scaledFee, p, units, charged * MICRO_LAMPORTS_PER_LAMPORT);
    assert (fee - charged) * MICRO_LAMPORTS_PER_LAMPORT == scaledFee - charged * MICRO_LAMPORTS_PER_LAMPORT;
  }
}
