/**
 * Which Orca tick arrays a swap may cross (crates/biscuit/src/swap/orca/utils.rs).
 * A tick array is named by its start index; deriving its address is left out.
 */
module TickArrays {
  import opened Prelude

  const TICK_ARRAY_SIZE: int := 88
  const MIN_TICK_INDEX: int := -443636
  const MAX_TICK_INDEX: int := 443636
  const MAX_SWAP_TICK_ARRAYS: nat := 3

  /** The source language's remainder, whose sign follows the dividend. */
  function TruncatedMod(a: int, b: int): int
    requires b > 0
  {
    if a >= 0 then a % b else -((-a) % b)
  }

  function Width(spacing: int): int {
    TICK_ARRAY_SIZE * spacing
  }

  predicate Accepted(start: int, spacing: int)
    requires spacing > 0
  {
    var w := Width(spacing);
    var minTick := MIN_TICK_INDEX - (TruncatedMod(MIN_TICK_INDEX, w) + w);
    minTick < start < MAX_TICK_INDEX
  }

  /** The start of the array `offset` arrays away from the one holding `tick` (lines 84-88). */
  function StartAt(tick: int, spacing: int, offset: int): int
    requires spacing > 0
  {
    (tick / Width(spacing) + offset) * Width(spacing)
  }

  function GetStartTickIndex(tick: int, spacing: int, offset: int): Option<int>
    requires spacing > 0
  {
    var start := StartAt(tick, spacing, offset);
    if Accepted(start, spacing) then Some(start) else None
  }

  /** Plus or minus one, the direction in which a swap walks the arrays. */
  function Direction(aToB: bool): int {
    if aToB then -1 else 1
  }

  function ShiftedTick(tick: int, spacing: int, aToB: bool): int {
    tick + (if aToB then 0 else spacing)
  }

  /** The k-th array in swap direction. */
  function NthStart(tick: int, spacing: int, aToB: bool, k: nat): int
    requires spacing > 0
  {
    StartAt(ShiftedTick(tick, spacing, aToB), spacing, Direction(aToB) * k)
  }

  /**
   * The arrays of a swap: the longest run of at most three in-range arrays, counted
   * from the array of the shifted tick in swap direction.
   */
  method GetTickArrayKeys(tick: int, spacing: int, aToB: bool) returns (starts: seq<int>)
    requires spacing > 0
    ensures |starts| <= 3
    ensures forall k :: 0 <= k < |starts| ==>
              starts[k] == NthStart(tick, spacing, aToB, k) && Accepted(starts[k], spacing)
    ensures |starts| < 3 ==> !Accepted(NthStart(tick, spacing, aToB, |starts|), spacing)
  {
    var shift := if aToB then 0 else spacing;
    var offset := 0;
    starts := [];
    for i := 0 to MAX_SWAP_TICK_ARRAYS
      invariant |starts| == i
      invariant offset == Direction(aToB) * i
      invariant forall k :: 0 <= k < i ==>
                  starts[k] == NthStart(tick, spacing, aToB, k) && Accepted(starts[k], spacing)
    {
      var r := GetStartTickIndex(tick + shift, spacing, offset);
      if r.None? {
        return;
      }
      starts := starts + [r.value];
      offset := if aToB then offset - 1 else offset + 1;
    }
  }

  lemma MultipleMod(q: int, w: int)
    requires w > 0
    ensures (q * w) % w == 0
  {
    var x := q * w;
    assert x == w * (x / w) + x % w;
    var e := q - x / w;
    assert e * w == x % w;
    if e >= 1 {
      assert false;
    } else if e <= -1 {
      assert false;
    }
  }

  /**
   * Neighbouring arrays are 88 spacings apart in swap direction, and the first one holds the
   * tick going down, or the tick one spacing further going up.
   */
  lemma ArraysAreConsecutive(tick: int, spacing: int, aToB: bool, k: nat)
    requires spacing > 0
    ensures aToB ==> NthStart(tick, spacing, aToB, k) == NthStart(tick, spacing, aToB, 0) - k * (88 * spacing)
    ensures !aToB ==> NthStart(tick, spacing, aToB, k) == NthStart(tick, spacing, aToB, 0) + k * (88 * spacing)
    ensures NthStart(tick, spacing, aToB, 0) % (88 * spacing) == 0
    ensures var first := NthStart(tick, spacing, aToB, 0);
            first <= (if aToB then tick else tick + spacing) < first + 88 * spacing
  {
    var t, w := ShiftedTick(tick, spacing, aToB), Width(spacing);
    var q := t / w;
    assert t == w * q + t % w;
    MultipleMod(q, w);
    if aToB {
      assert (q - k) * w == q * w - k * w;
    } else {
      assert (q + k) * w == q * w + k * w;
    }
  }

  /** Multiples above (b - 1) * w are those from b * w on. */
  lemma NextMultiple(b: int, m: int, w: int)
    requires w > 0
    ensures b * w - w < m * w <==> b <= m
  {
    if b <= m {
      ScaleMono(b, m, w);
    } else {
      ScaleMono(m, b - 1, w);
      assert (b - 1) * w == b * w - w;
    }
  }

  /** A multiple of the width is in range exactly from minus the last whole width below MAX_TICK_INDEX. */
  lemma AcceptedRange(spacing: int, m: int)
    requires spacing > 0
    ensures var w := 88 * spacing;
            Accepted(m * w, spacing) <==> -(443636 / w) <= m && m * w < 443636
  {
    var w := Width(spacing);
    var q := MAX_TICK_INDEX / w;
    var bottom := -q * w;
    assert MAX_TICK_INDEX == w * q + MAX_TICK_INDEX % w;
    assert MIN_TICK_INDEX - (TruncatedMod(MIN_TICK_INDEX, w) + w) == bottom - w;
    NextMultiple(-q, m, w);
  }

  /** The array index of the k-th array. */
  function NthIndex(tick: int, spacing: int, aToB: bool, k: nat): int
    requires spacing > 0
  {
    ShiftedTick(tick, spacing, aToB) / Width(spacing) + Direction(aToB) * k
  }

  /** Some array at or beyond the k-th in swap direction is in range. */
  ghost predicate ReachesRange(tick: int, spacing: int, aToB: bool, k: nat)
    requires spacing > 0
  {
    exists j: nat :: j >= k && Accepted(NthStart(tick, spacing, aToB, j), spacing)
  }

  /**
   * When the first array is in range, the walk stops early only at the edge: an array
   * out of range means that no array further on is in range either.
   */
  lemma EarlyBreakIsFinal(tick: int, spacing: int, aToB: bool, k: nat)
    requires spacing > 0
    requires Accepted(NthStart(tick, spacing, aToB, 0), spacing)
    requires !Accepted(NthStart(tick, spacing, aToB, k), spacing)
    ensures !ReachesRange(tick, spacing, aToB, k)
  {
    var w := Width(spacing);
    var m0, mk := NthIndex(tick, spacing, aToB, 0), NthIndex(tick, spacing, aToB, k);
    AcceptedRange(spacing, m0);
    AcceptedRange(spacing, mk);
    forall j: nat | j >= k
      ensures !Accepted(NthStart(tick, spacing, aToB, j), spacing)
    {
      var mj := NthIndex(tick, spacing, aToB, j);
      AcceptedRange(spacing, mj);
      ScaleMono(mj, mk, w);
      ScaleMono(mk, m0, w);
      ScaleMono(mk, mj, w);
    }
  }

  /**
   * When the first array is out of range the result is empty; whether usable arrays
   * lie ahead depends only on the side: exactly when the walk starts below the range
   * and goes up, or starts above it and goes down.
   */
  lemma EmptyWalk(tick: int, spacing: int, aToB: bool)
    requires spacing > 0
    requires !Accepted(NthStart(tick, spacing, aToB, 0), spacing)
    ensures ReachesRange(tick, spacing, aToB, 0) <==>
              aToB == (NthStart(tick, spacing, aToB, 0) >= MAX_TICK_INDEX)
  {
    var w := Width(spacing);
    var m0 := NthIndex(tick, spacing, aToB, 0);
    AcceptedRange(spacing, m0);
    AcceptedRange(spacing, 0);
    if aToB == (m0 * w >= MAX_TICK_INDEX) {
      ScaleMono(0, m0, w);
      ScaleMono(m0, 0, w);
      var j: nat := if aToB then m0 else -m0;
      assert NthStart(tick, spacing, aToB, j) == 0 * w;
      assert Accepted(NthStart(tick, spacing, aToB, j), spacing);
    } else {
      forall j: nat
        ensures !Accepted(NthStart(tick, spacing, aToB, j), spacing)
      {
        var mj := NthIndex(tick, spacing, aToB, j);
        AcceptedRange(spacing, mj);
        ScaleMono(m0, mj, w);
        ScaleMono(mj, m0, w);
      }
    }
  }

  /**
   * The lower bound is exclusive, so the partial array at the bottom is refused: at the
   * lowest tick a swap upwards gets no arrays although the next one is in range.
   */
  lemma LowestArrayIsRefused()
    ensures GetStartTickIndex(MIN_TICK_INDEX, 1, 0) == None
    ensures GetStartTickIndex(MIN_TICK_INDEX + 1, 1, 0) == None
    ensures GetStartTickIndex(MIN_TICK_INDEX + 1, 1, 1) == Some(-443608)
    ensures ReachesRange(MIN_TICK_INDEX, 1, false, 0)
  {
    assert NthStart(MIN_TICK_INDEX, 1, false, 1) == -443608;
  }
}
