/**
 * Paging backwards through an address's signatures
 * (crates/biscuit/src/wire/rpc/utils.rs), without the block-time limit.
 */
module Pagination {
  import opened Prelude

  type Signature = nat

  const PAGE_LIMIT: nat := 1000

  datatype Order = Forward | Backward

  datatype TerminationReason = LimitReached | UntilReached

  // ----- the node's answer -----

  /** The position of x, or the length of xs if it does not occur. */
  function IndexOf(xs: seq<Signature>, x: Signature): (i: nat)
    ensures i <= |xs|
  {
    if xs == [] then 0
    else if xs[0] == x then 0
    else 1 + IndexOf(xs[1..], x)
  }

  lemma {:induction false} FirstIndex(xs: seq<Signature>, x: Signature)
    ensures IndexOf(xs, x) < |xs| <==> x in xs
    ensures IndexOf(xs, x) < |xs| ==> xs[IndexOf(xs, x)] == x
    ensures forall j :: 0 <= j < IndexOf(xs, x) ==> xs[j] != x
    decreases |xs|
  {
    if xs == [] || xs[0] == x {
    } else {
      FirstIndex(xs[1..], x);
      forall j | 0 <= j < IndexOf(xs, x)
        ensures xs[j] != x
      {
        assert j > 0 ==> xs[1..][j - 1] == xs[j];
      }
    }
  }

  /** Every signature occurs once: it is found at its own position. */
  ghost predicate Unique(xs: seq<Signature>) {
    forall i {:trigger IndexOf(xs, xs[i])} :: 0 <= i < |xs| ==> IndexOf(xs, xs[i]) == i
  }

  /** Where a search starts: after `before`, at the newest when absent, at the end when unknown. */
  function StartOf(history: seq<Signature>, before: Option<Signature>): (i: nat)
    ensures i <= |history|
  {
    if before.None? then 0 else Min(IndexOf(history, before.value) + 1, |history|)
  }

  /** Where a search stops: at `until`, or at the end when it is absent or unknown. */
  function EndOf(history: seq<Signature>, until: Option<Signature>): (i: nat)
    ensures i <= |history|
  {
    if until.None? then |history| else IndexOf(history, until.value)
  }

  function Slice(xs: seq<Signature>, lo: nat, hi: nat): seq<Signature>
    requires lo <= |xs| && hi <= |xs|
  {
    if lo <= hi then xs[lo..hi] else []
  }

  /** Of an address's history, newest first, the signatures strictly between `before` and `until`. */
  function Segment(history: seq<Signature>, before: Option<Signature>, until: Option<Signature>): seq<Signature> {
    Slice(history, StartOf(history, before), EndOf(history, until))
  }

  /** A limit that the node accepts. */
  predicate Legal(limit: Option<nat>) {
    limit.Some? ==> limit.value <= 1000
  }

  function PageSize(limit: Option<nat>): nat {
    if limit.None? then 1000 else limit.value
  }

  /** The first `limit` signatures; all of them without a limit. */
  function Limited(segment: seq<Signature>, limit: Option<nat>): seq<Signature> {
    if limit.Some? && limit.value < |segment| then segment[..limit.value] else segment
  }

  /** One page: at most `limit` of the segment, at most a thousand without one. */
  function Page(history: seq<Signature>, before: Option<Signature>, until: Option<Signature>,
                limit: Option<nat>): seq<Signature>
  {
    Limited(Segment(history, before, until), Some(PageSize(limit)))
  }

  // ----- the request's result -----

  function Reversed(xs: seq<Signature>): seq<Signature> {
    seq(|xs|, i requires 0 <= i < |xs| => xs[|xs| - 1 - i])
  }

  function Ordered(xs: seq<Signature>, order: Option<Order>): seq<Signature> {
    if order == Some(Forward) then Reversed(xs) else xs
  }

  /** Newer signatures may be put in front of the history, nothing else changes. */
  ghost predicate Grows(older: seq<Signature>, newer: seq<Signature>) {
    |older| <= |newer| && newer[|newer| - |older|..] == older
  }

  /** The cursor after some signatures have been received. */
  function CursorAt(before: Option<Signature>, signatures: seq<Signature>): Option<Signature> {
    if signatures == [] then before else Some(signatures[|signatures| - 1])
  }

  /** Call k to the node from a cursor, with a limit: a page, or None when the call fails. */
  type Rpc = (nat, Option<Signature>, Option<nat>) -> Option<seq<Signature>>

  /**
   * The node's contract for limits that it accepts. Call k sees the history as it is by
   * then, `history(k)`: new signatures may arrive between the pages, but `until` does not.
   */
  ghost predicate Serves(rpc: Rpc, history: nat -> seq<Signature>, until: Option<Signature>) {
    && (forall k: nat :: Distinct(history(k)) && Grows(history(0), history(k)))
    && (until.Some? && until.value !in history(0) ==> forall k: nat :: until.value !in history(k))
    && (forall k: nat, cursor: Option<Signature>, limit: Option<nat> ::
          Legal(limit) && rpc(k, cursor, limit).Some? ==>
            rpc(k, cursor, limit).value == Page(history(k), cursor, until, limit))
  }

  /** Each page continues what has been received of the segment, and is empty only at its end. */
  ghost predicate PagesOf(rpc: Rpc, before: Option<Signature>, segment: seq<Signature>) {
    forall k: nat, signatures: seq<Signature>, limit: Option<nat>
        {:trigger rpc(k, CursorAt(before, signatures), limit)} ::
      signatures <= segment && Legal(limit) && limit != Some(0) && (k == 0 <==> signatures == []) ==>
        var page := rpc(k, CursorAt(before, signatures), limit);
        page.Some? ==>
          && signatures + page.value <= segment
          && |page.value| <= PageSize(limit)
          && (page.value == [] ==> signatures == segment)
  }

  // ----- why the pages fit together -----

  lemma UniqueIsDistinct(xs: seq<Signature>)
    ensures Unique(xs) <==> Distinct(xs)
  {
    if Unique(xs) {
      forall i, j | 0 <= i < j < |xs|
        ensures xs[i] != xs[j]
      {
        assert IndexOf(xs, xs[i]) == i && IndexOf(xs, xs[j]) == j;
      }
    } else {
      var i :| 0 <= i < |xs| && IndexOf(xs, xs[i]) != i;
      FirstIndex(xs, xs[i]);
      assert xs[IndexOf(xs, xs[i])] == xs[i];
    }
  }

  /** In a grown history old signatures sit at their old position from the end. */
  lemma IndexInGrown(older: seq<Signature>, newer: seq<Signature>, x: Signature)
    requires Unique(newer) && Grows(older, newer)
    requires x in older || x !in newer
    ensures IndexOf(newer, x) == IndexOf(older, x) + |newer| - |older|
  {
    FirstIndex(older, x);
    FirstIndex(newer, x);
    if x in older {
      var i := IndexOf(older, x);
      assert newer[|newer| - |older|..][i] == newer[i + |newer| - |older|];
      assert IndexOf(newer, newer[i + |newer| - |older|]) == i + |newer| - |older|;
    } else {
      assert IndexOf(newer, x) == |newer| && IndexOf(older, x) == |older| by {
        assert newer[|newer| - |older|..] == older;
      }
    }
  }

  lemma EndInGrown(older: seq<Signature>, newer: seq<Signature>, until: Option<Signature>)
    requires Unique(newer) && Grows(older, newer)
    requires until.Some? ==> until.value in older || until.value !in newer
    ensures EndOf(newer, until) == EndOf(older, until) + |newer| - |older|
  {
    if until.Some? {
      IndexInGrown(older, newer, until.value);
    }
  }

  lemma StartInGrown(older: seq<Signature>, newer: seq<Signature>, at: nat)
    requires Unique(older) && Unique(newer) && Grows(older, newer) && at < |older|
    ensures StartOf(newer, Some(older[at])) == at + 1 + |newer| - |older|
  {
    assert IndexOf(older, older[at]) == at;
    IndexInGrown(older, newer, older[at]);
  }

  lemma SliceInGrown(older: seq<Signature>, newer: seq<Signature>, lo: nat, hi: nat)
    requires Grows(older, newer) && lo <= |older| && hi <= |older|
    ensures Slice(newer, lo + |newer| - |older|, hi + |newer| - |older|) == Slice(older, lo, hi)
  {
    var shift := |newer| - |older|;
    if lo <= hi {
      assert newer[shift + lo..shift + hi] == newer[shift..][lo..hi];
    }
  }

  lemma SegmentInGrown(older: seq<Signature>, newer: seq<Signature>, cursor: Option<Signature>,
                       until: Option<Signature>, lo: nat, hi: nat)
    requires Grows(older, newer) && lo <= |older| && hi <= |older|
    requires StartOf(newer, cursor) == lo + |newer| - |older| && EndOf(newer, until) == hi + |newer| - |older|
    ensures Segment(newer, cursor, until) == Slice(older, lo, hi)
  {
    SliceInGrown(older, newer, lo, hi);
  }

  /** A search from a signature already received sees the old history from there on. */
  lemma SegmentFrom(older: seq<Signature>, newer: seq<Signature>, at: nat, until: Option<Signature>)
    requires Unique(older) && Unique(newer) && Grows(older, newer) && at < |older|
    requires until.Some? ==> until.value in older || until.value !in newer
    ensures Segment(newer, Some(older[at]), until) == Slice(older, at + 1, EndOf(older, until))
  {
    StartInGrown(older, newer, at);
    EndInGrown(older, newer, until);
    SegmentInGrown(older, newer, Some(older[at]), until, at + 1, EndOf(older, until));
  }

  lemma TailOfSlice(h: seq<Signature>, lo: nat, hi: nat, front: seq<Signature>)
    requires lo <= |h| && hi <= |h| && front <= Slice(h, lo, hi) && front != []
    ensures lo + |front| <= hi && front[|front| - 1] == h[lo + |front| - 1]
    ensures Slice(h, lo, hi)[|front|..] == Slice(h, lo + |front|, hi)
  {
    assert front[|front| - 1] == Slice(h, lo, hi)[|front| - 1];
  }

  /** Asking again from the last signature received yields the rest of the segment. */
  lemma NextSegment(h: seq<Signature>, newer: seq<Signature>, before: Option<Signature>, until: Option<Signature>,
                    signatures: seq<Signature>)
    requires Unique(h) && Unique(newer) && Grows(h, newer)
    requires until.Some? ==> until.value in h || until.value !in newer
    requires signatures <= Segment(h, before, until) && signatures != []
    ensures Segment(newer, CursorAt(before, signatures), until) == Segment(h, before, until)[|signatures|..]
  {
    TailOfSlice(h, StartOf(h, before), EndOf(h, until), signatures);
    SegmentFrom(h, newer, StartOf(h, before) + |signatures| - 1, until);
  }

  /** A page extends the signatures received by as much of the segment as it holds. */
  lemma AppendPage(segment: seq<Signature>, signatures: seq<Signature>, results: seq<Signature>, size: nat)
    requires signatures <= segment && size > 0
    requires results == Limited(segment[|signatures|..], Some(size))
    ensures signatures + results <= segment && |results| <= size
    ensures results == [] ==> signatures == segment
  {
  }

  /** The next page continues the signatures received, and is empty only at the segment's end. */
  lemma PageContinues(h: seq<Signature>, newer: seq<Signature>, before: Option<Signature>, until: Option<Signature>,
                      signatures: seq<Signature>, started: bool, limit: Option<nat>)
    requires Unique(h) && Unique(newer) && Grows(h, newer)
    requires until.Some? ==> until.value in h || until.value !in newer
    requires signatures <= Segment(h, before, until) && limit != Some(0)
    requires if started then signatures != [] else signatures == [] && newer == h
    ensures var results := Page(newer, CursorAt(before, signatures), until, limit);
            && signatures + results <= Segment(h, before, until)
            && |results| <= PageSize(limit)
            && (results == [] ==> signatures == Segment(h, before, until))
  {
    if started {
      NextSegment(h, newer, before, until, signatures);
    }
    var rest := Segment(newer, CursorAt(before, signatures), until);
    assert rest == Segment(h, before, until)[|signatures|..];
    AppendPage(Segment(h, before, until), signatures, Limited(rest, Some(PageSize(limit))), PageSize(limit));
  }

  lemma InSlice(h: seq<Signature>, lo: nat, hi: nat, i: nat)
    requires Unique(h) && lo <= |h| && hi <= |h| && i < |h|
    ensures h[i] in Slice(h, lo, hi) <==> lo <= i < hi
  {
    if lo <= i < hi {
      assert Slice(h, lo, hi)[i - lo] == h[i];
    }
    if h[i] in Slice(h, lo, hi) {
      var l :| 0 <= l < hi - lo && h[lo..hi][l] == h[i];
      assert IndexOf(h, h[lo + l]) == lo + l && IndexOf(h, h[i]) == i;
    }
  }

  lemma OccursBefore(h: seq<Signature>, x: Signature, i: nat)
    requires i <= |h|
    ensures x in h[..i] <==> IndexOf(h, x) < i
  {
    var j := IndexOf(h, x);
    FirstIndex(h, x);
    if j < i {
      assert h[..i][j] == x;
    }
  }

  /** The segment does not contain `until`. */
  lemma UntilIsOutside(h: seq<Signature>, before: Option<Signature>, until: Signature)
    requires Unique(h)
    ensures until !in Segment(h, before, Some(until))
  {
    FirstIndex(h, until);
    if until in h {
      InSlice(h, StartOf(h, before), EndOf(h, Some(until)), IndexOf(h, until));
    }
  }

  /** From `until` itself there is nothing to search. */
  lemma NothingFromUntil(h: seq<Signature>, x: Signature)
    ensures Segment(h, Some(x), Some(x)) == []
  {
  }

  /** The segment is a contiguous part of the history, in the history's order. */
  lemma SegmentIsContiguous(h: seq<Signature>, before: Option<Signature>, until: Option<Signature>)
    ensures exists lo, hi :: 0 <= lo <= hi <= |h| && Segment(h, before, until) == h[lo..hi]
  {
    var lo, hi := StartOf(h, before), EndOf(h, until);
    if lo <= hi {
      assert Segment(h, before, until) == h[lo..hi];
    } else {
      assert Segment(h, before, until) == h[0..0];
    }
  }

  /**
   * What the segment holds: exactly the signatures of the history that come after `before`
   * and not at or after `until`, in the history's order.
   */
  lemma SegmentIsBetween(h: seq<Signature>, before: Option<Signature>, until: Option<Signature>, i: nat)
    requires Distinct(h) && i < |h|
    ensures h[i] in Segment(h, before, until) <==>
              && (before.Some? ==> before.value in h[..i])
              && (until.Some? ==> until.value !in h[..i + 1])
  {
    UniqueIsDistinct(h);
    InSlice(h, StartOf(h, before), EndOf(h, until), i);
    if before.Some? {
      OccursBefore(h, before.value, i);
    }
    if until.Some? {
      OccursBefore(h, until.value, i + 1);
    }
  }

  /** A node that keeps its contract serves the pages of the segment. */
  lemma ServedPages(rpc: Rpc, history: nat -> seq<Signature>, before: Option<Signature>, until: Option<Signature>)
    requires Serves(rpc, history, until)
    ensures PagesOf(rpc, before, Segment(history(0), before, until))
    ensures until.Some? ==> until.value !in Segment(history(0), before, until)
    ensures before.Some? && before == until ==> Segment(history(0), before, until) == []
  {
    var h := history(0);
    forall k: nat
      ensures Unique(history(k))
    {
      UniqueIsDistinct(history(k));
    }
    forall k: nat, signatures: seq<Signature>, limit: Option<nat> |
      && signatures <= Segment(h, before, until) && Legal(limit) && limit != Some(0) && (k == 0 <==> signatures == [])
      && rpc(k, CursorAt(before, signatures), limit).Some?
      ensures var page := rpc(k, CursorAt(before, signatures), limit).value;
              && signatures + page <= Segment(h, before, until)
              && |page| <= PageSize(limit)
              && (page == [] ==> signatures == Segment(h, before, until))
    {
      PageContinues(h, history(k), before, until, signatures, k > 0, limit);
    }
    if until.Some? {
      UntilIsOutside(h, before, until.value);
      NothingFromUntil(h, until.value);
    }
  }

  // ----- the search as it runs -----

  /** The paging loop: it collects the beginning of the segment, without gap or duplicate. */
  method CollectPages(rpc: Rpc, before: Option<Signature>, until: Option<Signature>, count: Option<nat>,
                      ghost segment: seq<Signature>)
    returns (result: Result<(seq<Signature>, TerminationReason), nat>)
    requires PagesOf(rpc, before, segment)
    requires until.Some? ==> until.value !in segment
    requires before.Some? && before == until ==> segment == []
    ensures result.Ok? ==>
              && result.value.0 == Limited(segment, count)
              && (result.value.1 == LimitReached <==> count.Some? && count.value <= |segment|)
    ensures result.Err? ==> exists cursor, limit: Option<nat> :: Legal(limit) && rpc(result.error, cursor, limit).None?
  {
    var limit: Option<nat> := count;
    var signatures: seq<Signature> := [];
    var cursor := before;
    var k := 0;
    while true
      invariant cursor == CursorAt(before, signatures) && signatures <= segment
      invariant k == 0 <==> signatures == []
      invariant limit.Some? <==> count.Some?
      invariant limit.Some? ==> limit.value + |signatures| == count.value
      decreases |segment| - |signatures|
    {
      if limit == Some(0) {
        return Ok((signatures, LimitReached));
      }
      if cursor == until && cursor.Some? {
        return Ok((signatures, UntilReached));
      }
      var asked := if limit.None? then None else Some(Min(limit.value, PAGE_LIMIT));
      var page := rpc(k, cursor, asked);
      assert page == rpc(k, CursorAt(before, signatures), asked);
      if page.None? {
        return Err(k);
      }
      var results := page.value;
      if results == [] {
        return Ok((signatures, UntilReached));
      }
      limit := if limit.None? then None
               else Some(if |results| <= limit.value then limit.value - |results| else 0);
      cursor := Some(results[|results| - 1]);
      signatures := signatures + results;
      k := k + 1;
    }
  }

  /** The first signatures of a segment, newest first or turned around. */
  lemma OrderedLimited(segment: seq<Signature>, limit: Option<nat>, order: Option<Order>)
    ensures var xs := Ordered(Limited(segment, limit), order);
            && |xs| == (if limit.None? then |segment| else Min(limit.value, |segment|))
            && forall i :: 0 <= i < |xs| ==>
                 xs[i] == segment[if order == Some(Forward) then |xs| - 1 - i else i]
  {
  }

  /** Of several limits the last one counts. */
  method ReadLimits(limits: seq<nat>) returns (limit: Option<nat>)
    ensures limit == if limits == [] then None else Some(limits[|limits| - 1])
  {
    limit := None;
    for i := 0 to |limits|
      invariant limit == if i == 0 then None else Some(limits[i - 1])
    {
      limit := Some(limits[i]);
    }
  }

  /** The search over pages that fit a segment: its limits, the loop, and the order asked for. */
  method SearchPages(rpc: Rpc, before: Option<Signature>, until: Option<Signature>, limits: seq<nat>,
                     order: Option<Order>, ghost segment: seq<Signature>)
    returns (result: Result<(seq<Signature>, TerminationReason), nat>)
    requires PagesOf(rpc, before, segment)
    requires until.Some? ==> until.value !in segment
    requires before.Some? && before == until ==> segment == []
    ensures result.Ok? ==>
              var xs := result.value.0;
              && |xs| == (if limits == [] then |segment| else Min(limits[|limits| - 1], |segment|))
              && (forall i :: 0 <= i < |xs| ==>
                    xs[i] == segment[if order == Some(Forward) then |xs| - 1 - i else i])
              && (result.value.1 == LimitReached <==> limits != [] && limits[|limits| - 1] <= |segment|)
    ensures result.Err? ==> exists cursor, limit: Option<nat> :: Legal(limit) && rpc(result.error, cursor, limit).None?
  {
    var limit := ReadLimits(limits);
    var collected := CollectPages(rpc, before, until, limit, segment);
    if collected.Err? {
      return collected;
    }
    OrderedLimited(segment, limit, order);
    return Ok((Ordered(collected.value.0, order), collected.value.1));
  }

  /**
   * The signatures strictly between `before` and `until`, as the history stood at the first
   * call: the first of them if a limit is given, newest first unless asked otherwise. Of
   * several limits the last one counts. Only a failing call stops the search early.
   */
  method GetSignaturesForAddress(
      rpc: Rpc, ghost history: nat -> seq<Signature>,
      before: Option<Signature>, until: Option<Signature>, limits: seq<nat>, order: Option<Order>)
    returns (result: Result<(seq<Signature>, TerminationReason), nat>)
    requires Serves(rpc, history, until)
    ensures result.Ok? ==>
              var segment := Segment(history(0), before, until);
              var xs := result.value.0;
              && |xs| == (if limits == [] then |segment| else Min(limits[|limits| - 1], |segment|))
              && (forall i :: 0 <= i < |xs| ==>
                    xs[i] == segment[if order == Some(Forward) then |xs| - 1 - i else i])
              && (result.value.1 == LimitReached <==> limits != [] && limits[|limits| - 1] <= |segment|)
    ensures result.Err? ==> exists cursor, limit: Option<nat> :: Legal(limit) && rpc(result.error, cursor, limit).None?
  {
    ServedPages(rpc, history, before, until);
    result := SearchPages(rpc, before, until, limits, order, Segment(history(0), before, until));
  }
}
