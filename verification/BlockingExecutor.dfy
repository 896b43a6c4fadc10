/**
 * The blocking transaction executor
 * (crates/biscuit/src/wire/send_txn/blocking_executor.rs): a pending list compacted in
 * place by the clearing thread, and the ids that travel through it.
 *
 * Every method below is one step taken under a lock, so a run of the executor is a
 * sequence of calls in any order.
 */
module BlockingExecutor {
  import opened Prelude

  const TIMEOUT_MS: nat := 30_000
  const STATUS_CHUNK: nat := 200

  type Signature = nat

  datatype Pending = Pending(sig: Signature, sentAt: nat, id: nat)

  datatype Status = Status(ok: bool)

  // ----- the clearing pass as a filter -----

  /** Milliseconds since sending; the 64-bit subtraction wraps when the clock ran backwards. */
  function Age(now: nat, sentAt: nat): nat {
    (now - sentAt) % U64_LIMIT
  }

  predicate Retained(p: Pending, status: Option<Status>, now: nat) {
    status.None? && Age(now, p.sentAt) <= TIMEOUT_MS
  }

  /** Sent at most thirty seconds ago on a 64-bit clock, which may have wrapped around since. */
  predicate Recent(sentAt: nat, now: nat) {
    sentAt <= now <= sentAt + 30_000 || now + U64_LIMIT <= sentAt + 30_000
  }

  /** An entry is retained exactly when it has no status yet and was sent recently. */
  lemma RetainedIff(p: Pending, status: Option<Status>, now: nat)
    requires now < U64_LIMIT && p.sentAt < U64_LIMIT
    ensures Retained(p, status, now) <==> status.None? && Recent(p.sentAt, now)
  {
    if now >= p.sentAt {
      assert Age(now, p.sentAt) == now - p.sentAt;
    } else {
      assert Age(now, p.sentAt) == now - p.sentAt + U64_LIMIT;
    }
  }

  /** The elements of xs whose flag is set, in order. */
  function Select<T>(xs: seq<T>, flags: seq<bool>): seq<T>
    requires |xs| == |flags|
  {
    if xs == [] then []
    else
      var n := |xs| - 1;
      Select(xs[..n], flags[..n]) + (if flags[n] then [xs[n]] else [])
  }

  function RetainFlags(ps: seq<Pending>, statuses: seq<Option<Status>>, now: nat): seq<bool>
    requires |ps| == |statuses|
  {
    seq(|ps|, k requires 0 <= k < |ps| => Retained(ps[k], statuses[k], now))
  }

  function Negated(flags: seq<bool>): seq<bool> {
    seq(|flags|, k requires 0 <= k < |flags| => !flags[k])
  }

  function Ids(ps: seq<Pending>): seq<nat> {
    seq(|ps|, k requires 0 <= k < |ps| => ps[k].id)
  }

  function Kept(ps: seq<Pending>, statuses: seq<Option<Status>>, now: nat): seq<Pending>
    requires |ps| == |statuses|
  {
    Select(ps, RetainFlags(ps, statuses, now))
  }

  function ClearedIds(ps: seq<Pending>, statuses: seq<Option<Status>>, now: nat): seq<nat>
    requires |ps| == |statuses|
  {
    Select(Ids(ps), Negated(RetainFlags(ps, statuses, now)))
  }

  lemma SelectStep<T>(xs: seq<T>, flags: seq<bool>, j: nat)
    requires |xs| == |flags| && j < |xs|
    ensures Select(xs[..j + 1], flags[..j + 1])
              == Select(xs[..j], flags[..j]) + (if flags[j] then [xs[j]] else [])
  {
    assert xs[..j + 1][..j] == xs[..j] && flags[..j + 1][..j] == flags[..j];
  }

  /** The positions of the set flags, in order. */
  function Positions(flags: seq<bool>): (at: seq<nat>)
    ensures forall m :: 0 <= m < |at| ==> at[m] < |flags|
    ensures forall l, m :: 0 <= l < m < |at| ==> at[l] < at[m]
  {
    if flags == [] then []
    else
      var n := |flags| - 1;
      Positions(flags[..n]) + (if flags[n] then [n] else [])
  }

  lemma {:induction false} PositionIff(flags: seq<bool>, k: nat)
    ensures k in Positions(flags) <==> k < |flags| && flags[k]
    decreases |flags|
  {
    if flags == [] {
    } else {
      PositionIff(flags[..|flags| - 1], k);
    }
  }

  lemma {:induction false} SelectAtPositions<T>(xs: seq<T>, flags: seq<bool>)
    requires |xs| == |flags|
    ensures var at := Positions(flags);
            && |Select(xs, flags)| == |at|
            && (forall m :: 0 <= m < |at| ==> at[m] < |xs| && Select(xs, flags)[m] == xs[at[m]])
  {
    if xs == [] {
    } else {
      SelectAtPositions(xs[..|xs| - 1], flags[..|xs| - 1]);
    }
  }

  /**
   * `Select` is the stable filter: it lists the elements at strictly increasing positions,
   * and those are exactly the flagged ones.
   */
  lemma {:induction false} SelectIsStableFilter<T>(xs: seq<T>, flags: seq<bool>)
    requires |xs| == |flags|
    ensures var at := Positions(flags);
            && |Select(xs, flags)| == |at|
            && (forall m :: 0 <= m < |at| ==> at[m] < |xs| && Select(xs, flags)[m] == xs[at[m]])
            && (forall l, m :: 0 <= l < m < |at| ==> at[l] < at[m])
            && (forall k: nat :: k in at <==> k < |flags| && flags[k])
  {
    forall k: nat
      ensures k in Positions(flags) <==> k < |flags| && flags[k]
    {
      PositionIff(flags, k);
    }
    SelectAtPositions(xs, flags);
  }

  /** Adding one element to either part adds it to the whole. */
  lemma PartitionStep<T>(a: seq<T>, b: seq<T>, xs: seq<T>, x: T)
    requires multiset(a) + multiset(b) == multiset(xs)
    ensures multiset(a + [x]) + multiset(b) == multiset(xs + [x])
    ensures multiset(a) + multiset(b + [x]) == multiset(xs + [x])
  {
  }

  /** Selecting from one more element, by its flag and by its negated flag. */
  lemma SelectSnoc<T>(front: seq<T>, x: T, flags: seq<bool>, flag: bool)
    requires |front| == |flags|
    ensures Select(front + [x], flags + [flag]) == Select(front, flags) + (if flag then [x] else [])
    ensures Negated(flags + [flag]) == Negated(flags) + [!flag]
  {
    assert (front + [x])[..|front|] == front && (flags + [flag])[..|front|] == flags;
  }

  lemma SelectPartitionsStep<T>(front: seq<T>, x: T, flags: seq<bool>, flag: bool)
    requires |front| == |flags|
    requires multiset(Select(front, flags)) + multiset(Select(front, Negated(flags))) == multiset(front)
    ensures multiset(Select(front + [x], flags + [flag])) + multiset(Select(front + [x], Negated(flags + [flag])))
              == multiset(front + [x])
  {
    SelectSnoc(front, x, flags, flag);
    SelectSnoc(front, x, Negated(flags), !flag);
    PartitionStep(Select(front, flags), Select(front, Negated(flags)), front, x);
    assert Select(front, flags) + [] == Select(front, flags);
    assert Select(front, Negated(flags)) + [] == Select(front, Negated(flags));
  }

  lemma {:induction false} SelectPartitions<T>(xs: seq<T>, flags: seq<bool>)
    requires |xs| == |flags|
    ensures multiset(Select(xs, flags)) + multiset(Select(xs, Negated(flags))) == multiset(xs)
  {
    if xs == [] {
    } else {
      var n := |xs| - 1;
      SelectPartitions(xs[..n], flags[..n]);
      SelectPartitionsStep(xs[..n], xs[n], flags[..n], flags[n]);
      FrontAndLast(xs);
      FrontAndLast(flags);
    }
  }

  lemma {:induction false} SelectIds(ps: seq<Pending>, flags: seq<bool>)
    requires |ps| == |flags|
    ensures Ids(Select(ps, flags)) == Select(Ids(ps), flags)
  {
    if ps == [] {
    } else {
      var n := |ps| - 1;
      SelectIds(ps[..n], flags[..n]);
      assert Ids(ps)[..n] == Ids(ps[..n]);
    }
  }

  /** Kept and cleared ids partition the ids of the list. */
  lemma ClearingPartitions(ps: seq<Pending>, statuses: seq<Option<Status>>, now: nat)
    requires |ps| == |statuses|
    ensures multiset(Ids(Kept(ps, statuses, now))) + multiset(ClearedIds(ps, statuses, now)) == multiset(Ids(ps))
  {
    var flags := RetainFlags(ps, statuses, now);
    SelectIds(ps, flags);
    SelectPartitions(Ids(ps), flags);
  }

  /** An entry stays in the list, in its order, exactly if its own status and age retain it. */
  lemma KeptIff(ps: seq<Pending>, statuses: seq<Option<Status>>, now: nat, k: nat)
    requires |ps| == |statuses| && k < |ps| && now < U64_LIMIT && ps[k].sentAt < U64_LIMIT
    ensures var kept := Positions(RetainFlags(ps, statuses, now));
            var cleared := Positions(Negated(RetainFlags(ps, statuses, now)));
            && (k in kept <==> statuses[k].None? && Recent(ps[k].sentAt, now))
            && (k in cleared <==> statuses[k].Some? || !Recent(ps[k].sentAt, now))
  {
    RetainedIff(ps[k], statuses[k], now);
    PositionIff(RetainFlags(ps, statuses, now), k);
    PositionIff(Negated(RetainFlags(ps, statuses, now)), k);
  }

  /** The positions among the first n where the statuses report a transaction, succeeded or failed. */
  function ReportedAt(statuses: seq<Option<Status>>, n: nat, ok: bool): set<nat>
    requires n <= |statuses|
  {
    set k: nat | k < n && statuses[k] == Some(Status(ok))
  }

  function Reported(statuses: seq<Option<Status>>, ok: bool): nat {
    |ReportedAt(statuses, |statuses|, ok)|
  }

  lemma ReportedStep(statuses: seq<Option<Status>>, j: nat, ok: bool)
    requires j < |statuses|
    ensures |ReportedAt(statuses, j + 1, ok)|
              == |ReportedAt(statuses, j, ok)| + (if statuses[j] == Some(Status(ok)) then 1 else 0)
  {
    assert ReportedAt(statuses, j + 1, ok)
        == ReportedAt(statuses, j, ok) + (if statuses[j] == Some(Status(ok)) then {j} else {});
  }

  /** Looking at the element at i, removing it, and stepping over it. */
  lemma SplitAt<T>(s: seq<T>, i: nat)
    requires i < |s|
    ensures s[i] == s[i..][0]
    ensures s[i + 1..] == s[i..][1..]
    ensures s[..i + 1] == s[..i] + [s[i]]
    ensures (s[..i] + s[i + 1..])[..i] == s[..i]
    ensures (s[..i] + s[i + 1..])[i..] == s[i + 1..]
  {
  }

  /**
   * The first j entries are done: the kept ones are the first i of the list, the rest of it
   * is still to be looked at, and the ids of the others have been listed.
   */
  ghost predicate Compacted(all: seq<Pending>, flags: seq<bool>, j: nat, sigs: seq<Pending>, i: nat, newIds: seq<nat>)
    requires |all| == |flags|
  {
    && i <= |sigs| && j <= |all|
    && |sigs| - i == |all| - j && sigs[i..] == all[j..]
    && sigs[..i] == Select(all[..j], flags[..j])
    && newIds == Select(Ids(all)[..j], Negated(flags)[..j])
  }

  /** The entry at i is the j-th one; keeping it, or removing it and listing its id, is one more entry done. */
  lemma CompactOne(all: seq<Pending>, flags: seq<bool>, j: nat, sigs: seq<Pending>, i: nat, newIds: seq<nat>)
    requires |all| == |flags| && Compacted(all, flags, j, sigs, i, newIds) && i < |sigs|
    ensures j < |all| && sigs[i] == all[j]
    ensures flags[j] ==> Compacted(all, flags, j + 1, sigs, i + 1, newIds)
    ensures !flags[j] ==> Compacted(all, flags, j + 1, sigs[..i] + sigs[i + 1..], i, newIds + [sigs[i].id])
  {
    SplitAt(sigs, i);
    SplitAt(all, j);
    SelectStep(all, flags, j);
    SelectStep(Ids(all), Negated(flags), j);
  }

  lemma CompactedAll(all: seq<Pending>, flags: seq<bool>, j: nat, sigs: seq<Pending>, i: nat, newIds: seq<nat>)
    requires |all| == |flags| && Compacted(all, flags, j, sigs, i, newIds) && i == |sigs|
    ensures j == |all| && sigs == Select(all, flags) && newIds == Select(Ids(all), Negated(flags))
  {
    assert all[..j] == all && flags[..j] == flags;
    assert Ids(all)[..j] == Ids(all) && Negated(flags)[..j] == Negated(flags);
    assert sigs[..i] == sigs;
  }

  /**
   * The clearing loop: index i walks the shrinking list, index j the statuses, and the
   * status looked at always belongs to the entry looked at. The list becomes the stable
   * filter of what it was.
   */
  method Compact(all: seq<Pending>, statuses: seq<Option<Status>>, now: nat)
    returns (sigs: seq<Pending>, newIds: seq<nat>, success: nat, errorCount: nat, timedOut: nat)
    requires |all| == |statuses|
    ensures sigs == Kept(all, statuses, now)
    ensures newIds == ClearedIds(all, statuses, now)
    ensures success + errorCount + timedOut == |newIds|
    ensures success == Reported(statuses, true) && errorCount == Reported(statuses, false)
  {
    ghost var flags := RetainFlags(all, statuses, now);
    sigs, newIds, success, errorCount, timedOut := all, [], 0, 0, 0;
    var i, j := 0, 0;
    while i != |sigs|
      invariant Compacted(all, flags, j, sigs, i, newIds)
      invariant success + errorCount + timedOut == |newIds|
      invariant success == |ReportedAt(statuses, j, true)|
      invariant errorCount == |ReportedAt(statuses, j, false)|
      decreases |all| - j
    {
      ReportedStep(statuses, j, true);
      ReportedStep(statuses, j, false);
      CompactOne(all, flags, j, sigs, i, newIds);
      var retain := true;
      var sentTs := sigs[i].sentAt;
      if statuses[j].Some? {
        if statuses[j].value.ok {
          success := success + 1;
        } else {
          errorCount := errorCount + 1;
        }
        retain := false;
      } else if Age(now, sentTs) > TIMEOUT_MS {
        retain := false;
        timedOut := timedOut + 1;
      }
      assert retain == flags[j];
      if !retain {
        newIds := newIds + [sigs[i].id];
        sigs := sigs[..i] + sigs[i + 1..];
      } else {
        i := i + 1;
      }
      j := j + 1;
    }
    CompactedAll(all, flags, j, sigs, i, newIds);
  }

  // ----- fetching the statuses -----

  function Signatures(ps: seq<Pending>): (sigs: seq<Signature>)
    ensures |sigs| == |ps| && forall k :: 0 <= k < |ps| ==> sigs[k] == ps[k].sig
  {
    seq(|ps|, k requires 0 <= k < |ps| => ps[k].sig)
  }

  /** The k-th chunk of at most 200 entries. */
  function Chunk(ps: seq<Pending>, k: nat): seq<Pending>
    requires k * STATUS_CHUNK <= |ps|
  {
    ps[k * STATUS_CHUNK..Min((k + 1) * STATUS_CHUNK, |ps|)]
  }

  /** The status is the node's answer for entry j, in the request of its 200 entries. */
  ghost predicate AnsweredAs(ps: seq<Pending>, rpc: (nat, seq<Signature>) -> seq<Option<Status>>, j: nat,
                             status: Option<Status>)
    requires j < |ps|
  {
    var first := j - j % 200;
    var answer := rpc(j / 200, Signatures(ps[first..Min(first + 200, |ps|)]));
    j % 200 < |answer| && status == answer[j % 200]
  }

  lemma ChunkAround(ps: seq<Pending>, k: nat, i: nat)
    requires k * STATUS_CHUNK <= |ps| && i < |Chunk(ps, k)|
    ensures var j := k * STATUS_CHUNK + i;
            && j % 200 == i && j / 200 == k
            && Chunk(ps, k) == ps[j - j % 200..Min(j - j % 200 + 200, |ps|)]
  {
  }

  /**
   * The statuses of all pending signatures, asked for 200 at a time. `rpc(k, sigs)` is the
   * answer to the k-th request, one status per signature; the result lines up with the list.
   */
  method FetchStatuses(ps: seq<Pending>, rpc: (nat, seq<Signature>) -> seq<Option<Status>>)
    returns (statuses: seq<Option<Status>>)
    requires forall k, sigs :: |rpc(k, sigs)| == |sigs|
    ensures |statuses| == |ps|
    ensures forall j :: 0 <= j < |ps| ==> AnsweredAs(ps, rpc, j, statuses[j])
  {
    statuses := [];
    var k := 0;
    while |statuses| < |ps|
      invariant |statuses| == Min(k * STATUS_CHUNK, |ps|)
      invariant forall j :: 0 <= j < |statuses| ==> AnsweredAs(ps, rpc, j, statuses[j])
    {
      var answer := rpc(k, Signatures(Chunk(ps, k)));
      forall i | 0 <= i < |answer|
        ensures AnsweredAs(ps, rpc, k * STATUS_CHUNK + i, answer[i])
      {
        ChunkAround(ps, k, i);
      }
      statuses := statuses + answer;
      k := k + 1;
    }
  }

  // ----- the executor -----

  /** The outcome of sending one transaction: its signature and send time, or None on an RPC error. */
  type SendOutcome = Option<(Signature, nat)>

  /** The entries and ids added by pushing transactions when the counter stands at `next`. */
  function NewPending(outcomes: seq<SendOutcome>, next: nat): seq<Pending> {
    if outcomes == [] then []
    else
      var n := |outcomes| - 1;
      NewPending(outcomes[..n], next)
      + (if outcomes[n].Some? then [Pending(outcomes[n].value.0, outcomes[n].value.1, next + n)] else [])
  }

  /** The sending loop: each transaction draws the next id, and a failed one leaves no entry. */
  method SendAll(outcomes: seq<SendOutcome>, next: nat) returns (ids: seq<nat>, newSigs: seq<Pending>)
    ensures ids == seq(|outcomes|, k => next + k)
    ensures newSigs == NewPending(outcomes, next)
  {
    ids, newSigs := [], [];
    var counter := next;
    for k := 0 to |outcomes|
      invariant counter == next + k
      invariant ids == seq(k, m => next + m)
      invariant newSigs == NewPending(outcomes[..k], next)
    {
      var id := counter;
      counter := counter + 1;
      ids := ids + [id];
      assert outcomes[..k + 1][..k] == outcomes[..k];
      match outcomes[k]
      case Some(s) => newSigs := newSigs + [Pending(s.0, s.1, id)];
      case None =>
    }
    assert outcomes[..|outcomes|] == outcomes;
  }

  /** New ids are distinct, and an id is pending exactly when its own transaction was sent. */
  lemma {:induction false} NewIdsAreFresh(outcomes: seq<SendOutcome>, next: nat)
    ensures Distinct(Ids(NewPending(outcomes, next)))
    ensures forall id :: id in Ids(NewPending(outcomes, next)) <==>
              next <= id < next + |outcomes| && outcomes[id - next].Some?
  {
    if outcomes == [] {
    } else {
      var n := |outcomes| - 1;
      NewIdsAreFresh(outcomes[..n], next);
      var front, all := Ids(NewPending(outcomes[..n], next)), Ids(NewPending(outcomes, next));
      assert all == front + (if outcomes[n].Some? then [next + n] else []);
      assert forall id :: id in all <==> id in front || (outcomes[n].Some? && id == next + n);
      assert forall id :: id in front ==> id < next + n;
      assert forall k :: 0 <= k < n ==> outcomes[..n][k] == outcomes[k];
      assert forall i :: 0 <= i < |front| ==> front[i] in front;
    }
  }

  /** Entries in the order of their ids. */
  ghost predicate ById(ps: seq<Pending>) {
    forall i, j :: 0 <= i < j < |ps| ==> ps[i].id < ps[j].id
  }

  lemma ByIdSnoc(ps: seq<Pending>, p: Pending)
    requires ById(ps) && forall q :: q in ps ==> q.id < p.id
    ensures ById(ps + [p])
  {
  }

  /** The new entries are those of the sent transactions, with their own signature and time, by increasing id. */
  lemma {:induction false} NewEntries(outcomes: seq<SendOutcome>, next: nat)
    ensures forall p :: p in NewPending(outcomes, next) <==>
              next <= p.id < next + |outcomes| && outcomes[p.id - next] == Some((p.sig, p.sentAt))
    ensures ById(NewPending(outcomes, next))
  {
    if outcomes == [] {
    } else {
      var n := |outcomes| - 1;
      NewEntries(outcomes[..n], next);
      var front, all := NewPending(outcomes[..n], next), NewPending(outcomes, next);
      assert forall k :: 0 <= k < n ==> outcomes[..n][k] == outcomes[k];
      assert forall p :: p in front ==> p.id < next + n;
      if outcomes[n].Some? {
        ByIdSnoc(front, Pending(outcomes[n].value.0, outcomes[n].value.1, next + n));
      }
      assert all == if outcomes[n].Some? then front + [Pending(outcomes[n].value.0, outcomes[n].value.1, next + n)]
                    else front;
    }
  }

  /** Every sent id is in exactly one of the four places an id can be. */
  ghost predicate Conserved(sent: seq<nat>, pending: seq<nat>, inFlight: seq<nat>,
                            cleared: seq<nat>, drained: seq<nat>)
  {
    multiset(sent) == multiset(pending) + multiset(inFlight) + multiset(cleared) + multiset(drained)
  }

  lemma {:induction false} DistinctMultiplicity(xs: seq<nat>, x: nat)
    requires Distinct(xs)
    ensures multiset(xs)[x] == if x in xs then 1 else 0
  {
    if xs == [] {
    } else {
      var n := |xs| - 1;
      assert xs == xs[..n] + [xs[n]];
      DistinctMultiplicity(xs[..n], x);
    }
  }

  /** With distinct ids, conservation puts every sent id in one place, once, and no other id anywhere. */
  lemma ExactlyOnePlace(sent: seq<nat>, pending: seq<nat>, inFlight: seq<nat>,
                        cleared: seq<nat>, drained: seq<nat>, id: nat)
    requires Distinct(sent) && Conserved(sent, pending, inFlight, cleared, drained)
    ensures multiset(pending)[id] + multiset(inFlight)[id] + multiset(cleared)[id] + multiset(drained)[id]
              == if id in sent then 1 else 0
  {
    DistinctMultiplicity(sent, id);
  }

  lemma PushConserves(sent: seq<nat>, pending: seq<nat>, added: seq<nat>,
                      inFlight: seq<nat>, cleared: seq<nat>, drained: seq<nat>, counter: nat)
    requires Conserved(sent, pending, inFlight, cleared, drained)
    requires Distinct(sent) && (forall id :: id in sent ==> id < counter)
    requires Distinct(added) && (forall id :: id in added ==> counter <= id)
    ensures Conserved(sent + added, pending + added, inFlight, cleared, drained)
    ensures Distinct(sent + added)
  {
    var all := sent + added;
    forall i, j | 0 <= i < j < |all|
      ensures all[i] != all[j]
    {
      assert i < |sent| ==> all[i] in sent;
      assert j >= |sent| ==> all[j] in added;
    }
  }

  lemma ClearConserves(sent: seq<nat>, pending: seq<nat>, inFlight: seq<nat>, kept: seq<nat>, removed: seq<nat>,
                       cleared: seq<nat>, drained: seq<nat>)
    requires Conserved(sent, pending, inFlight, cleared, drained) && inFlight == []
    requires multiset(kept) + multiset(removed) == multiset(pending)
    ensures Conserved(sent, kept, removed, cleared, drained)
  {
  }

  class TransactionExecutor {
    var sigs: seq<Pending>
    var cleared: seq<nat>
    var counter: nat
    /** Ids the clearing thread has removed from `sigs` but not yet published. */
    var newIds: seq<nat>
    var success: nat
    var errorCount: nat
    var timedOut: nat
    ghost var sent: seq<nat>
    ghost var drained: seq<nat>

    /** Conservation, and ids drawn once each from the counter. */
    ghost predicate Valid()
      reads this
    {
      && Conserved(sent, Ids(sigs), newIds, cleared, drained)
      && Distinct(sent)
      && (forall id :: id in sent ==> id < counter)
      && success + errorCount + timedOut == |newIds| + |cleared| + |drained|
    }

    constructor ()
      ensures Valid() && sigs == [] && cleared == [] && newIds == [] && counter == 0 && sent == [] && drained == []
    {
      sigs, cleared, newIds, counter := [], [], [], 0;
      success, errorCount, timedOut := 0, 0, 0;
      sent, drained := [], [];
    }

    /** Sends transactions and records those that the RPC accepted; every transaction draws an id. */
    method PushTransactions(outcomes: seq<SendOutcome>) returns (ids: seq<nat>)
      requires Valid()
      modifies `sigs, `counter, `sent
      ensures Valid()
      ensures ids == seq(|outcomes|, k => old(counter) + k)
      ensures counter == old(counter) + |outcomes|
      ensures sigs == old(sigs) + NewPending(outcomes, old(counter))
      ensures sent == old(sent) + Ids(NewPending(outcomes, old(counter)))
    {
      var newSigs: seq<Pending>;
      ids, newSigs := SendAll(outcomes, counter);
      NewIdsAreFresh(outcomes, counter);
      PushConserves(sent, Ids(sigs), Ids(newSigs), newIds, cleared, drained, counter);
      assert Ids(sigs + newSigs) == Ids(sigs) + Ids(newSigs);
      sigs := sigs + newSigs;
      sent := sent + Ids(newSigs);
      counter := counter + |outcomes|;
    }

    /** One clearing pass; the removed ids, in order, wait to be published. */
    method ClearSignatures(statuses: seq<Option<Status>>, now: nat)
      requires Valid()
      requires |statuses| == |sigs| && newIds == []
      modifies `sigs, `newIds, `success, `errorCount, `timedOut
      ensures Valid()
      ensures sigs == Kept(old(sigs), statuses, now)
      ensures newIds == ClearedIds(old(sigs), statuses, now)
      ensures success == old(success) + Reported(statuses, true)
      ensures errorCount == old(errorCount) + Reported(statuses, false)
    {
      var kept, removed, ok, failed, late := Compact(sigs, statuses, now);
      ClearingPartitions(sigs, statuses, now);
      ClearConserves(sent, Ids(sigs), newIds, Ids(kept), removed, cleared, drained);
      sigs, newIds := kept, removed;
      success, errorCount, timedOut := success + ok, errorCount + failed, timedOut + late;
    }

    /** The clearing thread hands its removed ids over after releasing the pending list. */
    method Publish()
      requires Valid()
      modifies `cleared, `newIds
      ensures Valid()
      ensures cleared == old(cleared) + old(newIds) && newIds == []
    {
      cleared := cleared + newIds;
      newIds := [];
    }

    method DrainCleared() returns (ids: seq<nat>)
      requires Valid()
      modifies `cleared, `drained
      ensures Valid()
      ensures ids == old(cleared) && cleared == [] && drained == old(drained) + ids
    {
      ids := cleared;
      drained := drained + ids;
      cleared := [];
    }
  }
}
