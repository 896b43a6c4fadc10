/**
 * What every step of the send/confirm protocol keeps: the shape of the map and of the
 * task's work lists, routing, conservation of answers, and freedom from panics.
 */
module ConfirmationInvariants {
  import opened Prelude
  import opened Confirmation

  // ----- keys and work lists -----

  /** A map key is the stored signature; work lists are free of repetition, and condemned entries are pending. */
  ghost predicate Keyed(s: State) {
    && (forall k :: k in s.pending ==> s.pending[k].signature == k)
    && match s.phase
       case Querying(_, todo) => Distinct(todo)
       case Awaiting(_, chunk, todo) => Distinct(chunk) && Distinct(todo)
       case Expiring(_, expired) => Distinct(expired) && forall x :: x in expired ==> x in s.pending
       case _ => true
  }

  /** Some status of the reply confirms signature k. */
  ghost predicate ConfirmedBy(k: Signature, sigs: seq<Signature>, statuses: seq<Option<Status>>) {
    exists i :: 0 <= i < Min(|sigs|, |statuses|) && sigs[i] == k && Confirms(statuses[i])
  }

  lemma ConfirmedByStep(k: Signature, sigs: seq<Signature>, statuses: seq<Option<Status>>)
    requires Min(|sigs|, |statuses|) > 0
    ensures var n := Min(|sigs|, |statuses|);
            ConfirmedBy(k, sigs, statuses) <==>
              ConfirmedBy(k, sigs[..n - 1], statuses[..n - 1]) || (sigs[n - 1] == k && Confirms(statuses[n - 1]))
  {
    var n := Min(|sigs|, |statuses|);
    var a, b := sigs[..n - 1], statuses[..n - 1];
    if ConfirmedBy(k, a, b) {
      var i :| 0 <= i < Min(|a|, |b|) && a[i] == k && Confirms(b[i]);
      assert sigs[i] == k && Confirms(statuses[i]);
    }
    if ConfirmedBy(k, sigs, statuses) {
      var i :| 0 <= i < n && sigs[i] == k && Confirms(statuses[i]);
      assert i < n - 1 ==> a[i] == k && Confirms(b[i]);
    }
  }

  /** A reply removes exactly the pending signatures it confirms and touches nothing of the rest. */
  lemma {:induction false} ConfirmAllEffect(s: State, sigs: seq<Signature>, statuses: seq<Option<Status>>)
    requires ConfirmAll(s, sigs, statuses).Next?
    ensures var s' := ConfirmAll(s, sigs, statuses).state;
            && s' == s.(pending := s'.pending, inboxes := s'.inboxes, broadcast := s'.broadcast,
                        numConfirmed := s'.numConfirmed)
            && (forall k :: k in s'.pending <==> k in s.pending && !ConfirmedBy(k, sigs, statuses))
            && (forall k :: k in s'.pending ==> s'.pending[k] == s.pending[k])
    decreases |sigs|
  {
    var n := Min(|sigs|, |statuses|);
    if n == 0 {
    } else {
      ConfirmAllEffect(s, sigs[..n - 1], statuses[..n - 1]);
      forall k
        ensures ConfirmedBy(k, sigs, statuses) <==>
                  ConfirmedBy(k, sigs[..n - 1], statuses[..n - 1]) || (sigs[n - 1] == k && Confirms(statuses[n - 1]))
      {
        ConfirmedByStep(k, sigs, statuses);
      }
    }
  }

  lemma KeyedStep(s: State, e: Event)
    requires Keyed(s) && Step(s, e).Next?
    ensures Keyed(Step(s, e).state)
  {
    match e
    case Reply(reply) =>
      if reply.Some? {
        ConfirmAllEffect(s.(phase := Querying(s.phase.cur, s.phase.todo)), s.phase.chunk, reply.value);
      }
    case ExpiredScan(keys) =>
      assert Step(s, e).state.phase.expired == keys;
    case _ =>
  }

  /** With keyed entries, the expired scan collects the very keys it visited. */
  lemma ExpiredAreKeys(s: State, keys: seq<Signature>)
    requires Keyed(s) && s.phase.Querying? && s.phase.todo == [] && ListsToExpire(s, s.phase.cur, keys)
    ensures Step(s, ExpiredScan(keys)) == Next(s.(phase := Expiring(s.phase.cur, keys)))
  {
    assert Step(s, ExpiredScan(keys)).state.phase.expired == keys;
  }

  // ----- heights -----

  /** No height the confirmation loop holds exceeds the greatest one stored. */
  ghost predicate Bounded(s: State) {
    && s.height <= s.maxStored
    && (!s.phase.NotStarted? ==> s.last <= s.maxStored)
    && match s.phase
       case NotStarted => true
       case Idle => true
       case Loaded(cur) => cur <= s.maxStored
       case Querying(cur, _) => cur <= s.maxStored
       case Awaiting(cur, _, _) => cur <= s.maxStored
       case Expiring(cur, _) => cur <= s.maxStored
  }

  lemma BoundedStep(s: State, e: Event)
    requires Bounded(s) && Step(s, e).Next?
    ensures Bounded(Step(s, e).state)
  {
    match e
    case Reply(reply) =>
      if reply.Some? {
        ConfirmAllEffect(s.(phase := Querying(s.phase.cur, s.phase.todo)), s.phase.chunk, reply.value);
      }
    case _ =>
  }

  // ----- freedom from panics -----

  /** Every transaction on its way was sent through a handle with a channel. */
  ghost predicate Registered(s: State) {
    && (forall d :: d in s.queue ==> d.sourceId in s.inboxes)
    && (forall k :: k in s.pending ==> s.pending[k].sourceId in s.inboxes)
  }

  /** The event, if it sends, uses a handle obtained from subscribe. */
  predicate SubscribedSend(s: State, e: Event) {
    e.Send? ==> e.data.sourceId in s.inboxes
  }

  lemma {:induction false} ConfirmAllKeepsRegistered(s: State, sigs: seq<Signature>, statuses: seq<Option<Status>>)
    requires Registered(s)
    ensures ConfirmAll(s, sigs, statuses).Next? && Registered(ConfirmAll(s, sigs, statuses).state)
    decreases |sigs|
  {
    var n := Min(|sigs|, |statuses|);
    if n == 0 {
    } else {
      ConfirmAllKeepsRegistered(s, sigs[..n - 1], statuses[..n - 1]);
    }
  }

  /** No unwrap of a subscriber fails and the unreachable! arm is not reached. */
  lemma StepDoesNotPanic(s: State, e: Event)
    requires Keyed(s) && Registered(s) && SubscribedSend(s, e)
    ensures !Step(s, e).Panic?
    ensures Step(s, e).Next? ==> Registered(Step(s, e).state)
  {
    match e
    case Reply(reply) =>
      if s.phase.Awaiting? && reply.Some? {
        ConfirmAllKeepsRegistered(s.(phase := Querying(s.phase.cur, s.phase.todo)), s.phase.chunk, reply.value);
      }
    case ExpireNext =>
      if s.phase.Expiring? && s.phase.expired != [] {
        assert s.phase.expired[0] in s.phase.expired;
      }
    case _ =>
  }

  /** Every send of the run uses a handle from subscribe. */
  ghost predicate SubscribedSends(s: State, es: seq<Event>)
    decreases |es|
  {
    es != [] ==>
      SubscribedSend(s, es[0]) && (Step(s, es[0]).Next? ==> SubscribedSends(Step(s, es[0]).state, es[1..]))
  }

  /** No run whose handles come from subscribe ever panics. */
  lemma {:induction false} RunDoesNotPanic(s: State, es: seq<Event>)
    requires Keyed(s) && Registered(s) && SubscribedSends(s, es)
    ensures !Run(s, es).Panic?
    ensures Run(s, es).Next? ==> Keyed(Run(s, es).state) && Registered(Run(s, es).state)
    decreases |es|
  {
    if es == [] {
    } else {
      StepDoesNotPanic(s, es[0]);
      if Step(s, es[0]).Next? {
        KeyedStep(s, es[0]);
        RunDoesNotPanic(Step(s, es[0]).state, es[1..]);
      }
    }
  }

  lemma NoPanicFromStart(height: nat, es: seq<Event>)
    requires SubscribedSends(Initial(height), es)
    ensures !Run(Initial(height), es).Panic?
  {
    RunDoesNotPanic(Initial(height), es);
  }

  // ----- routing -----

  /** The answers addressed to one source, in order. */
  function AddressedTo(answers: seq<Answer>, id: SourceId): seq<Answer> {
    if answers == [] then []
    else
      var n := |answers| - 1;
      AddressedTo(answers[..n], id) + (if answers[n].data.sourceId == id then [answers[n]] else [])
  }

  lemma AddressedStep(answers: seq<Answer>, a: Answer, id: SourceId)
    ensures AddressedTo(answers + [a], id)
              == AddressedTo(answers, id) + (if a.data.sourceId == id then [a] else [])
  {
    assert (answers + [a])[..|answers|] == answers;
  }

  function CountConfirmed(answers: seq<Answer>): nat {
    if answers == [] then 0
    else
      var n := |answers| - 1;
      CountConfirmed(answers[..n]) + (if answers[n].response.Confirmed? then 1 else 0)
  }

  /**
   * Each channel holds exactly the broadcast answers addressed to it, in order; the two
   * counters count the answers; ids not handed out yet have no channel and no answers.
   */
  ghost predicate Routed(s: State) {
    && (forall id :: id in s.inboxes ==> id < s.nextSource && s.inboxes[id] == AddressedTo(s.broadcast, id))
    && (forall a :: a in s.broadcast ==> a.data.sourceId in s.inboxes)
    && s.numConfirmed == CountConfirmed(s.broadcast)
    && s.numConfirmed + s.numUnconfirmed == |s.broadcast|
  }

  /** s' is s with one more answer delivered and counted. */
  ghost predicate Answered(s: State, s': State, a: Answer) {
    var id := a.data.sourceId;
    && id in s.inboxes
    && s'.nextSource == s.nextSource
    && s'.inboxes == s.inboxes[id := s.inboxes[id] + [a]]
    && s'.broadcast == s.broadcast + [a]
    && s'.numConfirmed == s.numConfirmed + (if a.response.Confirmed? then 1 else 0)
    && s'.numUnconfirmed == s.numUnconfirmed + (if a.response.Confirmed? then 0 else 1)
  }

  lemma AnsweredRoutes(s: State, s': State, a: Answer)
    requires Routed(s) && Answered(s, s', a)
    ensures Routed(s')
  {
    assert s'.broadcast[..|s.broadcast|] == s.broadcast;
    forall id | id in s'.inboxes
      ensures id < s'.nextSource && s'.inboxes[id] == AddressedTo(s'.broadcast, id)
    {
      AddressedStep(s.broadcast, a, id);
    }
  }

  lemma {:induction false} NotAddressed(answers: seq<Answer>, id: SourceId)
    requires forall a :: a in answers ==> a.data.sourceId != id
    ensures AddressedTo(answers, id) == []
    decreases |answers|
  {
    if answers == [] {
    } else {
      NotAddressed(answers[..|answers| - 1], id);
    }
  }

  lemma {:induction false} ConfirmAllRoutes(s: State, sigs: seq<Signature>, statuses: seq<Option<Status>>)
    requires Routed(s) && ConfirmAll(s, sigs, statuses).Next?
    ensures Routed(ConfirmAll(s, sigs, statuses).state)
    decreases |sigs|
  {
    var n := Min(|sigs|, |statuses|);
    if n == 0 {
    } else {
      ConfirmAllRoutes(s, sigs[..n - 1], statuses[..n - 1]);
      var before := ConfirmAll(s, sigs[..n - 1], statuses[..n - 1]).state;
      var after := ConfirmAll(s, sigs, statuses).state;
      if before != after {
        AnsweredRoutes(before, after, after.broadcast[|before.broadcast|]);
      }
    }
  }

  lemma RoutedStep(s: State, e: Event)
    requires Routed(s) && Step(s, e).Next?
    ensures Routed(Step(s, e).state)
  {
    match e
    case Subscribe =>
      NotAddressed(s.broadcast, s.nextSource);
    case Reply(reply) =>
      if reply.Some? {
        ConfirmAllRoutes(s.(phase := Querying(s.phase.cur, s.phase.todo)), s.phase.chunk, reply.value);
      }
    case ExpireNext =>
      var s' := Step(s, e).state;
      AnsweredRoutes(s, s', s'.broadcast[|s.broadcast|]);
    case _ =>
  }

  // ----- conservation -----

  function Signatures(answers: seq<Answer>): seq<Signature> {
    seq(|answers|, k requires 0 <= k < |answers| => answers[k].data.signature)
  }

  /** Signature by signature, every opening insert is still pending or has been answered once. */
  ghost predicate Accounted(s: State) {
    s.openings == multiset(Signatures(s.broadcast)) + multiset(s.pending.Keys)
  }

  /** s' is s with the pending entry of signature k answered. */
  ghost predicate Removed(s: State, s': State, k: Signature) {
    && k in s.pending
    && s'.pending == s.pending - {k}
    && s'.openings == s.openings
    && |s'.broadcast| == |s.broadcast| + 1
    && s'.broadcast == s.broadcast + [s'.broadcast[|s.broadcast|]]
    && s'.broadcast[|s.broadcast|].data == s.pending[k]
  }

  lemma RemovedAccounts(s: State, s': State, k: Signature)
    requires Accounted(s) && Removed(s, s', k) && s.pending[k].signature == k
    ensures Accounted(s')
  {
    assert Signatures(s'.broadcast) == Signatures(s.broadcast) + [k];
    assert s'.pending.Keys == s.pending.Keys - {k};
    assert multiset(s.pending.Keys) == multiset(s'.pending.Keys) + multiset{k};
  }

  lemma ConfirmOneAccounts(s: State, sig: Signature, status: Option<Status>)
    requires Accounted(s) && (forall k :: k in s.pending ==> s.pending[k].signature == k)
    requires ConfirmOne(s, sig, status).Next?
    ensures Accounted(ConfirmOne(s, sig, status).state)
  {
    if Confirms(status) && sig in s.pending {
      RemovedAccounts(s, ConfirmOne(s, sig, status).state, sig);
    }
  }

  lemma {:induction false} ConfirmAllAccounts(s: State, sigs: seq<Signature>, statuses: seq<Option<Status>>)
    requires Accounted(s) && (forall k :: k in s.pending ==> s.pending[k].signature == k)
    requires ConfirmAll(s, sigs, statuses).Next?
    ensures Accounted(ConfirmAll(s, sigs, statuses).state)
    decreases |sigs|
  {
    var n := Min(|sigs|, |statuses|);
    if n == 0 {
    } else {
      ConfirmAllAccounts(s, sigs[..n - 1], statuses[..n - 1]);
      ConfirmAllEffect(s, sigs[..n - 1], statuses[..n - 1]);
      ConfirmOneAccounts(ConfirmAll(s, sigs[..n - 1], statuses[..n - 1]).state, sigs[n - 1], statuses[n - 1]);
    }
  }

  lemma InsertAccounts(s: State)
    requires Accounted(s) && s.queue != []
    ensures Accounted(InsertNext(s).state)
  {
    var k := s.queue[0].signature;
    var s' := InsertNext(s).state;
    assert s'.pending.Keys == s.pending.Keys + {k};
    assert multiset(s.pending.Keys + {k})
        == multiset(s.pending.Keys) + (if k in s.pending then multiset{} else multiset{k});
  }

  lemma AccountedStep(s: State, e: Event)
    requires Accounted(s) && Keyed(s) && Step(s, e).Next?
    ensures Accounted(Step(s, e).state)
  {
    match e
    case Insert => InsertAccounts(s);
    case Reply(reply) =>
      if reply.Some? {
        ConfirmAllAccounts(s.(phase := Querying(s.phase.cur, s.phase.todo)), s.phase.chunk, reply.value);
      }
    case ExpireNext =>
      RemovedAccounts(s, Step(s, e).state, s.phase.expired[0]);
    case _ =>
  }

  // ----- the main results -----

  ghost predicate Invariant(s: State) {
    Keyed(s) && Bounded(s) && Routed(s) && Accounted(s)
  }

  lemma InvariantStep(s: State, e: Event)
    requires Invariant(s) && Step(s, e).Next?
    ensures Invariant(Step(s, e).state)
  {
    KeyedStep(s, e);
    BoundedStep(s, e);
    RoutedStep(s, e);
    AccountedStep(s, e);
  }

  lemma {:induction false} InvariantRun(s: State, es: seq<Event>)
    requires Invariant(s) && Run(s, es).Next?
    ensures Invariant(Run(s, es).state)
    decreases |es|
  {
    if es == [] {
    } else {
      InvariantStep(s, es[0]);
      InvariantRun(Step(s, es[0]).state, es[1..]);
    }
  }

  /** How often a signature has been answered. */
  function TimesAnswered(s: State, k: Signature): nat {
    multiset(Signatures(s.broadcast))[k]
  }

  /**
   * Conservation and routing over every run: the inserts of absent signatures equal
   * pending + confirmed + unconfirmed, signature by signature each of them is answered at
   * most once (and, once no longer pending, exactly once), and every channel received
   * exactly the answers addressed to its source, in the order they were broadcast.
   */
  lemma ConservationAndRouting(height: nat, es: seq<Event>)
    requires Run(Initial(height), es).Next?
    ensures var s := Run(Initial(height), es).state;
            && |s.openings| == |s.pending| + s.numConfirmed + s.numUnconfirmed
            && (forall k :: TimesAnswered(s, k) + (if k in s.pending then 1 else 0) == s.openings[k])
            && (forall id :: id in s.inboxes ==> s.inboxes[id] == AddressedTo(s.broadcast, id))
            && s.numConfirmed == CountConfirmed(s.broadcast)
  {
    InvariantRun(Initial(height), es);
    var s := Run(Initial(height), es).state;
    assert |multiset(Signatures(s.broadcast))| == |s.broadcast|;
    assert |multiset(s.pending.Keys)| == |s.pending|;
  }

  lemma {:induction false} ConfirmAllGrows(s: State, sigs: seq<Signature>, statuses: seq<Option<Status>>)
    requires ConfirmAll(s, sigs, statuses).Next?
    ensures s.broadcast <= ConfirmAll(s, sigs, statuses).state.broadcast
    decreases |sigs|
  {
    var n := Min(|sigs|, |statuses|);
    if n == 0 {
    } else {
      ConfirmAllGrows(s, sigs[..n - 1], statuses[..n - 1]);
    }
  }

  /** Of distinct signatures the last one is not confirmed earlier. */
  lemma NotConfirmedEarlier(sigs: seq<Signature>, statuses: seq<Option<Status>>, n: nat)
    requires Distinct(sigs) && 0 < n <= Min(|sigs|, |statuses|)
    ensures !ConfirmedBy(sigs[n - 1], sigs[..n - 1], statuses[..n - 1])
  {
  }

  lemma ConfirmOneAnswers(s: State, sig: Signature, status: Option<Status>)
    requires ConfirmOne(s, sig, status).Next?
    ensures ConfirmOne(s, sig, status).state.broadcast
              == s.broadcast
                 + if !Confirms(status) || sig !in s.pending then []
                   else [Answer(s.pending[sig], Confirmed(ReportedError(status.value.err), status.value.slot))]
  {
  }

  lemma AnswerAdded(earlier: seq<Answer>, before: seq<Answer>, after: seq<Answer>)
    requires earlier <= before <= after
    ensures forall a :: a in before[|earlier|..] ==> a in after[|earlier|..]
    ensures |after| == |before| + 1 ==> after[|before|] in after[|earlier|..]
  {
    assert before[|earlier|..] <= after[|earlier|..];
    assert |after| == |before| + 1 ==> after[|earlier|..][|before| - |earlier|] == after[|before|];
  }

  lemma {:induction false} ConfirmAllAnswers(s: State, sigs: seq<Signature>, statuses: seq<Option<Status>>, i: nat)
    requires Distinct(sigs) && i < Min(|sigs|, |statuses|) && Confirms(statuses[i]) && sigs[i] in s.pending
    requires ConfirmAll(s, sigs, statuses).Next?
    ensures |s.broadcast| <= |ConfirmAll(s, sigs, statuses).state.broadcast|
    ensures Answer(s.pending[sigs[i]], Confirmed(ReportedError(statuses[i].value.err), statuses[i].value.slot))
              in ConfirmAll(s, sigs, statuses).state.broadcast[|s.broadcast|..]
    decreases |sigs|
  {
    var n := Min(|sigs|, |statuses|);
    var a, b := sigs[..n - 1], statuses[..n - 1];
    var before, after := ConfirmAll(s, a, b).state, ConfirmAll(s, sigs, statuses).state;
    ConfirmAllGrows(s, a, b);
    if i == n - 1 {
      ConfirmAllEffect(s, a, b);
      NotConfirmedEarlier(sigs, statuses, n);
      ConfirmOneAnswers(before, sigs[i], statuses[i]);
      AnswerAdded(s.broadcast, before.broadcast, after.broadcast);
    } else {
      ConfirmAllAnswers(s, a, b, i);
      ConfirmOneAnswers(before, sigs[n - 1], statuses[n - 1]);
      AnswerAdded(s.broadcast, before.broadcast, after.broadcast);
    }
  }

  /**
   * A reply answers a pending signature of its chunk exactly when the status at the same
   * position confirms it, with that status's slot and error.
   */
  lemma ReplyAnswers(s: State, statuses: seq<Option<Status>>, i: nat)
    requires Keyed(s) && s.phase.Awaiting? && i < |s.phase.chunk|
    requires Step(s, Reply(Some(statuses))).Next?
    requires s.phase.chunk[i] in s.pending
    ensures var s' := Step(s, Reply(Some(statuses))).state;
            var k := s.phase.chunk[i];
            && s.broadcast <= s'.broadcast
            && (k !in s'.pending <==> i < |statuses| && Confirms(statuses[i]))
            && (k !in s'.pending ==>
                  Answer(s.pending[k], Confirmed(ReportedError(statuses[i].value.err), statuses[i].value.slot))
                    in s'.broadcast[|s.broadcast|..])
  {
    var s0 := s.(phase := Querying(s.phase.cur, s.phase.todo));
    ConfirmAllEffect(s0, s.phase.chunk, statuses);
    ConfirmAllGrows(s0, s.phase.chunk, statuses);
    if i < |statuses| && Confirms(statuses[i]) {
      assert ConfirmedBy(s.phase.chunk[i], s.phase.chunk, statuses);
      ConfirmAllAnswers(s0, s.phase.chunk, statuses, i);
    }
  }

  /** Signature k is pending and its source has no channel. */
  ghost predicate Orphan(s: State, k: Signature) {
    k in s.pending && s.pending[k].sourceId !in s.inboxes
  }

  lemma {:induction false} ConfirmAllPanicsIff(s: State, sigs: seq<Signature>, statuses: seq<Option<Status>>)
    ensures ConfirmAll(s, sigs, statuses).Panic? <==> exists k :: Orphan(s, k) && ConfirmedBy(k, sigs, statuses)
    ensures !ConfirmAll(s, sigs, statuses).Disabled?
    ensures ConfirmAll(s, sigs, statuses).Next? ==>
              ConfirmAll(s, sigs, statuses).state.inboxes.Keys == s.inboxes.Keys
    decreases |sigs|
  {
    var n := Min(|sigs|, |statuses|);
    if n == 0 {
    } else {
      var a, b := sigs[..n - 1], statuses[..n - 1];
      ConfirmAllPanicsIff(s, a, b);
      if ConfirmAll(s, a, b).Next? {
        ConfirmAllEffect(s, a, b);
      }
      forall k
        ensures ConfirmedBy(k, sigs, statuses) <==>
                  ConfirmedBy(k, a, b) || (sigs[n - 1] == k && Confirms(statuses[n - 1]))
      {
        ConfirmedByStep(k, sigs, statuses);
      }
    }
  }

  /**
   * Exactly when a step panics: a reply confirms, or the expiry loop reaches, an entry
   * whose source has no channel. Nothing else does, and the unreachable! arm never fires.
   */
  lemma StepPanicsIff(s: State, e: Event)
    requires Keyed(s)
    ensures Step(s, e).Panic? <==>
              || (s.phase.Awaiting? && e.Reply? && e.statuses.Some?
                  && exists k :: Orphan(s, k) && ConfirmedBy(k, s.phase.chunk, e.statuses.value))
              || (s.phase.Expiring? && s.phase.expired != [] && e.ExpireNext? && Orphan(s, s.phase.expired[0]))
  {
    match e
    case Reply(reply) =>
      if s.phase.Awaiting? && reply.Some? {
        var s0 := s.(phase := Querying(s.phase.cur, s.phase.todo));
        ConfirmAllPanicsIff(s0, s.phase.chunk, reply.value);
        assert forall k :: Orphan(s, k) <==> Orphan(s0, k);
      }
    case ExpireNext =>
      if s.phase.Expiring? && s.phase.expired != [] {
        assert s.phase.expired[0] in s.phase.expired;
      }
    case _ =>
  }

  lemma RunCons(s: State, e: Event, rest: seq<Event>)
    ensures Run(s, [e] + rest) == if Step(s, e).Next? then Run(Step(s, e).state, rest) else Step(s, e)
  {
    assert ([e] + rest)[1..] == rest;
  }

  lemma OrphanReplyPanics(s: State, k: Signature, status: Status)
    requires Keyed(s) && Orphan(s, k) && s.phase.Awaiting? && s.phase.chunk == [k] && status.satisfied
    ensures Step(s, Reply(Some([Some(status)]))).Panic?
  {
    assert [k][0] == k && Confirms([Some(status)][0]);
    assert ConfirmedBy(k, s.phase.chunk, [Some(status)]);
    StepPanicsIff(s, Reply(Some([Some(status)])));
  }

  lemma OrphanQueryPanics(s: State, k: Signature, status: Status)
    requires Keyed(s) && Orphan(s, k) && s.phase.Querying? && s.phase.todo == [k] && status.satisfied
    ensures Run(s, [Query] + [Reply(Some([Some(status)]))]).Panic?
  {
    var reply := Reply(Some([Some(status)]));
    var s' := s.(phase := Awaiting(s.phase.cur, [k], []));
    assert [k][..1] == [k] && [k][1..] == [];
    assert Step(s, Query) == Next(s');
    OrphanReplyPanics(s', k, status);
    assert [reply] + [] == [reply];
    RunCons(s', reply, []);
    RunCons(s, Query, [reply]);
  }

  /** An orphan as the only entry, found by a scan, queried alone and reported satisfied. */
  lemma OrphanScanPanics(s: State, d: Data, status: Status)
    requires s.phase.Loaded? && s.pending == map[d.signature := d] && d.sourceId !in s.inboxes
    requires s.phase.cur <= d.lastValid && status.satisfied
    ensures Run(s, [VerifyScan([d.signature])] + ([Query] + [Reply(Some([Some(status)]))])).Panic?
  {
    var k, reply := d.signature, Reply(Some([Some(status)]));
    var s' := s.(phase := Querying(s.phase.cur, [k]));
    assert Step(s, VerifyScan([k])) == Next(s');
    OrphanQueryPanics(s', k, status);
    RunCons(s, VerifyScan([k]), [Query] + [reply]);
  }

  /** A pass from the very start of the confirmation loop over an orphan as the only entry. */
  lemma OrphanPassPanics(s: State, d: Data, status: Status)
    requires s.phase.NotStarted? && s.pending == map[d.signature := d] && d.sourceId !in s.inboxes
    requires s.height <= d.lastValid && status.satisfied
    ensures var scan := [VerifyScan([d.signature])] + ([Query] + [Reply(Some([Some(status)]))]);
            Run(s, [Start] + ([BeginPass] + scan)).Panic?
  {
    var scan := [VerifyScan([d.signature])] + ([Query] + [Reply(Some([Some(status)]))]);
    var s1 := s.(phase := Idle, last := s.height);
    var s2 := s1.(phase := Loaded(s.height));
    assert d.signature in s.pending;
    assert Step(s, Start) == Next(s1) && Step(s1, BeginPass) == Next(s2);
    OrphanScanPanics(s2, d, status);
    RunCons(s1, BeginPass, scan);
    RunCons(s, Start, [BeginPass] + scan);
  }

  /** The state after a handle from subscribe_all has sent and the send task has inserted. */
  function Orphaned(height: nat, d: Data): State {
    Initial(height).(nextSource := 2, pending := map[d.signature := d], openings := multiset{d.signature})
  }

  lemma OrphaningSteps(height: nat, d: Data)
    requires d.sourceId == 1
    ensures var s1 := Initial(height).(nextSource := 2);
            var s2 := s1.(queue := [d]);
            && Step(Initial(height), SubscribeAll) == Next(s1)
            && Step(s1, Send(d)) == Next(s2)
            && Step(s2, Insert) == Next(Orphaned(height, d))
  {
    var s2 := Initial(height).(nextSource := 2, queue := [d]);
    assert [] + [d] == [d] && [d][1..] == [];
    assert InsertNext(s2) == Next(Orphaned(height, d));
  }

  lemma SubscribeAllOrphans(height: nat, d: Data, rest: seq<Event>)
    requires d.sourceId == 1
    ensures Run(Initial(height), [SubscribeAll] + ([Send(d)] + ([Insert] + rest))) == Run(Orphaned(height, d), rest)
  {
    var s1 := Initial(height).(nextSource := 2);
    var s2 := s1.(queue := [d]);
    OrphaningSteps(height, d);
    RunCons(s2, Insert, rest);
    RunCons(s1, Send(d), [Insert] + rest);
    RunCons(Initial(height), SubscribeAll, [Send(d)] + ([Insert] + rest));
  }

  /**
   * A handle from subscribe_all has no channel: its first transaction is an orphan, and
   * the first pass that finds it confirmed panics.
   */
  lemma SubscribeAllPanics(height: nat, d: Data, status: Status)
    requires d.sourceId == 1 && height <= d.lastValid && status.satisfied
    ensures var scan := [VerifyScan([d.signature])] + ([Query] + [Reply(Some([Some(status)]))]);
            var pass := [Start] + ([BeginPass] + scan);
            Run(Initial(height), [SubscribeAll] + ([Send(d)] + ([Insert] + pass))).Panic?
  {
    var scan := [VerifyScan([d.signature])] + ([Query] + [Reply(Some([Some(status)]))]);
    SubscribeAllOrphans(height, d, [Start] + ([BeginPass] + scan));
    OrphanPassPanics(Orphaned(height, d), d, status);
  }
}
