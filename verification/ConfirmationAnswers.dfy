/**
 * Where the answers of the send/confirm protocol come from, over every run: each one goes
 * back to the step that sent it and to what that step was told; and every transaction sent
 * is inserted once, in the order of sending.
 */
module ConfirmationAnswers {
  import opened Prelude
  import opened Confirmation
  import opened ConfirmationInvariants
  import opened ConfirmationSafety

  // ----- what a single step answers -----

  /** The status is satisfied, of this slot, and has this error; "already processed" is none. */
  predicate Reports(status: Option<Status>, error: Option<TxError>, slot: nat) {
    && status.Some? && status.value.satisfied && status.value.slot == slot
    && (error.None? <==> status.value.err.None? || status.value.err == Some(AlreadyProcessed))
    && (error.Some? ==> error == status.value.err)
  }

  /** The answer confirms a pending entry as the status at its signature's position reports it. */
  ghost predicate EarnedBy(s: State, sigs: seq<Signature>, statuses: seq<Option<Status>>, a: Answer) {
    && a.data.signature in s.pending && s.pending[a.data.signature] == a.data
    && a.response.Confirmed?
    && exists i :: 0 <= i < Min(|sigs|, |statuses|) && sigs[i] == a.data.signature
                   && Reports(statuses[i], a.response.error, a.response.slot)
  }

  /** The answer is what the step had to tell: an expiry, or a status of the reply. */
  ghost predicate Earned(s: State, e: Event, a: Answer) {
    match a.response
    case Expired =>
      && Expires(s, e, a.data.signature)
      && a.data.signature in s.pending && s.pending[a.data.signature] == a.data
    case Confirmed(_, _) =>
      s.phase.Awaiting? && e.Reply? && e.statuses.Some? && EarnedBy(s, s.phase.chunk, e.statuses.value, a)
  }

  /** An expiry step reports the entry expired, on the broadcast and to its source, and counts it as unconfirmed. */
  lemma ExpiryAnswers(s: State, e: Event, k: Signature)
    requires Keyed(s) && Expires(s, e, k) && Step(s, e).Next?
    ensures k in s.pending && s.pending[k].sourceId in s.inboxes
    ensures var s' := Step(s, e).state;
            var a := Answer(s.pending[k], Expired);
            && s'.broadcast == s.broadcast + [a]
            && s'.inboxes == s.inboxes[a.data.sourceId := s.inboxes[a.data.sourceId] + [a]]
            && s'.numUnconfirmed == s.numUnconfirmed + 1
            && s'.numConfirmed == s.numConfirmed
            && s'.pending == s.pending - {k}
            && s'.phase == Expiring(s.phase.cur, s.phase.expired[1..])
  {
    assert k in s.phase.expired;
  }

  /** One status answers at most its own signature, as it reports it. */
  lemma ConfirmOneReports(s: State, sig: Signature, status: Option<Status>)
    requires ConfirmOne(s, sig, status).Next? && (sig in s.pending ==> s.pending[sig].signature == sig)
    ensures var s' := ConfirmOne(s, sig, status).state;
            || s' == s
            || (&& sig in s.pending && |s'.broadcast| == |s.broadcast| + 1
                && s'.broadcast[..|s.broadcast|] == s.broadcast
                && var a := s'.broadcast[|s.broadcast|];
                   && a.data == s.pending[sig] && a.response.Confirmed?
                   && Reports(status, a.response.error, a.response.slot))
  {
  }

  lemma EarnedByMore(s: State, sigs: seq<Signature>, statuses: seq<Option<Status>>, n: nat, a: Answer)
    requires 0 < n <= Min(|sigs|, |statuses|) && EarnedBy(s, sigs[..n - 1], statuses[..n - 1], a)
    ensures EarnedBy(s, sigs, statuses, a)
  {
    var i :| 0 <= i < n - 1 && sigs[..n - 1][i] == a.data.signature
             && Reports(statuses[..n - 1][i], a.response.error, a.response.slot);
    assert sigs[i] == a.data.signature && Reports(statuses[i], a.response.error, a.response.slot);
  }

  lemma {:induction false} ConfirmAllEarned(s: State, sigs: seq<Signature>, statuses: seq<Option<Status>>)
    requires ConfirmAll(s, sigs, statuses).Next? && (forall k :: k in s.pending ==> s.pending[k].signature == k)
    ensures var s' := ConfirmAll(s, sigs, statuses).state;
            && s.broadcast <= s'.broadcast
            && forall i :: |s.broadcast| <= i < |s'.broadcast| ==> EarnedBy(s, sigs, statuses, s'.broadcast[i])
    decreases |sigs|
  {
    var n := Min(|sigs|, |statuses|);
    if n == 0 {
    } else {
      var a, b := sigs[..n - 1], statuses[..n - 1];
      ConfirmAllEarned(s, a, b);
      ConfirmAllEffect(s, a, b);
      var before, after := ConfirmAll(s, a, b).state, ConfirmAll(s, sigs, statuses).state;
      ConfirmOneReports(before, sigs[n - 1], statuses[n - 1]);
      forall i | |s.broadcast| <= i < |after.broadcast|
        ensures EarnedBy(s, sigs, statuses, after.broadcast[i])
      {
        if i < |before.broadcast| {
          EarnedByMore(s, sigs, statuses, n, before.broadcast[i]);
          assert after.broadcast[i] == before.broadcast[i];
        }
      }
    }
  }

  /** Every answer that a step adds is earned, and none is taken back. */
  lemma StepEarns(s: State, e: Event)
    requires Keyed(s) && Step(s, e).Next?
    ensures var s' := Step(s, e).state;
            && s.broadcast <= s'.broadcast
            && forall i :: |s.broadcast| <= i < |s'.broadcast| ==> Earned(s, e, s'.broadcast[i])
  {
    match e
    case Reply(reply) =>
      if reply.Some? {
        ConfirmAllEarned(s.(phase := Querying(s.phase.cur, s.phase.todo)), s.phase.chunk, reply.value);
      }
    case ExpireNext =>
      ExpiryAnswers(s, e, s.phase.expired[0]);
    case _ =>
  }

  // ----- over whole runs -----

  lemma {:induction false} AnswersStay(s: State, es: seq<Event>)
    requires Keyed(s) && Run(s, es).Next?
    ensures s.broadcast <= Run(s, es).state.broadcast
    decreases |es|
  {
    if es == [] {
    } else {
      StepEarns(s, es[0]);
      KeyedStep(s, es[0]);
      AnswersStay(Step(s, es[0]).state, es[1..]);
    }
  }

  /** The i-th answer of the run's end was added, and earned, by its n-th event. */
  ghost predicate EarnedAt(s: State, es: seq<Event>, n: nat, i: nat)
    requires Run(s, es).Next? && i < |Run(s, es).state.broadcast|
  {
    && n < |es|
    && Run(s, es[..n]).Next?
    && |Run(s, es[..n]).state.broadcast| <= i
    && Earned(Run(s, es[..n]).state, es[n], Run(s, es).state.broadcast[i])
  }

  lemma {:induction false} FindAnswer(s: State, es: seq<Event>, i: nat) returns (n: nat)
    requires Keyed(s) && Run(s, es).Next? && |s.broadcast| <= i < |Run(s, es).state.broadcast|
    ensures EarnedAt(s, es, n, i)
    decreases |es|
  {
    var s1 := Step(s, es[0]).state;
    StepEarns(s, es[0]);
    KeyedStep(s, es[0]);
    if i < |s1.broadcast| {
      n := 0;
      AnswersStay(s1, es[1..]);
      assert es[..0] == [];
    } else {
      var m := FindAnswer(s1, es[1..], i);
      n := m + 1;
      assert es[..n][1..] == es[1..][..m];
      assert Run(s, es[..n]) == Run(s1, es[1..][..m]);
    }
  }

  /**
   * Provenance over every run: whatever is broadcast was added by one event of the run. An
   * `Expired` answer was added by the expiry of that pending entry; a `Confirmed` one by a
   * reply whose status at the entry's own position is satisfied and has that slot and error.
   */
  lemma EveryAnswerIsEarned(height: nat, es: seq<Event>, i: nat)
    requires Run(Initial(height), es).Next? && i < |Run(Initial(height), es).state.broadcast|
    ensures exists n :: EarnedAt(Initial(height), es, n, i)
  {
    var n := FindAnswer(Initial(height), es, i);
  }

  // ----- every transaction sent is inserted once, in order -----

  /** What the run's sends hand over, in order. */
  function Sends(es: seq<Event>): seq<Data> {
    if es == [] then [] else (if es[0].Send? then [es[0].data] else []) + Sends(es[1..])
  }

  /** What the run's inserts put into the map, in order. */
  ghost function Inserted(s: State, es: seq<Event>): seq<Data>
    requires Run(s, es).Next?
    decreases |es|
  {
    if es == [] then []
    else (if es[0].Insert? then [s.queue[0]] else []) + Inserted(Step(s, es[0]).state, es[1..])
  }

  lemma QueueStep(s: State, e: Event)
    requires Step(s, e).Next?
    ensures s.queue + (if e.Send? then [e.data] else [])
              == (if e.Insert? then [s.queue[0]] else []) + Step(s, e).state.queue
  {
    match e
    case Reply(reply) =>
      if reply.Some? {
        ConfirmAllEffect(s.(phase := Querying(s.phase.cur, s.phase.todo)), s.phase.chunk, reply.value);
      }
    case _ =>
  }

  lemma JoinQueues<T>(q: seq<T>, a: seq<T>, b: seq<T>, q': seq<T>, c: seq<T>, d: seq<T>, q'': seq<T>)
    requires q + a == b + q' && q' + c == d + q''
    ensures q + (a + c) == (b + d) + q''
  {
    assert q + (a + c) == (q + a) + c;
    assert (b + q') + c == b + (q' + c);
    assert b + (d + q'') == (b + d) + q'';
  }

  /** Nothing sent is lost, repeated or overtaken: inserted so far plus queued is what was sent. */
  lemma {:induction false} SentInOrder(s: State, es: seq<Event>)
    requires Run(s, es).Next?
    ensures s.queue + Sends(es) == Inserted(s, es) + Run(s, es).state.queue
    decreases |es|
  {
    if es == [] {
      assert s.queue + [] == [] + s.queue;
    } else {
      var s1 := Step(s, es[0]).state;
      QueueStep(s, es[0]);
      SentInOrder(s1, es[1..]);
      JoinQueues(s.queue, if es[0].Send? then [es[0].data] else [],
                 if es[0].Insert? then [s.queue[0]] else [], s1.queue,
                 Sends(es[1..]), Inserted(s1, es[1..]), Run(s1, es[1..]).state.queue);
    }
  }

  /** d is the last of the data that has its signature. */
  ghost predicate IsLatest(xs: seq<Data>, d: Data) {
    exists i :: 0 <= i < |xs| && xs[i] == d && forall j :: i < j < |xs| ==> xs[j].signature != d.signature
  }

  lemma LatestInMore(x: Data, xs: seq<Data>, d: Data)
    requires IsLatest(xs, d)
    ensures IsLatest([x] + xs, d)
  {
    var i :| 0 <= i < |xs| && xs[i] == d && forall j :: i < j < |xs| ==> xs[j].signature != d.signature;
    assert ([x] + xs)[i + 1] == d;
  }

  lemma {:induction false} RunKeyed(s: State, es: seq<Event>)
    requires Keyed(s) && Run(s, es).Next?
    ensures Keyed(Run(s, es).state)
    decreases |es|
  {
    if es == [] {
    } else {
      KeyedStep(s, es[0]);
      RunKeyed(Step(s, es[0]).state, es[1..]);
    }
  }

  /** What is pending under a signature is the data last inserted under it. */
  lemma {:induction false} PendingIsLatest(s: State, es: seq<Event>, k: Signature)
    requires Keyed(s) && Run(s, es).Next? && k in Run(s, es).state.pending
    ensures var d := Run(s, es).state.pending[k];
            || IsLatest(Inserted(s, es), d)
            || (k in s.pending && s.pending[k] == d && forall x :: x in Inserted(s, es) ==> x.signature != k)
    decreases |es|
  {
    if es == [] {
    } else {
      var s1 := Step(s, es[0]).state;
      var d, rest := Run(s, es).state.pending[k], Inserted(s1, es[1..]);
      KeyedStep(s, es[0]);
      PendingIsLatest(s1, es[1..], k);
      RunKeyed(s1, es[1..]);
      if !Inserts(s, es[0], k) {
        KeepsData(s, es[0], k);
      }
      if IsLatest(rest, d) {
        if es[0].Insert? {
          LatestInMore(s.queue[0], rest, d);
        } else {
          assert Inserted(s, es) == rest;
        }
      } else if Inserts(s, es[0], k) {
        assert ([s.queue[0]] + rest)[0] == d;
      }
    }
  }

  /** Sources are only ever handed out. */
  lemma SourcesGrow(s: State, e: Event)
    requires Step(s, e).Next?
    ensures s.nextSource <= Step(s, e).state.nextSource
    ensures e.Send? ==> e.data.sourceId < s.nextSource
  {
    match e
    case Reply(reply) =>
      if reply.Some? {
        ConfirmAllEffect(s.(phase := Querying(s.phase.cur, s.phase.todo)), s.phase.chunk, reply.value);
      }
    case _ =>
  }

  /** Whatever a run sends was sent through a handle handed out. */
  lemma {:induction false} SendersAreHandles(s: State, es: seq<Event>)
    requires Run(s, es).Next?
    ensures s.nextSource <= Run(s, es).state.nextSource
    ensures forall d :: d in Sends(es) ==> d.sourceId < Run(s, es).state.nextSource
    decreases |es|
  {
    if es == [] {
    } else {
      SourcesGrow(s, es[0]);
      SendersAreHandles(Step(s, es[0]).state, es[1..]);
    }
  }

  /**
   * From the start: what was sent, through handles handed out, is inserted in order; and the
   * map holds, per signature, the last data inserted under it.
   */
  lemma InsertsFollowSends(height: nat, es: seq<Event>)
    requires Run(Initial(height), es).Next?
    ensures var s := Run(Initial(height), es).state;
            && Sends(es) == Inserted(Initial(height), es) + s.queue
            && (forall d :: d in Sends(es) ==> d.sourceId < s.nextSource)
            && forall k :: k in s.pending ==> s.pending[k].signature == k
                                              && IsLatest(Inserted(Initial(height), es), s.pending[k])
  {
    var s := Run(Initial(height), es).state;
    SentInOrder(Initial(height), es);
    SendersAreHandles(Initial(height), es);
    RunKeyed(Initial(height), es);
    forall k | k in s.pending
      ensures IsLatest(Inserted(Initial(height), es), s.pending[k])
    {
      PendingIsLatest(Initial(height), es, k);
    }
  }
}
