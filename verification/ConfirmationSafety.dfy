/**
 * When an entry can be reported expired without a status query, and how long an overdue
 * entry can live, over all interleavings of the send/confirm protocol.
 */
module ConfirmationSafety {
  import opened Prelude
  import opened Confirmation
  import opened ConfirmationInvariants

  // ----- observing a run -----

  /** The step puts (new) data under signature k. */
  predicate Inserts(s: State, e: Event, k: Signature) {
    e.Insert? && s.queue != [] && s.queue[0].signature == k
  }

  /** The step issues a status query that covers signature k. */
  predicate Queries(s: State, e: Event, k: Signature) {
    e.Query? && s.phase.Querying? && k in s.phase.todo[..Min(|s.phase.todo|, MAX_QUERY_ITEMS)]
  }

  /** The step reports signature k expired. */
  predicate Expires(s: State, e: Event, k: Signature) {
    e.ExpireNext? && s.phase.Expiring? && s.phase.expired != [] && s.phase.expired[0] == k
  }

  /** The run is possible, and neither inserts signature k again nor queries its status. */
  ghost predicate Unqueried(s: State, es: seq<Event>, k: Signature)
    decreases |es|
  {
    es != [] ==>
      && Step(s, es[0]).Next?
      && !Inserts(s, es[0], k)
      && !Queries(s, es[0], k)
      && Unqueried(Step(s, es[0]).state, es[1..], k)
  }

  /** Some step of the run reports signature k expired. */
  ghost predicate ExpiresIn(s: State, es: seq<Event>, k: Signature)
    decreases |es|
  {
    && es != []
    && Step(s, es[0]).Next?
    && (Expires(s, es[0], k) || ExpiresIn(Step(s, es[0]).state, es[1..], k))
  }

  /** The run reports signature k expired with no status query of it since its start. */
  ghost predicate ExpiresUnqueried(s: State, es: seq<Event>, k: Signature) {
    Unqueried(s, es, k) && ExpiresIn(s, es, k)
  }

  // ----- the risk of expiring unqueried -----

  /**
   * The pending entry of signature k may be reported expired without a (further) status
   * query. Before the confirmation loop's first height load every entry is at risk; afterwards only an
   * entry whose last valid height is below a height the confirmation loop already holds and that it
   * will not query in this pass, or one that the running pass has condemned.
   */
  predicate AtRisk(s: State, k: Signature)
    requires k in s.pending
  {
    var lastValid := s.pending[k].lastValid;
    match s.phase
    case NotStarted => true
    case Idle => s.last > lastValid
    case Loaded(cur) => s.last > lastValid && cur > lastValid
    case Querying(cur, todo) => k !in todo && cur > lastValid
    case Awaiting(cur, _, todo) => k !in todo && cur > lastValid
    case Expiring(cur, expired) => k in expired || cur > lastValid
  }

  lemma SafeQuery(s: State, k: Signature)
    requires k in s.pending && !AtRisk(s, k) && Step(s, Query).Next? && !Queries(s, Query, k)
    ensures !AtRisk(Step(s, Query).state, k)
  {
    var n := Min(|s.phase.todo|, MAX_QUERY_ITEMS);
    assert s.phase.todo == s.phase.todo[..n] + s.phase.todo[n..];
  }

  lemma SafeReply(s: State, reply: Option<seq<Option<Status>>>, k: Signature)
    requires k in s.pending && !AtRisk(s, k) && Step(s, Reply(reply)).Next?
    ensures k in Step(s, Reply(reply)).state.pending ==> !AtRisk(Step(s, Reply(reply)).state, k)
  {
    if reply.Some? {
      ConfirmAllEffect(s.(phase := Querying(s.phase.cur, s.phase.todo)), s.phase.chunk, reply.value);
    }
  }

  lemma SafeExpiry(s: State, k: Signature)
    requires k in s.pending && !AtRisk(s, k) && Step(s, ExpireNext).Next?
    ensures !Expires(s, ExpireNext, k)
    ensures k in Step(s, ExpireNext).state.pending ==> !AtRisk(Step(s, ExpireNext).state, k)
  {
    assert s.phase.expired == [s.phase.expired[0]] + s.phase.expired[1..];
  }

  /** Safety of one step: an entry not at risk is not reported expired and does not come to be at risk. */
  lemma SafeStep(s: State, e: Event, k: Signature)
    requires Keyed(s) && k in s.pending && !AtRisk(s, k)
    requires Step(s, e).Next? && !Inserts(s, e, k) && !Queries(s, e, k)
    ensures !Expires(s, e, k)
    ensures k in Step(s, e).state.pending ==> !AtRisk(Step(s, e).state, k)
  {
    match e
    case Query => SafeQuery(s, k);
    case Reply(reply) => SafeReply(s, reply, k);
    case ExpiredScan(keys) => ExpiredAreKeys(s, keys);
    case ExpireNext => SafeExpiry(s, k);
    case _ =>
  }

  /** A signature that is not pending stays so until it is inserted. */
  lemma AbsentStep(s: State, e: Event, k: Signature)
    requires Keyed(s) && k !in s.pending && Step(s, e).Next? && !Inserts(s, e, k)
    ensures k !in Step(s, e).state.pending && !Expires(s, e, k)
  {
    match e
    case Reply(reply) =>
      if reply.Some? {
        ConfirmAllEffect(s.(phase := Querying(s.phase.cur, s.phase.todo)), s.phase.chunk, reply.value);
      }
    case ExpireNext =>
      assert s.phase.expired[0] in s.phase.expired;
    case _ =>
  }

  lemma {:induction false} SafeRun(s: State, es: seq<Event>, k: Signature)
    requires Keyed(s) && (k in s.pending ==> !AtRisk(s, k)) && Unqueried(s, es, k)
    ensures !ExpiresIn(s, es, k)
    decreases |es|
  {
    if es == [] {
    } else {
      KeyedStep(s, es[0]);
      if k in s.pending {
        SafeStep(s, es[0], k);
      } else {
        AbsentStep(s, es[0], k);
      }
      SafeRun(Step(s, es[0]).state, es[1..], k);
    }
  }

  /** The running pass has already condemned signature k. */
  predicate Condemned(s: State, k: Signature) {
    s.phase.Expiring? && k in s.phase.expired
  }

  /**
   * Safety in every interleaving: once the confirmation loop has loaded its first height, an entry
   * inserted when no stored height exceeds its last valid height, and not under a
   * signature the running pass has condemned, is never reported expired before a pass has
   * issued a status query for it. Heights may jump, the insert may fall between the two
   * scans, and replies and RPC errors are arbitrary.
   */
  lemma NeverExpiredBeforeQuery(height: nat, before: seq<Event>, after: seq<Event>)
    requires Run(Initial(height), before).Next?
    requires var s := Run(Initial(height), before).state;
             && !s.phase.NotStarted?
             && s.queue != []
             && s.maxStored <= s.queue[0].lastValid
             && !Condemned(s, s.queue[0].signature)
             && Unqueried(Step(s, Insert).state, after, s.queue[0].signature)
    ensures var s := Run(Initial(height), before).state;
            !ExpiresIn(Step(s, Insert).state, after, s.queue[0].signature)
  {
    InvariantRun(Initial(height), before);
    var s := Run(Initial(height), before).state;
    KeyedStep(s, Insert);
    SafeRun(Step(s, Insert).state, after, s.queue[0].signature);
  }

  // ----- entries at risk do expire in some continuation -----

  /** A listing of a finite set. */
  lemma {:induction false} Enumerate(keys: set<Signature>) returns (order: seq<Signature>)
    ensures Distinct(order) && (forall k :: k in order <==> k in keys)
    decreases |keys|
  {
    if keys == {} {
      order := [];
    } else {
      var x :| x in keys;
      var rest := Enumerate(keys - {x});
      order := [x] + rest;
      forall i, j | 0 <= i < j < |order|
        ensures order[i] != order[j]
      {
        assert order[j] == rest[j - 1] && rest[j - 1] in rest;
        assert i > 0 ==> order[i] == rest[i - 1];
      }
    }
  }

  lemma VerifyListing(s: State, cur: nat) returns (order: seq<Signature>)
    ensures ListsToVerify(s, cur, order)
  {
    order := Enumerate(set k | k in s.pending && ToVerify(s.pending[k], cur, s.last));
  }

  lemma ExpireListing(s: State, cur: nat) returns (keys: seq<Signature>)
    ensures ListsToExpire(s, cur, keys)
  {
    keys := Enumerate(set k | k in s.pending && ToExpire(s.pending[k], cur, s.last));
  }

  /** How many phases remain until an entry at risk can be expired. */
  function Stage(s: State, k: Signature): nat
    requires k in s.pending
  {
    var lastValid := s.pending[k].lastValid;
    match s.phase
    case NotStarted => if s.height > lastValid then 7 else 8
    case Querying(_, _) => if s.last > lastValid then 1 else 6
    case Awaiting(_, _, _) => if s.last > lastValid then 1 else 6
    case Expiring(_, expired) => if k in expired then 0 else 5
    case Idle => if s.height > lastValid then 3 else 4
    case Loaded(_) => 2
  }

  /** Steps left within the phase. */
  function Work(s: State): nat {
    match s.phase
    case Querying(_, todo) => 2 * |todo|
    case Awaiting(_, _, todo) => 2 * |todo| + 1
    case Expiring(_, expired) => |expired|
    case _ => 0
  }

  lemma MoveOnExpiry(s: State, k: Signature)
    requires Keyed(s) && Registered(s) && k in s.pending && AtRisk(s, k)
    requires s.phase.Expiring? && s.phase.expired != []
    ensures Step(s, ExpireNext).Next?
    ensures s.phase.expired[0] != k ==>
              var s' := Step(s, ExpireNext).state;
              && Registered(s')
              && k in s'.pending && s'.pending[k] == s.pending[k]
              && s'.phase == Expiring(s.phase.cur, s.phase.expired[1..])
              && (k in s'.phase.expired <==> k in s.phase.expired)
  {
    var expired := s.phase.expired;
    StepDoesNotPanic(s, ExpireNext);
    assert expired[0] in expired;
    assert expired == [expired[0]] + expired[1..];
  }

  lemma MoveOnQueries(s: State, k: Signature) returns (e: Event)
    requires Keyed(s) && Registered(s) && k in s.pending && AtRisk(s, k) && s.phase.Querying?
    ensures Step(s, e).Next? && !Inserts(s, e, k) && !Queries(s, e, k) && !Expires(s, e, k)
    ensures var s' := Step(s, e).state;
            && Registered(s')
            && s'.pending == s.pending
            && AtRisk(s', k)
            && (Stage(s', k) < Stage(s, k) || (Stage(s', k) == Stage(s, k) && Work(s') < Work(s)))
  {
    var cur, todo := s.phase.cur, s.phase.todo;
    if todo == [] {
      var keys := ExpireListing(s, cur);
      e := ExpiredScan(keys);
      ExpiredAreKeys(s, keys);
    } else {
      e := Query;
    }
  }

  /** One step that brings an entry at risk closer to its expiry, or expires it. */
  lemma Move(s: State, k: Signature) returns (e: Event)
    requires Keyed(s) && Registered(s) && k in s.pending && AtRisk(s, k)
    ensures Step(s, e).Next? && !Inserts(s, e, k) && !Queries(s, e, k)
    ensures !Expires(s, e, k) ==>
              var s' := Step(s, e).state;
              && Registered(s')
              && k in s'.pending && s'.pending[k] == s.pending[k]
              && AtRisk(s', k)
              && (Stage(s', k) < Stage(s, k) || (Stage(s', k) == Stage(s, k) && Work(s') < Work(s)))
  {
    match s.phase
    case NotStarted =>
      e := if s.height > s.pending[k].lastValid then Start else StoreHeight(s.pending[k].lastValid + 1);
    case Idle =>
      e := if s.height > s.pending[k].lastValid then BeginPass else StoreHeight(s.pending[k].lastValid + 1);
    case Loaded(cur) =>
      var order := VerifyListing(s, cur);
      e := VerifyScan(order);
    case Querying(cur, todo) =>
      e := MoveOnQueries(s, k);
    case Awaiting(_, _, _) =>
      e := Reply(None);
    case Expiring(_, expired) =>
      e := if expired == [] then EndPass else ExpireNext;
      if expired != [] {
        MoveOnExpiry(s, k);
      }
  }

  /** From any state an entry at risk can be reported expired with no status query in between. */
  lemma {:induction false} RiskIsReal(s: State, k: Signature) returns (es: seq<Event>)
    requires Keyed(s) && Registered(s) && k in s.pending && AtRisk(s, k)
    ensures ExpiresUnqueried(s, es, k)
    decreases Stage(s, k), Work(s)
  {
    var e := Move(s, k);
    var s' := Step(s, e).state;
    if Expires(s, e, k) {
      es := [e];
    } else {
      KeyedStep(s, e);
      var rest := RiskIsReal(s', k);
      es := [e] + rest;
      assert es[1..] == rest;
    }
  }

  /**
   * The exact condition: from a state whose transactions all have a channel, a pending
   * entry can be reported expired without another status query if and only if it is at risk.
   */
  lemma ExpiryWithoutQueryIffAtRisk(s: State, k: Signature)
    requires Keyed(s) && Registered(s) && k in s.pending
    ensures (exists es :: ExpiresUnqueried(s, es, k)) <==> AtRisk(s, k)
  {
    if AtRisk(s, k) {
      var es := RiskIsReal(s, k);
      assert ExpiresUnqueried(s, es, k);
    } else {
      forall es
        ensures !ExpiresUnqueried(s, es, k)
      {
        if Unqueried(s, es, k) {
          SafeRun(s, es, k);
        }
      }
    }
  }

  /**
   * For a fresh insert, whose last valid height no stored height exceeds, the condition
   * can be read off before the insert: its entry can be reported expired unqueried if and
   * only if the confirmation loop has not yet loaded its first height, or the running pass has
   * condemned the signature (which was then already pending).
   */
  lemma FreshInsertIff(s: State)
    requires Invariant(s) && Registered(s)
    requires s.queue != [] && s.maxStored <= s.queue[0].lastValid
    ensures var k := s.queue[0].signature;
            && (Condemned(s, k) ==> k in s.pending)
            && ((exists es :: ExpiresUnqueried(Step(s, Insert).state, es, k)) <==>
                  s.phase.NotStarted? || Condemned(s, k))
  {
    var s' := Step(s, Insert).state;
    KeyedStep(s, Insert);
    StepDoesNotPanic(s, Insert);
    ExpiryWithoutQueryIffAtRisk(s', s.queue[0].signature);
  }

  // ----- signatures that fix their last valid height -----

  /**
   * Everything sent, pending or condemned goes by the last valid height that its signature
   * fixes: a signature covers the blockhash, and the height comes with the blockhash.
   */
  ghost predicate Dated(s: State, validity: Signature -> nat) {
    && (forall d :: d in s.queue ==> d.lastValid == validity(d.signature))
    && (forall k :: k in s.pending ==> s.pending[k].lastValid == validity(k))
    && (s.phase.Expiring? ==> forall k :: k in s.phase.expired ==> s.phase.cur > validity(k))
  }

  ghost predicate DatedSend(e: Event, validity: Signature -> nat) {
    e.Send? ==> e.data.lastValid == validity(e.data.signature)
  }

  lemma DatedStep(s: State, e: Event, validity: Signature -> nat)
    requires Keyed(s) && Dated(s, validity) && DatedSend(e, validity) && Step(s, e).Next?
    ensures Dated(Step(s, e).state, validity)
  {
    match e
    case Reply(reply) =>
      if reply.Some? {
        ConfirmAllEffect(s.(phase := Querying(s.phase.cur, s.phase.todo)), s.phase.chunk, reply.value);
      }
    case ExpiredScan(keys) =>
      ExpiredAreKeys(s, keys);
    case _ =>
  }

  lemma {:induction false} DatedRun(s: State, es: seq<Event>, validity: Signature -> nat)
    requires Keyed(s) && Dated(s, validity) && Run(s, es).Next?
    requires forall e :: e in es ==> DatedSend(e, validity)
    ensures Dated(Run(s, es).state, validity)
    decreases |es|
  {
    if es == [] {
    } else {
      KeyedStep(s, es[0]);
      DatedStep(s, es[0], validity);
      DatedRun(Step(s, es[0]).state, es[1..], validity);
    }
  }

  /**
   * If signatures fix their last valid height, a fresh insert is never condemned, sent
   * again or not: whatever the run, its entry can be reported expired unqueried if and
   * only if the confirmation loop has not yet loaded its first height.
   */
  lemma FreshDatedInsertIff(height: nat, before: seq<Event>, validity: Signature -> nat)
    requires Run(Initial(height), before).Next? && SubscribedSends(Initial(height), before)
    requires forall e :: e in before ==> DatedSend(e, validity)
    requires var s := Run(Initial(height), before).state;
             s.queue != [] && s.maxStored <= s.queue[0].lastValid
    ensures var s := Run(Initial(height), before).state;
            var k := s.queue[0].signature;
            && !Condemned(s, k)
            && ((exists es :: ExpiresUnqueried(Step(s, Insert).state, es, k)) <==> s.phase.NotStarted?)
  {
    var s := Run(Initial(height), before).state;
    InvariantRun(Initial(height), before);
    RunDoesNotPanic(Initial(height), before);
    DatedRun(Initial(height), before, validity);
    assert s.queue[0] in s.queue;
    FreshInsertIff(s);
  }

  /** A concrete fresh transaction that is reported expired unqueried because the confirmation loop starts late. */
  lemma LateStartLosesFreshTransaction()
    ensures var d := Data(9, 100, 1, 1);
            var r := Run(Initial(50), [Subscribe, Send(d), Insert]);
            r.Next? && r.state.maxStored <= 100 && exists es :: ExpiresUnqueried(r.state, es, 9)
  {
    var d := Data(9, 100, 1, 1);
    var s1 := Step(Initial(50), Subscribe).state;
    var s2 := Step(s1, Send(d)).state;
    assert s2.queue == [d];
    var s3 := Step(s2, Insert).state;
    var es1, es2 := [Send(d), Insert], [Insert];
    assert es1[1..] == es2 && [Subscribe, Send(d), Insert][1..] == es1 && es2[1..] == [];
    assert Run(s2, es2) == Next(s3);
    assert Run(s1, es1) == Next(s3);
    assert Keyed(s3) && Registered(s3);
    ExpiryWithoutQueryIffAtRisk(s3, 9);
  }

  // ----- bounded lifetime -----

  /** Two neighbouring passes both read a height above `lastValid`. */
  ghost predicate TwiceAbove(passes: seq<nat>, lastValid: nat) {
    exists i :: 0 <= i < |passes| - 1 && passes[i] > lastValid && passes[i + 1] > lastValid
  }

  /** The run is possible and does not insert signature k again. */
  ghost predicate NotReinserted(s: State, es: seq<Event>, k: Signature)
    decreases |es|
  {
    es != [] ==>
      Step(s, es[0]).Next? && !Inserts(s, es[0], k) && NotReinserted(Step(s, es[0]).state, es[1..], k)
  }

  /**
   * The invariant of an entry that was pending when `from` passes had completed: no two
   * neighbouring later passes were above its last valid height, and if the one in
   * progress is about to be the second, it has condemned the entry by its expired scan.
   */
  ghost predicate Surviving(s: State, k: Signature, from: nat) {
    && from <= |s.passes|
    && (s.phase.NotStarted? ==> |s.passes| == from)
    && (|s.passes| > from ==> s.last == s.passes[|s.passes| - 1])
    && (k in s.pending ==>
          var lastValid := s.pending[k].lastValid;
          && !TwiceAbove(s.passes[from..], lastValid)
          && (|s.passes| > from && s.phase.Expiring? && s.phase.cur > lastValid && s.last > lastValid ==>
                k in s.phase.expired))
  }

  lemma TwiceAboveStep(passes: seq<nat>, cur: nat, lastValid: nat)
    ensures TwiceAbove(passes + [cur], lastValid) <==>
              TwiceAbove(passes, lastValid) || (passes != [] && passes[|passes| - 1] > lastValid && cur > lastValid)
  {
    var all := passes + [cur];
    if TwiceAbove(passes, lastValid) {
      var i :| 0 <= i < |passes| - 1 && passes[i] > lastValid && passes[i + 1] > lastValid;
      assert all[i] > lastValid && all[i + 1] > lastValid;
    }
    if passes != [] && passes[|passes| - 1] > lastValid && cur > lastValid {
      assert all[|passes| - 1] > lastValid && all[|passes| - 1 + 1] > lastValid;
    }
    if TwiceAbove(all, lastValid) {
      var i :| 0 <= i < |all| - 1 && all[i] > lastValid && all[i + 1] > lastValid;
      assert i < |passes| - 1 ==> passes[i] > lastValid && passes[i + 1] > lastValid;
    }
  }

  lemma EndPassSurvives(s: State, k: Signature, from: nat)
    requires Keyed(s) && Surviving(s, k, from) && s.phase.Expiring? && s.phase.expired == []
    ensures Surviving(Step(s, EndPass).state, k, from)
  {
    var s' := Step(s, EndPass).state;
    assert s'.passes[from..] == s.passes[from..] + [s.phase.cur];
    if k in s.pending {
      TwiceAboveStep(s.passes[from..], s.phase.cur, s.pending[k].lastValid);
    }
  }

  lemma SurvivingStep(s: State, e: Event, k: Signature, from: nat)
    requires Keyed(s) && Surviving(s, k, from) && Step(s, e).Next? && !Inserts(s, e, k)
    ensures Surviving(Step(s, e).state, k, from)
  {
    match e
    case Reply(reply) =>
      if reply.Some? {
        ConfirmAllEffect(s.(phase := Querying(s.phase.cur, s.phase.todo)), s.phase.chunk, reply.value);
      }
    case ExpiredScan(keys) =>
      ExpiredAreKeys(s, keys);
    case ExpireNext =>
      assert s.phase.expired == [s.phase.expired[0]] + s.phase.expired[1..];
    case EndPass =>
      EndPassSurvives(s, k, from);
    case _ =>
  }

  lemma KeepsData(s: State, e: Event, k: Signature)
    requires Step(s, e).Next? && !Inserts(s, e, k)
    ensures var s' := Step(s, e).state;
            k in s'.pending ==> k in s.pending && s'.pending[k] == s.pending[k]
  {
    match e
    case Reply(reply) =>
      if reply.Some? {
        ConfirmAllEffect(s.(phase := Querying(s.phase.cur, s.phase.todo)), s.phase.chunk, reply.value);
      }
    case _ =>
  }

  lemma {:induction false} SurvivingRun(s: State, es: seq<Event>, k: Signature, from: nat)
    requires Keyed(s) && Surviving(s, k, from) && NotReinserted(s, es, k)
    ensures Run(s, es).Next? && Surviving(Run(s, es).state, k, from)
    ensures k in Run(s, es).state.pending ==>
              k in s.pending && Run(s, es).state.pending[k] == s.pending[k]
    decreases |es|
  {
    if es == [] {
    } else {
      KeyedStep(s, es[0]);
      SurvivingStep(s, es[0], k, from);
      KeepsData(s, es[0], k);
      SurvivingRun(Step(s, es[0]).state, es[1..], k, from);
    }
  }

  /**
   * Bounded lifetime: wherever a run starts from, a pending entry that is not inserted
   * again does not survive two consecutive completed passes that both read a height above
   * its last valid height, whatever the replies and RPC errors were.
   */
  lemma BoundedLifetime(s: State, es: seq<Event>, k: Signature)
    requires Keyed(s) && k in s.pending && NotReinserted(s, es, k)
    ensures Run(s, es).Next?
    ensures var s' := Run(s, es).state;
            && |s'.passes| >= |s.passes|
            && (TwiceAbove(s'.passes[|s.passes|..], s.pending[k].lastValid) ==> k !in s'.pending)
  {
    assert s.passes[|s.passes|..] == [];
    SurvivingRun(s, es, k, |s.passes|);
  }
}
