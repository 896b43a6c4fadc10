/**
 * The service and its confirmation task as they run: the shared maps, channels and
 * counters, updated in place. Every method is proved to be a step (or a run) of the
 * protocol's state machine.
 */
module ConfirmationTask {
  import opened Prelude
  import opened Confirmation
  import opened ConfirmationInvariants

  lemma {:induction false} RunSnoc(s: State, es: seq<Event>, e: Event)
    requires Run(s, es).Next?
    ensures Run(s, es + [e]) == Step(Run(s, es).state, e)
    decreases |es|
  {
    if es == [] {
      assert [e][1..] == [];
      assert es + [e] == [e];
    } else {
      RunSnoc(Step(s, es[0]).state, es[1..], e);
      assert (es + [e])[1..] == es[1..] + [e];
    }
  }

  /** Only the zipped prefix of a reply matters. */
  lemma ConfirmPrefix(s: State, sigs: seq<Signature>, statuses: seq<Option<Status>>)
    ensures var n := Min(|sigs|, |statuses|);
            ConfirmAll(s, sigs[..n], statuses[..n]) == ConfirmAll(s, sigs, statuses)
  {
    var n := Min(|sigs|, |statuses|);
    if n > 0 {
      assert sigs[..n][..n - 1] == sigs[..n - 1] && statuses[..n][..n - 1] == statuses[..n - 1];
    }
  }

  /** A reply panics as soon as one of its statuses does. */
  lemma {:induction false} ConfirmPanicIsFinal(s: State, sigs: seq<Signature>, statuses: seq<Option<Status>>, i: nat)
    requires i <= Min(|sigs|, |statuses|) && ConfirmAll(s, sigs[..i], statuses[..i]).Panic?
    ensures ConfirmAll(s, sigs, statuses).Panic?
    decreases Min(|sigs|, |statuses|) - i
  {
    if i == Min(|sigs|, |statuses|) {
      ConfirmPrefix(s, sigs, statuses);
    } else {
      assert sigs[..i + 1][..i] == sigs[..i] && statuses[..i + 1][..i] == statuses[..i];
      ConfirmPanicIsFinal(s, sigs, statuses, i + 1);
    }
  }

  /** A run without sends uses no unsubscribed handle. */
  lemma {:induction false} WithoutSends(s: State, es: seq<Event>)
    requires forall e :: e in es ==> !e.Send?
    ensures SubscribedSends(s, es)
    decreases |es|
  {
    if es == [] {
    } else {
      assert es[0] in es;
      if Step(s, es[0]).Next? {
        WithoutSends(Step(s, es[0]).state, es[1..]);
      }
    }
  }

  class ConfirmationService {
    var nextSource: SourceId
    var inboxes: map<SourceId, seq<Answer>>
    var queue: seq<Data>
    var pending: map<Signature, Data>
    var height: nat
    var lastBlockHeight: nat
    /** The confirmation task's program counter and the locals of its pass. */
    var phase: Phase
    var broadcast: seq<Answer>
    var numConfirmed: nat
    var numUnconfirmed: nat
    ghost var maxStored: nat
    ghost var openings: multiset<Signature>
    ghost var passes: seq<nat>

    ghost function Snapshot(): State
      reads this
    {
      State(nextSource, inboxes, queue, pending, height, lastBlockHeight, phase, broadcast,
            numConfirmed, numUnconfirmed, maxStored, openings, passes)
    }

    ghost predicate Valid()
      reads this
    {
      Keyed(Snapshot())
    }

    constructor (initialHeight: nat)
      ensures Snapshot() == Initial(initialHeight) && Valid()
    {
      nextSource, inboxes, queue, pending := 1, map[], [], map[];
      height, lastBlockHeight, phase := initialHeight, 0, NotStarted;
      broadcast, numConfirmed, numUnconfirmed := [], 0, 0;
      maxStored, openings, passes := initialHeight, multiset{}, [];
    }

    /** A new handle id with its own channel. */
    method Subscribe() returns (id: SourceId)
      requires Valid()
      modifies this
      ensures Step(old(Snapshot()), Event.Subscribe) == Next(Snapshot()) && Valid()
      ensures id == old(nextSource) && nextSource == id + 1 && inboxes == old(inboxes)[id := []]
    {
      id := nextSource;
      nextSource := nextSource + 1;
      inboxes := inboxes[id := []];
      KeyedStep(old(Snapshot()), Event.Subscribe);
    }

    /** A new handle id without a channel of its own; its owner listens to the broadcast. */
    method SubscribeAll() returns (id: SourceId)
      requires Valid()
      modifies this
      ensures Step(old(Snapshot()), Event.SubscribeAll) == Next(Snapshot()) && Valid()
      ensures id == old(nextSource) && nextSource == id + 1 && inboxes == old(inboxes)
    {
      id := nextSource;
      nextSource := nextSource + 1;
      KeyedStep(old(Snapshot()), Event.SubscribeAll);
    }

    /** Queues a signed transaction for the send task, through any handle handed out. */
    method SendTransaction(d: Data)
      requires Valid() && d.sourceId < nextSource
      modifies this
      ensures Step(old(Snapshot()), Send(d)) == Next(Snapshot()) && Valid()
      ensures queue == old(queue) + [d] && pending == old(pending)
    {
      queue := queue + [d];
      KeyedStep(old(Snapshot()), Send(d));
    }

    /** The send task takes the next transaction into the unconfirmed map. */
    method ReceiveNext()
      requires Valid() && queue != []
      modifies this
      ensures Step(old(Snapshot()), Insert) == Next(Snapshot()) && Valid()
      ensures old(queue) == [old(queue)[0]] + queue
      ensures pending == old(pending)[old(queue)[0].signature := old(queue)[0]]
    {
      var d := queue[0];
      queue := queue[1..];
      openings := if d.signature in pending then openings else openings + multiset{d.signature};
      pending := pending[d.signature := d];
      KeyedStep(old(Snapshot()), Insert);
    }

    method Store(newHeight: nat)
      requires Valid()
      modifies this
      ensures Step(old(Snapshot()), StoreHeight(newHeight)) == Next(Snapshot()) && Valid()
      ensures height == newHeight && pending == old(pending) && phase == old(phase)
    {
      height := newHeight;
      maxStored := Max(maxStored, newHeight);
      KeyedStep(old(Snapshot()), StoreHeight(newHeight));
    }

    method StartTask()
      requires Valid() && phase.NotStarted?
      modifies this
      ensures Step(old(Snapshot()), Start) == Next(Snapshot()) && Valid() && phase.Idle?
      ensures lastBlockHeight == height == old(height)
    {
      lastBlockHeight := height;
      phase := Idle;
      KeyedStep(old(Snapshot()), Start);
    }

    method LoadHeight()
      requires Valid() && phase.Idle? && pending != map[]
      modifies this
      ensures Step(old(Snapshot()), BeginPass) == Next(Snapshot()) && Valid() && phase == Loaded(old(height))
    {
      phase := Loaded(height);
      KeyedStep(old(Snapshot()), BeginPass);
    }

    /** The first scan: entries not expired, or expired since the last pass, in any order. */
    method ScanToVerify() returns (order: seq<Signature>)
      requires Valid() && phase.Loaded?
      modifies this
      ensures Step(old(Snapshot()), VerifyScan(order)) == Next(Snapshot()) && Valid()
      ensures phase == Querying(old(phase).cur, order) && pending == old(pending)
      ensures Distinct(order)
      ensures forall k :: k in order <==>
                k in pending && (pending[k].lastValid >= phase.cur || pending[k].lastValid >= lastBlockHeight)
    {
      var cur := phase.cur;
      var keys := pending.Keys;
      order := [];
      while keys != {}
        invariant Snapshot() == old(Snapshot()) && keys <= pending.Keys
        invariant Distinct(order)
        invariant forall k :: k in order <==>
                    k in pending && k !in keys && ToVerify(pending[k], cur, lastBlockHeight)
        decreases keys
      {
        var k :| k in keys;
        if ToVerify(pending[k], cur, lastBlockHeight) {
          order := order + [k];
        }
        keys := keys - {k};
      }
      assert ListsToVerify(old(Snapshot()), cur, order);
      phase := Querying(cur, order);
      KeyedStep(old(Snapshot()), VerifyScan(order));
    }

    method IssueQuery()
      requires Valid() && phase.Querying? && phase.todo != []
      modifies this
      ensures Step(old(Snapshot()), Query) == Next(Snapshot()) && Valid()
      ensures phase.Awaiting? && phase.cur == old(phase).cur && phase.chunk + phase.todo == old(phase).todo
      ensures 0 < |phase.chunk| <= 256 && (phase.todo != [] ==> |phase.chunk| == 256)
    {
      var n := Min(|phase.todo|, MAX_QUERY_ITEMS);
      phase := Awaiting(phase.cur, phase.todo[..n], phase.todo[n..]);
      KeyedStep(old(Snapshot()), Query);
    }

    /** Removes and answers one signature that a status confirms; false where the unwrap panics. */
    method Confirm(sig: Signature, status: Option<Status>) returns (ok: bool)
      modifies this
      ensures ConfirmOne(old(Snapshot()), sig, status) == if ok then Next(Snapshot()) else Panic
    {
      if status.Some? && status.value.satisfied && sig in pending {
        var data := pending[sig];
        pending := pending - {sig};
        numConfirmed := numConfirmed + 1;
        var error := match status.value.err
          case Some(AlreadyProcessed) => None
          case None => None
          case Some(other) => Some(other);
        if data.sourceId !in inboxes {
          return false;
        }
        var answer := Answer(data, Confirmed(error, status.value.slot));
        inboxes := inboxes[data.sourceId := inboxes[data.sourceId] + [answer]];
        broadcast := broadcast + [answer];
      }
      return true;
    }

    /** The statuses of a reply, zipped with the signatures of its chunk. */
    method ConfirmStatuses(chunk: seq<Signature>, statuses: seq<Option<Status>>) returns (ok: bool)
      modifies this
      ensures ConfirmAll(old(Snapshot()), chunk, statuses) == if ok then Next(Snapshot()) else Panic
    {
      ghost var s0 := Snapshot();
      for i := 0 to Min(|chunk|, |statuses|)
        invariant ConfirmAll(s0, chunk[..i], statuses[..i]) == Next(Snapshot())
      {
        assert chunk[..i + 1][..i] == chunk[..i] && statuses[..i + 1][..i] == statuses[..i];
        ok := Confirm(chunk[i], statuses[i]);
        if !ok {
          ConfirmPanicIsFinal(s0, chunk, statuses, i + 1);
          return;
        }
      }
      ConfirmPrefix(s0, chunk, statuses);
      ok := true;
    }

    /** The reply to the outstanding query: an RPC error, or statuses; false when answering panics. */
    method HandleReply(reply: Option<seq<Option<Status>>>) returns (ok: bool)
      requires Valid() && phase.Awaiting?
      modifies this
      ensures Step(old(Snapshot()), Reply(reply)) == if ok then Next(Snapshot()) else Panic
      ensures ok ==> Valid() && phase == Querying(old(phase).cur, old(phase).todo)
    {
      var chunk := phase.chunk;
      phase := Querying(phase.cur, phase.todo);
      ghost var s0 := Snapshot();
      ok := true;
      if reply.Some? {
        ok := ConfirmStatuses(chunk, reply.value);
        if ok {
          ConfirmAllEffect(s0, chunk, reply.value);
        }
      }
      if ok {
        KeyedStep(old(Snapshot()), Reply(reply));
      }
    }

    /** The second scan: entries expired, and not since the last pass only. */
    method ScanToExpire() returns (keys: seq<Signature>)
      requires Valid() && phase.Querying? && phase.todo == []
      modifies this
      ensures Step(old(Snapshot()), ExpiredScan(keys)) == Next(Snapshot()) && Valid()
      ensures phase == Expiring(old(phase).cur, keys) && pending == old(pending)
      ensures Distinct(keys)
      ensures forall k :: k in keys <==>
                k in pending && pending[k].lastValid < phase.cur && pending[k].lastValid < lastBlockHeight
    {
      var cur := phase.cur;
      var left := pending.Keys;
      keys := [];
      while left != {}
        invariant Snapshot() == old(Snapshot()) && left <= pending.Keys
        invariant Distinct(keys)
        invariant forall k :: k in keys <==>
                    k in pending && k !in left && ToExpire(pending[k], cur, lastBlockHeight)
        decreases left
      {
        var k :| k in left;
        if ToExpire(pending[k], cur, lastBlockHeight) {
          keys := keys + [pending[k].signature];
        }
        left := left - {k};
      }
      assert ListsToExpire(old(Snapshot()), cur, keys);
      ExpiredAreKeys(old(Snapshot()), keys);
      phase := Expiring(cur, keys);
      KeyedStep(old(Snapshot()), ExpiredScan(keys));
    }

    /**
     * Removes and answers the next condemned signature. The removal finds its entry; false
     * where the subscriber is missing.
     */
    method ExpireFirst() returns (ok: bool)
      requires Valid() && phase.Expiring? && phase.expired != []
      modifies this
      ensures Step(old(Snapshot()), ExpireNext) == if ok then Next(Snapshot()) else Panic
      ensures ok ==> Valid() && phase == Expiring(old(phase).cur, old(phase).expired[1..])
      ensures var sig := old(phase).expired[0];
              ok ==>
                && sig in old(pending) && pending == old(pending) - {sig}
                && broadcast == old(broadcast) + [Answer(old(pending)[sig], Expired)]
                && numUnconfirmed == old(numUnconfirmed) + 1 && numConfirmed == old(numConfirmed)
    {
      var sig := phase.expired[0];
      assert sig in phase.expired;
      phase := Expiring(phase.cur, phase.expired[1..]);
      numUnconfirmed := numUnconfirmed + 1;
      var data := pending[sig];
      pending := pending - {sig};
      if data.sourceId !in inboxes {
        return false;
      }
      var answer := Answer(data, Expired);
      inboxes := inboxes[data.sourceId := inboxes[data.sourceId] + [answer]];
      broadcast := broadcast + [answer];
      KeyedStep(old(Snapshot()), ExpireNext);
      return true;
    }

    method FinishPass()
      requires Valid() && phase.Expiring? && phase.expired == []
      modifies this
      ensures Step(old(Snapshot()), EndPass) == Next(Snapshot()) && Valid()
      ensures phase.Idle? && lastBlockHeight == old(phase).cur
    {
      lastBlockHeight := phase.cur;
      passes := passes + [phase.cur];
      phase := Idle;
      KeyedStep(old(Snapshot()), EndPass);
    }

    /** The query loop of a pass, appended to the run so far; `rpc` answers the queries. */
    method QueryAll(rpc: seq<Signature> -> Option<seq<Option<Status>>>, ghost start: State, ghost before: seq<Event>)
      returns (ok: bool, ghost events: seq<Event>)
      requires Valid() && phase.Querying? && Run(start, before) == Next(Snapshot())
      requires forall e :: e in before ==> !e.Send?
      modifies this
      ensures Run(start, events) == if ok then Next(Snapshot()) else Panic
      ensures ok ==> Valid() && phase.Querying? && phase.todo == []
      ensures forall e :: e in events ==> !e.Send?
    {
      events := before;
      while phase.todo != []
        invariant Valid() && phase.Querying?
        invariant Run(start, events) == Next(Snapshot())
        invariant forall e :: e in events ==> !e.Send?
        decreases |phase.todo|
      {
        IssueQuery();
        RunSnoc(start, events, Query);
        events := events + [Query];
        var reply := rpc(phase.chunk);
        ok := HandleReply(reply);
        RunSnoc(start, events, Reply(reply));
        events := events + [Reply(reply)];
        if !ok {
          return;
        }
      }
      ok := true;
    }

    /** The expiry loop of a pass, appended to the run so far. */
    method ExpireAll(ghost start: State, ghost before: seq<Event>) returns (ok: bool, ghost events: seq<Event>)
      requires Valid() && phase.Expiring? && Run(start, before) == Next(Snapshot())
      requires forall e :: e in before ==> !e.Send?
      modifies this
      ensures Run(start, events) == if ok then Next(Snapshot()) else Panic
      ensures ok ==> Valid() && phase.Expiring? && phase.expired == []
      ensures forall e :: e in events ==> !e.Send?
    {
      events := before;
      while phase.expired != []
        invariant Valid() && phase.Expiring?
        invariant Run(start, events) == Next(Snapshot())
        invariant forall e :: e in events ==> !e.Send?
        decreases |phase.expired|
      {
        ok := ExpireFirst();
        RunSnoc(start, events, ExpireNext);
        events := events + [ExpireNext];
        if !ok {
          return;
        }
      }
      ok := true;
    }

    /**
     * One turn of the confirmation loop when nothing interferes: `rpc` answers the status
     * queries. The turn is a run of the state machine, named by `events`, and panics
     * exactly if that run does; with channels for all transactions it does not.
     */
    method Pass(rpc: seq<Signature> -> Option<seq<Option<Status>>>) returns (ok: bool, ghost events: seq<Event>)
      requires Valid() && phase.Idle?
      modifies this
      ensures Run(old(Snapshot()), events) == if ok then Next(Snapshot()) else Panic
      ensures ok ==> Valid() && phase.Idle?
      ensures old(pending) == map[] ==> ok && events == [] && Snapshot() == old(Snapshot())
      ensures Registered(old(Snapshot())) ==> ok && Registered(Snapshot())
    {
      ok, events := true, [];
      if pending != map[] {
        LoadHeight();
        RunSnoc(old(Snapshot()), events, BeginPass);
        events := events + [BeginPass];
        var order := ScanToVerify();
        RunSnoc(old(Snapshot()), events, VerifyScan(order));
        events := events + [VerifyScan(order)];
        ok, events := QueryAll(rpc, old(Snapshot()), events);
        if ok {
          var keys := ScanToExpire();
          RunSnoc(old(Snapshot()), events, ExpiredScan(keys));
          events := events + [ExpiredScan(keys)];
          ok, events := ExpireAll(old(Snapshot()), events);
        }
        if ok {
          FinishPass();
          RunSnoc(old(Snapshot()), events, EndPass);
          events := events + [EndPass];
        }
      }
      WithoutSends(old(Snapshot()), events);
      if Registered(old(Snapshot())) {
        RunDoesNotPanic(old(Snapshot()), events);
      }
    }
  }
}
