/**
 * The send/confirm protocol as a state machine: handles queue transactions
 * (crates/biscuit/src/wire/send_txn/service.rs), a send task moves them into the shared
 * unconfirmed map, a poller stores block heights
 * (crates/biscuit/src/wire/rpc/poll_blockhash.rs), and the confirmation task makes passes
 * over the map (crates/biscuit/src/wire/confirm_txn.rs).
 *
 * Each event is one atomic action of one of these tasks; a run is any interleaving. A scan
 * of the map carries the order in which it visited the entries. An insert that races with
 * a scan of the concurrent map is ordered before it if the scan saw the entry and after it
 * otherwise. A reply is one event although inserts can fall between the removals of its
 * loop. The removals concern distinct signatures, so such an insert amounts to one before
 * or after the reply; only two inserts that repeat signatures of the reply's own chunk, the
 * first after its removal and the second before, have no such order.
 */
module Confirmation {
  import opened Prelude

  type Signature = nat
  type SourceId = nat

  /** The most signatures one status query may carry. */
  const MAX_QUERY_ITEMS: nat := 256

  datatype Data = Data(signature: Signature, lastValid: nat, txnId: nat, sourceId: SourceId)

  datatype TxError = AlreadyProcessed | OtherError(code: nat)

  /** A signature's status; `satisfied` says that it meets the client's commitment. */
  datatype Status = Status(satisfied: bool, slot: nat, err: Option<TxError>)

  datatype Response = Confirmed(error: Option<TxError>, slot: nat) | Expired

  datatype Answer = Answer(data: Data, response: Response)

  /** Where the confirmation task stands; `cur` is the height it read for this pass. */
  datatype Phase =
    | NotStarted
    | Idle
    | Loaded(cur: nat)
    | Querying(cur: nat, todo: seq<Signature>)
    | Awaiting(cur: nat, chunk: seq<Signature>, todo: seq<Signature>)
    | Expiring(cur: nat, expired: seq<Signature>)

  datatype State = State(
    nextSource: SourceId,
    inboxes: map<SourceId, seq<Answer>>,  // one channel per subscriber
    queue: seq<Data>,                     // sent, not yet picked up by the send task
    pending: map<Signature, Data>,        // the unconfirmed map
    height: nat,                          // the stored block height
    last: nat,                            // the confirmation loop's last_block_height
    phase: Phase,
    broadcast: seq<Answer>,
    numConfirmed: nat,
    numUnconfirmed: nat,
    maxStored: nat,                       // history: the greatest height ever stored
    openings: multiset<Signature>,        // history: inserts of an absent signature
    passes: seq<nat>)                     // history: heights read by completed passes

  function Initial(height: nat): State {
    State(1, map[], [], map[], height, 0, NotStarted, [], 0, 0, height, multiset{}, [])
  }

  datatype Event =
    | Subscribe
    | SubscribeAll
    | Send(data: Data)
    | Insert
    | StoreHeight(newHeight: nat)
    | Start
    | BeginPass
    | VerifyScan(order: seq<Signature>)
    | Query
    | Reply(statuses: Option<seq<Option<Status>>>)
    | ExpiredScan(keys: seq<Signature>)
    | ExpireNext
    | EndPass

  /** An event leads on, is not enabled, or makes a task panic. */
  datatype Outcome = Next(state: State) | Disabled | Panic

  // ----- the filters of the two scans -----

  predicate ToVerify(d: Data, cur: nat, last: nat) {
    var isNotExpired := cur <= d.lastValid;
    var isRecentlyExpired := last <= d.lastValid && cur > d.lastValid;
    isNotExpired || isRecentlyExpired
  }

  predicate ToExpire(d: Data, cur: nat, last: nat) {
    var isExpired := cur > d.lastValid;
    var isRecentlyExpired := last <= d.lastValid && cur > d.lastValid;
    isExpired && !isRecentlyExpired
  }

  /** `order` visits exactly the pending keys that the verify filter selects, once each. */
  ghost predicate ListsToVerify(s: State, cur: nat, order: seq<Signature>) {
    && Distinct(order)
    && (forall k :: k in order <==> k in s.pending && ToVerify(s.pending[k], cur, s.last))
  }

  ghost predicate ListsToExpire(s: State, cur: nat, keys: seq<Signature>) {
    && Distinct(keys)
    && (forall k :: k in keys <==> k in s.pending && ToExpire(s.pending[k], cur, s.last))
  }

  // ----- answers -----

  /** Sends an answer on its source's channel and on the broadcast; unwraps the subscriber. */
  function Deliver(s: State, a: Answer): Outcome {
    var id := a.data.sourceId;
    if id !in s.inboxes then Panic
    else Next(s.(inboxes := s.inboxes[id := s.inboxes[id] + [a]], broadcast := s.broadcast + [a]))
  }

  function ReportedError(err: Option<TxError>): Option<TxError> {
    if err == Some(AlreadyProcessed) then None else err
  }

  predicate Confirms(status: Option<Status>) {
    status.Some? && status.value.satisfied
  }

  function ConfirmOne(s: State, sig: Signature, status: Option<Status>): Outcome {
    if Confirms(status) && sig in s.pending then
      Deliver(s.(pending := s.pending - {sig}, numConfirmed := s.numConfirmed + 1),
              Answer(s.pending[sig], Confirmed(ReportedError(status.value.err), status.value.slot)))
    else Next(s)
  }

  /** The statuses of a reply, zipped with the signatures of its chunk. */
  function ConfirmAll(s: State, sigs: seq<Signature>, statuses: seq<Option<Status>>): Outcome {
    var n := Min(|sigs|, |statuses|);
    if n == 0 then Next(s)
    else
      match ConfirmAll(s, sigs[..n - 1], statuses[..n - 1])
      case Next(s') => ConfirmOne(s', sigs[n - 1], statuses[n - 1])
      case other => other
  }

  function ExpireOne(s: State, sig: Signature): Outcome {
    if sig !in s.pending then Panic  // the source's unreachable!
    else
      Deliver(s.(pending := s.pending - {sig}, numUnconfirmed := s.numUnconfirmed + 1),
              Answer(s.pending[sig], Expired))
  }

  // ----- steps -----

  function InsertNext(s: State): Outcome {
    if s.queue == [] then Disabled
    else
      var d := s.queue[0];
      Next(s.(queue := s.queue[1..],
              pending := s.pending[d.signature := d],
              openings := if d.signature in s.pending then s.openings
                          else s.openings + multiset{d.signature}))
  }

  /** A scan event carries what such a scan can return. */
  ghost predicate Legal(s: State, e: Event) {
    match e
    case VerifyScan(order) => s.phase.Loaded? && ListsToVerify(s, s.phase.cur, order)
    case ExpiredScan(keys) => s.phase.Querying? && ListsToExpire(s, s.phase.cur, keys)
    case _ => true
  }

  ghost function Step(s: State, e: Event): Outcome {
    if !Legal(s, e) then Disabled else
    match e
    case Subscribe =>
      Next(s.(nextSource := s.nextSource + 1, inboxes := s.inboxes[s.nextSource := []]))
    case SubscribeAll =>
      Next(s.(nextSource := s.nextSource + 1))
    case Send(d) =>
      if d.sourceId < s.nextSource then Next(s.(queue := s.queue + [d])) else Disabled
    case Insert => InsertNext(s)
    case StoreHeight(h) =>
      Next(s.(height := h, maxStored := Max(s.maxStored, h)))
    case Start =>
      if s.phase.NotStarted? then Next(s.(phase := Idle, last := s.height)) else Disabled
    case BeginPass =>
      if s.phase.Idle? && s.pending != map[] then Next(s.(phase := Loaded(s.height))) else Disabled
    case VerifyScan(order) =>
      Next(s.(phase := Querying(s.phase.cur, order)))
    case Query =>
      if s.phase.Querying? && s.phase.todo != [] then
        var n := Min(|s.phase.todo|, MAX_QUERY_ITEMS);
        Next(s.(phase := Awaiting(s.phase.cur, s.phase.todo[..n], s.phase.todo[n..])))
      else Disabled
    case Reply(reply) =>
      if s.phase.Awaiting? then
        var s' := s.(phase := Querying(s.phase.cur, s.phase.todo));
        if reply.None? then Next(s') else ConfirmAll(s', s.phase.chunk, reply.value)
      else Disabled
    case ExpiredScan(keys) =>
      if s.phase.Querying? && s.phase.todo == [] then
        var expired := seq(|keys|, i requires 0 <= i < |keys| => s.pending[keys[i]].signature);
        Next(s.(phase := Expiring(s.phase.cur, expired)))
      else Disabled
    case ExpireNext =>
      if s.phase.Expiring? && s.phase.expired != [] then
        ExpireOne(s.(phase := Expiring(s.phase.cur, s.phase.expired[1..])), s.phase.expired[0])
      else Disabled
    case EndPass =>
      if s.phase.Expiring? && s.phase.expired == [] then
        Next(s.(phase := Idle, last := s.phase.cur, passes := s.passes + [s.phase.cur]))
      else Disabled
  }

  ghost function Run(s: State, es: seq<Event>): Outcome
    decreases |es|
  {
    if es == [] then Next(s)
    else
      match Step(s, es[0])
      case Next(s') => Run(s', es[1..])
      case other => other
  }
}
