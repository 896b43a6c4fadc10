/**
 * The slot poller and the slot estimator fed by it
 * (crates/biscuit/src/wire/rpc/poll_slots.rs).
 */
module SlotEstimator {
  import opened Prelude

  const MAX_AHEAD: nat := 32
  const MAX_ERRORS: nat := 10

  // ----- poll_commitment_slots -----

  /** What the poller has sent so far, and whether it gave up on errors. */
  datatype Poll = Poll(sent: seq<nat>, last: nat, errors: nat, failed: bool)

  const START_POLL := Poll([], 0, 0, false)

  function PollOne(p: Poll, reply: Option<nat>): Poll {
    if p.failed then p
    else match reply
      case Some(slot) =>
        if slot > p.last then p.(sent := p.sent + [slot], last := slot, errors := 0)
        else p.(errors := 0)
      case None => p.(errors := p.errors + 1, failed := p.errors + 1 > MAX_ERRORS)
  }

  function PollAll(replies: seq<Option<nat>>): Poll {
    if replies == [] then START_POLL
    else PollOne(PollAll(replies[..|replies| - 1]), replies[|replies| - 1])
  }

  lemma {:induction false} FailureIsFinal(replies: seq<Option<nat>>, k: nat)
    requires k <= |replies| && PollAll(replies[..k]).failed
    ensures PollAll(replies) == PollAll(replies[..k])
    decreases |replies| - k
  {
    if k < |replies| {
      assert replies[..k + 1][..k] == replies[..k];
      FailureIsFinal(replies, k + 1);
    } else {
      assert replies[..k] == replies;
    }
  }

  method PollCommitmentSlots(replies: seq<Option<nat>>) returns (sent: seq<nat>, failed: bool)
    ensures sent == PollAll(replies).sent && failed == PollAll(replies).failed
  {
    var lastSlot, errors := 0, 0;
    sent, failed := [], false;
    for k := 0 to |replies|
      invariant PollAll(replies[..k]) == Poll(sent, lastSlot, errors, failed) && !failed
    {
      assert replies[..k + 1][..k] == replies[..k];
      match replies[k]
      case Some(slot) =>
        if slot > lastSlot {
          sent := sent + [slot];
          lastSlot := slot;
        }
        errors := 0;
      case None =>
        errors := errors + 1;
        if errors > MAX_ERRORS {
          failed := true;
          FailureIsFinal(replies, k + 1);
          return;
        }
    }
    assert replies[..|replies|] == replies;
  }

  /** `replies` ends in n errors in a row. */
  ghost predicate EndsInErrors(replies: seq<Option<nat>>, n: nat) {
    n <= |replies| && forall k :: |replies| - n <= k < |replies| ==> replies[k].None?
  }

  /** The sent slots strictly increase up to the last one, were all answered, and leave out no larger answer. */
  ghost predicate Ascending(p: Poll, replies: seq<Option<nat>>) {
    && (forall i, j :: 0 <= i < j < |p.sent| ==> p.sent[i] < p.sent[j])
    && (forall i :: 0 <= i < |p.sent| ==> 0 < p.sent[i] <= p.last && Some(p.sent[i]) in replies)
    && p.last == (if p.sent == [] then 0 else p.sent[|p.sent| - 1])
    && (!p.failed ==> forall r :: r in replies && r.Some? ==> r.value <= p.last)
  }

  lemma AscendingStep(p: Poll, replies: seq<Option<nat>>, reply: Option<nat>)
    requires Ascending(p, replies)
    ensures Ascending(PollOne(p, reply), replies + [reply])
  {
  }

  /** The poller sends strictly increasing slots, and no answer before a failure exceeds the last one. */
  lemma {:induction false} PollerIsMonotone(replies: seq<Option<nat>>)
    ensures Ascending(PollAll(replies), replies)
  {
    if replies == [] {
    } else {
      var front, last := replies[..|replies| - 1], replies[|replies| - 1];
      PollerIsMonotone(front);
      AscendingStep(PollAll(front), front, last);
      FrontAndLast(replies);
    }
  }

  /** The k-th reply is a slot larger than every earlier one. */
  ghost predicate Record(replies: seq<Option<nat>>, k: nat) {
    && k < |replies| && replies[k].Some? && replies[k].value > 0
    && forall j :: 0 <= j < k && replies[j].Some? ==> replies[j].value < replies[k].value
  }

  lemma RecordStep(replies: seq<Option<nat>>, slot: nat)
    requires replies != []
    ensures var n := |replies| - 1;
            (exists k: nat :: Record(replies, k) && replies[k].value == slot) <==>
            || (exists k: nat :: Record(replies[..n], k) && replies[..n][k].value == slot)
            || (Record(replies, n) && replies[n].value == slot)
  {
    var n := |replies| - 1;
    assert forall k: nat :: k < n ==> (Record(replies, k) <==> Record(replies[..n], k));
    if exists k: nat :: Record(replies[..n], k) && replies[..n][k].value == slot {
      var k: nat :| Record(replies[..n], k) && replies[..n][k].value == slot;
      assert Record(replies, k);
    }
    if exists k: nat :: Record(replies, k) && replies[k].value == slot {
      var k: nat :| Record(replies, k) && replies[k].value == slot;
      assert k < n ==> Record(replies[..n], k);
    }
  }

  /** The last slot sent was answered, if any was sent. */
  lemma LastWasAnswered(front: seq<Option<nat>>) returns (j: nat)
    requires !PollAll(front).failed && PollAll(front).last > 0
    ensures j < |front| && front[j] == Some(PollAll(front).last)
  {
    PollerIsMonotone(front);
    var sent := PollAll(front).sent;
    assert Some(sent[|sent| - 1]) in front;
    j :| 0 <= j < |front| && front[j] == Some(sent[|sent| - 1]);
  }

  /** A next slot is a record exactly if it exceeds the last one sent. */
  lemma LastIsLargest(front: seq<Option<nat>>, slot: nat)
    requires !PollAll(front).failed
    ensures Record(front + [Some(slot)], |front|) <==> slot > PollAll(front).last
  {
    var last, replies := PollAll(front).last, front + [Some(slot)];
    PollerIsMonotone(front);
    if slot > last {
      forall k | 0 <= k < |front| && replies[k].Some?
        ensures replies[k].value < slot
      {
        assert front[k] in front;
      }
    } else if last > 0 {
      var j := LastWasAnswered(front);
      assert replies[j] == Some(last);
    }
  }

  /** Until it gives up, the poller sends exactly the slots larger than all before them. */
  lemma {:induction false} PollerSendsRecords(replies: seq<Option<nat>>, slot: nat)
    requires !PollAll(replies).failed
    ensures slot in PollAll(replies).sent <==> exists k: nat :: Record(replies, k) && replies[k].value == slot
  {
    if replies == [] {
    } else {
      var n := |replies| - 1;
      var front := replies[..n];
      PollerSendsRecords(front, slot);
      RecordStep(replies, slot);
      if replies[n].Some? {
        LastIsLargest(front, replies[n].value);
      }
      FrontAndLast(replies);
    }
  }

  /** Runs of errors in a prefix of the replies, seen from the last reply. */
  lemma FailureWitness(replies: seq<Option<nat>>)
    requires replies != []
    ensures var front := replies[..|replies| - 1];
            (exists k :: 0 <= k <= |replies| && EndsInErrors(replies[..k], MAX_ERRORS + 1)) <==>
            (exists k :: 0 <= k <= |front| && EndsInErrors(front[..k], MAX_ERRORS + 1))
            || EndsInErrors(replies, MAX_ERRORS + 1)
  {
    var front := replies[..|replies| - 1];
    assert replies[..|replies|] == replies;
    assert forall k :: 0 <= k <= |front| ==> front[..k] == replies[..k];
  }

  /** The poller gives up exactly at the first run of eleven errors. */
  lemma {:induction false} PollerFailsAfterElevenErrors(replies: seq<Option<nat>>)
    ensures PollAll(replies).failed <==>
              exists k :: 0 <= k <= |replies| && EndsInErrors(replies[..k], 11)
    ensures var p := PollAll(replies);
            !p.failed ==>
              && p.errors <= MAX_ERRORS
              && EndsInErrors(replies, p.errors)
              && (p.errors < |replies| ==> replies[|replies| - 1 - p.errors].Some?)
  {
    if replies != [] {
      PollerFailsAfterElevenErrors(replies[..|replies| - 1]);
      FailureWitness(replies);
    } else {
      assert forall k :: 0 <= k <= |replies| ==> !EndsInErrors(replies[..k], MAX_ERRORS + 1);
    }
  }

  // ----- the estimator loop of poll_slots -----

  datatype Notification = Notification(processed: nat, estimated: nat)

  /** What the estimator's timed receive yields. */
  datatype Input = Slot(slot: nat) | Timeout

  /** The estimator's next state; it notifies exactly when its state changes. */
  function Update(n: Notification, i: Input): Notification {
    match i
    case Slot(slot) =>
      if slot > n.processed then Notification(slot, Max(slot, n.estimated)) else n
    case Timeout =>
      if n.estimated < n.processed + MAX_AHEAD then n.(estimated := n.estimated + 1) else n
  }

  function Estimate(initial: nat, inputs: seq<Input>): Notification {
    if inputs == [] then Notification(initial, initial)
    else Update(Estimate(initial, inputs[..|inputs| - 1]), inputs[|inputs| - 1])
  }

  /** All notifications sent while consuming the inputs. */
  function Sent(initial: nat, inputs: seq<Input>): seq<Notification> {
    if inputs == [] then []
    else
      var before := Estimate(initial, inputs[..|inputs| - 1]);
      var after := Estimate(initial, inputs);
      Sent(initial, inputs[..|inputs| - 1]) + (if after == before then [] else [after])
  }

  lemma EstimateStep(initial: nat, inputs: seq<Input>, k: nat)
    requires k < |inputs|
    ensures var before := Estimate(initial, inputs[..k]);
            var after := Update(before, inputs[k]);
            && Estimate(initial, inputs[..k + 1]) == after
            && Sent(initial, inputs[..k + 1])
                 == Sent(initial, inputs[..k]) + (if after == before then [] else [after])
  {
    assert inputs[..k + 1][..k] == inputs[..k];
  }

  method EstimateSlots(initial: nat, inputs: seq<Input>) returns (sent: seq<Notification>)
    ensures sent == Sent(initial, inputs)
  {
    var currentSlot, estimatedSlot := initial, initial;
    sent := [];
    for k := 0 to |inputs|
      invariant sent == Sent(initial, inputs[..k])
      invariant Notification(currentSlot, estimatedSlot) == Estimate(initial, inputs[..k])
    {
      EstimateStep(initial, inputs, k);
      match inputs[k]
      case Slot(slot) =>
        if slot > currentSlot {
          currentSlot := slot;
          if currentSlot > estimatedSlot {
            estimatedSlot := slot;
          }
          sent := sent + [Notification(currentSlot, estimatedSlot)];
        }
      case Timeout =>
        if estimatedSlot < currentSlot + MAX_AHEAD {
          estimatedSlot := estimatedSlot + 1;
          sent := sent + [Notification(currentSlot, estimatedSlot)];
        }
    }
    assert inputs[..|inputs|] == inputs;
  }

  ghost predicate Near(n: Notification) {
    0 <= n.estimated - n.processed <= 32
  }

  /** Notifications j - i apart: nothing decreases, and a fixed slot is followed by one timeout each. */
  ghost predicate Follows(a: Notification, b: Notification, distance: nat) {
    && a.processed <= b.processed
    && a.estimated <= b.estimated
    && (a.processed == b.processed ==> b.estimated == a.estimated + distance)
  }

  /** The estimate stays within 32 slots of the processed slot, and notifications follow one another. */
  lemma {:induction false} EstimatorInvariant(initial: nat, inputs: seq<Input>)
    ensures var sent := Sent(initial, inputs);
            && Near(Estimate(initial, inputs))
            && (forall k :: 0 <= k < |sent| ==> Near(sent[k]))
            && (sent != [] ==> Estimate(initial, inputs) == sent[|sent| - 1])
            && (forall i, j :: 0 <= i < j < |sent| ==> Follows(sent[i], sent[j], j - i))
  {
    if inputs == [] {
    } else {
      var front := inputs[..|inputs| - 1];
      EstimatorInvariant(initial, front);
      var earlier, sent := Sent(initial, front), Sent(initial, inputs);
      if sent != earlier {
        forall i | 0 <= i < |earlier|
          ensures Follows(earlier[i], sent[|earlier|], |earlier| - i)
        {
          if i < |earlier| - 1 {
            assert Follows(earlier[i], earlier[|earlier| - 1], |earlier| - 1 - i);
          }
        }
      }
    }
  }

  /**
   * In every run: no notification repeats, neither component ever decreases, and
   * between two fresh slots at most 32 notifications come from timeouts.
   */
  lemma NotificationsProgress(initial: nat, inputs: seq<Input>, i: nat, j: nat)
    requires i < j < |Sent(initial, inputs)|
    ensures var sent := Sent(initial, inputs);
            && sent[i] != sent[j]
            && sent[i].processed <= sent[j].processed
            && sent[i].estimated <= sent[j].estimated
            && (sent[i].processed == sent[j].processed ==> j - i <= 32)
  {
    EstimatorInvariant(initial, inputs);
    assert Follows(Sent(initial, inputs)[i], Sent(initial, inputs)[j], j - i);
  }

  /**
   * Nothing is missed either: the processed slot is the largest slot seen, and a timeout
   * that sends nothing found the estimate exactly 32 slots ahead.
   */
  lemma {:induction false} EstimatorTracksLargestSlot(initial: nat, inputs: seq<Input>)
    ensures var n := Estimate(initial, inputs);
            && n.processed >= initial
            && (forall i :: i in inputs && i.Slot? ==> i.slot <= n.processed)
            && (n.processed == initial || Slot(n.processed) in inputs)
    ensures (inputs != [] && inputs[|inputs| - 1].Timeout?
             && Sent(initial, inputs) == Sent(initial, inputs[..|inputs| - 1])) ==>
              Estimate(initial, inputs).estimated == Estimate(initial, inputs).processed + 32
  {
    if inputs == [] {
    } else {
      var front := inputs[..|inputs| - 1];
      EstimatorTracksLargestSlot(initial, front);
      EstimatorInvariant(initial, front);
      assert forall i :: i in inputs ==> i in front || i == inputs[|inputs| - 1];
    }
  }

  // ----- what the estimate is -----

  /** The initial slot (j == 0), or the slot received by the j-th input. */
  function Heard(initial: nat, inputs: seq<Input>, j: nat): Option<nat>
    requires j <= |inputs|
  {
    if j == 0 then Some(initial)
    else match inputs[j - 1]
      case Slot(slot) => Some(slot)
      case Timeout => None
  }

  /** How many timeouts notified after the first j inputs. */
  function Ticks(initial: nat, inputs: seq<Input>, j: nat): nat {
    if |inputs| <= j then 0
    else
      var front := inputs[..|inputs| - 1];
      Ticks(initial, front, j)
      + (if inputs[|inputs| - 1].Timeout? && |Sent(initial, inputs)| > |Sent(initial, front)| then 1 else 0)
  }

  /** The estimate is at least each slot heard plus the timeouts since, and equals one of these. */
  ghost predicate BestGuess(initial: nat, inputs: seq<Input>, estimate: nat) {
    && (forall j :: 0 <= j <= |inputs| && Heard(initial, inputs, j).Some? ==>
          Heard(initial, inputs, j).value + Ticks(initial, inputs, j) <= estimate)
    && (exists j :: 0 <= j <= |inputs| && Heard(initial, inputs, j).Some?
                    && Heard(initial, inputs, j).value + Ticks(initial, inputs, j) == estimate)
  }

  lemma HeardInFront(initial: nat, front: seq<Input>, last: Input, j: nat)
    requires j <= |front|
    ensures Heard(initial, front + [last], j) == Heard(initial, front, j)
  {
  }

  lemma TicksStep(initial: nat, front: seq<Input>, last: Input, j: nat)
    requires j <= |front|
    ensures var before, after := Estimate(initial, front).estimated, Estimate(initial, front + [last]).estimated;
            Ticks(initial, front + [last], j)
              == Ticks(initial, front, j) + (if last.Timeout? then after - before else 0)
  {
    assert (front + [last])[..|front|] == front;
  }

  lemma BestGuessStep(initial: nat, front: seq<Input>, last: Input)
    requires BestGuess(initial, front, Estimate(initial, front).estimated)
    ensures BestGuess(initial, front + [last], Estimate(initial, front + [last]).estimated)
  {
    var inputs, n := front + [last], |front|;
    var before, after := Estimate(initial, front).estimated, Estimate(initial, inputs).estimated;
    assert inputs[..n] == front;
    EstimatorInvariant(initial, front);
    forall j | 0 <= j <= n
      ensures Heard(initial, inputs, j) == Heard(initial, front, j)
      ensures Ticks(initial, inputs, j) == Ticks(initial, front, j) + (if last.Timeout? then after - before else 0)
    {
      HeardInFront(initial, front, last, j);
      TicksStep(initial, front, last, j);
    }
    var best :| 0 <= best <= n && Heard(initial, front, best).Some?
                && Heard(initial, front, best).value + Ticks(initial, front, best) == before;
    var winner := if last.Slot? && after > before then n + 1 else best;
    assert Heard(initial, inputs, winner).Some?
        && Heard(initial, inputs, winner).value + Ticks(initial, inputs, winner) == after;
  }

  /**
   * In every run the estimate is the largest, over the initial slot and every slot
   * received, of that slot plus the number of timeouts that notified since.
   */
  lemma {:induction false} EstimateIsBestGuess(initial: nat, inputs: seq<Input>)
    ensures BestGuess(initial, inputs, Estimate(initial, inputs).estimated)
    decreases |inputs|
  {
    if inputs == [] {
      assert Heard(initial, inputs, 0) == Some(initial);
    } else {
      EstimateIsBestGuess(initial, inputs[..|inputs| - 1]);
      BestGuessStep(initial, inputs[..|inputs| - 1], inputs[|inputs| - 1]);
      FrontAndLast(inputs);
    }
  }
}
