/**
 * Tracking the upcoming slot leaders (crates/biscuit/src/wire/rpc/poll_slot_leaders.rs):
 * one task moves the start slot, another refreshes and cleans up the leader map, and
 * senders ask for the next leaders.
 */
module SlotLeaders {
  import opened Prelude

  type Slot = nat
  type Pubkey = nat

  const SLOTS_PER_LEADER: nat := 4
  const SLOTS_AHEAD: nat := 1000

  datatype Contact = Contact(pubkey: Pubkey, address: nat)

  type LeaderMap = map<Slot, Contact>

  /** The start slot for a notified slot; None when the unsigned subtraction underflows (lines 206-214). */
  function StartSlot(next: Slot, offset: int): Option<Slot> {
    var buffer := offset * SLOTS_PER_LEADER;
    if buffer > 0 then Some(next + buffer)
    else if next + buffer < 0 then None
    else Some(next + buffer)
  }

  // ----- the tracker as a state machine -----

  /** `refreshing` is the slot that a refresh under way has loaded. */
  datatype Tracker = Tracker(slotUpdate: Slot, leaders: LeaderMap, refreshing: Option<Slot>)

  datatype Event =
    | Notified(processed: Slot)
    | Lagged
    | BeginRefresh
    | RefreshFailed
    | Install(slotLeaders: seq<Pubkey>, nodes: seq<Contact>)
    | CleanUp(cur: Slot)

  /** The slot task only moves forward; an underflow stops it. */
  function Advance(slotUpdate: Slot, next: Slot, offset: int): Slot {
    var start := StartSlot(next, offset);
    if start.Some? && start.value > slotUpdate then start.value else slotUpdate
  }

  /** The contact of each node by its key; of two entries for one key the later counts. */
  function NodeMap(nodes: seq<Contact>): map<Pubkey, Contact> {
    if nodes == [] then map[]
    else
      var n := |nodes| - 1;
      NodeMap(nodes[..n])[nodes[n].pubkey := nodes[n]]
  }

  /** The leader map after inserting the leaders of the slots from `first` on that are known nodes. */
  function Installed(leaders: LeaderMap, first: Slot, slotLeaders: seq<Pubkey>,
                     nodes: map<Pubkey, Contact>): LeaderMap
  {
    if slotLeaders == [] then leaders
    else
      var n := |slotLeaders| - 1;
      var before := Installed(leaders, first, slotLeaders[..n], nodes);
      if slotLeaders[n] in nodes then before[first + n := nodes[slotLeaders[n]]] else before
  }

  function Cleaned(leaders: LeaderMap, cur: Slot): LeaderMap {
    map slot | slot in leaders && slot >= cur :: leaders[slot]
  }

  function Step(t: Tracker, e: Event, offset: int): Tracker {
    match e
    case Notified(processed) => t.(slotUpdate := Advance(t.slotUpdate, processed, offset))
    case Lagged => t.(slotUpdate := Advance(t.slotUpdate, t.slotUpdate, offset))
    case BeginRefresh => t.(refreshing := Some(t.slotUpdate))
    case RefreshFailed => t.(refreshing := None)
    case Install(slotLeaders, nodes) =>
      if t.refreshing.None? then t
      else t.(leaders := Installed(t.leaders, t.refreshing.value, slotLeaders, NodeMap(nodes)), refreshing := None)
    case CleanUp(cur) =>
      if cur <= t.slotUpdate then t.(leaders := Cleaned(t.leaders, cur)) else t
  }

  function Run(t: Tracker, es: seq<Event>, offset: int): Tracker {
    if es == [] then t
    else Step(Run(t, es[..|es| - 1], offset), es[|es| - 1], offset)
  }

  // ----- what a refresh installs -----

  lemma {:induction false} NodeMapIsKeyed(nodes: seq<Contact>)
    ensures forall p :: p in NodeMap(nodes) ==> NodeMap(nodes)[p].pubkey == p && NodeMap(nodes)[p] in nodes
    ensures forall c :: c in nodes ==> c.pubkey in NodeMap(nodes)
  {
    if nodes == [] {
    } else {
      NodeMapIsKeyed(nodes[..|nodes| - 1]);
      FrontAndLast(nodes);
    }
  }

  /** A later node at position j carries the key p. */
  ghost predicate Later(nodes: seq<Contact>, i: nat, p: Pubkey) {
    exists j :: i < j < |nodes| && nodes[j].pubkey == p
  }

  /** The contact of a key is that of its last node. */
  lemma {:induction false} NodeMapIsLatest(nodes: seq<Contact>, i: nat)
    requires i < |nodes|
    ensures nodes[i].pubkey in NodeMap(nodes)
    ensures !Later(nodes, i, nodes[i].pubkey) ==> NodeMap(nodes)[nodes[i].pubkey] == nodes[i]
    decreases |nodes|
  {
    var n := |nodes| - 1;
    if i < n {
      NodeMapIsLatest(nodes[..n], i);
      if Later(nodes[..n], i, nodes[i].pubkey) {
        var j :| i < j < n && nodes[..n][j].pubkey == nodes[i].pubkey;
        assert nodes[j].pubkey == nodes[i].pubkey;
      }
      assert nodes[n].pubkey == nodes[i].pubkey ==> Later(nodes, i, nodes[i].pubkey);
    }
  }

  lemma {:induction false} InstalledAt(leaders: LeaderMap, first: Slot, slotLeaders: seq<Pubkey>,
                                       nodes: map<Pubkey, Contact>, slot: Slot)
    ensures var m := Installed(leaders, first, slotLeaders, nodes);
            var inRange := first <= slot < first + |slotLeaders| && slotLeaders[slot - first] in nodes;
            && (slot in m <==> slot in leaders || inRange)
            && (inRange ==> m[slot] == nodes[slotLeaders[slot - first]])
            && (slot in leaders && !inRange ==> m[slot] == leaders[slot])
    decreases |slotLeaders|
  {
    if slotLeaders == [] {
    } else {
      InstalledAt(leaders, first, slotLeaders[..|slotLeaders| - 1], nodes, slot);
    }
  }

  // ----- coverage -----

  /** From the start slot to a thousand slots after s, every slot has a leader. */
  ghost predicate Covered(t: Tracker, s: Slot) {
    s <= t.slotUpdate && forall slot :: t.slotUpdate <= slot < s + SLOTS_AHEAD ==> slot in t.leaders
  }

  lemma CoveredStep(t: Tracker, e: Event, offset: int, s: Slot)
    requires Covered(t, s)
    ensures Covered(Step(t, e, offset), s)
  {
    var t' := Step(t, e, offset);
    if e.Install? && t.refreshing.Some? {
      forall slot | t'.slotUpdate <= slot < s + SLOTS_AHEAD
        ensures slot in t'.leaders
      {
        InstalledAt(t.leaders, t.refreshing.value, e.slotLeaders, NodeMap(e.nodes), slot);
      }
    }
  }

  lemma {:induction false} CoveredRun(t: Tracker, es: seq<Event>, offset: int, s: Slot)
    requires Covered(t, s)
    ensures Covered(Run(t, es, offset), s)
    decreases |es|
  {
    if es == [] {
    } else {
      CoveredRun(t, es[..|es| - 1], offset, s);
      CoveredStep(Run(t, es[..|es| - 1], offset), es[|es| - 1], offset, s);
    }
  }

  /** The refresh that loaded slot s was answered for a thousand slots, all led by known nodes. */
  ghost predicate CompleteRefresh(slotLeaders: seq<Pubkey>, nodes: seq<Contact>) {
    |slotLeaders| >= 1000 && forall p :: p in slotLeaders ==> p in NodeMap(nodes)
  }

  /** A refresh under way loaded a slot the tracker has reached. */
  ghost predicate RefreshIsPast(t: Tracker) {
    t.refreshing.Some? ==> t.refreshing.value <= t.slotUpdate
  }

  lemma {:induction false} RefreshIsPastRun(t: Tracker, es: seq<Event>, offset: int)
    requires RefreshIsPast(t)
    ensures RefreshIsPast(Run(t, es, offset))
    decreases |es|
  {
    if es == [] {
    } else {
      RefreshIsPastRun(t, es[..|es| - 1], offset);
    }
  }

  /** The events between a refresh's load of the start slot and its end. */
  predicate Undisturbed(es: seq<Event>) {
    forall e :: e in es ==> e.Notified? || e.Lagged? || e.CleanUp?
  }

  /** A refresh goes on with the start slot that it loaded, however far the tracker moves meanwhile. */
  lemma {:induction false} RefreshKeepsLoadedSlot(t: Tracker, es: seq<Event>, offset: int)
    requires Undisturbed(es)
    ensures Run(Step(t, BeginRefresh, offset), es, offset).refreshing == Some(t.slotUpdate)
    decreases |es|
  {
    if es == [] {
    } else {
      assert es[|es| - 1] in es;
      RefreshKeepsLoadedSlot(t, es[..|es| - 1], offset);
    }
  }

  /** A refresh ends with its failure or its answer: what comes later without a new refresh installs nothing. */
  lemma {:induction false} RefreshEnds(t: Tracker, e: Event, es: seq<Event>, offset: int)
    requires (e.RefreshFailed? || e.Install?) && Undisturbed(es)
    ensures var t' := Run(Step(t, e, offset), es, offset);
            t'.refreshing == None && forall leaders, nodes :: Step(t', Install(leaders, nodes), offset) == t'
    decreases |es|
  {
    if es == [] {
    } else {
      assert es[|es| - 1] in es;
      RefreshEnds(t, e, es[..|es| - 1], offset);
    }
  }

  /** A clean-up at a slot the tracker has reached leaves exactly the slots from there on, unchanged. */
  lemma CleanUpRemovesPast(t: Tracker, cur: Slot, offset: int, slot: Slot)
    requires cur <= t.slotUpdate
    ensures var t' := Step(t, CleanUp(cur), offset);
            && (slot in t'.leaders <==> slot in t.leaders && slot >= cur)
            && (slot in t'.leaders ==> t'.leaders[slot] == t.leaders[slot])
  {
  }

  /** The tracker when its tasks are spawned: any start slot and leaders, no refresh under way. */
  ghost predicate Initial(t: Tracker) {
    t.refreshing.None?
  }

  lemma CoveredAfter(start: Tracker, before: seq<Event>, slotLeaders: seq<Pubkey>, nodes: seq<Contact>,
                     es: seq<Event>, offset: int)
    requires Initial(start) && Run(start, before, offset).refreshing.Some? && CompleteRefresh(slotLeaders, nodes)
    ensures var t := Run(start, before, offset);
            Covered(Run(Step(t, Install(slotLeaders, nodes), offset), es, offset), t.refreshing.value)
  {
    RefreshIsPastRun(start, before, offset);
    var t := Run(start, before, offset);
    var s := t.refreshing.value;
    var t1 := Step(t, Install(slotLeaders, nodes), offset);
    forall slot | t1.slotUpdate <= slot < s + SLOTS_AHEAD
      ensures slot in t1.leaders
    {
      assert slotLeaders[slot - s] in slotLeaders;
      InstalledAt(t.leaders, s, slotLeaders, NodeMap(nodes), slot);
    }
    CoveredRun(t1, es, offset, s);
  }

  /**
   * From an initial tracker, through any events, let a refresh that loaded slot s be
   * answered completely. Whatever notifications, lags, failed or partial refreshes and
   * clean-ups follow, no slot of the senders' window is missing as long as the window ends
   * within a thousand slots of s.
   */
  lemma NoSlotMissing(start: Tracker, before: seq<Event>, slotLeaders: seq<Pubkey>, nodes: seq<Contact>,
                      es: seq<Event>, offset: int, numLeaders: nat)
    requires Initial(start) && Run(start, before, offset).refreshing.Some? && CompleteRefresh(slotLeaders, nodes)
    ensures var t := Run(start, before, offset);
            var t' := Run(Step(t, Install(slotLeaders, nodes), offset), es, offset);
            var end := t'.slotUpdate + 4 * numLeaders;
            end <= t.refreshing.value + 1000 ==>
              forall slot :: t'.slotUpdate <= slot < end ==> slot in t'.leaders
  {
    CoveredAfter(start, before, slotLeaders, nodes, es, offset);
  }

  // ----- the leaders are those of the schedule -----

  /** Every known leader is the scheduled one. */
  ghost predicate OnSchedule(t: Tracker, schedule: Slot -> Pubkey) {
    forall slot :: slot in t.leaders ==> t.leaders[slot].pubkey == schedule(slot)
  }

  /** The event, if it installs leaders, installs those of the schedule from the loaded slot on. */
  ghost predicate Truthful(t: Tracker, e: Event, schedule: Slot -> Pubkey) {
    e.Install? && t.refreshing.Some? ==>
      forall i :: 0 <= i < |e.slotLeaders| ==> e.slotLeaders[i] == schedule(t.refreshing.value + i)
  }

  ghost predicate TruthfulRun(t: Tracker, es: seq<Event>, offset: int, schedule: Slot -> Pubkey) {
    es != [] ==>
      && TruthfulRun(t, es[..|es| - 1], offset, schedule)
      && Truthful(Run(t, es[..|es| - 1], offset), es[|es| - 1], schedule)
  }

  lemma OnScheduleStep(t: Tracker, e: Event, offset: int, schedule: Slot -> Pubkey)
    requires OnSchedule(t, schedule) && Truthful(t, e, schedule)
    ensures OnSchedule(Step(t, e, offset), schedule)
  {
    if e.Install? && t.refreshing.Some? {
      NodeMapIsKeyed(e.nodes);
      var t' := Step(t, e, offset);
      forall slot | slot in t'.leaders
        ensures t'.leaders[slot].pubkey == schedule(slot)
      {
        InstalledAt(t.leaders, t.refreshing.value, e.slotLeaders, NodeMap(e.nodes), slot);
      }
    }
  }

  lemma {:induction false} OnScheduleRun(t: Tracker, es: seq<Event>, offset: int, schedule: Slot -> Pubkey)
    requires OnSchedule(t, schedule) && TruthfulRun(t, es, offset, schedule)
    ensures OnSchedule(Run(t, es, offset), schedule)
    decreases |es|
  {
    if es == [] {
    } else {
      var n := |es| - 1;
      var front := es[..n];
      OnScheduleRun(t, front, offset, schedule);
      OnScheduleStep(Run(t, front, offset), es[n], offset, schedule);
    }
  }

  // ----- get_leaders -----

  /** The known leaders of the slots lo to hi, in slot order. */
  function Known(leaders: LeaderMap, lo: Slot, hi: Slot): seq<Contact>
    decreases hi
  {
    if hi <= lo then []
    else Known(leaders, lo, hi - 1) + (if hi - 1 in leaders then [leaders[hi - 1]] else [])
  }

  function Pubkeys(cs: seq<Contact>): seq<Pubkey> {
    seq(|cs|, k requires 0 <= k < |cs| => cs[k].pubkey)
  }

  /** The first occurrence of each key, in order. */
  function Dedup(keys: seq<Pubkey>): seq<Pubkey> {
    if keys == [] then []
    else
      var n := |keys| - 1;
      var front := Dedup(keys[..n]);
      if keys[n] in front then front else front + [keys[n]]
  }

  /** The latest contact of each key. */
  function Latest(cs: seq<Contact>): map<Pubkey, Contact> {
    NodeMap(cs)
  }

  lemma {:induction false} DedupIsDistinct(keys: seq<Pubkey>)
    ensures Distinct(Dedup(keys))
    ensures forall p :: p in Dedup(keys) <==> p in keys
  {
    if keys == [] {
    } else {
      DedupIsDistinct(keys[..|keys| - 1]);
      FrontAndLast(keys);
    }
  }

  /** Key p occurs before position k. */
  ghost predicate Occurs(keys: seq<Pubkey>, k: nat, p: Pubkey) {
    exists j :: 0 <= j < k && j < |keys| && keys[j] == p
  }

  lemma OccursInFront(keys: seq<Pubkey>, n: nat, k: nat, p: Pubkey)
    requires k <= n <= |keys|
    ensures Occurs(keys, k, p) <==> Occurs(keys[..n], k, p)
  {
    if Occurs(keys, k, p) {
      var j :| 0 <= j < k && keys[j] == p;
      assert keys[..n][j] == p;
    }
    if Occurs(keys[..n], k, p) {
      var j :| 0 <= j < k && j < n && keys[..n][j] == p;
      assert keys[j] == p;
    }
  }

  /** The keys come in the order of their first occurrence. */
  lemma {:induction false} DedupInOrder(keys: seq<Pubkey>, i: nat, j: nat)
    requires i < j < |Dedup(keys)|
    ensures exists k :: 0 <= k < |keys| && keys[k] == Dedup(keys)[i] && !Occurs(keys, k, Dedup(keys)[j])
    decreases |keys|
  {
    var n := |keys| - 1;
    var front, d := Dedup(keys[..n]), Dedup(keys);
    if j < |front| {
      DedupInOrder(keys[..n], i, j);
      var k :| 0 <= k < n && keys[..n][k] == front[i] && !Occurs(keys[..n], k, front[j]);
      OccursInFront(keys, n, k, d[j]);
      assert keys[k] == d[i];
    } else {
      DedupIsDistinct(keys[..n]);
      assert front[i] in keys[..n];
      var k :| 0 <= k < n && keys[..n][k] == front[i];
      OccursInFront(keys, n, k, d[j]);
      assert keys[k] == d[i];
    }
  }

  /** A slot contributes its leader, if it is known. */
  lemma KnownOne(leaders: LeaderMap, slot: Slot)
    ensures Known(leaders, slot, slot + 1) == if slot in leaders then [leaders[slot]] else []
  {
    assert Known(leaders, slot, slot) == [];
  }

  lemma KnownSnoc(leaders: LeaderMap, lo: Slot, slot: Slot)
    requires lo <= slot
    ensures Known(leaders, lo, slot + 1) == Known(leaders, lo, slot) + Known(leaders, slot, slot + 1)
  {
    KnownOne(leaders, slot);
  }

  /** The known leaders of adjacent ranges follow one another. */
  lemma {:induction false} KnownSplits(leaders: LeaderMap, lo: Slot, mid: Slot, hi: Slot)
    requires lo <= mid <= hi
    ensures Known(leaders, lo, hi) == Known(leaders, lo, mid) + Known(leaders, mid, hi)
    decreases hi
  {
    if mid == hi {
      assert Known(leaders, mid, hi) == [];
    } else {
      var a, b, c := Known(leaders, lo, mid), Known(leaders, mid, hi - 1), Known(leaders, hi - 1, hi);
      KnownSplits(leaders, lo, mid, hi - 1);
      KnownSnoc(leaders, lo, hi - 1);
      KnownSnoc(leaders, mid, hi - 1);
      assert (a + b) + c == a + (b + c);
    }
  }

  lemma DedupStep(keys: seq<Pubkey>, p: Pubkey)
    ensures Dedup(keys + [p]) == if p in Dedup(keys) then Dedup(keys) else Dedup(keys) + [p]
  {
    assert (keys + [p])[..|keys|] == keys;
  }

  lemma AppendContact(cs: seq<Contact>, c: Contact)
    ensures Pubkeys(cs + [c]) == Pubkeys(cs) + [c.pubkey]
    ensures Latest(cs + [c]) == Latest(cs)[c.pubkey := c]
    ensures Dedup(Pubkeys(cs)) <= Dedup(Pubkeys(cs + [c]))
  {
    assert Pubkeys(cs + [c]) == Pubkeys(cs) + [c.pubkey];
    assert (cs + [c])[..|cs|] == cs;
    DedupStep(Pubkeys(cs), c.pubkey);
  }

  lemma KnownStep(leaders: LeaderMap, lo: Slot, slot: Slot)
    ensures var before := Known(leaders, lo, slot);
            var after := Known(leaders, lo, slot + 1);
            && (lo <= slot && slot in leaders ==>
                  && after == before + [leaders[slot]]
                  && Pubkeys(after) == Pubkeys(before) + [leaders[slot].pubkey]
                  && Latest(after) == Latest(before)[leaders[slot].pubkey := leaders[slot]])
            && (slot < lo || slot !in leaders ==> after == before)
            && Dedup(Pubkeys(before)) <= Dedup(Pubkeys(after))
  {
    var before := Known(leaders, lo, slot);
    if lo <= slot && slot in leaders {
      AppendContact(before, leaders[slot]);
    }
  }

  /** What is first stays first: scanning more slots only appends keys. */
  lemma {:induction false} DedupExtends(leaders: LeaderMap, lo: Slot, mid: Slot, hi: Slot)
    requires mid <= hi
    ensures Dedup(Pubkeys(Known(leaders, lo, mid))) <= Dedup(Pubkeys(Known(leaders, lo, hi)))
    decreases hi - mid
  {
    if mid == hi {
    } else {
      DedupExtends(leaders, lo, mid, hi - 1);
      KnownStep(leaders, lo, hi - 1);
    }
  }

  /** How many leaders the known slots from lo up to hi have. */
  function FoundBy(leaders: LeaderMap, lo: Slot, hi: Slot): nat {
    |Dedup(Pubkeys(Known(leaders, lo, hi)))|
  }

  /** What one more slot of the scan adds to the keys and to the contacts. */
  lemma ScanStep(leaders: LeaderMap, lo: Slot, slot: Slot)
    requires lo <= slot
    ensures var keys, keys' := Dedup(Pubkeys(Known(leaders, lo, slot))), Dedup(Pubkeys(Known(leaders, lo, slot + 1)));
            var contacts, contacts' := Latest(Known(leaders, lo, slot)), Latest(Known(leaders, lo, slot + 1));
            if slot !in leaders then keys' == keys && contacts' == contacts
            else
              && keys' == (if leaders[slot].pubkey in keys then keys else keys + [leaders[slot].pubkey])
              && contacts' == contacts[leaders[slot].pubkey := leaders[slot]]
  {
    KnownStep(leaders, lo, slot);
    if slot in leaders {
      DedupStep(Pubkeys(Known(leaders, lo, slot)), leaders[slot].pubkey);
    }
  }

  /**
   * The slots up to `stop` have been scanned: the keys in the order of their first slot, with
   * their latest contacts, and not enough of them before `stop`.
   */
  ghost predicate Scanned(leaders: LeaderMap, start: Slot, stop: Slot, numLeaders: nat,
                          keys: seq<Pubkey>, contacts: map<Pubkey, Contact>)
  {
    && start <= stop && |keys| <= numLeaders
    && keys == Dedup(Pubkeys(Known(leaders, start, stop)))
    && contacts == Latest(Known(leaders, start, stop))
    && forall slot :: start <= slot < stop ==> FoundBy(leaders, start, slot) < numLeaders
  }

  lemma ScanNothing(leaders: LeaderMap, start: Slot, numLeaders: nat)
    ensures Scanned(leaders, start, start, numLeaders, [], map[])
  {
    assert Known(leaders, start, start) == [];
  }

  lemma ScanOne(leaders: LeaderMap, start: Slot, stop: Slot, numLeaders: nat,
                keys: seq<Pubkey>, contacts: map<Pubkey, Contact>)
    requires Scanned(leaders, start, stop, numLeaders, keys, contacts) && |keys| < numLeaders
    ensures stop !in leaders ==> Scanned(leaders, start, stop + 1, numLeaders, keys, contacts)
    ensures stop in leaders ==>
              var key := leaders[stop].pubkey;
              Scanned(leaders, start, stop + 1, numLeaders, if key in keys then keys else keys + [key],
                      contacts[key := leaders[stop]])
  {
    ScanStep(leaders, start, stop);
    assert FoundBy(leaders, start, stop) == |keys|;
  }

  /**
   * The scan of get_leaders over an ordered map: keys in order of first insertion, with
   * their latest contacts. It stops at the end of the window or once enough keys are found.
   */
  method ScanLeaders(leaders: LeaderMap, start: Slot, end: Slot, numLeaders: nat)
    returns (keys: seq<Pubkey>, contacts: map<Pubkey, Contact>, stop: Slot)
    requires start <= end && (numLeaders == 0 ==> start == end)
    ensures Scanned(leaders, start, stop, numLeaders, keys, contacts)
    ensures stop <= end && (stop == end || |keys| == numLeaders)
  {
    keys, contacts, stop := [], map[], start;
    ScanNothing(leaders, start, numLeaders);
    while stop < end
      invariant start <= stop <= end
      invariant Scanned(leaders, start, stop, numLeaders, keys, contacts)
      invariant stop < end ==> |keys| < numLeaders
    {
      ScanOne(leaders, start, stop, numLeaders, keys, contacts);
      if stop in leaders {
        var leader := leaders[stop];
        if leader.pubkey !in keys {
          keys := keys + [leader.pubkey];
        }
        contacts := contacts[leader.pubkey := leader];
      }
      stop := stop + 1;
      if |keys| >= numLeaders {
        break;
      }
    }
  }

  /** Every collected key has a contact, and that contact carries the key. */
  lemma KeysHaveContacts(cs: seq<Contact>)
    ensures forall p :: p in Dedup(Pubkeys(cs)) ==> p in Latest(cs) && Latest(cs)[p].pubkey == p
  {
    NodeMapIsKeyed(cs);
    DedupIsDistinct(Pubkeys(cs));
    forall p | p in Pubkeys(cs)
      ensures p in Latest(cs)
    {
      var k :| 0 <= k < |cs| && Pubkeys(cs)[k] == p;
      assert cs[k] in cs;
    }
  }

  /** The contacts of the keys, in order. */
  function ContactsOf(keys: seq<Pubkey>, contacts: map<Pubkey, Contact>): (cs: seq<Contact>)
    requires forall p :: p in keys ==> p in contacts && contacts[p].pubkey == p
    ensures Pubkeys(cs) == keys
    ensures forall k :: 0 <= k < |cs| ==> cs[k].pubkey in contacts && cs[k] == contacts[cs[k].pubkey]
  {
    seq(|keys|, k requires 0 <= k < |keys| => contacts[keys[k]])
  }

  /**
   * The next leaders: the first `numLeaders` distinct keys leading the known slots of the
   * window from the start slot, in slot order, each with its latest contact in the slots
   * looked at. `stop` is where the scan stopped.
   */
  method GetLeaders(leaders: LeaderMap, slotUpdate: Slot, numLeaders: nat)
    returns (result: seq<Contact>, ghost stop: Slot)
    ensures var window := Known(leaders, slotUpdate, slotUpdate + 4 * numLeaders);
            var keys := Dedup(Pubkeys(window));
            Pubkeys(result) == keys[..Min(numLeaders, |keys|)]
    ensures forall k :: 0 <= k < |result| ==>
              var latest := Latest(Known(leaders, slotUpdate, stop));
              result[k].pubkey in latest && result[k] == latest[result[k].pubkey]
    ensures stop == slotUpdate + 4 * numLeaders || |result| == numLeaders
    ensures forall slot :: slotUpdate <= slot < stop ==> FoundBy(leaders, slotUpdate, slot) < numLeaders
  {
    var endSlot := slotUpdate + numLeaders * SLOTS_PER_LEADER;
    var keys, contacts, scanned := ScanLeaders(leaders, slotUpdate, endSlot, numLeaders);
    stop := scanned;
    DedupExtends(leaders, slotUpdate, scanned, endSlot);
    KeysHaveContacts(Known(leaders, slotUpdate, scanned));
    result := ContactsOf(keys, contacts);
  }

  /** The keys scheduled for the slots lo to hi. */
  function Scheduled(schedule: Slot -> Pubkey, lo: Slot, hi: Slot): seq<Pubkey>
    decreases hi
  {
    if hi <= lo then [] else Scheduled(schedule, lo, hi - 1) + [schedule(hi - 1)]
  }

  lemma ScheduledStep(t: Tracker, schedule: Slot -> Pubkey, lo: Slot, slot: Slot)
    requires OnSchedule(t, schedule) && lo <= slot && slot in t.leaders
    requires Pubkeys(Known(t.leaders, lo, slot)) == Scheduled(schedule, lo, slot)
    ensures Pubkeys(Known(t.leaders, lo, slot + 1)) == Scheduled(schedule, lo, slot + 1)
  {
    KnownStep(t.leaders, lo, slot);
  }

  /**
   * When no slot of the window is missing and the leaders are on schedule, get_leaders
   * looks at exactly the schedule: its answer is the first scheduled keys, in order.
   */
  lemma {:induction false} KnownIsSchedule(t: Tracker, schedule: Slot -> Pubkey, lo: Slot, hi: Slot)
    requires OnSchedule(t, schedule) && (forall slot :: lo <= slot < hi ==> slot in t.leaders)
    ensures Pubkeys(Known(t.leaders, lo, hi)) == Scheduled(schedule, lo, hi)
    decreases hi
  {
    if hi <= lo {
    } else {
      KnownIsSchedule(t, schedule, lo, hi - 1);
      ScheduledStep(t, schedule, lo, hi - 1);
    }
  }

  /** While the senders' window ends within a thousand slots of s, it shows the scheduled leaders. */
  ghost predicate ShowsSchedule(t: Tracker, s: Slot, numLeaders: nat, schedule: Slot -> Pubkey) {
    var end := t.slotUpdate + 4 * numLeaders;
    end <= s + 1000 ==>
      Pubkeys(Known(t.leaders, t.slotUpdate, end)) == Scheduled(schedule, t.slotUpdate, end)
  }

  lemma CoveredIsScheduled(t: Tracker, s: Slot, numLeaders: nat, schedule: Slot -> Pubkey)
    requires Covered(t, s) && OnSchedule(t, schedule)
    ensures ShowsSchedule(t, s, numLeaders, schedule)
  {
    var end := t.slotUpdate + 4 * numLeaders;
    if end <= s + 1000 {
      KnownIsSchedule(t, schedule, t.slotUpdate, end);
    }
  }

  lemma OnScheduleAfter(start: Tracker, before: seq<Event>, e: Event, es: seq<Event>, offset: int,
                        schedule: Slot -> Pubkey)
    requires OnSchedule(start, schedule) && TruthfulRun(start, before, offset, schedule)
    requires Truthful(Run(start, before, offset), e, schedule)
    requires TruthfulRun(Step(Run(start, before, offset), e, offset), es, offset, schedule)
    ensures OnSchedule(Run(Step(Run(start, before, offset), e, offset), es, offset), schedule)
  {
    var t := Run(start, before, offset);
    OnScheduleRun(start, before, offset, schedule);
    OnScheduleStep(t, e, offset, schedule);
    OnScheduleRun(Step(t, e, offset), es, offset, schedule);
  }

  /**
   * The two guarantees together: from an initial tracker on schedule, through truthful
   * events, let a refresh of slot s be answered completely. After any further truthful run
   * the window within a thousand slots of s holds exactly the scheduled leaders.
   */
  lemma WindowIsScheduled(start: Tracker, before: seq<Event>, slotLeaders: seq<Pubkey>, nodes: seq<Contact>,
                          es: seq<Event>, offset: int, numLeaders: nat, schedule: Slot -> Pubkey)
    requires Initial(start) && OnSchedule(start, schedule) && TruthfulRun(start, before, offset, schedule)
    requires Run(start, before, offset).refreshing.Some? && CompleteRefresh(slotLeaders, nodes)
    requires Truthful(Run(start, before, offset), Install(slotLeaders, nodes), schedule)
    requires TruthfulRun(Step(Run(start, before, offset), Install(slotLeaders, nodes), offset), es, offset, schedule)
    ensures var t := Run(start, before, offset);
            var t' := Run(Step(t, Install(slotLeaders, nodes), offset), es, offset);
            ShowsSchedule(t', t.refreshing.value, numLeaders, schedule)
  {
    var t := Run(start, before, offset);
    CoveredAfter(start, before, slotLeaders, nodes, es, offset);
    OnScheduleAfter(start, before, Install(slotLeaders, nodes), es, offset, schedule);
    CoveredIsScheduled(Run(Step(t, Install(slotLeaders, nodes), offset), es, offset), t.refreshing.value,
                       numLeaders, schedule);
  }

  // ----- the start slot -----

  /** The event notifies of a slot, and s is four slots per leader of the offset later or earlier. */
  predicate Starts(e: Event, offset: int, s: Slot) {
    e.Notified? && s == e.processed + 4 * offset
  }

  /**
   * Over every run the start slot never decreases and reaches the start slot of every
   * notification. Unless the offset is positive it is no larger than it has to be: it is
   * the first one or that of some notification.
   */
  lemma {:induction false} StartSlotIsLargest(t: Tracker, es: seq<Event>, offset: int)
    ensures var end := Run(t, es, offset).slotUpdate;
            && t.slotUpdate <= end
            && (forall e, s: Slot :: e in es && Starts(e, offset, s) ==> s <= end)
            && (offset <= 0 ==> end == t.slotUpdate || exists e :: e in es && Starts(e, offset, end))
    decreases |es|
  {
    if es == [] {
    } else {
      var front, last := es[..|es| - 1], es[|es| - 1];
      StartSlotIsLargest(t, front, offset);
      FrontAndLast(es);
      var reached, end := Run(t, front, offset).slotUpdate, Run(t, es, offset).slotUpdate;
      if offset <= 0 && end != t.slotUpdate {
        if end == reached {
          var e :| e in front && Starts(e, offset, end);
          assert e in es;
        } else {
          assert last in es && Starts(last, offset, end);
        }
      }
    }
  }

  /** A lagged notification leaves the start slot alone exactly when the offset is not positive. */
  lemma LaggedDrifts(t: Tracker, offset: int)
    ensures Step(t, Lagged, offset).slotUpdate
              == t.slotUpdate + (if offset > 0 then 4 * offset else 0)
  {
  }

  /** The leader map and start slot, updated in place by the two tasks. */
  class LeaderSchedule {
    var slotUpdate: Slot
    var leaders: LeaderMap

    constructor (start: Slot)
      ensures slotUpdate == start && leaders == map[]
    {
      slotUpdate, leaders := start, map[];
    }

    /** Raises the start slot to that of the notified slot and never lowers it. */
    method OnSlot(next: Slot, offset: int)
      modifies `slotUpdate
      ensures slotUpdate >= old(slotUpdate)
      ensures slotUpdate == Max(old(slotUpdate), next + 4 * offset)
      ensures slotUpdate == Advance(old(slotUpdate), next, offset)
    {
      var start := StartSlot(next, offset);
      if start.Some? && start.value > slotUpdate {
        slotUpdate := start.value;
      }
    }

    /** Inserts the leaders of the slots from `next` on. */
    method InstallLeaders(next: Slot, slotLeaders: seq<Pubkey>, nodes: seq<Contact>)
      modifies `leaders
      ensures leaders == Installed(old(leaders), next, slotLeaders, NodeMap(nodes))
    {
      var nodeMap: map<Pubkey, Contact> := map[];
      for k := 0 to |nodes|
        invariant nodeMap == NodeMap(nodes[..k])
      {
        assert nodes[..k + 1][..k] == nodes[..k];
        nodeMap := nodeMap[nodes[k].pubkey := nodes[k]];
      }
      assert nodes[..|nodes|] == nodes;
      for i := 0 to |slotLeaders|
        invariant leaders == Installed(old(leaders), next, slotLeaders[..i], nodeMap)
      {
        assert slotLeaders[..i + 1][..i] == slotLeaders[..i];
        if slotLeaders[i] in nodeMap {
          leaders := leaders[next + i := nodeMap[slotLeaders[i]]];
        }
      }
      assert slotLeaders[..|slotLeaders|] == slotLeaders;
    }

    /** Collects the slots before the start slot, then removes them. */
    method CleanUpSlotLeaders()
      modifies `leaders
      ensures leaders == Cleaned(old(leaders), slotUpdate)
      ensures forall slot :: slot in leaders <==> slot in old(leaders) && slot >= slotUpdate
      ensures forall slot :: slot in leaders ==> leaders[slot] == old(leaders)[slot]
    {
      var toRemove := set slot | slot in leaders && slot < slotUpdate;
      ghost var all := leaders;
      while toRemove != {}
        invariant forall slot :: slot in leaders <==> slot in all && (slot >= slotUpdate || slot in toRemove)
        invariant forall slot :: slot in leaders ==> leaders[slot] == all[slot]
        decreases toRemove
      {
        var slot :| slot in toRemove;
        leaders := leaders - {slot};
        toRemove := toRemove - {slot};
      }
    }
  }
}
