/**
 * The watcher-task manager behind the transaction poller
 * (crates/biscuit/src/wire/rpc/poll_transactions.rs). Task k watches `spawned[k]` until
 * its exit flag is set.
 */
module Watchers {
  import opened Prelude

  type Address = nat

  datatype Manager = Manager(accounts: map<Address, nat>, spawned: seq<Address>, signalled: set<nat>)

  datatype Command = Add(requests: seq<Address>) | Remove(keys: seq<Address>)

  const EMPTY_MANAGER := Manager(map[], [], {})

  /** An initial request spawns a task; a task that it displaces is not signalled. */
  function Seed(m: Manager, a: Address): Manager {
    Manager(m.accounts[a := |m.spawned|], m.spawned + [a], m.signalled)
  }

  function Initial(addresses: seq<Address>): Manager {
    if addresses == [] then EMPTY_MANAGER
    else Seed(Initial(addresses[..|addresses| - 1]), addresses[|addresses| - 1])
  }

  /** An added request spawns a task and signals the one it displaces. */
  function AddOne(m: Manager, a: Address): Manager {
    Manager(m.accounts[a := |m.spawned|], m.spawned + [a],
            m.signalled + (if a in m.accounts then {m.accounts[a]} else {}))
  }

  function RemoveOne(m: Manager, a: Address): Manager {
    if a in m.accounts then
      m.(accounts := m.accounts - {a}, signalled := m.signalled + {m.accounts[a]})
    else m
  }

  function AddAll(m: Manager, keys: seq<Address>): Manager {
    if keys == [] then m else AddOne(AddAll(m, keys[..|keys| - 1]), keys[|keys| - 1])
  }

  function RemoveAll(m: Manager, keys: seq<Address>): Manager {
    if keys == [] then m else RemoveOne(RemoveAll(m, keys[..|keys| - 1]), keys[|keys| - 1])
  }

  function Obey(m: Manager, c: Command): Manager {
    match c
    case Add(requests) => AddAll(m, requests)
    case Remove(keys) => RemoveAll(m, keys)
  }

  function ObeyAll(m: Manager, cs: seq<Command>): Manager {
    if cs == [] then m else Obey(ObeyAll(m, cs[..|cs| - 1]), cs[|cs| - 1])
  }

  /** Task t was spawned and its exit flag is not set. */
  predicate Running(m: Manager, t: nat) {
    t < |m.spawned| && t !in m.signalled
  }

  /** The account that task t watches refers back to it. */
  predicate Owned(m: Manager, t: nat) {
    t < |m.spawned| && m.spawned[t] in m.accounts && m.accounts[m.spawned[t]] == t
  }

  /** A running task that no account refers to: nothing can ever signal it. */
  predicate Leaked(m: Manager, t: nat) {
    Running(m, t) && !Owned(m, t)
  }

  /** Every account's task runs and watches that account; only spawned tasks are signalled. */
  ghost predicate Consistent(m: Manager) {
    && (forall a :: a in m.accounts ==> Running(m, m.accounts[a]) && m.spawned[m.accounts[a]] == a)
    && (forall t :: t in m.signalled ==> t < |m.spawned|)
  }

  /** Two managers leak the same tasks. */
  ghost predicate SameLeaks(m: Manager, m': Manager) {
    forall t: nat :: Leaked(m, t) <==> Leaked(m', t)
  }

  lemma AddOneKeepsLeaks(m: Manager, a: Address)
    requires Consistent(m)
    ensures Consistent(AddOne(m, a)) && SameLeaks(m, AddOne(m, a))
  {
  }

  lemma RemoveOneKeepsLeaks(m: Manager, a: Address)
    requires Consistent(m)
    ensures Consistent(RemoveOne(m, a)) && SameLeaks(m, RemoveOne(m, a))
  {
  }

  lemma {:induction false} AddAllKeepsLeaks(m: Manager, keys: seq<Address>)
    requires Consistent(m)
    ensures Consistent(AddAll(m, keys)) && SameLeaks(m, AddAll(m, keys))
    decreases |keys|
  {
    if keys == [] {
    } else {
      AddAllKeepsLeaks(m, keys[..|keys| - 1]);
      AddOneKeepsLeaks(AddAll(m, keys[..|keys| - 1]), keys[|keys| - 1]);
    }
  }

  lemma {:induction false} RemoveAllKeepsLeaks(m: Manager, keys: seq<Address>)
    requires Consistent(m)
    ensures Consistent(RemoveAll(m, keys)) && SameLeaks(m, RemoveAll(m, keys))
    decreases |keys|
  {
    if keys == [] {
    } else {
      RemoveAllKeepsLeaks(m, keys[..|keys| - 1]);
      RemoveOneKeepsLeaks(RemoveAll(m, keys[..|keys| - 1]), keys[|keys| - 1]);
    }
  }

  /** No sequence of commands creates or repairs a leak. */
  lemma {:induction false} CommandsKeepLeaks(m: Manager, cs: seq<Command>)
    requires Consistent(m)
    ensures Consistent(ObeyAll(m, cs)) && SameLeaks(m, ObeyAll(m, cs))
    decreases |cs|
  {
    if cs == [] {
    } else {
      var front := cs[..|cs| - 1];
      CommandsKeepLeaks(m, front);
      match cs[|cs| - 1]
      case Add(requests) => AddAllKeepsLeaks(ObeyAll(m, front), requests);
      case Remove(keys) => RemoveAllKeepsLeaks(ObeyAll(m, front), keys);
    }
  }

  /** Task t of the initial requests is displaced by a later request for the same address. */
  ghost predicate Displaced(addresses: seq<Address>, t: nat) {
    exists u :: t < u < |addresses| && addresses[t] == addresses[u]
  }

  lemma SeedSpawns(m: Manager, a: Address)
    ensures Seed(m, a).spawned == m.spawned + [a] && Seed(m, a).signalled == m.signalled
  {
  }

  lemma {:induction false} InitialSpawns(addresses: seq<Address>)
    ensures Initial(addresses).spawned == addresses && Initial(addresses).signalled == {}
  {
    if addresses == [] {
    } else {
      var n := |addresses| - 1;
      var front, last := addresses[..n], addresses[n];
      InitialSpawns(front);
      SeedSpawns(Initial(front), last);
      FrontAndLast(addresses);
    }
  }

  lemma SeedIsConsistent(m: Manager, a: Address)
    requires Consistent(m)
    ensures Consistent(Seed(m, a))
  {
  }

  lemma {:induction false} InitialIsConsistent(addresses: seq<Address>)
    ensures Consistent(Initial(addresses))
  {
    if addresses == [] {
      assert Initial(addresses) == EMPTY_MANAGER;
    } else {
      var n := |addresses| - 1;
      var m := Initial(addresses[..n]);
      InitialIsConsistent(addresses[..n]);
      SeedIsConsistent(m, addresses[n]);
      assert Initial(addresses) == Seed(m, addresses[n]);
    }
  }

  /** A seeded request leaks the tasks already leaked and the running task it displaces. */
  lemma SeedLeaks(m: Manager, a: Address)
    requires Consistent(m)
    ensures forall t: nat :: Leaked(Seed(m, a), t) <==>
              Leaked(m, t) || (t < |m.spawned| && m.spawned[t] == a && t !in m.signalled)
  {
  }

  lemma DisplacedStep(addresses: seq<Address>, t: nat)
    requires addresses != []
    ensures var n := |addresses| - 1;
            Displaced(addresses, t) <==> Displaced(addresses[..n], t) || (t < n && addresses[t] == addresses[n])
  {
    var n := |addresses| - 1;
    var front := addresses[..n];
    if Displaced(front, t) {
      var u :| t < u < |front| && front[t] == front[u];
      assert addresses[t] == addresses[u];
    }
    if Displaced(addresses, t) {
      var u :| t < u < |addresses| && addresses[t] == addresses[u];
      assert u < n ==> front[t] == front[u];
    }
  }

  /** Seeding leaks exactly the displaced tasks. */
  lemma {:induction false} InitialLeaks(addresses: seq<Address>, t: nat)
    ensures Leaked(Initial(addresses), t) <==> Displaced(addresses, t)
    decreases |addresses|
  {
    if addresses == [] {
    } else {
      var n := |addresses| - 1;
      var front := addresses[..n];
      InitialIsConsistent(front);
      InitialSpawns(front);
      InitialLeaks(front, t);
      SeedLeaks(Initial(front), addresses[n]);
      DisplacedStep(addresses, t);
      assert t < n ==> front[t] == addresses[t];
    }
  }

  // ----- which addresses are watched -----

  /** The addresses that should be watched: the initial ones, plus all added, minus all removed, in turn. */
  function Watched(addresses: seq<Address>, cs: seq<Command>): set<Address> {
    if cs == [] then set a | a in addresses
    else
      var before := Watched(addresses, cs[..|cs| - 1]);
      match cs[|cs| - 1]
      case Add(requests) => before + (set a | a in requests)
      case Remove(keys) => before - (set a | a in keys)
  }

  /** The addresses in the order in which tasks are spawned for them: one per request, repeated or not. */
  function Requested(addresses: seq<Address>, cs: seq<Command>): seq<Address> {
    if cs == [] then addresses
    else
      var before := Requested(addresses, cs[..|cs| - 1]);
      match cs[|cs| - 1]
      case Add(requests) => before + requests
      case Remove(_) => before
  }

  lemma {:induction false} InitialKeys(addresses: seq<Address>)
    ensures Initial(addresses).accounts.Keys == set a | a in addresses
  {
    if addresses == [] {
    } else {
      InitialKeys(addresses[..|addresses| - 1]);
      FrontAndLast(addresses);
    }
  }

  lemma {:induction false} AddAllKeys(m: Manager, keys: seq<Address>)
    ensures AddAll(m, keys).accounts.Keys == m.accounts.Keys + (set a | a in keys)
    ensures AddAll(m, keys).spawned == m.spawned + keys
    decreases |keys|
  {
    if keys == [] {
    } else {
      AddAllKeys(m, keys[..|keys| - 1]);
      FrontAndLast(keys);
    }
  }

  lemma {:induction false} RemoveAllKeys(m: Manager, keys: seq<Address>)
    ensures RemoveAll(m, keys).accounts.Keys == m.accounts.Keys - (set a | a in keys)
    ensures RemoveAll(m, keys).spawned == m.spawned
    decreases |keys|
  {
    if keys == [] {
    } else {
      RemoveAllKeys(m, keys[..|keys| - 1]);
      FrontAndLast(keys);
    }
  }

  /** The accounts are exactly the watched addresses, and every request has spawned one task. */
  lemma {:induction false} AccountsAreWatched(addresses: seq<Address>, cs: seq<Command>)
    ensures ObeyAll(Initial(addresses), cs).accounts.Keys == Watched(addresses, cs)
    ensures ObeyAll(Initial(addresses), cs).spawned == Requested(addresses, cs)
    decreases |cs|
  {
    if cs == [] {
      InitialKeys(addresses);
      InitialSpawns(addresses);
    } else {
      var front := cs[..|cs| - 1];
      AccountsAreWatched(addresses, front);
      match cs[|cs| - 1]
      case Add(requests) => AddAllKeys(ObeyAll(Initial(addresses), front), requests);
      case Remove(keys) => RemoveAllKeys(ObeyAll(Initial(addresses), front), keys);
    }
  }

  /** Quit removes and signals every account. */
  function Quit(m: Manager): Manager {
    m.(accounts := map[], signalled := m.signalled + m.accounts.Values)
  }

  /**
   * From initial addresses without repetition, after any commands the running tasks are
   * exactly the accounts' tasks, one per address.
   */
  lemma OneWatcherPerAddress(addresses: seq<Address>, cs: seq<Command>)
    requires Distinct(addresses)
    ensures var m := ObeyAll(Initial(addresses), cs);
            && (forall t: nat :: Running(m, t) <==> exists a :: a in m.accounts && m.accounts[a] == t)
            && (forall t: nat, u: nat :: Running(m, t) && Running(m, u) && m.spawned[t] == m.spawned[u] ==> t == u)
  {
    InitialIsConsistent(addresses);
    CommandsKeepLeaks(Initial(addresses), cs);
    var m := ObeyAll(Initial(addresses), cs);
    forall t: nat | Running(m, t)
      ensures Owned(m, t)
    {
      InitialLeaks(addresses, t);
    }
  }

  lemma QuitLeavesLeaks(m: Manager, t: nat)
    requires Consistent(m)
    ensures Running(Quit(m), t) <==> Leaked(m, t)
  {
    if Owned(m, t) {
      assert m.accounts[m.spawned[t]] in m.accounts.Values;
    }
  }

  /**
   * From initial addresses without repetition, after any commands an address has a running
   * task if and only if it is to be watched.
   */
  lemma RunningIffWatched(addresses: seq<Address>, cs: seq<Command>, a: Address)
    requires Distinct(addresses)
    ensures var m := ObeyAll(Initial(addresses), cs);
            (exists t: nat :: Running(m, t) && m.spawned[t] == a) <==> a in Watched(addresses, cs)
  {
    var m := ObeyAll(Initial(addresses), cs);
    AccountsAreWatched(addresses, cs);
    OneWatcherPerAddress(addresses, cs);
    InitialIsConsistent(addresses);
    CommandsKeepLeaks(Initial(addresses), cs);
    if a in Watched(addresses, cs) {
      assert a in m.accounts;
      assert Running(m, m.accounts[a]) && m.spawned[m.accounts[a]] == a;
    }
  }

  // ----- the task of an account is its latest -----

  /** No account's task was spawned before another one for the same address. */
  ghost predicate LatestRun(m: Manager) {
    forall a, t :: a in m.accounts && m.accounts[a] < t < |m.spawned| ==> m.spawned[t] != a
  }

  lemma {:induction false} InitialLatest(addresses: seq<Address>)
    ensures LatestRun(Initial(addresses))
  {
    if addresses == [] {
    } else {
      InitialLatest(addresses[..|addresses| - 1]);
    }
  }

  lemma {:induction false} AddAllLatest(m: Manager, keys: seq<Address>)
    requires LatestRun(m)
    ensures LatestRun(AddAll(m, keys))
    decreases |keys|
  {
    if keys == [] {
    } else {
      AddAllLatest(m, keys[..|keys| - 1]);
    }
  }

  lemma {:induction false} RemoveAllLatest(m: Manager, keys: seq<Address>)
    requires LatestRun(m)
    ensures LatestRun(RemoveAll(m, keys))
    decreases |keys|
  {
    if keys == [] {
    } else {
      RemoveAllLatest(m, keys[..|keys| - 1]);
    }
  }

  /** After any commands the task of a watched address is the one of its latest request. */
  lemma {:induction false} LatestRequestRuns(addresses: seq<Address>, cs: seq<Command>)
    ensures LatestRun(ObeyAll(Initial(addresses), cs))
    decreases |cs|
  {
    if cs == [] {
      InitialLatest(addresses);
    } else {
      var front := cs[..|cs| - 1];
      LatestRequestRuns(addresses, front);
      match cs[|cs| - 1]
      case Add(requests) => AddAllLatest(ObeyAll(Initial(addresses), front), requests);
      case Remove(keys) => RemoveAllLatest(ObeyAll(Initial(addresses), front), keys);
    }
  }

  /** After any commands and Quit, exactly the displaced initial tasks keep running. */
  lemma QuitLeavesDisplaced(addresses: seq<Address>, cs: seq<Command>, t: nat)
    ensures Running(Quit(ObeyAll(Initial(addresses), cs)), t) <==> Displaced(addresses, t)
  {
    InitialIsConsistent(addresses);
    InitialLeaks(addresses, t);
    CommandsKeepLeaks(Initial(addresses), cs);
    QuitLeavesLeaks(ObeyAll(Initial(addresses), cs), t);
  }

  /** After Quit no task keeps running if and only if the initial addresses were distinct. */
  lemma QuitStopsEverythingIff(addresses: seq<Address>, cs: seq<Command>)
    ensures (forall t: nat :: !Running(Quit(ObeyAll(Initial(addresses), cs)), t)) <==> Distinct(addresses)
  {
    if Distinct(addresses) {
      forall t: nat
        ensures !Running(Quit(ObeyAll(Initial(addresses), cs)), t)
      {
        QuitLeavesDisplaced(addresses, cs, t);
      }
    } else {
      var t, u :| 0 <= t < u < |addresses| && addresses[t] == addresses[u];
      QuitLeavesDisplaced(addresses, cs, t);
    }
  }

  lemma RemovedValue(m: map<Address, nat>, a: Address)
    requires a in m
    ensures (m - {a}).Values + {m[a]} == m.Values
  {
    var m' := m - {a};
    forall t | t in m.Values
      ensures t in m'.Values + {m[a]}
    {
      var b :| b in m && m[b] == t;
      if b != a {
        assert m'[b] == t;
      }
    }
  }

  /** The command loop's own state. */
  class WatcherTasks {
    var accounts: map<Address, nat>
    var spawned: seq<Address>
    var signalled: set<nat>

    ghost function State(): Manager
      reads this
    {
      Manager(accounts, spawned, signalled)
    }

    constructor (addresses: seq<Address>)
      ensures State() == Initial(addresses)
    {
      accounts, spawned, signalled := map[], [], {};
      new;
      for k := 0 to |addresses|
        invariant State() == Initial(addresses[..k])
      {
        assert addresses[..k + 1][..k] == addresses[..k];
        accounts := accounts[addresses[k] := |spawned|];
        spawned := spawned + [addresses[k]];
      }
      assert addresses[..|addresses|] == addresses;
    }

    method ProcessAdd(requests: seq<Address>)
      modifies this
      ensures State() == Obey(old(State()), Add(requests))
      ensures spawned == old(spawned) + requests
      ensures accounts.Keys == old(accounts).Keys + (set a | a in requests)
    {
      AddAllKeys(old(State()), requests);
      for k := 0 to |requests|
        invariant State() == AddAll(old(State()), requests[..k])
      {
        assert requests[..k + 1][..k] == requests[..k];
        var a := requests[k];
        var task := |spawned|;
        spawned := spawned + [a];
        if a in accounts {
          signalled := signalled + {accounts[a]};
        }
        accounts := accounts[a := task];
      }
      assert requests[..|requests|] == requests;
    }

    method ProcessRemove(keys: seq<Address>)
      modifies this
      ensures State() == Obey(old(State()), Remove(keys))
      ensures spawned == old(spawned)
      ensures accounts.Keys == old(accounts).Keys - (set a | a in keys)
    {
      RemoveAllKeys(old(State()), keys);
      for k := 0 to |keys|
        invariant State() == RemoveAll(old(State()), keys[..k])
      {
        assert keys[..k + 1][..k] == keys[..k];
        var a := keys[k];
        if a in accounts {
          signalled := signalled + {accounts[a]};
          accounts := accounts - {a};
        }
      }
      assert keys[..|keys|] == keys;
    }

    /** Quit walks the keys in any order; each removal finds its key. */
    method ProcessQuit()
      modifies this
      ensures State() == Quit(old(State()))
      ensures accounts == map[] && forall t: nat :: t in old(accounts).Values ==> !Running(State(), t)
    {
      var keys := accounts.Keys;
      while keys != {}
        invariant keys == accounts.Keys && spawned == old(spawned)
        invariant forall a :: a in accounts ==> a in old(accounts) && accounts[a] == old(accounts)[a]
        invariant signalled + accounts.Values == old(signalled) + old(accounts).Values
        decreases keys
      {
        var a :| a in keys;
        ghost var before := accounts;
        assert a in accounts;
        signalled := signalled + {accounts[a]};
        accounts := accounts - {a};
        keys := keys - {a};
        RemovedValue(before, a);
      }
      assert accounts == map[];
    }
  }
}
