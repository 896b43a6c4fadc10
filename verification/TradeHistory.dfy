/**
 * The copy-trade history (crates/biscuit/src/services/copy/history.rs), the file storage
 * that records accepted trades, and the replay that rebuilds the history from it
 * (crates/biscuit/src/services/copy/storage/file.rs). Volumes are token amounts.
 */
module TradeHistory {
  import opened Prelude

  type Pubkey = nat

  const SOL: Pubkey := 0
  const USDC: Pubkey := 1
  const USDT: Pubkey := 2
  const MAX_BPS: nat := 10_000

  datatype Direction = Buy | Sell

  /** Histories are kept per wallet and token. */
  datatype Key = Key(wallet: Pubkey, token: Pubkey)

  /** Token volumes of the origin wallet and of ours. */
  datatype Volumes = Volumes(originBuy: nat, originSell: nat, execBuy: nat, execSell: nat)

  function NoVolume(): Volumes {
    Volumes(0, 0, 0, 0)
  }

  datatype CopyHistory = CopyHistory(volumes: Volumes, token: Pubkey)

  type History = map<Key, CopyHistory>

  /** A trade as it is stored. */
  datatype Trade = Trade(wallet: Pubkey, token: Pubkey, exec: nat, origin: nat, dust: nat, direction: Direction)

  datatype TradeError = Untracked | DustAboveWhole | Underflow

  predicate Tracked(token: Pubkey) {
    token != SOL && token != USDC && token != USDT
  }

  function Add(a: Volumes, b: Volumes): Volumes {
    Volumes(a.originBuy + b.originBuy, a.originSell + b.originSell, a.execBuy + b.execBuy, a.execSell + b.execSell)
  }

  /** Our own volume without the dust, which is not tracked. */
  function WithoutDust(t: Trade): nat {
    if t.dust <= t.exec then t.exec - t.dust else 0
  }

  /** What a trade adds to the history. */
  function VolumeOf(t: Trade): Volumes {
    match t.direction
    case Buy => Volumes(t.origin, 0, WithoutDust(t), 0)
    case Sell => Volumes(0, t.origin, 0, WithoutDust(t))
  }

  /** The volumes tracked for a key; none for an unknown key. */
  function Tracks(h: History, k: Key): Volumes {
    if k in h then h[k].volumes else NoVolume()
  }

  // ----- inserting -----

  /** The history after a trade under the given wallet and token. */
  function InsertInner(h: History, wallet: Pubkey, token: Pubkey, t: Trade): Result<History, TradeError> {
    if !Tracked(token) then Err(Untracked)
    else if t.exec < t.dust then Err(Underflow)
    else
      var k := Key(wallet, token);
      Ok(h[k := CopyHistory(Add(Tracks(h, k), VolumeOf(t)), token)])
  }

  /**
   * A copied trade offered to the history, or a history dropped when its origin has sold
   * out. `share` is the moonbag share of the executed volume as the source computes it in
   * floating point; nothing is assumed about its rounding.
   */
  datatype Request =
    | Offer(wallet: Pubkey, token: Pubkey, exec: nat, origin: nat, direction: Direction,
            moonbagBps: Option<nat>, share: nat)
    | Forget(wallet: Pubkey, token: Pubkey)

  /** Dust of an offer: the moonbag share of a buy, nothing of a sale (lines 117-127). */
  function DustOf(r: Request): Result<nat, TradeError>
    requires r.Offer?
  {
    if r.direction == Sell then Ok(0)
    else
      var bps := if r.moonbagBps.Some? then r.moonbagBps.value else 0;
      if bps > MAX_BPS then Err(DustAboveWhole) else Ok(if bps == 0 then 0 else r.share)
  }

  /** The trade that an accepted offer stores. */
  function Accept(r: Request): Result<Trade, TradeError>
    requires r.Offer?
  {
    if !Tracked(r.token) then Err(Untracked)
    else
      match DustOf(r)
      case Err(e) => Err(e)
      case Ok(dust) =>
        if r.exec < dust then Err(Underflow)
        else Ok(Trade(r.wallet, r.token, r.exec, r.origin, dust, r.direction))
  }

  predicate HasMoonbag(r: Request) {
    r.Offer? && r.direction == Buy && r.moonbagBps.Some? && r.moonbagBps.value > 0
  }

  /**
   * The offers that are accepted: of a token that is neither SOL nor a stable coin, and, for
   * a buy with a moonbag, with a share of at most the whole and of at most what was bought.
   */
  predicate Accepted(r: Request) {
    && r.Offer? && r.token != SOL && r.token != USDC && r.token != USDT
    && (HasMoonbag(r) ==> r.moonbagBps.value <= 10_000 && r.share <= r.exec)
  }

  /** What an accepted offer keeps aside. */
  function Moonbag(r: Request): nat {
    if HasMoonbag(r) then r.share else 0
  }

  /** Which offers are accepted, what they store, and why the others are refused. */
  lemma AcceptIff(r: Request)
    requires r.Offer?
    ensures Accept(r).Ok? <==> Accepted(r)
    ensures Accept(r).Ok? ==> Accept(r).value.exec == r.exec && Accept(r).value.origin == r.origin
    ensures Accept(r).Ok? ==> Accept(r).value.wallet == r.wallet && Accept(r).value.token == r.token
    ensures Accept(r).Ok? ==> Accept(r).value.dust == Moonbag(r) && Accept(r).value.direction == r.direction
    ensures Accept(r) == Err(Untracked) <==> r.token == SOL || r.token == USDC || r.token == USDT
    ensures Accept(r) == Err(DustAboveWhole) <==>
              Accept(r) != Err(Untracked) && HasMoonbag(r) && r.moonbagBps.value > 10_000
  {
  }

  class HistoricalTrades {
    var history: History

    constructor ()
      ensures history == map[]
    {
      history := map[];
    }

    /** Adds a trade's volumes under the given wallet and token (lines 211-263). */
    method InsertTradeInner(wallet: Pubkey, token: Pubkey, t: Trade) returns (error: Option<TradeError>)
      modifies this
      ensures match InsertInner(old(history), wallet, token, t)
              case Ok(h) => error == None && history == h
              case Err(e) => error == Some(e) && history == old(history)
      ensures error == Some(Untracked) <==> token == SOL || token == USDC || token == USDT
      ensures error == Some(Underflow) <==> error != Some(Untracked) && t.exec < t.dust
      ensures error.Some? ==> error == Some(Untracked) || error == Some(Underflow)
    {
      if token == SOL || token == USDC || token == USDT {
        return Some(Untracked);
      }
      var k := Key(wallet, token);
      var volumes := if k in history then history[k].volumes else NoVolume();
      if t.exec < t.dust {
        return Some(Underflow);
      }
      var tracked := t.exec - t.dust;
      if t.direction == Buy {
        volumes := volumes.(originBuy := volumes.originBuy + t.origin, execBuy := volumes.execBuy + tracked);
      } else {
        volumes := volumes.(originSell := volumes.originSell + t.origin, execSell := volumes.execSell + tracked);
      }
      history := history[k := CopyHistory(volumes, token)];
      return None;
    }

    /** Records an offered trade and yields what is to be stored (lines 97-209). */
    method InsertTrade(r: Request) returns (stored: Result<Trade, TradeError>)
      requires r.Offer?
      modifies this
      ensures stored == Accept(r)
      ensures stored.Err? ==> history == old(history)
      ensures stored.Ok? ==> InsertInner(old(history), r.wallet, r.token, stored.value) == Ok(history)
    {
      if r.token == SOL || r.token == USDC || r.token == USDT {
        return Err(Untracked);
      }
      var dust := DustOf(r);
      if dust.Err? {
        return Err(dust.error);
      }
      var t := Trade(r.wallet, r.token, r.exec, r.origin, dust.value, r.direction);
      var error := InsertTradeInner(r.wallet, r.token, t);
      return if error.Some? then Err(error.value) else Ok(t);
    }

    method RemoveHistory(wallet: Pubkey, token: Pubkey)
      modifies this
      ensures history == old(history) - {Key(wallet, token)}
    {
      history := history - {Key(wallet, token)};
    }
  }

  // ----- a live run -----

  /** The live history and every trade stored so far. */
  datatype Journal = Journal(history: History, stored: seq<Trade>)

  function Serve(j: Journal, r: Request): Journal {
    match r
    case Offer(_, _, _, _, _, _, _) =>
      if Accept(r).Err? then j
      else
        var t := Accept(r).value;
        Journal(InsertInner(j.history, r.wallet, r.token, t).value, j.stored + [t])
    case Forget(wallet, token) => j.(history := j.history - {Key(wallet, token)})
  }

  function ServeAll(rs: seq<Request>): Journal {
    if rs == [] then Journal(map[], [])
    else Serve(ServeAll(rs[..|rs| - 1]), rs[|rs| - 1])
  }

  lemma ServeAllNext(rs: seq<Request>, i: nat)
    requires i < |rs|
    ensures ServeAll(rs[..i + 1]) == Serve(ServeAll(rs[..i]), rs[i])
  {
    assert rs[..i + 1][..i] == rs[..i];
  }

  /** The request is an accepted trade of key k. */
  predicate Adds(r: Request, k: Key) {
    r.Offer? && Accept(r).Ok? && Key(r.wallet, r.token) == k
  }

  /** The accepted trades of a key since its history was last removed. */
  function Since(rs: seq<Request>, k: Key): seq<Trade> {
    if rs == [] then []
    else
      var front, r := rs[..|rs| - 1], rs[|rs| - 1];
      if Adds(r, k) then Since(front, k) + [Accept(r).value]
      else if r == Forget(k.wallet, k.token) then []
      else Since(front, k)
  }

  /** The accepted trades of a key before its history was last removed. */
  function Before(rs: seq<Request>, k: Key): seq<Trade> {
    if rs == [] then []
    else
      var front, r := rs[..|rs| - 1], rs[|rs| - 1];
      if r == Forget(k.wallet, k.token) then Before(front, k) + Since(front, k) else Before(front, k)
  }

  // ----- totals -----

  /** A trade that can be replayed. */
  predicate Sound(t: Trade) {
    t.dust <= t.exec && Tracked(t.token)
  }

  function Total(ts: seq<Trade>): Volumes {
    if ts == [] then NoVolume()
    else Add(Total(ts[..|ts| - 1]), VolumeOf(ts[|ts| - 1]))
  }

  /** The trades of one key, in order. */
  function For(ts: seq<Trade>, k: Key): seq<Trade> {
    if ts == [] then []
    else
      var n := |ts| - 1;
      For(ts[..n], k) + (if Key(ts[n].wallet, ts[n].token) == k then [ts[n]] else [])
  }

  lemma {:induction false} ForIsFilter(ts: seq<Trade>, k: Key)
    ensures forall t :: t in For(ts, k) <==> t in ts && Key(t.wallet, t.token) == k
  {
    if ts == [] {
    } else {
      ForIsFilter(ts[..|ts| - 1], k);
      FrontAndLast(ts);
    }
  }

  lemma ForStep(ts: seq<Trade>, t: Trade, k: Key)
    ensures For(ts + [t], k) == For(ts, k) + (if Key(t.wallet, t.token) == k then [t] else [])
  {
    assert (ts + [t])[..|ts|] == ts;
  }

  lemma TotalStep(ts: seq<Trade>, t: Trade)
    ensures Total(ts + [t]) == Add(Total(ts), VolumeOf(t))
  {
    assert (ts + [t])[..|ts|] == ts;
  }

  lemma AddSwaps(a: Volumes, b: Volumes, c: Volumes)
    ensures Add(Add(a, b), c) == Add(Add(a, c), b)
  {
  }

  /** Taking out one trade takes its volume off the total. */
  lemma {:induction false} TotalWithout(ts: seq<Trade>, i: nat)
    requires i < |ts|
    ensures Total(ts) == Add(Total(ts[..i] + ts[i + 1..]), VolumeOf(ts[i]))
    decreases |ts|
  {
    var front, last := ts[..|ts| - 1], ts[|ts| - 1];
    FrontAndLast(ts);
    TotalStep(front, last);
    if i < |front| {
      var rest := front[..i] + front[i + 1..];
      assert ts[..i] + ts[i + 1..] == rest + [last];
      TotalWithout(front, i);
      TotalStep(rest, last);
      AddSwaps(Total(rest), VolumeOf(ts[i]), VolumeOf(last));
    } else {
      assert ts[..i] + ts[i + 1..] == front;
    }
  }

  lemma SplitMultiset(xs: seq<Trade>, i: nat)
    requires i < |xs|
    ensures multiset(xs[..i] + xs[i + 1..]) == multiset(xs) - multiset{xs[i]}
  {
    assert xs == xs[..i] + [xs[i]] + xs[i + 1..];
  }

  /** The total does not depend on the order. */
  lemma {:induction false} TotalPermutation(xs: seq<Trade>, ys: seq<Trade>)
    requires multiset(xs) == multiset(ys)
    ensures Total(xs) == Total(ys) && |xs| == |ys|
    decreases |xs|
  {
    assert |multiset(xs)| == |xs| && |multiset(ys)| == |ys|;
    if xs == [] {
    } else {
      var n := |xs| - 1;
      assert xs[n] in multiset(ys);
      var i :| 0 <= i < |ys| && ys[i] == xs[n];
      SplitMultiset(xs, n);
      SplitMultiset(ys, i);
      assert xs[..n] + xs[n + 1..] == xs[..n];
      TotalPermutation(xs[..n], ys[..i] + ys[i + 1..]);
      TotalWithout(ys, i);
    }
  }

  function Bought(ts: seq<Trade>): nat {
    if ts == [] then 0
    else Bought(ts[..|ts| - 1]) + (if ts[|ts| - 1].direction == Buy then ts[|ts| - 1].exec else 0)
  }

  function DustKept(ts: seq<Trade>): nat {
    if ts == [] then 0
    else DustKept(ts[..|ts| - 1]) + (if ts[|ts| - 1].direction == Buy then ts[|ts| - 1].dust else 0)
  }

  /** Tracked buys plus dust equals everything bought. */
  lemma {:induction false} BoughtIsTrackedPlusDust(ts: seq<Trade>)
    requires forall t :: t in ts ==> t.dust <= t.exec
    ensures Total(ts).execBuy + DustKept(ts) == Bought(ts)
  {
    if ts == [] {
    } else {
      BoughtIsTrackedPlusDust(ts[..|ts| - 1]);
    }
  }

  // ----- live state against the stored trades -----

  /** A history's entry for a key that has just these trades: their total, and none without trades. */
  ghost predicate Reflects(h: History, k: Key, ts: seq<Trade>) {
    if ts == [] then k !in h else k in h && h[k] == CopyHistory(Total(ts), k.token)
  }

  /** Inserting a trade under its key extends the trades that the history reflects. */
  lemma InsertReflects(h: History, k: Key, ts: seq<Trade>, t: Trade)
    requires Reflects(h, k, ts) && Tracked(k.token) && t.dust <= t.exec
    ensures Reflects(InsertInner(h, k.wallet, k.token, t).value, k, ts + [t])
  {
    TotalStep(ts, t);
    assert Tracks(h, k) == Total(ts);
  }

  /** Over every run, the live history of a key reflects its trades since the last removal. */
  lemma {:induction false} LiveReflects(rs: seq<Request>, k: Key)
    ensures Reflects(ServeAll(rs).history, k, Since(rs, k))
    decreases |rs|
  {
    if rs == [] {
    } else {
      var front, r := rs[..|rs| - 1], rs[|rs| - 1];
      LiveReflects(front, k);
      if Adds(r, k) {
        InsertReflects(ServeAll(front).history, k, Since(front, k), Accept(r).value);
      }
    }
  }

  /** The stored trades of a key are those dropped and those still live, in order. */
  lemma {:induction false} StoredSplits(rs: seq<Request>, k: Key)
    ensures For(ServeAll(rs).stored, k) == Before(rs, k) + Since(rs, k)
    decreases |rs|
  {
    if rs == [] {
    } else {
      var front, r := rs[..|rs| - 1], rs[|rs| - 1];
      var before, since := Before(front, k), Since(front, k);
      StoredSplits(front, k);
      if r.Forget? {
        assert (before + since) + [] == before + since;
      } else if Accept(r).Ok? {
        ForStep(ServeAll(front).stored, Accept(r).value, k);
        assert (before + since) + [Accept(r).value] == before + (since + [Accept(r).value]);
      }
    }
  }

  // ----- the storage and its replay -----

  /** The trades filed under each wallet and token directory. */
  type Files = map<Key, seq<Trade>>

  function Filed(files: Files, k: Key): seq<Trade> {
    if k in files then files[k] else []
  }

  /** A storage that holds the stored trades, each in its own directory. */
  ghost predicate Stores(files: Files, stored: seq<Trade>) {
    && (forall t :: t in stored ==> Sound(t))
    && (forall k :: Filed(files, k) == For(stored, k))
  }

  lemma SameElsewhere(h: History, h': History, k: Key, other: Key)
    requires h - {k} == h' - {k} && other != k
    ensures other in h <==> other in h'
    ensures other in h ==> h[other] == h'[other]
  {
    assert other in h ==> (h - {k})[other] == h[other];
    assert other in h' ==> (h' - {k})[other] == h'[other];
  }

  class FileStorage {
    var files: Files

    constructor ()
      ensures files == map[]
    {
      files := map[];
    }

    /** Writes an accepted trade into the directory of its wallet and token. */
    method Store(t: Trade, ghost stored: seq<Trade>)
      requires Stores(files, stored) && Sound(t)
      modifies this
      ensures Stores(files, stored + [t])
    {
      var k := Key(t.wallet, t.token);
      ghost var before := files;
      files := files[k := Filed(files, k) + [t]];
      forall other: Key
        ensures Filed(files, other) == For(stored + [t], other)
      {
        ForStep(stored, t, other);
        assert Filed(before, other) == For(stored, other);
      }
    }

    /** Replays the files of one directory; its name, not the file, gives wallet and token. */
    method ReplayDirectory(rebuilt: HistoricalTrades, k: Key, ts: seq<Trade>)
      requires forall t :: t in ts ==> Sound(t) && Key(t.wallet, t.token) == k
      requires k !in rebuilt.history
      modifies rebuilt
      ensures Reflects(rebuilt.history, k, ts)
      ensures forall other :: other != k ==>
                (other in rebuilt.history <==> other in old(rebuilt.history))
      ensures forall other :: other != k && other in rebuilt.history ==>
                rebuilt.history[other] == old(rebuilt.history)[other]
    {
      for i := 0 to |ts|
        invariant Reflects(rebuilt.history, k, ts[..i])
        invariant rebuilt.history - {k} == old(rebuilt.history) - {k}
      {
        assert ts[..i + 1] == ts[..i] + [ts[i]];
        InsertReflects(rebuilt.history, k, ts[..i], ts[i]);
        var error := rebuilt.InsertTradeInner(k.wallet, k.token, ts[i]);
        assert error.None?;
      }
      assert ts[..|ts|] == ts;
      forall other | other != k
        ensures other in rebuilt.history <==> other in old(rebuilt.history)
        ensures other in rebuilt.history ==> rebuilt.history[other] == old(rebuilt.history)[other]
      {
        SameElsewhere(rebuilt.history, old(rebuilt.history), k, other);
      }
    }

    /**
     * Rebuilds the history. `listing` is what reading the directories yields: their files in
     * any order; the directories themselves are visited in any order too.
     */
    method BootstrapHistory(listing: Files) returns (rebuilt: HistoricalTrades)
      requires forall k, t :: k in listing && t in listing[k] ==> Sound(t) && Key(t.wallet, t.token) == k
      ensures fresh(rebuilt)
      ensures forall k :: Reflects(rebuilt.history, k, Filed(listing, k))
    {
      rebuilt := new HistoricalTrades();
      var left := listing.Keys;
      while left != {}
        invariant left <= listing.Keys && fresh(rebuilt)
        invariant forall k :: Reflects(rebuilt.history, k, if k in left then [] else Filed(listing, k))
        decreases left
      {
        var k :| k in left;
        left := left - {k};
        ReplayDirectory(rebuilt, k, listing[k]);
      }
    }
  }

  /** A directory listing: the same directories, each with its files in some order. */
  ghost predicate Lists(listing: Files, files: Files) {
    && listing.Keys == files.Keys
    && forall k :: k in files ==> multiset(listing[k]) == multiset(files[k])
  }

  /** Reading a storage of sound trades yields what the replay needs. */
  lemma ListingIsSound(listing: Files, files: Files, stored: seq<Trade>)
    requires Stores(files, stored) && Lists(listing, files)
    ensures forall k, t :: k in listing && t in listing[k] ==> Sound(t) && Key(t.wallet, t.token) == k
  {
    forall k, t | k in listing && t in listing[k]
      ensures Sound(t) && Key(t.wallet, t.token) == k
    {
      assert t in multiset(listing[k]);
      assert t in files[k];
      assert Filed(files, k) == For(stored, k);
      ForIsFilter(stored, k);
    }
  }

  /** The order of the files does not matter to the rebuilt history. */
  lemma ReplayReflectsStored(h: History, listing: Files, files: Files, stored: seq<Trade>, k: Key)
    requires Stores(files, stored) && Lists(listing, files)
    requires Reflects(h, k, Filed(listing, k))
    ensures Reflects(h, k, For(stored, k))
  {
    assert Filed(files, k) == For(stored, k);
    if k in files {
      TotalPermutation(listing[k], files[k]);
    }
  }

  // ----- the main results -----

  lemma AddIsAssociative(a: Volumes, b: Volumes, c: Volumes)
    ensures Add(Add(a, b), c) == Add(a, Add(b, c))
  {
  }

  lemma TotalAppendStep(a: seq<Trade>, front: seq<Trade>, last: Trade, b: seq<Trade>)
    requires b == front + [last] && Total(a + front) == Add(Total(a), Total(front))
    ensures Total(a + b) == Add(Total(a), Total(b))
  {
    assert a + b == (a + front) + [last];
    TotalStep(a + front, last);
    TotalStep(front, last);
    AddIsAssociative(Total(a), Total(front), VolumeOf(last));
  }

  lemma {:induction false} TotalAppend(a: seq<Trade>, b: seq<Trade>)
    ensures Total(a + b) == Add(Total(a), Total(b))
    decreases |b|
  {
    if b == [] {
      assert a + b == a;
    } else {
      FrontAndLast(b);
      TotalAppend(a, b[..|b| - 1]);
      TotalAppendStep(a, b[..|b| - 1], b[|b| - 1], b);
    }
  }

  lemma AddUnchanged(a: Volumes, b: Volumes)
    ensures Add(a, b) == b <==> a == NoVolume()
  {
  }

  lemma ReflectedVolume(h: History, k: Key, ts: seq<Trade>)
    requires Reflects(h, k, ts)
    ensures Tracks(h, k) == Total(ts)
  {
  }

  /**
   * Replay against live state, over every run and every order of files and directories:
   * for each wallet and token the rebuilt volumes are the live volumes plus those of the
   * trades that remove_history dropped, so the two agree exactly when these total nothing.
   */
  lemma ReplayRestoresDropped(rs: seq<Request>, h: History, k: Key)
    requires Reflects(h, k, For(ServeAll(rs).stored, k))
    ensures var live := Tracks(ServeAll(rs).history, k);
            && Tracks(h, k) == Add(Total(Before(rs, k)), live)
            && (Tracks(h, k) == live <==> Total(Before(rs, k)) == NoVolume())
  {
    LiveReflects(rs, k);
    StoredSplits(rs, k);
    ReflectedVolume(h, k, For(ServeAll(rs).stored, k));
    ReflectedVolume(ServeAll(rs).history, k, Since(rs, k));
    TotalAppend(Before(rs, k), Since(rs, k));
    AddUnchanged(Total(Before(rs, k)), Total(Since(rs, k)));
  }

  lemma {:induction false} NothingBefore(rs: seq<Request>, k: Key)
    requires forall r :: r in rs ==> r.Offer?
    ensures Before(rs, k) == []
    decreases |rs|
  {
    if rs == [] {
    } else {
      assert rs[|rs| - 1] in rs;
      NothingBefore(rs[..|rs| - 1], k);
    }
  }

  /**
   * Without removals, replaying what was stored, files and directories in any order,
   * rebuilds exactly the live history.
   */
  lemma ReplayAgreesWithLive(rs: seq<Request>, h: History, listing: Files, files: Files)
    requires forall r :: r in rs ==> r.Offer?
    requires Stores(files, ServeAll(rs).stored) && Lists(listing, files)
    requires forall k :: Reflects(h, k, Filed(listing, k))
    ensures h == ServeAll(rs).history
  {
    var live := ServeAll(rs).history;
    forall k: Key
      ensures k in h <==> k in live
      ensures k in h ==> h[k] == live[k]
    {
      ReplayReflectsStored(h, listing, files, ServeAll(rs).stored, k);
      LiveReflects(rs, k);
      StoredSplits(rs, k);
      NothingBefore(rs, k);
      assert Before(rs, k) + Since(rs, k) == Since(rs, k);
    }
  }

  /** Serving requests: the live history and the storage are those of the specified run. */
  method ServeRequests(rs: seq<Request>) returns (live: HistoricalTrades, storage: FileStorage)
    ensures live.history == ServeAll(rs).history
    ensures Stores(storage.files, ServeAll(rs).stored)
  {
    live := new HistoricalTrades();
    storage := new FileStorage();
    for i := 0 to |rs|
      invariant fresh(live) && fresh(storage)
      invariant live.history == ServeAll(rs[..i]).history
      invariant Stores(storage.files, ServeAll(rs[..i]).stored)
    {
      ServeAllNext(rs, i);
      match rs[i]
      case Offer(_, _, _, _, _, _, _) =>
        var stored := live.InsertTrade(rs[i]);
        if stored.Ok? {
          storage.Store(stored.value, ServeAll(rs[..i]).stored);
        }
      case Forget(wallet, token) => live.RemoveHistory(wallet, token);
    }
    assert rs[..|rs|] == rs;
  }

  /**
   * The whole life of a history: serving the requests, storing what they add, and
   * rebuilding from whatever order of files a directory listing gives. The live history is
   * the specified one; the rebuilt one adds the dropped trades, and without removals it is
   * the live one.
   */
  method ServeAndReplay(rs: seq<Request>, listing: Files -> Files)
    returns (live: HistoricalTrades, rebuilt: HistoricalTrades)
    requires forall files :: Lists(listing(files), files)
    ensures live.history == ServeAll(rs).history
    ensures forall k :: Tracks(rebuilt.history, k) == Add(Total(Before(rs, k)), Tracks(live.history, k))
    ensures (forall r :: r in rs ==> r.Offer?) ==> rebuilt.history == live.history
  {
    var storage;
    live, storage := ServeRequests(rs);
    ListingIsSound(listing(storage.files), storage.files, ServeAll(rs).stored);
    rebuilt := storage.BootstrapHistory(listing(storage.files));
    forall k: Key
      ensures Tracks(rebuilt.history, k) == Add(Total(Before(rs, k)), Tracks(live.history, k))
    {
      ReplayReflectsStored(rebuilt.history, listing(storage.files), storage.files, ServeAll(rs).stored, k);
      ReplayRestoresDropped(rs, rebuilt.history, k);
    }
    if forall r :: r in rs ==> r.Offer? {
      ReplayAgreesWithLive(rs, rebuilt.history, listing(storage.files), storage.files);
    }
  }

  lemma {:induction false} SinceIsSound(rs: seq<Request>, k: Key)
    ensures forall t :: t in Since(rs, k) ==> t.dust <= t.exec
    decreases |rs|
  {
    if rs == [] {
    } else {
      SinceIsSound(rs[..|rs| - 1], k);
    }
  }

  // ----- the live volumes as sums over the requests -----

  /** The request is an accepted offer of key k in this direction. */
  predicate Trades(r: Request, k: Key, d: Direction) {
    Accepted(r) && r.wallet == k.wallet && r.token == k.token && r.direction == d
  }

  /** What the origin traded of a key, by the requests since its history was last removed. */
  function OriginSince(rs: seq<Request>, k: Key, d: Direction): nat {
    if rs == [] then 0
    else
      var r := rs[|rs| - 1];
      if r == Forget(k.wallet, k.token) then 0
      else OriginSince(rs[..|rs| - 1], k, d) + (if Trades(r, k, d) then r.origin else 0)
  }

  /** What we traded of a key without moonbags, by the requests since its history was last removed. */
  function ExecSince(rs: seq<Request>, k: Key, d: Direction): nat {
    if rs == [] then 0
    else
      var r := rs[|rs| - 1];
      if r == Forget(k.wallet, k.token) then 0
      else ExecSince(rs[..|rs| - 1], k, d) + (if Trades(r, k, d) then r.exec - Moonbag(r) else 0)
  }

  /** Each volume is the sum over the requests that it stands for. */
  ghost predicate SumsUp(v: Volumes, rs: seq<Request>, k: Key) {
    && v.originBuy == OriginSince(rs, k, Buy)
    && v.originSell == OriginSince(rs, k, Sell)
    && v.execBuy == ExecSince(rs, k, Buy)
    && v.execSell == ExecSince(rs, k, Sell)
  }

  /** The volumes that an accepted offer adds. */
  lemma OfferVolumes(r: Request)
    requires r.Offer? && Accept(r).Ok?
    ensures var v := VolumeOf(Accept(r).value);
            && v.originBuy == (if r.direction == Buy then r.origin else 0)
            && v.originSell == (if r.direction == Sell then r.origin else 0)
            && v.execBuy == (if r.direction == Buy then r.exec - Moonbag(r) else 0)
            && v.execSell == (if r.direction == Sell then r.exec - Moonbag(r) else 0)
  {
    AcceptIff(r);
  }

  lemma AddsIffTrades(r: Request, k: Key)
    ensures Adds(r, k) <==> Trades(r, k, Buy) || Trades(r, k, Sell)
    ensures r == Forget(k.wallet, k.token) ==> !Adds(r, k)
  {
    if r.Offer? {
      AcceptIff(r);
    }
  }

  lemma SumsUpStep(v: Volumes, rs: seq<Request>, k: Key)
    requires rs != [] && SumsUp(v, rs[..|rs| - 1], k) && Adds(rs[|rs| - 1], k)
    ensures SumsUp(Add(v, VolumeOf(Accept(rs[|rs| - 1]).value)), rs, k)
  {
    AddsIffTrades(rs[|rs| - 1], k);
    OfferVolumes(rs[|rs| - 1]);
  }

  lemma {:induction false} TotalSumsUp(rs: seq<Request>, k: Key)
    ensures SumsUp(Total(Since(rs, k)), rs, k)
    decreases |rs|
  {
    if rs == [] {
    } else {
      var front, r := rs[..|rs| - 1], rs[|rs| - 1];
      TotalSumsUp(front, k);
      AddsIffTrades(r, k);
      if Adds(r, k) {
        SumsUpStep(Total(Since(front, k)), rs, k);
        TotalStep(Since(front, k), Accept(r).value);
      }
    }
  }

  /**
   * Over every run and for every key, each of the four live volumes is the sum, over the
   * accepted requests of its direction since the last removal, of what the origin traded
   * or of what we traded without the moonbag.
   */
  lemma LiveVolumes(rs: seq<Request>, k: Key)
    ensures SumsUp(Tracks(ServeAll(rs).history, k), rs, k)
  {
    LiveReflects(rs, k);
    ReflectedVolume(ServeAll(rs).history, k, Since(rs, k));
    TotalSumsUp(rs, k);
  }

  /** In every run, what a live history tracks as bought plus the dust is everything bought since the last removal. */
  lemma LiveBuysPlusDust(rs: seq<Request>, k: Key)
    ensures Tracks(ServeAll(rs).history, k).execBuy + DustKept(Since(rs, k)) == Bought(Since(rs, k))
  {
    LiveReflects(rs, k);
    SinceIsSound(rs, k);
    ReflectedVolume(ServeAll(rs).history, k, Since(rs, k));
    BoughtIsTrackedPlusDust(Since(rs, k));
  }
}
