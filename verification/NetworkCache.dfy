/**
 The cache of recent blocks of an environment: blocks, their heights and their
 transactions in maps that are updated together.
 */
module NetworkCache {
  import opened Wrappers

  /** Hashes and transaction ids are numbers, times are in nanoseconds. */
  datatype Info = Info(height: nat, hash: nat, timestamp: int, updated: int)

  datatype Cache = Cache(
    heights: map<nat, nat>,                 // height to hash, one to one
    entries: map<nat, seq<nat>>,            // hash to the transactions of the block
    blockOf: map<nat, nat>,                 // transaction to hash
    blocks: map<nat, Info>,                 // hash to block
    latest: Option<Info>)

  datatype Event = Add(info: Info, txs: seq<nat>) | Remove(hash: nat) | Offer(info: Info)

  const MAX_CULL_AGE := 180 * 1_000_000_000

  // ---------- Steps ----------

  /** Insertion displaces the entries of the same height and of the same hash. */
  function SetHeight(heights: map<nat, nat>, height: nat, hash: nat): map<nat, nat> {
    (map h | h in heights && heights[h] != hash :: heights[h])[height := hash]
  }

  function AddBlock(c: Cache, info: Info, txs: seq<nat>): Cache {
    c.(heights := SetHeight(c.heights, info.height, info.hash),
       blockOf := c.blockOf + map tx | tx in txs :: info.hash,
       entries := c.entries[info.hash := txs],
       blocks := c.blocks[info.hash := info])
  }

  function RemoveBlock(c: Cache, hash: nat): Cache {
    c.(heights := map h | h in c.heights && c.heights[h] != hash :: c.heights[h],
       entries := c.entries - {hash},
       blockOf := map tx | tx in c.blockOf && c.blockOf[tx] != hash :: c.blockOf[tx],
       blocks := c.blocks - {hash})
  }

  function UpdateLatest(c: Cache, info: Info): Cache {
    match c.latest
    case None => c.(latest := Some(info))
    case Some(prev) => if prev.timestamp < info.timestamp then c.(latest := Some(info)) else c
  }

  function Step(c: Cache, e: Event): Cache {
    match e
    case Add(info, txs) => AddBlock(c, info, txs)
    case Remove(hash) => RemoveBlock(c, hash)
    case Offer(info) => UpdateLatest(c, info)
  }

  function Run(c: Cache, events: seq<Event>): Cache
    decreases |events|
  {
    if events == [] then c else Run(Step(c, events[0]), events[1..])
  }

  function Empty(): Cache {
    Cache(map[], map[], map[], map[], None)
  }

  function FindTransaction(c: Cache, tx: nat): Option<nat> {
    if tx in c.blockOf then Some(c.blockOf[tx]) else None
  }

  predicate IsStale(info: Info, now: int) {
    info.updated + MAX_CULL_AGE < now
  }

  // ---------- The maps tell the same story ----------

  /** Blocks and transaction lists belong to the same hashes, heights to cached blocks of that height, transactions to cached blocks. */
  ghost predicate Consistent(c: Cache) {
    && c.blocks.Keys == c.entries.Keys
    && (forall hash :: hash in c.blocks ==> c.blocks[hash].hash == hash)
    && (forall h :: h in c.heights ==> c.heights[h] in c.blocks && c.blocks[c.heights[h]].height == h)
    && (forall tx :: tx in c.blockOf ==> c.blockOf[tx] in c.blocks)
  }

  lemma {:induction false} StepKeepsConsistent(c: Cache, e: Event)
    requires Consistent(c)
    ensures Consistent(Step(c, e))
  {
  }

  /** In every reachable state. */
  lemma {:induction false} RunKeepsConsistent(c: Cache, events: seq<Event>)
    requires Consistent(c)
    ensures Consistent(Run(c, events))
    decreases |events|
  {
    hide Consistent, Step;
    if events != [] {
      StepKeepsConsistent(c, events[0]);
      RunKeepsConsistent(Step(c, events[0]), events[1..]);
    }
  }

  predicate Lists(c: Cache, hash: nat, tx: nat) {
    hash in c.entries && tx in c.entries[hash]
  }

  /** A transaction is found in a block exactly if the block lists it. */
  ghost predicate Indexed(c: Cache) {
    forall tx: nat, hash: nat :: FindTransaction(c, tx) == Some(hash) <==> Lists(c, hash, tx)
  }

  /** No block loses a transaction when it is added again, and none is in another block. */
  ghost predicate KeepsIndex(c: Cache, e: Event) {
    e.Add? ==>
      && (forall tx: nat :: Lists(c, e.info.hash, tx) ==> tx in e.txs)
      && (forall tx: nat, hash: nat :: tx in e.txs && hash != e.info.hash ==> !Lists(c, hash, tx))
  }

  lemma {:induction false} AddIndexes(c: Cache, info: Info, txs: seq<nat>, tx: nat, hash: nat)
    ensures Lists(AddBlock(c, info, txs), hash, tx) <==> if hash == info.hash then tx in txs else Lists(c, hash, tx)
    ensures FindTransaction(AddBlock(c, info, txs), tx) == if tx in txs then Some(info.hash) else FindTransaction(c, tx)
  {
  }

  lemma {:induction false} RemoveIndexes(c: Cache, removed: nat, tx: nat, hash: nat)
    ensures Lists(RemoveBlock(c, removed), hash, tx) <==> hash != removed && Lists(c, hash, tx)
    ensures FindTransaction(RemoveBlock(c, removed), tx) ==
      if FindTransaction(c, tx) == Some(removed) then None else FindTransaction(c, tx)
  {
  }

  lemma {:induction false} AddKeepsIndexed(c: Cache, info: Info, txs: seq<nat>)
    requires Indexed(c)
    ensures Indexed(AddBlock(c, info, txs)) <==> KeepsIndex(c, Add(info, txs))
  {
    hide AddBlock, Lists, FindTransaction;
    var next := AddBlock(c, info, txs);
    forall tx, hash
      ensures Lists(next, hash, tx) <==> if hash == info.hash then tx in txs else Lists(c, hash, tx)
      ensures FindTransaction(next, tx) == if tx in txs then Some(info.hash) else FindTransaction(c, tx)
    {
      AddIndexes(c, info, txs, tx, hash);
    }
    if KeepsIndex(c, Add(info, txs)) {
      forall tx: nat, hash: nat ensures FindTransaction(next, tx) == Some(hash) <==> Lists(next, hash, tx) {
        assert FindTransaction(c, tx) == Some(hash) <==> Lists(c, hash, tx);
      }
    }
    if Indexed(next) {
      forall tx: nat | Lists(c, info.hash, tx) ensures tx in txs {
        assert FindTransaction(c, tx) == Some(info.hash);
        assert FindTransaction(next, tx) == Some(info.hash) <==> Lists(next, info.hash, tx);
      }
      forall tx: nat, hash: nat | tx in txs && hash != info.hash ensures !Lists(c, hash, tx) {
        assert FindTransaction(next, tx) == Some(hash) <==> Lists(next, hash, tx);
      }
    }
  }

  /** A step keeps the index exactly if the block that is added lets it. */
  lemma {:induction false} StepKeepsIndexed(c: Cache, e: Event)
    requires Indexed(c)
    ensures Indexed(Step(c, e)) <==> KeepsIndex(c, e)
  {
    hide AddBlock, RemoveBlock, Lists, FindTransaction, KeepsIndex;
    match e {
      case Add(info, txs) => AddKeepsIndexed(c, info, txs);
      case Remove(removed) =>
        NotAdding(c, e);
        var next := RemoveBlock(c, removed);
        forall tx: nat, hash: nat ensures FindTransaction(next, tx) == Some(hash) <==> Lists(next, hash, tx) {
          RemoveIndexes(c, removed, tx, hash);
          assert FindTransaction(c, tx) == Some(hash) <==> Lists(c, hash, tx);
        }
      case Offer(info) =>
        NotAdding(c, e);
        SameIndex(c, info);
    }
  }

  lemma {:induction false} NotAdding(c: Cache, e: Event)
    ensures !e.Add? ==> KeepsIndex(c, e)
  {
  }

  lemma {:induction false} SameIndex(c: Cache, info: Info)
    requires Indexed(c)
    ensures Indexed(UpdateLatest(c, info))
  {
    var next := UpdateLatest(c, info);
    forall tx: nat, hash: nat ensures FindTransaction(next, tx) == Some(hash) <==> Lists(next, hash, tx) {
      assert FindTransaction(c, tx) == Some(hash) <==> Lists(c, hash, tx);
    }
  }

  ghost predicate AllKeepIndex(c: Cache, events: seq<Event>)
    decreases |events|
  {
    events == [] || (KeepsIndex(c, events[0]) && AllKeepIndex(Step(c, events[0]), events[1..]))
  }

  lemma {:induction false} RunKeepsIndexed(c: Cache, events: seq<Event>)
    requires Indexed(c) && AllKeepIndex(c, events)
    ensures Indexed(Run(c, events))
    decreases |events|
  {
    hide Indexed, KeepsIndex, Step;
    if events != [] {
      StepKeepsIndexed(c, events[0]);
      RunKeepsIndexed(Step(c, events[0]), events[1..]);
    }
  }

  /** Looking through the blocks one after the other. */
  function Scan(c: Cache, order: seq<nat>, tx: nat): Option<nat> {
    if order == [] then None
    else if Lists(c, order[0], tx) then Some(order[0])
    else Scan(c, order[1..], tx)
  }

  lemma {:induction false} ScanFinds(c: Cache, order: seq<nat>, tx: nat)
    ensures Scan(c, order, tx).Some? ==> Lists(c, Scan(c, order, tx).value, tx)
    ensures Scan(c, order, tx).None? ==> forall hash :: hash in order ==> !Lists(c, hash, tx)
  {
    if order != [] {
      ScanFinds(c, order[1..], tx);
      assert forall hash :: hash in order ==> hash == order[0] || hash in order[1..];
    }
  }

  /** The index gives what a scan of the cached blocks gives, in whatever order. */
  lemma {:induction false} FindIsScan(events: seq<Event>, order: seq<nat>, tx: nat)
    requires AllKeepIndex(Empty(), events)
    requires forall hash :: hash in Run(Empty(), events).entries ==> hash in order
    ensures FindTransaction(Run(Empty(), events), tx) == Scan(Run(Empty(), events), order, tx)
  {
    hide Run, AllKeepIndex, FindTransaction, Scan;
    var c := Run(Empty(), events);
    EmptyIsIndexed();
    RunKeepsIndexed(Empty(), events);
    ScanFinds(c, order, tx);
    var found, scanned := FindTransaction(c, tx), Scan(c, order, tx);
    if found.Some? {
      assert Lists(c, found.value, tx);
    }
    if scanned.Some? {
      assert found == Some(scanned.value);
    }
  }

  lemma {:induction false} EmptyIsIndexed()
    ensures Indexed(Empty()) && Consistent(Empty())
  {
  }

  /** A transaction in two blocks is lost when the block that came second goes. */
  lemma {:induction false} SharedTransactionIsLost(c: Cache, info: Info, tx: nat, other: nat)
    requires Lists(c, other, tx) && other != info.hash
    ensures
      var end := Run(c, [Add(info, [tx]), Remove(info.hash)]);
      Lists(end, other, tx) && FindTransaction(end, tx) == None
  {
    var c1 := Step(c, Add(info, [tx]));
    var c2 := Step(c1, Remove(info.hash));
    assert [Add(info, [tx]), Remove(info.hash)][1..] == [Remove(info.hash)];
    assert [Remove(info.hash)][1..] == [];
    assert Run(c2, []) == c2;
    assert Run(c1, [Remove(info.hash)]) == Run(c2, []);
  }

  // ---------- The latest block ----------

  function Offered(events: seq<Event>): seq<Info> {
    if events == [] then []
    else (if events[0].Offer? then [events[0].info] else []) + Offered(events[1..])
  }

  predicate FirstLargest(offers: seq<Info>, i: nat)
    requires i < |offers|
  {
    && (forall j :: 0 <= j < |offers| ==> offers[j].timestamp <= offers[i].timestamp)
    && (forall j :: 0 <= j < i ==> offers[j].timestamp < offers[i].timestamp)
  }

  /** The first of the offers with the largest timestamp. */
  ghost predicate IsLatest(latest: Option<Info>, offers: seq<Info>) {
    if offers == [] then latest == None
    else latest.Some? && exists i :: 0 <= i < |offers| && offers[i] == latest.value && FirstLargest(offers, i)
  }

  lemma {:induction false} OneMoreOffer(c: Cache, offers: seq<Info>, info: Info)
    requires IsLatest(c.latest, offers)
    ensures IsLatest(UpdateLatest(c, info).latest, offers + [info])
  {
    var all := offers + [info];
    assert all[|offers|] == info;
    if offers == [] {
      assert FirstLargest(all, 0);
    } else {
      var i :| 0 <= i < |offers| && offers[i] == c.latest.value && FirstLargest(offers, i);
      assert all[i] == offers[i];
      if offers[i].timestamp < info.timestamp {
        assert FirstLargest(all, |offers|);
      } else {
        assert FirstLargest(all, i);
      }
    }
  }

  lemma {:induction false} NoOffer(c: Cache, e: Event)
    requires !e.Offer?
    ensures Step(c, e).latest == c.latest
  {
  }

  lemma {:induction false} RunKeepsLatest(c: Cache, offers: seq<Info>, events: seq<Event>)
    requires IsLatest(c.latest, offers)
    ensures IsLatest(Run(c, events).latest, offers + Offered(events))
    decreases |events|
  {
    hide IsLatest, AddBlock, RemoveBlock, UpdateLatest;
    if events == [] {
      assert offers + [] == offers;
    } else {
      var e := events[0];
      if e.Offer? {
        OneMoreOffer(c, offers, e.info);
        RunKeepsLatest(Step(c, e), offers + [e.info], events[1..]);
        assert offers + [e.info] + Offered(events[1..]) == offers + Offered(events);
      } else {
        NoOffer(c, e);
        RunKeepsLatest(Step(c, e), offers, events[1..]);
        assert Offered(events) == [] + Offered(events[1..]) == Offered(events[1..]);
      }
    }
  }

  /** Whatever else happens, the latest block is the first of those offered with the largest timestamp. */
  lemma {:induction false} LatestIsLargest(events: seq<Event>)
    ensures IsLatest(Run(Empty(), events).latest, Offered(events))
  {
    RunKeepsLatest(Empty(), [], events);
    assert [] + Offered(events) == Offered(events);
  }

  // ---------- The same, updated in place ----------

  class Blocks {
    var heights: map<nat, nat>
    var entries: map<nat, seq<nat>>
    var blockOf: map<nat, nat>
    var blocks: map<nat, Info>
    var latest: Option<Info>

    ghost function Abs(): Cache
      reads this
    {
      Cache(heights, entries, blockOf, blocks, latest)
    }

    constructor ()
      ensures Abs() == Empty()
    {
      heights, entries, blockOf, blocks, latest := map[], map[], map[], map[], None;
    }

    method UpdateLatestInfo(info: Info) returns (changed: bool)
      modifies this
      ensures Abs() == Step(old(Abs()), Offer(info))
      ensures changed <==> old(latest).None? || old(latest).value.timestamp < info.timestamp
    {
      if latest.None? || latest.value.timestamp < info.timestamp {
        latest := Some(info);
        return true;
      }
      return false;
    }

    method IndexTransactions(txs: seq<nat>, hash: nat)
      modifies this`blockOf
      ensures blockOf == old(blockOf) + map tx | tx in txs :: hash
    {
      for i := 0 to |txs|
        invariant blockOf == old(blockOf) + map tx | tx in txs[..i] :: hash
      {
        assert txs[..i + 1] == txs[..i] + [txs[i]];
        blockOf := blockOf[txs[i] := hash];
      }
      assert txs[..|txs|] == txs;
    }

    method Insert(info: Info, txs: seq<nat>)
      modifies this
      ensures Abs() == Step(old(Abs()), Add(info, txs))
    {
      heights := SetHeight(heights, info.height, info.hash);
      IndexTransactions(txs, info.hash);
      entries := entries[info.hash := txs];
      blocks := blocks[info.hash := info];
    }

    method Delete(hash: nat)
      modifies this
      ensures Abs() == Step(old(Abs()), Remove(hash))
    {
      heights := map h | h in heights && heights[h] != hash :: heights[h];
      entries := entries - {hash};
      blockOf := map tx | tx in blockOf && blockOf[tx] != hash :: blockOf[tx];
      blocks := blocks - {hash};
    }

    /** The blocks not updated for too long; `order` lists the cached blocks. */
    method StaleBlocks(now: int, order: seq<nat>) returns (stale: seq<nat>)
      requires forall hash :: hash in order <==> hash in blocks
      ensures forall hash :: hash in stale <==> hash in blocks && now - blocks[hash].updated > 3 * 60 * 1_000_000_000
    {
      stale := [];
      for i := 0 to |order|
        invariant forall hash :: hash in stale <==> hash in order[..i] && IsStale(blocks[hash], now)
      {
        var hash := order[i];
        assert order[..i + 1] == order[..i] + [hash];
        assert hash in order;
        if IsStale(blocks[hash], now) {
          stale := stale + [hash];
        }
      }
      assert order[..|order|] == order;
    }

    method DeleteAll(hashes: seq<nat>)
      modifies this
      ensures Abs() == Run(old(Abs()), Removals(hashes))
      ensures blocks == map hash | hash in old(blocks) && hash !in hashes :: old(blocks)[hash]
    {
      hide Step;
      ghost var before := Abs();
      for i := 0 to |hashes|
        invariant Run(Abs(), Removals(hashes[i..])) == Run(before, Removals(hashes))
        invariant blocks == map hash | hash in before.blocks && hash !in hashes[..i] :: before.blocks[hash]
      {
        assert hashes[i..][0] == hashes[i] && hashes[i..][1..] == hashes[i + 1..];
        assert hashes[..i + 1] == hashes[..i] + [hashes[i]];
        RemovedBlocks(Abs(), hashes[i]);
        Delete(hashes[i]);
      }
      assert hashes[..|hashes|] == hashes;
    }

    /** Exactly the blocks updated within the last three minutes stay. */
    method Cull(now: int, order: seq<nat>) returns (removed: seq<nat>)
      requires forall hash :: hash in order <==> hash in blocks
      modifies this
      ensures blocks == map hash | hash in old(blocks) && now - old(blocks)[hash].updated <= 3 * 60 * 1_000_000_000 :: old(blocks)[hash]
      ensures Abs() == Run(old(Abs()), Removals(removed))
    {
      removed := StaleBlocks(now, order);
      DeleteAll(removed);
    }
  }

  lemma {:induction false} RemovedBlocks(c: Cache, hash: nat)
    ensures Step(c, Remove(hash)).blocks == c.blocks - {hash}
  {
  }

  function Removals(hashes: seq<nat>): seq<Event> {
    if hashes == [] then [] else [Remove(hashes[0])] + Removals(hashes[1..])
  }
}
