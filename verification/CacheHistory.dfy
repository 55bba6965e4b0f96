/**
 What a cache knows follows from what was put in: a height, a block or a
 transaction is as the last block that said something of it left it.
 */
module CacheHistory {
  import opened Wrappers
  import opened NetworkCache

  /** Something a cache can know: the block at a height, a block with its transactions, or the block of a transaction. */
  datatype Fact =
    | AtHeight(height: nat, hash: nat)
    | Cached(info: Info, txs: seq<nat>)
    | Holds(tx: nat, hash: nat)

  predicate Knows(c: Cache, fact: Fact) {
    match fact
    case AtHeight(height, hash) => height in c.heights && c.heights[height] == hash
    case Cached(info, txs) =>
      info.hash in c.blocks && c.blocks[info.hash] == info && info.hash in c.entries && c.entries[info.hash] == txs
    case Holds(tx, hash) => FindTransaction(c, tx) == Some(hash)
  }

  /** A block comes in that says so. */
  predicate Says(e: Event, fact: Fact) {
    e.Add? &&
    match fact
    case AtHeight(height, hash) => e.info.height == height && e.info.hash == hash
    case Cached(info, txs) => e.info == info && e.txs == txs
    case Holds(tx, hash) => e.info.hash == hash && tx in e.txs
  }

  /** A block comes in that may say something else, or the block goes. */
  predicate Overrides(e: Event, fact: Fact) {
    match e
    case Add(info, txs) =>
      (match fact
       case AtHeight(height, hash) => info.height == height || info.hash == hash
       case Cached(cached, _) => info.hash == cached.hash
       case Holds(tx, _) => tx in txs)
    case Remove(removed) =>
      (match fact
       case AtHeight(_, hash) => removed == hash
       case Cached(info, _) => removed == info.hash
       case Holds(_, hash) => removed == hash)
    case Offer(_) => false
  }

  /** The i-th event says so and nothing after it overrides that. */
  ghost predicate LastSaid(events: seq<Event>, i: nat, fact: Fact) {
    && i < |events| && Says(events[i], fact)
    && forall j :: i < j < |events| ==> !Overrides(events[j], fact)
  }

  lemma {:induction false} StepKnows(c: Cache, e: Event, fact: Fact)
    requires Consistent(c)
    ensures Knows(Step(c, e), fact) <==> Says(e, fact) || (Knows(c, fact) && !Overrides(e, fact))
  {
  }

  lemma {:induction false} RunAppend(c: Cache, events: seq<Event>, e: Event)
    ensures Run(c, events + [e]) == Step(Run(c, events), e)
    decreases |events|
  {
    hide Step;
    if events == [] {
      assert [] + [e] == [e] && [e][1..] == [];
    } else {
      assert (events + [e])[0] == events[0] && (events + [e])[1..] == events[1..] + [e];
      RunAppend(Step(c, events[0]), events[1..], e);
    }
  }

  lemma {:induction false} OneMoreSaid(events: seq<Event>, e: Event, fact: Fact)
    ensures
      (exists i: nat :: LastSaid(events + [e], i, fact)) <==>
        Says(e, fact) || ((exists i: nat :: LastSaid(events, i, fact)) && !Overrides(e, fact))
  {
    hide Says, Overrides;
    var all := events + [e];
    assert all[|events|] == e;
    if Says(e, fact) {
      assert LastSaid(all, |events|, fact);
    }
    if i: nat :| LastSaid(events, i, fact) && !Overrides(e, fact) {
      assert LastSaid(all, i, fact);
    }
    if i: nat :| LastSaid(all, i, fact) && !Says(e, fact) {
      assert all[i] == events[i];
      assert !Overrides(all[|events|], fact);
      forall j | i < j < |events| ensures !Overrides(events[j], fact) {
        assert all[j] == events[j];
      }
      assert LastSaid(events, i, fact);
    }
  }

  /** A cache knows something exactly if a block said so and nothing has overridden it since. */
  lemma {:induction false} KnowsLastSaid(events: seq<Event>, fact: Fact)
    ensures Knows(Run(Empty(), events), fact) <==> exists i: nat :: LastSaid(events, i, fact)
    decreases |events|
  {
    hide Step, Knows, Says, Overrides, Consistent;
    if events == [] {
      NothingKnown(fact);
    } else {
      var front, e := events[..|events| - 1], events[|events| - 1];
      assert events == front + [e];
      KnowsLastSaid(front, fact);
      EmptyIsIndexed();
      RunKeepsConsistent(Empty(), front);
      RunAppend(Empty(), front, e);
      StepKnows(Run(Empty(), front), e, fact);
      OneMoreSaid(front, e, fact);
    }
  }

  lemma {:induction false} NothingKnown(fact: Fact)
    ensures !Knows(Run(Empty(), []), fact)
  {
  }

  /** No two heights have the same block. */
  lemma {:induction false} HeightsDiffer(events: seq<Event>, h: nat, k: nat)
    requires
      var c := Run(Empty(), events);
      h in c.heights && k in c.heights && c.heights[h] == c.heights[k]
    ensures h == k
  {
    hide Run;
    EmptyIsIndexed();
    RunKeepsConsistent(Empty(), events);
  }
}
