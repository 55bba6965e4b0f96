/**
 No agent is lost or used twice when a document is applied, and the two maps of
 an environment keep telling the same story, except when a node changes kind.
 */
module EnvironmentProofs {
  import opened Wrappers
  import opened Text
  import opened Nodes
  import opened Pairing
  import opened PairingProofs
  import opened Environment

  // ---------- Replicas ----------

  /** Replicas of one node have different keys. */
  lemma {:induction false} ReplicaKeysDiffer(key: NodeKey, n: nat, i: nat, j: nat)
    requires i != j && n != 1
    ensures ReplicaKey(key, n, i) != ReplicaKey(key, n, j)
  {
    var prefix := if key.id == "" then "" else key.id + "-";
    DigitsRoundTrip(i);
    DigitsRoundTrip(j);
    assert (prefix + Digits(i))[|prefix|..] == Digits(i);
    assert (prefix + Digits(j))[|prefix|..] == Digits(j);
  }

  lemma {:induction false} ReplicaAt(key: NodeKey, node: Node, n: nat, i: nat)
    requires i < n
    ensures |Replicas(key, node, n)| == n
    ensures Replicas(key, node, n)[i] == (ReplicaKey(key, node.replicas.GetOr(1), i), Replica(node, i))
  {
    if i < n - 1 {
      ReplicaAt(key, node, n - 1, i);
    } else if n > 1 {
      ReplicaAt(key, node, n - 1, 0);
    }
  }

  // ---------- New and kept nodes ----------

  lemma {:induction false} PlaceKeys(peers: Peers, flat: seq<(NodeKey, Node)>)
    requires Place(peers, flat).Ok?
    ensures
      var p := Place(peers, flat).value;
      forall k :: (k in KeysOf(p.incoming) <==> k in KeysOf(flat) && k !in peers)
               && (k in p.updated <==> k in KeysOf(flat) && k in peers)
    ensures
      var p := Place(peers, flat).value;
      forall i, j :: 0 <= i < j < |p.incoming| ==> p.incoming[i].0 != p.incoming[j].0
    decreases |flat|
  {
    if flat != [] {
      var front := flat[..|flat| - 1];
      PlaceKeys(peers, front);
      assert flat == front + [flat[|flat| - 1]];
      KeysGrow(front, flat[|flat| - 1]);
      KeysGrow(Place(peers, front).value.incoming, flat[|flat| - 1]);
      var p := Place(peers, front).value;
      if flat[|flat| - 1].0 !in peers {
        forall i | 0 <= i < |p.incoming| ensures p.incoming[i].0 != flat[|flat| - 1].0 {
          assert p.incoming[i].0 in KeysOf(p.incoming);
        }
      }
    }
  }

  // ---------- Maps ----------

  lemma {:induction false} InsertKeepsOneToOne(m: Peers, key: NodeKey, peer: Peer)
    requires OneToOne(m)
    ensures OneToOne(BiInsert(m, key, peer))
  {
  }

  lemma {:induction false} ExtendKeepsOneToOne(m: Peers, more: Peers)
    requires OneToOne(m) && OneToOne(more)
    ensures OneToOne(Extend(m, more))
  {
  }

  lemma {:induction false} PairPeersKeys(pairs: seq<Pair>)
    ensures PairPeers(pairs).Keys <= KeysOf(pairs)
    ensures forall k :: k in PairPeers(pairs) ==> PairPeers(pairs)[k].Internal? && exists i :: 0 <= i < |pairs| && pairs[i] == (k, PairPeers(pairs)[k].agent)
    decreases |pairs|
  {
    if pairs != [] {
      var front, last := pairs[..|pairs| - 1], pairs[|pairs| - 1];
      PairPeersKeys(front);
      assert pairs == front + [last];
      KeysGrow(front, last);
      forall k | k in PairPeers(pairs)
        ensures PairPeers(pairs)[k].Internal? && exists i :: 0 <= i < |pairs| && pairs[i] == (k, PairPeers(pairs)[k].agent)
      {
        if k == last.0 {
          assert pairs[|pairs| - 1] == (k, PairPeers(pairs)[k].agent);
        } else {
          var i :| 0 <= i < |front| && front[i] == (k, PairPeers(front)[k].agent);
          assert pairs[i] == front[i];
        }
      }
    }
  }

  predicate DistinctPairs(pairs: seq<Pair>) {
    forall i, j :: 0 <= i < j < |pairs| ==> pairs[i].0 != pairs[j].0 && pairs[i].1 != pairs[j].1
  }

  /** Pairs with different keys and agents are all there. */
  lemma {:induction false} PairPeersExact(pairs: seq<Pair>, i: nat)
    requires DistinctPairs(pairs) && i < |pairs|
    ensures pairs[i].0 in PairPeers(pairs) && PairPeers(pairs)[pairs[i].0] == Internal(pairs[i].1)
    decreases |pairs|
  {
    var front, last := pairs[..|pairs| - 1], pairs[|pairs| - 1];
    if i < |front| {
      PairPeersExact(front, i);
    }
  }

  lemma {:induction false} PairPeersOneToOne(pairs: seq<Pair>)
    ensures OneToOne(PairPeers(pairs)) && OnlyInternal(PairPeers(pairs))
    decreases |pairs|
  {
    if pairs != [] {
      PairPeersOneToOne(pairs[..|pairs| - 1]);
      InsertKeepsOneToOne(PairPeers(pairs[..|pairs| - 1]), pairs[|pairs| - 1].0, Internal(pairs[|pairs| - 1].1));
    }
  }

  /** External nodes are their own peers. */
  predicate OnlyInternal(m: Peers) {
    forall k :: k in m ==> m[k].Internal?
  }

  lemma {:induction false} ExternalsAdded(m: Peers, external: seq<(NodeKey, nat)>)
    requires OneToOne(m) && OnlyInternal(m) && KeysOf(external) !! m.Keys
    ensures
      var r := WithExternals(m, external);
      OneToOne(r) && r.Keys == m.Keys + KeysOf(external)
      && (forall k :: k in m ==> r[k] == m[k])
      && (forall k :: k in KeysOf(external) ==> r[k] == External(k))
    decreases |external|
  {
    if external == [] {
    } else {
      var front, last := external[..|external| - 1], external[|external| - 1];
      assert external == front + [last];
      KeysGrow(front, last);
      ExternalsAdded(m, front);
      InsertKeepsOneToOne(WithExternals(m, front), last.0, External(last.0));
    }
  }

  lemma {:induction false} NoClash(external: seq<(NodeKey, nat)>, keys: set<NodeKey>)
    ensures Clash(external, keys).None? <==> KeysOf(external) !! keys
  {
    if external != [] {
      NoClash(external[1..], keys);
      var rest := KeysOf(external[1..]);
      assert forall i :: 0 < i < |external| ==> external[i] == external[1..][i - 1];
      forall k | k in KeysOf(external) ensures k == external[0].0 || k in rest {
        var i :| 0 <= i < |external| && external[i].0 == k;
        if i > 0 {
          assert external[1..][i - 1].0 == k;
        }
      }
      forall k | k in rest ensures k in KeysOf(external) {
        var i :| 0 <= i < |external[1..]| && external[1..][i].0 == k;
        assert external[i + 1].0 == k;
      }
      assert external[0].0 in KeysOf(external);
    }
  }

  lemma {:induction false} InternalStatesKeys(incoming: seq<(NodeKey, Node)>)
    ensures InternalStates(incoming).Keys == KeysOf(incoming)
    ensures forall k :: k in InternalStates(incoming) ==> InternalStates(incoming)[k].InternalNode?
    decreases |incoming|
  {
    hide KeysOf;
    if incoming == [] {
      NoKeys<Node>();
    } else {
      var front := incoming[..|incoming| - 1];
      InternalStatesKeys(front);
      assert incoming == front + [incoming[|incoming| - 1]];
      KeysGrow(front, incoming[|incoming| - 1]);
    }
  }

  lemma {:induction false} ExternalStatesKeys(external: seq<(NodeKey, nat)>)
    ensures ExternalStates(external).Keys == KeysOf(external)
    ensures forall k :: k in ExternalStates(external) ==> ExternalStates(external)[k].ExternalNode?
    decreases |external|
  {
    hide KeysOf;
    if external == [] {
      NoKeys<nat>();
    } else {
      var front := external[..|external| - 1];
      ExternalStatesKeys(front);
      assert external == front + [external[|external| - 1]];
      KeysGrow(front, external[|external| - 1]);
    }
  }

  lemma {:induction false} NoKeys<T>()
    ensures KeysOf<T>([]) == {}
  {
  }

  lemma {:induction false} UpdatedAreInternal(peers: Peers, flat: seq<(NodeKey, Node)>)
    requires Place(peers, flat).Ok?
    ensures forall k :: k in Place(peers, flat).value.updated ==> Place(peers, flat).value.updated[k].InternalNode?
    decreases |flat|
  {
    if flat != [] {
      UpdatedAreInternal(peers, flat[..|flat| - 1]);
    }
  }

  // ---------- Applying ----------

  /** The agents that could be chosen are not those of nodes that stay. */
  predicate PoolIsFree(agents: seq<Mapping>, peers: Peers, agentKeys: set<NodeKey>) {
    forall i, k :: 0 <= i < |agents| && k in peers && peers[k] == Internal(agents[i].id) ==> k !in agentKeys
  }

  /** Delegation paired the new nodes of the document. */
  ghost predicate Delegated(agents: seq<Mapping>, labels: seq<nat>, peers: Peers, doc: Document, pairs: seq<Pair>) {
    && Place(peers, Flatten(doc.nodes)).Ok?
    && GoodPairs(agents, WantsOf(Place(peers, Flatten(doc.nodes)).value.incoming, labels), pairs)
    && PoolIsFree(agents, peers, KeysOf(Flatten(doc.nodes)))
  }

  lemma {:induction false} DelegatedPairs(agents: seq<Mapping>, labels: seq<nat>, peers: Peers, doc: Document, pairs: seq<Pair>)
    requires Delegated(agents, labels, peers, doc, pairs)
    ensures DistinctPairs(pairs)
    ensures KeysOf(pairs) == KeysOf(Place(peers, Flatten(doc.nodes)).value.incoming)
    ensures forall k :: k in peers && peers[k].Internal? && peers[k].agent in AgentsIn(pairs) ==>
      k !in KeysOf(Flatten(doc.nodes))
  {
    hide Place, Flatten, Fits, Suits;
    var incoming := Place(peers, Flatten(doc.nodes)).value.incoming;
    PlaceKeys(peers, Flatten(doc.nodes));
    assert forall i :: 0 <= i < |pairs| ==> pairs[i].0 == incoming[i].0;
    forall k | k in peers && peers[k].Internal? && peers[k].agent in AgentsIn(pairs) ensures k !in KeysOf(Flatten(doc.nodes)) {
      var i :| 0 <= i < |pairs| && pairs[i].1 == peers[k].agent;
      AgentListed(agents, WantsOf(incoming, labels)[i], pairs[i].1);
    }
  }

  lemma {:induction false} AgentListed(agents: seq<Mapping>, want: Want, agent: nat)
    requires Suits(agents, want, agent)
    ensures exists i :: 0 <= i < |agents| && agents[i].id == agent
  {
  }

  /** The nodes of the document with their new peers. */
  lemma {:induction false} IncomingPeers(pairs: seq<Pair>, external: seq<(NodeKey, nat)>)
    requires DistinctPairs(pairs) && KeysOf(external) !! KeysOf(pairs)
    ensures
      var inc := WithExternals(PairPeers(pairs), external);
      OneToOne(inc) && inc.Keys == KeysOf(pairs) + KeysOf(external)
      && (forall i :: 0 <= i < |pairs| ==> inc[pairs[i].0] == Internal(pairs[i].1))
      && (forall k :: k in KeysOf(external) ==> inc[k] == External(k))
      && (forall k :: k in inc && inc[k].Internal? ==> inc[k].agent in AgentsIn(pairs))
  {
    hide PairPeers, WithExternals;
    PairPeersOneToOne(pairs);
    PairPeersKeys(pairs);
    ExternalsAdded(PairPeers(pairs), external);
    var inc := WithExternals(PairPeers(pairs), external);
    forall i | 0 <= i < |pairs| ensures pairs[i].0 in PairPeers(pairs) && PairPeers(pairs)[pairs[i].0] == Internal(pairs[i].1) {
      PairPeersExact(pairs, i);
    }
    assert PairPeers(pairs).Keys == KeysOf(pairs);
    forall k | k in inc && inc[k].Internal? ensures inc[k].agent in AgentsIn(pairs) {
      assert k in PairPeers(pairs);
      var i :| 0 <= i < |pairs| && pairs[i] == (k, PairPeers(pairs)[k].agent);
    }
  }

  /** A node that keeps its agent and is also listed as external. */
  predicate Shadowed(peers: Peers, doc: Document, k: NodeKey) {
    k in peers && peers[k].Internal? && k in KeysOf(Flatten(doc.nodes)) && k in KeysOf(doc.external)
  }

  lemma {:induction false} AgentsAfter(kept: Peers, inc: Peers, claimed: set<nat>, a: nat)
    requires forall k :: k in inc && inc[k].Internal? ==> inc[k].agent in claimed
    requires forall c :: c in claimed ==> exists k :: k in inc && inc[k] == Internal(c)
    requires forall k :: k in kept && kept[k].Internal? ==> kept[k].agent !in claimed
    ensures a in AgentsOf(Extend(kept, inc)) <==>
      a in claimed || exists k :: k in kept && k !in inc && kept[k] == Internal(a)
  {
    var all := Extend(kept, inc);
    if a in AgentsOf(all) {
      var k :| k in all && all[k].Internal? && all[k].agent == a;
      if k !in inc {
        assert k in kept && kept[k] == Internal(a);
      }
    }
    if a in claimed {
      var k :| k in inc && inc[k] == Internal(a);
      assert k in all && all[k] == Internal(a);
    }
    if k :| k in kept && k !in inc && kept[k] == Internal(a) {
      assert k in all && all[k] == Internal(a);
    }
  }

  /** What applying a document leaves, said agent by agent. */
  lemma {:induction false} AgentsApplied(
    peers: Peers, states: map<NodeKey, NodeState>, doc: Document, agents: seq<Mapping>, labels: seq<nat>,
    pairs: seq<Pair>, a: nat)
    requires Delegated(agents, labels, peers, doc, pairs) && Applied(peers, states, doc, Ok(pairs)).Ok?
    ensures
      var u := Applied(peers, states, doc, Ok(pairs)).value;
      && (a in AgentsOf(u.peers) <==> a in AgentsIn(pairs) || KeptAgent(peers, doc, a))
      && (a in u.inventory <==> a !in AgentsIn(pairs) && RemovedAgent(peers, doc, a))
  {
    hide Place, Flatten, PairPeers, WithExternals, Extend, GoodPairs;
    var flat := Flatten(doc.nodes);
    var kept := Kept(peers, KeysOf(flat), KeysOf(doc.external));
    var inc := WithExternals(PairPeers(pairs), doc.external);
    DelegatedPairs(agents, labels, peers, doc, pairs);
    NoClash(doc.external, KeysOf(Place(peers, flat).value.incoming));
    IncomingPeers(pairs, doc.external);
    PlaceKeys(peers, flat);
    forall c | c in AgentsIn(pairs) ensures exists k :: k in inc && inc[k] == Internal(c) {
      var i :| 0 <= i < |pairs| && pairs[i].1 == c;
      assert pairs[i].0 in KeysOf(pairs);
      assert inc[pairs[i].0] == Internal(c);
    }
    AgentsAfter(kept, inc, AgentsIn(pairs), a);
    if k :| k in kept && k !in inc && kept[k] == Internal(a) {
      assert KeptAt(peers, doc, k, a);
    }
    if k :| KeptAt(peers, doc, k, a) {
      assert k in kept && k !in inc && kept[k] == Internal(a);
    }
  }

  /** The node stays, and no external node takes its key. */
  predicate KeptAt(peers: Peers, doc: Document, k: NodeKey, a: nat) {
    k in peers && peers[k] == Internal(a) && k in KeysOf(Flatten(doc.nodes)) && k !in KeysOf(doc.external)
  }

  ghost predicate KeptAgent(peers: Peers, doc: Document, a: nat) {
    exists k :: KeptAt(peers, doc, k, a)
  }

  ghost predicate RemovedAgent(peers: Peers, doc: Document, a: nat) {
    exists k :: k in peers && peers[k] == Internal(a) && k !in KeysOf(Flatten(doc.nodes))
  }

  /** A node never shares its peer, and no agent both has a node and goes to the inventory. */
  lemma {:induction false} NoAgentTwice(
    peers: Peers, states: map<NodeKey, NodeState>, doc: Document, agents: seq<Mapping>, labels: seq<nat>, pairs: seq<Pair>)
    requires OneToOne(peers) && Delegated(agents, labels, peers, doc, pairs)
    requires Applied(peers, states, doc, Ok(pairs)).Ok?
    ensures
      var u := Applied(peers, states, doc, Ok(pairs)).value;
      OneToOne(u.peers) && AgentsOf(u.peers) !! u.inventory
  {
    var u := Applied(peers, states, doc, Ok(pairs)).value;
    OneToOneApplied(peers, states, doc, agents, labels, pairs);
    hide Place, Flatten, PairPeers, WithExternals, Extend, Delegated, Applied, AgentsOf;
    forall a | a in u.inventory ensures a !in AgentsOf(u.peers) {
      AgentsApplied(peers, states, doc, agents, labels, pairs, a);
    }
  }

  lemma {:induction false} OneToOneApplied(
    peers: Peers, states: map<NodeKey, NodeState>, doc: Document, agents: seq<Mapping>, labels: seq<nat>, pairs: seq<Pair>)
    requires OneToOne(peers) && Delegated(agents, labels, peers, doc, pairs)
    requires Applied(peers, states, doc, Ok(pairs)).Ok?
    ensures OneToOne(Applied(peers, states, doc, Ok(pairs)).value.peers)
  {
    hide Place, Flatten, PairPeers, WithExternals, Extend, GoodPairs;
    var flat := Flatten(doc.nodes);
    var kept := Kept(peers, KeysOf(flat), KeysOf(doc.external));
    DelegatedPairs(agents, labels, peers, doc, pairs);
    NoClash(doc.external, KeysOf(Place(peers, flat).value.incoming));
    IncomingPeers(pairs, doc.external);
    ExtendKeepsOneToOne(kept, WithExternals(PairPeers(pairs), doc.external));
  }

  /**
   No agent is lost: those of the old nodes and those just claimed are those of
   the new nodes and those going to the inventory, unless a node that keeps its
   agent is listed as external too, and then only.
   */
  lemma {:induction false} AgentsConserved(
    peers: Peers, states: map<NodeKey, NodeState>, doc: Document, agents: seq<Mapping>, labels: seq<nat>, pairs: seq<Pair>)
    requires OneToOne(peers) && Delegated(agents, labels, peers, doc, pairs)
    requires Applied(peers, states, doc, Ok(pairs)).Ok?
    ensures
      var u := Applied(peers, states, doc, Ok(pairs)).value;
      AgentsOf(u.peers) + u.inventory == AgentsOf(peers) + AgentsIn(pairs) <==> forall k :: !Shadowed(peers, doc, k)
  {
    hide Flatten, Applied, AgentsIn, KeysOf, Delegated;
    var u := Applied(peers, states, doc, Ok(pairs)).value;
    var before, after := AgentsOf(peers) + AgentsIn(pairs), AgentsOf(u.peers) + u.inventory;
    forall a ensures a in after <==> a in AgentsIn(pairs) || KeptAgent(peers, doc, a) || RemovedAgent(peers, doc, a) {
      AgentsApplied(peers, states, doc, agents, labels, pairs, a);
    }
    DelegatedPairs(agents, labels, peers, doc, pairs);
    if k :| Shadowed(peers, doc, k) {
      var a := peers[k].agent;
      assert a in before;
      assert a !in after;
    } else {
      forall a | a in before ensures a in after {
        if a !in AgentsIn(pairs) {
          var k :| k in peers && peers[k] == Internal(a);
          assert !Shadowed(peers, doc, k);
          assert KeptAt(peers, doc, k, a) || RemovedAgent(peers, doc, a);
        }
      }
      forall a | a in after ensures a in before {
        if KeptAgent(peers, doc, a) {
          var k :| KeptAt(peers, doc, k, a);
        }
      }
    }
  }

  // ---------- Peers and states ----------

  /** Both maps have the same nodes, of the same kinds. */
  predicate Agree(peers: Peers, states: map<NodeKey, NodeState>) {
    peers.Keys == states.Keys && forall k :: k in peers ==> (peers[k].Internal? <==> states[k].InternalNode?)
  }

  /** An external node that the document lists among those for agents. */
  predicate BecomesInternal(peers: Peers, doc: Document, k: NodeKey) {
    k in peers && peers[k].External? && k in KeysOf(Flatten(doc.nodes))
  }

  predicate ExternalPeers(peers: Peers) {
    forall k :: k in peers && peers[k].External? ==> peers[k] == External(k)
  }

  /** The keys and kinds of the new peers. */
  lemma {:induction false} PeerAfter(
    peers: Peers, states: map<NodeKey, NodeState>, doc: Document, agents: seq<Mapping>, labels: seq<nat>,
    pairs: seq<Pair>, k: NodeKey)
    requires ExternalPeers(peers) && Delegated(agents, labels, peers, doc, pairs) && Applied(peers, states, doc, Ok(pairs)).Ok?
    ensures
      var u := Applied(peers, states, doc, Ok(pairs)).value.peers;
      var flat, external := KeysOf(Flatten(doc.nodes)), KeysOf(doc.external);
      && (k in u <==> k in external || (k in flat && (k in peers ==> peers[k].Internal?)))
      && (k in u ==> (u[k].Internal? <==> k !in external))
  {
    hide Place, Flatten, PairPeers, WithExternals, GoodPairs;
    var flat := Flatten(doc.nodes);
    DelegatedPairs(agents, labels, peers, doc, pairs);
    NoClash(doc.external, KeysOf(Place(peers, flat).value.incoming));
    IncomingPeers(pairs, doc.external);
    PlaceKeys(peers, flat);
    var kept, inc := Kept(peers, KeysOf(flat), KeysOf(doc.external)), WithExternals(PairPeers(pairs), doc.external);
    assert k in inc <==> k in KeysOf(pairs) || k in KeysOf(doc.external);
    if k in kept && k !in inc {
      forall l | l in inc ensures kept[k] != inc[l] {
      }
    }
    if k in KeysOf(pairs) {
      var i :| 0 <= i < |pairs| && pairs[i].0 == k;
      assert inc[k] == Internal(pairs[i].1);
    }
  }

  /** The keys and kinds of the new states. */
  lemma {:induction false} StateAfter(
    peers: Peers, states: map<NodeKey, NodeState>, doc: Document, pairs: seq<Pair>, k: NodeKey)
    requires Agree(peers, states) && Applied(peers, states, doc, Ok(pairs)).Ok?
    ensures
      var s := Applied(peers, states, doc, Ok(pairs)).value.states;
      var flat, external := KeysOf(Flatten(doc.nodes)), KeysOf(doc.external);
      && (k in s <==> k in external || k in flat)
      && (k in s ==> (s[k].InternalNode? <==> k in flat))
  {
    hide Place, Flatten, PairPeers, WithExternals, Extend, InternalStates, ExternalStates;
    var flat := Flatten(doc.nodes);
    var placed := Place(peers, flat).value;
    PlaceKeys(peers, flat);
    UpdatedAreInternal(peers, flat);
    InternalStatesKeys(placed.incoming);
    ExternalStatesKeys(doc.external);
    NoClash(doc.external, KeysOf(placed.incoming));
  }

  /** The two maps agree afterwards exactly if no external node becomes internal and none shadows an agent's node. */
  lemma {:induction false} MapsKeepAgreeing(
    peers: Peers, states: map<NodeKey, NodeState>, doc: Document, agents: seq<Mapping>, labels: seq<nat>, pairs: seq<Pair>)
    requires ExternalPeers(peers) && Agree(peers, states)
    requires Delegated(agents, labels, peers, doc, pairs) && Applied(peers, states, doc, Ok(pairs)).Ok?
    ensures
      var u := Applied(peers, states, doc, Ok(pairs)).value;
      Agree(u.peers, u.states) <==> forall k :: !Shadowed(peers, doc, k) && !BecomesInternal(peers, doc, k)
  {
    hide Flatten, Applied, KeysOf, Delegated;
    var u := Applied(peers, states, doc, Ok(pairs)).value;
    forall k ensures
      Shadowed(peers, doc, k) || BecomesInternal(peers, doc, k) <==>
        !((k in u.peers <==> k in u.states) && (k in u.peers ==> (u.peers[k].Internal? <==> u.states[k].InternalNode?)))
    {
      PeerAfter(peers, states, doc, agents, labels, pairs, k);
      StateAfter(peers, states, doc, pairs, k);
      NewAreNotExternal(peers, states, doc, pairs, k);
    }
    if Agree(u.peers, u.states) {
      forall k ensures !Shadowed(peers, doc, k) && !BecomesInternal(peers, doc, k) {
        assert k in u.peers <==> k in u.states;
      }
    }
  }

  lemma {:induction false} NewAreNotExternal(
    peers: Peers, states: map<NodeKey, NodeState>, doc: Document, pairs: seq<Pair>, k: NodeKey)
    requires Applied(peers, states, doc, Ok(pairs)).Ok?
    ensures k in KeysOf(Flatten(doc.nodes)) && k !in peers ==> k !in KeysOf(doc.external)
  {
    hide Place, Flatten;
    PlaceKeys(peers, Flatten(doc.nodes));
    NoClash(doc.external, KeysOf(Place(peers, Flatten(doc.nodes)).value.incoming));
  }

  // ---------- What goes wrong otherwise ----------

  /** A document of one node without replicas, and one external node. */
  lemma {:induction false} OneNode(k: NodeKey, node: Node)
    requires node.replicas == None
    ensures Flatten([(k, node)]) == [(k, Replica(node, 0))]
    ensures KeysOf([(k, Replica(node, 0))]) == {k}
  {
    var entry := [(k, node)];
    assert entry[..0] == [] && entry[|entry| - 1] == (k, node);
    assert Replicas(k, node, 0) == [];
    assert Replicas(k, node, 1) == [] + [(k, Replica(node, 0))];
    assert Flatten(entry[..0]) == [];
    assert Flatten(entry) == [] + Replicas(k, node, 1);
    assert [(k, Replica(node, 0))][0].0 == k;
  }

  lemma {:induction false} KnownNodeIsUpdated(peers: Peers, k: NodeKey, node: Node)
    requires k in peers
    ensures Place(peers, [(k, node)]) == Ok(Placed([], map[k := InternalNode(node)]))
  {
    var flat := [(k, node)];
    assert flat[..0] == [] && flat[|flat| - 1] == (k, node);
    assert Place(peers, flat[..0]) == Ok(Placed([], map[]));
  }

  lemma {:induction false} OneExternal(k: NodeKey, e: nat)
    ensures WithExternals(PairPeers([]), [(k, e)]) == map[k := External(k)]
    ensures Clash([(k, e)], KeysOf<Node>([])) == None
  {
    var external := [(k, e)];
    assert external[..0] == [] && external[|external| - 1] == (k, e);
    assert KeysOf<Node>([]) == {};
    NoClash(external, {});
  }

  /** An agent is lost when its node is listed as external too: no check compares the two lists. */
  lemma {:induction false} ShadowedAgentIsLost(k: NodeKey, a: nat, node: Node, state: NodeState, e: nat)
    requires node.replicas == None
    ensures
      var r := Applied(map[k := Internal(a)], map[k := state], Document([(k, node)], [(k, e)]), Ok([]));
      r.Ok? && r.value.peers == map[k := External(k)] && r.value.inventory == {}
  {
    hide Flatten, Place, WithExternals, Clash, ExternalStates, InternalStates;
    var peers: Peers := map[k := Internal(a)];
    OneNode(k, node);
    KnownNodeIsUpdated(peers, k, Replica(node, 0));
    OneExternal(k, e);
    assert Removed(peers, {k}) == {};
  }

  lemma {:induction false} FlattenAppend(a: seq<(NodeKey, Node)>, b: seq<(NodeKey, Node)>)
    ensures Flatten(a + b) == Flatten(a) + Flatten(b)
    decreases |b|
  {
    hide Replicas, ReplicaCount;
    if b == [] {
      assert a + b == a;
      assert Flatten(a) + Flatten(b) == Flatten(a);
    } else {
      var front, last := b[..|b| - 1], b[|b| - 1];
      FlattenAppend(a, front);
      assert (a + b)[..|a + b| - 1] == a + front && (a + b)[|a + b| - 1] == last;
      var more := Replicas(last.0, last.1, ReplicaCount(last.1));
      assert Flatten(a + b) == (Flatten(a) + Flatten(front)) + more;
      assert (Flatten(a) + Flatten(front)) + more == Flatten(a) + (Flatten(front) + more);
    }
  }

  lemma {:induction false} NoReplicas(k: NodeKey, node: Node)
    requires node.replicas == Some(0)
    ensures Flatten([(k, node)]) == []
  {
    var entry := [(k, node)];
    assert entry[..0] == [] && entry[|entry| - 1] == (k, node);
    assert Flatten(entry[..0]) == [];
    assert Replicas(k, node, 0) == [];
  }

  /**
   A node with 0 replicas, wherever it stands, changes nothing: the document
   does what it does without that node.  The error the program has for it is
   raised inside the loop over the replicas.
   */
  lemma {:induction false} ZeroReplicasAreSkipped(
    peers: Peers, states: map<NodeKey, NodeState>, before: seq<(NodeKey, Node)>, k: NodeKey, node: Node,
    after: seq<(NodeKey, Node)>, external: seq<(NodeKey, nat)>, delegation: Result<seq<Pair>, seq<DelegationError>>)
    requires node.replicas == Some(0)
    ensures Applied(peers, states, Document(before + [(k, node)] + after, external), delegation)
         == Applied(peers, states, Document(before + after, external), delegation)
  {
    hide Flatten, Applied;
    var with := before + [(k, node)];
    FlattenAppend(before, [(k, node)]);
    NoReplicas(k, node);
    FlattenAppend(with, after);
    FlattenAppend(before, after);
    assert Flatten(before) + [] == Flatten(before);
    assert Flatten(with + after) == Flatten(before + after);
    SameFlat(peers, states, Document(with + after, external), Document(before + after, external), delegation);
  }

  lemma {:induction false} SameFlat(
    peers: Peers, states: map<NodeKey, NodeState>, doc: Document, other: Document,
    delegation: Result<seq<Pair>, seq<DelegationError>>)
    requires Flatten(doc.nodes) == Flatten(other.nodes) && doc.external == other.external
    ensures Applied(peers, states, doc, delegation) == Applied(peers, states, other, delegation)
  {
    hide Flatten, Place, PairPeers, WithExternals, Extend, InternalStates, ExternalStates, Clash;
  }

  // ---------- Pairing and applying ----------

  /** What the new nodes of a document want. */
  function WantsIn(peers: Peers, doc: Document, labels: seq<nat>): seq<Want> {
    match Place(peers, Flatten(doc.nodes))
    case Ok(placed) => WantsOf(placed.incoming, labels)
    case Err(_) => []
  }

  /** Pairing has run to its end, or has not begun. */
  predicate Ended(agents: seq<Mapping>, wants: seq<Want>, others: map<nat, nat>, acts: seq<Act>) {
    |agents| < |wants| || AllDone(Run(agents, wants, Start(wants, others), acts))
  }

  /**
   Under every schedule of the pairing and whatever strangers do meanwhile: a
   document is applied exactly if no new key comes twice, pairing succeeds, and no
   external node has the key of a new one.  Then every node has a peer of its own,
   no agent with a node goes to the inventory, and all agents are kept unless a
   node that keeps its agent is listed as external too.
   */
  lemma {:induction false} AppliedUnderEverySchedule(
    peers: Peers, states: map<NodeKey, NodeState>, doc: Document, agents: seq<Mapping>, labels: seq<nat>,
    others: map<nat, nat>, acts: seq<Act>)
    requires OneToOne(peers) && PoolIsFree(agents, peers, KeysOf(Flatten(doc.nodes)))
    requires AgentsThere(agents, others) && AgentsStay(acts) && Ended(agents, WantsIn(peers, doc, labels), others, acts)
    ensures
      var delegation := PairWithNodes(agents, WantsIn(peers, doc, labels), others, acts);
      var placed := Place(peers, Flatten(doc.nodes));
      Applied(peers, states, doc, delegation).Ok? <==>
        placed.Ok? && delegation.Ok? && KeysOf(doc.external) !! KeysOf(placed.value.incoming)
    ensures
      var delegation := PairWithNodes(agents, WantsIn(peers, doc, labels), others, acts);
      var r := Applied(peers, states, doc, delegation);
      r.Ok? ==>
        && OneToOne(r.value.peers) && AgentsOf(r.value.peers) !! r.value.inventory
        && AllKept(AgentsOf(peers) + AgentsIn(delegation.value), r.value, peers, doc)
  {
    var wants := WantsIn(peers, doc, labels);
    PairingIsSound(agents, wants, others, acts);
    var delegation := PairWithNodes(agents, wants, others, acts);
    var r := Applied(peers, states, doc, delegation);
    AppliedMeans(peers, states, doc, delegation);
    if r.Ok? {
      hide Applied, PairWithNodes, Flatten, Shadowed;
      NoAgentTwice(peers, states, doc, agents, labels, delegation.value);
      AgentsConserved(peers, states, doc, agents, labels, delegation.value);
    }
  }

  /** The agents there are go on exactly if no node is shadowed. */
  ghost predicate AllKept(before: set<nat>, u: Update, peers: Peers, doc: Document) {
    AgentsOf(u.peers) + u.inventory == before <==> forall k :: !Shadowed(peers, doc, k)
  }

  lemma {:induction false} AppliedMeans(
    peers: Peers, states: map<NodeKey, NodeState>, doc: Document, delegation: Result<seq<Pair>, seq<DelegationError>>)
    ensures
      var placed := Place(peers, Flatten(doc.nodes));
      Applied(peers, states, doc, delegation).Ok? <==>
        placed.Ok? && delegation.Ok? && KeysOf(doc.external) !! KeysOf(placed.value.incoming)
  {
    hide Flatten, Place, PairPeers, WithExternals, Extend, InternalStates, ExternalStates, Clash, KeysOf;
    var placed := Place(peers, Flatten(doc.nodes));
    if placed.Ok? {
      NoClash(doc.external, KeysOf(placed.value.incoming));
    }
  }
}
