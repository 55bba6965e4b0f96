/**
 What applying a document does for each of its nodes: a replica that is new to
 the environment gets the agent it names, or one that can run it and has its
 labels and key, and one the environment has keeps its agent and takes the new
 settings.
 */
module EnvironmentNodes {
  import opened Wrappers
  import opened Text
  import opened Nodes
  import opened Pairing
  import opened PairingProofs
  import opened Environment
  import opened EnvironmentProofs

  // ---------- Replicas ----------

  /** A node listed once, or with one replica, keeps its key; otherwise a number and perhaps a dash are added. */
  lemma {:induction false} ReplicaKeyMeans(key: NodeKey, i: nat)
    ensures ReplicaKey(key, 1, i) == key
    ensures forall n: nat :: n != 1 && key.id != "" ==> ReplicaKey(key, n, i) == NodeKey(key.ty, key.id + "-" + Digits(i), key.ns)
    ensures forall n: nat :: n != 1 && key.id == "" ==> ReplicaKey(key, n, i) == NodeKey(key.ty, Digits(i), key.ns)
    ensures DigitsValue(Digits(i)) == Some(i)
  {
    DigitsRoundTrip(i);
    assert "" + Digits(i) == Digits(i);
  }

  /** A replica takes its number as the index of a key that has none, and is otherwise its node. */
  lemma {:induction false} ReplicaMeans(node: Node, i: nat)
    ensures Replica(node, i).agent == node.agent && Replica(node, i).labels == node.labels && Replica(node, i).rest == node.rest
    ensures Replica(node, i).replicas == None
    ensures node.key == Some(Committee(None)) ==> Replica(node, i).key == Some(Committee(Some(i)))
    ensures node.key.Some? && node.key.value.Named? && node.key.value.index.None? ==>
      Replica(node, i).key == Some(Named(node.key.value.name, Some(i)))
    ensures
      !(node.key.Some? && (node.key.value.Committee? || node.key.value.Named?) && node.key.value.index.None?) ==>
        Replica(node, i).key == node.key
  {
  }

  /** One node becomes as many as it has replicas, one if it does not say, and never more than ten thousand. */
  lemma {:induction false} ReplicasAreCounted(before: seq<(NodeKey, Node)>, key: NodeKey, node: Node)
    ensures |Flatten(before + [(key, node)])| - |Flatten(before)| ==
      match node.replicas
      case None => 1
      case Some(n) => if n <= 10_000 then n else 10_000
  {
    var all := before + [(key, node)];
    assert all[..|all| - 1] == before && all[|all| - 1] == (key, node);
    if ReplicaCount(node) > 0 {
      ReplicaAt(key, node, ReplicaCount(node), 0);
    }
  }

  /** Every replica of every node is in the flattened list. */
  lemma {:induction false} ReplicaIsListed(nodes: seq<(NodeKey, Node)>, d: nat, i: nat) returns (n: nat)
    requires d < |nodes| && i < ReplicaCount(nodes[d].1)
    ensures n < |Flatten(nodes)|
    ensures Flatten(nodes)[n] == (ReplicaKey(nodes[d].0, nodes[d].1.replicas.GetOr(1), i), Replica(nodes[d].1, i))
    decreases |nodes|
  {
    hide ReplicaKey, Replica, ReplicaCount;
    var front, last := nodes[..|nodes| - 1], nodes[|nodes| - 1];
    if d < |front| {
      n := ReplicaIsListed(front, d, i);
    } else {
      ReplicaAt(last.0, last.1, ReplicaCount(last.1), i);
      n := |Flatten(front)| + i;
    }
  }

  // ---------- New nodes ----------

  lemma {:induction false} NewIsIncoming(peers: Peers, flat: seq<(NodeKey, Node)>, n: nat) returns (j: nat)
    requires Place(peers, flat).Ok? && n < |flat| && flat[n].0 !in peers
    ensures j < |Place(peers, flat).value.incoming| && Place(peers, flat).value.incoming[j] == flat[n]
    decreases |flat|
  {
    hide KeysOf;
    var front, last := flat[..|flat| - 1], flat[|flat| - 1];
    var p := Place(peers, front).value;
    if n < |front| {
      j := NewIsIncoming(peers, front, n);
    } else {
      j := |p.incoming|;
    }
  }

  lemma {:induction false} InternalStateAt(incoming: seq<(NodeKey, Node)>, j: nat)
    requires (forall a, b :: 0 <= a < b < |incoming| ==> incoming[a].0 != incoming[b].0) && j < |incoming|
    ensures incoming[j].0 in InternalStates(incoming) && InternalStates(incoming)[incoming[j].0] == InternalNode(incoming[j].1)
    decreases |incoming|
  {
    var front := incoming[..|incoming| - 1];
    if j < |front| {
      InternalStateAt(front, j);
    }
  }

  // ---------- The agents ----------

  /** The agents that can be chosen, with the masks they have for the labels in use. */
  function MappingsOf(pool: seq<(nat, Flags)>, labels: seq<nat>): (agents: seq<Mapping>)
    ensures |agents| == |pool|
  {
    seq(|pool|, i requires 0 <= i < |pool| => Mapping(pool[i].0, AgentMask(pool[i].1, labels)))
  }

  /** The labels in use are those of the new nodes. */
  ghost predicate LabelsOfNew(labels: seq<nat>, incoming: seq<(NodeKey, Node)>) {
    forall l :: l in labels <==> exists j :: 0 <= j < |incoming| && l in incoming[j].1.labels
  }

  /** An agent of the pool that can run the node: the one it names, or one with its key and all its labels. */
  predicate Serves(pool: seq<(nat, Flags)>, key: NodeKey, node: Node, agent: nat) {
    exists i :: 0 <= i < |pool| && pool[i].0 == agent && ServesWith(pool[i].1, key, node, agent)
  }

  predicate ServesWith(flags: Flags, key: NodeKey, node: Node, agent: nat) {
    && Supports(flags, key.ty)
    && match node.agent
       case Some(id) => agent == id
       case None => (node.key == Some(KeySource.Local) ==> flags.localKey) && node.labels <= flags.labels
  }

  lemma {:induction false} FittingServes(
    flags: Flags, incoming: seq<(NodeKey, Node)>, labels: seq<nat>, j: nat, agent: nat)
    requires LabelsOfNew(labels, incoming) && j < |incoming|
    requires Fits(WantsOf(incoming, labels)[j], Mapping(agent, AgentMask(flags, labels)))
    ensures ServesWith(flags, incoming[j].0, incoming[j].1, agent)
  {
    hide AgentMask, NodeMask, Supports;
    var (key, node) := incoming[j];
    MaskMeans(flags, key.ty, node.key == Some(KeySource.Local), node.labels, labels);
    forall l | l in node.labels ensures l in labels {
      assert l in incoming[j].1.labels;
    }
  }

  lemma {:induction false} SuitedIsServed(
    pool: seq<(nat, Flags)>, incoming: seq<(NodeKey, Node)>, labels: seq<nat>, j: nat, agent: nat)
    requires LabelsOfNew(labels, incoming) && j < |incoming|
    requires Suits(MappingsOf(pool, labels), WantsOf(incoming, labels)[j], agent)
    ensures Serves(pool, incoming[j].0, incoming[j].1, agent)
  {
    hide Fits, ServesWith, LabelsOfNew, AgentMask;
    var agents := MappingsOf(pool, labels);
    var i :| 0 <= i < |agents| && agents[i].id == agent && Fits(WantsOf(incoming, labels)[j], agents[i]);
    FittingServes(pool[i].1, incoming, labels, j, agent);
  }

  // ---------- Documents ----------

  /** The pairs are the peers of the new nodes. */
  lemma {:induction false} PairIsPeer(
    peers: Peers, states: map<NodeKey, NodeState>, doc: Document, agents: seq<Mapping>, labels: seq<nat>, pairs: seq<Pair>, j: nat)
    requires Delegated(agents, labels, peers, doc, pairs) && Applied(peers, states, doc, Ok(pairs)).Ok?
    requires j < |Place(peers, Flatten(doc.nodes)).value.incoming|
    ensures
      var incoming := Place(peers, Flatten(doc.nodes)).value.incoming;
      var u := Applied(peers, states, doc, Ok(pairs)).value;
      && |pairs| == |incoming| && Suits(agents, WantsOf(incoming, labels)[j], pairs[j].1)
      && incoming[j].0 in u.peers && u.peers[incoming[j].0] == Internal(pairs[j].1)
  {
    hide Place, Flatten, PairPeers, WithExternals, Suits;
    var incoming := Place(peers, Flatten(doc.nodes)).value.incoming;
    assert |pairs| == |incoming| && pairs[j].0 == incoming[j].0;
    DelegatedPairs(agents, labels, peers, doc, pairs);
    NoClash(doc.external, KeysOf(incoming));
    IncomingPeers(pairs, doc.external);
    assert pairs[j].0 in KeysOf(pairs);
  }

  lemma {:induction false} NewState(
    peers: Peers, states: map<NodeKey, NodeState>, doc: Document, pairs: seq<Pair>, j: nat)
    requires Applied(peers, states, doc, Ok(pairs)).Ok? && j < |Place(peers, Flatten(doc.nodes)).value.incoming|
    ensures
      var incoming := Place(peers, Flatten(doc.nodes)).value.incoming;
      var u := Applied(peers, states, doc, Ok(pairs)).value;
      incoming[j].0 in u.states && u.states[incoming[j].0] == InternalNode(incoming[j].1)
  {
    hide Place, Flatten, PairPeers, WithExternals, Extend, InternalStates, ExternalStates;
    var flat := Flatten(doc.nodes);
    var incoming := Place(peers, flat).value.incoming;
    PlaceKeys(peers, flat);
    NoClash(doc.external, KeysOf(incoming));
    ExternalStatesKeys(doc.external);
    InternalStateAt(incoming, j);
    assert incoming[j].0 in KeysOf(incoming);
  }

  /**
   Whenever a document is applied, under every schedule of the pairing: each
   replica of each of its nodes that is new to the environment has a peer, the
   agent the node names or one with its labels and key, which can run it either
   way; and its state is the node.
   */
  lemma {:induction false} NewNodesAreServed(
    peers: Peers, states: map<NodeKey, NodeState>, doc: Document, pool: seq<(nat, Flags)>, labels: seq<nat>,
    others: map<nat, nat>, acts: seq<Act>, d: nat, i: nat)
    requires PoolIsFree(MappingsOf(pool, labels), peers, KeysOf(Flatten(doc.nodes)))
    requires Place(peers, Flatten(doc.nodes)).Ok? ==> LabelsOfNew(labels, Place(peers, Flatten(doc.nodes)).value.incoming)
    requires AgentsThere(MappingsOf(pool, labels), others) && AgentsStay(acts)
    requires Ended(MappingsOf(pool, labels), WantsIn(peers, doc, labels), others, acts)
    requires d < |doc.nodes| && i < ReplicaCount(doc.nodes[d].1)
    ensures
      var r := Applied(peers, states, doc, PairWithNodes(MappingsOf(pool, labels), WantsIn(peers, doc, labels), others, acts));
      var (docKey, node) := doc.nodes[d];
      var key := ReplicaKey(docKey, node.replicas.GetOr(1), i);
      r.Ok? && key !in peers ==>
        && key in r.value.peers && r.value.peers[key].Internal? && Serves(pool, key, node, r.value.peers[key].agent)
        && key in r.value.states && r.value.states[key] == InternalNode(Replica(node, i))
  {
    hide Run, PairWithNodes, Applied, Flatten, Place, WantsOf, ReplicaKey, AgentMask, LabelsOfNew, Suits, Serves;
    var agents := MappingsOf(pool, labels);
    var wants := WantsIn(peers, doc, labels);
    PairingIsSound(agents, wants, others, acts);
    var delegation := PairWithNodes(agents, wants, others, acts);
    AppliedMeans(peers, states, doc, delegation);
    var n := ReplicaIsListed(doc.nodes, d, i);
    var (key, replica) := Flatten(doc.nodes)[n];
    if Applied(peers, states, doc, delegation).Ok? && key !in peers {
      var incoming := Place(peers, Flatten(doc.nodes)).value.incoming;
      var j := NewIsIncoming(peers, Flatten(doc.nodes), n);
      PairIsPeer(peers, states, doc, agents, labels, delegation.value, j);
      NewState(peers, states, doc, delegation.value, j);
      SuitedIsServed(pool, incoming, labels, j, delegation.value[j].1);
      ReplicaIsServed(pool, key, doc.nodes[d].1, i, delegation.value[j].1);
    }
  }

  lemma {:induction false} ReplicaIsServed(pool: seq<(nat, Flags)>, key: NodeKey, node: Node, i: nat, agent: nat)
    ensures Serves(pool, key, Replica(node, i), agent) <==> Serves(pool, key, node, agent)
  {
    forall f: Flags ensures ServesWith(f, key, Replica(node, i), agent) <==> ServesWith(f, key, node, agent) {
    }
  }

  // ---------- Nodes the environment has ----------

  /** The settings of a node come from the last place the document lists it. */
  lemma {:induction false} LastIsUpdated(peers: Peers, flat: seq<(NodeKey, Node)>, n: nat)
    requires Place(peers, flat).Ok? && n < |flat| && flat[n].0 in peers
    requires forall m :: n < m < |flat| ==> flat[m].0 != flat[n].0
    ensures flat[n].0 in Place(peers, flat).value.updated
    ensures Place(peers, flat).value.updated[flat[n].0] == InternalNode(flat[n].1)
    decreases |flat|
  {
    hide KeysOf;
    var front := flat[..|flat| - 1];
    if n < |front| {
      LastIsUpdated(peers, front, n);
    }
  }

  /** A node the environment has keeps its agent and gets the settings of the document. */
  lemma {:induction false} KnownNodesStay(
    peers: Peers, states: map<NodeKey, NodeState>, doc: Document, agents: seq<Mapping>, labels: seq<nat>, pairs: seq<Pair>, n: nat)
    requires OneToOne(peers) && Delegated(agents, labels, peers, doc, pairs) && Applied(peers, states, doc, Ok(pairs)).Ok?
    requires n < |Flatten(doc.nodes)| && Flatten(doc.nodes)[n].0 in peers && peers[Flatten(doc.nodes)[n].0].Internal?
    requires Flatten(doc.nodes)[n].0 !in KeysOf(doc.external)
    requires forall m :: n < m < |Flatten(doc.nodes)| ==> Flatten(doc.nodes)[m].0 != Flatten(doc.nodes)[n].0
    ensures
      var u := Applied(peers, states, doc, Ok(pairs)).value;
      var (key, node) := Flatten(doc.nodes)[n];
      && key in u.peers && u.peers[key] == peers[key]
      && key in u.states && u.states[key] == InternalNode(node)
  {
    hide Place, Flatten, PairPeers, WithExternals, GoodPairs, InternalStates, ExternalStates;
    var flat := Flatten(doc.nodes);
    var (key, node) := flat[n];
    var incoming := Place(peers, flat).value.incoming;
    LastIsUpdated(peers, flat, n);
    DelegatedPairs(agents, labels, peers, doc, pairs);
    NoClash(doc.external, KeysOf(incoming));
    IncomingPeers(pairs, doc.external);
    PlaceKeys(peers, flat);
    assert key in KeysOf(flat);
    var kept, inc := Kept(peers, KeysOf(flat), KeysOf(doc.external)), WithExternals(PairPeers(pairs), doc.external);
    assert key in kept && kept[key] == peers[key];
    forall l | l in inc ensures kept[key] != inc[l] {
    }
  }
}
