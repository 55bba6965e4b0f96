/**
 Applying a document of nodes to an environment: replicas are flattened, nodes
 that are no longer listed go, new nodes are paired with agents, and agents that
 are left over go back to the inventory.
 */
module Environment {
  import opened Wrappers
  import opened Text
  import opened Nodes
  import opened Pairing

  // ---------- Documents ----------

  datatype KeySource = Local | Committee(index: Option<nat>) | Named(name: nat, index: Option<nat>) | Literal(key: nat)

  /** A node of a document; `rest` stands for what delegation does not look at. */
  datatype Node = Node(replicas: Option<nat>, key: Option<KeySource>, agent: Option<nat>, labels: set<nat>, rest: nat)

  datatype NodeState = InternalNode(node: Node) | ExternalNode(external: nat)

  datatype Peer = Internal(agent: nat) | External(key: NodeKey)

  type Peers = map<NodeKey, Peer>

  datatype Document = Document(nodes: seq<(NodeKey, Node)>, external: seq<(NodeKey, nat)>)

  const MAX_REPLICAS: nat := 10000

  function WithIndex(key: KeySource, i: nat): KeySource {
    match key
    case Committee(None) => Committee(Some(i))
    case Named(name, None) => Named(name, Some(i))
    case _ => key
  }

  /** A single node keeps its key; a replica adds its number. */
  function ReplicaKey(key: NodeKey, replicas: nat, i: nat): NodeKey {
    if replicas == 1 then key
    else key.(id := (if key.id == "" then "" else key.id + "-") + Digits(i))
  }

  function Replica(node: Node, i: nat): Node {
    node.(replicas := None, key := match node.key case None => None case Some(k) => Some(WithIndex(k, i)))
  }

  function ReplicaCount(node: Node): nat {
    var n := node.replicas.GetOr(1);
    if n < MAX_REPLICAS then n else MAX_REPLICAS
  }

  /** The first n replicas of a node. */
  function Replicas(key: NodeKey, node: Node, n: nat): seq<(NodeKey, Node)> {
    if n == 0 then []
    else Replicas(key, node, n - 1) + [(ReplicaKey(key, node.replicas.GetOr(1), n - 1), Replica(node, n - 1))]
  }

  function Flatten(nodes: seq<(NodeKey, Node)>): seq<(NodeKey, Node)> {
    if nodes == [] then []
    else
      var last := nodes[|nodes| - 1];
      Flatten(nodes[..|nodes| - 1]) + Replicas(last.0, last.1, ReplicaCount(last.1))
  }

  function KeysOf<T>(entries: seq<(NodeKey, T)>): set<NodeKey> {
    set i | 0 <= i < |entries| :: entries[i].0
  }

  // ---------- New and kept nodes ----------

  datatype Placed = Placed(incoming: seq<(NodeKey, Node)>, updated: map<NodeKey, NodeState>)

  /** Nodes the environment has are updated, others are new; a new key may come once only. */
  function Place(peers: Peers, flat: seq<(NodeKey, Node)>): Result<Placed, NodeKey> {
    if flat == [] then
      Ok(Placed([], map[]))
    else
      var (key, node) := flat[|flat| - 1];
      match Place(peers, flat[..|flat| - 1])
      case Err(e) => Err(e)
      case Ok(p) =>
        if key in peers then Ok(p.(updated := p.updated[key := InternalNode(node)]))
        else if key in KeysOf(p.incoming) then Err(key)
        else Ok(p.(incoming := p.incoming + [(key, node)]))
  }

  function WantsOf(incoming: seq<(NodeKey, Node)>, labels: seq<nat>): seq<Want> {
    seq(|incoming|, i requires 0 <= i < |incoming| =>
      var (key, node) := incoming[i];
      match node.agent
      case Some(id) => ById(key, id)
      case None => ByMask(key, NodeMask(key.ty, node.key == Some(KeySource.Local), node.labels, labels)))
  }

  // ---------- One-to-one maps ----------

  predicate OneToOne(m: Peers) {
    forall k, l :: k in m && l in m && m[k] == m[l] ==> k == l
  }

  /** Insertion displaces the entries that have the same key or the same peer. */
  function BiInsert(m: Peers, key: NodeKey, peer: Peer): Peers {
    (map k | k in m && m[k] != peer :: m[k])[key := peer]
  }

  /** All of another map inserted. */
  function Extend(m: Peers, more: Peers): Peers {
    (map k | k in m && forall l :: l in more ==> m[k] != more[l] :: m[k]) + more
  }

  // ---------- Applying a document ----------

  datatype ApplyError = DuplicateNodeKey(key: NodeKey) | Delegation(errors: seq<DelegationError>)

  datatype Update = Update(peers: Peers, states: map<NodeKey, NodeState>, inventory: set<nat>)

  function AgentsOf(peers: Peers): set<nat> {
    set k | k in peers && peers[k].Internal? :: peers[k].agent
  }

  /** The nodes that stay: agents' nodes by the document's nodes, external ones by its external nodes. */
  predicate Stays(peers: Peers, agentKeys: set<NodeKey>, external: set<NodeKey>, k: NodeKey)
    requires k in peers
  {
    if peers[k].Internal? then k in agentKeys else k in external
  }

  function Kept(peers: Peers, agentKeys: set<NodeKey>, external: set<NodeKey>): Peers {
    map k | k in peers && Stays(peers, agentKeys, external, k) :: peers[k]
  }

  function Removed(peers: Peers, agentKeys: set<NodeKey>): set<nat> {
    set k | k in peers && peers[k].Internal? && k !in agentKeys :: peers[k].agent
  }

  function AgentsIn(pairs: seq<Pair>): set<nat> {
    set i | 0 <= i < |pairs| :: pairs[i].1
  }

  function PairPeers(pairs: seq<Pair>): Peers {
    if pairs == [] then map[]
    else BiInsert(PairPeers(pairs[..|pairs| - 1]), pairs[|pairs| - 1].0, Internal(pairs[|pairs| - 1].1))
  }

  function WithExternals(peers: Peers, external: seq<(NodeKey, nat)>): Peers {
    if external == [] then peers
    else
      var key := external[|external| - 1].0;
      BiInsert(WithExternals(peers, external[..|external| - 1]), key, External(key))
  }

  function InternalStates(incoming: seq<(NodeKey, Node)>): map<NodeKey, NodeState> {
    if incoming == [] then map[]
    else InternalStates(incoming[..|incoming| - 1])[incoming[|incoming| - 1].0 := InternalNode(incoming[|incoming| - 1].1)]
  }

  function ExternalStates(external: seq<(NodeKey, nat)>): map<NodeKey, NodeState> {
    if external == [] then map[]
    else ExternalStates(external[..|external| - 1])[external[|external| - 1].0 := ExternalNode(external[|external| - 1].1)]
  }

  /** The first external key that a new node has too. */
  function Clash(external: seq<(NodeKey, nat)>, keys: set<NodeKey>): Option<NodeKey> {
    if external == [] then None
    else if external[0].0 in keys then Some(external[0].0)
    else Clash(external[1..], keys)
  }

  /** What a document does to an environment once delegation has had its say. */
  function Applied(peers: Peers, states: map<NodeKey, NodeState>, doc: Document,
                   delegation: Result<seq<Pair>, seq<DelegationError>>): Result<Update, ApplyError> {
    var flat := Flatten(doc.nodes);
    var agentKeys, external := KeysOf(flat), KeysOf(doc.external);
    match Place(peers, flat)
    case Err(key) => Err(DuplicateNodeKey(key))
    case Ok(placed) =>
      match delegation
      case Err(errors) => Err(Delegation(errors))
      case Ok(pairs) =>
        match Clash(doc.external, KeysOf(placed.incoming))
        case Some(key) => Err(DuplicateNodeKey(key))
        case None =>
          var kept := Kept(peers, agentKeys, external);
          var stay := map k | k in states && (k in peers ==> k in kept) :: states[k];
          Ok(Update(
            Extend(kept, WithExternals(PairPeers(pairs), doc.external)),
            stay + InternalStates(placed.incoming) + ExternalStates(doc.external) + placed.updated,
            Removed(peers, agentKeys) - AgentsIn(pairs)))
  }

  // ---------- The same, step by step ----------

  /** Flatten the replicas and tell new nodes from old. */
  method FlattenNodes(peers: Peers, nodes: seq<(NodeKey, Node)>)
    returns (agentKeys: set<NodeKey>, r: Result<Placed, NodeKey>)
    ensures r == Place(peers, Flatten(nodes))
    ensures r.Ok? ==> agentKeys == KeysOf(Flatten(nodes))
  {
    hide ReplicaKey, Replica, ReplicaCount, Place, Flatten, KeysOf;
    NoNodes(peers, nodes);
    agentKeys := {};
    var placed: Placed := Placed([], map[]);
    ghost var flat: seq<(NodeKey, Node)> := [];
    for n := 0 to |nodes|
      invariant flat == Flatten(nodes[..n]) && Place(peers, flat) == Ok(placed) && agentKeys == KeysOf(flat)
    {
      var (docKey, docNode) := nodes[n];
      var count := ReplicaCount(docNode);
      ghost var before := flat;
      for i := 0 to count
        invariant flat == before + Replicas(docKey, docNode, i)
        invariant Place(peers, flat) == Ok(placed) && agentKeys == KeysOf(flat)
      {
        var key := ReplicaKey(docKey, docNode.replicas.GetOr(1), i);
        var node := Replica(docNode, i);
        flat := OneMoreReplica(peers, before, flat, docKey, docNode, i);
        agentKeys := agentKeys + {key};
        if key in peers {
          placed := placed.(updated := placed.updated[key := InternalNode(node)]);
        } else if key in KeysOf(placed.incoming) {
          r := Err(key);
          RestOfReplicas(peers, before, docKey, docNode, i + 1, count, key);
          NextNode(nodes, n);
          RestOfNodes(peers, nodes, n + 1, key);
          return;
        } else {
          placed := placed.(incoming := placed.incoming + [(key, node)]);
        }
      }
      NextNode(nodes, n);
    }
    assert nodes[..|nodes|] == nodes;
    r := Ok(placed);
  }

  lemma {:induction false} NoNodes(peers: Peers, nodes: seq<(NodeKey, Node)>)
    ensures Flatten(nodes[..0]) == [] && Place(peers, []) == Ok(Placed([], map[])) && KeysOf<Node>([]) == {}
  {
  }

  lemma {:induction false} NextNode(nodes: seq<(NodeKey, Node)>, n: nat)
    requires n < |nodes|
    ensures Flatten(nodes[..n + 1]) == Flatten(nodes[..n]) + Replicas(nodes[n].0, nodes[n].1, ReplicaCount(nodes[n].1))
  {
    assert nodes[..n + 1][..n] == nodes[..n];
  }

  lemma {:induction false} KeysGrow<T>(entries: seq<(NodeKey, T)>, entry: (NodeKey, T))
    ensures KeysOf(entries + [entry]) == KeysOf(entries) + {entry.0}
  {
    var all := entries + [entry];
    assert all[|entries|] == entry;
    forall k | k in KeysOf(entries) ensures k in KeysOf(all) {
      var i :| 0 <= i < |entries| && entries[i].0 == k;
      assert all[i].0 == k;
    }
  }

  /** The flattened list with one more replica, and how that one is placed. */
  lemma {:induction false} OneMoreReplica(
    peers: Peers, before: seq<(NodeKey, Node)>, flat: seq<(NodeKey, Node)>, docKey: NodeKey, docNode: Node, i: nat)
    returns (grown: seq<(NodeKey, Node)>)
    requires flat == before + Replicas(docKey, docNode, i) && Place(peers, flat).Ok?
    ensures grown == before + Replicas(docKey, docNode, i + 1)
    ensures
      var p := Place(peers, flat).value;
      var key, node := ReplicaKey(docKey, docNode.replicas.GetOr(1), i), Replica(docNode, i);
      && KeysOf(grown) == KeysOf(flat) + {key}
      && Place(peers, grown) ==
          if key in peers then Ok(p.(updated := p.updated[key := InternalNode(node)]))
          else if key in KeysOf(p.incoming) then Err(key)
          else Ok(p.(incoming := p.incoming + [(key, node)]))
  {
    hide ReplicaKey, Replica;
    var entry := (ReplicaKey(docKey, docNode.replicas.GetOr(1), i), Replica(docNode, i));
    grown := flat + [entry];
    KeysGrow(flat, entry);
    assert grown[..|grown| - 1] == flat;
    assert before + Replicas(docKey, docNode, i + 1) == grown;
  }

  /** Once a key came twice, nothing after it matters. */
  lemma {:induction false} PlaceStaysFailed(peers: Peers, flat: seq<(NodeKey, Node)>, more: seq<(NodeKey, Node)>)
    requires Place(peers, flat).Err?
    ensures Place(peers, flat + more) == Place(peers, flat)
    decreases |more|
  {
    if more == [] {
      assert flat + more == flat;
    } else {
      PlaceStaysFailed(peers, flat, more[..|more| - 1]);
      assert (flat + more)[..|flat + more| - 1] == flat + more[..|more| - 1];
    }
  }

  lemma {:induction false} RestOfReplicas(
    peers: Peers, before: seq<(NodeKey, Node)>, key: NodeKey, node: Node, i: nat, n: nat, duplicate: NodeKey)
    requires i <= n && Place(peers, before + Replicas(key, node, i)) == Err(duplicate)
    ensures Place(peers, before + Replicas(key, node, n)) == Err(duplicate)
    decreases n
  {
    if i < n {
      RestOfReplicas(peers, before, key, node, i, n - 1, duplicate);
      var last := [(ReplicaKey(key, node.replicas.GetOr(1), n - 1), Replica(node, n - 1))];
      PlaceStaysFailed(peers, before + Replicas(key, node, n - 1), last);
      assert before + Replicas(key, node, n) == before + Replicas(key, node, n - 1) + last;
    }
  }

  lemma {:induction false} RestOfNodes(peers: Peers, nodes: seq<(NodeKey, Node)>, n: nat, duplicate: NodeKey)
    requires n <= |nodes| && Place(peers, Flatten(nodes[..n])) == Err(duplicate)
    ensures Place(peers, Flatten(nodes)) == Err(duplicate)
    decreases |nodes|
  {
    if n == |nodes| {
      assert nodes[..n] == nodes;
    } else {
      var front, last := nodes[..|nodes| - 1], nodes[|nodes| - 1];
      assert front[..n] == nodes[..n];
      RestOfNodes(peers, front, n, duplicate);
      PlaceStaysFailed(peers, Flatten(front), Replicas(last.0, last.1, ReplicaCount(last.1)));
    }
  }

  /** Insert the pairs, then the external nodes, into the map of new peers. */
  method NewPeers(pairs: seq<Pair>, external: seq<(NodeKey, nat)>) returns (incoming: Peers)
    ensures incoming == WithExternals(PairPeers(pairs), external)
  {
    incoming := map[];
    for i := 0 to |pairs|
      invariant incoming == PairPeers(pairs[..i])
    {
      assert pairs[..i + 1][..i] == pairs[..i];
      incoming := BiInsert(incoming, pairs[i].0, Internal(pairs[i].1));
    }
    assert pairs[..|pairs|] == pairs;
    for i := 0 to |external|
      invariant incoming == WithExternals(PairPeers(pairs), external[..i])
    {
      assert external[..i + 1][..i] == external[..i];
      incoming := BiInsert(incoming, external[i].0, External(external[i].0));
    }
    assert external[..|external|] == external;
  }

  /** Append the external nodes to the new ones, unless one of them is among those already. */
  method AddExternals(incoming: seq<(NodeKey, Node)>, external: seq<(NodeKey, nat)>)
    returns (r: Result<map<NodeKey, NodeState>, NodeKey>)
    requires forall i, j :: 0 <= i < j < |external| ==> external[i].0 != external[j].0
    ensures
      match Clash(external, KeysOf(incoming))
      case Some(key) => r == Err(key)
      case None => r == Ok(InternalStates(incoming) + ExternalStates(external))
  {
    hide InternalStates, ExternalStates, KeysOf, Clash;
    var states := InternalStates(incoming);
    InternalKeys(incoming);
    NoExternals(external, KeysOf(incoming));
    for i := 0 to |external|
      invariant states == InternalStates(incoming) + ExternalStates(external[..i])
      invariant Clash(external, KeysOf(incoming)) == Clash(external[i..], KeysOf(incoming))
      invariant states.Keys == KeysOf(incoming) + KeysOf(external[..i])
    {
      OneMoreExternal(external, KeysOf(incoming), i);
      var (key, node) := external[i];
      NotBefore(external, i);
      if key in states {
        return Err(key);
      }
      states := states[key := ExternalNode(node)];
    }
    assert external[..|external|] == external;
    r := Ok(states);
  }

  lemma {:induction false} NoExternals(external: seq<(NodeKey, nat)>, keys: set<NodeKey>)
    ensures KeysOf(external[..0]) == {} && ExternalStates(external[..0]) == map[]
    ensures Clash(external[|external|..], keys) == None && external[0..] == external
  {
  }

  lemma {:induction false} OneMoreExternal(external: seq<(NodeKey, nat)>, keys: set<NodeKey>, i: nat)
    requires i < |external|
    ensures KeysOf(external[..i + 1]) == KeysOf(external[..i]) + {external[i].0}
    ensures ExternalStates(external[..i + 1]) == ExternalStates(external[..i])[external[i].0 := ExternalNode(external[i].1)]
    ensures Clash(external[i..], keys) == if external[i].0 in keys then Some(external[i].0) else Clash(external[i + 1..], keys)
  {
    assert external[i..][0] == external[i] && external[i..][1..] == external[i + 1..];
    assert external[..i + 1][..i] == external[..i];
    assert external[..i + 1] == external[..i] + [external[i]];
    KeysGrow(external[..i], external[i]);
  }

  lemma {:induction false} NotBefore(external: seq<(NodeKey, nat)>, i: nat)
    requires i < |external| && forall j, k :: 0 <= j < k < |external| ==> external[j].0 != external[k].0
    ensures external[i].0 !in KeysOf(external[..i])
  {
  }

  lemma {:induction false} InternalKeys(incoming: seq<(NodeKey, Node)>)
    ensures InternalStates(incoming).Keys == KeysOf(incoming)
    decreases |incoming|
  {
    if incoming != [] {
      var front := incoming[..|incoming| - 1];
      InternalKeys(front);
      assert incoming == front + [incoming[|incoming| - 1]];
      KeysGrow(front, incoming[|incoming| - 1]);
    }
  }

  /** The nodes arm of an environment update. */
  method ApplyNodes(peers: Peers, states: map<NodeKey, NodeState>, doc: Document,
                    delegation: Result<seq<Pair>, seq<DelegationError>>)
    returns (r: Result<Update, ApplyError>)
    requires forall i, j :: 0 <= i < j < |doc.external| ==> doc.external[i].0 != doc.external[j].0
    ensures r == Applied(peers, states, doc, delegation)
  {
    var agentKeys, flattened := FlattenNodes(peers, doc.nodes);
    if flattened.Err? {
      return Err(DuplicateNodeKey(flattened.error));
    }
    var placed := flattened.value;
    if delegation.Err? {
      return Err(Delegation(delegation.error));
    }
    var pairs := delegation.value;
    var inventory := Removed(peers, agentKeys);
    for i := 0 to |pairs|
      invariant inventory == Removed(peers, agentKeys) - AgentsIn(pairs[..i])
    {
      assert pairs[..i + 1] == pairs[..i] + [pairs[i]];
      OneMoreAgent(pairs[..i], pairs[i]);
      inventory := inventory - {pairs[i].1};
    }
    assert pairs[..|pairs|] == pairs;
    var added := AddExternals(placed.incoming, doc.external);
    if added.Err? {
      return Err(DuplicateNodeKey(added.error));
    }
    var incoming := NewPeers(pairs, doc.external);
    var kept := Kept(peers, agentKeys, KeysOf(doc.external));
    var stay := map k | k in states && (k in peers ==> k in kept) :: states[k];
    MergeStates(stay, InternalStates(placed.incoming), ExternalStates(doc.external), placed.updated);
    return Ok(Update(Extend(kept, incoming), stay + added.value + placed.updated, inventory));
  }

  lemma {:induction false} OneMoreAgent(pairs: seq<Pair>, pair: Pair)
    ensures AgentsIn(pairs + [pair]) == AgentsIn(pairs) + {pair.1}
  {
    var all := pairs + [pair];
    assert all[|pairs|] == pair;
    forall a | a in AgentsIn(pairs) ensures a in AgentsIn(all) {
      var i :| 0 <= i < |pairs| && pairs[i].1 == a;
      assert all[i].1 == a;
    }
  }

  lemma {:induction false} MergeStates(a: map<NodeKey, NodeState>, b: map<NodeKey, NodeState>, c: map<NodeKey, NodeState>,
                                       d: map<NodeKey, NodeState>)
    ensures a + (b + c) + d == a + b + c + d
  {
  }
}
