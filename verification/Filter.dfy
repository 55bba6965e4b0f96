/**
 Event filters: which events a filter matches, and the operators that combine
 filters while flattening nested conjunctions, disjunctions and exclusive
 disjunctions.
 */
module Filter {
  import opened Wrappers
  import opened Nodes

  datatype EventKind =
    | AgentConnected
    | AgentHandshakeComplete
    | AgentDisconnected
    | AgentReconcileComplete
    | AgentReconcile
    | AgentReconcileError
    | AgentNodeStatus
    | AgentBlockInfo
    | TransactionAuthorizationReceived
    | TransactionExecuteAborted
    | TransactionExecuteAwaitingCompute
    | TransactionExecuteExceeded
    | TransactionExecuteFailed
    | TransactionExecuting
    | TransactionExecuteComplete
    | TransactionBroadcasted
    | TransactionBroadcastExceeded
    | TransactionConfirmed

  datatype EventFilter =
    | Unfiltered
    | AllOf(filters: seq<EventFilter>)
    | AnyOf(filters: seq<EventFilter>)
    | OneOf(filters: seq<EventFilter>)
    | Not(filter: EventFilter)
    | AgentIs(id: string)
    | HasAgent
    | EnvIs(id: string)
    | HasEnv
    | TransactionIs(transaction: string)
    | HasTransaction
    | CannonIs(id: string)
    | HasCannon
    | EventIs(kind: EventKind)
    | NodeKeyIs(key: NodeKey)
    | HasNodeKey
    | NodeTargetIs(targets: NodeTargets)

  /** An event, as far as filters look at it. */
  datatype Event = Event(
    agent: Option<string>,
    nodeKey: Option<NodeKey>,
    env: Option<string>,
    transaction: Option<string>,
    cannon: Option<string>,
    kind: EventKind)

  // ---------- Matching ----------

  predicate Matches(event: Event, filter: EventFilter) {
    match filter
    case Unfiltered => true
    case AllOf(filters) => forall i :: 0 <= i < |filters| ==> Matches(event, filters[i])
    case AnyOf(filters) => exists i :: 0 <= i < |filters| && Matches(event, filters[i])
    case OneOf(filters) => MatchCount(event, filters) == 1
    case Not(inner) => !Matches(event, inner)
    case AgentIs(agent) => event.agent == Some(agent)
    case HasAgent => event.agent.Some?
    case EnvIs(env) => event.env == Some(env)
    case HasEnv => event.env.Some?
    case TransactionIs(transaction) => event.transaction == Some(transaction)
    case HasTransaction => event.transaction.Some?
    case CannonIs(cannon) => event.cannon == Some(cannon)
    case HasCannon => event.cannon.Some?
    case EventIs(kind) => event.kind == kind
    case NodeKeyIs(key) => event.nodeKey == Some(key)
    case HasNodeKey => event.nodeKey.Some?
    case NodeTargetIs(targets) => event.nodeKey.Some? && TargetsMatch(targets, event.nodeKey.value)
  }

  /** How many of the filters match the event. */
  function MatchCount(event: Event, filters: seq<EventFilter>): nat {
    if filters == [] then 0
    else (if Matches(event, filters[0]) then 1 else 0) + MatchCount(event, filters[1..])
  }

  // ---------- Operators ----------

  function And(lhs: EventFilter, rhs: EventFilter): EventFilter {
    if lhs.Unfiltered? then rhs
    else if rhs.Unfiltered? then lhs
    else if lhs.AllOf? && rhs.AllOf? then AllOf(lhs.filters + rhs.filters)
    else if lhs.AllOf? then AllOf(lhs.filters + [rhs])
    else if rhs.AllOf? then AllOf(rhs.filters + [lhs])
    else AllOf([lhs, rhs])
  }

  function Or(lhs: EventFilter, rhs: EventFilter): EventFilter {
    if lhs.Unfiltered? || rhs.Unfiltered? then Unfiltered
    else if lhs.AnyOf? && rhs.AnyOf? then AnyOf(lhs.filters + rhs.filters)
    else if lhs.AnyOf? then AnyOf(lhs.filters + [rhs])
    else if rhs.AnyOf? then AnyOf(rhs.filters + [lhs])
    else AnyOf([lhs, rhs])
  }

  function Xor(lhs: EventFilter, rhs: EventFilter): EventFilter {
    if lhs.Unfiltered? then rhs
    else if rhs.Unfiltered? then lhs
    else if lhs.OneOf? && rhs.OneOf? then OneOf(lhs.filters + rhs.filters)
    else if lhs.OneOf? then OneOf(lhs.filters + [rhs])
    else if rhs.OneOf? then OneOf(rhs.filters + [lhs])
    else OneOf([lhs, rhs])
  }

  /** `&` is conjunction, for all filters and events. */
  lemma {:induction false} AndIsConjunction(event: Event, lhs: EventFilter, rhs: EventFilter)
    ensures Matches(event, And(lhs, rhs)) <==> Matches(event, lhs) && Matches(event, rhs)
  {
    if And(lhs, rhs).AllOf? && !lhs.Unfiltered? && !rhs.Unfiltered? {
      var a := if lhs.AllOf? then lhs.filters else [lhs];
      var b := if rhs.AllOf? then rhs.filters else [rhs];
      AllOfAppend(event, a, b);
      AllOfAppend(event, b, a);
      assert AllOf([lhs]).filters[0] == lhs && AllOf([rhs]).filters[0] == rhs;
      assert And(lhs, rhs) == AllOf(a + b) || And(lhs, rhs) == AllOf(b + a);
    }
  }

  lemma {:induction false} AllOfAppend(event: Event, a: seq<EventFilter>, b: seq<EventFilter>)
    ensures Matches(event, AllOf(a + b)) <==> Matches(event, AllOf(a)) && Matches(event, AllOf(b))
  {
    var all := a + b;
    if Matches(event, AllOf(all)) {
      forall i | 0 <= i < |a|
        ensures Matches(event, a[i])
      {
        assert all[i] == a[i];
      }
      forall i | 0 <= i < |b|
        ensures Matches(event, b[i])
      {
        assert all[|a| + i] == b[i];
      }
    }
  }

  /** `|` is disjunction, for all filters and events. */
  lemma {:induction false} OrIsDisjunction(event: Event, lhs: EventFilter, rhs: EventFilter)
    ensures Matches(event, Or(lhs, rhs)) <==> Matches(event, lhs) || Matches(event, rhs)
  {
    if !lhs.Unfiltered? && !rhs.Unfiltered? {
      var a := if lhs.AnyOf? then lhs.filters else [lhs];
      var b := if rhs.AnyOf? then rhs.filters else [rhs];
      AnyOfAppend(event, a, b);
      AnyOfAppend(event, b, a);
      assert AnyOf([lhs]).filters[0] == lhs && AnyOf([rhs]).filters[0] == rhs;
      assert Or(lhs, rhs) == AnyOf(a + b) || Or(lhs, rhs) == AnyOf(b + a);
    }
  }

  lemma {:induction false} AnyOfAppend(event: Event, a: seq<EventFilter>, b: seq<EventFilter>)
    ensures Matches(event, AnyOf(a + b)) <==> Matches(event, AnyOf(a)) || Matches(event, AnyOf(b))
  {
    var all := a + b;
    if Matches(event, AnyOf(a)) {
      var i :| 0 <= i < |a| && Matches(event, a[i]);
      assert all[i] == a[i];
    }
    if Matches(event, AnyOf(b)) {
      var i :| 0 <= i < |b| && Matches(event, b[i]);
      assert all[|a| + i] == b[i];
    }
  }

  lemma {:induction false} MatchCountAppend(event: Event, a: seq<EventFilter>, b: seq<EventFilter>)
    ensures MatchCount(event, a + b) == MatchCount(event, a) + MatchCount(event, b)
  {
    if a == [] {
      assert a + b == b;
    } else {
      assert (a + b)[1..] == a[1..] + b;
      MatchCountAppend(event, a[1..], b);
    }
  }

  /** What a filter contributes to the count of an exclusive disjunction it is flattened into. */
  function Weight(event: Event, filter: EventFilter): nat {
    if filter.OneOf? then MatchCount(event, filter.filters)
    else if Matches(event, filter) then 1 else 0
  }

  lemma {:induction false} XorAddsWeights(event: Event, lhs: EventFilter, rhs: EventFilter)
    requires !lhs.Unfiltered? && !rhs.Unfiltered?
    ensures Xor(lhs, rhs).OneOf?
    ensures Weight(event, Xor(lhs, rhs)) == Weight(event, lhs) + Weight(event, rhs)
  {
    var a := if lhs.OneOf? then lhs.filters else [lhs];
    var b := if rhs.OneOf? then rhs.filters else [rhs];
    MatchCountAppend(event, a, b);
    MatchCountAppend(event, b, a);
    assert Xor(lhs, rhs).filters == a + b || Xor(lhs, rhs).filters == b + a;
  }

  /**
   `^` is exclusive disjunction exactly if neither side is unfiltered and not
   one side matches once while the other, flattened, matches more than once.
   */
  lemma {:induction false} XorIsExclusive(event: Event, lhs: EventFilter, rhs: EventFilter)
    ensures
      var (l, r) := (Weight(event, lhs), Weight(event, rhs));
      (Matches(event, Xor(lhs, rhs)) <==> (Matches(event, lhs) != Matches(event, rhs))) <==>
        (!lhs.Unfiltered? && !rhs.Unfiltered? && !(l == 1 && r > 1) && !(l > 1 && r == 1))
  {
    if !lhs.Unfiltered? && !rhs.Unfiltered? {
      XorAddsWeights(event, lhs, rhs);
    }
  }

  /** An event with an agent, an environment and a cannon: the first two cancel out, yet the third does not match alone. */
  lemma {:induction false} XorIsNotAlwaysExclusive(event: Event)
    requires event.agent.Some? && event.env.Some? && event.cannon.Some?
    ensures
      var both := Xor(HasAgent, HasEnv);
      !Matches(event, both) && Matches(event, HasCannon) && !Matches(event, Xor(both, HasCannon))
  {
    XorAddsWeights(event, HasAgent, HasEnv);
    XorAddsWeights(event, Xor(HasAgent, HasEnv), HasCannon);
  }

  /** A bracketing of `^` over filters. */
  datatype Bracketing = Leaf(filter: EventFilter) | Node(left: Bracketing, right: Bracketing)

  function Leaves(b: Bracketing): (leaves: seq<EventFilter>)
    ensures leaves != []
  {
    match b
    case Leaf(filter) => [filter]
    case Node(left, right) => Leaves(left) + Leaves(right)
  }

  function Combine(b: Bracketing): EventFilter {
    match b
    case Leaf(filter) => filter
    case Node(left, right) => Xor(Combine(left), Combine(right))
  }

  predicate PlainLeaves(b: Bracketing) {
    forall i :: 0 <= i < |Leaves(b)| ==> !Leaves(b)[i].OneOf? && !Leaves(b)[i].Unfiltered?
  }

  /** However `^` is bracketed over plain filters, the result matches when exactly one of them does. */
  lemma {:induction false} XorMatchesExactlyOne(event: Event, b: Bracketing)
    requires PlainLeaves(b)
    ensures Matches(event, Combine(b)) <==> MatchCount(event, Leaves(b)) == 1
  {
    BracketingWeight(event, b);
  }

  lemma {:induction false} BracketingWeight(event: Event, b: Bracketing)
    requires PlainLeaves(b)
    ensures !Combine(b).Unfiltered?
    ensures Weight(event, Combine(b)) == MatchCount(event, Leaves(b))
  {
    match b
    case Leaf(filter) =>
      assert Leaves(b)[0] == filter;
    case Node(left, right) =>
      var l, r := Leaves(left), Leaves(right);
      assert forall i :: 0 <= i < |l| ==> l[i] == Leaves(b)[i];
      assert forall i :: 0 <= i < |r| ==> r[i] == Leaves(b)[|l| + i];
      BracketingWeight(event, left);
      BracketingWeight(event, right);
      XorAddsWeights(event, Combine(left), Combine(right));
      MatchCountAppend(event, l, r);
  }
}
