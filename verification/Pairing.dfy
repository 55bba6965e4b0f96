/**
 Pairing nodes with agents.  One task per node looks for an agent and claims it;
 the tasks run in parallel, those that want a particular agent before those that
 want any agent with the right mask, while strangers take and drop references.
 */
module Pairing {
  import opened Wrappers
  import opened Nodes

  // ---------- Masks ----------

  const LOCAL_PRIVATE_KEY: nat := 4
  const MASK_PREFIX_LEN: nat := 5

  function Bit(ty: NodeType): nat {
    match ty
    case Validator => 0
    case Prover => 1
    case Client => 2
  }

  /** What an agent can be: the modes it runs in, whether it has its own key, and its labels. */
  datatype Flags = Flags(validator: bool, prover: bool, client: bool, compute: bool, localKey: bool, labels: set<nat>)

  predicate Supports(f: Flags, ty: NodeType) {
    match ty
    case Validator => f.validator
    case Prover => f.prover
    case Client => f.client
  }

  function LabelBits(own: set<nat>, labels: seq<nat>): set<nat> {
    set i | 0 <= i < |labels| && labels[i] in own :: i + MASK_PREFIX_LEN
  }

  function AgentMask(f: Flags, labels: seq<nat>): set<nat> {
    (if f.validator then {0} else {}) + (if f.prover then {1} else {}) + (if f.client then {2} else {})
    + (if f.compute then {3} else {}) + (if f.localKey then {LOCAL_PRIVATE_KEY} else {}) + LabelBits(f.labels, labels)
  }

  function NodeMask(ty: NodeType, localKey: bool, own: set<nat>, labels: seq<nat>): set<nat> {
    {Bit(ty)} + (if localKey then {LOCAL_PRIVATE_KEY} else {}) + LabelBits(own, labels)
  }

  lemma {:induction false} LabelBitsMean(own: set<nat>, other: set<nat>, labels: seq<nat>)
    ensures LabelBits(own, labels) <= LabelBits(other, labels) <==> forall l :: l in own && l in labels ==> l in other
    ensures forall b :: b in LabelBits(own, labels) ==> b >= MASK_PREFIX_LEN
  {
    forall i | 0 <= i < |labels| ensures i + MASK_PREFIX_LEN in LabelBits(own, labels) <==> labels[i] in own {}
    forall i | 0 <= i < |labels| ensures i + MASK_PREFIX_LEN in LabelBits(other, labels) <==> labels[i] in other {}
    if LabelBits(own, labels) <= LabelBits(other, labels) {
      forall l | l in own && l in labels ensures l in other {
        var i :| 0 <= i < |labels| && labels[i] == l;
        assert i + MASK_PREFIX_LEN in LabelBits(own, labels);
      }
    }
  }

  predicate HasBit(f: Flags, b: nat) {
    || (b == 0 && f.validator) || (b == 1 && f.prover) || (b == 2 && f.client) || (b == 3 && f.compute)
    || (b == LOCAL_PRIVATE_KEY && f.localKey)
  }

  lemma {:induction false} LowBits(f: Flags, labels: seq<nat>, b: nat)
    ensures b < MASK_PREFIX_LEN ==> (b in AgentMask(f, labels) <==> HasBit(f, b))
    ensures b >= MASK_PREFIX_LEN ==> (b in AgentMask(f, labels) <==> b in LabelBits(f.labels, labels))
  {
    hide LabelBits;
    LabelBitsMean(f.labels, f.labels, labels);
  }

  /** A mask is part of an agent's mask exactly if the agent has all it asks for. */
  lemma {:induction false} MaskMeans(f: Flags, ty: NodeType, localKey: bool, own: set<nat>, labels: seq<nat>)
    ensures NodeMask(ty, localKey, own, labels) <= AgentMask(f, labels) <==>
      Supports(f, ty) && (localKey ==> f.localKey) && forall l :: l in own && l in labels ==> l in f.labels
    ensures Bit(ty) in AgentMask(f, labels) <==> Supports(f, ty)
  {
    hide LabelBits, AgentMask;
    LabelBitsMean(own, f.labels, labels);
    LowBits(f, labels, Bit(ty));
    LowBits(f, labels, LOCAL_PRIVATE_KEY);
    var node, agent, bits := NodeMask(ty, localKey, own, labels), AgentMask(f, labels), LabelBits(own, labels);
    forall b | b in bits ensures b in agent <==> b in LabelBits(f.labels, labels) {
      LowBits(f, labels, b);
    }
    assert node <= agent <==> Bit(ty) in agent && (localKey ==> LOCAL_PRIVATE_KEY in agent) && bits <= agent;
  }

  // ---------- Tasks ----------

  datatype Mapping = Mapping(id: nat, mask: set<nat>)

  datatype Want =
    | ById(key: NodeKey, id: nat)
    | ByMask(key: NodeKey, mask: set<nat>)

  datatype DelegationError =
    | InsufficientAgentCount(available: nat, needed: nat)
    | AgentNotFound(id: nat, key: NodeKey)
    | AgentMissingMode(id: nat, key: NodeKey)
    | AgentAlreadyClaimed(id: nat, key: NodeKey)
    | NoAvailableAgents(key: NodeKey)

  /** How far a task is; `at` is the agent it looks at. */
  datatype Progress =
    | Looking(at: nat)
    | Checked(at: nat)
    | Upgraded(at: nat)
    | Losing(at: nat)
    | Claimed(at: nat)
    | Failed(error: DelegationError)

  /** The references strangers have, the agents' own included, and the tasks. */
  datatype State = State(others: map<nat, nat>, tasks: seq<Progress>)

  datatype Act = Turn(task: nat) | Stranger(agent: nat, refs: nat)

  predicate HasRef(p: Progress) {
    p.Upgraded? || p.Losing? || p.Claimed?
  }

  predicate Done(p: Progress) {
    p.Claimed? || p.Failed?
  }

  /** The tasks that have a reference to an agent. */
  function Holders(agents: seq<Mapping>, tasks: seq<Progress>, agent: nat): set<nat> {
    set j | 0 <= j < |tasks| && HasRef(tasks[j]) && tasks[j].at < |agents| && agents[tasks[j].at].id == agent
  }

  function Count(agents: seq<Mapping>, s: State, agent: nat): nat {
    (if agent in s.others then s.others[agent] else 0) + |Holders(agents, s.tasks, agent)|
  }

  /** Where in the list an agent is; the last entry of an id counts. */
  function Find(agents: seq<Mapping>, id: nat): (r: Option<nat>)
    ensures r.Some? ==> r.value < |agents| && agents[r.value].id == id
    ensures r.Some? ==> forall i :: r.value < i < |agents| ==> agents[i].id != id
    ensures r.None? ==> forall i :: 0 <= i < |agents| ==> agents[i].id != id
  {
    if agents == [] then None
    else if agents[|agents| - 1].id == id then Some(|agents| - 1)
    else Find(agents[..|agents| - 1], id)
  }

  /** A task for a particular agent. */
  function TurnById(agents: seq<Mapping>, s: State, want: Want, p: Progress): Progress
    requires want.ById? && !p.Failed? && (p.Looking? || p.at < |agents|)
  {
    match p
    case Looking(_) =>
      (match Find(agents, want.id)
       case None => Failed(AgentNotFound(want.id, want.key))
       case Some(i) =>
         if Bit(want.key.ty) !in agents[i].mask then Failed(AgentMissingMode(want.id, want.key))
         else if Count(agents, s, agents[i].id) > 1 then Failed(AgentAlreadyClaimed(want.id, want.key))
         else Checked(i))
    case Checked(i) =>
      if Count(agents, s, agents[i].id) == 0 then Failed(AgentAlreadyClaimed(want.id, want.key)) else Upgraded(i)
    case Upgraded(i) => if Count(agents, s, agents[i].id) == 2 then Claimed(i) else Losing(i)
    case Losing(_) => Failed(AgentAlreadyClaimed(want.id, want.key))
    case Claimed(_) => p
  }

  /** A task for any agent with a mask. */
  function TurnByMask(agents: seq<Mapping>, s: State, want: Want, p: Progress): Progress
    requires want.ByMask? && !p.Failed? && (p.Looking? || p.at < |agents|)
  {
    match p
    case Looking(i) =>
      if i >= |agents| then Failed(NoAvailableAgents(want.key))
      else if want.mask <= agents[i].mask && Count(agents, s, agents[i].id) <= 1 then Checked(i)
      else Looking(i + 1)
    case Checked(i) => if Count(agents, s, agents[i].id) == 0 then Looking(i + 1) else Upgraded(i)
    case Upgraded(i) => if Count(agents, s, agents[i].id) == 2 then Claimed(i) else Losing(i)
    case Losing(i) => Looking(i + 1)
    case Claimed(_) => p
  }

  /** The tasks that want any agent wait for all that want a particular one. */
  predicate MayRun(wants: seq<Want>, tasks: seq<Progress>, j: nat)
    requires |wants| == |tasks| && j < |tasks|
  {
    wants[j].ById? || forall k :: 0 <= k < |tasks| && wants[k].ById? ==> Done(tasks[k])
  }

  predicate InRange(agents: seq<Mapping>, wants: seq<Want>, s: State) {
    |wants| == |s.tasks| &&
    forall j :: 0 <= j < |s.tasks| && !s.tasks[j].Failed? && !s.tasks[j].Looking? ==> s.tasks[j].at < |agents|
  }

  function Step(agents: seq<Mapping>, wants: seq<Want>, s: State, a: Act): (next: State)
    requires InRange(agents, wants, s)
    ensures InRange(agents, wants, next)
  {
    match a
    case Stranger(agent, refs) => s.(others := s.others[agent := refs])
    case Turn(j) =>
      if j >= |s.tasks| || s.tasks[j].Failed? || !MayRun(wants, s.tasks, j) then s
      else if wants[j].ById? then s.(tasks := s.tasks[j := TurnById(agents, s, wants[j], s.tasks[j])])
      else s.(tasks := s.tasks[j := TurnByMask(agents, s, wants[j], s.tasks[j])])
  }

  function Run(agents: seq<Mapping>, wants: seq<Want>, s: State, acts: seq<Act>): (end: State)
    requires InRange(agents, wants, s)
    ensures InRange(agents, wants, end)
    decreases |acts|
  {
    if acts == [] then s else Run(agents, wants, Step(agents, wants, s, acts[0]), acts[1..])
  }

  /** Strangers leave the agents their own references. */
  predicate AgentsStay(acts: seq<Act>) {
    forall i :: 0 <= i < |acts| && acts[i].Stranger? ==> acts[i].refs > 0
  }

  function Start(wants: seq<Want>, others: map<nat, nat>): State {
    State(others, seq(|wants|, _ => Looking(0)))
  }

  // ---------- Results ----------

  type Pair = (NodeKey, nat)

  function Pairs(agents: seq<Mapping>, wants: seq<Want>, tasks: seq<Progress>): seq<Pair>
    requires |wants| == |tasks|
    requires forall j :: 0 <= j < |tasks| ==> tasks[j].Claimed? && tasks[j].at < |agents|
  {
    seq(|wants|, j requires 0 <= j < |wants| => (wants[j].key, agents[tasks[j].at].id))
  }

  function Errors(tasks: seq<Progress>): seq<DelegationError> {
    if tasks == [] then []
    else (if tasks[0].Failed? then [tasks[0].error] else []) + Errors(tasks[1..])
  }

  /** What pairing returns once all tasks are done. */
  function Outcome(agents: seq<Mapping>, wants: seq<Want>, s: State): Result<seq<Pair>, seq<DelegationError>>
    requires InRange(agents, wants, s) && forall j :: 0 <= j < |s.tasks| ==> Done(s.tasks[j])
  {
    if forall j :: 0 <= j < |s.tasks| ==> s.tasks[j].Claimed? then Ok(Pairs(agents, wants, s.tasks))
    else Err(Errors(s.tasks))
  }

  /** Pairing: fail at once if there are too few agents, else let the tasks run. */
  function PairWithNodes(agents: seq<Mapping>, wants: seq<Want>, others: map<nat, nat>, acts: seq<Act>)
    : Result<seq<Pair>, seq<DelegationError>>
    requires
      var end := Run(agents, wants, Start(wants, others), acts);
      |agents| < |wants| || forall j :: 0 <= j < |end.tasks| ==> Done(end.tasks[j])
  {
    if |agents| < |wants| then Err([InsufficientAgentCount(|agents|, |wants|)])
    else Outcome(agents, wants, Run(agents, wants, Start(wants, others), acts))
  }

  /** An error drops what was claimed. */
  function AfterOutcome(agents: seq<Mapping>, wants: seq<Want>, s: State): State
    requires InRange(agents, wants, s) && forall j :: 0 <= j < |s.tasks| ==> Done(s.tasks[j])
  {
    if Outcome(agents, wants, s).Err? then s.(tasks := []) else s
  }
}
