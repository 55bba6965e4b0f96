/**
 What pairing promises: under every schedule an Ok result gives each node a
 suitable agent of its own, and an Err result leaves no reference behind.
 */
module PairingProofs {
  import opened Wrappers
  import opened Pairing

  /** The agent is the one the node wants, or has what it wants. */
  predicate Fits(want: Want, m: Mapping) {
    match want
    case ById(key, id) => m.id == id && Bit(key.ty) in m.mask
    case ByMask(_, mask) => mask <= m.mask
  }

  /** Every agent has its own reference. */
  predicate AgentsThere(agents: seq<Mapping>, others: map<nat, nat>) {
    forall i :: 0 <= i < |agents| ==> agents[i].id in others && others[agents[i].id] > 0
  }

  predicate AllFit(agents: seq<Mapping>, wants: seq<Want>, s: State)
    requires InRange(agents, wants, s)
  {
    forall j :: 0 <= j < |s.tasks| && !s.tasks[j].Failed? && !s.tasks[j].Looking? ==>
      Fits(wants[j], agents[s.tasks[j].at])
  }

  predicate NoSharing(agents: seq<Mapping>, tasks: seq<Progress>) {
    forall j, k :: 0 <= j < k < |tasks| && tasks[j].Claimed? && tasks[k].Claimed? ==>
      tasks[j].at < |agents| && tasks[k].at < |agents| ==> agents[tasks[j].at].id != agents[tasks[k].at].id
  }

  ghost predicate Sound(agents: seq<Mapping>, wants: seq<Want>, s: State) {
    InRange(agents, wants, s) && AgentsThere(agents, s.others) && AllFit(agents, wants, s) && NoSharing(agents, s.tasks)
  }

  /** Who finds its reference to be the second has the agent for itself. */
  lemma {:induction false} SecondIsAlone(agents: seq<Mapping>, s: State, j: nat, k: nat)
    requires AgentsThere(agents, s.others) && j < |s.tasks| && k < |s.tasks|
    requires HasRef(s.tasks[j]) && s.tasks[j].at < |agents| && Count(agents, s, agents[s.tasks[j].at].id) == 2
    requires HasRef(s.tasks[k]) && s.tasks[k].at < |agents| && agents[s.tasks[k].at].id == agents[s.tasks[j].at].id
    ensures j == k
  {
    var agent := agents[s.tasks[j].at].id;
    var holders := Holders(agents, s.tasks, agent);
    assert j in holders && k in holders;
    assert |holders| <= 1;
    SoleMember(holders, j, k);
  }

  lemma {:induction false} StepKeepsSound(agents: seq<Mapping>, wants: seq<Want>, s: State, a: Act)
    requires Sound(agents, wants, s) && (a.Stranger? ==> a.refs > 0)
    ensures Sound(agents, wants, Step(agents, wants, s, a))
  {
    hide Count, Find, MayRun;
    var next := Step(agents, wants, s, a);
    if a.Turn? && next != s {
      var j := a.task;
      assert forall k :: 0 <= k < |s.tasks| && k != j ==> next.tasks[k] == s.tasks[k];
      if s.tasks[j].Upgraded? && next.tasks[j].Claimed? {
        forall k | 0 <= k < |s.tasks| && k != j && s.tasks[k].Claimed?
          ensures agents[s.tasks[k].at].id != agents[s.tasks[j].at].id
        {
          if agents[s.tasks[k].at].id == agents[s.tasks[j].at].id {
            SecondIsAlone(agents, s, j, k);
          }
        }
      }
    }
  }

  lemma {:induction false} RunKeepsSound(agents: seq<Mapping>, wants: seq<Want>, s: State, acts: seq<Act>)
    requires Sound(agents, wants, s) && AgentsStay(acts)
    ensures Sound(agents, wants, Run(agents, wants, s, acts))
    decreases |acts|
  {
    hide Step;
    if acts != [] {
      StepKeepsSound(agents, wants, s, acts[0]);
      RunKeepsSound(agents, wants, Step(agents, wants, s, acts[0]), acts[1..]);
    }
  }

  lemma {:induction false} StartIsSound(agents: seq<Mapping>, wants: seq<Want>, others: map<nat, nat>)
    requires AgentsThere(agents, others)
    ensures Sound(agents, wants, Start(wants, others))
  {
  }

  // ---------- Outcomes ----------

  predicate AllDone(s: State) {
    forall j :: 0 <= j < |s.tasks| ==> Done(s.tasks[j])
  }

  predicate Suits(agents: seq<Mapping>, want: Want, agent: nat) {
    exists i :: 0 <= i < |agents| && agents[i].id == agent && Fits(want, agents[i])
  }

  /** Every node has an agent that suits it, and no agent has two nodes. */
  predicate GoodPairs(agents: seq<Mapping>, wants: seq<Want>, pairs: seq<Pair>) {
    && |pairs| == |wants|
    && (forall j :: 0 <= j < |pairs| ==> pairs[j].0 == wants[j].key && Suits(agents, wants[j], pairs[j].1))
    && (forall j, k :: 0 <= j < k < |pairs| ==> pairs[j].1 != pairs[k].1)
  }

  lemma {:induction false} SoundOutcome(agents: seq<Mapping>, wants: seq<Want>, s: State)
    requires Sound(agents, wants, s) && AllDone(s) && Outcome(agents, wants, s).Ok?
    ensures GoodPairs(agents, wants, Outcome(agents, wants, s).value)
  {
    var pairs := Outcome(agents, wants, s).value;
    forall j | 0 <= j < |pairs|
      ensures pairs[j].0 == wants[j].key
      ensures Suits(agents, wants[j], pairs[j].1)
    {
      var i := s.tasks[j].at;
      assert agents[i].id == pairs[j].1 && Fits(wants[j], agents[i]);
    }
    forall j, k | 0 <= j < k < |pairs| ensures pairs[j].1 != pairs[k].1 {
      assert s.tasks[j].Claimed? && s.tasks[k].Claimed?;
    }
  }

  predicate Paired(pairs: seq<Pair>, agent: nat) {
    exists j :: 0 <= j < |pairs| && pairs[j].1 == agent
  }

  /** The references an outcome holds to an agent. */
  function RefsTaken(outcome: Result<seq<Pair>, seq<DelegationError>>, agent: nat): nat {
    if outcome.Ok? && Paired(outcome.value, agent) then 1 else 0
  }

  /** Pairing holds one reference to each agent it hands out and none to any other. */
  lemma {:induction false} OutcomeRefs(agents: seq<Mapping>, wants: seq<Want>, s: State, agent: nat)
    requires Sound(agents, wants, s) && AllDone(s) && agent in s.others
    ensures Count(agents, AfterOutcome(agents, wants, s), agent)
         == s.others[agent] + RefsTaken(Outcome(agents, wants, s), agent)
  {
    var after := AfterOutcome(agents, wants, s);
    var holders := Holders(agents, after.tasks, agent);
    var outcome := Outcome(agents, wants, s);
    if outcome.Err? {
      assert holders == {};
    } else if Paired(outcome.value, agent) {
      var j :| 0 <= j < |outcome.value| && outcome.value[j].1 == agent;
      forall k | k in holders ensures k == j {
        assert s.tasks[k].Claimed? && s.tasks[j].Claimed?;
      }
      assert j in holders;
      assert holders == {j};
    } else {
      forall k | 0 <= k < |s.tasks| && s.tasks[k].Claimed? ensures k !in holders {
        assert outcome.value[k].1 != agent;
      }
      assert holders == {};
    }
  }

  lemma {:induction false} ErrorsListed(tasks: seq<Progress>)
    ensures Errors(tasks) == [] <==> forall j :: 0 <= j < |tasks| ==> !tasks[j].Failed?
  {
    if tasks != [] {
      ErrorsListed(tasks[1..]);
      assert forall j :: 0 < j < |tasks| ==> tasks[j] == tasks[1..][j - 1];
    }
  }

  /** Under every schedule and whatever strangers do, as long as the agents keep their own references. */
  lemma {:induction false} PairingIsSound(agents: seq<Mapping>, wants: seq<Want>, others: map<nat, nat>, acts: seq<Act>)
    requires AgentsThere(agents, others) && AgentsStay(acts)
    requires |agents| < |wants| || AllDone(Run(agents, wants, Start(wants, others), acts))
    ensures
      var r := PairWithNodes(agents, wants, others, acts);
      if r.Ok? then GoodPairs(agents, wants, r.value) else r.error != []
    ensures |agents| >= |wants| ==>
      var end := Run(agents, wants, Start(wants, others), acts);
      forall agent :: agent in end.others ==>
        Count(agents, AfterOutcome(agents, wants, end), agent) ==
          end.others[agent] + RefsTaken(PairWithNodes(agents, wants, others, acts), agent)
  {
    hide Count, Sound, GoodPairs, Paired, Errors;
    if |agents| >= |wants| {
      var end := Run(agents, wants, Start(wants, others), acts);
      StartIsSound(agents, wants, others);
      RunKeepsSound(agents, wants, Start(wants, others), acts);
      if Outcome(agents, wants, end).Ok? {
        SoundOutcome(agents, wants, end);
      } else {
        ErrorsListed(end.tasks);
      }
      forall agent | agent in end.others
        ensures Count(agents, AfterOutcome(agents, wants, end), agent) ==
          end.others[agent] + RefsTaken(PairWithNodes(agents, wants, others, acts), agent)
      {
        OutcomeRefs(agents, wants, end, agent);
      }
    }
  }

  // ---------- Order ----------

  /** No task that wants any agent has begun before all that want a particular one are done. */
  predicate IdsFirst(wants: seq<Want>, tasks: seq<Progress>)
    requires |wants| == |tasks|
  {
    forall j, k :: 0 <= j < |tasks| && 0 <= k < |tasks| && wants[j].ByMask? && wants[k].ById? && tasks[j] != Looking(0) ==>
      Done(tasks[k])
  }

  lemma {:induction false} StepKeepsIdsFirst(agents: seq<Mapping>, wants: seq<Want>, s: State, a: Act)
    requires InRange(agents, wants, s) && IdsFirst(wants, s.tasks)
    ensures IdsFirst(wants, Step(agents, wants, s, a).tasks)
  {
    hide Count, Find, TurnByMask;
  }

  lemma {:induction false} RunKeepsIdsFirst(agents: seq<Mapping>, wants: seq<Want>, s: State, acts: seq<Act>)
    requires InRange(agents, wants, s) && IdsFirst(wants, s.tasks)
    ensures IdsFirst(wants, Run(agents, wants, s, acts).tasks)
    decreases |acts|
  {
    hide Step;
    if acts != [] {
      StepKeepsIdsFirst(agents, wants, s, acts[0]);
      RunKeepsIdsFirst(agents, wants, Step(agents, wants, s, acts[0]), acts[1..]);
    }
  }

  /** Under every schedule the nodes that name an agent are served before those that do not. */
  lemma {:induction false} NamedAgentsGoFirst(agents: seq<Mapping>, wants: seq<Want>, others: map<nat, nat>, acts: seq<Act>)
    ensures IdsFirst(wants, Run(agents, wants, Start(wants, others), acts).tasks)
  {
    RunKeepsIdsFirst(agents, wants, Start(wants, others), acts);
  }

  // ---------- Progress ----------

  /** An upper bound on the turns a task still takes. */
  function TurnsLeft(n: nat, want: Want, p: Progress): nat {
    match p
    case Looking(i) => if want.ById? then 4 else if i >= n then 1 else 4 * (n - i) + 1
    case Checked(i) => if want.ById? || i >= n then 3 else 4 * (n - i)
    case Upgraded(i) => if want.ById? || i >= n then 2 else 4 * (n - i) - 1
    case Losing(i) => if want.ById? || i >= n then 1 else 4 * (n - i) - 2
    case Claimed(_) => 0
    case Failed(_) => 0
  }

  /** Some task can always go on, and every turn of one that can brings it closer to its end. */
  lemma {:induction false} PairingGoesOn(agents: seq<Mapping>, wants: seq<Want>, s: State)
    requires InRange(agents, wants, s) && !AllDone(s)
    ensures exists j :: 0 <= j < |s.tasks| && !Done(s.tasks[j]) && MayRun(wants, s.tasks, j)
    ensures forall j :: 0 <= j < |s.tasks| && !Done(s.tasks[j]) && MayRun(wants, s.tasks, j) ==>
      TurnsLeft(|agents|, wants[j], Step(agents, wants, s, Turn(j)).tasks[j]) < TurnsLeft(|agents|, wants[j], s.tasks[j])
  {
    hide Count;
    if k :| 0 <= k < |s.tasks| && wants[k].ById? && !Done(s.tasks[k]) {
      assert MayRun(wants, s.tasks, k);
    } else {
      var j :| 0 <= j < |s.tasks| && !Done(s.tasks[j]);
      assert MayRun(wants, s.tasks, j);
    }
  }

  // ---------- Failing for nothing ----------

  /** Two tasks at the same place. */
  function Twins(others: map<nat, nat>, p: Progress): State {
    State(others, [p, p])
  }

  predicate AllFreeAndSuitable(agents: seq<Mapping>, mask: set<nat>, others: map<nat, nat>) {
    && (forall i :: 0 <= i < |agents| ==> mask <= agents[i].mask && agents[i].id in others && others[agents[i].id] == 1)
    && forall i, j :: 0 <= i < j < |agents| ==> agents[i].id != agents[j].id
  }

  function BothTurn(n: nat): seq<Act> {
    if n == 0 then [] else [Turn(0), Turn(1)] + BothTurn(n - 1)
  }

  lemma {:induction false} HoldersOfTwo(agents: seq<Mapping>, p: Progress, q: Progress, i: nat)
    requires i < |agents| && (HasRef(p) ==> p.at == i) && (HasRef(q) ==> q.at == i)
    ensures |Holders(agents, [p, q], agents[i].id)| == (if HasRef(p) then 1 else 0) + (if HasRef(q) then 1 else 0)
  {
    var holders := Holders(agents, [p, q], agents[i].id);
    assert 0 in holders <==> HasRef(p);
    assert 1 in holders <==> HasRef(q);
    assert holders == (if HasRef(p) then {0} else {}) + (if HasRef(q) then {1} else {});
  }

  lemma {:induction false} TwinTurn(agents: seq<Mapping>, a: Want, b: Want, others: map<nat, nat>, p: Progress, q: Progress)
    requires a.ByMask? && b.ByMask? && a.mask == b.mask && AllFreeAndSuitable(agents, a.mask, others)
    requires match p
      case Looking(i) => q == (if i < |agents| then Checked(i) else Failed(NoAvailableAgents(a.key)))
      case Checked(i) => i < |agents| && q == Upgraded(i)
      case Upgraded(i) => i < |agents| && q == Losing(i)
      case Losing(i) => i < |agents| && q == Looking(i + 1)
      case _ => false
    ensures InRange(agents, [a, b], Twins(others, p))
    ensures Step(agents, [a, b], Twins(others, p), Turn(0)) == State(others, [q, p])
    ensures InRange(agents, [a, b], State(others, [q, p]))
    ensures Step(agents, [a, b], State(others, [q, p]), Turn(1)) ==
      State(others, [q, if q.Failed? then Failed(NoAvailableAgents(b.key)) else q])
  {
    hide Holders;
    if p.at < |agents| {
      HoldersOfTwo(agents, p, p, p.at);
      if !q.Looking? {
        HoldersOfTwo(agents, q, p, p.at);
      } else {
        HoldersOfTwo(agents, q, p, p.at);
      }
    }
    assert [p, p][0 := q] == [q, p];
  }

  lemma {:induction false} TwinTurns(agents: seq<Mapping>, a: Want, b: Want, others: map<nat, nat>, p: Progress, q: Progress, more: seq<Act>)
    requires a.ByMask? && b.ByMask? && a.mask == b.mask && AllFreeAndSuitable(agents, a.mask, others)
    requires match p
      case Looking(i) => i < |agents| && q == Checked(i)
      case Checked(i) => i < |agents| && q == Upgraded(i)
      case Upgraded(i) => i < |agents| && q == Losing(i)
      case Losing(i) => i < |agents| && q == Looking(i + 1)
      case _ => false
    ensures InRange(agents, [a, b], Twins(others, p)) && InRange(agents, [a, b], Twins(others, q))
    ensures Run(agents, [a, b], Twins(others, p), [Turn(0), Turn(1)] + more) == Run(agents, [a, b], Twins(others, q), more)
  {
    hide Step;
    TwinTurn(agents, a, b, others, p, q);
    RunTwo(agents, [a, b], Twins(others, p), Turn(0), Turn(1), more);
  }

  lemma {:induction false} RunTwo(agents: seq<Mapping>, wants: seq<Want>, s: State, x: Act, y: Act, more: seq<Act>)
    requires InRange(agents, wants, s)
    ensures Run(agents, wants, s, [x, y] + more)
         == Run(agents, wants, Step(agents, wants, Step(agents, wants, s, x), y), more)
  {
    hide Step;
    assert ([x, y] + more)[1..] == [y] + more;
    assert ([y] + more)[1..] == more;
  }

  lemma {:induction false} TwinsFail(agents: seq<Mapping>, a: Want, b: Want, others: map<nat, nat>, i: nat)
    requires a.ByMask? && b.ByMask? && a.mask == b.mask && AllFreeAndSuitable(agents, a.mask, others) && i <= |agents|
    ensures InRange(agents, [a, b], Twins(others, Looking(i)))
    ensures Run(agents, [a, b], Twins(others, Looking(i)), BothTurn(4 * (|agents| - i) + 1)).tasks
         == [Failed(NoAvailableAgents(a.key)), Failed(NoAvailableAgents(b.key))]
    decreases |agents| - i
  {
    hide Step;
    if i == |agents| {
      TwinTurn(agents, a, b, others, Looking(i), Failed(NoAvailableAgents(a.key)));
      RunTwo(agents, [a, b], Twins(others, Looking(i)), Turn(0), Turn(1), []);
      assert BothTurn(1) == [Turn(0), Turn(1)] + [];
    } else {
      var n := 4 * (|agents| - i) + 1;
      TwinsFail(agents, a, b, others, i + 1);
      TwinTurns(agents, a, b, others, Looking(i), Checked(i), BothTurn(n - 1));
      TwinTurns(agents, a, b, others, Checked(i), Upgraded(i), BothTurn(n - 2));
      TwinTurns(agents, a, b, others, Upgraded(i), Losing(i), BothTurn(n - 3));
      TwinTurns(agents, a, b, others, Losing(i), Looking(i + 1), BothTurn(n - 4));
    }
  }

  /**
   However many agents are free and suitable, two nodes that ask for them at
   the same time can both be turned away: each time they take their references
   together, neither is the second, and both move on.
   */
  lemma {:induction false} PairingCanFailNeedlessly(agents: seq<Mapping>, a: Want, b: Want, others: map<nat, nat>)
    requires a.ByMask? && b.ByMask? && a.mask == b.mask && AllFreeAndSuitable(agents, a.mask, others) && |agents| >= 2
    ensures
      var acts := BothTurn(4 * |agents| + 1);
      AllDone(Run(agents, [a, b], Start([a, b], others), acts))
      && PairWithNodes(agents, [a, b], others, acts) == Err([NoAvailableAgents(a.key), NoAvailableAgents(b.key)])
  {
    hide Run, BothTurn;
    TwinsFail(agents, a, b, others, 0);
    assert Start([a, b], others) == Twins(others, Looking(0));
    TwoErrors(NoAvailableAgents(a.key), NoAvailableAgents(b.key));
    var end := Run(agents, [a, b], Start([a, b], others), BothTurn(4 * |agents| + 1));
    assert end.tasks[0].Failed? && end.tasks[1].Failed?;
  }

  lemma {:induction false} TwoErrors(x: DelegationError, y: DelegationError)
    ensures Errors([Failed(x), Failed(y)]) == [x, y]
  {
    assert [Failed(x), Failed(y)][1..] == [Failed(y)] && [Failed(y)][1..] == [];
    assert Errors([Failed(y)]) == [y] + Errors([]);
    assert Errors([]) == [];
  }
}
