/**
 When pairing does find an agent.  A task that runs undisturbed claims an agent
 exactly if one that suits its node is free; tasks that run one after the other
 all do if there are enough such agents; and every fair schedule ends.
 */
module PairingTurns {
  import opened Wrappers
  import opened Pairing
  import opened PairingProofs

  function Turns(j: nat, n: nat): seq<Act> {
    if n == 0 then [] else [Turn(j)] + Turns(j, n - 1)
  }

  function With(s: State, j: nat, p: Progress): State
    requires j < |s.tasks|
  {
    s.(tasks := s.tasks[j := p])
  }

  lemma {:induction false} RunAppend(agents: seq<Mapping>, wants: seq<Want>, s: State, a: seq<Act>, b: seq<Act>)
    requires InRange(agents, wants, s)
    ensures Run(agents, wants, s, a + b) == Run(agents, wants, Run(agents, wants, s, a), b)
    decreases |a|
  {
    hide Step;
    if a == [] {
      assert a + b == b;
    } else {
      assert (a + b)[0] == a[0] && (a + b)[1..] == a[1..] + b;
      RunAppend(agents, wants, Step(agents, wants, s, a[0]), a[1..], b);
    }
  }

  lemma {:induction false} OneTurn(agents: seq<Mapping>, wants: seq<Want>, s: State, j: nat, n: nat)
    requires InRange(agents, wants, s) && n > 0
    ensures Run(agents, wants, s, Turns(j, n))
         == Run(agents, wants, Step(agents, wants, s, Turn(j)), Turns(j, n - 1))
  {
    hide Step;
    var acts := Turns(j, n);
    assert acts[0] == Turn(j) && acts[1..] == Turns(j, n - 1);
  }

  lemma {:induction false} DoneStays(agents: seq<Mapping>, wants: seq<Want>, s: State, j: nat, n: nat)
    requires InRange(agents, wants, s) && j < |s.tasks| && Done(s.tasks[j])
    ensures Run(agents, wants, s, Turns(j, n)) == s
    decreases n
  {
    if n > 0 {
      OneTurn(agents, wants, s, j, n);
      assert Step(agents, wants, s, Turn(j)).tasks == s.tasks;
      DoneStays(agents, wants, s, j, n - 1);
    }
  }

  // ---------- Counts ----------

  /** The references to an agent apart from those of one task. */
  lemma {:induction false} CountWith(agents: seq<Mapping>, s: State, j: nat, p: Progress, agent: nat)
    requires j < |s.tasks| && !HasRef(s.tasks[j])
    ensures Count(agents, With(s, j, p), agent) ==
      Count(agents, s, agent) + (if HasRef(p) && p.at < |agents| && agents[p.at].id == agent then 1 else 0)
  {
    var before := Holders(agents, s.tasks, agent);
    var after := Holders(agents, With(s, j, p).tasks, agent);
    assert before - {j} == after - {j};
    SizeChange(before, after, j);
  }

  /** An agent that only has its own reference. */
  predicate Free(agents: seq<Mapping>, s: State, k: nat) {
    k < |agents| && Count(agents, s, agents[k].id) == 1
  }

  predicate FreeFor(agents: seq<Mapping>, s: State, mask: set<nat>, k: nat) {
    k < |agents| && mask <= agents[k].mask && Free(agents, s, k)
  }

  predicate Alone(agents: seq<Mapping>, wants: seq<Want>, s: State, j: nat) {
    InRange(agents, wants, s) && j < |s.tasks| && !HasRef(s.tasks[j]) && MayRun(wants, s.tasks, j)
  }

  lemma {:induction false} StillAlone(agents: seq<Mapping>, wants: seq<Want>, s: State, j: nat, p: Progress)
    requires Alone(agents, wants, s, j) && (p.Failed? || p.Looking? || p.at < |agents|)
    ensures InRange(agents, wants, With(s, j, p)) && MayRun(wants, With(s, j, p).tasks, j)
    ensures With(With(s, j, p), j, s.tasks[j]) == s
    ensures forall q :: With(With(s, j, p), j, q) == With(s, j, q)
  {
  }

  // ---------- A task for any agent with a mask ----------

  /** What one turn does, said of the state before the task took a reference. */
  lemma {:induction false} MaskTurn(agents: seq<Mapping>, wants: seq<Want>, s: State, j: nat, p: Progress)
    requires Alone(agents, wants, s, j) && wants[j].ByMask? && (p.Looking? || p.Checked? || p.Upgraded?) && p.at < |agents|
    ensures InRange(agents, wants, With(s, j, p))
    ensures
      var count := Count(agents, s, agents[p.at].id);
      Step(agents, wants, With(s, j, p), Turn(j)) == With(s, j,
        if p.Looking? then
          if wants[j].mask <= agents[p.at].mask && count <= 1 then Checked(p.at) else Looking(p.at + 1)
        else if p.Checked? then
          if count == 0 then Looking(p.at + 1) else Upgraded(p.at)
        else
          if count == 1 then Claimed(p.at) else Losing(p.at))
  {
    hide Count, Holders;
    StillAlone(agents, wants, s, j, p);
    CountWith(agents, s, j, p, agents[p.at].id);
  }

  /** An agent that is free and suits is claimed. */
  lemma {:induction false} MaskClaims(agents: seq<Mapping>, wants: seq<Want>, s: State, j: nat, i: nat, n: nat)
    requires Alone(agents, wants, s, j) && wants[j].ByMask? && FreeFor(agents, s, wants[j].mask, i) && n >= 3
    ensures InRange(agents, wants, With(s, j, Looking(i)))
    ensures Run(agents, wants, With(s, j, Looking(i)), Turns(j, n)) == With(s, j, Claimed(i))
  {
    hide Step, Count, Run, Turns, MayRun;
    MaskTurn(agents, wants, s, j, Looking(i));
    MaskTurn(agents, wants, s, j, Checked(i));
    MaskTurn(agents, wants, s, j, Upgraded(i));
    OneTurn(agents, wants, With(s, j, Looking(i)), j, n);
    OneTurn(agents, wants, With(s, j, Checked(i)), j, n - 1);
    OneTurn(agents, wants, With(s, j, Upgraded(i)), j, n - 2);
    StillAlone(agents, wants, s, j, Claimed(i));
    DoneStays(agents, wants, With(s, j, Claimed(i)), j, n - 3);
  }

  /** Any other agent is passed over. */
  lemma {:induction false} MaskSkips(agents: seq<Mapping>, wants: seq<Want>, s: State, j: nat, i: nat, n: nat)
    returns (used: nat)
    requires Alone(agents, wants, s, j) && wants[j].ByMask? && i < |agents| && !FreeFor(agents, s, wants[j].mask, i) && n >= 2
    ensures 1 <= used <= 2
    ensures InRange(agents, wants, With(s, j, Looking(i))) && InRange(agents, wants, With(s, j, Looking(i + 1)))
    ensures Run(agents, wants, With(s, j, Looking(i)), Turns(j, n))
         == Run(agents, wants, With(s, j, Looking(i + 1)), Turns(j, n - used))
  {
    hide Step, Count, Run, Turns, MayRun;
    StillAlone(agents, wants, s, j, Looking(i + 1));
    MaskTurn(agents, wants, s, j, Looking(i));
    OneTurn(agents, wants, With(s, j, Looking(i)), j, n);
    used := 1;
    if wants[j].mask <= agents[i].mask && Count(agents, s, agents[i].id) <= 1 {
      MaskTurn(agents, wants, s, j, Checked(i));
      OneTurn(agents, wants, With(s, j, Checked(i)), j, n - 1);
      used := 2;
    }
  }

  /** The first agent from `i` on that is free and suits. */
  function FirstFree(agents: seq<Mapping>, s: State, mask: set<nat>, i: nat): (r: Option<nat>)
    ensures r.Some? ==> i <= r.value && FreeFor(agents, s, mask, r.value) && forall k :: i <= k < r.value ==> !FreeFor(agents, s, mask, k)
    ensures r.None? ==> forall k :: i <= k < |agents| ==> !FreeFor(agents, s, mask, k)
    decreases |agents| - i
  {
    if i >= |agents| then None
    else if FreeFor(agents, s, mask, i) then Some(i)
    else FirstFree(agents, s, mask, i + 1)
  }

  lemma {:induction false} MaskSettles(agents: seq<Mapping>, wants: seq<Want>, s: State, j: nat, i: nat, n: nat)
    requires Alone(agents, wants, s, j) && wants[j].ByMask? && n >= TurnsLeft(|agents|, wants[j], Looking(i))
    ensures InRange(agents, wants, With(s, j, Looking(i)))
    ensures Run(agents, wants, With(s, j, Looking(i)), Turns(j, n)) == With(s, j,
      match FirstFree(agents, s, wants[j].mask, i)
      case Some(k) => Claimed(k)
      case None => Failed(NoAvailableAgents(wants[j].key)))
    decreases |agents| - i
  {
    hide Step, Count, Run, Turns, MayRun, FreeFor;
    StillAlone(agents, wants, s, j, Looking(i));
    if i >= |agents| {
      LastTurn(agents, wants, s, j, i);
      OneTurn(agents, wants, With(s, j, Looking(i)), j, n);
      var failed := Failed(NoAvailableAgents(wants[j].key));
      StillAlone(agents, wants, s, j, failed);
      DoneStays(agents, wants, With(s, j, failed), j, n - 1);
    } else if FreeFor(agents, s, wants[j].mask, i) {
      MaskClaims(agents, wants, s, j, i, n);
    } else {
      var used := MaskSkips(agents, wants, s, j, i, n);
      MaskSettles(agents, wants, s, j, i + 1, n - used);
    }
  }

  lemma {:induction false} LastTurn(agents: seq<Mapping>, wants: seq<Want>, s: State, j: nat, i: nat)
    requires Alone(agents, wants, s, j) && wants[j].ByMask? && i >= |agents|
    ensures InRange(agents, wants, With(s, j, Looking(i)))
    ensures Step(agents, wants, With(s, j, Looking(i)), Turn(j)) == With(s, j, Failed(NoAvailableAgents(wants[j].key)))
  {
    hide Count;
    StillAlone(agents, wants, s, j, Looking(i));
  }

  /**
   Left alone, a task for any agent with a mask ends.  It has claimed an agent
   exactly if one of those it still looks at is free and has the mask, and then
   the first of them; nothing else has changed.
   */
  lemma {:induction false} LoneMaskTask(agents: seq<Mapping>, wants: seq<Want>, s: State, j: nat, i: nat, n: nat)
    requires InRange(agents, wants, s) && j < |s.tasks| && wants[j].ByMask? && MayRun(wants, s.tasks, j)
    requires s.tasks[j] == Looking(i) && n >= TurnsLeft(|agents|, wants[j], Looking(i))
    ensures
      var end := Run(agents, wants, s, Turns(j, n));
      && end == With(s, j, end.tasks[j]) && Done(end.tasks[j])
      && (end.tasks[j].Claimed? <==> exists k :: i <= k && FreeFor(agents, s, wants[j].mask, k))
      && (end.tasks[j].Claimed? ==> i <= end.tasks[j].at && FreeFor(agents, s, wants[j].mask, end.tasks[j].at))
      && (end.tasks[j].Claimed? ==> forall k :: i <= k < end.tasks[j].at ==> !FreeFor(agents, s, wants[j].mask, k))
  {
    hide Step, Count, Run, Turns, MayRun;
    MaskSettles(agents, wants, s, j, i, n);
    assert With(s, j, Looking(i)) == s;
  }

  // ---------- A task for one agent ----------

  lemma {:induction false} IdTurn(agents: seq<Mapping>, wants: seq<Want>, s: State, j: nat, p: Progress)
    requires Alone(agents, wants, s, j) && wants[j].ById? && (p.Checked? || p.Upgraded?) && p.at < |agents|
    ensures InRange(agents, wants, With(s, j, p))
    ensures
      var count := Count(agents, s, agents[p.at].id);
      Step(agents, wants, With(s, j, p), Turn(j)) == With(s, j,
        if p.Checked? then
          if count == 0 then Failed(AgentAlreadyClaimed(wants[j].id, wants[j].key)) else Upgraded(p.at)
        else
          if count == 1 then Claimed(p.at) else Losing(p.at))
  {
    hide Count, Holders;
    StillAlone(agents, wants, s, j, p);
    CountWith(agents, s, j, p, agents[p.at].id);
  }

  /** What a task for one agent comes to. */
  function IdResult(agents: seq<Mapping>, s: State, want: Want): Progress
    requires want.ById?
  {
    match Find(agents, want.id)
    case None => Failed(AgentNotFound(want.id, want.key))
    case Some(i) =>
      if Bit(want.key.ty) !in agents[i].mask then Failed(AgentMissingMode(want.id, want.key))
      else if Free(agents, s, i) then Claimed(i)
      else Failed(AgentAlreadyClaimed(want.id, want.key))
  }

  lemma {:induction false} IdLook(agents: seq<Mapping>, wants: seq<Want>, s: State, j: nat)
    requires Alone(agents, wants, s, j) && wants[j].ById? && s.tasks[j].Looking?
    ensures
      var found := Find(agents, wants[j].id);
      Step(agents, wants, s, Turn(j)) == With(s, j,
        if found.Some? && Bit(wants[j].key.ty) in agents[found.value].mask && Count(agents, s, agents[found.value].id) <= 1
        then Checked(found.value)
        else IdResult(agents, s, wants[j]))
  {
    hide Count, Find;
  }

  /**
   Left alone, a task for one agent ends.  It has claimed the agent exactly if
   the agent is there, supports the type of the node and is free; otherwise the
   error says which of the three is missing.
   */
  lemma {:induction false} LoneIdTask(agents: seq<Mapping>, wants: seq<Want>, s: State, j: nat, n: nat)
    requires InRange(agents, wants, s) && j < |s.tasks| && wants[j].ById? && s.tasks[j].Looking? && n >= 4
    ensures
      var end := Run(agents, wants, s, Turns(j, n));
      var found := Find(agents, wants[j].id);
      && end == With(s, j, end.tasks[j]) && Done(end.tasks[j])
      && (end.tasks[j].Claimed? <==> found.Some? && Bit(wants[j].key.ty) in agents[found.value].mask && Free(agents, s, found.value))
      && (end.tasks[j].Claimed? ==> end.tasks[j].at == found.value)
      && (end.tasks[j] == Failed(AgentNotFound(wants[j].id, wants[j].key)) <==> found.None?)
      && (end.tasks[j] == Failed(AgentMissingMode(wants[j].id, wants[j].key)) <==>
            found.Some? && Bit(wants[j].key.ty) !in agents[found.value].mask)
  {
    hide Step, Count, Run, Turns, Find;
    var found := Find(agents, wants[j].id);
    IdLook(agents, wants, s, j);
    OneTurn(agents, wants, s, j, n);
    var result := IdResult(agents, s, wants[j]);
    StillAlone(agents, wants, s, j, result);
    if found.Some? && Bit(wants[j].key.ty) in agents[found.value].mask && Count(agents, s, agents[found.value].id) <= 1 {
      IdTurn(agents, wants, s, j, Checked(found.value));
      OneTurn(agents, wants, With(s, j, Checked(found.value)), j, n - 1);
      if Free(agents, s, found.value) {
        IdTurn(agents, wants, s, j, Upgraded(found.value));
        OneTurn(agents, wants, With(s, j, Upgraded(found.value)), j, n - 2);
        DoneStays(agents, wants, With(s, j, result), j, n - 3);
      } else {
        DoneStays(agents, wants, With(s, j, result), j, n - 2);
      }
    } else {
      DoneStays(agents, wants, With(s, j, result), j, n - 1);
    }
  }

  // ---------- One task after the other ----------

  function OneByOne(order: seq<nat>, n: nat): seq<Act>
    decreases |order|
  {
    if order == [] then [] else Turns(order[0], n) + OneByOne(order[1..], n)
  }

  /** The agents nobody has taken that have a mask. */
  function Suitable(agents: seq<Mapping>, others: map<nat, nat>, mask: set<nat>): set<nat> {
    set k | 0 <= k < |agents| && mask <= agents[k].mask && agents[k].id in others && others[agents[k].id] == 1
  }

  predicate DistinctAgents(agents: seq<Mapping>) {
    forall i, k :: 0 <= i < k < |agents| ==> agents[i].id != agents[k].id
  }

  /** The agent a node wants is there, supports its type, and nobody has taken it. */
  predicate CanHave(agents: seq<Mapping>, others: map<nat, nat>, want: Want)
    requires want.ById?
  {
    var found := Find(agents, want.id);
    found.Some? && Bit(want.key.ty) in agents[found.value].mask && want.id in others && others[want.id] == 1
  }

  /** Nodes that want a particular agent can have one of their own, and for every other node there are enough agents. */
  predicate EnoughFor(agents: seq<Mapping>, wants: seq<Want>, others: map<nat, nat>) {
    && DistinctAgents(agents)
    && (forall j :: 0 <= j < |wants| && wants[j].ById? ==> CanHave(agents, others, wants[j]))
    && (forall j, k :: 0 <= j < k < |wants| && wants[j].ById? && wants[k].ById? ==> wants[j].id != wants[k].id)
    && (forall j :: 0 <= j < |wants| && wants[j].ByMask? ==> |Suitable(agents, others, wants[j].mask)| >= |wants|)
  }

  /** Every task once, those for a particular agent first. */
  predicate IdsFirst(wants: seq<Want>, todo: seq<nat>) {
    && (forall p :: 0 <= p < |todo| ==> todo[p] < |wants|)
    && (forall p, q :: 0 <= p < q < |todo| ==> todo[p] != todo[q])
    && (forall p, q :: 0 <= p < q < |todo| && wants[todo[q]].ById? ==> wants[todo[p]].ById?)
  }

  /** The tasks that are still to run have not begun, the others have claimed an agent. */
  ghost predicate Underway(agents: seq<Mapping>, wants: seq<Want>, others: map<nat, nat>, s: State, todo: seq<nat>) {
    && Sound(agents, wants, s) && s.others == others && IdsFirst(wants, todo)
    && (forall j :: 0 <= j < |s.tasks| ==> if j in todo then s.tasks[j] == Looking(0) else s.tasks[j].Claimed?)
    && (forall p, j :: 0 <= p < |todo| && wants[todo[p]].ById? && 0 <= j < |wants| && wants[j].ByMask? ==> j in todo)
  }

  /** Fewer than all tasks hold fewer agents than there are tasks. */
  function Taken(tasks: seq<Progress>): set<nat> {
    if tasks == [] then {}
    else
      var last := tasks[|tasks| - 1];
      Taken(tasks[..|tasks| - 1]) + if last.Claimed? then {last.at} else {}
  }

  lemma {:induction false} TakenAre(tasks: seq<Progress>, j: nat)
    ensures |Taken(tasks)| <= |tasks| && (j < |tasks| && !tasks[j].Claimed? ==> |Taken(tasks)| < |tasks|)
    ensures j < |tasks| && tasks[j].Claimed? ==> tasks[j].at in Taken(tasks)
    decreases |tasks|
  {
    if tasks != [] {
      TakenAre(tasks[..|tasks| - 1], j);
    }
  }

  /** A larger set has an element the smaller one lacks. */
  lemma {:induction false} Outside(large: set<nat>, small: set<nat>) returns (k: nat)
    requires |large| > |small|
    ensures k in large && k !in small
  {
    if large - small == {} {
      forall x | x in large ensures x in small {
        assert x !in large - small;
      }
      SubsetSize(large, small);
    }
    k := Member(large - small);
  }

  lemma {:induction false} SubsetSize(a: set<nat>, b: set<nat>)
    requires a <= b
    ensures |a| <= |b|
    decreases |a|
  {
    if a != {} {
      var x := Member(a);
      SizeWithout(a, x);
      SizeWithout(b, x);
      SubsetSize(a - {x}, b - {x});
    }
  }

  lemma {:induction false} UntakenIsFree(
    agents: seq<Mapping>, wants: seq<Want>, others: map<nat, nat>, s: State, todo: seq<nat>, k: nat)
    requires DistinctAgents(agents) && Underway(agents, wants, others, s, todo)
    requires k < |agents| && k !in Taken(s.tasks) && agents[k].id in others && others[agents[k].id] == 1
    ensures Free(agents, s, k)
  {
    var holders := Holders(agents, s.tasks, agents[k].id);
    forall q | 0 <= q < |s.tasks| && HasRef(s.tasks[q]) ensures agents[s.tasks[q].at].id != agents[k].id {
      TakenAre(s.tasks, q);
    }
    assert holders == {};
  }

  lemma {:induction false} UnwantedIsFree(
    agents: seq<Mapping>, wants: seq<Want>, others: map<nat, nat>, s: State, todo: seq<nat>)
    requires EnoughFor(agents, wants, others) && Underway(agents, wants, others, s, todo)
    requires todo != [] && wants[todo[0]].ById?
    ensures
      var found := Find(agents, wants[todo[0]].id);
      found.Some? && Bit(wants[todo[0]].key.ty) in agents[found.value].mask && Free(agents, s, found.value)
  {
    hide Find, Suitable;
    var j := todo[0];
    assert CanHave(agents, others, wants[j]);
    var k := Find(agents, wants[j].id).value;
    var holders := Holders(agents, s.tasks, agents[k].id);
    forall q | 0 <= q < |s.tasks| && HasRef(s.tasks[q]) ensures agents[s.tasks[q].at].id != agents[k].id {
      assert q !in todo;
      assert wants[q].ById? && Fits(wants[q], agents[s.tasks[q].at]);
    }
    assert holders == {};
  }

  lemma {:induction false} HeadMayRun(
    agents: seq<Mapping>, wants: seq<Want>, others: map<nat, nat>, s: State, todo: seq<nat>)
    requires Underway(agents, wants, others, s, todo) && todo != []
    ensures todo[0] in todo && MayRun(wants, s.tasks, todo[0])
  {
    hide Sound;
    var j := todo[0];
    assert |wants| == |s.tasks| by { assert InRange(agents, wants, s) by { SoundInRange(agents, wants, s); } }
    if wants[j].ByMask? {
      forall k | 0 <= k < |s.tasks| && wants[k].ById? ensures Done(s.tasks[k]) {
        assert k !in todo;
      }
    }
  }

  lemma {:induction false} SoundInRange(agents: seq<Mapping>, wants: seq<Want>, s: State)
    requires Sound(agents, wants, s)
    ensures InRange(agents, wants, s)
  {
  }

  lemma {:induction false} FreeAndSuitable(agents: seq<Mapping>, s: State, mask: set<nat>, k: nat)
    requires Free(agents, s, k) && mask <= agents[k].mask
    ensures FreeFor(agents, s, mask, k)
  {
  }

  /** The next task claims an agent. */
  lemma {:induction false} HeadClaims(
    agents: seq<Mapping>, wants: seq<Want>, others: map<nat, nat>, s: State, todo: seq<nat>, n: nat)
    requires EnoughFor(agents, wants, others) && Underway(agents, wants, others, s, todo) && todo != []
    requires n >= 4 * |agents| + 4
    ensures InRange(agents, wants, s)
    ensures
      var end := Run(agents, wants, s, Turns(todo[0], n));
      end == With(s, todo[0], end.tasks[todo[0]]) && end.tasks[todo[0]].Claimed?
  {
    hide Run, Turns, Count, Find, MayRun, Suitable, FreeFor;
    var j := todo[0];
    HeadMayRun(agents, wants, others, s, todo);
    if wants[j].ById? {
      UnwantedIsFree(agents, wants, others, s, todo);
      LoneIdTask(agents, wants, s, j, n);
    } else {
      var mask := wants[j].mask;
      TakenAre(s.tasks, j);
      var k := Outside(Suitable(agents, others, mask), Taken(s.tasks));
      SuitableMeans(agents, others, mask, k);
      UntakenIsFree(agents, wants, others, s, todo, k);
      FreeAndSuitable(agents, s, mask, k);
      LoneMaskTask(agents, wants, s, j, 0, n);
    }
  }

  lemma {:induction false} SuitableMeans(agents: seq<Mapping>, others: map<nat, nat>, mask: set<nat>, k: nat)
    requires k in Suitable(agents, others, mask)
    ensures k < |agents| && mask <= agents[k].mask && agents[k].id in others && others[agents[k].id] == 1
  {
  }

  lemma {:induction false} TurnsStay(j: nat, n: nat)
    ensures AgentsStay(Turns(j, n))
    decreases n
  {
    if n > 0 {
      TurnsStay(j, n - 1);
      var rest := Turns(j, n - 1);
      assert forall i :: 0 < i <= |rest| ==> Turns(j, n)[i] == rest[i - 1];
    }
  }

  lemma {:induction false} OthersMoveOn(
    agents: seq<Mapping>, wants: seq<Want>, others: map<nat, nat>, s: State, todo: seq<nat>, next: State)
    requires Underway(agents, wants, others, s, todo) && todo != [] && todo[0] < |s.tasks|
    requires Sound(agents, wants, next) && next.tasks[todo[0]].Claimed? && next == With(s, todo[0], next.tasks[todo[0]])
    ensures Underway(agents, wants, others, next, todo[1..])
  {
    hide Sound;
    var rest := todo[1..];
    assert todo == [todo[0]] + rest;
    assert todo[0] !in rest;
    assert forall j :: j in todo <==> j == todo[0] || j in rest;
    assert forall p :: 0 <= p < |rest| ==> rest[p] == todo[p + 1];
  }

  lemma {:induction false} AllClaim(
    agents: seq<Mapping>, wants: seq<Want>, others: map<nat, nat>, s: State, todo: seq<nat>, n: nat)
    requires EnoughFor(agents, wants, others) && Underway(agents, wants, others, s, todo) && n >= 4 * |agents| + 4
    ensures InRange(agents, wants, s)
    ensures forall j :: 0 <= j < |wants| ==> Run(agents, wants, s, OneByOne(todo, n)).tasks[j].Claimed?
    decreases |todo|
  {
    hide Sound, Turns, EnoughFor;
    SoundInRange(agents, wants, s);
    if todo != [] {
      HeadClaims(agents, wants, others, s, todo, n);
      var next := Run(agents, wants, s, Turns(todo[0], n));
      TurnsStay(todo[0], n);
      RunKeepsSound(agents, wants, s, Turns(todo[0], n));
      OthersMoveOn(agents, wants, others, s, todo, next);
      AllClaim(agents, wants, others, next, todo[1..], n);
      RunAppend(agents, wants, s, Turns(todo[0], n), OneByOne(todo[1..], n));
    }
  }

  /**
   Pairing turns nobody away who runs alone: if every node that wants a
   particular agent can have it and every other node has at least as many agents
   to choose from as there are nodes, tasks that run one after the other give Ok.
   */
  lemma {:induction false} OneByOneSucceeds(
    agents: seq<Mapping>, wants: seq<Want>, others: map<nat, nat>, order: seq<nat>)
    requires AgentsThere(agents, others) && EnoughFor(agents, wants, others) && |agents| >= |wants|
    requires IdsFirst(wants, order) && forall j :: 0 <= j < |wants| ==> j in order
    ensures
      var acts := OneByOne(order, 4 * |agents| + 4);
      AllDone(Run(agents, wants, Start(wants, others), acts)) && PairWithNodes(agents, wants, others, acts).Ok?
  {
    hide Run, OneByOne, EnoughFor;
    var s := Start(wants, others);
    StartIsSound(agents, wants, others);
    assert Underway(agents, wants, others, s, order);
    AllClaim(agents, wants, others, s, order, 4 * |agents| + 4);
  }

  // ---------- Fair schedules ----------

  /** An upper bound on the turns all tasks still take. */
  function Total(n: nat, wants: seq<Want>, tasks: seq<Progress>): nat
    requires |wants| == |tasks|
    decreases |tasks|
  {
    if tasks == [] then 0
    else
      var k := |tasks| - 1;
      Total(n, wants[..k], tasks[..k]) + TurnsLeft(n, wants[k], tasks[k])
  }

  /** Every task has at least one turn. */
  predicate Round(acts: seq<Act>, tasks: nat) {
    forall j :: 0 <= j < tasks ==> Turn(j) in acts
  }

  function Concat(rounds: seq<seq<Act>>): seq<Act>
    decreases |rounds|
  {
    if rounds == [] then [] else rounds[0] + Concat(rounds[1..])
  }

  /** One act changes one task at most, which comes no further from its end; done tasks stay done. */
  lemma {:induction false} StepNeverRaises(agents: seq<Mapping>, wants: seq<Want>, s: State, a: Act, j: nat)
    requires InRange(agents, wants, s) && j < |s.tasks|
    ensures
      var next := Step(agents, wants, s, a);
      && TurnsLeft(|agents|, wants[j], next.tasks[j]) <= TurnsLeft(|agents|, wants[j], s.tasks[j])
      && (Done(s.tasks[j]) ==> Done(next.tasks[j])) && (a != Turn(j) ==> next.tasks[j] == s.tasks[j])
      && (MayRun(wants, s.tasks, j) ==> MayRun(wants, next.tasks, j))
      && (a == Turn(j) && !Done(s.tasks[j]) && MayRun(wants, s.tasks, j) ==>
            TurnsLeft(|agents|, wants[j], next.tasks[j]) < TurnsLeft(|agents|, wants[j], s.tasks[j]))
  {
    hide Count, Find;
    if !AllDone(s) {
      PairingGoesOn(agents, wants, s);
    }
  }

  lemma {:induction false} RunNeverRaises(agents: seq<Mapping>, wants: seq<Want>, s: State, acts: seq<Act>, j: nat)
    requires InRange(agents, wants, s) && j < |s.tasks|
    ensures
      var end := Run(agents, wants, s, acts);
      && TurnsLeft(|agents|, wants[j], end.tasks[j]) <= TurnsLeft(|agents|, wants[j], s.tasks[j])
      && (Turn(j) in acts && !Done(s.tasks[j]) && MayRun(wants, s.tasks, j) ==>
            TurnsLeft(|agents|, wants[j], end.tasks[j]) < TurnsLeft(|agents|, wants[j], s.tasks[j]))
    decreases |acts|
  {
    hide Step, MayRun, TurnsLeft;
    if acts != [] {
      var next := Step(agents, wants, s, acts[0]);
      StepNeverRaises(agents, wants, s, acts[0], j);
      RunNeverRaises(agents, wants, next, acts[1..], j);
    }
  }

  lemma {:induction false} TotalDrops(n: nat, wants: seq<Want>, before: seq<Progress>, after: seq<Progress>, j: int)
    requires |wants| == |before| == |after|
    requires forall k :: 0 <= k < |wants| ==> TurnsLeft(n, wants[k], after[k]) <= TurnsLeft(n, wants[k], before[k])
    ensures Total(n, wants, after) <= Total(n, wants, before)
    ensures 0 <= j < |wants| && TurnsLeft(n, wants[j], after[j]) < TurnsLeft(n, wants[j], before[j]) ==>
      Total(n, wants, after) < Total(n, wants, before)
    decreases |wants|
  {
    hide TurnsLeft;
    if wants != [] {
      var k := |wants| - 1;
      TotalDrops(n, wants[..k], before[..k], after[..k], j);
    }
  }

  lemma {:induction false} RoundAdvances(agents: seq<Mapping>, wants: seq<Want>, s: State, acts: seq<Act>)
    requires InRange(agents, wants, s) && Round(acts, |wants|)
    ensures
      var end := Run(agents, wants, s, acts);
      Total(|agents|, wants, end.tasks) <= Total(|agents|, wants, s.tasks)
      && (!AllDone(s) ==> Total(|agents|, wants, end.tasks) < Total(|agents|, wants, s.tasks))
  {
    hide Run, TurnsLeft, Total;
    var end := Run(agents, wants, s, acts);
    forall k | 0 <= k < |wants|
      ensures TurnsLeft(|agents|, wants[k], end.tasks[k]) <= TurnsLeft(|agents|, wants[k], s.tasks[k])
    {
      RunNeverRaises(agents, wants, s, acts, k);
    }
    if AllDone(s) {
      TotalDrops(|agents|, wants, s.tasks, end.tasks, -1);
    } else {
      PairingGoesOn(agents, wants, s);
      var j :| 0 <= j < |s.tasks| && !Done(s.tasks[j]) && MayRun(wants, s.tasks, j);
      RunNeverRaises(agents, wants, s, acts, j);
      TotalDrops(|agents|, wants, s.tasks, end.tasks, j);
    }
  }

  lemma {:induction false} NothingLeft(n: nat, wants: seq<Want>, tasks: seq<Progress>, j: nat)
    requires |wants| == |tasks| && j < |tasks| && !Done(tasks[j])
    ensures Total(n, wants, tasks) > 0
    decreases |tasks|
  {
    var k := |tasks| - 1;
    if j < k {
      NothingLeft(n, wants[..k], tasks[..k], j);
    }
  }

  /** A schedule in which every task has a turn again and again ends all of them, whatever strangers do. */
  lemma {:induction false} FairSchedulesEnd(agents: seq<Mapping>, wants: seq<Want>, s: State, rounds: seq<seq<Act>>)
    requires InRange(agents, wants, s) && |rounds| >= Total(|agents|, wants, s.tasks)
    requires forall r :: 0 <= r < |rounds| ==> Round(rounds[r], |wants|)
    ensures AllDone(Run(agents, wants, s, Concat(rounds)))
    decreases |rounds|
  {
    hide Step, Total;
    if rounds == [] {
      if j :| 0 <= j < |s.tasks| && !Done(s.tasks[j]) {
        NothingLeft(|agents|, wants, s.tasks, j);
      }
    } else {
      RoundAdvances(agents, wants, s, rounds[0]);
      RunAppend(agents, wants, s, rounds[0], Concat(rounds[1..]));
      var next := Run(agents, wants, s, rounds[0]);
      if AllDone(s) {
        DoneForGood(agents, wants, s, Concat(rounds));
      } else {
        FairSchedulesEnd(agents, wants, next, rounds[1..]);
      }
    }
  }

  lemma {:induction false} DoneForGood(agents: seq<Mapping>, wants: seq<Want>, s: State, acts: seq<Act>)
    requires InRange(agents, wants, s) && AllDone(s)
    ensures AllDone(Run(agents, wants, s, acts))
    decreases |acts|
  {
    hide Step;
    if acts != [] {
      var next := Step(agents, wants, s, acts[0]);
      forall j | 0 <= j < |next.tasks| ensures Done(next.tasks[j]) {
        StepNeverRaises(agents, wants, s, acts[0], j);
      }
      DoneForGood(agents, wants, next, acts[1..]);
    }
  }

  // ---------- Schedules that cannot fail ----------

  /** Where the agent is that suits a want and no other. */
  predicate OwnAgent(agents: seq<Mapping>, wants: seq<Want>, j: nat, k: nat)
    requires j < |wants|
  {
    k < |agents| && Fits(wants[j], agents[k])
    && forall i :: 0 <= i < |wants| && i != j ==> !Fits(wants[i], agents[k])
  }

  /** Each want has an agent of its own that nobody else has taken. */
  predicate OwnAgents(agents: seq<Mapping>, wants: seq<Want>, others: map<nat, nat>, own: seq<nat>) {
    && DistinctAgents(agents) && |own| == |wants|
    && (forall j :: 0 <= j < |wants| ==> OwnAgent(agents, wants, j, own[j]))
    && (forall j :: 0 <= j < |wants| ==> agents[own[j]].id in others && others[agents[own[j]].id] == 1)
  }

  /** Strangers leave these agents alone. */
  predicate LeftAlone(agents: seq<Mapping>, own: seq<nat>, a: Act) {
    a.Stranger? ==> a.refs > 0 && forall j :: 0 <= j < |own| && own[j] < |agents| ==> agents[own[j]].id != a.agent
  }

  /** A task that has not passed its own agent. */
  predicate NotPast(p: Progress, k: nat) {
    match p
    case Looking(i) => i <= k
    case Checked(i) => i <= k
    case Upgraded(i) => i <= k
    case Losing(i) => i < k
    case Claimed(_) => true
    case Failed(_) => false
  }

  ghost predicate OnCourse(agents: seq<Mapping>, wants: seq<Want>, s: State, own: seq<nat>) {
    && Sound(agents, wants, s) && OwnAgents(agents, wants, s.others, own)
    && forall j :: 0 <= j < |s.tasks| ==> NotPast(s.tasks[j], own[j])
  }

  /** Only the task itself ever has a reference to its own agent. */
  lemma {:induction false} OwnCount(agents: seq<Mapping>, wants: seq<Want>, s: State, own: seq<nat>, j: nat)
    requires OnCourse(agents, wants, s, own) && j < |s.tasks|
    ensures
      Count(agents, s, agents[own[j]].id) == 1 + if HasRef(s.tasks[j]) && s.tasks[j].at == own[j] then 1 else 0
  {
    var k := own[j];
    var holders := Holders(agents, s.tasks, agents[k].id);
    forall q | 0 <= q < |s.tasks| && HasRef(s.tasks[q]) && q != j ensures s.tasks[q].at != k {
      assert Fits(wants[q], agents[s.tasks[q].at]);
    }
    assert holders == if HasRef(s.tasks[j]) && s.tasks[j].at == k then {j} else {};
  }

  lemma {:induction false} SameId(agents: seq<Mapping>, i: nat, k: nat)
    requires DistinctAgents(agents) && i < |agents| && k < |agents|
    ensures agents[i].id == agents[k].id <==> i == k
  {
  }

  lemma {:induction false} FindOwn(agents: seq<Mapping>, want: Want, k: nat)
    requires DistinctAgents(agents) && k < |agents| && want.ById? && agents[k].id == want.id
    ensures Find(agents, want.id) == Some(k)
  {
    var found := Find(agents, want.id);
    if found.Some? {
      SameId(agents, found.value, k);
    }
  }

  lemma {:induction false} MaskTurnStays(agents: seq<Mapping>, s: State, want: Want, p: Progress, k: nat)
    requires want.ByMask? && NotPast(p, k) && (p.Looking? || p.at < |agents|)
    requires k < |agents| && want.mask <= agents[k].mask
    requires Count(agents, s, agents[k].id) == 1 + if HasRef(p) && p.at == k then 1 else 0
    ensures NotPast(TurnByMask(agents, s, want, p), k)
  {
    hide Count;
  }

  lemma {:induction false} IdTurnStays(agents: seq<Mapping>, s: State, want: Want, p: Progress, k: nat)
    requires want.ById? && NotPast(p, k) && (p.Looking? || p.at < |agents|)
    requires k < |agents| && Find(agents, want.id) == Some(k) && Bit(want.key.ty) in agents[k].mask
    requires !p.Looking? ==> p.at == k
    requires Count(agents, s, agents[k].id) == 1 + if HasRef(p) && p.at == k then 1 else 0
    ensures NotPast(TurnById(agents, s, want, p), k)
  {
    hide Count, Find;
  }

  lemma {:induction false} TurnStaysOnCourse(agents: seq<Mapping>, wants: seq<Want>, s: State, own: seq<nat>, j: nat)
    requires OnCourse(agents, wants, s, own) && j < |s.tasks| && MayRun(wants, s.tasks, j)
    ensures NotPast(Step(agents, wants, s, Turn(j)).tasks[j], own[j])
  {
    hide Count, Find, TurnById, TurnByMask;
    OwnCount(agents, wants, s, own, j);
    assert OwnAgent(agents, wants, j, own[j]);
    if wants[j].ById? {
      FindOwn(agents, wants[j], own[j]);
      if !s.tasks[j].Looking? {
        SameId(agents, s.tasks[j].at, own[j]);
      }
      IdTurnStays(agents, s, wants[j], s.tasks[j], own[j]);
    } else {
      MaskTurnStays(agents, s, wants[j], s.tasks[j], own[j]);
    }
  }

  lemma {:induction false} StepStaysOnCourse(agents: seq<Mapping>, wants: seq<Want>, s: State, own: seq<nat>, a: Act)
    requires OnCourse(agents, wants, s, own) && LeftAlone(agents, own, a)
    ensures InRange(agents, wants, s) && OnCourse(agents, wants, Step(agents, wants, s, a), own)
  {
    hide Sound, OwnAgent;
    SoundInRange(agents, wants, s);
    StepKeepsSound(agents, wants, s, a);
    var next := Step(agents, wants, s, a);
    OwnStays(agents, wants, s, own, a);
    forall j | 0 <= j < |next.tasks| ensures NotPast(next.tasks[j], own[j]) {
      StepNeverRaises(agents, wants, s, a, j);
      if a == Turn(j) && MayRun(wants, s.tasks, j) {
        TurnStaysOnCourse(agents, wants, s, own, j);
      } else if a == Turn(j) {
        StepWaits(agents, wants, s, j);
      }
    }
  }

  lemma {:induction false} StepWaits(agents: seq<Mapping>, wants: seq<Want>, s: State, j: nat)
    requires InRange(agents, wants, s) && j < |s.tasks| && !MayRun(wants, s.tasks, j)
    ensures Step(agents, wants, s, Turn(j)) == s
  {
  }

  lemma {:induction false} OwnStays(agents: seq<Mapping>, wants: seq<Want>, s: State, own: seq<nat>, a: Act)
    requires InRange(agents, wants, s) && OwnAgents(agents, wants, s.others, own) && LeftAlone(agents, own, a)
    ensures OwnAgents(agents, wants, Step(agents, wants, s, a).others, own)
  {
    hide Count, TurnById, TurnByMask, MayRun;
    assert forall j :: 0 <= j < |wants| ==> OwnAgent(agents, wants, j, own[j]);
  }

  lemma {:induction false} RunStaysOnCourse(agents: seq<Mapping>, wants: seq<Want>, s: State, own: seq<nat>, acts: seq<Act>)
    requires OnCourse(agents, wants, s, own) && forall i :: 0 <= i < |acts| ==> LeftAlone(agents, own, acts[i])
    ensures InRange(agents, wants, s) && OnCourse(agents, wants, Run(agents, wants, s, acts), own)
    decreases |acts|
  {
    hide Step, OnCourse, LeftAlone;
    CourseInRange(agents, wants, s, own);
    if acts != [] {
      StepStaysOnCourse(agents, wants, s, own, acts[0]);
      assert forall i :: 0 <= i < |acts[1..]| ==> acts[1..][i] == acts[i + 1];
      RunStaysOnCourse(agents, wants, Step(agents, wants, s, acts[0]), own, acts[1..]);
    }
  }

  lemma {:induction false} CourseInRange(agents: seq<Mapping>, wants: seq<Want>, s: State, own: seq<nat>)
    requires OnCourse(agents, wants, s, own)
    ensures InRange(agents, wants, s)
  {
  }

  /**
   If every want has a free agent that no other want fits, no task ever fails,
   under any schedule, as long as strangers leave these agents alone; a fair
   schedule gives Ok.
   */
  lemma {:induction false} OwnAgentsSuffice(
    agents: seq<Mapping>, wants: seq<Want>, others: map<nat, nat>, own: seq<nat>, rounds: seq<seq<Act>>)
    requires AgentsThere(agents, others) && OwnAgents(agents, wants, others, own) && |agents| >= |wants|
    requires forall i :: 0 <= i < |Concat(rounds)| ==> LeftAlone(agents, own, Concat(rounds)[i])
    requires |rounds| >= Total(|agents|, wants, Start(wants, others).tasks)
    requires forall r :: 0 <= r < |rounds| ==> Round(rounds[r], |wants|)
    ensures
      AllDone(Run(agents, wants, Start(wants, others), Concat(rounds)))
      && PairWithNodes(agents, wants, others, Concat(rounds)).Ok?
  {
    hide Run, Total, Concat, LeftAlone, Round;
    var s := Start(wants, others);
    StartIsSound(agents, wants, others);
    FairSchedulesEnd(agents, wants, s, rounds);
    RunStaysOnCourse(agents, wants, s, own, Concat(rounds));
    var end := Run(agents, wants, s, Concat(rounds));
    forall j | 0 <= j < |end.tasks| ensures end.tasks[j].Claimed? {
      assert NotPast(end.tasks[j], own[j]);
    }
  }
}
