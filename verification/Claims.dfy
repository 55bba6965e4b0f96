/**
 Claiming an agent.  A claim is a strong reference to a cell the agent itself
 references too; a thread that wants the agent looks at the count, takes a
 reference, looks again, and gives the reference back unless it is the second.
 */
module Claims {
  import opened Wrappers

  /** Where a thread is in its attempt; from `Upgraded` on it has a reference. */
  datatype Phase = Idle | Checked | Upgraded | Losing | Holding

  /** The cell of one agent; `owned` says whether the agent's own reference is still there. */
  datatype Cell = Cell(count: nat, owned: bool, phases: map<nat, Phase>)

  datatype Act = Turn(thread: nat) | Release(thread: nat) | Disown

  predicate HasRef(p: Phase) {
    p.Upgraded? || p.Losing? || p.Holding?
  }

  function Less(n: nat): nat {
    if n == 0 then 0 else n - 1
  }

  /** One atomic act; an act that is not possible changes nothing. */
  function Step(c: Cell, a: Act): Cell {
    match a
    case Turn(t) =>
      if t !in c.phases then c
      else (
        match c.phases[t]
        case Idle => if c.count > 1 then c else c.(phases := c.phases[t := Checked])
        case Checked =>
          if c.count == 0 then c.(phases := c.phases[t := Idle])
          else c.(count := c.count + 1, phases := c.phases[t := Upgraded])
        case Upgraded => c.(phases := c.phases[t := if c.count == 2 then Holding else Losing])
        case Losing => c.(count := Less(c.count), phases := c.phases[t := Idle])
        case Holding => c)
    case Release(t) =>
      if t in c.phases && c.phases[t].Holding? then c.(count := Less(c.count), phases := c.phases[t := Idle]) else c
    case Disown => if c.owned then c.(count := Less(c.count), owned := false) else c
  }

  function Run(c: Cell, acts: seq<Act>): Cell
    decreases |acts|
  {
    if acts == [] then c else Run(Step(c, acts[0]), acts[1..])
  }

  /** An agent nobody has claimed yet. */
  predicate Fresh(c: Cell) {
    c.count == 1 && c.owned && forall t :: t in c.phases ==> c.phases[t].Idle?
  }

  function Referrers(phases: map<nat, Phase>): set<nat> {
    set t | t in phases && HasRef(phases[t])
  }

  /** The count is the number of references. */
  ghost predicate Counted(c: Cell) {
    c.count == (if c.owned then 1 else 0) + |Referrers(c.phases)|
  }

  predicate Exclusive(c: Cell) {
    forall t, u :: t in c.phases && u in c.phases && c.phases[t].Holding? && c.phases[u].Holding? ==> t == u
  }

  lemma {:induction false} PhaseChange(phases: map<nat, Phase>, t: nat, p: Phase)
    requires t in phases
    ensures
      var before, after := Referrers(phases), Referrers(phases[t := p]);
      |after| - |before| == (if HasRef(p) then 1 else 0) - (if HasRef(phases[t]) then 1 else 0)
      && (HasRef(phases[t]) ==> |before| > 0)
  {
    var before, after := Referrers(phases), Referrers(phases[t := p]);
    SizeWithout(before, t);
    assert before - {t} == after - {t};
    SizeChange(before, after, t);
  }

  lemma {:induction false} StepKeepsCount(c: Cell, a: Act)
    requires Counted(c)
    ensures Counted(Step(c, a))
  {
    hide Referrers;
    if !a.Disown? && a.thread in c.phases {
      var p := Step(c, a).phases[a.thread];
      PhaseChange(c.phases, a.thread, p);
      assert Step(c, a).phases == c.phases[a.thread := p];
    }
  }

  /** A thread that finds its reference to be the second while the agent has its own is alone. */
  lemma {:induction false} SecondIsAlone(c: Cell, t: nat, u: nat)
    requires Counted(c) && c.owned && c.count == 2
    requires t in c.phases && u in c.phases && HasRef(c.phases[t]) && HasRef(c.phases[u])
    ensures t == u
  {
    SoleMember(Referrers(c.phases), t, u);
  }

  lemma {:induction false} StepKeepsExclusive(c: Cell, a: Act)
    requires Counted(c) && Step(c, a).owned && Exclusive(c)
    ensures c.owned && Exclusive(Step(c, a))
  {
    hide Counted;
    if a.Turn? && a.thread in c.phases && c.phases[a.thread].Upgraded? && c.count == 2 {
      forall u | u in c.phases && c.phases[u].Holding? ensures u == a.thread {
        SecondIsAlone(c, a.thread, u);
      }
    }
  }

  lemma {:induction false} StepDisowns(c: Cell, acts: seq<Act>)
    requires !c.owned
    ensures !Run(c, acts).owned
    decreases |acts|
  {
    if acts != [] {
      StepDisowns(Step(c, acts[0]), acts[1..]);
    }
  }

  lemma {:induction false} RunKeepsExclusive(c: Cell, acts: seq<Act>)
    requires Counted(c) && Exclusive(c) && Run(c, acts).owned
    ensures Counted(Run(c, acts)) && Exclusive(Run(c, acts))
    decreases |acts|
  {
    hide Step, Counted, Exclusive;
    if acts != [] {
      var next := Step(c, acts[0]);
      StepKeepsCount(c, acts[0]);
      if !next.owned {
        StepDisowns(next, acts[1..]);
      }
      StepKeepsExclusive(c, acts[0]);
      RunKeepsExclusive(next, acts[1..]);
    }
  }

  /** However many threads compete, as long as the agent has its own reference at most one of them holds a claim. */
  lemma {:induction false} AtMostOneHolder(c: Cell, acts: seq<Act>)
    requires Fresh(c) && Run(c, acts).owned
    ensures Exclusive(Run(c, acts))
  {
    assert Referrers(c.phases) == {};
    RunKeepsExclusive(c, acts);
  }

  /** Without the agent's own reference, a claim that is held can be given out again. */
  lemma {:induction false} ClaimedTwiceWithoutOwner(c: Cell, t: nat, u: nat)
    requires Counted(c) && !c.owned && Referrers(c.phases) == {t} && t in c.phases && c.phases[t].Holding?
    requires u in c.phases && c.phases[u].Idle?
    ensures !Exclusive(Run(c, [Turn(u), Turn(u), Turn(u)]))
  {
    var c1 := Step(c, Turn(u));
    var c2 := Step(c1, Turn(u));
    var c3 := Step(c2, Turn(u));
    assert c.count == 1 && c2.count == 2;
    assert c3.phases[u].Holding? && c3.phases[t].Holding? && t != u;
    assert [Turn(u), Turn(u), Turn(u)][1..] == [Turn(u), Turn(u)];
    assert [Turn(u), Turn(u)][1..] == [Turn(u)];
    assert [Turn(u)][1..] == [];
    assert Run(c3, []) == c3;
    assert Run(c2, [Turn(u)]) == Run(c3, []);
    assert Run(c1, [Turn(u), Turn(u)]) == Run(c2, [Turn(u)]);
  }

  predicate NeverDisowned(acts: seq<Act>) {
    forall i :: 0 <= i < |acts| ==> !acts[i].Disown?
  }

  lemma {:induction false} StaysOwned(c: Cell, acts: seq<Act>)
    requires c.owned && NeverDisowned(acts)
    ensures Run(c, acts).owned
    decreases |acts|
  {
    if acts != [] {
      assert forall i :: 0 <= i < |acts[1..]| ==> acts[1..][i] == acts[i + 1];
      StaysOwned(Step(c, acts[0]), acts[1..]);
    }
  }

  lemma {:induction false} RunFirst(c: Cell, a: Act, acts: seq<Act>)
    ensures Run(c, [a] + acts) == Run(Step(c, a), acts)
  {
    assert ([a] + acts)[1..] == acts;
  }

  /** A thread other than the holder that has a reference takes a claim too or gives the reference back. */
  lemma {:induction false} DriveOut(c: Cell, t: nat, u: nat, x: nat) returns (acts: seq<Act>)
    requires Counted(c) && !c.owned && t in c.phases && c.phases[t].Holding? && u in c.phases && c.phases[u].Idle?
    requires x in Referrers(c.phases) && x != t && Exclusive(c)
    ensures NeverDisowned(acts)
    ensures
      var end := Run(c, acts);
      && Counted(end) && !end.owned && t in end.phases && end.phases[t].Holding? && u in end.phases && end.phases[u].Idle?
      && (Exclusive(end) ==> |Referrers(end.phases)| < |Referrers(c.phases)|)
  {
    var c1 := Step(c, Turn(x));
    StepKeepsCount(c, Turn(x));
    if c.phases[x].Losing? {
      acts := [Turn(x)];
      assert acts == [Turn(x)] + [];
      RunFirst(c, Turn(x), []);
      PhaseChange(c.phases, x, Idle);
    } else if c.count == 2 {
      acts := [Turn(x)];
      assert acts == [Turn(x)] + [];
      RunFirst(c, Turn(x), []);
      assert c1.phases[x].Holding? && c1.phases[t].Holding?;
    } else {
      acts := [Turn(x), Turn(x)];
      assert acts == [Turn(x)] + [Turn(x)] && [Turn(x)] == [Turn(x)] + [];
      RunFirst(c, Turn(x), [Turn(x)]);
      RunFirst(c1, Turn(x), []);
      StepKeepsCount(c1, Turn(x));
      PhaseChange(c.phases, x, Losing);
      PhaseChange(c1.phases, x, Idle);
    }
  }

  /** Without the agent's own reference some continuation gives a held claim out again. */
  lemma {:induction false} UnownedIsClaimedAgain(c: Cell, t: nat, u: nat) returns (acts: seq<Act>)
    requires Counted(c) && !c.owned && t in c.phases && c.phases[t].Holding? && u in c.phases && c.phases[u].Idle?
    ensures NeverDisowned(acts) && !Exclusive(Run(c, acts))
    decreases |Referrers(c.phases)|
  {
    hide Step, Counted;
    if !Exclusive(c) {
      acts := [];
    } else if x :| x in Referrers(c.phases) && x != t {
      var first := DriveOut(c, t, u, x);
      var next := Run(c, first);
      if !Exclusive(next) {
        acts := first;
      } else {
        var more := UnownedIsClaimedAgain(next, t, u);
        RunAppend(c, first, more);
        acts := first + more;
      }
    } else {
      assert Referrers(c.phases) == {t};
      ClaimedTwiceWithoutOwner(c, t, u);
      acts := [Turn(u), Turn(u), Turn(u)];
    }
  }

  lemma {:induction false} RunAppend(c: Cell, a: seq<Act>, b: seq<Act>)
    ensures Run(c, a + b) == Run(Run(c, a), b)
    decreases |a|
  {
    hide Step;
    if a == [] {
      assert a + b == b;
    } else {
      assert (a + b)[0] == a[0] && (a + b)[1..] == a[1..] + b;
      RunAppend(Step(c, a[0]), a[1..], b);
    }
  }

  /** A claim that is held stays the only one, whatever the threads do, exactly if the agent has its own reference. */
  lemma {:induction false} ExclusiveExactlyIfOwned(c: Cell, t: nat, u: nat)
    requires Counted(c) && Exclusive(c)
    requires t in c.phases && c.phases[t].Holding? && u in c.phases && c.phases[u].Idle?
    ensures c.owned <==> forall acts :: NeverDisowned(acts) ==> Exclusive(Run(c, acts))
  {
    hide Step, Run, Counted, Exclusive;
    if c.owned {
      forall acts | NeverDisowned(acts) ensures Exclusive(Run(c, acts)) {
        StaysOwned(c, acts);
        RunKeepsExclusive(c, acts);
      }
    } else {
      var acts := UnownedIsClaimedAgain(c, t, u);
    }
  }

  /** Such a cell is reached by dropping the agent after a claim. */
  lemma {:induction false} OwnerCanBeDropped(c: Cell, t: nat)
    requires Fresh(c) && t in c.phases
    ensures
      var end := Run(c, [Turn(t), Turn(t), Turn(t), Disown]);
      Counted(end) && !end.owned && Referrers(end.phases) == {t} && t in end.phases && end.phases[t].Holding?
      && forall u :: u in c.phases && u != t ==> u in end.phases && end.phases[u].Idle?
  {
    var c1 := Step(c, Turn(t));
    var c2 := Step(c1, Turn(t));
    var c3 := Step(c2, Turn(t));
    var c4 := Step(c3, Disown);
    assert [Turn(t), Turn(t), Turn(t), Disown][1..] == [Turn(t), Turn(t), Disown];
    assert [Turn(t), Turn(t), Disown][1..] == [Turn(t), Disown];
    assert [Turn(t), Disown][1..] == [Disown];
    assert Run(c4, []) == c4;
    assert Run(c3, [Disown]) == c4;
    assert Run(c2, [Turn(t), Disown]) == c4;
    assert Run(c1, [Turn(t), Turn(t), Disown]) == c4;
    assert Referrers(c4.phases) == {t};
  }

  /** A thread that is not disturbed claims a free agent. */
  lemma {:induction false} UndisturbedClaimSucceeds(c: Cell, t: nat)
    requires Counted(c) && c.owned && Referrers(c.phases) == {} && t in c.phases && c.phases[t].Idle?
    ensures
      var end := Run(c, [Turn(t), Turn(t), Turn(t)]);
      t in end.phases && end.phases[t].Holding?
  {
    var c1 := Step(c, Turn(t));
    var c2 := Step(c1, Turn(t));
    var c3 := Step(c2, Turn(t));
    assert [Turn(t), Turn(t), Turn(t)][1..] == [Turn(t), Turn(t)];
    assert [Turn(t), Turn(t)][1..] == [Turn(t)];
    assert Run(c3, []) == c3;
    assert Run(c2, [Turn(t)]) == c3;
    assert Run(c1, [Turn(t), Turn(t)]) == c3;
  }

  /** While one thread holds the claim and the others are idle, no turn of any thread changes anything: not even a reference is taken. */
  lemma {:induction false} HeldIsLeftAlone(c: Cell, t: nat, acts: seq<Act>)
    requires Counted(c) && c.owned && t in c.phases && c.phases[t].Holding?
    requires forall u :: u in c.phases && u != t ==> c.phases[u].Idle?
    requires forall i :: 0 <= i < |acts| ==> acts[i].Turn?
    ensures Run(c, acts) == c
    decreases |acts|
  {
    if acts != [] {
      assert Referrers(c.phases) == {t};
      assert Step(c, acts[0]) == c;
      HeldIsLeftAlone(c, t, acts[1..]);
    }
  }
}
