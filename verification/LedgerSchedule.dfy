/**
 Interleaved removals: if the plans of the removals share no entry, then no
 schedule fails, every removal ends after as many turns as its plan has steps,
 and the store loses exactly the planned entries.
 */
module LedgerSchedule {
  import opened Wrappers
  import opened Ledger
  import opened LedgerRun
  import opened LedgerPlan

  type Plans = map<nat, seq<Key>>

  ghost predicate Disjoint(plans: Plans) {
    forall h, h', k :: h in plans && h' in plans && h != h' && k in plans[h] ==> k !in plans[h']
  }

  /** A list of work has a plan that deletes no entry twice. */
  ghost predicate Planned(db0: Db, todo: seq<Work>) {
    RanksBelow(todo, TOP) && PlanOf(db0, todo).Some? && NoRepeats(PlanOf(db0, todo).value.keys)
  }

  /** What a removal under way has left to do. */
  ghost function Left(db0: Db, s: State, h: nat): Plan
    requires h in s.tasks && Planned(db0, s.tasks[h])
  {
    PlanOf(db0, s.tasks[h]).value
  }

  ghost predicate TasksPlanned(db0: Db, plans: Plans, s: State) {
    && s.tasks.Keys == plans.Keys
    && forall h :: h in s.tasks ==>
         Planned(db0, s.tasks[h]) && forall k :: k in Left(db0, s, h).keys ==> k in plans[h]
  }

  /** An entry is still there if no removal under way has come to it yet. */
  ghost predicate Untouched(db0: Db, plans: Plans, s: State, k: Key)
    requires TasksPlanned(db0, plans, s)
  {
    forall h :: h in s.tasks && k in plans[h] ==> k in Left(db0, s, h).keys
  }

  ghost predicate Underway(db0: Db, plans: Plans, s: State) {
    && Disjoint(plans) && TasksPlanned(db0, plans, s) && Within(s.db, db0)
    && forall k :: k in db0 ==> (k in s.db <==> Untouched(db0, plans, s, k))
  }

  lemma {:induction false} OwnPending(db0: Db, plans: Plans, s: State, h: nat)
    requires Underway(db0, plans, s) && h in s.tasks
    ensures Pending(db0, s.db, Left(db0, s, h).keys)
  {
    hide PlanOf, NoRepeats;
    forall k | k in Left(db0, s, h).keys && k in db0 ensures k in s.db {
      assert Untouched(db0, plans, s, k);
    }
  }

  /** What one turn does to the plan of the removal that takes it. */
  lemma {:induction false} TurnFollowsPlan(db0: Db, db: Db, todo: seq<Work>)
    requires todo != [] && Planned(db0, todo) && Within(db, db0) && Pending(db0, db, PlanOf(db0, todo).value.keys)
    ensures todo[0].Del? ==> RanksBelow(todo[1..], TOP)
    ensures todo[0].Del? ==> (
      var p := PlanOf(db0, todo).value;
      p.keys != [] && p.keys[0] == todo[0].key && p.steps > 0 &&
      PlanOf(db0, todo[1..]) == Some(Plan(p.keys[1..], p.steps - 1)))
    ensures !todo[0].Del? ==> Expand(db, todo[0]).Ok?
    ensures !todo[0].Del? ==> (
      var more := Expand(db, todo[0]).value + todo[1..];
      var p := PlanOf(db0, todo).value;
      RanksBelow(more, TOP) && p.steps > 0 && PlanOf(db0, more) == Some(Plan(p.keys, p.steps - 1)))
  {
    hide PlanOf, PlanOne, Expand, Rank, NoRepeats, Pending;
    PlanCons(db0, todo);
    PlanPositive(db0, todo[0]);
    var p, q := PlanOne(db0, todo[0]).value, PlanOf(db0, todo[1..]).value;
    if todo[0].Del? {
      DeletesOne(db0, db, todo[0]);
      assert ([todo[0].key] + q.keys)[1..] == q.keys;
    } else {
      PlannedExpands(db0, todo[0]);
      PlanExpand(db0, todo[0]);
      SplitKeys(p.keys, q.keys);
      PendingSplit(db0, db, p.keys, q.keys);
      PendingReads(db0, db, todo[0], p.keys);
      ExpandLocal(db0, db, todo[0]);
      PlanAppend(db0, Expand(db0, todo[0]).value, todo[1..]);
    }
  }

  lemma {:induction false} TailNoRepeats(keys: seq<Key>)
    requires keys != [] && NoRepeats(keys)
    ensures NoRepeats(keys[1..]) && keys[0] !in keys[1..]
    ensures forall k :: k in keys <==> k == keys[0] || k in keys[1..]
  {
    assert keys == [keys[0]] + keys[1..];
    SplitKeys([keys[0]], keys[1..]);
  }

  function Minus(a: nat, b: nat): nat {
    if a > b then a - b else 0
  }

  /** One turn: nothing fails, the removal has one step less to go, the others are where they were. */
  lemma {:induction false} StepFollowsPlans(db0: Db, plans: Plans, s: State, h: nat) returns (next: State)
    requires Underway(db0, plans, s) && h in s.tasks
    ensures Step(s, h) == Ok(next) && Underway(db0, plans, next)
    ensures Left(db0, next, h).steps == Minus(Left(db0, s, h).steps, 1)
    ensures forall h' :: h' in s.tasks && h' != h ==> next.tasks[h'] == s.tasks[h']
  {
    hide PlanOf, PlanOne, Expand, NoRepeats, Rank, RanksBelow;
    var todo := s.tasks[h];
    if todo == [] {
      next := s;
      PlanNothing(db0);
    } else {
      OwnPending(db0, plans, s, h);
      TurnFollowsPlan(db0, s.db, todo);
      if todo[0].Del? {
        next := State(s.db - {todo[0].key}, s.tasks[h := todo[1..]]);
        TailNoRepeats(Left(db0, s, h).keys);
        DeletionKeepsUnderway(db0, plans, s, h, next);
      } else {
        next := s.(tasks := s.tasks[h := Expand(s.db, todo[0]).value + todo[1..]]);
        ExpansionKeepsUnderway(db0, plans, s, h, next);
      }
    }
  }

  lemma {:induction false} ExpansionKeepsUnderway(db0: Db, plans: Plans, s: State, h: nat, next: State)
    requires Underway(db0, plans, s) && h in s.tasks
    requires next.db == s.db && next.tasks.Keys == s.tasks.Keys
    requires forall h' :: h' in s.tasks && h' != h ==> next.tasks[h'] == s.tasks[h']
    requires Planned(db0, next.tasks[h]) && Left(db0, next, h).keys == Left(db0, s, h).keys
    ensures Underway(db0, plans, next)
  {
    hide PlanOf, NoRepeats, RanksBelow, Disjoint;
    SameTasks(db0, plans, s, h, next);
    forall k | k in db0 ensures k in next.db <==> Untouched(db0, plans, next, k) {
      assert Untouched(db0, plans, s, k) <==> Untouched(db0, plans, next, k);
    }
  }

  lemma {:induction false} SameTasks(db0: Db, plans: Plans, s: State, h: nat, next: State)
    requires TasksPlanned(db0, plans, s) && h in s.tasks && next.tasks.Keys == s.tasks.Keys
    requires forall h' :: h' in s.tasks && h' != h ==> next.tasks[h'] == s.tasks[h']
    requires Planned(db0, next.tasks[h]) && forall k :: k in Left(db0, next, h).keys ==> k in Left(db0, s, h).keys
    ensures TasksPlanned(db0, plans, next)
    ensures forall h' :: h' in s.tasks && h' != h ==> Left(db0, next, h') == Left(db0, s, h')
  {
    hide PlanOf, NoRepeats, RanksBelow;
  }

  lemma {:induction false} DeletionKeepsUnderway(db0: Db, plans: Plans, s: State, h: nat, next: State)
    requires Underway(db0, plans, s) && h in s.tasks && Left(db0, s, h).keys != []
    requires next.db == s.db - {Left(db0, s, h).keys[0]} && next.tasks.Keys == s.tasks.Keys
    requires forall h' :: h' in s.tasks && h' != h ==> next.tasks[h'] == s.tasks[h']
    requires Planned(db0, next.tasks[h]) && Left(db0, next, h).keys == Left(db0, s, h).keys[1..]
    requires Left(db0, s, h).keys[0] !in Left(db0, s, h).keys[1..]
    requires forall k :: k in Left(db0, s, h).keys <==> k == Left(db0, s, h).keys[0] || k in Left(db0, s, h).keys[1..]
    ensures Underway(db0, plans, next)
  {
    hide PlanOf, NoRepeats, RanksBelow;
    SameTasks(db0, plans, s, h, next);
    var gone := Left(db0, s, h).keys[0];
    assert gone in plans[h];
    forall k | k in db0 ensures k in next.db <==> Untouched(db0, plans, next, k) {
      if k != gone {
        assert Untouched(db0, plans, s, k) <==> Untouched(db0, plans, next, k);
      }
    }
  }

  /** How many of the turns go to one removal. */
  function Turns(schedule: seq<nat>, h: nat): nat {
    if schedule == [] then 0 else (if schedule[0] == h then 1 else 0) + Turns(schedule[1..], h)
  }

  lemma {:induction false} ScheduleFollowsPlans(db0: Db, plans: Plans, s: State, schedule: seq<nat>) returns (end: State)
    requires Underway(db0, plans, s)
    requires forall i :: 0 <= i < |schedule| ==> schedule[i] in s.tasks
    ensures Schedule(s, schedule) == Ok(end) && Underway(db0, plans, end)
    ensures forall h :: h in s.tasks ==>
      Left(db0, end, h).steps == Minus(Left(db0, s, h).steps, Turns(schedule, h))
    decreases schedule
  {
    hide PlanOf, Disjoint, Untouched, NoRepeats, Step, RanksBelow;
    if schedule == [] {
      end := s;
    } else {
      var next := StepFollowsPlans(db0, plans, s, schedule[0]);
      end := ScheduleFollowsPlans(db0, plans, next, schedule[1..]);
      forall h | h in s.tasks
        ensures Left(db0, end, h).steps == Minus(Left(db0, s, h).steps, Turns(schedule, h))
      {
        assert Left(db0, end, h).steps == Minus(Left(db0, next, h).steps, Turns(schedule[1..], h));
        if h != schedule[0] {
          assert Left(db0, next, h) == Left(db0, s, h);
        }
      }
    }
  }

  /** A removal has no steps left exactly when it has nothing left to do. */
  lemma {:induction false} NoStepsLeft(db0: Db, todo: seq<Work>)
    requires Planned(db0, todo)
    ensures PlanOf(db0, todo).value.steps == 0 <==> todo == []
    ensures todo == [] ==> PlanOf(db0, todo).value.keys == []
  {
    hide PlanOf, PlanOne;
    if todo == [] {
      PlanNothing(db0);
    } else {
      PlanCons(db0, todo);
      PlanPositive(db0, todo[0]);
    }
  }

  ghost predicate AllDone(s: State) {
    forall h :: h in s.tasks ==> s.tasks[h] == []
  }

  /** When all removals are done, exactly the planned entries are gone. */
  lemma {:induction false} DoneDeletesPlans(db0: Db, plans: Plans, s: State)
    requires Underway(db0, plans, s) && AllDone(s)
    ensures s.db == map k | k in db0 && (forall h :: h in plans ==> k !in plans[h]) :: db0[k]
  {
    hide PlanOf, NoRepeats, RanksBelow, Disjoint;
    forall h | h in s.tasks ensures Left(db0, s, h).keys == [] {
      NoStepsLeft(db0, s.tasks[h]);
    }
    forall k | k in db0 ensures k in s.db <==> forall h :: h in plans ==> k !in plans[h] {
      assert Untouched(db0, plans, s, k) <==> forall h :: h in plans ==> k !in plans[h];
    }
  }
}
