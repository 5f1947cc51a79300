/**
 The gradual state machine of TS 102 687 v1.2.1: states ordered by the channel load from which
 they apply, with transitions between neighbours only.
 */
module GradualStates {

  datatype State = State(lowerLimit: real, offTime: int)

  /** An ordered set of states, no two with the same limit. */
  ghost predicate StateSet(states: seq<State>) {
    forall i, j :: 0 <= i < j < |states| ==> states[i].lowerLimit < states[j].lowerLimit
  }

  function After(states: seq<State>, current: nat, load: real): (next: nat)
    requires current < |states|
    ensures next < |states|
    ensures next <= current + 1 && current <= next + 1
  {
    if load < states[current].lowerLimit then (if current > 0 then current - 1 else current)
    else if current + 1 < |states| && load >= states[current + 1].lowerLimit then current + 1
    else current
  }

  /** The state for a load: the last one whose limit is reached, or the first one if none is. */
  predicate Matches(states: seq<State>, load: real, i: nat)
    requires i < |states|
  {
    && (i > 0 ==> states[i].lowerLimit <= load)
    && (i + 1 < |states| ==> load < states[i + 1].lowerLimit)
  }

  class GradualStateMachine {
    const states: seq<State>
    var current: nat

    ghost predicate Valid()
      reads this
    {
      StateSet(states) && current < |states|
    }

    /** Without states the machine is repaired to have a single one. */
    constructor (states: seq<State>)
      requires StateSet(states)
      ensures Valid() && current == 0
      ensures this.states == if states == [] then [State(0.0, 0)] else states
    {
      this.states := if states == [] then [State(0.0, 0)] else states;
      current := 0;
    }

    /** One step towards the state that matches the load, and none from there. */
    method Update(load: real)
      requires Valid()
      modifies this
      ensures Valid() && current == After(states, old(current), load)
      ensures forall goal :: 0 <= goal < |states| && Matches(states, load, goal) ==>
        current == if old(current) < goal then old(current) + 1
                   else if old(current) > goal then old(current) - 1 else goal
    {
      forall goal | 0 <= goal < |states| && Matches(states, load, goal)
        ensures After(states, current, load)
             == if current < goal then current + 1 else if current > goal then current - 1 else goal
      {
        StepTowards(states, current, load, goal);
      }
      if load < states[current].lowerLimit {
        if current != 0 {
          current := current - 1;
        }
      } else {
        var up := current + 1;
        if up != |states| && load >= states[up].lowerLimit {
          current := up;
        }
      }
    }
  }

  lemma {:induction false} MatchIsUnique(states: seq<State>, load: real, i: nat, j: nat)
    requires StateSet(states) && i < |states| && j < |states|
    requires Matches(states, load, i) && Matches(states, load, j)
    ensures i == j
  {
  }

  lemma {:induction false} MatchExists(states: seq<State>, load: real) returns (i: nat)
    requires StateSet(states) && states != []
    ensures i < |states| && Matches(states, load, i)
  {
    i := 0;
    while i + 1 < |states| && states[i + 1].lowerLimit <= load
      invariant i < |states| && (i > 0 ==> states[i].lowerLimit <= load)
    {
      i := i + 1;
    }
  }

  /** The state after n updates with the same load. */
  function Repeated(states: seq<State>, current: nat, load: real, n: nat): (r: nat)
    requires current < |states|
    ensures r < |states|
  {
    if n == 0 then current else After(states, Repeated(states, current, load, n - 1), load)
  }

  /** An update moves one step towards the matching state and stays there. */
  lemma {:induction false} StepTowards(states: seq<State>, current: nat, load: real, goal: nat)
    requires StateSet(states) && current < |states| && goal < |states| && Matches(states, load, goal)
    ensures After(states, current, load)
         == if current < goal then current + 1 else if current > goal then current - 1 else current
  {
  }

  /** Under a constant load the machine walks straight to the matching state and never leaves it. */
  lemma {:induction false} WalksStraight(states: seq<State>, current: nat, load: real, goal: nat, n: nat)
    requires StateSet(states) && current < |states| && goal < |states| && Matches(states, load, goal)
    ensures Repeated(states, current, load, n)
         == if current <= goal then (if current + n <= goal then current + n else goal)
            else (if current - n >= goal then current - n else goal)
    decreases n
  {
    if n > 0 {
      WalksStraight(states, current, load, goal, n - 1);
      StepTowards(states, Repeated(states, current, load, n - 1), load, goal);
    }
  }

  /** From any state the matching state is reached within one update less than there are states. */
  lemma {:induction false} ReachesMatch(states: seq<State>, current: nat, load: real, n: nat)
    requires StateSet(states) && current < |states| && n >= |states| - 1
    ensures Matches(states, load, Repeated(states, current, load, n))
  {
    var goal := MatchExists(states, load);
    WalksStraight(states, current, load, goal, n);
  }
}
