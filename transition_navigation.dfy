/**
 * The cursor over one sequence's steps (TransitionNavigation.cs). Initialize
 * resets every item of the machine to its default state and applies the first
 * step; NavigateToNext and NavigateToPrevious move one step and apply it, and
 * report with `false` that they stopped at an end instead of wrapping.
 *
 * The cursor stores the current step object, not its index: its position is
 * recomputed as the first index of that object in the step list.
 */
module Navigation {
  import opened Wrappers
  import opened Sequences
  import opened Model
  import opened Logic

  /** What a navigation call does to the cursor. */
  datatype Move = Stay | MoveTo(index: nat)

  /** The error Initialize raises on a sequence without steps. */
  datatype NavigationError = InvalidOperation(message: string)

  const NoStepsMessage := "The given sequence has no steps, so navigation is not possible."

  /**
   * Where NavigateToNext takes a cursor at position `pos` (-1 when the cursor is
   * not on a step of the sequence) in a sequence of `count` steps.
   */
  function NextMove(pos: int, count: nat): (m: Move)
    requires 0 < count && -1 <= pos < count
    ensures m.MoveTo? ==> m.index < count
    ensures pos == -1 ==> m == MoveTo(0)
    ensures 0 <= pos ==> (m == Stay <==> pos == count - 1)
    ensures 0 <= pos && m.MoveTo? ==> m.index == pos + 1
  {
    if pos == -1 then MoveTo(0)
    else if pos >= count - 1 then Stay
    else MoveTo(pos + 1)
  }

  /**
   * Where NavigateToPrevious takes a cursor at position `pos` (-1 when the
   * cursor is not on a step of the sequence) in a sequence of `count` steps.
   */
  function PreviousMove(pos: int, count: nat): (m: Move)
    requires 0 < count && -1 <= pos < count
    ensures m.MoveTo? ==> m.index < count
    ensures pos == -1 ==> m == MoveTo(0)
    ensures 0 <= pos ==> (m == Stay <==> pos == 0)
    ensures 0 <= pos && m.MoveTo? ==> m.index + 1 == pos
  {
    if pos == -1 then MoveTo(0)
    else if pos <= 0 then Stay
    else MoveTo(pos - 1)
  }

  /** The position a move leaves the cursor at, on a sequence of distinct steps. */
  function After(pos: int, m: Move): (r: int)
  {
    match m
    case Stay => pos
    case MoveTo(i) => i
  }

  /** The position after `k` calls of NavigateToNext from `pos`, on distinct steps. */
  function PositionAfterNexts(pos: int, count: nat, k: nat): (p: int)
    requires 0 < count && -1 <= pos < count
    ensures -1 <= p < count
  {
    if k == 0 then pos
    else
      var prev := PositionAfterNexts(pos, count, k - 1);
      After(prev, NextMove(prev, count))
  }

  /** The position after `k` calls of NavigateToPrevious from `pos`, on distinct steps. */
  function PositionAfterPreviouses(pos: int, count: nat, k: nat): (p: int)
    requires 0 < count && -1 <= pos < count
    ensures -1 <= p < count
  {
    if k == 0 then pos
    else
      var prev := PositionAfterPreviouses(pos, count, k - 1);
      After(prev, PreviousMove(prev, count))
  }

  /**
   * From the first step, the first count - 1 calls of NavigateToNext each move
   * one step forward (and report true), reaching step k after k calls.
   */
  lemma {:induction false} ForwardWalk(count: nat, k: nat)
    requires 0 < count && k < count
    ensures PositionAfterNexts(0, count, k) == k
    ensures k < count - 1 ==> NextMove(k, count) == MoveTo(k + 1)
  {
    if k > 0 {
      ForwardWalk(count, k - 1);
    }
  }

  /**
   * Once the last step is reached, NavigateToNext reports false and the cursor
   * stays on the last step however often it is called: there is no wrap-around.
   */
  lemma {:induction false} ForwardStopsAtEnd(count: nat, k: nat)
    requires 0 < count && count - 1 <= k
    ensures PositionAfterNexts(0, count, k) == count - 1
    ensures NextMove(count - 1, count) == Stay
  {
    if k == count - 1 {
      ForwardWalk(count, k);
    } else {
      ForwardStopsAtEnd(count, k - 1);
    }
  }

  /**
   * From the last step, the first count - 1 calls of NavigateToPrevious each move
   * one step back, reaching the first step; after that the cursor stays there.
   */
  lemma {:induction false} BackwardWalk(count: nat, k: nat)
    requires 0 < count
    ensures PositionAfterPreviouses(count - 1, count, k) == if k < count then count - 1 - k else 0
    ensures PreviousMove(0, count) == Stay
  {
    if k > 0 {
      BackwardWalk(count, k - 1);
    }
  }

  /** A cursor over the steps of `sequence` that applies them to `machine`. */
  class TransitionNavigation {
    const machine: Machine
    const sequence: TransitionSequence
    const logic: MachineLogic
    var currentStep: TransitionSequenceStep?

    /** The transition engine works on the navigated machine. */
    predicate Valid()
    {
      logic.machine == machine
    }

    constructor (machine: Machine, sequence: TransitionSequence)
      ensures Valid()
      ensures this.machine == machine && this.sequence == sequence
      ensures currentStep == null
    {
      this.machine := machine;
      this.sequence := sequence;
      logic := new MachineLogic(machine);
      currentStep := null;
    }

    /** The cursor's position: the first index of the current step, or -1. */
    function Position(): (r: int)
      reads this, sequence
    {
      IndexOf(sequence.steps, currentStep)
    }

    /** Applies every transition set of `step`, in list order. */
    method ApplyStep(step: TransitionSequenceStep)
      requires Valid()
      modifies machine.items
      ensures forall o :: o in machine.items ==>
        o.currentState == Final(Flatten(step.transitions), o, old(o.currentState))
      ensures forall o :: o in machine.items ==> o.Attributes() == old(o.Attributes())
    {
      var sets := step.transitions;
      var i := 0;
      while i < |sets|
        invariant 0 <= i <= |sets|
        invariant forall o :: o in machine.items ==>
          o.currentState == Final(Flatten(sets[..i]), o, old(o.currentState))
        invariant forall o :: o in machine.items ==> o.Attributes() == old(o.Attributes())
      {
        label BeforeSet:
        logic.ApplyTransitionSet(sets[i]);
        assert sets[..i + 1] == sets[..i] + [sets[i]];
        forall o | o in machine.items
          ensures o.currentState == Final(Flatten(sets[..i + 1]), o, old(o.currentState))
        {
          var s0 := old(o.currentState);
          assert old@BeforeSet(Final(Flatten(sets[..i]), o, s0)) == Final(Flatten(sets[..i]), o, s0);
          FinalFlattenSnoc(sets[..i], sets[i], o, old(o.currentState));
        }
        i := i + 1;
      }
      assert sets[..i] == sets;
    }

    /**
     * Resets every item to its default state, puts the cursor on the first
     * step and applies that step. A sequence without steps is an invalid
     * operation, raised after the reset with the cursor cleared.
     */
    method Initialize() returns (outcome: Outcome<NavigationError>)
      requires Valid()
      modifies this, machine.items
      ensures sequence.steps == [] ==>
        && outcome == Fail(InvalidOperation(NoStepsMessage))
        && currentStep == null
        && forall o :: o in machine.items ==> o.currentState == o.defaultState
      ensures sequence.steps != [] ==>
        && outcome == Pass
        && currentStep == sequence.steps[0]
        && Position() == 0
        && forall o :: o in machine.items ==>
             o.currentState == Final(Flatten(sequence.steps[0].transitions), o, o.defaultState)
      ensures forall o :: o in machine.items ==> o.Attributes() == old(o.Attributes())
    {
      var items := machine.items;
      var i := 0;
      while i < |items|
        invariant 0 <= i <= |items|
        invariant forall o :: o in items[..i] ==> o.currentState == o.defaultState
        invariant forall o :: o in items ==> o.Attributes() == old(o.Attributes())
      {
        items[i].SetCurrentState(items[i].defaultState);
        assert items[..i + 1] == items[..i] + [items[i]];
        i := i + 1;
      }
      assert items[..i] == items;

      if sequence.steps == [] {
        currentStep := null;
        return Fail(InvalidOperation(NoStepsMessage));
      }
      currentStep := sequence.steps[0];
      ApplyStep(currentStep);
      return Pass;
    }

    /**
     * Moves to the next step and applies it; at the last step reports false
     * and changes nothing. A cursor that is not on a step moves to the first.
     */
    method NavigateToNext() returns (moved: bool)
      requires Valid()
      requires sequence.steps != []
      modifies this, machine.items
      ensures var m := NextMove(old(Position()), |sequence.steps|);
        && moved == m.MoveTo?
        && (m == Stay ==>
              && currentStep == old(currentStep)
              && forall o :: o in machine.items ==> o.currentState == old(o.currentState))
        && (m.MoveTo? ==>
              && currentStep == sequence.steps[m.index]
              && (Distinct(sequence.steps) ==> Position() == m.index)
              && forall o :: o in machine.items ==>
                   o.currentState == Final(Flatten(currentStep.transitions), o, old(o.currentState)))
      ensures forall o :: o in machine.items ==> o.Attributes() == old(o.Attributes())
    {
      var pos := IndexOf(sequence.steps, currentStep);
      if pos == -1 {
        pos := 0;
      } else {
        if pos >= |sequence.steps| - 1 {
          return false;
        }
        pos := pos + 1;
      }
      currentStep := sequence.steps[pos];
      ApplyStep(currentStep);
      if Distinct(sequence.steps) {
        IndexOfDistinct(sequence.steps, pos);
      }
      return true;
    }

    /**
     * Moves to the previous step and applies it; at the first step reports
     * false and changes nothing. A cursor that is not on a step moves to the first.
     */
    method NavigateToPrevious() returns (moved: bool)
      requires Valid()
      requires sequence.steps != []
      modifies this, machine.items
      ensures var m := PreviousMove(old(Position()), |sequence.steps|);
        && moved == m.MoveTo?
        && (m == Stay ==>
              && currentStep == old(currentStep)
              && forall o :: o in machine.items ==> o.currentState == old(o.currentState))
        && (m.MoveTo? ==>
              && currentStep == sequence.steps[m.index]
              && (Distinct(sequence.steps) ==> Position() == m.index)
              && forall o :: o in machine.items ==>
                   o.currentState == Final(Flatten(currentStep.transitions), o, old(o.currentState)))
      ensures forall o :: o in machine.items ==> o.Attributes() == old(o.Attributes())
    {
      var pos := IndexOf(sequence.steps, currentStep);
      if pos == -1 {
        pos := 0;
      } else {
        if pos <= 0 {
          return false;
        }
        pos := pos - 1;
      }
      currentStep := sequence.steps[pos];
      ApplyStep(currentStep);
      if Distinct(sequence.steps) {
        IndexOfDistinct(sequence.steps, pos);
      }
      return true;
    }
  }
}
