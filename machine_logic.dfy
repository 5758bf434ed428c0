/**
 * Applying transitions to a machine (MachineLogic.cs): a transition puts the
 * item it names into its target state, provided the machine holds that item;
 * a set applies its transitions one after another, in list order.
 */
module Logic {
  import opened Model

  /**
   * The state item `o` is left in when the transitions `ts` are applied in list
   * order to a machine holding `o`, starting from state `s`: each application
   * overwrites the result of the ones before it.
   */
  function Final(ts: seq<Transition>, o: OverlayItem, s: OverlayState?): (r: OverlayState?)
    reads ts
  {
    if ts == [] then s
    else if ts[|ts| - 1].item == o then ts[|ts| - 1].state
    else Final(ts[..|ts| - 1], o, s)
  }

  /** An item that no transition targets keeps its state. */
  lemma {:induction false} FinalUntargeted(ts: seq<Transition>, o: OverlayItem, s: OverlayState?)
    requires forall i :: 0 <= i < |ts| ==> ts[i].item != o
    ensures Final(ts, o, s) == s
  {
    if ts != [] {
      FinalUntargeted(ts[..|ts| - 1], o, s);
    }
  }

  /** The last transition that targets an item decides its state: the last write wins. */
  lemma {:induction false} FinalLastWriteWins(ts: seq<Transition>, j: int, o: OverlayItem, s: OverlayState?)
    requires 0 <= j < |ts| && ts[j].item == o
    requires forall i :: j < i < |ts| ==> ts[i].item != o
    ensures Final(ts, o, s) == ts[j].state
  {
    if j < |ts| - 1 {
      FinalLastWriteWins(ts[..|ts| - 1], j, o, s);
    }
  }

  /** Applying `ts` and then `us` is applying `ts + us`. */
  lemma {:induction false} FinalAppend(ts: seq<Transition>, us: seq<Transition>, o: OverlayItem, s: OverlayState?)
    ensures Final(ts + us, o, s) == Final(us, o, Final(ts, o, s))
  {
    if us != [] {
      var last := |us| - 1;
      assert (ts + us)[..|ts + us| - 1] == ts + us[..last];
      FinalAppend(ts, us[..last], o, s);
    } else {
      assert ts + us == ts;
    }
  }

  /** The transitions of the sets `sets`, set after set, each in its own order. */
  function Flatten(sets: seq<TransitionSet>): (r: seq<Transition>)
    reads sets
  {
    if sets == [] then [] else Flatten(sets[..|sets| - 1]) + sets[|sets| - 1].transitions
  }

  /** Applying the sets `sets + [last]` is applying `sets` and then the transitions of `last`. */
  lemma FinalFlattenSnoc(sets: seq<TransitionSet>, last: TransitionSet, o: OverlayItem, s: OverlayState?)
    ensures Final(Flatten(sets + [last]), o, s) == Final(last.transitions, o, Final(Flatten(sets), o, s))
  {
    assert (sets + [last])[..|sets|] == sets;
    FinalAppend(Flatten(sets), last.transitions, o, s);
  }

  /** The transition engine bound to one machine. */
  class MachineLogic {
    const machine: Machine

    constructor (machine: Machine)
      ensures this.machine == machine
    {
      this.machine := machine;
    }

    /**
     * Puts the transition's item into the transition's state when the machine
     * holds that item (compared by reference); otherwise does nothing and
     * reports no error. The target state is not checked against the item's type.
     */
    method ApplyTransition(transition: Transition)
      modifies machine.items
      ensures forall o :: o in machine.items ==>
        o.currentState == (if transition.item == o then transition.state else old(o.currentState))
      ensures forall o :: o in machine.items ==> o.Attributes() == old(o.Attributes())
    {
      var found := transition.item;
      if found == null || found !in machine.items {
        return;
      }
      found.SetCurrentState(transition.state);
    }

    /** Applies the transitions of the set one by one, in list order. */
    method ApplyTransitionSet(transitionSet: TransitionSet)
      modifies machine.items
      ensures forall o :: o in machine.items ==>
        o.currentState == Final(transitionSet.transitions, o, old(o.currentState))
      ensures forall o :: o in machine.items ==> o.Attributes() == old(o.Attributes())
    {
      var ts := transitionSet.transitions;
      var i := 0;
      while i < |ts|
        invariant 0 <= i <= |ts|
        invariant forall o :: o in machine.items ==> o.currentState == Final(ts[..i], o, old(o.currentState))
        invariant forall o :: o in machine.items ==> o.Attributes() == old(o.Attributes())
      {
        ApplyTransition(ts[i]);
        assert ts[..i + 1][..i] == ts[..i];
        i := i + 1;
      }
      assert ts[..i] == ts;
    }
  }
}
