/**
 * The data model of SlideMeisterLib: overlay states and types, the items placed
 * on a slide, transitions, transition sets, sequence steps, sequences and the
 * machine that owns them.
 *
 * Every entity is a class, so identity is by reference as in the library (none
 * of its classes overrides `Equals`). A C# string that may be null is an
 * `Option<string>`; a `TimeSpan` is a whole number of milliseconds; doubles are
 * reals that the model stores but never computes with. Property setters that
 * skip an equal value only to avoid a change notification are modelled as
 * methods that keep that check.
 */
module Model {
  import opened Wrappers
  import opened Sequences

  /** Position and size of an overlay (Rectangle.cs); no behaviour. */
  class Rectangle {
    var x: real
    var y: real
    var width: real
    var height: real

    constructor ()
      ensures x == 0.0 && y == 0.0 && width == 0.0 && height == 0.0
    {
      x, y, width, height := 0.0, 0.0, 0.0, 0.0;
    }

    constructor Of(x: real, y: real, width: real, height: real)
      ensures this.x == x && this.y == y && this.width == width && this.height == height
    {
      this.x, this.y, this.width, this.height := x, y, width, height;
    }
  }

  /** One named visual state of an overlay type, with its image (OverlayState.cs). */
  class OverlayState {
    var name: Option<string>
    var imageUrl: Option<string>

    constructor (name: Option<string>, imageUrl: Option<string> := Some(""))
      ensures this.name == name && this.imageUrl == imageUrl
    {
      this.name, this.imageUrl := name, imageUrl;
    }
  }

  /**
   * A category of overlay: an ordered list of states and an optional
   * explicitly chosen default (the `_defaultState` backing field).
   */
  class OverlayType {
    var name: Option<string>
    var states: seq<OverlayState>
    var explicitDefault: OverlayState?

    constructor (name: Option<string>)
      ensures this.name == name && states == [] && explicitDefault == null
      ensures DefaultState() == null
    {
      this.name := name;
      states := [];
      explicitDefault := null;
    }

    method SetName(value: Option<string>)
      modifies this`name
      ensures name == value
    {
      if value == name { return; }
      name := value;
    }

    method SetStates(value: seq<OverlayState>)
      modifies this`states
      ensures states == value
    {
      if value == states { return; }
      states := value;
    }

    /** Appends a state; an established default is never displaced by it. */
    method AddState(state: OverlayState)
      modifies this`states
      ensures states == old(states) + [state]
      ensures DefaultState() == if old(DefaultState()) == null then state else old(DefaultState())
    {
      states := states + [state];
    }

    /**
     * The explicitly set default if there is one, otherwise the first state,
     * otherwise null (a type without states).
     */
    function DefaultState(): (r: OverlayState?)
      reads this
      ensures explicitDefault != null ==> r == explicitDefault
      ensures r == null <==> explicitDefault == null && states == []
      ensures r != null ==> r == explicitDefault || r in states
      ensures explicitDefault == null && states != [] ==> r == states[0]
    {
      if explicitDefault != null then explicitDefault
      else if states != [] then states[0]
      else null
    }

    method SetDefaultState(value: OverlayState?)
      modifies this`explicitDefault
      ensures explicitDefault == value
      ensures value != null ==> DefaultState() == value
    {
      explicitDefault := value;
    }

    /**
     * The state that follows `current` in `states` read as a ring (the first
     * state follows the last). A state that is not listed (null included) is
     * followed by the first state.
     */
    function GetNextState(current: OverlayState?): (r: OverlayState)
      reads this
      requires states != []
      ensures r in states
      ensures current !in states ==> r == states[0]
      ensures current in states ==> r == (states + states[..1])[IndexOf(states, current) + 1]
    {
      var pos := IndexOf(states, current);
      if pos == -1 || pos == |states| - 1 then states[0] else states[pos + 1]
    }

    /**
     * With distinct states, the state at index i is followed by the one at
     * i + 1, and the last state by the first.
     */
    lemma GetNextStateAt(i: nat)
      requires Distinct(states)
      requires i < |states|
      ensures GetNextState(states[i]) == if i == |states| - 1 then states[0] else states[i + 1]
    {
      IndexOfDistinct(states, i);
    }

    /** The state reached from `current` by `k` calls of GetNextState. */
    function NextStateAfter(k: nat, current: OverlayState?): (r: OverlayState?)
      reads this
      requires states != []
    {
      if k == 0 then current else NextStateAfter(k - 1, GetNextState(current))
    }

    /** Cycling `a` times and then `b` times is cycling `a + b` times. */
    lemma {:induction false} NextStateAfterAdd(a: nat, b: nat, current: OverlayState?)
      requires states != []
      ensures NextStateAfter(b, NextStateAfter(a, current)) == NextStateAfter(a + b, current)
    {
      if a > 0 {
        NextStateAfterAdd(a - 1, b, GetNextState(current));
      }
    }

    /** With distinct states, `k` steps from the i-th state reach state i + k while it exists. */
    lemma {:induction false} NextStateWalk(i: nat, k: nat)
      requires Distinct(states)
      requires i + k < |states|
      ensures NextStateAfter(k, states[i]) == states[i + k]
      decreases k
    {
      if k > 0 {
        IndexOfDistinct(states, i);
        NextStateWalk(i + 1, k - 1);
      }
    }

    /** Cycling through all n distinct states from any of them comes back to it. */
    lemma NextStateCycles(i: nat)
      requires Distinct(states)
      requires i < |states|
      ensures NextStateAfter(|states|, states[i]) == states[i]
    {
      var n := |states|;
      NextStateWalk(i, n - 1 - i);
      IndexOfDistinct(states, n - 1);
      NextStateAfterAdd(n - 1 - i, 1, states[i]);
      assert NextStateAfter(n - i, states[i]) == states[0];
      NextStateWalk(0, i);
      NextStateAfterAdd(n - i, i, states[i]);
    }
  }

  /** The attributes of an item other than its current state. */
  datatype ItemAttributes = ItemAttributes(
    name: Option<string>,
    position: Rectangle?,
    overlayType: OverlayType?,
    defaultState: OverlayState?,
    rotation: real)

  /**
   * An overlay placed on the slide. `defaultState` is the state navigation
   * resets the item to; it is initialised like `currentState`.
   */
  class OverlayItem {
    var name: Option<string>
    var position: Rectangle?
    var overlayType: OverlayType?
    var currentState: OverlayState?
    var defaultState: OverlayState?
    var rotation: real

    function Attributes(): (r: ItemAttributes)
      reads this
    {
      ItemAttributes(name, position, overlayType, defaultState, rotation)
    }

    constructor (overlayType: OverlayType)
      ensures this.overlayType == overlayType
      ensures currentState == overlayType.DefaultState()
      ensures defaultState == overlayType.DefaultState()
      ensures name == None && position == null && rotation == 0.0
    {
      this.overlayType := overlayType;
      currentState := overlayType.DefaultState();
      defaultState := overlayType.DefaultState();
      name, position, rotation := None, null, 0.0;
    }

    method SetName(value: Option<string>)
      modifies this`name
      ensures name == value
    {
      if value == name { return; }
      name := value;
    }

    method SetPosition(value: Rectangle?)
      modifies this`position
      ensures position == value
    {
      if value == position { return; }
      position := value;
    }

    method SetOverlayType(value: OverlayType?)
      modifies this`overlayType
      ensures overlayType == value
    {
      if value == overlayType { return; }
      overlayType := value;
    }

    method SetCurrentState(value: OverlayState?)
      modifies this`currentState
      ensures currentState == value
      ensures Attributes() == old(Attributes())
    {
      if value == currentState { return; }
      currentState := value;
    }
  }

  /** An instruction to put one item into one state (Transition.cs); no behaviour. */
  class Transition {
    var item: OverlayItem?
    var state: OverlayState?

    constructor (item: OverlayItem?, state: OverlayState?)
      ensures this.item == item && this.state == state
    {
      this.item, this.state := item, state;
    }
  }

  /** A named, ordered group of transitions that are applied together. */
  class TransitionSet {
    var name: Option<string>
    var transitions: seq<Transition>

    /** Stores the name and appends the given transitions one by one, in order. */
    constructor (name: Option<string>, transitions: seq<Transition>)
      ensures this.name == name && this.transitions == transitions
    {
      this.name := name;
      this.transitions := [];
      new;
      var i := 0;
      while i < |transitions|
        invariant 0 <= i <= |transitions|
        invariant this.name == name
        invariant this.transitions == transitions[..i]
      {
        this.transitions := this.transitions + [transitions[i]];
        i := i + 1;
      }
    }
  }

  /**
   * One step of a sequence: a name, a duration in milliseconds and the
   * transition sets to apply when the step becomes current.
   */
  class TransitionSequenceStep {
    var name: Option<string>
    var duration: int
    var transitions: seq<TransitionSet>

    /** A step of one second with no transition sets. */
    constructor ()
      ensures name == None && duration == 1000 && transitions == []
    {
      name, duration, transitions := None, 1000, [];
    }

    constructor WithDuration(duration: int)
      ensures name == None && this.duration == duration && transitions == []
    {
      this.name, this.duration, this.transitions := None, duration, [];
    }

    /** One new set named like the step; the duration is left at zero. */
    constructor Named(name: string, transitions: seq<Transition>)
      ensures this.name == Some(name) && duration == 0
      ensures |this.transitions| == 1 && fresh(this.transitions[0])
      ensures this.transitions[0].name == Some(name)
      ensures this.transitions[0].transitions == transitions
    {
      var created := new TransitionSet(Some(name), transitions);
      this.name, this.duration, this.transitions := Some(name), 0, [created];
    }

    constructor NamedWithDuration(name: string, duration: int, transitions: seq<Transition>)
      ensures this.name == Some(name) && this.duration == duration
      ensures |this.transitions| == 1 && fresh(this.transitions[0])
      ensures this.transitions[0].name == Some(name)
      ensures this.transitions[0].transitions == transitions
    {
      var created := new TransitionSet(Some(name), transitions);
      this.name, this.duration, this.transitions := Some(name), duration, [created];
    }

    constructor WithSet(name: string, duration: int, transitionSet: TransitionSet)
      ensures this.name == Some(name) && this.duration == duration
      ensures transitions == [transitionSet]
    {
      this.name, this.duration, this.transitions := Some(name), duration, [transitionSet];
    }

    /** The name cannot be set to null: the setter dereferences the new value. */
    method SetName(value: string)
      modifies this`name
      ensures name == Some(value)
    {
      if Some(value) == name { return; }
      name := Some(value);
    }

    method SetDuration(value: int)
      modifies this`duration
      ensures duration == value
    {
      if value == duration { return; }
      duration := value;
    }

    method SetTransitions(value: seq<TransitionSet>)
      modifies this`transitions
      ensures transitions == value
    {
      if value == transitions { return; }
      transitions := value;
    }
  }

  /** A named, ordered list of steps (TransitionSequence.cs); no behaviour. */
  class TransitionSequence {
    var name: Option<string>
    var steps: seq<TransitionSequenceStep>

    constructor ()
      ensures name == None && steps == []
    {
      name, steps := None, [];
    }
  }

  /** The root aggregate: the items on the slide, the named sets and the sequences. */
  class Machine {
    var name: Option<string>
    var backgroundImageUrl: Option<string>
    var version: Option<string>
    var items: seq<OverlayItem>
    var sequences: seq<TransitionSequence>
    var transitions: seq<TransitionSet>

    constructor ()
      ensures name == None && backgroundImageUrl == None && version == None
      ensures items == [] && sequences == [] && transitions == []
    {
      name, backgroundImageUrl, version := None, None, None;
      items, sequences, transitions := [], [], [];
    }

    method AddItem(item: OverlayItem)
      modifies this`items
      ensures items == old(items) + [item]
    {
      items := items + [item];
    }
  }
}
