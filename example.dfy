/**
 * The built-in example machine (Example.cs): two LEDs, "Top" and "Bottom", of
 * one type with the states On and Off, and one sequence whose two steps light
 * one LED and switch off the other.
 */
module Examples {
  import opened Wrappers
  import opened Sequences
  import opened Model
  import opened Logic
  import opened Navigation

  /** The name of an item's current state, or None when it has none. */
  function StateName(o: OverlayItem): (r: Option<string>)
    reads o, o.currentState
  {
    if o.currentState == null then None else o.currentState.name
  }

  class Example {

    /** The LED type of the example: the states On and Off, in that order, no explicit default. */
    static method CreateLedType() returns (led: OverlayType)
      ensures fresh(led) && led.name == Some("LED") && led.explicitDefault == null
      ensures |led.states| == 2 && fresh(led.states[0]) && fresh(led.states[1])
      ensures led.states[0].name == Some("On") && led.states[0].imageUrl == Some("examples/leds/on.png")
      ensures led.states[1].name == Some("Off") && led.states[1].imageUrl == Some("examples/leds/off.png")
      ensures led.DefaultState() == led.states[0]
    {
      led := new OverlayType(Some("LED"));
      var onState := new OverlayState(Some("On"), Some("examples/leds/on.png"));
      var offState := new OverlayState(Some("Off"), Some("examples/leds/off.png"));
      led.AddState(onState);
      led.AddState(offState);
    }

    /** The example's sequence: step "Top" lights Top, then step "Bottom" lights Bottom. */
    static method CreateSequence(topLed: OverlayItem, bottomLed: OverlayItem, onState: OverlayState, offState: OverlayState)
      returns (sequence: TransitionSequence)
      ensures fresh(sequence) && sequence.name == None
      ensures var steps := sequence.steps;
        && |steps| == 2 && fresh(steps[0]) && fresh(steps[1])
        && steps[0].name == Some("Top") && steps[1].name == Some("Bottom")
        && steps[0].duration == 0 && steps[1].duration == 0
        && |steps[0].transitions| == 1 && |steps[1].transitions| == 1
        && steps[0].transitions[0].name == Some("Top")
        && steps[1].transitions[0].name == Some("Bottom")
        && var first, second := steps[0].transitions[0].transitions, steps[1].transitions[0].transitions;
        && |first| == 2 && |second| == 2
        && first[0].item == topLed && first[0].state == onState
        && first[1].item == bottomLed && first[1].state == offState
        && second[0].item == topLed && second[0].state == offState
        && second[1].item == bottomLed && second[1].state == onState
    {
      sequence := new TransitionSequence();
      var topOn := new Transition(topLed, onState);
      var bottomOff := new Transition(bottomLed, offState);
      var topStep := new TransitionSequenceStep.Named("Top", [topOn, bottomOff]);
      sequence.steps := sequence.steps + [topStep];
      var topOff := new Transition(topLed, offState);
      var bottomOn := new Transition(bottomLed, onState);
      var bottomStep := new TransitionSequenceStep.Named("Bottom", [topOff, bottomOn]);
      sequence.steps := sequence.steps + [bottomStep];
    }

    /** An item of type `led` as built by an object initializer that sets its name and position. */
    static method CreateItem(led: OverlayType, name: string, x: real, y: real, width: real, height: real)
      returns (item: OverlayItem)
      ensures fresh(item) && fresh(item.position)
      ensures item.overlayType == led && item.name == Some(name) && item.rotation == 0.0
      ensures item.currentState == led.DefaultState() && item.defaultState == led.DefaultState()
      ensures item.position != null
      ensures item.position.x == x && item.position.y == y
      ensures item.position.width == width && item.position.height == height
    {
      item := new OverlayItem(led);
      item.SetName(Some(name));
      var position := new Rectangle.Of(x, y, width, height);
      item.SetPosition(position);
    }

    /** Builds the two-LED machine. */
    static method CreateMachine() returns (machine: Machine)
      ensures fresh(machine)
      ensures machine.name == Some("Two LEDs Preloaded")
      ensures machine.backgroundImageUrl == Some("examples/leds/leds.png")
      ensures machine.version == Some("0.1")
      ensures machine.transitions == []
      ensures |machine.items| == 2 && fresh(machine.items[0]) && fresh(machine.items[1])
      ensures machine.items[0] != machine.items[1]
      ensures
        var top, bottom := machine.items[0], machine.items[1];
        var led := top.overlayType;
        && led != null && bottom.overlayType == led
        && led.name == Some("LED") && led.explicitDefault == null
        && |led.states| == 2 && led.states[0] != led.states[1]
        && led.states[0].name == Some("On") && led.states[0].imageUrl == Some("examples/leds/on.png")
        && led.states[1].name == Some("Off") && led.states[1].imageUrl == Some("examples/leds/off.png")
        && led.DefaultState() == led.states[0]
        && top.name == Some("Top") && bottom.name == Some("Bottom")
        && top.currentState == led.states[0] && top.defaultState == led.states[0]
        && bottom.currentState == led.states[1] && bottom.defaultState == led.states[0]
        && top.rotation == 0.0 && bottom.rotation == 0.0
        && top.position != null && bottom.position != null
        && top.position.x == 0.3 && top.position.y == 0.1
        && top.position.width == 0.4 && top.position.height == 0.4
        && bottom.position.x == 0.3 && bottom.position.y == 0.5
        && bottom.position.width == 0.4 && bottom.position.height == 0.4
      ensures |machine.sequences| == 1 && machine.sequences[0].name == None
      ensures
        var steps := machine.sequences[0].steps;
        var top, bottom := machine.items[0], machine.items[1];
        var led := top.overlayType;
        && led != null && |led.states| == 2
        && |steps| == 2 && steps[0] != steps[1]
        && steps[0].name == Some("Top") && steps[1].name == Some("Bottom")
        && steps[0].duration == 0 && steps[1].duration == 0
        && |steps[0].transitions| == 1 && |steps[1].transitions| == 1
        && steps[0].transitions[0].name == Some("Top")
        && steps[1].transitions[0].name == Some("Bottom")
        && var first, second := steps[0].transitions[0].transitions, steps[1].transitions[0].transitions;
        && |first| == 2 && |second| == 2
        && first[0].item == top && first[0].state == led.states[0]
        && first[1].item == bottom && first[1].state == led.states[1]
        && second[0].item == top && second[0].state == led.states[1]
        && second[1].item == bottom && second[1].state == led.states[0]
    {
      machine := new Machine();
      machine.backgroundImageUrl := Some("examples/leds/leds.png");
      machine.name := Some("Two LEDs Preloaded");
      machine.version := Some("0.1");

      var led := CreateLedType();
      var onState, offState := led.states[0], led.states[1];

      var firstLed := CreateItem(led, "Top", 0.3, 0.1, 0.4, 0.4);
      var secondLed := CreateItem(led, "Bottom", 0.3, 0.5, 0.4, 0.4);
      secondLed.SetCurrentState(offState);

      machine.AddItem(firstLed);
      machine.AddItem(secondLed);

      var sequence := CreateSequence(firstLed, secondLed, onState, offState);
      machine.sequences := machine.sequences + [sequence];
    }

    /**
     * Navigates the example's sequence: Initialize, NavigateToNext twice, then
     * NavigateToPrevious. Records what each navigation call reported and the
     * state names of Top and Bottom after Initialize and after each call.
     */
    static method Walkthrough() returns (reported: seq<bool>, top: seq<Option<string>>, bottom: seq<Option<string>>)
      ensures reported == [true, false, true]
      ensures top == [Some("On"), Some("Off"), Some("Off"), Some("On")]
      ensures bottom == [Some("Off"), Some("On"), Some("On"), Some("Off")]
    {
      var navigation, topLed, bottomLed, on, off, set0, t00, t01, set1, t10, t11 := Prepare();
      ghost var steps := navigation.sequence.steps;

      var outcome := navigation.Initialize();
      LightsOutcome(steps[0], set0, t00, t01, topLed, on, bottomLed, off, topLed.defaultState, bottomLed.defaultState);
      top, bottom := [StateName(topLed)], [StateName(bottomLed)];
      assert top == [Some("On")] && bottom == [Some("Off")];

      var moved := navigation.NavigateToNext();
      LightsOutcome(steps[1], set1, t10, t11, topLed, off, bottomLed, on, on, off);
      reported := [moved];
      top, bottom := top + [StateName(topLed)], bottom + [StateName(bottomLed)];
      assert top == [Some("On"), Some("Off")] && bottom == [Some("Off"), Some("On")];

      var stopped, back, topAtEnd, bottomAtEnd := FromLastStep(navigation, topLed, bottomLed, on, off, set0, t00, t01);
      reported := reported + [stopped, back];
      assert topAtEnd == Some("Off") && StateName(topLed) == Some("On");
      assert bottomAtEnd == Some("On") && StateName(bottomLed) == Some("Off");
      top, bottom := top + [topAtEnd, StateName(topLed)], bottom + [bottomAtEnd, StateName(bottomLed)];
    }

    /** The example machine with a navigation over its sequence, not yet initialized. */
    static method Prepare() returns (navigation: TransitionNavigation, topLed: OverlayItem, bottomLed: OverlayItem,
                                     ghost on: OverlayState, ghost off: OverlayState,
                                     ghost set0: TransitionSet, ghost t00: Transition, ghost t01: Transition,
                                     ghost set1: TransitionSet, ghost t10: Transition, ghost t11: Transition)
      ensures fresh(navigation) && fresh(topLed) && fresh(bottomLed)
      ensures navigation.Valid() && navigation.machine.items == [topLed, bottomLed] && topLed != bottomLed
      ensures topLed.defaultState == on && bottomLed.defaultState == on
      ensures on.name == Some("On") && off.name == Some("Off")
      ensures |navigation.sequence.steps| == 2 && Distinct(navigation.sequence.steps)
      ensures Lights(navigation.sequence.steps[0], set0, t00, t01, topLed, on, bottomLed, off)
      ensures Lights(navigation.sequence.steps[1], set1, t10, t11, topLed, off, bottomLed, on)
    {
      var machine := CreateMachine();
      topLed, bottomLed := machine.items[0], machine.items[1];
      on, off := topLed.overlayType.states[0], topLed.overlayType.states[1];
      var steps := machine.sequences[0].steps;
      set0, set1 := steps[0].transitions[0], steps[1].transitions[0];
      t00, t01 := set0.transitions[0], set0.transitions[1];
      t10, t11 := set1.transitions[0], set1.transitions[1];
      navigation := new TransitionNavigation(machine, machine.sequences[0]);
    }

    /**
     * The end of the walkthrough: on the example's last step, NavigateToNext
     * stays put and NavigateToPrevious goes back to the first step.
     */
    static method FromLastStep(navigation: TransitionNavigation, topLed: OverlayItem, bottomLed: OverlayItem,
                               ghost on: OverlayState, ghost off: OverlayState,
                               ghost set0: TransitionSet, ghost t00: Transition, ghost t01: Transition)
      returns (stopped: bool, back: bool, topAtEnd: Option<string>, bottomAtEnd: Option<string>)
      requires navigation.Valid() && navigation.machine.items == [topLed, bottomLed] && topLed != bottomLed
      requires |navigation.sequence.steps| == 2 && Distinct(navigation.sequence.steps)
      requires Lights(navigation.sequence.steps[0], set0, t00, t01, topLed, on, bottomLed, off)
      requires navigation.currentStep == navigation.sequence.steps[1]
      requires topLed.currentState == off && bottomLed.currentState == on
      modifies navigation, navigation.machine.items
      ensures !stopped && back
      ensures topAtEnd == off.name && bottomAtEnd == on.name
      ensures topLed.currentState == on && bottomLed.currentState == off
    {
      ghost var steps := navigation.sequence.steps;
      IndexOfDistinct(steps, 1);
      stopped := navigation.NavigateToNext();
      topAtEnd, bottomAtEnd := StateName(topLed), StateName(bottomLed);
      back := navigation.NavigateToPrevious();
      LightsOutcome(steps[0], set0, t00, t01, topLed, on, bottomLed, off, off, on);
    }
  }

  /** A step of the example: its single set switches `a` to `sa`, then `b` to `sb`. */
  ghost predicate Lights(step: TransitionSequenceStep, single: TransitionSet, ta: Transition, tb: Transition,
                         a: OverlayItem, sa: OverlayState, b: OverlayItem, sb: OverlayState)
    reads step, single, ta, tb
  {
    && step.transitions == [single] && single.transitions == [ta, tb]
    && ta.item == a && ta.state == sa && tb.item == b && tb.state == sb
  }

  /** Applying such a step leaves `a` in `sa` and `b` in `sb`, whatever their states were. */
  lemma LightsOutcome(step: TransitionSequenceStep, single: TransitionSet, ta: Transition, tb: Transition,
                      a: OverlayItem, sa: OverlayState, b: OverlayItem, sb: OverlayState,
                      aBefore: OverlayState?, bBefore: OverlayState?)
    requires a != b && Lights(step, single, ta, tb, a, sa, b, sb)
    ensures Final(Flatten(step.transitions), a, aBefore) == sa
    ensures Final(Flatten(step.transitions), b, bBefore) == sb
  {
    assert step.transitions[..0] == [];
    assert Flatten(step.transitions) == [] + [ta, tb] == [ta, tb];
    FinalLastWriteWins([ta, tb], 0, a, aBefore);
    FinalLastWriteWins([ta, tb], 1, b, bBefore);
  }
}
