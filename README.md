# SlideMeister transition engine in Dafny

SlideMeister shows a background image with overlay items on it, for example
LEDs that are On or Off. Each item has a current state taken from its overlay
type's list of states. A *transition* puts one item into one state. A
*transition set* is a named list of transitions. A *sequence* is a list of
*steps*, and each step holds the transition sets to apply when it becomes
current.

This project models the library's engine and proves what it does:

- `wrappers.dfy` (module `Wrappers`) holds the `Option` and `Outcome` types.
  `None` stands for a C# `null` string, and `Fail` for the exception that
  `Initialize` throws.
- `sequences.dfy` (module `Sequences`) holds `IndexOf`. It is the
  first-occurrence, reference-comparing `List.IndexOf` that both the cursor and
  the state cycling rely on.
- `model.dfy` (module `Model`) holds the entity classes of
  `SlideMeisterLib/Model`: their constructors, their setters (which skip equal
  values) and the list operations. It also holds `OverlayType.DefaultState` and
  `OverlayType.GetNextState`, with lemmas showing that cycling through distinct
  states returns to the start.
- `machine_logic.dfy` (module `Logic`) holds `MachineLogic`. Its two methods
  apply one transition or one set. `Final` gives an item's state after a list
  of transitions, and lemmas prove that the last write wins.
- `transition_navigation.dfy` (module `Navigation`) holds the cursor
  `TransitionNavigation` with `Initialize`, `NavigateToNext` and
  `NavigateToPrevious`.
  - `NextMove` and `PreviousMove` say where each call moves the cursor.
  - Lemmas show that repeated calls walk the steps one at a time and stop at
    either end, without wrapping around.
- `example.dfy` (module `Examples`) holds `Example.CreateMachine`, the
  built-in two-LED machine, and a walkthrough that navigates its sequence.

Every entity is a class, so lookups compare references, as in the library: no
class there overrides `Equals`. A `TimeSpan` is a whole number of
milliseconds. Doubles are `real` values that are stored but never computed
with.

The navigation methods share one helper, `TransitionNavigation.ApplyStep`. The
source repeats the same loop three times: over the current step's sets, applying
each through `MachineLogic`.

The cursor stores a step object, as the source does. Its position is the first
index of that object in the step list, so the position results in the
navigation contracts assume distinct steps. Where steps repeat, the contracts
still state which step becomes current.

Three details of the code are worth knowing:

- A step built from a name and transitions has a duration of zero
  (TransitionSequenceStep.cs:65-69). Only the parameterless constructor sets
  one second (TransitionSequenceStep.cs:55-58).
- In the example machine the LED type's default state is On, its first state,
  because the type sets no explicit default (Example.cs:20-24). Bottom starts
  Off only because its initializer overrides the current state
  (Example.cs:32-37).
- This revision of OverlayItem.cs declares no `DefaultState` member, but
  TransitionNavigation.cs:51 reads `item.DefaultState`. The model adds a
  `defaultState` field and initialises it like `currentState`, to the type's
  default state (OverlayItem.cs:73).

## Model

| member | source | states |
|---|---|---|
| Sequences.IndexOf | src/SlideMeisterLib/Logic/TransitionNavigation.cs:72 | The result is -1 exactly when the element is absent; otherwise it is an index holding the element, with no earlier occurrence. |
| Sequences.IndexOfDistinct | src/SlideMeisterLib/Logic/TransitionNavigation.cs:72 | In a list without repeats, the lookup finds each element at its own index. |
| Sequences.IndexOfReached | src/SlideMeisterLib/Logic/TransitionNavigation.cs:72 | With repeats, the lookup of the element at index i returns i or an earlier index, and returns i exactly when no earlier copy exists. |
| Model.OverlayType.constructor | src/SlideMeisterLib/Model/OverlayType.cs:38-41 | A new type has the given name, no states and no default state. |
| Model.OverlayType.SetName | src/SlideMeisterLib/Model/OverlayType.cs:15-24 | After the call the name is the given value; no other field changes. |
| Model.OverlayType.SetStates | src/SlideMeisterLib/Model/OverlayType.cs:26-36 | After the call the state list is the given list; no other field changes. |
| Model.OverlayType.AddState | src/SlideMeisterLib/Model/OverlayType.cs:43-46 | The state list becomes the old list followed by the new state. The default state changes only when there was none, and then it becomes the new state. |
| Model.OverlayType.DefaultState | src/SlideMeisterLib/Model/OverlayType.cs:48-52 | The result is the explicitly set state, or else the first state, or else null. It is null exactly when there is neither. |
| Model.OverlayType.SetDefaultState | src/SlideMeisterLib/Model/OverlayType.cs:51 | The explicit default becomes the given value; a non-null value is then the default state. |
| Model.OverlayType.GetNextState | src/SlideMeisterLib/Model/OverlayType.cs:59-68 | The result is one of the states. A state not in the list (null included) is followed by the first state. Otherwise the result follows the first occurrence of the given state, with the list read as a ring. |
| Model.OverlayType.GetNextStateAt | src/SlideMeisterLib/Model/OverlayType.cs:61-67 | With distinct states, the state at index i is followed by the state at i + 1; the last state is followed by the first. |
| Model.OverlayType.NextStateAfterAdd | src/SlideMeisterLib/Model/OverlayType.cs:59-68 | Cycling a times and then b times is cycling a + b times. |
| Model.OverlayType.NextStateWalk | src/SlideMeisterLib/Model/OverlayType.cs:59-68 | With distinct states, k steps from the state at index i reach index i + k while that index exists. |
| Model.OverlayType.NextStateCycles | src/SlideMeisterLib/Model/OverlayType.cs:59-68 | With distinct states, cycling as many times as there are states returns to the starting state. |
| Model.OverlayItem.constructor | src/SlideMeisterLib/Model/OverlayItem.cs:70-74 | The item gets the given type. Its current state and default state are the type's default state. It has no name and no position, and its rotation is 0. |
| Model.OverlayItem.SetName | src/SlideMeisterLib/Model/OverlayItem.cs:17-26 | After the call the name is the given value; no other field changes. |
| Model.OverlayItem.SetPosition | src/SlideMeisterLib/Model/OverlayItem.cs:28-37 | After the call the position is the given rectangle; no other field changes. |
| Model.OverlayItem.SetOverlayType | src/SlideMeisterLib/Model/OverlayItem.cs:39-48 | After the call the type is the given type; no other field changes. |
| Model.OverlayItem.SetCurrentState | src/SlideMeisterLib/Model/OverlayItem.cs:50-59 | After the call the current state is the given state. Name, position, type, default state and rotation are unchanged. |
| Model.TransitionSet.constructor | src/SlideMeisterLib/Model/TransitionSet.cs:16-30 | The set has the given name. Its transitions are exactly the given ones, in the given order, appended one by one to an empty list. |
| Model.TransitionSequenceStep.constructor | src/SlideMeisterLib/Model/TransitionSequenceStep.cs:55-58 | A new step lasts one second (1000 ms), has no name and has no transition sets. |
| Model.TransitionSequenceStep.WithDuration | src/SlideMeisterLib/Model/TransitionSequenceStep.cs:60-63 | The step has the given duration and no transition sets. |
| Model.TransitionSequenceStep.Named | src/SlideMeisterLib/Model/TransitionSequenceStep.cs:65-69 | The step has the given name and a duration of zero. It holds one new set, named like the step, holding the given transitions in order. |
| Model.TransitionSequenceStep.NamedWithDuration | src/SlideMeisterLib/Model/TransitionSequenceStep.cs:71-76 | The step has the given name and duration. It holds one new set, named like the step, holding the given transitions in order. |
| Model.TransitionSequenceStep.WithSet | src/SlideMeisterLib/Model/TransitionSequenceStep.cs:78-83 | The step has the given name and duration, and its sets are exactly the given set. |
| Model.TransitionSequenceStep.SetName | src/SlideMeisterLib/Model/TransitionSequenceStep.cs:16-25 | After the call the name is the given non-null string; no other field changes. |
| Model.TransitionSequenceStep.SetDuration | src/SlideMeisterLib/Model/TransitionSequenceStep.cs:30-39 | After the call the duration is the given value; no other field changes. |
| Model.TransitionSequenceStep.SetTransitions | src/SlideMeisterLib/Model/TransitionSequenceStep.cs:44-53 | After the call the set list is the given list; no other field changes. |
| Model.Machine.constructor | src/SlideMeisterLib/Model/Machine.cs:22-26 | A new machine has no items, no sequences and no transition sets, and unset name, background and version. |
| Model.Machine.AddItem | src/SlideMeisterLib/Model/Machine.cs:28-31 | The items become the old items followed by the new one. Sequences, transition sets, name, background and version are unchanged. |
| Logic.FinalUntargeted | src/SlideMeisterLib/Logic/MachineLogic.cs:23-46 | An item that no transition in a list targets keeps its state. |
| Logic.FinalLastWriteWins | src/SlideMeisterLib/Logic/MachineLogic.cs:41-44 | An item ends in the state of the last transition that targets it, whatever came before. |
| Logic.FinalAppend | src/SlideMeisterLib/Logic/MachineLogic.cs:41-44 | Applying one list of transitions and then another is applying their concatenation. |
| Logic.FinalFlattenSnoc | src/SlideMeisterLib/Logic/TransitionNavigation.cs:61-64 | Applying sets one after another is applying their transitions concatenated in set order. |
| Logic.MachineLogic.ApplyTransition | src/SlideMeisterLib/Logic/MachineLogic.cs:23-33 | The item the transition names, if the machine holds it (by reference), takes the transition's state; whether that state belongs to the item's type is not checked. Every other item keeps its state. Nothing changes and no error is raised when the item is absent. No item's other fields change, and the item list is untouched. |
| Logic.MachineLogic.ApplyTransitionSet | src/SlideMeisterLib/Logic/MachineLogic.cs:39-46 | Each item of the machine ends in `Final` of the set's transitions: its state after they are applied in list order. No item's other fields change. |
| Navigation.NextMove | src/SlideMeisterLib/Logic/TransitionNavigation.cs:72-89 | A cursor not on a step moves to step 0. On the last step it stays, and only there. Otherwise it moves exactly one step forward. |
| Navigation.PreviousMove | src/SlideMeisterLib/Logic/TransitionNavigation.cs:105-120 | A cursor not on a step moves to step 0. On the first step it stays, and only there. Otherwise it moves exactly one step back. |
| Navigation.ForwardWalk | src/SlideMeisterLib/Logic/TransitionNavigation.cs:70-97 | From step 0, k calls of NavigateToNext reach step k while k is below the step count, each moving one step. |
| Navigation.ForwardStopsAtEnd | src/SlideMeisterLib/Logic/TransitionNavigation.cs:80-83 | Once the last step is reached, further calls of NavigateToNext stay on it: no wrap-around. |
| Navigation.BackwardWalk | src/SlideMeisterLib/Logic/TransitionNavigation.cs:112-117 | From the last step, k calls of NavigateToPrevious reach step count-1-k, and stay on step 0 after that. |
| Logic.MachineLogic.constructor | src/SlideMeisterLib/Logic/MachineLogic.cs:14-17 | The transition engine is bound to the given machine. |
| Navigation.TransitionNavigation.constructor | src/SlideMeisterLib/Logic/TransitionNavigation.cs:35-41 | The navigation works on the given machine and sequence, through a transition engine bound to the same machine. No step is current. |
| Navigation.TransitionNavigation.ApplyStep | src/SlideMeisterLib/Logic/TransitionNavigation.cs:61-64 | Every item ends in its state after all of the step's sets are applied, set after set, in list order. No item's other fields change. |
| Navigation.TransitionNavigation.Initialize | src/SlideMeisterLib/Logic/TransitionNavigation.cs:46-65 | Every item is first reset to its default state. With no steps the call fails with the invalid-operation message, the cursor is cleared and the items stay at their defaults. Otherwise step 0 becomes current and is applied on top of the defaults. The result does not depend on earlier states, so a second call gives the same result. |
| Navigation.TransitionNavigation.NavigateToNext | src/SlideMeisterLib/Logic/TransitionNavigation.cs:70-97 | The call returns false exactly when it stays (on the last step); the cursor and every item are then unchanged. Otherwise it returns true: the step `NextMove` chooses becomes current, with that index when steps are distinct, and its sets are applied on top of the current states. Items are never reset. |
| Navigation.TransitionNavigation.NavigateToPrevious | src/SlideMeisterLib/Logic/TransitionNavigation.cs:103-129 | The call returns false exactly when it stays (on the first step); the cursor and every item are then unchanged. Otherwise it returns true: the step `PreviousMove` chooses becomes current, with that index when steps are distinct, and its sets are applied on top of the current states. |
| Examples.Example.CreateLedType | src/SlideMeisterLib/Logic/Example.cs:20-24 | The LED type has the states On and Off, in that order, with their image paths. It has no explicit default, so its default state is On. |
| Examples.Example.CreateItem | src/SlideMeisterLib/Logic/Example.cs:26-37 | An item built by an initializer has the given name and a fresh position rectangle. Its current and default states are the type's default state. |
| Examples.Example.CreateSequence | src/SlideMeisterLib/Logic/Example.cs:42-52 | The sequence has two steps, "Top" and "Bottom", both of duration zero. Each holds one set named like the step: Top to On and Bottom to Off, then Top to Off and Bottom to On. |
| Examples.Example.CreateMachine | src/SlideMeisterLib/Logic/Example.cs:11-56 | The machine has its name, background and version. Its items are exactly Top (On) and Bottom (Off, overridden by its initializer), both defaulting to On, at their positions. It has no transition sets and exactly one unnamed sequence with the two steps above. |
| Examples.Example.Walkthrough | src/SlideMeisterLib/Logic/Example.cs:11-56 | On the example machine: Initialize gives Top On and Bottom Off. NavigateToNext returns true and gives Top Off and Bottom On. A second NavigateToNext returns false and changes nothing. NavigateToPrevious returns true and gives Top On and Bottom Off again. |
| Examples.LightsOutcome | src/SlideMeisterLib/Logic/Example.cs:43-52 | Applying either example step leaves its two items in the step's two target states, whatever their states were before. |

## Left out

- `ToString` of every class is diagnostic text formatting.
- Change notification (`INotifyPropertyChanged`) and the `Debug.WriteLine` in `ApplyTransition` are observer and logging plumbing. Setters are plain assignments that keep the equal-value check.
- Lists are `seq` values, not shared mutable `List` objects. Aliasing between two holders of one list is not captured, and `SetStates` and `SetTransitions` compare list contents where the source compares references.
- List entries are never null; a null entry in `Items`, `States` or `Steps` is not modelled.
- A transition set built from `params Transition[]` takes a sequence; the array object itself is not modelled.
- `Rectangle` coordinates and `Rotation` are stored reals with no arithmetic.
- Model.OverlayItem.constructor: `defaultState` is an added field. OverlayItem.cs in this revision does not declare it, though TransitionNavigation.cs:51 reads it; the field is assumed to start at the type's default state.
- Model.OverlayItem.constructor, Model.TransitionSequenceStep.Named, Model.TransitionSequenceStep.NamedWithDuration and Model.TransitionSequenceStep.WithSet: a null argument is excluded by the parameter type. The source throws a null-reference exception there: at OverlayItem.cs:73 (`Type.DefaultState`) for a null type, and at TransitionSequenceStep.cs:21 (`value.Equals`) for a null name.
- Navigation.TransitionNavigation.NavigateToNext: requires a non-empty step list. The source indexes `Steps[0]` and throws out-of-range there; that exception is not modelled.
- Navigation.TransitionNavigation.NavigateToPrevious: requires a non-empty step list, for the same reason.
- Model.OverlayType.GetNextState: requires a non-empty state list. The source indexes `States[0]` and throws out-of-range there.
- Navigation.TransitionNavigation.NavigateToNext: the cursor's new position is stated only for distinct steps. With repeated steps the cursor becomes the chosen step object, and the lookup finds its first copy.
- The JSON loader, the desktop UI, the console demo and timed sequence playback (which is concurrent) are not part of this model.
