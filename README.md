# Boost.FSM event-dispatching engine, modelled in Dafny

This project models the core of Boost.FSM, a C++ library of flat, table-driven finite state
machines, together with the example and test machines built on it.

A machine type has a fixed, ordered, non-empty list of states. Each state has a dense id
`0 .. N-1`. A machine object holds:
- the current state id, which starts at 0;
- the data of all its states;
- an optional unexpected-event handler;
- a pointer to the machine type's state information table, which is filled once.

Events are dispatched through a table per event type, with one entry per state. The entry of
state `s` either delivers the event to the state's `on_process` handler directly, or first runs
the transit of the first transition rule that applies to `s` and the event type. The candidate
rules are the state's own rules followed by the machine-wide rules. After a transit the event is
delivered to the state that is now current. An event no handler takes goes to the installed
unexpected-event handler; without one, `unexpected_event` is raised. Handlers switch states
with `switch_to`, by type or by id. `reset` runs every state's reset hook and returns to state 0.

The model has three layers.

1. **Pure core** (`StateMachine`, `Transitions`).
   - A machine type is a `Config`: its states and their enter, leave and reset hooks, the
     event kind and type name of each event, the per-state and machine-wide rules, and the
     states' handlers.
   - A state's overload set of `on_process` is one function `handle(s, ctx, e)`. It yields
     `None` when state `s` has no overload for the event.
   - C++ types become indices. A state is its id; an event is a value of a closed datatype
     whose kind stands for its C++ type. Rules decide applicability from (state id, event
     kind) only.
   - The dispatch table, `process`, `switch_to`, `reset` and the state information table are
     functions on values. Their properties are proved as lemmas.
2. **Imperative engine** (`InheritedStates`, `BasicStateMachine`, `CallOnce`, `Exceptions`).
   - The per-state walks become loops that fill arrays through an advancing cursor, five states
     at a time.
   - The state information holder, the dispatcher and the machine are classes whose methods
     update their fields.
   - The call-once trigger and the error objects with their lazily built descriptions are
     classes too.
   - Every method is proved to leave exactly the state the pure functions describe.
3. **Concrete machines** (`Turnstile`, `BitMachine`, `TransitionsTest`, `EventsTest`,
   `LockingTest`).
   - Each machine is a `Config` instance whose handlers are pure functions of the context.
   - The behaviour of each state and the event sequences the tests and examples check are
     proved as lemmas.
   - Several sequences are also run on machine objects through the imperative engine.

`switch_to` compares its target with the id of the state whose code calls it, not with the
current id. The two coincide for a state handling an event, but not after that state has
already switched away. An invalid id in the dynamic form raises `bad_state_id` carrying the
calling state's type and id and the current state's name
(boost/fsm/state_machine.hpp:305, 334, 353). The model follows the code, and the difference
matters for the finding below.

## Model

| member | source | states |
|---|---|---|
| Exceptions.FindFrom | boost/fsm/exceptions.hpp:92 | the position `find` reports from a start: an occurrence at or after it with none in between; no result exactly when no occurrence starts at or after it |
| Exceptions.Find | boost/fsm/exceptions.hpp:92 | `find` reports an occurrence, and reports none exactly when the keyword does not occur |
| Exceptions.EraseAt | boost/fsm/exceptions.hpp:93 | erasing one occurrence keeps everything before it, shifts everything after it down by the keyword's length, and putting the keyword back at that position restores the name |
| Exceptions.EraseAll | boost/fsm/exceptions.hpp:92-93 | after the erase loop the keyword no longer occurs, the name has not grown, and a name without the keyword is unchanged |
| Exceptions.EraseKeyword | boost/fsm/exceptions.hpp:92-99 | each in-place erase loop computes exactly EraseAll of the name |
| Exceptions.ConstructTypeNameImpl | boost/fsm/exceptions.hpp:87-101 | the keyword-stripping cleanup: "struct ", "class ", "union ", "enum " erased in that order; the result is no longer than the input and contains no "enum " |
| Exceptions.ConstructTypeName | boost/fsm/exceptions.hpp:89-99 | the cleaned type name: the four keyword erasures applied in order (the reference definition ConstructTypeNameImpl and CleanNameUnchanged are stated against) |
| Exceptions.CleanNameUnchanged | boost/fsm/exceptions.hpp:89-101 | a name containing none of the four keywords comes back unchanged |
| Exceptions.NoSpaceNoKeyword | boost/fsm/exceptions.hpp:92-99 | a keyword ending in a space never occurs in a name without spaces |
| Exceptions.SpaceFreeNameClean | boost/fsm/exceptions.hpp:89-101 | a type name without spaces is its own cleaned name |
| Exceptions.PrefixedNameClean | boost/fsm/exceptions.hpp:87-101 | "struct X" and "class X" clean to X when X has no spaces |
| Exceptions.InfixKeywordErased | boost/fsm/exceptions.hpp:92-93 | a keyword between two space-free parts, as in "Outer<class Foo>", is erased and the parts are joined |
| Exceptions.DecimalText | boost/fsm/exceptions.hpp:222-223 | the number written into the description is a non-empty string of decimal digits |
| Exceptions.BadStateIdText | boost/fsm/exceptions.hpp:221-223 | the text bad_state_id::what() builds: the fixed prefix, the bad id in decimal, and the state name in quotes (the reference definition of ErrorObject.What) |
| Exceptions.UnexpectedEventText | boost/fsm/exceptions.hpp:278-280 | the text unexpected_event::what() builds: the fixed prefix, the cleaned event type name, and the state name in quotes (the reference definition of ErrorObject.What) |
| Exceptions.ErrorObject.constructor | boost/fsm/exceptions.hpp:135-150 | a new error keeps the state type, id, optional state name, bad id and event it was given, and has no description yet; current_state_type(), current_state_id(), state_id() and event() return them |
| Exceptions.ErrorObject.What | boost/fsm/exceptions.hpp:153-291 | plain fsm_error reports "fsm_error" unless a description exists; bad_state_id and unexpected_event build their text once (deriving a missing state name from the state type), cache it and the name, and return the cached text later |
| Exceptions.WhatIsStable | boost/fsm/exceptions.hpp:212-227 | two successive what() calls return the same text |
| CallOnce.Trigger.constructor | boost/detail/lightweight_call_once.hpp:86-88 | a trigger starts in its initial value, false |
| CallOnce.Step | boost/detail/lightweight_call_once.hpp:91-99 | one call skips exactly when the trigger is set; afterwards the trigger is set exactly when it was set or the initializer returned normally; the initializer succeeds exactly when it ran on a clear trigger and did not raise |
| CallOnce.Call | boost/detail/lightweight_call_once.hpp:91-99 | a set trigger skips the initializer; a clear one runs it and is set exactly when the initializer returned normally |
| CallOnce.AtMostOnceSuccess | boost/detail/lightweight_call_once.hpp:91-99 | over any sequence of calls the initializer completes at most once: once exactly when the trigger started clear and some call succeeds |
| CallOnce.Successes | boost/detail/lightweight_call_once.hpp:91-99 | the number of calls in a sequence whose initializer returned normally (the reference definition AtMostOnceSuccess bounds) |
| CallOnce.After | boost/detail/lightweight_call_once.hpp:91-99 | the trigger value after a sequence of calls (the reference definition TriggerSetIffSuccess characterizes) |
| CallOnce.TriggerSetIffSuccess | boost/detail/lightweight_call_once.hpp:94-98 | the trigger ends set exactly when it started set or some call's initializer returned normally, so a failed call is retried |
| StateMachine.StateName | boost/fsm/state_machine.hpp:371-392 | get_state_name(): a state's own override, or else its cleaned type name |
| StateMachine.SwitchTo | boost/fsm/state_machine.hpp:293-325 | switching to the calling state changes nothing; otherwise the caller's leave hook, then the target's enter hook, then the target becomes current; a valid id stays valid |
| StateMachine.ErrorState | boost/fsm/state_machine.hpp:353 | the state an error records: the current state's name with the calling state's type and id |
| StateMachine.SwitchToId | boost/fsm/state_machine.hpp:332-356 | fails exactly for an id other than the caller's that is outside the list, with bad_state_id for that id and the calling state; otherwise behaves as the static switch |
| StateMachine.SwitchFromCurrentLands | boost/fsm/state_machine.hpp:305-323 | called by the current state, a switch always lands in the target, and a switch to the current state is a no-op |
| StateMachine.Candidates | boost/fsm/detail/inh_st_init_process_functions.hpp:18-22 | the state's own transitions list followed by the machine-wide one |
| StateMachine.FirstApplicable | boost/fsm/detail/inh_st_init_process_functions.hpp:25-28 | the index of the first rule that applies to (state, event kind), with no earlier rule applying; no result exactly when no rule applies |
| StateMachine.EntryFor | boost/fsm/state_machine.hpp:472-490 | an entry's second action always delivers to its own state |
| StateMachine.DispatchIsFirstApplicable | boost/fsm/detail/inh_st_init_process_functions.hpp:17-43 | the table DispatchTable builds (one EntryFor per state, the reference definition the dispatcher rows are stated against) has entry s transiting with rule r if and only if r is the first applicable candidate, and delivering directly if and only if no candidate applies; its second action delivers to s |
| StateMachine.OnUnexpected | boost/fsm/state_machine.hpp:217-223 | an installed handler decides success or failure from (event, state type, state id); without one, unexpected_event with the event's type and the state; the machine is unchanged |
| StateMachine.WellFormed | boost/fsm/state_machine.hpp:293-356 | the assumption every machine type meets: at least one state, and rule transits and handlers, whose switches only reach listed states, keep the current id valid |
| StateMachine.Deliver | boost/fsm/state_machine.hpp:948-959 | the state's own handler when it has one for the event, else the unexpected-event policy |
| StateMachine.ResultOf | boost/fsm/state_machine.hpp:811-815 | what process() hands back: the handler's value, or the failure it raised |
| StateMachine.Process | boost/fsm/state_machine.hpp:811-815 | processing any event on a well-formed machine keeps the current id inside the state list |
| StateMachine.ProcessWithoutRule | boost/fsm/state_machine.hpp:473-482 | when no rule applies in the current state, process is a direct delivery to that state |
| StateMachine.ProcessWithRule | boost/fsm/state_machine.hpp:930-945 | when rule r is the first to apply, process runs r's transit once and delivers to the state it left current |
| StateMachine.ResetUpTo | boost/fsm/detail/inherited_states.hpp:45-50 | the data after the reset hooks of the first i states ran in list order, failures discarded (the reference definition OnReset is stated against) |
| StateMachine.ResetIgnoresFailures | boost/fsm/detail/inh_st_on_reset.hpp:16-24 | whether a reset hook raised never changes the data reset produces |
| StateMachine.Reset | boost/fsm/state_machine.hpp:846-852 | reset always lands in state 0 |
| Transitions.BasicTransit | boost/fsm/transition.hpp:35-44 | a transit called by the current state lands in the next state, and is a no-op when called by the next state itself |
| Transitions.Transition | boost/fsm/transition.hpp:52-64 | applies exactly to the given state and event kind, and lands in the next state |
| Transitions.AnyStateTransition | boost/fsm/transition.hpp:71-80 | applies to every state for the given event kind, and lands in the next state |
| Transitions.StockRulesValid | boost/fsm/transition.hpp:35-80 | both stock rules keep the current id inside the state list |
| Transitions.TransitionDispatch | boost/fsm/transition.hpp:52-64 | as its state's only candidate, a transition makes that state's entry transit for its event kind and deliver directly for every other |
| InheritedStates.ResetOne | boost/fsm/detail/inh_st_on_reset.hpp:16-24 | one fragment runs one state's reset hook, keeps its data whatever it raised, and advances the cursor by one |
| InheritedStates.OnReset | boost/fsm/detail/inherited_states.hpp:45-50 | walking five states at a time, then the last one to five, every reset hook runs exactly once, in state-list order, whatever any of them raised |
| InheritedStates.InitStateInfo | boost/fsm/detail/inh_st_init_states_info.hpp:16-32 | one fragment writes exactly the cursor's entry and advances the cursor by one |
| InheritedStates.InitStatesInfo | boost/fsm/detail/inherited_states.hpp:57-63 | the walk leaves exactly the state information table StatesInfo, whose entry i (InfoOf) records state i's slot, type and name |
| InheritedStates.InitProcessFunction | boost/fsm/detail/inh_st_init_process_functions.hpp:16-43 | one fragment writes exactly the cursor's dispatch entry and advances the cursor by one |
| InheritedStates.InitProcessFunctions | boost/fsm/detail/inherited_states.hpp:66-72 | the walk leaves exactly the dispatch table DispatchTable of the event kind, entry s being EntryFor(s) |
| BasicStateMachine.StatesInfoHolder.constructor | boost/fsm/state_machine.hpp:743-745 | a new holder is not initialized |
| BasicStateMachine.StatesInfoHolder.Init | boost/fsm/state_machine.hpp:748-759 | after init the flag is set and entry i of the table describes state i; once the flag is set nothing is written again, and any fill gives the same table |
| BasicStateMachine.StatesInfoHolder.Get | boost/fsm/state_machine.hpp:762 | the entry read for id is InfoOf that state: its slot, type and name |
| BasicStateMachine.Dispatcher.constructor | boost/fsm/state_machine.hpp:656-667 | a new dispatcher holds DispatchTable of its event kind, one entry per state |
| BasicStateMachine.Dispatcher.At | boost/fsm/state_machine.hpp:670-673 | operator[] returns EntryFor the given state |
| BasicStateMachine.Machine.constructor | boost/fsm/state_machine.hpp:776-784 | a new machine is in state 0 with its states' initial data (Initial) and no handler, and the shared table is filled |
| BasicStateMachine.Machine.WithHandler | boost/fsm/state_machine.hpp:790-802 | as the default constructor, with the given handler installed |
| BasicStateMachine.Machine.Copy | boost/fsm/state_machine.hpp:1006 | a copy has the original's current state, data and handler |
| BasicStateMachine.Machine.AssignFrom | boost/fsm/locking_state_machine.hpp:160-175 | after assignment, self-assignment included, the target has the source's current state, data and handler |
| BasicStateMachine.Machine.Process | boost/fsm/state_machine.hpp:811-815 | process through the dispatcher leaves the machine and returns the result the pure Process gives, with the id still valid |
| BasicStateMachine.Machine.Reset | boost/fsm/state_machine.hpp:846-852 | reset leaves the machine as the pure Reset says: all hooks run, state 0 |
| BasicStateMachine.Machine.SwitchTo | boost/fsm/state_machine.hpp:293-325 | the static switch applied to the machine, as the pure SwitchTo says |
| BasicStateMachine.Machine.SwitchToId | boost/fsm/state_machine.hpp:332-356 | the dynamic switch applied to the machine; an invalid id leaves the machine unchanged |
| BasicStateMachine.Machine.SetUnexpectedEventHandler | boost/fsm/state_machine.hpp:186-190 | the new handler replaces any earlier one; the state is untouched and the machine stays valid |
| BasicStateMachine.Machine.SetDefaultUnexpectedEventHandler | boost/fsm/state_machine.hpp:195-198 | the handler is cleared; the state is untouched and the machine stays valid |
| BasicStateMachine.Machine.GetCurrentStateId | boost/fsm/state_machine.hpp:128-131 | the current id, always valid |
| BasicStateMachine.Machine.GetCurrentStateType | boost/fsm/state_machine.hpp:136-139 | read from the shared table, the current state's declared type |
| BasicStateMachine.Machine.GetCurrentStateName | boost/fsm/state_machine.hpp:156-159 | read from the shared table, the current state's name |
| BasicStateMachine.Machine.CurrentStateRef | boost/fsm/state_machine.hpp:353 | an error raised by the machine records the current state's name with the given type and id |
| BasicStateMachine.Machine.GetStateType | boost/fsm/state_machine.hpp:145-151 | succeeds exactly for a valid id, with that state's type; otherwise bad_state_id with the id and the current state |
| BasicStateMachine.Machine.GetStateName | boost/fsm/state_machine.hpp:165-171 | succeeds exactly for a valid id, with that state's name; otherwise bad_state_id with the id and the current state |
| BasicStateMachine.Machine.IsInState | boost/fsm/state_machine.hpp:822-827 | true exactly when get_current_state_id() is the given id, so only a declared state can be the one it is in |
| Turnstile.Compound | libs/fsm/example/Turnstile/turnstile.cpp:34 | three states, Idle, Processing and Passing |
| Turnstile.Handle | libs/fsm/example/Turnstile/turnstile.cpp:62-153 | the on_process overloads of Idle, Processing and Passing, none where a state has no overload |
| Turnstile.Machine | libs/fsm/example/Turnstile/turnstile.cpp:156 | the machine type has three states |
| Turnstile.MachineWellFormed | libs/fsm/example/Turnstile/turnstile.cpp:62-153 | every handler keeps the current id valid |
| Turnstile.Step | libs/fsm/example/Turnstile/turnstile.cpp:156 | process on a turnstile keeps the id below 3 |
| Turnstile.ProcessIsDeliver | libs/fsm/example/Turnstile/turnstile.cpp:156 | with no transition rules every event goes straight to the current state's handler |
| Turnstile.IdleBehaviour | libs/fsm/example/Turnstile/turnstile.cpp:66-82 | in Idle a ticket moves to Processing; a passenger stays in Idle |
| Turnstile.ProcessingBehaviour | libs/fsm/example/Turnstile/turnstile.cpp:90-115 | in Processing a valid check moves to Passing, an invalid one to Idle, and every other event is accepted without change |
| Turnstile.PassingBehaviour | libs/fsm/example/Turnstile/turnstile.cpp:128-152 | in Passing a passenger sets the flag, staying in Passing; the passed event clears it and moves to Idle |
| Turnstile.PassingUnexpected | libs/fsm/example/Turnstile/turnstile.cpp:119-153 | a ticket or a check result in Passing raises unexpected_event and changes nothing |
| Turnstile.InvariantPreserved | libs/fsm/example/Turnstile/turnstile.cpp:123-152 | the flag is only ever set in Passing, after any event |
| Turnstile.MainSequence | libs/fsm/example/Turnstile/turnstile.cpp:161-171 | main's sequence goes Processing, Passing with the flag, then Idle with the flag clear |
| Turnstile.RunMain | libs/fsm/example/Turnstile/turnstile.cpp:159-174 | main run on a machine object ends in Idle with the flag clear |
| Turnstile.Drive | libs/fsm/example/Turnstile/turnstile.cpp:164-171 | the four process() calls on a machine in Idle bring it back to Idle with the flag clear |
| BitMachine.Pow2 | libs/fsm/example/BitMachine/bit_machine.cpp:73 | 1 << n as an unbounded number: positive, even once n is positive, and larger than n |
| BitMachine.Flip | libs/fsm/example/BitMachine/bit_machine.cpp:145 | v ^ (1 << k), written bit by bit on naturals (the reference definition the lemmas below characterize) |
| BitMachine.BitOf | libs/fsm/example/BitMachine/bit_machine.cpp:145 | bit j of a state value, lowest first |
| BitMachine.FlipTogglesBit | libs/fsm/example/BitMachine/bit_machine.cpp:145 | Flip is an exclusive or with 1 << k: bit k of the result is the complement of bit k of v, and every other bit is unchanged |
| BitMachine.FlipInRange | libs/fsm/example/BitMachine/bit_machine.cpp:143-147 | for k below n, flipping bit k of a value below 2^n stays below 2^n, so NextState_t is again a listed state |
| BitMachine.FlipTwice | libs/fsm/example/BitMachine/bit_machine.cpp:145 | flipping the same bit twice gives back any value |
| BitMachine.FlipMoves | libs/fsm/example/BitMachine/bit_machine.cpp:145 | flipping a bit always changes the value |
| BitMachine.Compound | libs/fsm/example/BitMachine/bit_machine.cpp:73-88 | NO_OF_STATES states, BitState<N> at id N |
| BitMachine.FlipTransit | libs/fsm/example/BitMachine/bit_machine.cpp:142-148 | the transit: the calling BitState<v> switches to BitState<v ^ (1 << k)> (FlipTransitValid states the landing state) |
| BitMachine.SingleRule | libs/fsm/example/BitMachine/bit_machine.cpp:136-139 | the one BitTransition applies to every state and every event |
| BitMachine.BitRule | libs/fsm/example/BitMachine/bit_machine.cpp:156-163 | rule k applies exactly to event kind k, in every state |
| BitMachine.BitRules | libs/fsm/example/BitMachine/bit_machine.cpp:173-177 | the transitions list has NO_OF_BITS rules, and rule k applies exactly to the event for bit k |
| BitMachine.Accept | libs/fsm/example/BitMachine/bit_machine.cpp:118-126 | with transition maps BitState's on_process accepts every event and does nothing |
| BitMachine.FlipHandler | libs/fsm/example/BitMachine/bit_machine.cpp:118-126 | without transition maps BitState's on_process makes the switch itself |
| BitMachine.SingleRuleMachine | libs/fsm/example/BitMachine/bit_machine.cpp:136-152 | the single-rule build has NO_OF_STATES states |
| BitMachine.MultiRuleMachine | libs/fsm/example/BitMachine/bit_machine.cpp:156-177 | the multiple-rules build has NO_OF_STATES states |
| BitMachine.HandlerMachine | libs/fsm/example/BitMachine/bit_machine.cpp:119-127 | the build without rules has NO_OF_STATES states |
| BitMachine.FlipTransitValid | libs/fsm/example/BitMachine/bit_machine.cpp:142-148 | the transit from state v lands in v XOR (1 << k) |
| BitMachine.MachinesWellFormed | libs/fsm/example/BitMachine/bit_machine.cpp:73 | all three builds keep the current id valid |
| BitMachine.SingleRuleEveryEntryTransits | libs/fsm/example/BitMachine/bit_machine.cpp:136-139 | the single rule makes every entry of every table transit |
| BitMachine.MultiRuleEntryIsBitRule | libs/fsm/example/BitMachine/bit_machine.cpp:159-163 | in the multiple-rules build the entry for bit k transits through rule k |
| BitMachine.StepSingle | libs/fsm/example/BitMachine/bit_machine.cpp:136-152 | process on the single-rule build keeps the id below NO_OF_STATES |
| BitMachine.StepMulti | libs/fsm/example/BitMachine/bit_machine.cpp:156-177 | process on the multiple-rules build keeps the id below NO_OF_STATES |
| BitMachine.StepHandler | libs/fsm/example/BitMachine/bit_machine.cpp:119-127 | process on the build without rules keeps the id below NO_OF_STATES |
| BitMachine.BuildsFlipTheBit | libs/fsm/example/BitMachine/bit_machine.cpp:119-171 | all three builds take state v to v XOR (1 << k) on bit event k, and accept the event |
| BitMachine.SameEventTwice | libs/fsm/example/BitMachine/bit_machine.cpp:145 | the same bit event twice returns every build to its start state |
| TransitionsTest.Compound | libs/fsm/test/src/transitions.cpp:41-46 | four states |
| TransitionsTest.LocalRules | libs/fsm/test/src/transitions.cpp:55-68 | the states' own transitions lists: InitialState on Event1 and Event2, State1 on Event3<double>, none elsewhere |
| TransitionsTest.MyTransit | libs/fsm/test/src/transitions.cpp:108-124 | my_transition switches to FinalState exactly for Event3<int>(10) and a non-empty Event3<string>, otherwise changes nothing |
| TransitionsTest.MyTransition | libs/fsm/test/src/transitions.cpp:105-132 | my_transition applies exactly to State2 with an Event3 |
| TransitionsTest.GlobalRules | libs/fsm/test/src/transitions.cpp:136-143 | TransitionsMap_t: my_transition, then the any_state rule to FinalState on StraightToEnd |
| TransitionsTest.Handle | libs/fsm/test/src/transitions.cpp:70-94 | the on_process overloads: State1 takes EventBase, State2 Event2 and every Event3, FinalState StraightToEnd and every Event3, all without effect |
| TransitionsTest.Machine | libs/fsm/test/src/transitions.cpp:146 | the machine type has four states |
| TransitionsTest.MachineWellFormed | libs/fsm/test/src/transitions.cpp:55-143 | every rule and handler keeps the current id valid |
| TransitionsTest.Step | libs/fsm/test/src/transitions.cpp:146 | process keeps the id below 4 |
| TransitionsTest.InitialStateRules | libs/fsm/test/src/transitions.cpp:55-58 | in InitialState, Event1 leads to State1 and Event2 to State2 |
| TransitionsTest.State1Rule | libs/fsm/test/src/transitions.cpp:66-68 | in State1, Event3<double> leads to State2 |
| TransitionsTest.State2Rules | libs/fsm/test/src/transitions.cpp:109-132 | in State2, Event3<int>(10) and a non-empty string lead to FinalState; other Event3s and Event2 stay |
| TransitionsTest.StraightToEndRule | libs/fsm/test/src/transitions.cpp:136-143 | for StraightToEnd the any_state rule, last in every list, is the first to apply |
| TransitionsTest.StraightToEndTransit | libs/fsm/test/src/transitions.cpp:142 | the any_state rule's transit switches every state to FinalState |
| TransitionsTest.FinalTakesStraightToEnd | libs/fsm/test/src/transitions.cpp:142 | FinalState's handler accepts StraightToEnd and stays |
| TransitionsTest.StraightToEndFromAnywhere | libs/fsm/test/src/transitions.cpp:142 | StraightToEnd leads every state to FinalState |
| TransitionsTest.StateTransitionsTest | libs/fsm/test/src/transitions.cpp:153-164 | the state_transitions test starts in InitialState, Event1 reaches State1 and Event3<double> State2 |
| TransitionsTest.StateTransitionsTestInState2 | libs/fsm/test/src/transitions.cpp:166-173 | in State2, Event2 and Event3<string>("") leave the state alone and Event3<int>(10) reaches FinalState |
| TransitionsTest.AnyStateSupportTest | libs/fsm/test/src/transitions.cpp:176-196 | the any_state_support sequence visits FinalState, InitialState after reset, State2, FinalState |
| EventsTest.TruncDiv | libs/fsm/test/src/events.cpp:114 | C++ integer division, truncating toward zero (the reference definition TruncDivRemainder characterizes) |
| EventsTest.TruncDivRemainder | libs/fsm/test/src/events.cpp:114 | C++ division truncates: the remainder is smaller than the divisor and never opposite in sign to the dividend |
| EventsTest.Compound | libs/fsm/test/src/events.cpp:36-47 | two states, Calculating and Overflow |
| EventsTest.InBounds | libs/fsm/test/src/events.cpp:79 | Memory within [-100, 100], the range check_bounds accepts |
| EventsTest.CheckBounds | libs/fsm/test/src/events.cpp:77-81 | Memory in bounds changes nothing; out of bounds switches from the calling state to Overflow, a no-op when the caller is Overflow |
| EventsTest.OnMemorize | libs/fsm/test/src/events.cpp:63-69 | Memorize(v) stores and returns v; handled by the current state it ends in Calculating exactly when v is in bounds, except that as written a Memorize in Overflow always ends in Calculating |
| EventsTest.OnArithmetic | libs/fsm/test/src/events.cpp:94-117 | Calculating's arithmetic: fails exactly on division by zero, leaving the machine as it was; otherwise stores the sum, difference, product or truncated quotient, returns it, and stays exactly when it is in bounds, moving to Overflow otherwise |
| EventsTest.Respond | libs/fsm/test/src/events.cpp:55-124 | an overload exists exactly for Memorize and GetMemory in both states and for every event in Calculating; GetMemory returns Memory and changes nothing |
| EventsTest.HandleAsWritten | libs/fsm/test/src/events.cpp:55-124 | the handlers as written, check_bounds running as the calling state |
| EventsTest.Handle | libs/fsm/test/src/events.cpp:55-124 | the handlers corrected, check_bounds running as the state current after the switch |
| EventsTest.MachineAsWritten | libs/fsm/test/src/events.cpp:127 | the calculator as written has two states |
| EventsTest.Machine | libs/fsm/test/src/events.cpp:127 | the corrected calculator has two states |
| EventsTest.MachinesWellFormed | libs/fsm/test/src/events.cpp:55-124 | both builds keep the current id valid |
| EventsTest.StepAsWritten | libs/fsm/test/src/events.cpp:127 | process on the calculator as written keeps the id below 2 |
| EventsTest.Step | libs/fsm/test/src/events.cpp:127 | process on the corrected calculator keeps the id below 2 |
| EventsTest.ProcessIsDeliver | libs/fsm/test/src/events.cpp:127 | with no rules every event goes straight to the current state's handler |
| EventsTest.Apply | libs/fsm/test/src/events.cpp:94-117 | the value an arithmetic event leaves in Memory |
| EventsTest.CalculatingArithmetic | libs/fsm/test/src/events.cpp:94-117 | in Calculating an arithmetic event stores and returns its result, staying exactly when it is in bounds; both builds agree |
| EventsTest.DivideByZero | libs/fsm/test/src/events.cpp:112-117 | dividing by zero fails and leaves the machine as it was |
| EventsTest.GetMemoryReads | libs/fsm/test/src/events.cpp:71-75 | GetMemory returns Memory and changes nothing |
| EventsTest.GetMemoryReadsIn | libs/fsm/test/src/events.cpp:71-75 | the same, for one given state |
| EventsTest.OverflowArithmeticUnexpected | libs/fsm/test/src/events.cpp:121-124 | arithmetic in Overflow raises unexpected_event and changes nothing |
| EventsTest.MemorizeSettles | libs/fsm/test/src/events.cpp:63-69 | corrected Memorize(v) stores and returns v, in Calculating exactly when v is in bounds |
| EventsTest.MemorizeInOverflowAsWritten | libs/fsm/test/src/events.cpp:63-69 | as written, Memorize(v) in Overflow always ends in Calculating with Memory v |
| EventsTest.InitialInvariant | libs/fsm/test/src/events.cpp:46 | a new calculator is in Calculating with Memory in bounds |
| EventsTest.InvariantPreserved | libs/fsm/test/src/events.cpp:77-81 | in the corrected build every event keeps "in Calculating exactly when Memory is in bounds" |
| EventsTest.AsWrittenBreaksInvariant | libs/fsm/test/src/events.cpp:63-81 | as written, Memorize(500) in Overflow leaves Calculating with Memory 500, breaking the invariant |
| EventsTest.TestSequence | libs/fsm/test/src/events.cpp:133-158 | the test's results 10, Overflow, -8, 4 and 4, on both builds |
| EventsTest.Where | libs/fsm/test/src/events.cpp:77-81 | Calculating for Memory in bounds, Overflow outside |
| EventsTest.Calculate | libs/fsm/test/src/events.cpp:55-124 | the calculator written directly: next state, Memory and result of a handled event (the reference definition StepIsCalculate and Send are stated against) |
| EventsTest.StepIsCalculate | libs/fsm/test/src/events.cpp:55-124 | the corrected machine computes what the directly written calculator computes |
| EventsTest.Send | libs/fsm/test/src/events.cpp:139 | process on a calculator object gives the directly written calculator's state and result |
| EventsTest.CalculateTestSequence | libs/fsm/test/src/events.cpp:139-157 | the directly written calculator gives the test's results |
| EventsTest.RunTest | libs/fsm/test/src/events.cpp:133-158 | the test run on a machine object returns 10, -8, 4, and reads back 4 |
| EventsTest.Drive | libs/fsm/test/src/events.cpp:139-157 | the five process() calls on a calculator in Calculating with Memory 0 return 10, -8, 4 and read back 4 |
| LockingTest.Traced | libs/fsm/test/src/locking.cpp:52-58 | the trace gains the type name, after ", " unless it was empty; nothing else changes |
| LockingTest.Enter | libs/fsm/test/src/locking.cpp:155-158 | State2's on_enter_state sets its enter flag; other states have no hook |
| LockingTest.Leave | libs/fsm/test/src/locking.cpp:160-163 | State2's on_leave_state sets its leave flag; other states have no hook |
| LockingTest.OnReset | libs/fsm/test/src/locking.cpp:87-169 | the reset hooks: InitialState clears its flags and the trace, State1 its flags and value, State2 its flags |
| LockingTest.Compound | libs/fsm/test/src/locking.cpp:39-44 | four states |
| LockingTest.SwitchById | libs/fsm/test/src/locking.cpp:178-192 | a handler's switch_to(id) fails exactly for an id other than the caller's outside the four states, with bad_state_id for that id and the machine unchanged; the caller's own id changes nothing; otherwise the target becomes current |
| LockingTest.Handle | libs/fsm/test/src/locking.cpp:62-193 | the on_process overloads of the four states, none where a state has no overload |
| LockingTest.Machine | libs/fsm/test/src/locking.cpp:196 | the machine type has four states |
| LockingTest.MachineWellFormed | libs/fsm/test/src/locking.cpp:62-193 | every handler keeps the current id valid |
| LockingTest.Step | libs/fsm/test/src/locking.cpp:196 | process keeps the id below 4 |
| LockingTest.ProcessIsDeliver | libs/fsm/test/src/locking.cpp:196 | with no rules every event goes straight to the current state's handler |
| LockingTest.InitialStateEvents | libs/fsm/test/src/locking.cpp:73-84 | in InitialState, Event1 is traced and flagged and leads to State1; Event2 likewise to State2, entering it |
| LockingTest.State1Events | libs/fsm/test/src/locking.cpp:115-129 | in State1 an Event3 is traced, flagged and kept and leads to State2; Event1 and Event2 take the EventBase handler to FinalState |
| LockingTest.State2Events | libs/fsm/test/src/locking.cpp:186-193 | in State2 every event is traced and leads to FinalState, setting State2's leave flag |
| LockingTest.FinalStateSwitch | libs/fsm/test/src/locking.cpp:178-182 | in FinalState, Event3<state_id_t>(id) switches to a valid id and raises bad_state_id for an invalid one, after tracing |
| LockingTest.InitialStateUnexpected | libs/fsm/test/src/locking.cpp:306-315 | without a handler an Event3 in InitialState raises unexpected_event naming "Initial state" and changes nothing |
| LockingTest.TestHandler | libs/fsm/test/src/locking.cpp:265-297 | the test's handler succeeds exactly for Event3<int>(10) reported with InitialState's type and id |
| LockingTest.InitialStateHandled | libs/fsm/test/src/locking.cpp:317-318 | with that handler installed an Event3 in InitialState reaches it with InitialState's type and id, succeeding exactly for Event3<int>(10) |
| LockingTest.ResetClears | libs/fsm/test/src/locking.cpp:253-261 | reset returns to InitialState with the trace and every flag cleared |
| LockingTest.EventDeliveryTest | libs/fsm/test/src/locking.cpp:203-221 | Event1, Event2 reach FinalState with the flags the test checks |
| LockingTest.EnterLeaveResetTest | libs/fsm/test/src/locking.cpp:223-262 | the enter, leave and value flags the test checks, then reset clears everything |
| LockingTest.BadStateIdTest | libs/fsm/test/src/locking.cpp:321-340 | Event2 twice reaches FinalState, then the switch to 100 raises bad_state_id for 100 |
| LockingTest.Send | libs/fsm/test/src/locking.cpp:196 | process on a machine object leaves the state and result that Step gives |
| LockingTest.TwiceEvent2 | libs/fsm/test/src/locking.cpp:324-327 | Event2 twice takes a fresh machine through State2 to FinalState |
| LockingTest.BadStateIdsOn | libs/fsm/test/src/locking.cpp:327-362 | on a fresh machine, the switch to 100, get_state_type(100) and get_state_name(100) all fail with bad_state_id for 100 |
| LockingTest.BadStateIds | libs/fsm/test/src/locking.cpp:321-363 | on a machine object, the switch to 100, get_state_type(100) and get_state_name(100) all fail with bad_state_id for 100 |
| LockingTest.Accessors | libs/fsm/test/src/locking.cpp:365-385 | the current name is "Initial state", the name of State2 and type of State1 come from the table, and the id follows Event1 to State1 |
| LockingTest.Diverge | libs/fsm/test/src/locking.cpp:404-412 | two machines with the same state take different events and end in different states with their own flags |
| LockingTest.CopyInState1 | libs/fsm/test/src/locking.cpp:391-401 | Event1 takes a fresh machine to State1, and its copy is a distinct machine in the same state |
| LockingTest.Copying | libs/fsm/test/src/locking.cpp:387-424 | a copy starts equal, the two evolve independently, and assignment makes them equal again |

## Left out

- boost/fsm/detail/prologue.hpp and boost/detail/memory_barrier.hpp are not part of this model; they hold compiler attribute macros and intrinsics only.
- Threads and locking are left out. The multithreaded call_once variants (boost/detail/lwco_win32.hpp, boost/detail/lwco_pthreads.hpp, boost/detail/lwco_macos.hpp, boost/detail/lwco_beos.hpp), memory barriers, and the mutex of boost/fsm/locking_state_machine.hpp are concurrency. The locking test machine behaves as the plain machine.
- The lazy, racy construction of the global dispatchers and of the state information holder is modelled as single-threaded and built once.
- boost/fsm/event.hpp is not part of this model. Events are closed datatypes per machine, with a kind per C++ event type.
- `boost::any` is modelled per machine: the event value as the event datatype, and State1's stored Event3 value as a small closed datatype.
- C++ types, overload resolution, MPL type lists, virtual bases and the byte offsets (`Shift`) are replaced by state ids, per-machine handler functions and a slot index in the information table.
- A handler is a pure function from the context to an outcome, rather than code that updates the states' fields in place. The machine object applies the outcome to its fields.
- `get<T>()` (state reference access) is modelled by reading the machine's `data` field directly.
- GCC demangling through `abi::__cxa_demangle` is a foreign call. Type names are the raw strings the Microsoft compilers report, cleaned by the keyword-stripping branch.
- The concrete machines' state names are written as strings in each state declaration. The model does not derive them from C++ types.
- StateMachine.Process: rule transits never raise in the model, so a user transit that throws inside perform_transition (boost/fsm/state_machine.hpp:930-945) is not covered.
- StateMachine.SwitchTo: enter and leave hooks never raise in the model, so a hook that throws midway through a switch is not covered.
- Exceptions.ErrorObject.What: the fallback to the fixed text when building the description fails (the `catch (std::exception&)` blocks) is not modelled, because building a string cannot fail in the model.
- EventsTest.OnArithmetic: Memory is an unbounded integer, so 32-bit overflow, which is undefined in C++, is not modelled. Dividing by zero, also undefined, is modelled as a failure that leaves the machine unchanged.
- BitMachine: only the default build, NO_OF_BITS = 3, is instantiated. The definitions and proofs about Flip, the rules and the three builds do not depend on that value beyond its being positive, but other values are not checked here, and the limit a 32-bit `int` puts on `1 << NO_OF_BITS` is not modelled.
- BitMachine.Pow2: stated as the unbounded power of two (positive, even, larger than n) rather than tied to the 32-bit shift `1 << n`; the state values stay far below the shift's range.
- Console output, the hardware stubs of the turnstile, and the bit machine's interactive loop and timed performance test are I/O and are left out.
- The test harness macros are left out. Each test case is a lemma over the pure model, and some are also a method over machine objects.

## Findings

| source | as written | input that shows it | evidently intended | confidence | as-written member | corrected member |
|---|---|---|---|---|---|---|
| libs/fsm/test/src/events.cpp:63-81 | Memorize in Overflow switches to Calculating and then runs `check_bounds()` as Overflow. The check's `switch_to<Overflow>()` targets the calling state, so it does nothing. The machine stays in Calculating with Memory out of bounds. | Machine in Overflow with Memory 1000, then Memorize(500): it ends in Calculating with Memory 500 | Memory out of [-100, 100] puts the machine in Overflow after every event | not executed | EventsTest.AsWrittenBreaksInvariant | EventsTest.InvariantPreserved |
