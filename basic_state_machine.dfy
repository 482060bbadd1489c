/**
 * The run-time objects of the engine: the per-machine-type state information holder, the
 * per-event-kind dispatcher, and the machine itself with its current state id, the data of its
 * states and its unexpected-event handler. Every operation that changes a machine is proved to
 * leave it in the state the pure functions of module StateMachine describe.
 */
module BasicStateMachine {
  import opened Wrappers
  import opened Exceptions
  import opened StateMachine
  import InheritedStates

  /** states_info_holder: the state information table of a machine type, filled on first use. */
  class StatesInfoHolder {
    const states: seq<StateDecl>
    const entries: array<StateInfo>
    var initialized: bool

    ghost predicate Valid()
      reads this, entries
    {
      && |states| >= 1
      && entries.Length == |states|
      && (initialized ==> entries[..] == StatesInfo(states))
    }

    constructor (states: seq<StateDecl>)
      requires |states| >= 1
      ensures Valid() && this.states == states && !initialized && fresh(entries)
    {
      this.states := states;
      entries := new StateInfo[|states|](_ => StateInfo(0, "", ""));
      initialized := false;
    }

    /**
     * init(): fills the table and sets the flag when the flag is clear; once set, nothing is
     * written again, so every machine of the type sees one and the same table.
     */
    method Init()
      requires Valid()
      modifies this, entries
      ensures Valid() && initialized
      ensures entries[..] == StatesInfo(states)
      ensures old(initialized) ==> unchanged(this) && unchanged(entries)
    {
      if !initialized {
        InheritedStates.InitStatesInfo(states, entries);
        initialized := true;
      }
    }

    /** The entry of state `id`: its slot, its type and its name. */
    function Get(id: nat): (r: StateInfo)
      reads this, entries
      requires Valid() && initialized && id < |states|
      ensures r.slot == id && r.stateType == states[id].stateType && r.name == StateName(states[id])
    {
      entries[id]
    }
  }

  /** state_dispatcher: the dispatch table of one event kind, one entry per state. */
  class Dispatcher<D, E, K, R> {
    const cfg: Config<D, E, K, R>
    const kind: K
    const entries: array<Entry>

    ghost predicate Valid()
      reads entries
    {
      entries.Length == cfg.Count() && entries[..] == DispatchTable(cfg, kind)
    }

    /** Builds the table once, through the per-state walk. */
    constructor (cfg: Config<D, E, K, R>, kind: K)
      requires cfg.Count() >= 1
      ensures Valid() && this.cfg == cfg && this.kind == kind
    {
      this.cfg := cfg;
      this.kind := kind;
      var a := new Entry[cfg.Count()](_ => Entry(DeliverEvent(0), DeliverEvent(0)));
      InheritedStates.InitProcessFunctions(cfg, kind, a);
      entries := a;
    }

    /** operator[]: the entry of state `id`. */
    function At(id: nat): (e: Entry)
      reads entries
      requires Valid() && id < cfg.Count()
      ensures e == EntryFor(cfg, id, kind)
    {
      entries[id]
    }
  }

  /** basic_state_machine together with its state_machine_root. */
  class Machine<D(!new), E(!new), K(==,!new), R> {
    const cfg: Config<D, E, K, R>
    const info: StatesInfoHolder
    var current: nat
    var data: D
    var unexpected: Option<UnexpectedHandler<E, R>>

    /** The current id stays inside the state list, and the shared information table is filled. */
    ghost predicate Valid()
      reads this, info, info.entries
    {
      && WellFormed(cfg)
      && info.Valid() && info.initialized && info.states == cfg.compound.states
      && current < cfg.Count()
    }

    /** What handlers see of the machine: the current id and the states' data. */
    function State(): Ctx<D>
      reads this
    {
      Ctx(current, data)
    }

    /** The default constructor: state 0, fresh state data, no unexpected-event handler. */
    constructor (cfg: Config<D, E, K, R>, info: StatesInfoHolder)
      requires WellFormed(cfg) && info.Valid() && info.states == cfg.compound.states
      modifies info, info.entries
      ensures Valid() && this.cfg == cfg && this.info == info
      ensures State() == Initial(cfg.compound) && unexpected == None
    {
      this.cfg := cfg;
      this.info := info;
      current := 0;
      data := cfg.compound.initial;
      unexpected := None;
      new;
      info.Init();
    }

    /** The constructor that also installs an unexpected-event handler. */
    constructor WithHandler(cfg: Config<D, E, K, R>, info: StatesInfoHolder, handler: UnexpectedHandler<E, R>)
      requires WellFormed(cfg) && info.Valid() && info.states == cfg.compound.states
      modifies info, info.entries
      ensures Valid() && this.cfg == cfg && this.info == info
      ensures State() == Initial(cfg.compound) && unexpected == Some(handler)
    {
      this.cfg := cfg;
      this.info := info;
      current := 0;
      data := cfg.compound.initial;
      unexpected := None;
      new;
      info.Init();
      SetUnexpectedEventHandler(handler);
    }

    /** The copy constructor: the same current state, state data and handler as `that`. */
    constructor Copy(that: Machine<D, E, K, R>)
      requires that.Valid()
      ensures Valid() && cfg == that.cfg && info == that.info
      ensures State() == that.State() && unexpected == that.unexpected
    {
      cfg := that.cfg;
      info := that.info;
      current := that.current;
      data := that.data;
      unexpected := that.unexpected;
    }

    /** Assignment: this machine takes the current state, state data and handler of `that`. */
    method AssignFrom(that: Machine<D, E, K, R>)
      requires Valid() && that.Valid() && that.cfg == cfg
      modifies this
      ensures Valid()
      ensures State() == old(that.State()) && unexpected == old(that.unexpected)
    {
      current, data, unexpected := that.current, that.data, that.unexpected;
    }

    /**
     * process(e) through the dispatcher of e's kind: the first action of the current state's
     * entry, and for a transition the second action of the entry of the state the transit left
     * current. The machine ends as the pure Process says, with the current id still valid.
     */
    method Process(d: Dispatcher<D, E, K, R>, e: E) returns (r: Result<R, Failure<E>>)
      requires Valid() && d.Valid() && d.cfg == cfg && d.kind == cfg.kindOf(e)
      modifies this
      ensures Valid() && unexpected == old(unexpected)
      ensures var o := StateMachine.Process(cfg, old(State()), old(unexpected), e);
        State() == o.ctx && r == ResultOf(o)
    {
      var ctx := State();
      var o: Outcome<D, E, R>;
      match d.At(current).first {
        case DeliverEvent(s) =>
          o := Deliver(cfg, s, ctx, unexpected, e);
        case PerformTransition(s, rule) =>
          var next := Candidates(cfg, s)[rule].transit(s, ctx, e);
          current, data := next.current, next.data;
          match d.At(current).second {
            case DeliverEvent(s2) =>
              o := Deliver(cfg, s2, next, unexpected, e);
            case PerformTransition(_, _) =>
              assert false;
              o := Raised(next, Foreign(""));
          }
      }
      current, data := o.ctx.current, o.ctx.data;
      r := ResultOf(o);
    }

    /** reset(): every state's reset hook, failures discarded, then state 0 without enter or leave hooks. */
    method Reset()
      requires Valid()
      modifies this
      ensures Valid() && unexpected == old(unexpected)
      ensures State() == StateMachine.Reset(cfg.compound, old(State()))
    {
      var d;
      ghost var calls;
      d, calls := InheritedStates.OnReset(cfg.compound, data);
      data := d;
      current := 0;
    }

    /** basic_state<Caller>::switch_to<Target>() applied to this machine. */
    method SwitchTo(caller: nat, target: nat)
      requires Valid() && target < cfg.Count()
      modifies this
      ensures Valid() && unexpected == old(unexpected)
      ensures State() == StateMachine.SwitchTo(cfg.compound, caller, old(State()), target)
    {
      if target != caller {
        data := cfg.compound.leave(caller, data);
        data := cfg.compound.enter(target, data);
        current := target;
      }
    }

    /**
     * basic_state<Caller>::switch_to(id) applied to this machine: an invalid id raises
     * bad_state_id and leaves the machine exactly as it was.
     */
    method SwitchToId(caller: nat, target: nat) returns (r: Result<Ctx<D>, FsmError<E>>)
      requires Valid() && caller < cfg.Count()
      modifies this
      ensures Valid() && unexpected == old(unexpected)
      ensures r == StateMachine.SwitchToId(cfg.compound, caller, old(State()), target)
      ensures r.Err? ==> unchanged(this)
      ensures r.Ok? ==> State() == r.value
    {
      if target != caller {
        if target < cfg.Count() {
          SwitchTo(caller, target);
        } else {
          r := Err(BadStateId(target, CurrentStateRef(caller)));
          return;
        }
      }
      r := Ok(State());
    }

    /** set_unexpected_event_handler(): installs `handler`, replacing any earlier one. */
    method SetUnexpectedEventHandler(handler: UnexpectedHandler<E, R>)
      requires Valid()
      modifies this
      ensures Valid() && unexpected == Some(handler) && State() == old(State())
    {
      unexpected := Some(handler);
    }

    /** set_default_unexpected_event_handler(): removes the handler, so unexpected events raise again. */
    method SetDefaultUnexpectedEventHandler()
      requires Valid()
      modifies this
      ensures Valid() && unexpected == None && State() == old(State())
    {
      unexpected := None;
    }

    /** get_current_state_id(): always a valid id. */
    function GetCurrentStateId(): (id: nat)
      reads this, info, info.entries
      requires Valid()
      ensures id < cfg.Count() && id == State().current
    {
      current
    }

    /** get_current_state_type(): read from the shared table, it is the current state's declared type. */
    function GetCurrentStateType(): (t: string)
      reads this, info, info.entries
      requires Valid()
      ensures t == cfg.compound.states[current].stateType
    {
      info.Get(current).stateType
    }

    /** get_current_state_name(): read from the shared table, it is the current state's name. */
    function GetCurrentStateName(): (name: string)
      reads this, info, info.entries
      requires Valid()
      ensures name == StateName(cfg.compound.states[current])
    {
      info.Get(current).name
    }

    /** The state an error raised by the machine records: the current name, the given type and id. */
    function CurrentStateRef(s: nat): (r: StateRef)
      reads this, info, info.entries
      requires Valid() && s < cfg.Count()
      ensures r == ErrorState(cfg.compound, State(), cfg.compound.states[s].stateType, s)
    {
      StateRef(Some(GetCurrentStateName()), cfg.compound.states[s].stateType, s)
    }

    /**
     * get_state_type(id): the declared type of state `id` when the id is valid; otherwise
     * bad_state_id carrying the id and the current state.
     */
    function GetStateType(id: nat): (r: Result<string, FsmError<E>>)
      reads this, info, info.entries
      requires Valid()
      ensures r.Ok? <==> id < cfg.Count()
      ensures r.Ok? ==> r.value == cfg.compound.states[id].stateType
      ensures r.Err? ==> r.error == BadStateId(id, ErrorState(cfg.compound, State(), GetCurrentStateType(), current))
    {
      if id < info.entries.Length then Ok(info.Get(id).stateType)
      else Err(BadStateId(id, CurrentStateRef(current)))
    }

    /**
     * get_state_name(id): the name of state `id` when the id is valid; otherwise bad_state_id
     * carrying the id and the current state.
     */
    function GetStateName(id: nat): (r: Result<string, FsmError<E>>)
      reads this, info, info.entries
      requires Valid()
      ensures r.Ok? <==> id < cfg.Count()
      ensures r.Ok? ==> r.value == StateName(cfg.compound.states[id])
      ensures r.Err? ==> r.error == BadStateId(id, ErrorState(cfg.compound, State(), GetCurrentStateType(), current))
    {
      if id < info.entries.Length then Ok(info.Get(id).name)
      else Err(BadStateId(id, CurrentStateRef(current)))
    }

    /**
     * is_in_state<S>(): whether `s` is the id get_current_state_id() reports; only a declared
     * state can be the current one.
     */
    function IsInState(s: nat): (b: bool)
      reads this, info, info.entries
      requires Valid()
      ensures b <==> GetCurrentStateId() == s
      ensures b ==> s < cfg.Count()
    {
      s == GetCurrentStateId()
    }
  }
}
