/**
 * The value-level core of the state machine engine: states and their hooks, state switching,
 * transition rules, the per-event-kind dispatch table, event delivery, the unexpected-event
 * policy, reset, and the state information table.
 *
 * The C++ engine identifies states and events by type. Here a state is its dense id (its
 * position in the declared state list), the data of all states together is one value of the
 * machine's data type `D`, and an event is a value of a closed datatype `E` whose kind `K`
 * stands for its C++ type. A state's `on_process` overload set is one function per machine,
 * `handle(s, ctx, e)`, which yields None when state `s` has no handler for the event.
 */
module StateMachine {
  import opened Wrappers
  import opened Exceptions

  /** A declared state: its type identity and the name its get_state_name() reports when overridden. */
  datatype StateDecl = StateDecl(stateType: string, customName: Option<string>)

  /** get_state_name(): a state's own override, or else its cleaned type name. */
  function StateName(d: StateDecl): string
  {
    d.customName.GetOr(ConstructTypeName(d.stateType))
  }

  /** The mutable part of a machine that handlers see: the current state id and the states' data. */
  datatype Ctx<D> = Ctx(current: nat, data: D)

  /** A reset hook's effect: the data after the hook, and whether the hook raised before returning. */
  datatype ResetOutcome<D> = ResetOutcome(data: D, failed: bool)

  /**
   * The states compound: the ordered list of states, their enter, leave and reset hooks (each
   * indexed by state id; the defaults leave the data unchanged) and the data a freshly
   * constructed machine holds.
   */
  datatype Compound<!D> = Compound(
    states: seq<StateDecl>,
    enter: (nat, D) -> D,
    leave: (nat, D) -> D,
    reset: (nat, D) -> ResetOutcome<D>,
    initial: D)

  /** What a failing operation raises: one of the library's errors, or an error of user code. */
  datatype Failure<E> = Fsm(error: FsmError<E>) | Foreign(what: string)

  /** The end of an event handler: it returned a value, or raised; either way the context it left. */
  datatype Outcome<D, E, R> = Returned(ctx: Ctx<D>, value: R) | Raised(ctx: Ctx<D>, failure: Failure<E>)

  /** A machine's unexpected-event handler: (event, current state type, current state id) to a result. */
  type UnexpectedHandler<!E, R> = (E, string, nat) -> Result<R, Failure<E>>

  /**
   * A transition rule: a predicate on (state id, event kind), evaluated when the dispatch table
   * is built, and the transit action, run on (calling state id, context, event).
   */
  datatype Rule<!D, !E, !K> = Rule(applies: (nat, K) -> bool, transit: (nat, Ctx<D>, E) -> Ctx<D>)

  /**
   * A machine type: its states compound, the kind and the type name of each event, every
   * state's own transitions list, the machine-wide transitions list, and the states' handlers.
   */
  datatype Config<!D, !E, !K, R> = Config(
    compound: Compound<D>,
    kindOf: E -> K,
    eventType: E -> string,
    localRules: nat -> seq<Rule<D, E, K>>,
    globalRules: seq<Rule<D, E, K>>,
    handle: (nat, Ctx<D>, E) -> Option<Outcome<D, E, R>>)
  {
    function Count(): nat
    {
      |compound.states|
    }
  }

  // ---------------------------------------------------------------------------------------
  // State switching
  // ---------------------------------------------------------------------------------------

  /**
   * basic_state<Caller>::switch_to<Target>(): when the target is not the calling state, the
   * calling state's leave hook runs, then the target's enter hook, then the target becomes
   * current; switching to the calling state does nothing at all.
   */
  function SwitchTo<D>(c: Compound<D>, caller: nat, ctx: Ctx<D>, target: nat): (r: Ctx<D>)
    requires target < |c.states|
    ensures target == caller ==> r == ctx
    ensures target != caller ==> r.current == target && r.data == c.enter(target, c.leave(caller, ctx.data))
    ensures ctx.current < |c.states| ==> r.current < |c.states|
  {
    if target == caller then ctx
    else
      var left := c.leave(caller, ctx.data);
      var entered := c.enter(target, left);
      Ctx(target, entered)
  }

  /** The current state as an fsm_error records it: current name, given state type and id. */
  function ErrorState<D>(c: Compound<D>, ctx: Ctx<D>, stateType: string, id: nat): StateRef
    requires ctx.current < |c.states|
  {
    StateRef(Some(StateName(c.states[ctx.current])), stateType, id)
  }

  /**
   * basic_state<Caller>::switch_to(id): an id equal to the calling state's id changes nothing;
   * an id inside the state list switches as the static form does; any other id raises
   * bad_state_id, carrying the id and the calling state, before any hook runs.
   */
  function SwitchToId<D, E>(c: Compound<D>, caller: nat, ctx: Ctx<D>, target: nat): (r: Result<Ctx<D>, FsmError<E>>)
    requires caller < |c.states| && ctx.current < |c.states|
    ensures r.Err? <==> target != caller && target >= |c.states|
    ensures r.Err? ==> r.error == BadStateId(target, ErrorState(c, ctx, c.states[caller].stateType, caller))
    ensures r.Ok? ==> r.value == SwitchTo(c, caller, ctx, target) && r.value.current < |c.states|
  {
    if target != caller then
      if target < |c.states| then
        Ok(SwitchTo(c, caller, ctx, target))
      else
        Err(BadStateId(target, ErrorState(c, ctx, c.states[caller].stateType, caller)))
    else
      Ok(ctx)
  }

  /**
   * Called from the handler of the current state, a switch lands in the target: the caller's
   * id and the current id coincide at that point.
   */
  lemma SwitchFromCurrentLands<D>(c: Compound<D>, ctx: Ctx<D>, target: nat)
    requires target < |c.states|
    ensures SwitchTo(c, ctx.current, ctx, target).current == target
    ensures target == ctx.current ==> SwitchTo(c, ctx.current, ctx, target) == ctx
  {
  }

  // ---------------------------------------------------------------------------------------
  // Transition resolution and the dispatch table
  // ---------------------------------------------------------------------------------------

  /** The candidate rules for state s: its own transitions list followed by the machine-wide one. */
  function Candidates<D, E, K, R>(cfg: Config<D, E, K, R>, s: nat): seq<Rule<D, E, K>>
  {
    cfg.localRules(s) + cfg.globalRules
  }

  /** find_if over the rules: the index of the first rule that applies to (s, k), if any. */
  function FirstApplicable<D, E, K>(rules: seq<Rule<D, E, K>>, s: nat, k: K): (r: Option<nat>)
    ensures r.Some? ==> r.value < |rules| && rules[r.value].applies(s, k)
    ensures r.Some? ==> forall j :: 0 <= j < r.value ==> !rules[j].applies(s, k)
    ensures r.None? <==> forall j :: 0 <= j < |rules| ==> !rules[j].applies(s, k)
  {
    if rules == [] then None
    else if rules[0].applies(s, k) then Some(0)
    else
      match FirstApplicable(rules[1..], s, k)
      case None => None
      case Some(i) => Some(i + 1)
  }

  /** A dispatch action: deliver to a state's handler, or run a rule's transit first. */
  datatype Action = DeliverEvent(state: nat) | PerformTransition(state: nat, rule: nat)

  /** A dispatch table entry: the action `process` starts with, and the delivery used after a transit. */
  datatype Entry = Entry(first: Action, second: Action)

  /** do_init_process_functions: the entry of state s for events of kind k. */
  function EntryFor<D, E, K, R>(cfg: Config<D, E, K, R>, s: nat, k: K): (e: Entry)
    ensures e.second == DeliverEvent(s)
  {
    match FirstApplicable(Candidates(cfg, s), s, k)
    case None => Entry(DeliverEvent(s), DeliverEvent(s))
    case Some(r) => Entry(PerformTransition(s, r), DeliverEvent(s))
  }

  /** The dispatch table of events of kind k: one entry per state, entry s built for state s. */
  function DispatchTable<D, E, K, R>(cfg: Config<D, E, K, R>, k: K): (t: seq<Entry>)
    ensures |t| == cfg.Count()
    ensures forall s :: 0 <= s < |t| ==> t[s] == EntryFor(cfg, s, k)
  {
    seq(cfg.Count(), s requires 0 <= s < cfg.Count() => EntryFor(cfg, s, k))
  }

  /**
   * The entry of state s transits with rule r exactly when r is the first candidate rule that
   * applies to (s, k); it delivers directly exactly when no candidate applies; its second
   * action always delivers to s.
   */
  lemma {:induction false} DispatchIsFirstApplicable<D, E, K, R>(cfg: Config<D, E, K, R>, k: K, s: nat, r: nat)
    requires s < cfg.Count()
    ensures var C := Candidates(cfg, s);
      var transits := DispatchTable(cfg, k)[s].first == PerformTransition(s, r);
      transits <==> r < |C| && C[r].applies(s, k) && forall j :: 0 <= j < r ==> !C[j].applies(s, k)
    ensures (DispatchTable(cfg, k)[s].first == DeliverEvent(s))
        <==> forall j :: 0 <= j < |Candidates(cfg, s)| ==> !Candidates(cfg, s)[j].applies(s, k)
    ensures DispatchTable(cfg, k)[s].second == DeliverEvent(s)
  {
    var C := Candidates(cfg, s);
    var f := FirstApplicable(C, s, k);
    if r < |C| && C[r].applies(s, k) && forall j :: 0 <= j < r ==> !C[j].applies(s, k) {
      assert f.Some? && f.value == r;
    }
  }

  /** A rule whose transit, started in a valid state, leaves a valid current state id. */
  ghost predicate ValidRule<D(!new), E(!new), K>(n: nat, rule: Rule<D, E, K>)
  {
    forall c: Ctx<D>, e: E :: c.current < n ==> rule.transit(c.current, c, e).current < n
  }

  /**
   * A machine type the engine can run: at least one state (an empty list does not compile),
   * and rule transits and handlers, started in a valid state, leave a valid current state id.
   */
  ghost predicate WellFormed<D(!new), E(!new), K, R>(cfg: Config<D, E, K, R>)
  {
    && cfg.Count() >= 1
    && (forall s, r :: 0 <= s < cfg.Count() && 0 <= r < |Candidates(cfg, s)| ==>
          ValidRule(cfg.Count(), Candidates(cfg, s)[r]))
    && (forall c: Ctx<D>, e: E :: c.current < cfg.Count() && cfg.handle(c.current, c, e).Some? ==>
          cfg.handle(c.current, c, e).value.ctx.current < cfg.Count())
  }

  // ---------------------------------------------------------------------------------------
  // Delivery and processing
  // ---------------------------------------------------------------------------------------

  /**
   * _on_unexpected_event: with a handler installed, its result for (event, state type, state
   * id); otherwise unexpected_event carrying the event, the current state's name and the state.
   * The context is left as it is.
   */
  function OnUnexpected<D, E, K, R>(cfg: Config<D, E, K, R>, s: nat, ctx: Ctx<D>,
                                    uh: Option<UnexpectedHandler<E, R>>, e: E): (o: Outcome<D, E, R>)
    requires s < cfg.Count() && ctx.current < cfg.Count()
    ensures o.ctx == ctx
    ensures uh.None? ==> o == Raised(ctx, Fsm(UnexpectedEvent(e, cfg.eventType(e),
                               ErrorState(cfg.compound, ctx, cfg.compound.states[s].stateType, s))))
    ensures uh.Some? ==> (o.Returned? <==> uh.value(e, cfg.compound.states[s].stateType, s).Ok?)
  {
    match uh
    case Some(h) =>
      (match h(e, cfg.compound.states[s].stateType, s)
       case Ok(v) => Returned(ctx, v)
       case Err(f) => Raised(ctx, f))
    case None =>
      Raised(ctx, Fsm(UnexpectedEvent(e, cfg.eventType(e),
                                      ErrorState(cfg.compound, ctx, cfg.compound.states[s].stateType, s))))
  }

  /** deliver_event<State>: the state's handler for the event, or the unexpected-event policy. */
  function Deliver<D, E, K, R>(cfg: Config<D, E, K, R>, s: nat, ctx: Ctx<D>,
                               uh: Option<UnexpectedHandler<E, R>>, e: E): (o: Outcome<D, E, R>)
    requires s < cfg.Count() && ctx.current < cfg.Count()
    ensures cfg.handle(s, ctx, e).Some? ==> o == cfg.handle(s, ctx, e).value
    ensures cfg.handle(s, ctx, e).None? ==> o == OnUnexpected(cfg, s, ctx, uh, e)
  {
    match cfg.handle(s, ctx, e)
    case Some(o) => o
    case None => OnUnexpected(cfg, s, ctx, uh, e)
  }

  /** Returns the value an outcome produced, or the failure it raised. */
  function ResultOf<D, E, R>(o: Outcome<D, E, R>): Result<R, Failure<E>>
  {
    match o
    case Returned(_, v) => Ok(v)
    case Raised(_, f) => Err(f)
  }

  /**
   * process(e): the first action of the table entry of the current state. A transition entry
   * runs the rule's transit, then the second action of the entry of the (possibly new) current
   * state, which delivers the event there. The result keeps the current id inside the list.
   * Entry s of the table is EntryFor(cfg, s, k) (see DispatchTable); that entry is read here.
   */
  function Process<D(!new), E(!new), K, R>(cfg: Config<D, E, K, R>, ctx: Ctx<D>,
                               uh: Option<UnexpectedHandler<E, R>>, e: E): (o: Outcome<D, E, R>)
    requires WellFormed(cfg) && ctx.current < cfg.Count()
    ensures o.ctx.current < cfg.Count()
  {
    var k := cfg.kindOf(e);
    match EntryFor(cfg, ctx.current, k).first
    case DeliverEvent(s) =>
      Deliver(cfg, s, ctx, uh, e)
    case PerformTransition(s, r) =>
      var next := Candidates(cfg, s)[r].transit(s, ctx, e);
      match EntryFor(cfg, next.current, k).second
      case DeliverEvent(s2) => Deliver(cfg, s2, next, uh, e)
      case PerformTransition(_, _) => assert false; Raised(next, Foreign(""))
  }

  /**
   * An event whose kind no candidate rule of the current state applies to goes straight to the
   * current state's handler.
   */
  lemma ProcessWithoutRule<D(!new), E(!new), K, R>(cfg: Config<D, E, K, R>, ctx: Ctx<D>,
                                       uh: Option<UnexpectedHandler<E, R>>, e: E)
    requires WellFormed(cfg) && ctx.current < cfg.Count()
    requires FirstApplicable(Candidates(cfg, ctx.current), ctx.current, cfg.kindOf(e)).None?
    ensures Process(cfg, ctx, uh, e) == Deliver(cfg, ctx.current, ctx, uh, e)
  {
  }

  /**
   * An event whose kind rule r is the first to apply to in the current state runs that rule's
   * transit once, then goes to the handler of the state the transit left current.
   */
  lemma ProcessWithRule<D(!new), E(!new), K, R>(cfg: Config<D, E, K, R>, ctx: Ctx<D>,
                                    uh: Option<UnexpectedHandler<E, R>>, e: E, r: nat)
    requires WellFormed(cfg) && ctx.current < cfg.Count()
    requires FirstApplicable(Candidates(cfg, ctx.current), ctx.current, cfg.kindOf(e)) == Some(r)
    ensures var next := Candidates(cfg, ctx.current)[r].transit(ctx.current, ctx, e);
      next.current < cfg.Count() && Process(cfg, ctx, uh, e) == Deliver(cfg, next.current, next, uh, e)
  {
  }

  // ---------------------------------------------------------------------------------------
  // Reset
  // ---------------------------------------------------------------------------------------

  /** The data after the reset hooks of states 0 .. i-1 ran in list order, failures discarded. */
  function ResetUpTo<D>(c: Compound<D>, i: nat, d: D): D
    requires i <= |c.states|
  {
    if i == 0 then d else c.reset(i - 1, ResetUpTo(c, i - 1, d)).data
  }

  /**
   * Whether a reset hook raised never affects the result: two compounds whose reset hooks leave
   * the same data reset to the same data, whatever failures either reports.
   */
  lemma {:induction false} ResetIgnoresFailures<D>(c: Compound<D>, c2: Compound<D>, i: nat, d: D)
    requires i <= |c.states| && i <= |c2.states|
    requires forall j, x :: 0 <= j < i ==> c.reset(j, x).data == c2.reset(j, x).data
    ensures ResetUpTo(c, i, d) == ResetUpTo(c2, i, d)
  {
    if i > 0 {
      ResetIgnoresFailures(c, c2, i - 1, d);
    }
  }

  /** reset(): every reset hook runs, then the current state becomes state 0 (no enter or leave hook). */
  function Reset<D>(c: Compound<D>, ctx: Ctx<D>): (r: Ctx<D>)
    ensures r.current == 0
  {
    Ctx(0, ResetUpTo(c, |c.states|, ctx.data))
  }

  // ---------------------------------------------------------------------------------------
  // State information table
  // ---------------------------------------------------------------------------------------

  /**
   * One state information entry: the state's place in the compound (standing for its byte
   * offset from the machine root), its type identity and the name its accessor returns.
   */
  datatype StateInfo = StateInfo(slot: nat, stateType: string, name: string)

  /** The entry init_states_info records for the state with id i. */
  function InfoOf(states: seq<StateDecl>, i: nat): (r: StateInfo)
    requires i < |states|
    ensures r.slot == i && r.stateType == states[i].stateType && r.name == StateName(states[i])
  {
    StateInfo(i, states[i].stateType, StateName(states[i]))
  }

  /** The complete state information table: entry i describes the state with id i. */
  function StatesInfo(states: seq<StateDecl>): (t: seq<StateInfo>)
    ensures |t| == |states|
    ensures forall i :: 0 <= i < |t| ==> t[i] == InfoOf(states, i)
  {
    seq(|states|, i requires 0 <= i < |states| => InfoOf(states, i))
  }

  /** The machine a constructor yields: current state 0 and the compound's initial data. */
  function Initial<D>(c: Compound<D>): (r: Ctx<D>)
    ensures r.current == 0 && r.data == c.initial
  {
    Ctx(0, c.initial)
  }
}
