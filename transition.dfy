/**
 * The stock transition rules: a rule that fires in one given state for one given event kind,
 * and the any_state form that fires in every state for one event kind. Either rule's transit
 * switches the calling state to the rule's next state.
 */
module Transitions {
  import opened StateMachine

  /** basic_transition<Next>::transit: the calling state switches to `next`. */
  function BasicTransit<D(!new), E(!new)>(c: Compound<D>, next: nat): (t: (nat, Ctx<D>, E) -> Ctx<D>)
    requires next < |c.states|
    ensures forall ctx: Ctx<D>, e: E :: t(ctx.current, ctx, e).current == next
    ensures forall s: nat, ctx: Ctx<D>, e: E :: s == next ==> t(s, ctx, e) == ctx
  {
    (s: nat, ctx: Ctx<D>, e: E) => SwitchTo(c, s, ctx, next)
  }

  /** transition<Current, Event, Next>: applies exactly to state `from` and event kind `kind`. */
  function Transition<D(!new), E(!new), K(==,!new)>(c: Compound<D>, from: nat, kind: K, next: nat): (r: Rule<D, E, K>)
    requires next < |c.states|
    ensures forall s: nat, k: K :: r.applies(s, k) <==> s == from && k == kind
    ensures forall ctx: Ctx<D>, e: E :: r.transit(ctx.current, ctx, e).current == next
  {
    Rule((s: nat, k: K) => s == from && k == kind, BasicTransit(c, next))
  }

  /** transition<any_state, Event, Next>: applies to every state for event kind `kind`. */
  function AnyStateTransition<D(!new), E(!new), K(==,!new)>(c: Compound<D>, kind: K, next: nat): (r: Rule<D, E, K>)
    requires next < |c.states|
    ensures forall s: nat, k: K :: r.applies(s, k) <==> k == kind
    ensures forall ctx: Ctx<D>, e: E :: r.transit(ctx.current, ctx, e).current == next
  {
    Rule((s: nat, k: K) => k == kind, BasicTransit(c, next))
  }

  /** Both stock rules keep the current state id inside the state list. */
  lemma StockRulesValid<D(!new), E(!new), K(!new)>(c: Compound<D>, from: nat, kind: K, next: nat)
    requires next < |c.states|
    ensures ValidRule(|c.states|, Transition<D, E, K>(c, from, kind, next))
    ensures ValidRule(|c.states|, AnyStateTransition<D, E, K>(c, kind, next))
  {
  }

  /**
   * A transition rule, as the only candidate of its own state, makes the dispatch table send
   * events of its kind through its transit, and only those.
   */
  lemma {:induction false} TransitionDispatch<D(!new), E(!new), K(!new), R>(cfg: Config<D, E, K, R>, from: nat, kind: K, next: nat, k: K)
    requires next < cfg.Count() && from < cfg.Count()
    requires Candidates(cfg, from) == [Transition(cfg.compound, from, kind, next)]
    ensures DispatchTable(cfg, k)[from].first == (if k == kind then PerformTransition(from, 0) else DeliverEvent(from))
  {
    var C := Candidates(cfg, from);
    assert C[0].applies(from, k) <==> k == kind;
    DispatchIsFirstApplicable(cfg, k, from, 0);
  }
}
