/**
 * The bit machine: 2^NoOfBits states BitState<0> .. BitState<2^NoOfBits - 1>, where the event
 * for bit k moves state v to state v XOR (1 << k), written here on naturals bit by bit. The example builds it three ways: one
 * catch-all transition rule, one rule per bit, or no rules and the switch done by the handler.
 * The performance test and its timing and output are not modelled.
 */
module BitMachine {
  import opened Wrappers
  import opened Exceptions
  import opened StateMachine

  /**
   * NO_OF_BITS, as the example configures it by default. Nothing below depends on the value
   * beyond its being positive.
   */
  const NoOfBits: nat := 3

  /** 1 << n as an unbounded integer: it is positive, even once n is, and exceeds n. */
  function Pow2(n: nat): (r: nat)
    ensures r >= 1 && r > n
    ensures n > 0 ==> r % 2 == 0
  {
    if n == 0 then 1 else 2 * Pow2(n - 1)
  }

  /** NO_OF_STATES = 1 << NO_OF_BITS. */
  const NoOfStates: nat := Pow2(NoOfBits)

  /** A bit number an event can carry: event_c<k> only exists for k < NO_OF_BITS. */
  type BitNo = k: nat | k < NoOfBits

  /** event_c<k>; its type, and so its kind, is the bit number. */
  datatype Event = Bit(no: BitNo)

  function KindOf(e: Event): BitNo
  {
    e.no
  }

  function EventType(e: Event): string
  {
    "struct boost::fsm::event_c<" + DecimalText(e.no) + ">"
  }

  /** Bit j of v, counting from the lowest. */
  function BitOf(v: nat, j: nat): nat
  {
    if j == 0 then v % 2 else BitOf(v / 2, j - 1)
  }

  /**
   * NextValue = ValueV ^ (1 << BitNoV) on naturals: the lowest bit toggled when k is 0,
   * otherwise the lowest bit kept and bit k - 1 of the rest toggled.
   */
  function Flip(v: nat, k: nat): nat
  {
    if k == 0 then (if v % 2 == 0 then v + 1 else v - 1)
    else 2 * Flip(v / 2, k - 1) + v % 2
  }

  /** Flip is the exclusive or with 1 << k: bit k of the result differs from bit k of v, every other bit is the same. */
  lemma {:induction false} FlipTogglesBit(v: nat, k: nat, j: nat)
    ensures BitOf(Flip(v, k), j) == if j == k then 1 - BitOf(v, j) else BitOf(v, j)
  {
    if k > 0 && j > 0 {
      FlipTogglesBit(v / 2, k - 1, j - 1);
    }
  }

  /** A state below 1 << n stays below it when one of its n lowest bits is flipped. */
  lemma {:induction false} FlipInRange(v: nat, k: nat, n: nat)
    requires v < Pow2(n) && k < n
    ensures Flip(v, k) < Pow2(n)
  {
    if k > 0 {
      FlipInRange(v / 2, k - 1, n - 1);
    }
  }

  /** Flipping the same bit twice gives back the state one started from. */
  lemma {:induction false} FlipTwice(v: nat, k: nat)
    ensures Flip(Flip(v, k), k) == v
  {
    if k > 0 {
      FlipTwice(v / 2, k - 1);
      var w := Flip(v, k);
      assert w / 2 == Flip(v / 2, k - 1) && w % 2 == v % 2;
    }
  }

  /** Flipping bit k changes the state: no event leaves the machine where it was. */
  lemma {:induction false} FlipMoves(v: nat, k: nat)
    ensures Flip(v, k) != v
  {
    if k > 0 {
      FlipMoves(v / 2, k - 1);
    }
  }

  /** BitState<N>: the state with id N. */
  function BitStateDecl(n: nat): StateDecl
  {
    StateDecl("struct BitState<" + DecimalText(n) + ">", None)
  }

  function Keep(s: nat, d: ()): () { d }

  function NoReset(s: nat, d: ()): ResetOutcome<()> { ResetOutcome(d, false) }

  /** StatesList: BitState<0> up to BitState<NO_OF_STATES - 1>, in order, so BitState<N> has id N. */
  function Compound(): (c: StateMachine.Compound<()>)
    ensures |c.states| == NoOfStates
    ensures forall n :: 0 <= n < NoOfStates ==> c.states[n] == BitStateDecl(n)
  {
    StateMachine.Compound(seq(NoOfStates, (n: int) requires 0 <= n => BitStateDecl(n)), Keep, Keep, NoReset, ())
  }

  /** The transit of a bit transition: the calling BitState<v> switches to BitState<v ^ (1 << k)>. */
  function FlipTransit(s: nat, ctx: Ctx<()>, e: Event): Ctx<()>
  {
    if s < NoOfStates then
      FlipInRange(s, e.no, NoOfBits);
      SwitchTo(Compound(), s, ctx, Flip(s, e.no))
    else ctx
  }

  /** The single BitTransition: applicable to every state and every event. */
  function SingleRule(): (r: Rule<(), Event, BitNo>)
    ensures forall s: nat, k: BitNo :: r.applies(s, k)
  {
    Rule((s: nat, k: BitNo) => true, FlipTransit)
  }

  /** BitTransition<k> of the multiple-rules build: applicable to the event for bit k only. */
  function BitRule(k: BitNo): (r: Rule<(), Event, BitNo>)
    ensures forall s: nat, k2: BitNo :: r.applies(s, k2) <==> k2 == k
  {
    Rule((s: nat, k2: BitNo) => k2 == k, FlipTransit)
  }

  /** BitState's on_process for every event_c<k>: with transition rules it does nothing. */
  function Accept(s: nat, ctx: Ctx<()>, e: Event): Option<StateMachine.Outcome<(), Event, ()>>
  {
    Some(Returned(ctx, ()))
  }

  /** BitState's on_process when the example is built without transition rules: the handler switches. */
  function FlipHandler(s: nat, ctx: Ctx<()>, e: Event): Option<StateMachine.Outcome<(), Event, ()>>
  {
    Some(Returned(FlipTransit(s, ctx, e), ()))
  }

  function NoLocalRules(s: nat): seq<Rule<(), Event, BitNo>> { [] }

  /** BitFSM_t with the one catch-all transition. */
  function SingleRuleMachine(): (cfg: Config<(), Event, BitNo, ()>)
    ensures cfg.Count() == NoOfStates
  {
    Config(Compound(), KindOf, EventType, NoLocalRules, [SingleRule()], Accept)
  }

  /** The transitions list BitTransition<0>, ..., BitTransition<NO_OF_BITS - 1>: rule k is the one for bit k. */
  function BitRules(): (rules: seq<Rule<(), Event, BitNo>>)
    ensures |rules| == NoOfBits
    ensures forall k: BitNo, s: nat, k2: BitNo :: rules[k].applies(s, k2) <==> k2 == k
  {
    seq(NoOfBits, (k: int) requires 0 <= k < NoOfBits => BitRule(k))
  }

  /** BitFSM_t with one transition per bit, BitTransition<0> first. */
  function MultiRuleMachine(): (cfg: Config<(), Event, BitNo, ()>)
    ensures cfg.Count() == NoOfStates
  {
    Config(Compound(), KindOf, EventType, NoLocalRules, BitRules(), Accept)
  }

  /** BitFSM_t without transition rules. */
  function HandlerMachine(): (cfg: Config<(), Event, BitNo, ()>)
    ensures cfg.Count() == NoOfStates
  {
    Config(Compound(), KindOf, EventType, NoLocalRules, [], FlipHandler)
  }

  lemma FlipTransitValid(c: Ctx<()>, e: Event)
    requires c.current < NoOfStates
    ensures FlipTransit(c.current, c, e).current == Flip(c.current, e.no)
  {
  }

  lemma MachinesWellFormed()
    ensures WellFormed(SingleRuleMachine())
    ensures WellFormed(MultiRuleMachine())
    ensures WellFormed(HandlerMachine())
  {
    forall c: Ctx<()>, e: Event | c.current < NoOfStates
      ensures FlipTransit(c.current, c, e).current < NoOfStates
    {
      FlipTransitValid(c, e);
    }
  }

  /** In the single-rule build every entry of every dispatch table transits through the one rule. */
  lemma SingleRuleEveryEntryTransits(k: BitNo, s: nat)
    requires s < NoOfStates
    ensures DispatchTable(SingleRuleMachine(), k)[s] == Entry(PerformTransition(s, 0), DeliverEvent(s))
  {
    DispatchIsFirstApplicable(SingleRuleMachine(), k, s, 0);
  }

  /** In the multiple-rules build the entry of every state for bit k transits through rule k. */
  lemma MultiRuleEntryIsBitRule(k: BitNo, s: nat)
    requires s < NoOfStates
    ensures DispatchTable(MultiRuleMachine(), k)[s] == Entry(PerformTransition(s, k), DeliverEvent(s))
  {
    var C := Candidates(MultiRuleMachine(), s);
    var R := BitRules();
    assert C == R by { assert NoLocalRules(s) == []; }
    assert R[k].applies(s, k);
    forall j | 0 <= j < k
      ensures !C[j].applies(s, k)
    {
      assert !R[j].applies(s, k);
    }
    DispatchIsFirstApplicable(MultiRuleMachine(), k, s, k);
  }

  /** process(event_c<k>) on the single-rule build. */
  function StepSingle(ctx: Ctx<()>, e: Event): (o: StateMachine.Outcome<(), Event, ()>)
    requires ctx.current < NoOfStates
    ensures o.ctx.current < NoOfStates
  {
    MachinesWellFormed();
    Process(SingleRuleMachine(), ctx, None, e)
  }

  /** process(event_c<k>) on the multiple-rules build. */
  function StepMulti(ctx: Ctx<()>, e: Event): (o: StateMachine.Outcome<(), Event, ()>)
    requires ctx.current < NoOfStates
    ensures o.ctx.current < NoOfStates
  {
    MachinesWellFormed();
    Process(MultiRuleMachine(), ctx, None, e)
  }

  /** process(event_c<k>) on the build without rules. */
  function StepHandler(ctx: Ctx<()>, e: Event): (o: StateMachine.Outcome<(), Event, ()>)
    requires ctx.current < NoOfStates
    ensures o.ctx.current < NoOfStates
  {
    MachinesWellFormed();
    Process(HandlerMachine(), ctx, None, e)
  }

  /** All three builds take state v to state v ^ (1 << k) on the event for bit k, and accept the event. */
  lemma BuildsFlipTheBit(v: nat, e: Event)
    requires v < NoOfStates
    ensures StepSingle(Ctx(v, ()), e) == Returned(Ctx(Flip(v, e.no), ()), ())
    ensures StepMulti(Ctx(v, ()), e) == Returned(Ctx(Flip(v, e.no), ()), ())
    ensures StepHandler(Ctx(v, ()), e) == Returned(Ctx(Flip(v, e.no), ()), ())
  {
    MachinesWellFormed();
    FlipMoves(v, e.no);
    SingleRuleEveryEntryTransits(e.no, v);
    ProcessWithRule(SingleRuleMachine(), Ctx(v, ()), None, e, 0);
    MultiRuleEntryIsBitRule(e.no, v);
    var C := Candidates(MultiRuleMachine(), v);
    assert C[e.no].applies(v, e.no);
    assert forall j :: 0 <= j < e.no ==> !C[j].applies(v, e.no);
    ProcessWithRule(MultiRuleMachine(), Ctx(v, ()), None, e, e.no);
    ProcessWithoutRule(HandlerMachine(), Ctx(v, ()), None, e);
  }

  /** The same bit event delivered twice brings every build back to the state it started in. */
  lemma SameEventTwice(v: nat, e: Event)
    requires v < NoOfStates
    ensures StepSingle(StepSingle(Ctx(v, ()), e).ctx, e).ctx == Ctx(v, ())
    ensures StepMulti(StepMulti(Ctx(v, ()), e).ctx, e).ctx == Ctx(v, ())
    ensures StepHandler(StepHandler(Ctx(v, ()), e).ctx, e).ctx == Ctx(v, ())
  {
    BuildsFlipTheBit(v, e);
    BuildsFlipTheBit(Flip(v, e.no), e);
    FlipTwice(v, e.no);
  }
}
