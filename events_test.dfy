/**
 * The calculator of the simplified-events test: two states, Calculating and Overflow, sharing
 * one integer Memory. Calculating takes the four arithmetic events; both states take Memorize
 * and GetMemory. Leaving the range [-100, 100] moves the machine to Overflow.
 *
 * The bounds check is written in the common base of both states and switches to Overflow from
 * the state whose handler runs it. When Memorize runs in Overflow, that state first switches the
 * machine to Calculating and then runs the check as Overflow, so the switch back to Overflow is
 * a switch to itself and does nothing. MachineAsWritten keeps that behaviour; Machine switches
 * from the state the machine is actually in, which is what the check is evidently meant to do.
 */
module EventsTest {
  import opened Wrappers
  import opened Exceptions
  import opened StateMachine
  import BasicStateMachine

  const CalculatingId: nat := 0
  const OverflowId: nat := 1

  /** Add, Substract, Multiply and Divide carry an operand, Memorize a value; GetMemory's out-argument is its result. */
  datatype Event = Add(v: int) | Substract(v: int) | Multiply(v: int) | Divide(v: int) | Memorize(v: int) | GetMemory

  datatype Kind = AddKind | SubstractKind | MultiplyKind | DivideKind | MemorizeKind | GetMemoryKind

  function KindOf(e: Event): Kind
  {
    match e
    case Add(_) => AddKind
    case Substract(_) => SubstractKind
    case Multiply(_) => MultiplyKind
    case Divide(_) => DivideKind
    case Memorize(_) => MemorizeKind
    case GetMemory => GetMemoryKind
  }

  function EventType(e: Event): string
  {
    match e
    case Add(_) => "struct boost::fsm::event<struct EventsTest::Add,int>"
    case Substract(_) => "struct boost::fsm::event<struct EventsTest::Substract,int>"
    case Multiply(_) => "struct boost::fsm::event<struct EventsTest::Multiply,int>"
    case Divide(_) => "struct boost::fsm::event<struct EventsTest::Divide,int>"
    case Memorize(_) => "struct boost::fsm::event_c<0,int>"
    case GetMemory => "struct boost::fsm::event_c<1,int &>"
  }

  /** Memory stays inside the range the bounds check accepts. */
  predicate InBounds(m: int)
  {
    -100 <= m <= 100
  }

  /** C++ integer division: the quotient truncated toward zero. */
  function TruncDiv(a: int, b: int): int
    requires b != 0
  {
    var q := (if a < 0 then -a else a) / (if b < 0 then -b else b);
    if (a < 0) != (b < 0) then -q else q
  }

  /**
   * The quotient truncated toward zero leaves a remainder smaller than the divisor in size and
   * never of the opposite sign to the dividend.
   */
  lemma TruncDivRemainder(a: int, b: int)
    requires b != 0
    ensures var r := a - b * TruncDiv(a, b);
      (if r < 0 then -r else r) < (if b < 0 then -b else b) && (r == 0 || (r < 0 <==> a < 0))
  {
    var A := if a < 0 then -a else a;
    var B := if b < 0 then -b else b;
    var q := A / B;
    assert A == B * q + A % B;
    if a < 0 && b < 0 {
      assert a - b * TruncDiv(a, b) == -(A % B);
    } else if a < 0 {
      assert a - b * TruncDiv(a, b) == -(A % B);
    } else if b < 0 {
      assert a - b * TruncDiv(a, b) == A % B;
    } else {
      assert a - b * TruncDiv(a, b) == A % B;
    }
  }

  function Keep(s: nat, d: int): int { d }

  function NoReset(s: nat, d: int): ResetOutcome<int> { ResetOutcome(d, false) }

  /** Calculating then Overflow; CommonData starts with Memory 0. */
  function Compound(): (c: StateMachine.Compound<int>)
    ensures |c.states| == 2
  {
    StateMachine.Compound(
      [StateDecl("struct EventsTest::Calculating", None), StateDecl("struct EventsTest::Overflow", None)],
      Keep, Keep, NoReset, 0)
  }

  type Outcome = StateMachine.Outcome<int, Event, int>

  /** check_bounds() as the state `caller` runs it: Memory out of range switches from `caller` to Overflow. */
  function CheckBounds(caller: nat, ctx: Ctx<int>): (r: Ctx<int>)
    requires caller < 2 && ctx.current < 2
    ensures r.data == ctx.data && r.current < 2
    ensures InBounds(ctx.data) ==> r == ctx
    ensures !InBounds(ctx.data) ==> r.current == (if caller == OverflowId then ctx.current else OverflowId)
  {
    if ctx.data > 100 || ctx.data < -100 then SwitchTo(Compound(), caller, ctx, OverflowId) else ctx
  }

  /**
   * Memorize(v) in state s: Memory := v, switch to Calculating, then the bounds check, which the
   * source runs as s and the corrected model runs as the state now current.
   */
  function OnMemorize(corrected: bool, s: nat, ctx: Ctx<int>, v: int): (o: Outcome)
    requires s < 2 && ctx.current < 2
    ensures o.Returned? && o.ctx.data == v && o.value == v
    ensures s == ctx.current && (corrected || s == CalculatingId) ==> o.ctx.current == Where(v)
    ensures s == ctx.current && !corrected && s == OverflowId ==> o.ctx.current == CalculatingId
  {
    var stored := SwitchTo(Compound(), s, Ctx(ctx.current, v), CalculatingId);
    var checked := CheckBounds(if corrected then stored.current else s, stored);
    Returned(checked, checked.data)
  }

  /** Calculating's arithmetic handlers: update Memory, check the bounds, return Memory. */
  function OnArithmetic(ctx: Ctx<int>, e: Event): (o: Outcome)
    requires ctx.current < 2
    requires e.Add? || e.Substract? || e.Multiply? || e.Divide?
    ensures o.Raised? <==> e.Divide? && e.v == 0
    ensures o.Raised? ==> o.ctx == ctx
    ensures o.Returned? ==> o.value == o.ctx.data
    ensures o.Returned? && e.Add? ==> o.ctx.data == ctx.data + e.v
    ensures o.Returned? && e.Substract? ==> o.ctx.data == ctx.data - e.v
    ensures o.Returned? && e.Multiply? ==> o.ctx.data == ctx.data * e.v
    ensures o.Returned? && e.Divide? ==> o.ctx.data == TruncDiv(ctx.data, e.v)
    ensures o.Returned? && InBounds(o.ctx.data) ==> o.ctx.current == ctx.current
    ensures o.Returned? && !InBounds(o.ctx.data) ==> o.ctx.current == OverflowId
  {
    if e.Divide? && e.v == 0 then Raised(ctx, Foreign("integer division by zero"))
    else
      var m := match e
        case Add(v) => ctx.data + v
        case Substract(v) => ctx.data - v
        case Multiply(v) => ctx.data * v
        case Divide(v) => TruncDiv(ctx.data, v);
      var checked := CheckBounds(CalculatingId, Ctx(ctx.current, m));
      Returned(checked, checked.data)
  }

  /** The on_process overloads: Calculating has all six, Overflow only the common Memorize and GetMemory. */
  function Respond(corrected: bool, s: nat, ctx: Ctx<int>, e: Event): (r: Option<Outcome>)
    requires ctx.current < 2
    ensures r.Some? <==> s < 2 && (s == CalculatingId || e.Memorize? || e.GetMemory?)
    ensures s < 2 && e.GetMemory? ==> r == Some(Returned(ctx, ctx.data))
  {
    if s >= 2 then None
    else match e
      case Memorize(v) => Some(OnMemorize(corrected, s, ctx, v))
      case GetMemory => Some(Returned(ctx, ctx.data))
      case _ => if s == CalculatingId then Some(OnArithmetic(ctx, e)) else None
  }

  function HandleAsWritten(s: nat, ctx: Ctx<int>, e: Event): Option<Outcome>
  {
    if ctx.current < 2 then Respond(false, s, ctx, e) else None
  }

  function Handle(s: nat, ctx: Ctx<int>, e: Event): Option<Outcome>
  {
    if ctx.current < 2 then Respond(true, s, ctx, e) else None
  }

  function NoRules(s: nat): seq<Rule<int, Event, Kind>> { [] }

  /** StreamCalc_t as the source builds it. */
  function MachineAsWritten(): (cfg: Config<int, Event, Kind, int>)
    ensures cfg.Count() == 2
  {
    Config(Compound(), KindOf, EventType, NoRules, [], HandleAsWritten)
  }

  /** StreamCalc_t with the bounds check switching from the current state. */
  function Machine(): (cfg: Config<int, Event, Kind, int>)
    ensures cfg.Count() == 2
  {
    Config(Compound(), KindOf, EventType, NoRules, [], Handle)
  }

  lemma MachinesWellFormed()
    ensures WellFormed(MachineAsWritten()) && WellFormed(Machine())
  {
  }

  /** process(e) on the calculator as written. */
  function StepAsWritten(ctx: Ctx<int>, uh: Option<UnexpectedHandler<Event, int>>, e: Event): (o: Outcome)
    requires ctx.current < 2
    ensures o.ctx.current < 2
  {
    MachinesWellFormed();
    Process(MachineAsWritten(), ctx, uh, e)
  }

  /** process(e) on the corrected calculator. */
  function Step(ctx: Ctx<int>, uh: Option<UnexpectedHandler<Event, int>>, e: Event): (o: Outcome)
    requires ctx.current < 2
    ensures o.ctx.current < 2
  {
    MachinesWellFormed();
    Process(Machine(), ctx, uh, e)
  }

  /** With no transition rules every event goes to the current state's handler, in both builds. */
  lemma ProcessIsDeliver(ctx: Ctx<int>, uh: Option<UnexpectedHandler<Event, int>>, e: Event)
    requires ctx.current < 2
    ensures StepAsWritten(ctx, uh, e) == Deliver(MachineAsWritten(), ctx.current, ctx, uh, e)
    ensures Step(ctx, uh, e) == Deliver(Machine(), ctx.current, ctx, uh, e)
  {
    MachinesWellFormed();
    ProcessWithoutRule(MachineAsWritten(), ctx, uh, e);
    ProcessWithoutRule(Machine(), ctx, uh, e);
  }

  /** The value an arithmetic event leaves in Memory. */
  function Apply(m: int, e: Event): int
    requires e.Add? || e.Substract? || e.Multiply? || (e.Divide? && e.v != 0)
  {
    match e
    case Add(v) => m + v
    case Substract(v) => m - v
    case Multiply(v) => m * v
    case Divide(v) => TruncDiv(m, v)
  }

  /**
   * Calculating handles every event (BOOST_FSM_MUST_HANDLE_ALL_EVENTS): an arithmetic event stores
   * its result, returns it, and stays in Calculating exactly when the result is within bounds.
   */
  lemma CalculatingArithmetic(m: int, uh: Option<UnexpectedHandler<Event, int>>, e: Event)
    requires e.Add? || e.Substract? || e.Multiply? || (e.Divide? && e.v != 0)
    ensures var r := Apply(m, e);
      Step(Ctx(CalculatingId, m), uh, e) == Returned(Ctx(if InBounds(r) then CalculatingId else OverflowId, r), r)
    ensures StepAsWritten(Ctx(CalculatingId, m), uh, e) == Step(Ctx(CalculatingId, m), uh, e)
  {
    ProcessIsDeliver(Ctx(CalculatingId, m), uh, e);
  }

  /** Dividing by zero in Calculating fails and leaves the machine as it was. */
  lemma DivideByZero(m: int, uh: Option<UnexpectedHandler<Event, int>>)
    ensures Step(Ctx(CalculatingId, m), uh, Divide(0)) == Raised(Ctx(CalculatingId, m), Foreign("integer division by zero"))
  {
    ProcessIsDeliver(Ctx(CalculatingId, m), uh, Divide(0));
  }

  /** GetMemory in either state returns Memory and changes nothing. */
  lemma GetMemoryReads(ctx: Ctx<int>, uh: Option<UnexpectedHandler<Event, int>>)
    requires ctx.current < 2
    ensures Step(ctx, uh, GetMemory) == Returned(ctx, ctx.data)
    ensures StepAsWritten(ctx, uh, GetMemory) == Returned(ctx, ctx.data)
  {
    if ctx.current == CalculatingId {
      GetMemoryReadsIn(CalculatingId, ctx.data, uh);
    } else {
      GetMemoryReadsIn(OverflowId, ctx.data, uh);
    }
  }

  /** GetMemoryReads for one state. */
  lemma GetMemoryReadsIn(s: nat, m: int, uh: Option<UnexpectedHandler<Event, int>>)
    requires s < 2
    ensures Step(Ctx(s, m), uh, GetMemory) == Returned(Ctx(s, m), m)
    ensures StepAsWritten(Ctx(s, m), uh, GetMemory) == Returned(Ctx(s, m), m)
  {
    ProcessIsDeliver(Ctx(s, m), uh, GetMemory);
  }

  /** Arithmetic in Overflow has no handler: with none installed it raises unexpected_event and changes nothing. */
  lemma OverflowArithmeticUnexpected(m: int, e: Event)
    requires e.Add? || e.Substract? || e.Multiply? || e.Divide?
    ensures Step(Ctx(OverflowId, m), None, e)
      == Raised(Ctx(OverflowId, m), Fsm(UnexpectedEvent(e, EventType(e),
                  StateRef(Some(StateName(Compound().states[OverflowId])), "struct EventsTest::Overflow", OverflowId))))
    ensures StepAsWritten(Ctx(OverflowId, m), None, e) == Step(Ctx(OverflowId, m), None, e)
  {
    ProcessIsDeliver(Ctx(OverflowId, m), None, e);
  }

  /** Memorize(v) in the corrected build: Memory becomes v, and the state is Calculating exactly when v is in bounds. */
  lemma MemorizeSettles(ctx: Ctx<int>, uh: Option<UnexpectedHandler<Event, int>>, v: int)
    requires ctx.current < 2
    ensures Step(ctx, uh, Memorize(v)) == Returned(Ctx(if InBounds(v) then CalculatingId else OverflowId, v), v)
  {
    ProcessIsDeliver(ctx, uh, Memorize(v));
  }

  /**
   * Memorize(v) in Overflow as written: the machine always ends in Calculating with Memory v,
   * whatever v is, because the check's switch to Overflow is made by Overflow itself.
   */
  lemma MemorizeInOverflowAsWritten(m: int, uh: Option<UnexpectedHandler<Event, int>>, v: int)
    ensures StepAsWritten(Ctx(OverflowId, m), uh, Memorize(v)) == Returned(Ctx(CalculatingId, v), v)
  {
    ProcessIsDeliver(Ctx(OverflowId, m), uh, Memorize(v));
  }

  /** The machine is in Calculating exactly when Memory is within bounds. */
  ghost predicate Invariant(ctx: Ctx<int>)
  {
    ctx.current < 2 && (ctx.current == CalculatingId <==> InBounds(ctx.data))
  }

  /** A new calculator satisfies the invariant. */
  lemma InitialInvariant()
    ensures Invariant(Initial(Compound()))
  {
  }

  /** Every event, handled, failing or unexpected, keeps the invariant in the corrected build. */
  lemma InvariantPreserved(ctx: Ctx<int>, uh: Option<UnexpectedHandler<Event, int>>, e: Event)
    requires Invariant(ctx)
    ensures Invariant(Step(ctx, uh, e).ctx)
  {
    ProcessIsDeliver(ctx, uh, e);
    if e.Memorize? {
      MemorizeSettles(ctx, uh, e.v);
    } else if ctx.current == CalculatingId && !e.GetMemory? && !(e.Divide? && e.v == 0) {
      CalculatingArithmetic(ctx.data, uh, e);
    }
  }

  /** As written, Memorize(500) in Overflow breaks the invariant: Calculating with Memory 500. */
  lemma AsWrittenBreaksInvariant()
    ensures Invariant(Ctx(OverflowId, 1000))
    ensures StepAsWritten(Ctx(OverflowId, 1000), None, Memorize(500)).ctx == Ctx(CalculatingId, 500)
    ensures !Invariant(StepAsWritten(Ctx(OverflowId, 1000), None, Memorize(500)).ctx)
  {
    MemorizeInOverflowAsWritten(1000, None, 500);
  }

  /** The test sequence: Add 10, Multiply 1000, Memorize -8, Divide -2, GetMemory; the same on both builds. */
  lemma TestSequence()
    ensures Initial(Compound()) == Ctx(CalculatingId, 0)
    ensures Step(Ctx(CalculatingId, 0), None, Add(10)) == Returned(Ctx(CalculatingId, 10), 10)
    ensures Step(Ctx(CalculatingId, 10), None, Multiply(1000)).ctx == Ctx(OverflowId, 10000)
    ensures Step(Ctx(OverflowId, 10000), None, Memorize(-8)) == Returned(Ctx(CalculatingId, -8), -8)
    ensures Step(Ctx(CalculatingId, -8), None, Divide(-2)) == Returned(Ctx(CalculatingId, 4), 4)
    ensures Step(Ctx(CalculatingId, 4), None, GetMemory) == Returned(Ctx(CalculatingId, 4), 4)
    ensures StepAsWritten(Ctx(CalculatingId, 0), None, Add(10)) == Returned(Ctx(CalculatingId, 10), 10)
    ensures StepAsWritten(Ctx(CalculatingId, 10), None, Multiply(1000)).ctx == Ctx(OverflowId, 10000)
    ensures StepAsWritten(Ctx(OverflowId, 10000), None, Memorize(-8)) == Returned(Ctx(CalculatingId, -8), -8)
    ensures StepAsWritten(Ctx(CalculatingId, -8), None, Divide(-2)) == Returned(Ctx(CalculatingId, 4), 4)
    ensures StepAsWritten(Ctx(CalculatingId, 4), None, GetMemory) == Returned(Ctx(CalculatingId, 4), 4)
  {
    CalculatingArithmetic(0, None, Add(10));
    CalculatingArithmetic(10, None, Multiply(1000));
    MemorizeSettles(Ctx(OverflowId, 10000), None, -8);
    MemorizeInOverflowAsWritten(10000, None, -8);
    assert TruncDiv(-8, -2) == 4;
    CalculatingArithmetic(-8, None, Divide(-2));
    GetMemoryReads(Ctx(CalculatingId, 4), None);
  }

  /** The events the corrected calculator handles in a state without failing. */
  predicate Handled(ctx: Ctx<int>, e: Event)
  {
    ctx.current < 2
    && (e.Memorize? || e.GetMemory? || (ctx.current == CalculatingId && !(e.Divide? && e.v == 0)))
  }

  /** The state that goes with a Memory value: Calculating within bounds, Overflow outside. */
  function Where(m: int): nat
  {
    if InBounds(m) then CalculatingId else OverflowId
  }

  /**
   * The calculator written directly, without the engine: the state and Memory after a handled
   * event, and the value it returns.
   */
  function Calculate(ctx: Ctx<int>, e: Event): (Ctx<int>, int)
    requires Handled(ctx, e)
  {
    match e
    case Memorize(v) => (Ctx(Where(v), v), v)
    case GetMemory => (ctx, ctx.data)
    case _ => var m := Apply(ctx.data, e); (Ctx(Where(m), m), m)
  }

  /** The corrected machine computes exactly what Calculate says for every handled event. */
  lemma StepIsCalculate(ctx: Ctx<int>, uh: Option<UnexpectedHandler<Event, int>>, e: Event)
    requires Handled(ctx, e)
    ensures Step(ctx, uh, e) == Returned(Calculate(ctx, e).0, Calculate(ctx, e).1)
  {
    match e
    case Memorize(v) => MemorizeSettles(ctx, uh, v);
    case GetMemory => GetMemoryReads(ctx, uh);
    case _ => CalculatingArithmetic(ctx.data, uh, e);
  }

  /** calc.process(e) on a corrected calculator object, for an event it handles. */
  method Send(calculator: BasicStateMachine.Machine<int, Event, Kind, int>,
              d: BasicStateMachine.Dispatcher<int, Event, Kind, int>, e: Event) returns (r: int)
    requires calculator.Valid() && calculator.cfg == Machine() && Handled(calculator.State(), e)
    requires d.Valid() && d.cfg == Machine() && d.kind == KindOf(e)
    modifies calculator
    ensures calculator.Valid() && calculator.unexpected == old(calculator.unexpected)
    ensures (calculator.State(), r) == Calculate(old(calculator.State()), e)
  {
    StepIsCalculate(calculator.State(), calculator.unexpected, e);
    var o := calculator.Process(d, e);
    r := o.value;
  }

  /** The test sequence on the calculator written directly: Add 10, Multiply 1000, Memorize -8, Divide -2, GetMemory. */
  lemma CalculateTestSequence()
    ensures Calculate(Ctx(CalculatingId, 0), Add(10)) == (Ctx(CalculatingId, 10), 10)
    ensures Calculate(Ctx(CalculatingId, 10), Multiply(1000)) == (Ctx(OverflowId, 10000), 10000)
    ensures Calculate(Ctx(OverflowId, 10000), Memorize(-8)) == (Ctx(CalculatingId, -8), -8)
    ensures Calculate(Ctx(CalculatingId, -8), Divide(-2)) == (Ctx(CalculatingId, 4), 4)
    ensures Calculate(Ctx(CalculatingId, 4), GetMemory) == (Ctx(CalculatingId, 4), 4)
  {
    assert TruncDiv(-8, -2) == 4;
  }

  /** The test run on a machine object: the results 10, -8, 4 and 4, ending in Calculating. */
  method RunTest() returns (added: int, memorized: int, divided: int, read: int)
    ensures added == 10 && memorized == -8 && divided == 4 && read == divided
  {
    MachinesWellFormed();
    var info := new BasicStateMachine.StatesInfoHolder(Compound().states);
    var calculator := new BasicStateMachine.Machine(Machine(), info);
    var add := new BasicStateMachine.Dispatcher(Machine(), AddKind);
    var multiply := new BasicStateMachine.Dispatcher(Machine(), MultiplyKind);
    var memorize := new BasicStateMachine.Dispatcher(Machine(), MemorizeKind);
    var divide := new BasicStateMachine.Dispatcher(Machine(), DivideKind);
    var getMemory := new BasicStateMachine.Dispatcher(Machine(), GetMemoryKind);
    added, memorized, divided, read := Drive(calculator, add, multiply, memorize, divide, getMemory);
  }

  /** The five process() calls of the test on a fresh calculator. */
  method Drive(calculator: BasicStateMachine.Machine<int, Event, Kind, int>,
               add: BasicStateMachine.Dispatcher<int, Event, Kind, int>,
               multiply: BasicStateMachine.Dispatcher<int, Event, Kind, int>,
               memorize: BasicStateMachine.Dispatcher<int, Event, Kind, int>,
               divide: BasicStateMachine.Dispatcher<int, Event, Kind, int>,
               getMemory: BasicStateMachine.Dispatcher<int, Event, Kind, int>)
    returns (added: int, memorized: int, divided: int, read: int)
    requires calculator.Valid() && calculator.cfg == Machine() && calculator.State() == Ctx(CalculatingId, 0)
    requires add.Valid() && add.cfg == Machine() && add.kind == AddKind
    requires multiply.Valid() && multiply.cfg == Machine() && multiply.kind == MultiplyKind
    requires memorize.Valid() && memorize.cfg == Machine() && memorize.kind == MemorizeKind
    requires divide.Valid() && divide.cfg == Machine() && divide.kind == DivideKind
    requires getMemory.Valid() && getMemory.cfg == Machine() && getMemory.kind == GetMemoryKind
    modifies calculator
    ensures added == 10 && memorized == -8 && divided == 4 && read == divided
  {
    CalculateTestSequence();
    added := Send(calculator, add, Add(10));
    assert calculator.State() == Ctx(CalculatingId, 10);
    var _ := Send(calculator, multiply, Multiply(1000));
    assert calculator.State() == Ctx(OverflowId, 10000);
    memorized := Send(calculator, memorize, Memorize(-8));
    assert calculator.State() == Ctx(CalculatingId, -8);
    divided := Send(calculator, divide, Divide(-2));
    assert calculator.State() == Ctx(CalculatingId, 4);
    read := Send(calculator, getMemory, GetMemory);
  }
}
