/**
 * The turnstile tutorial machine: Idle waits for a ticket, Processing waits for the ticket
 * check, Passing lets exactly one passenger through. The calls into the turnstile hardware and
 * the console output are not modelled; the one piece of state data is Passing's flag.
 */
module Turnstile {
  import opened Wrappers
  import opened Exceptions
  import opened StateMachine
  import BasicStateMachine

  const IdleId: nat := 0
  const ProcessingId: nat := 1
  const PassingId: nat := 2

  /** The events; a ticket carries its id, a check result its verdict. */
  datatype Event = PassengerPassing | PassengerPassed | Ticket(id: string) | ValidityCheckResult(valid: bool)

  /** The event types, which is what the engine dispatches on. */
  datatype Kind = PassengerPassingKind | PassengerPassedKind | TicketKind | ValidityCheckResultKind

  function KindOf(e: Event): Kind
  {
    match e
    case PassengerPassing => PassengerPassingKind
    case PassengerPassed => PassengerPassedKind
    case Ticket(_) => TicketKind
    case ValidityCheckResult(_) => ValidityCheckResultKind
  }

  function EventType(e: Event): string
  {
    match e
    case PassengerPassing => "struct PassengerPassing"
    case PassengerPassed => "struct PassengerPassed"
    case Ticket(_) => "struct Ticket"
    case ValidityCheckResult(_) => "struct ValidityCheckResult"
  }

  /** Passing's m_fPassengerPassing, false on construction. */
  datatype Data = Data(passengerPassing: bool)

  function Keep(s: nat, d: Data): Data { d }

  function NoReset(s: nat, d: Data): ResetOutcome<Data> { ResetOutcome(d, false) }

  /** The state list Idle, Processing, Passing, none with hooks of its own. */
  function Compound(): (c: StateMachine.Compound<Data>)
    ensures |c.states| == 3
  {
    StateMachine.Compound(
      [StateDecl("struct Idle", None), StateDecl("struct Processing", None), StateDecl("struct Passing", None)],
      Keep, Keep, NoReset, Data(false))
  }

  type Outcome = StateMachine.Outcome<Data, Event, ()>

  /** The on_process overloads of the three states; None where a state has no overload for the event. */
  function Handle(s: nat, ctx: Ctx<Data>, e: Event): Option<Outcome>
  {
    if s == IdleId then
      match e
      case Ticket(_) => Some(Returned(SwitchTo(Compound(), s, ctx, ProcessingId), ()))
      case PassengerPassing => Some(Returned(ctx, ()))   // the unauthorised pass alarm
      case _ => None
    else if s == ProcessingId then
      match e
      case ValidityCheckResult(valid) =>
        Some(Returned(SwitchTo(Compound(), s, ctx, if valid then PassingId else IdleId), ()))
      case _ => Some(Returned(ctx, ()))                 // the catch-all template: please wait
    else if s == PassingId then
      match e
      case PassengerPassing =>
        if !ctx.data.passengerPassing then Some(Returned(Ctx(ctx.current, Data(true)), ()))
        else Some(Returned(ctx, ()))                    // a second passenger: alarm
      case PassengerPassed =>
        Some(Returned(SwitchTo(Compound(), s, Ctx(ctx.current, Data(false)), IdleId), ()))
      case _ => None
    else None
  }

  /** TurnstileStateMachine: no transition rules, all switching done by the handlers. */
  function Machine(): (cfg: Config<Data, Event, Kind, ()>)
    ensures cfg.Count() == 3
  {
    Config(Compound(), KindOf, EventType, (s: nat) => [], [], Handle)
  }

  lemma MachineWellFormed()
    ensures WellFormed(Machine())
  {
    var cfg := Machine();
    forall c: Ctx<Data>, e: Event | c.current < 3 && cfg.handle(c.current, c, e).Some?
      ensures cfg.handle(c.current, c, e).value.ctx.current < 3
    {
    }
  }

  /** process(e) on a turnstile machine. */
  function Step(ctx: Ctx<Data>, uh: Option<UnexpectedHandler<Event, ()>>, e: Event): (o: Outcome)
    requires ctx.current < 3
    ensures o.ctx.current < 3
  {
    MachineWellFormed();
    Process(Machine(), ctx, uh, e)
  }

  /** Every event goes straight to the current state's handler. */
  lemma ProcessIsDeliver(ctx: Ctx<Data>, uh: Option<UnexpectedHandler<Event, ()>>, e: Event)
    requires ctx.current < 3
    ensures Step(ctx, uh, e) == Deliver(Machine(), ctx.current, ctx, uh, e)
  {
    MachineWellFormed();
    ProcessWithoutRule(Machine(), ctx, uh, e);
  }

  /** In Idle a ticket starts the check and a passenger without one is refused; both are handled. */
  lemma IdleBehaviour(d: Data, id: string)
    ensures Step(Ctx(IdleId, d), None, Ticket(id)) == Returned(Ctx(ProcessingId, d), ())
    ensures Step(Ctx(IdleId, d), None, PassengerPassing) == Returned(Ctx(IdleId, d), ())
  {
    ProcessIsDeliver(Ctx(IdleId, d), None, Ticket(id));
    ProcessIsDeliver(Ctx(IdleId, d), None, PassengerPassing);
  }

  /**
   * In Processing a valid ticket leads to Passing and an invalid one back to Idle; every other
   * event is accepted and changes nothing.
   */
  lemma ProcessingBehaviour(d: Data, e: Event)
    ensures
      var o := Step(Ctx(ProcessingId, d), None, e);
      o.Returned? && o.ctx.data == d
      && o.ctx.current == (if e.ValidityCheckResult? then (if e.valid then PassingId else IdleId) else ProcessingId)
  {
    ProcessIsDeliver(Ctx(ProcessingId, d), None, e);
  }

  /**
   * In Passing the first passenger sets the flag, a second one leaves it set, and the passed
   * event clears it and returns to Idle.
   */
  lemma PassingBehaviour(flag: bool)
    ensures Step(Ctx(PassingId, Data(flag)), None, PassengerPassing) == Returned(Ctx(PassingId, Data(true)), ())
    ensures Step(Ctx(PassingId, Data(flag)), None, PassengerPassed) == Returned(Ctx(IdleId, Data(false)), ())
  {
    ProcessIsDeliver(Ctx(PassingId, Data(flag)), None, PassengerPassing);
    ProcessIsDeliver(Ctx(PassingId, Data(flag)), None, PassengerPassed);
  }

  /** A ticket or a check result in Passing is unexpected: without a handler it raises and changes nothing. */
  lemma PassingUnexpected(d: Data, e: Event)
    requires e.Ticket? || e.ValidityCheckResult?
    ensures
      Step(Ctx(PassingId, d), None, e)
        == Raised(Ctx(PassingId, d), Fsm(UnexpectedEvent(e, EventType(e), StateRef(Some(StateName(Compound().states[PassingId])), "struct Passing", PassingId))))
  {
    ProcessIsDeliver(Ctx(PassingId, d), None, e);
  }

  /** Passing's flag is only ever set while the machine is in Passing. */
  ghost predicate Invariant(ctx: Ctx<Data>)
  {
    ctx.current < 3 && (ctx.data.passengerPassing ==> ctx.current == PassingId)
  }

  /** Every event, expected or not, keeps the invariant. */
  lemma InvariantPreserved(ctx: Ctx<Data>, uh: Option<UnexpectedHandler<Event, ()>>, e: Event)
    requires Invariant(ctx)
    ensures Invariant(Step(ctx, uh, e).ctx)
  {
    ProcessIsDeliver(ctx, uh, e);
  }

  /** The sequence of main(): ticket, valid check, passenger passing, passenger passed ends in Idle. */
  lemma MainSequence(id: string)
    ensures
      var c0 := Initial(Compound());
      var c1 := Step(c0, None, Ticket(id)).ctx;
      var c2 := Step(c1, None, ValidityCheckResult(true)).ctx;
      var c3 := Step(c2, None, PassengerPassing).ctx;
      var c4 := Step(c3, None, PassengerPassed).ctx;
      c1.current == ProcessingId && c2.current == PassingId && c3 == Ctx(PassingId, Data(true))
      && c4 == Ctx(IdleId, Data(false))
  {
    IdleBehaviour(Data(false), id);
    ProcessingBehaviour(Data(false), ValidityCheckResult(true));
    PassingBehaviour(false);
    PassingBehaviour(true);
  }

  /** main(), run on a machine object: it ends in Idle with the flag clear. */
  method RunMain() returns (final: Ctx<Data>)
    ensures final == Ctx(IdleId, Data(false))
  {
    MachineWellFormed();
    var info := new BasicStateMachine.StatesInfoHolder(Compound().states);
    var m := new BasicStateMachine.Machine(Machine(), info);
    var ticket := new BasicStateMachine.Dispatcher(Machine(), TicketKind);
    var check := new BasicStateMachine.Dispatcher(Machine(), ValidityCheckResultKind);
    var passing := new BasicStateMachine.Dispatcher(Machine(), PassengerPassingKind);
    var passed := new BasicStateMachine.Dispatcher(Machine(), PassengerPassedKind);
    final := Drive(m, ticket, check, passing, passed);
  }

  /** The four process() calls of main() on a turnstile in Idle with the flag clear. */
  method Drive(m: BasicStateMachine.Machine<Data, Event, Kind, ()>,
               ticket: BasicStateMachine.Dispatcher<Data, Event, Kind, ()>,
               check: BasicStateMachine.Dispatcher<Data, Event, Kind, ()>,
               passing: BasicStateMachine.Dispatcher<Data, Event, Kind, ()>,
               passed: BasicStateMachine.Dispatcher<Data, Event, Kind, ()>) returns (final: Ctx<Data>)
    requires m.Valid() && m.cfg == Machine() && m.unexpected == None && m.State() == Ctx(IdleId, Data(false))
    requires ticket.Valid() && ticket.cfg == Machine() && ticket.kind == TicketKind
    requires check.Valid() && check.cfg == Machine() && check.kind == ValidityCheckResultKind
    requires passing.Valid() && passing.cfg == Machine() && passing.kind == PassengerPassingKind
    requires passed.Valid() && passed.cfg == Machine() && passed.kind == PassengerPassedKind
    modifies m
    ensures final == Ctx(IdleId, Data(false))
  {
    MainSequence("1234567");
    var _ := m.Process(ticket, Ticket("1234567"));
    var _ := m.Process(check, ValidityCheckResult(true));
    var _ := m.Process(passing, PassengerPassing);
    var _ := m.Process(passed, PassengerPassed);
    final := m.State();
  }
}
