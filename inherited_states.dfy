/**
 * The compile-time recursion over the state list, run as loops: five states at a time while
 * more than five remain, then the last one to five states, each state handled by one fragment
 * that acts on the state at the cursor and advances the cursor by one. The three walks are
 * the reset hooks, the state information table and the dispatch table of one event kind.
 */
module InheritedStates {
  import opened Wrappers
  import opened StateMachine

  /** The ids 0 .. n-1 in order: the order in which the walks visit the states. */
  function Ids(n: nat): (r: seq<nat>)
    ensures |r| == n
    ensures forall i :: 0 <= i < n ==> r[i] == i
  {
    if n == 0 then [] else Ids(n - 1) + [n - 1]
  }

  // ---------------------------------------------------------------------------------------
  // on_reset
  // ---------------------------------------------------------------------------------------

  /**
   * One on_reset fragment: the reset hook of state i under a guard that discards whatever the
   * hook raises; the data the hook left behind is kept either way.
   */
  method ResetOne<D>(c: Compound<D>, i: nat, d: D) returns (r: D, next: nat)
    requires i < |c.states|
    ensures r == c.reset(i, d).data
    ensures next == i + 1
  {
    var outcome := c.reset(i, d);
    // outcome.failed is caught and dropped here
    r := outcome.data;
    next := i + 1;
  }

  /**
   * inherited_states::on_reset: the reset hook of every state runs exactly once, in state-list
   * order (the ghost `calls` records the order), whatever any of them raises.
   */
  method OnReset<D>(c: Compound<D>, d: D) returns (r: D, ghost calls: seq<nat>)
    requires |c.states| >= 1
    ensures r == ResetUpTo(c, |c.states|, d)
    ensures calls == Ids(|c.states|)
  {
    var n := |c.states|;
    var cursor := 0;
    r := d;
    calls := [];
    while n - cursor > 5
      invariant cursor <= n
      invariant r == ResetUpTo(c, cursor, d)
      invariant calls == Ids(cursor)
      decreases n - cursor
    {
      var start, k := cursor, 0;
      while k < 5
        invariant k <= 5 && cursor == start + k && start + 5 <= n
        invariant r == ResetUpTo(c, cursor, d)
        invariant calls == Ids(cursor)
      {
        calls := calls + [cursor];
        r, cursor := ResetOne(c, cursor, r);
        k := k + 1;
      }
    }
    // the specialisation for the last one to five states
    while cursor < n
      invariant cursor <= n
      invariant r == ResetUpTo(c, cursor, d)
      invariant calls == Ids(cursor)
    {
      calls := calls + [cursor];
      r, cursor := ResetOne(c, cursor, r);
    }
  }

  // ---------------------------------------------------------------------------------------
  // init_states_info
  // ---------------------------------------------------------------------------------------

  /** One init_states_info fragment: fills the entry at the cursor for that state and advances. */
  method InitStateInfo(states: seq<StateDecl>, a: array<StateInfo>, cursor: nat) returns (next: nat)
    requires cursor < |states| && a.Length == |states|
    modifies a
    ensures a[cursor] == InfoOf(states, cursor)
    ensures forall j :: 0 <= j < a.Length && j != cursor ==> a[j] == old(a[j])
    ensures next == cursor + 1
  {
    a[cursor] := StateInfo(cursor, states[cursor].stateType, StateName(states[cursor]));
    next := cursor + 1;
  }

  /** inherited_states::init_states_info: entry i of the table ends up describing the state with id i. */
  method InitStatesInfo(states: seq<StateDecl>, a: array<StateInfo>)
    requires |states| >= 1 && a.Length == |states|
    modifies a
    ensures a[..] == StatesInfo(states)
  {
    var n := |states|;
    var cursor := 0;
    while n - cursor > 5
      invariant cursor <= n
      invariant forall j :: 0 <= j < cursor ==> a[j] == InfoOf(states, j)
      decreases n - cursor
    {
      var start, k := cursor, 0;
      while k < 5
        invariant k <= 5 && cursor == start + k && start + 5 <= n
        invariant forall j :: 0 <= j < cursor ==> a[j] == InfoOf(states, j)
      {
        cursor := InitStateInfo(states, a, cursor);
        k := k + 1;
      }
    }
    while cursor < n
      invariant cursor <= n
      invariant forall j :: 0 <= j < cursor ==> a[j] == InfoOf(states, j)
    {
      cursor := InitStateInfo(states, a, cursor);
    }
  }

  // ---------------------------------------------------------------------------------------
  // init_process_functions
  // ---------------------------------------------------------------------------------------

  /**
   * One init_process_functions fragment: searches the state's own rules followed by the
   * machine-wide rules for the first one applicable to (state, event kind), fills the entry at
   * the cursor from the outcome of the search, and advances.
   */
  method InitProcessFunction<D, E, K, R>(cfg: Config<D, E, K, R>, k: K, a: array<Entry>, cursor: nat)
    returns (next: nat)
    requires cursor < a.Length
    modifies a
    ensures a[cursor] == EntryFor(cfg, cursor, k)
    ensures forall j :: 0 <= j < a.Length && j != cursor ==> a[j] == old(a[j])
    ensures next == cursor + 1
  {
    var found := FirstApplicable(Candidates(cfg, cursor), cursor, k);
    match found {
      case None =>
        // no transition: both halves deliver the event to the state directly
        a[cursor] := Entry(DeliverEvent(cursor), DeliverEvent(cursor));
      case Some(r) =>
        a[cursor] := Entry(PerformTransition(cursor, r), DeliverEvent(cursor));
    }
    next := cursor + 1;
  }

  /** inherited_states::init_process_functions: entry i of the table is the entry of state i. */
  method InitProcessFunctions<D, E, K, R>(cfg: Config<D, E, K, R>, k: K, a: array<Entry>)
    requires cfg.Count() >= 1 && a.Length == cfg.Count()
    modifies a
    ensures a[..] == DispatchTable(cfg, k)
  {
    var n := a.Length;
    var cursor := 0;
    while n - cursor > 5
      invariant cursor <= n
      invariant forall j :: 0 <= j < cursor ==> a[j] == EntryFor(cfg, j, k)
      decreases n - cursor
    {
      var start, step := cursor, 0;
      while step < 5
        invariant step <= 5 && cursor == start + step && start + 5 <= n
        invariant forall j :: 0 <= j < cursor ==> a[j] == EntryFor(cfg, j, k)
      {
        cursor := InitProcessFunction(cfg, k, a, cursor);
        step := step + 1;
      }
    }
    while cursor < n
      invariant cursor <= n
      invariant forall j :: 0 <= j < cursor ==> a[j] == EntryFor(cfg, j, k)
    {
      cursor := InitProcessFunction(cfg, k, a, cursor);
    }
  }
}
