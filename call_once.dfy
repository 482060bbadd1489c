/**
 * The single-thread variant of the lightweight call_once primitive: a boolean trigger that
 * starts false, is tested before running the initializer, and is set only after the
 * initializer returns normally. The initializer itself is not visible here; each call says,
 * through `funFails`, whether the initializer raises on that call.
 */
module CallOnce {

  /** What one call did: the initializer was skipped, or it ran and either returned or raised. */
  datatype CallResult = Skipped | Ran(succeeded: bool)

  /** A call_once_trigger; its initial value (BOOST_LWCO_INIT) is false. */
  class Trigger {
    var triggered: bool

    constructor ()
      ensures !triggered
    {
      triggered := false;
    }
  }

  /** The effect of one call on the trigger value, and what the call did. */
  function Step(triggered: bool, funFails: bool): (r: (bool, CallResult))
    ensures r.1 == Skipped <==> triggered
    ensures r.0 <==> triggered || !funFails
    ensures r.1 == Ran(true) <==> !triggered && !funFails
  {
    if triggered then (true, Skipped)
    else if funFails then (false, Ran(false))
    else (true, Ran(true))
  }

  /**
   * call_once(trigger, fun): runs the initializer only while the trigger is false and sets
   * the trigger once the initializer has returned normally; a raising initializer leaves the
   * trigger false, so a later call retries.
   */
  method Call(t: Trigger, funFails: bool) returns (r: CallResult)
    modifies t
    ensures (t.triggered, r) == Step(old(t.triggered), funFails)
    ensures old(t.triggered) ==> r == Skipped && t.triggered
    ensures !old(t.triggered) ==> r == Ran(!funFails) && t.triggered == !funFails
  {
    if !t.triggered {
      if funFails {
        // the initializer raised: the failure propagates and the trigger is left untouched
        r := Ran(false);
        return;
      }
      t.triggered := true;
      r := Ran(true);
    } else {
      r := Skipped;
    }
  }

  /** Number of calls, over a sequence of calls on one trigger, whose initializer returned normally. */
  function Successes(triggered: bool, fails: seq<bool>): nat
    decreases |fails|
  {
    if fails == [] then 0
    else
      var (next, r) := Step(triggered, fails[0]);
      (if r == Ran(true) then 1 else 0) + Successes(next, fails[1..])
  }

  /** The trigger value after a sequence of calls. */
  function After(triggered: bool, fails: seq<bool>): bool
    decreases |fails|
  {
    if fails == [] then triggered else After(Step(triggered, fails[0]).0, fails[1..])
  }

  /**
   * Over any sequence of calls the initializer completes successfully at most once: exactly
   * once when the trigger starts false and some call's initializer would return normally,
   * never otherwise.
   */
  lemma {:induction false} AtMostOnceSuccess(triggered: bool, fails: seq<bool>)
    ensures Successes(triggered, fails)
         == if !triggered && exists i :: 0 <= i < |fails| && !fails[i] then 1 else 0
    decreases |fails|
  {
    if fails != [] {
      var next := Step(triggered, fails[0]).0;
      AtMostOnceSuccess(next, fails[1..]);
      if !triggered && fails[0] {
        if exists i :: 0 <= i < |fails| && !fails[i] {
          var i :| 0 <= i < |fails| && !fails[i];
          assert fails[1..][i - 1] == fails[i];
        }
        if exists j :: 0 <= j < |fails[1..]| && !fails[1..][j] {
          var j :| 0 <= j < |fails[1..]| && !fails[1..][j];
          assert fails[j + 1] == fails[1..][j];
        }
      }
    }
  }

  /** The trigger ends set exactly when it started set or some call's initializer returned normally. */
  lemma {:induction false} TriggerSetIffSuccess(triggered: bool, fails: seq<bool>)
    ensures After(triggered, fails) <==> triggered || exists i :: 0 <= i < |fails| && !fails[i]
    decreases |fails|
  {
    if fails != [] {
      TriggerSetIffSuccess(Step(triggered, fails[0]).0, fails[1..]);
      if exists i :: 0 <= i < |fails| && !fails[i] {
        var i :| 0 <= i < |fails| && !fails[i];
        if i > 0 { assert fails[1..][i - 1] == fails[i]; }
      }
      if exists j :: 0 <= j < |fails[1..]| && !fails[1..][j] {
        var j :| 0 <= j < |fails[1..]| && !fails[1..][j];
        assert fails[j + 1] == fails[1..][j];
      }
    }
  }
}
