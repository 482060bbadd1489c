/**
 * The library's error objects and the type-name cleanup used to describe them.
 *
 * Type identities are modelled by their raw `type_info::name()` strings as the Microsoft
 * compilers report them ("struct NS::Idle", "class std::basic_string<...>"); the cleanup
 * removes the struct/class/union/enum keywords from such a name.
 */
module Exceptions {
  import opened Wrappers

  // ---------------------------------------------------------------------------------------
  // Substring search (std::string::find) and keyword erasure
  // ---------------------------------------------------------------------------------------

  /** `kw` occurs in `s` at position `p`. */
  predicate OccursAt(s: string, kw: string, p: nat)
  {
    p + |kw| <= |s| && s[p..p + |kw|] == kw
  }

  predicate Contains(s: string, kw: string)
  {
    exists p: nat | p <= |s| :: OccursAt(s, kw, p)
  }

  /** The first position at or after `from` where `kw` occurs in `s`, as std::string::find reports it. */
  function FindFrom(s: string, kw: string, from: nat): (r: Option<nat>)
    decreases |s| - from
    ensures r.Some? ==> from <= r.value && OccursAt(s, kw, r.value)
    ensures r.Some? ==> forall q: nat :: from <= q < r.value ==> !OccursAt(s, kw, q)
    ensures r.None? ==> forall q: nat :: from <= q ==> !OccursAt(s, kw, q)
  {
    if from + |kw| > |s| then None
    else if OccursAt(s, kw, from) then Some(from)
    else FindFrom(s, kw, from + 1)
  }

  function Find(s: string, kw: string): (r: Option<nat>)
    ensures r.Some? ==> OccursAt(s, kw, r.value)
    ensures r.None? <==> !Contains(s, kw)
  {
    FindFrom(s, kw, 0)
  }

  /**
   * `s` with the occurrence of `kw` at `p` cut out (std::string::erase): what precedes the
   * occurrence stays in place, what follows it moves up by |kw|, and putting `kw` back at `p`
   * gives `s` again.
   */
  function EraseAt(s: string, kw: string, p: nat): (r: string)
    requires OccursAt(s, kw, p)
    ensures |r| == |s| - |kw|
    ensures r[..p] == s[..p] && r[p..] == s[p + |kw|..]
    ensures r[..p] + kw + r[p..] == s
  {
    s[..p] + s[p + |kw|..]
  }

  /**
   * The result of the loop `while ((pos = result.find(kw)) != npos) result.erase(pos, |kw|)`:
   * the first occurrence is erased again and again until none is left.
   */
  function EraseAll(s: string, kw: string): (r: string)
    requires |kw| > 0
    decreases |s|
    ensures |r| <= |s|
    ensures !Contains(r, kw)
    ensures !Contains(s, kw) ==> r == s
  {
    match Find(s, kw)
    case None => s
    case Some(p) => EraseAll(EraseAt(s, kw, p), kw)
  }

  /** The cleaned type name: "struct ", then "class ", then "union ", then "enum " erased. */
  function ConstructTypeName(fullName: string): string
  {
    EraseAll(EraseAll(EraseAll(EraseAll(fullName, "struct "), "class "), "union "), "enum ")
  }

  /** One of the cleanup loops, erasing every occurrence of one keyword in place. */
  method EraseKeyword(s: string, kw: string) returns (result: string)
    requires |kw| > 0
    ensures result == EraseAll(s, kw)
  {
    result := s;
    var pos := Find(result, kw);
    while pos.Some?
      invariant pos == Find(result, kw)
      invariant EraseAll(result, kw) == EraseAll(s, kw)
      decreases |result|
    {
      result := EraseAt(result, kw, pos.value);
      pos := Find(result, kw);
    }
  }

  /** construct_type_name_impl, keyword-stripping branch: the four erasure loops in order. */
  method ConstructTypeNameImpl(fullName: string) returns (result: string)
    ensures result == ConstructTypeName(fullName)
    ensures |result| <= |fullName|
    ensures !Contains(result, "enum ")
  {
    result := EraseKeyword(fullName, "struct ");
    result := EraseKeyword(result, "class ");
    result := EraseKeyword(result, "union ");
    result := EraseKeyword(result, "enum ");
  }

  /** A name that contains none of the keywords comes back unchanged. */
  lemma CleanNameUnchanged(fullName: string)
    requires !Contains(fullName, "struct ") && !Contains(fullName, "class ")
    requires !Contains(fullName, "union ") && !Contains(fullName, "enum ")
    ensures ConstructTypeName(fullName) == fullName
  {
  }

  /** A name without a single space. */
  predicate NoSpace(s: string)
  {
    forall i :: 0 <= i < |s| ==> s[i] != ' '
  }

  /** All four keywords end in a space, so none of them occurs in a name without spaces. */
  lemma NoSpaceNoKeyword(s: string, kw: string)
    requires NoSpace(s) && |kw| > 0 && kw[|kw| - 1] == ' '
    ensures !Contains(s, kw)
  {
  }

  /** A type name without spaces is its own cleaned name. */
  lemma SpaceFreeNameClean(name: string)
    requires NoSpace(name)
    ensures ConstructTypeName(name) == name
  {
    NoSpaceNoKeyword(name, "struct ");
    NoSpaceNoKeyword(name, "class ");
    NoSpaceNoKeyword(name, "union ");
    NoSpaceNoKeyword(name, "enum ");
    CleanNameUnchanged(name);
  }

  /**
   * A keyword that ends in its only space, standing between two space-free parts, is erased
   * and the two parts are joined: "Outer<" + "class " + "Foo>" becomes "Outer<Foo>".
   */
  lemma {:induction false} InfixKeywordErased(a: string, kw: string, b: string)
    requires NoSpace(a) && NoSpace(b)
    requires |kw| > 0 && kw[|kw| - 1] == ' ' && NoSpace(kw[..|kw| - 1])
    ensures EraseAll(a + kw + b, kw) == a + b
  {
    var s := a + kw + b;
    assert OccursAt(s, kw, |a|) by { assert s[|a|..|a| + |kw|] == kw; }
    forall q: nat | q < |a|
      ensures !OccursAt(s, kw, q)
    {
      var i := q + |kw| - 1;
      if i < |a| {
        assert s[i] == a[i] != ' ';
      } else {
        assert s[i] == kw[..|kw| - 1][i - |a|] != ' ';
      }
      assert s[i] != kw[|kw| - 1];
    }
    assert Find(s, kw) == Some(|a|);
    assert EraseAt(s, kw, |a|) == a + b;
    assert NoSpace(a + b);
    NoSpaceNoKeyword(a + b, kw);
  }

  /** The leading "struct " or "class " of a type name is removed, and a space-free rest is kept as it is. */
  lemma {:induction false} PrefixedNameClean(name: string)
    requires NoSpace(name)
    ensures ConstructTypeName("struct " + name) == name
    ensures ConstructTypeName("class " + name) == name
  {
    SpaceFreeNameClean(name);
    NoSpaceNoKeyword(name, "struct ");
    NoSpaceNoKeyword(name, "class ");
    var s := "struct " + name;
    assert OccursAt(s, "struct ", 0) by { assert s[0..7] == "struct "; }
    assert EraseAt(s, "struct ", 0) == name;
    var t := "class " + name;
    assert !Contains(t, "struct ");
    assert OccursAt(t, "class ", 0) by { assert t[0..6] == "class "; }
    assert EraseAt(t, "class ", 0) == name;
  }

  // ---------------------------------------------------------------------------------------
  // Error values and error objects
  // ---------------------------------------------------------------------------------------

  /** The decimal text of an unsigned number, as an output stream writes it. */
  function DecimalText(n: nat): (r: string)
    ensures |r| >= 1
    ensures forall i :: 0 <= i < |r| ==> '0' <= r[i] <= '9'
  {
    if n < 10 then [('0' as int + n) as char]
    else DecimalText(n / 10) + [('0' as int + n % 10) as char]
  }

  /** The machine state recorded by every fsm_error: an optional state name, the state's type and its id. */
  datatype StateRef = StateRef(name: Option<string>, stateType: string, id: nat)

  /** The library's exception hierarchy as one value type: fsm_error, bad_state_id and unexpected_event. */
  datatype FsmError<E> =
    | Generic(state: StateRef)
    | BadStateId(badId: nat, state: StateRef)
    | UnexpectedEvent(event: E, eventType: string, state: StateRef)

  /** The description bad_state_id::what() builds. */
  function BadStateIdText(badId: nat, stateName: string): string
  {
    "bad_state_id: an attempt to use invalid state id " + DecimalText(badId)
      + " detected in state '" + stateName + "'"
  }

  /** The description unexpected_event::what() builds. */
  function UnexpectedEventText(eventType: string, stateName: string): string
  {
    "unexpected_event: the state machine does not expect the event of type '"
      + ConstructTypeName(eventType) + "' in state '" + stateName + "'"
  }

  /**
   * A thrown error together with the two caches its what() fills lazily: the state name
   * (m_StateName) and the description (m_ErrorInfo).
   */
  class ErrorObject<E> {
    const error: FsmError<E>
    var stateName: Option<string>
    var errorInfo: Option<string>

    constructor (err: FsmError<E>)
      ensures error == err && stateName == err.state.name && errorInfo == None
      ensures CurrentStateType() == err.state.stateType && CurrentStateId() == err.state.id
      ensures err.BadStateId? ==> StateId() == err.badId
      ensures err.UnexpectedEvent? ==> Event() == err.event
    {
      error := err;
      stateName := err.state.name;
      errorInfo := None;
    }

    /** current_state_type(): the type of the state the machine was in. */
    function CurrentStateType(): string
    {
      error.state.stateType
    }

    /** current_state_id(): the id of the state the machine was in. */
    function CurrentStateId(): nat
    {
      error.state.id
    }

    /** bad_state_id::state_id(): the invalid id that was used. */
    function StateId(): nat
      requires error.BadStateId?
    {
      error.badId
    }

    /** unexpected_event::event(): the event no handler took. */
    function Event(): E
      requires error.UnexpectedEvent?
    {
      error.event
    }

    /**
     * what(): a plain fsm_error reports "fsm_error" unless a description was stored; the two
     * derived errors build their description on the first call, deriving a missing state name
     * from the state's type, cache it, and return the cached text on every later call.
     */
    method What() returns (s: string)
      modifies this
      ensures error.Generic? ==> s == old(errorInfo).GetOr("fsm_error") && unchanged(this)
      ensures !error.Generic? && old(errorInfo).Some? ==> s == old(errorInfo).value && unchanged(this)
      ensures !error.Generic? && old(errorInfo).None? ==>
        && stateName == Some(old(stateName).GetOr(ConstructTypeName(error.state.stateType)))
        && errorInfo == Some(s)
        && s == (if error.BadStateId? then BadStateIdText(error.badId, stateName.value)
                 else UnexpectedEventText(error.eventType, stateName.value))
    {
      if error.Generic? {
        s := errorInfo.GetOr("fsm_error");
        return;
      }
      if errorInfo.None? {
        if stateName.None? {
          var name := ConstructTypeNameImpl(error.state.stateType);
          stateName := Some(name);
        }
        var text := if error.BadStateId? then BadStateIdText(error.badId, stateName.value)
                    else UnexpectedEventText(error.eventType, stateName.value);
        errorInfo := Some(text);
      }
      s := errorInfo.value;
    }
  }

  /** Asking an error for its description twice gives the same text. */
  method WhatIsStable<E>(o: ErrorObject<E>) returns (first: string, second: string)
    modifies o
    ensures first == second
  {
    first := o.What();
    second := o.What();
  }
}
