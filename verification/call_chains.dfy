/** The script call-chain tracker of the script processor. Per execution context
    it keeps the active chain of script references (innermost script last) and a
    stack of chains suspended by a re-entrant top-level execution (most recently
    suspended first). Contexts and script references are opaque. */
module CallChains {
  import opened Wrappers

  /** `activeScriptContentChain` and `recursionScriptContentChains`. */
  datatype Chains<C, R> = Chains(active: map<C, seq<R>>, suspended: map<C, seq<seq<R>>>)

  /** The registry invariant: a suspended stack is never empty, and only a context
      with an active chain has suspended chains. */
  ghost predicate Valid<C, R>(s: Chains<C, R>) {
    forall c :: c in s.suspended ==> |s.suspended[c]| > 0 && c in s.active
  }

  /** The chain of `c` replaced by `chain`, everything else as it was. */
  function SetActive<C, R>(s: Chains<C, R>, c: C, chain: seq<R>): Chains<C, R> {
    s.(active := s.active[c := chain])
  }

  /** `updateContentChainsBeforeExceution`: an active chain of `c` is pushed onto
      its suspended stack, and a fresh empty chain becomes active. */
  function BeforeExecution<C, R>(s: Chains<C, R>, c: C): (r: Chains<C, R>)
    requires Valid(s)
    ensures Valid(r)
    ensures c in r.active && r.active[c] == []
    ensures r.active - {c} == s.active - {c} && r.suspended - {c} == s.suspended - {c}
    ensures c in s.active ==> c in r.suspended && r.suspended[c][0] == s.active[c]
    ensures c in s.active ==> r.suspended[c] == [s.active[c]] + (if c in s.suspended then s.suspended[c] else [])
    ensures c !in s.active ==> r.suspended == s.suspended
  {
    if c in s.active then
      var stack := if c in s.suspended then s.suspended[c] else [];
      Chains(s.active[c := []], s.suspended[c := [s.active[c]] + stack])
    else
      Chains(s.active[c := []], s.suspended)
  }

  /** `updateContentChainsAfterReturning`: the active chain of `c` is dropped; the
      most recently suspended chain, if any, becomes active again, and an emptied
      stack is removed. */
  function AfterReturning<C, R>(s: Chains<C, R>, c: C): (r: Chains<C, R>)
    requires Valid(s)
    ensures Valid(r)
    ensures c in s.suspended ==> c in r.active && r.active[c] == s.suspended[c][0]
    ensures c !in s.suspended ==> c !in r.active && c !in r.suspended
    ensures c in s.suspended ==>
      if |s.suspended[c]| == 1 then c !in r.suspended
      else c in r.suspended && r.suspended[c] == s.suspended[c][1..]
    ensures r.active - {c} == s.active - {c} && r.suspended - {c} == s.suspended - {c}
  {
    var active := s.active - {c};
    if c in s.suspended then
      var stack := s.suspended[c];
      var rest := stack[1..];
      Chains(active[c := stack[0]],
             if |rest| == 0 then s.suspended - {c} else s.suspended[c := rest])
    else
      Chains(active, s.suspended)
  }

  /** Before-execution followed by after-returning restores the registry exactly,
      whatever happened to the fresh chain in between, including the state in which
      `c` had no chain at all. */
  lemma BeforeThenAfterRestores<C, R>(s: Chains<C, R>, c: C, between: seq<R>)
    requires Valid(s)
    ensures Valid(SetActive(BeforeExecution(s, c), c, between))
    ensures AfterReturning(SetActive(BeforeExecution(s, c), c, between), c) == s
  {
    var t := SetActive(BeforeExecution(s, c), c, between);
    var r := AfterReturning(t, c);
    if c in s.active {
      assert r.active == s.active;
      if c in s.suspended {
        assert t.suspended[c][1..] == s.suspended[c];
        assert r.suspended == s.suspended;
      } else {
        assert r.suspended == s.suspended;
      }
    } else {
      assert c !in s.suspended;
      assert r.active == s.active;
    }
  }

  /** `getContextScriptLocation`: the innermost script of the active chain, or
      `null` when `c` has no chain or an empty one. */
  function ContextScriptLocation<C, R>(s: Chains<C, R>, c: C): (r: Option<R>)
    ensures r.Some? <==> c in s.active && |s.active[c]| > 0
    ensures r.Some? ==> r.value == s.active[c][|s.active[c]| - 1]
  {
    if c in s.active && |s.active[c]| > 0 then Some(s.active[c][|s.active[c]| - 1]) else None
  }

  /** `getScriptCallChain`: a copy of the active chain, or `null` when there is none. */
  function ScriptCallChain<C, R>(s: Chains<C, R>, c: C): (r: Option<seq<R>>)
    ensures r.Some? <==> c in s.active
    ensures r.Some? ==> r.value == s.active[c]
  {
    if c in s.active then Some(s.active[c]) else None
  }

  /** The two queries agree: the current location is the last element of the call
      chain, and there is none exactly when the chain is absent or empty. */
  lemma LocationIsLastOfCallChain<C, R>(s: Chains<C, R>, c: C)
    ensures ContextScriptLocation(s, c).None? <==> (ScriptCallChain(s, c).None? || ScriptCallChain(s, c).value == [])
    ensures ContextScriptLocation(s, c).Some? ==>
      var chain := ScriptCallChain(s, c).value;
      ContextScriptLocation(s, c).value == chain[|chain| - 1]
  {
  }

  /** Failures of `inheritCallChain`. */
  datatype InheritError =
    | NullParent         // ParameterCheck: the parent context is null
    | AlreadyInitialized // IllegalStateException: the current context has a chain
    | NoParentChain      // IllegalArgumentException: the parent has no chain

  /** `inheritCallChain`: the current context, which must have no chain yet, gets a
      copy of the parent's chain. */
  function InheritCallChain<C, R>(s: Chains<C, R>, current: C, parent: Option<C>): (r: Result<Chains<C, R>, InheritError>)
    requires Valid(s)
    ensures r.Failure? ==> (r.error == NullParent <==> parent.None?)
    ensures parent.Some? ==> (r == Failure(AlreadyInitialized) <==> current in s.active)
    ensures parent.Some? ==> (r == Failure(NoParentChain) <==> current !in s.active && parent.value !in s.active)
    ensures r.Success? ==>
      && parent.Some? && parent.value in s.active
      && r.value.active == s.active[current := s.active[parent.value]]
      && r.value.suspended == s.suspended
      && Valid(r.value)
  {
    match parent
    case None => Failure(NullParent)
    case Some(p) =>
      if current in s.active then Failure(AlreadyInitialized)
      else if p !in s.active then Failure(NoParentChain)
      else Success(SetActive(s, current, s.active[p]))
  }

  // ---------------------------------------------------------------- executeInScope

  /** The chain bookkeeping on entry to `executeInScope`: with no active chain a
      fresh one is created by before-execution (and `newChain` is set); the
      reference is then appended to the active chain. */
  function EnterScope<C, R>(s: Chains<C, R>, c: C, ref: R): (r: (Chains<C, R>, bool))
    requires Valid(s)
    ensures Valid(r.0)
    ensures r.1 <==> c !in s.active
    ensures c in r.0.active && r.0.active[c] == (if c in s.active then s.active[c] else []) + [ref]
    ensures ContextScriptLocation(r.0, c) == Some(ref)
    ensures r.0.active - {c} == s.active - {c}
    ensures r.0.suspended == s.suspended
  {
    if c in s.active then (SetActive(s, c, s.active[c] + [ref]), false)
    else
      var started := BeforeExecution(s, c);
      (SetActive(started, c, started.active[c] + [ref]), true)
  }

  /** The `finally` block of `executeInScope`, run on every exit path: the last
      element of the chain is removed, and the chain is torn down by after-returning
      only when this execution created it. */
  function ExitScope<C, R>(s: Chains<C, R>, c: C, newChain: bool): (r: Chains<C, R>)
    requires Valid(s)
    requires c in s.active && |s.active[c]| > 0
    ensures Valid(r)
  {
    var t := SetActive(s, c, s.active[c][..|s.active[c]| - 1]);
    if newChain then AfterReturning(t, c) else t
  }

  /** A balanced `executeInScope` leaves the registry exactly as it found it: chain
      existence, contents and length, and every suspended stack. */
  lemma {:induction false} EnterThenExitRestores<C, R>(s: Chains<C, R>, c: C, ref: R)
    requires Valid(s)
    ensures var (t, newChain) := EnterScope(s, c, ref); ExitScope(t, c, newChain) == s
  {
    var (t, newChain) := EnterScope(s, c, ref);
    if newChain {
      assert BeforeExecution(s, c).active[c] + [ref] == [ref];
      assert t == SetActive(BeforeExecution(s, c), c, [ref]);
      assert SetActive(t, c, t.active[c][..|t.active[c]| - 1]) == SetActive(BeforeExecution(s, c), c, []);
      BeforeThenAfterRestores(s, c, []);
    } else {
      assert t.active[c][..|t.active[c]| - 1] == s.active[c];
      assert s.active[c := s.active[c]] == s.active;
    }
  }

  // ---------------------------------------------------------------- executeScript

  /** The chain bookkeeping of `executeScript`: before-execution, then the reference
      is appended to the fresh chain. */
  function EnterExecution<C, R>(s: Chains<C, R>, c: C, ref: R): (r: Chains<C, R>)
    requires Valid(s)
    ensures Valid(r)
    ensures ScriptCallChain(r, c) == Some([ref])
  {
    SetActive(BeforeExecution(s, c), c, [ref])
  }

  /** After `executeScript` returns (normally or not), after-returning restores the
      registry it started from. */
  lemma ExecutionRestores<C, R>(s: Chains<C, R>, c: C, ref: R)
    requires Valid(s)
    ensures AfterReturning(EnterExecution(s, c, ref), c) == s
  {
    BeforeThenAfterRestores(s, c, [ref]);
  }

  /** A nested sequence: entering a top-level execution, pushing A and then B, and
      unwinding sees B, then A, then no location at all. */
  lemma NestedFramesUnwind<C, R>(c: C, a: R, b: R)
    ensures var s0: Chains<C, R> := Chains(map[], map[]);
      var (s1, n1) := EnterScope(s0, c, a);
      var (s2, n2) := EnterScope(s1, c, b);
      var s3 := ExitScope(s2, c, n2);
      var s4 := ExitScope(s3, c, n1);
      && ContextScriptLocation(s2, c) == Some(b)
      && ContextScriptLocation(s3, c) == Some(a)
      && ContextScriptLocation(s4, c) == None
      && s4 == s0
  {
    var s0: Chains<C, R> := Chains(map[], map[]);
    EnterThenExitRestores(s0, c, a);
    var (s1, n1) := EnterScope(s0, c, a);
    EnterThenExitRestores(s1, c, b);
  }

  /** Re-entry: a top-level execution started while chain `[a]` is active builds and
      leaves its own chain, and `[a]` comes back exactly. */
  lemma ReentryRestoresOuterChain<C, R>(s: Chains<C, R>, c: C, a: R, inner: R)
    requires Valid(s) && c in s.active && s.active[c] == [a]
    ensures ScriptCallChain(EnterExecution(s, c, inner), c) == Some([inner])
    ensures ScriptCallChain(AfterReturning(EnterExecution(s, c, inner), c), c) == Some([a])
  {
    ExecutionRestores(s, c, inner);
  }
}
