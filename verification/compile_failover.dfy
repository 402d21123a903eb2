/** Compilation of a script source with optimization-level failover. The guest
    engine's compiler is an oracle from optimization level to either a compiled
    script or the class of the runtime exception it threw. */
module CompileFailover {

  /** The lowest optimization level: interpreted mode. */
  const InterpretedLevel: int := -1

  /** Class of a runtime exception raised by the compiler: exactly
      `RuntimeException`, or a strict subclass of it. */
  datatype ExceptionClass = PlainRuntimeException | SpecializedRuntimeException

  /** One compiler attempt at a fixed optimization level. */
  datatype Attempt<S> = Compiled(script: S) | Threw(exception: ExceptionClass)

  /** What compilation hands back: a script, `null` (every failover level failed),
      or the exception that escaped. */
  datatype Outcome<S> = Script(script: S) | NoScript | Failed(cause: ExceptionClass)

  /** An outcome together with the optimization levels tried, in order. */
  datatype Compilation<S> = Compilation(outcome: Outcome<S>, tried: seq<int>)

  /** The catch block lets the loop go on only for a plain `RuntimeException` while
      failover is enabled; `ex.getClass().isAssignableFrom(RuntimeException.class)`
      holds for a runtime exception exactly when its class is `RuntimeException`. */
  predicate FailsOver<S>(a: Attempt<S>, failover: bool) {
    a.Threw? && a.exception == PlainRuntimeException && failover
  }

  /** The failover loop: try `level`, `level - 1`, ... down to the interpreted
      level, stopping at the first compiled script or at the first exception that
      must not be failed over. */
  function Failover<S>(compile: int -> Attempt<S>, level: int, failover: bool): (r: Compilation<S>)
    ensures forall i :: 0 <= i < |r.tried| ==> r.tried[i] == level - i && InterpretedLevel <= r.tried[i]
    ensures forall i :: 0 <= i < |r.tried| - 1 ==> FailsOver(compile(r.tried[i]), failover)
    ensures r.outcome.Script? ==> 0 < |r.tried| && compile(r.tried[|r.tried| - 1]) == Compiled(r.outcome.script)
    ensures r.outcome.Failed? ==>
      0 < |r.tried| && compile(r.tried[|r.tried| - 1]) == Threw(r.outcome.cause)
      && !FailsOver(compile(r.tried[|r.tried| - 1]), failover)
    ensures r.outcome.NoScript? ==>
      |r.tried| == (if level < InterpretedLevel then 0 else level + 2)
      && forall i :: 0 <= i < |r.tried| ==> FailsOver(compile(r.tried[i]), failover)
    decreases level + 2
  {
    if level < InterpretedLevel then Compilation(NoScript, [])
    else match compile(level)
      case Compiled(s) => Compilation(Script(s), [level])
      case Threw(e) =>
        if !FailsOver(compile(level), failover) then Compilation(Failed(e), [level])
        else
          var rest := Failover(compile, level - 1, failover);
          Compilation(rest.outcome, [level] + rest.tried)
  }

  /** The failover loop returns `null` exactly when every level from `level` down to
      the interpreted level threw a plain runtime exception with failover on (no
      level at all is tried when `level` is below the interpreted level). */
  lemma {:induction false} NoScriptIffEveryLevelFailsOver<S>(compile: int -> Attempt<S>, level: int, failover: bool)
    ensures Failover(compile, level, failover).outcome.NoScript?
      <==> forall l :: InterpretedLevel <= l <= level ==> FailsOver(compile(l), failover)
    decreases level + 2
  {
    if level >= InterpretedLevel {
      NoScriptIffEveryLevelFailsOver(compile, level - 1, failover);
    }
  }

  /** A compiled outcome comes from the highest level in `level .. -1` whose attempt
      did not fail over. */
  lemma {:induction false} ScriptIsFirstSuccess<S>(compile: int -> Attempt<S>, level: int, failover: bool, s: S)
    requires Failover(compile, level, failover).outcome == Script(s)
    ensures exists l :: (InterpretedLevel <= l <= level && compile(l) == Compiled(s)
                         && forall h :: l < h <= level ==> FailsOver(compile(h), failover))
    decreases level + 2
  {
    if compile(level) != Compiled(s) {
      ScriptIsFirstSuccess(compile, level - 1, failover, s);
      var l :| InterpretedLevel <= l <= level - 1 && compile(l) == Compiled(s)
        && forall h :: l < h <= level - 1 ==> FailsOver(compile(h), failover);
      assert forall h :: l < h <= level ==> FailsOver(compile(h), failover);
    }
  }

  /** `getCompiledScript(source, path)` after its argument checks: with compilation
      on and no debugger the failover loop runs from the configured level; otherwise
      exactly one attempt is made at the interpreted level and its exception, if
      any, escapes. */
  function Compile<S>(compile: int -> Attempt<S>, optimizing: bool, level: int, failover: bool): (r: Compilation<S>)
    ensures optimizing ==> r == Failover(compile, level, failover)
    ensures !optimizing ==> r.tried == [InterpretedLevel] && !r.outcome.NoScript?
    ensures !optimizing ==>
      (r.outcome.Script? <==> compile(InterpretedLevel).Compiled?)
      && (r.outcome.Script? ==> compile(InterpretedLevel) == Compiled(r.outcome.script))
      && (r.outcome.Failed? ==> compile(InterpretedLevel) == Threw(r.outcome.cause))
  {
    if optimizing then Failover(compile, level, failover)
    else match compile(InterpretedLevel)
      case Compiled(s) => Compilation(Script(s), [InterpretedLevel])
      case Threw(e) => Compilation(Failed(e), [InterpretedLevel])
  }
}
