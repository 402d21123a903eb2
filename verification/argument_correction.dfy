/** The argument-correcting interceptor around native Java method calls: before the
    call proceeds, every adapter argument whose backing object has a cached native
    wrapper is replaced by that wrapper. */
module ArgumentCorrection {

  /** An argument slot: an adapter object over a backing object, a native Java
      wrapper, or any other object (including `null`). */
  datatype Argument<O, N> = Adapter(backing: O) | NativeObject(wrapper: N) | OtherObject(obj: O)

  /** The correction of one slot, given the cache from backing objects to native
      wrappers (a key mapped to `null` is the same as an absent key). */
  function CorrectArgument<O, N>(arg: Argument<O, N>, nativeObjectCache: map<O, N>): Argument<O, N> {
    if arg.Adapter? && arg.backing in nativeObjectCache then NativeObject(nativeObjectCache[arg.backing]) else arg
  }

  /** The corrected arguments as a whole: each slot corrected on its own. */
  function CorrectAll<O, N>(arguments: seq<Argument<O, N>>, nativeObjectCache: map<O, N>): seq<Argument<O, N>> {
    seq(|arguments|, i requires 0 <= i < |arguments| => CorrectArgument(arguments[i], nativeObjectCache))
  }

  /** Lines 42-54: the loop over the argument array, replacing slots in place. A slot
      changes exactly when it holds an adapter whose backing object is cached, and
      then it holds that cached wrapper; every other slot is left as it was. */
  method CorrectArguments<O, N>(arguments: seq<Argument<O, N>>, nativeObjectCache: map<O, N>)
    returns (corrected: seq<Argument<O, N>>)
    ensures |corrected| == |arguments|
    ensures forall i :: 0 <= i < |arguments| ==>
      (corrected[i] != arguments[i] <==> arguments[i].Adapter? && arguments[i].backing in nativeObjectCache)
    ensures forall i :: 0 <= i < |arguments| && corrected[i] != arguments[i] ==>
      corrected[i] == NativeObject(nativeObjectCache[arguments[i].backing])
    ensures corrected == CorrectAll(arguments, nativeObjectCache)
  {
    corrected := arguments;
    var idx := 0;
    while idx < |corrected|
      invariant 0 <= idx <= |corrected| == |arguments|
      invariant forall i :: 0 <= i < idx ==> corrected[i] == CorrectArgument(arguments[i], nativeObjectCache)
      invariant forall i :: idx <= i < |arguments| ==> corrected[i] == arguments[i]
    {
      if corrected[idx].Adapter? {
        var baseObject := corrected[idx].backing;
        if baseObject in nativeObjectCache {
          corrected := corrected[idx := NativeObject(nativeObjectCache[baseObject])];
        }
      }
      idx := idx + 1;
    }
  }

  /** `invoke`: the arguments are corrected first, then the invocation proceeds once
      with them, and its result is returned as is. `proceed` is the rest of the
      interceptor chain and the target method. */
  method Invoke<O, N, R>(arguments: seq<Argument<O, N>>, nativeObjectCache: map<O, N>,
                         proceed: seq<Argument<O, N>> -> R)
    returns (result: R, passed: seq<Argument<O, N>>)
    ensures passed == CorrectAll(arguments, nativeObjectCache)
    ensures result == proceed(passed)
  {
    passed := CorrectArguments(arguments, nativeObjectCache);
    result := proceed(passed);
  }

  /** Correcting twice changes nothing more: a replaced slot holds a native wrapper,
      which is never an adapter. */
  lemma CorrectionIsIdempotent<O, N>(arguments: seq<Argument<O, N>>, nativeObjectCache: map<O, N>)
    ensures CorrectAll(CorrectAll(arguments, nativeObjectCache), nativeObjectCache) == CorrectAll(arguments, nativeObjectCache)
  {
  }

  /** Without cached wrappers, or without adapter arguments, the call sees exactly
      the arguments it was given. */
  lemma NothingToCorrect<O, N>(arguments: seq<Argument<O, N>>, nativeObjectCache: map<O, N>)
    requires forall i :: 0 <= i < |arguments| && arguments[i].Adapter? ==> arguments[i].backing !in nativeObjectCache
    ensures CorrectAll(arguments, nativeObjectCache) == arguments
  {
  }

  /** Correction works slot by slot: correcting a concatenation corrects each part. */
  lemma CorrectionDistributes<O, N>(front: seq<Argument<O, N>>, back: seq<Argument<O, N>>, nativeObjectCache: map<O, N>)
    ensures CorrectAll(front + back, nativeObjectCache) == CorrectAll(front, nativeObjectCache) + CorrectAll(back, nativeObjectCache)
  {
  }
}
