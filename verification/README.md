# Enhanced script environment: processor bookkeeping, interceptors, converters

A Dafny model of the sequential core of the enhanced JavaScript script processor.
It also covers a few small helpers around the processor.

The model covers these parts:

- **Compiled-script caches** (`ScriptCache`). Each cache is an insertion-ordered, size-bounded map.
  - A store puts the entry, then evicts from the front of insertion order. Eviction is first-in-first-out.
  - A lookup never reorders the cache.
- **Cache gating and compilation** (`ScriptProcessor`):
  - which path keys a script in the cache (its real path);
  - when a cache is consulted at all;
  - the lookup, the compile and the store;
  - resetting both caches;
  - the scope a script runs in.
- **Optimization-level failover** (`CompileFailover`). Compilation falls back level by level to the interpreted level, and the exception class decides whether it goes on.
- **Call-chain registry** (`CallChains`). Per execution context there is one active chain of script references and a stack of chains suspended by re-entrant top-level executions. The module covers:
  - the push and pop around `executeInScope` and `executeScript`;
  - the location and call-chain queries;
  - chain inheritance.
- **Argument correction** (`ArgumentCorrection`). Adapter arguments of native Java method calls are swapped for cached native wrappers.
- **Array function names** (`ArrayFunctionName`). A case-insensitive, first-match enum lookup.
- **Classpath scripts** (`ClasspathScript`). Prefix stripping and the ordering of registered scripts.
- **Value converters** (`Converters`). Confidence, applicability and conversion guards of the map facade converter and the association converter, over an abstract class hierarchy.

These parts are passed in as parameters rather than modelled:

- the guest engine's compiler;
- the class-loader lookup;
- the content loader;
- the digest function;
- the class hierarchy.

Scripts, contexts, classes and values are type parameters. A Java `null` is `Option.None`, and a thrown exception is `Result.Failure`.

## Model

| member | source | states |
|---|---|---|
| ScriptCache.Get | framework/common/src/main/java/de/axelfaust/alfresco/enhScriptEnv/common/webscripts/processor/EnhancedJSScriptProcessor.java:852-865 | lookup finds a value exactly when the key is present, and with distinct keys it is the value stored under that key; the cache is returned untouched, so a hit changes no order |
| ScriptCache.Put | framework/common/src/main/java/de/axelfaust/alfresco/enhScriptEnv/common/webscripts/processor/EnhancedJSScriptProcessor.java:872 | after `put` the key maps to the new value; a present key keeps its place (the key order is unchanged); an absent key is appended as the newest entry |
| ScriptCache.PutKeepsOtherKeys | framework/common/src/main/java/de/axelfaust/alfresco/enhScriptEnv/common/webscripts/processor/EnhancedJSScriptProcessor.java:872 | `put` leaves the lookup of every other key as it was |
| ScriptCache.PutKeepsKeysDistinct | framework/common/src/main/java/de/axelfaust/alfresco/enhScriptEnv/common/webscripts/processor/EnhancedJSScriptProcessor.java:872 | `put` keeps the map invariant that no key occurs twice |
| ScriptCache.Store | framework/common/src/main/java/de/axelfaust/alfresco/enhScriptEnv/common/webscripts/processor/EnhancedJSScriptProcessor.java:867-888 | after a store the cache holds at most `maxScriptCacheSize` entries, namely the newest ones of the put in their insertion order; the stored entry survives whenever the cache was within its bound and the bound is positive |
| ScriptCache.StoreKeepsSurvivors | framework/common/src/main/java/de/axelfaust/alfresco/enhScriptEnv/common/webscripts/processor/EnhancedJSScriptProcessor.java:867-888 | eviction keeps keys distinct and never changes the value of a surviving key |
| ScriptCache.UpdateScriptCache | framework/common/src/main/java/de/axelfaust/alfresco/enhScriptEnv/common/webscripts/processor/EnhancedJSScriptProcessor.java:872-882 | the put followed by removal through one key iterator succeeds exactly when at most one entry has to be evicted, and then equals the FIFO store; with two or more evictions the second `next()` throws |
| ScriptCache.EvictOldest | framework/common/src/main/java/de/axelfaust/alfresco/enhScriptEnv/common/webscripts/processor/EnhancedJSScriptProcessor.java:874-882 | the eviction loop leaves the `maxScriptCacheSize` newest entries in their order when it removes at most one key, and fails with the concurrent-modification exception exactly when a second removal is needed |
| ScriptCache.ShrunkBoundFailsStore | framework/common/src/main/java/de/axelfaust/alfresco/enhScriptEnv/common/webscripts/processor/EnhancedJSScriptProcessor.java:872-882 | storing a fresh key into three entries under a bound of one fails instead of evicting down to the bound |
| ScriptCache.StoreAllKeepsNewest | framework/common/src/main/java/de/axelfaust/alfresco/enhScriptEnv/common/webscripts/processor/EnhancedJSScriptProcessor.java:867-888 | over any series of stores of fresh keys the cache holds exactly the `maxScriptCacheSize` most recently inserted entries, oldest first (FIFO, not LRU) |
| ScriptCache.HitDoesNotProtectFromEviction | framework/common/src/main/java/de/axelfaust/alfresco/enhScriptEnv/common/webscripts/processor/EnhancedJSScriptProcessor.java:852-888 | a key just found by a lookup is still evicted first when it is the oldest and a fresh key is stored into a full cache |
| CompileFailover.Failover | framework/common/src/main/java/de/axelfaust/alfresco/enhScriptEnv/common/webscripts/processor/EnhancedJSScriptProcessor.java:786-820 | levels are tried strictly descending from the configured level and never below -1; every attempt but the last failed over; a script or an escaping exception comes from the last attempt; `null` means every tried level failed over |
| CompileFailover.NoScriptIffEveryLevelFailsOver | framework/common/src/main/java/de/axelfaust/alfresco/enhScriptEnv/common/webscripts/processor/EnhancedJSScriptProcessor.java:786-820 | the loop returns `null` exactly when every level from the configured one down to -1 threw a plain `RuntimeException` with failover on |
| CompileFailover.ScriptIsFirstSuccess | framework/common/src/main/java/de/axelfaust/alfresco/enhScriptEnv/common/webscripts/processor/EnhancedJSScriptProcessor.java:789-818 | a returned script was compiled at the highest level that did not fail over, and every level above it failed over |
| CompileFailover.Compile | framework/common/src/main/java/de/axelfaust/alfresco/enhScriptEnv/common/webscripts/processor/EnhancedJSScriptProcessor.java:781-826 | with compilation on and no debugger the failover loop runs; otherwise exactly one attempt is made, at level -1, and it never yields `null` |
| CallChains.BeforeExecution | framework/common/src/main/java/de/axelfaust/alfresco/enhScriptEnv/common/webscripts/processor/EnhancedJSScriptProcessor.java:1043-1058 | an active chain is pushed on top of the suspended stack, above all chains suspended before, and an empty chain becomes active; without an active chain the suspended stacks are unchanged; every other context is untouched and no suspended stack is empty |
| CallChains.AfterReturning | framework/common/src/main/java/de/axelfaust/alfresco/enhScriptEnv/common/webscripts/processor/EnhancedJSScriptProcessor.java:1060-1073 | the active chain is dropped; the top suspended chain, if any, becomes active again; the rest of the stack is kept, and a stack emptied by the pop is removed; every other context is untouched |
| CallChains.BeforeThenAfterRestores | framework/common/src/main/java/de/axelfaust/alfresco/enhScriptEnv/common/webscripts/processor/EnhancedJSScriptProcessor.java:1043-1073 | before-execution, any change to the fresh chain, then after-returning restores the registry exactly, including the state with no chain at all |
| CallChains.ContextScriptLocation | framework/common/src/main/java/de/axelfaust/alfresco/enhScriptEnv/common/webscripts/processor/EnhancedJSScriptProcessor.java:405-418 | the location is the last element of the active chain, and absent exactly when the chain is absent or empty |
| CallChains.ScriptCallChain | framework/common/src/main/java/de/axelfaust/alfresco/enhScriptEnv/common/webscripts/processor/EnhancedJSScriptProcessor.java:425-438 | the call chain is present exactly when the context has an active chain, and equals it |
| CallChains.LocationIsLastOfCallChain | framework/common/src/main/java/de/axelfaust/alfresco/enhScriptEnv/common/webscripts/processor/EnhancedJSScriptProcessor.java:405-438 | the two queries agree: the location is the last element of the call chain |
| CallChains.InheritCallChain | framework/common/src/main/java/de/axelfaust/alfresco/enhScriptEnv/common/webscripts/processor/EnhancedJSScriptProcessor.java:445-464 | a null parent, an already initialised current context and a parent without chain each fail, exactly in those cases; otherwise the current context gets the parent's chain and suspended stacks are untouched |
| CallChains.EnterScope | framework/common/src/main/java/de/axelfaust/alfresco/enhScriptEnv/common/webscripts/processor/EnhancedJSScriptProcessor.java:175-184 | the reference is appended to the existing chain, or to a fresh one created by before-execution (and only then `newChain` is set); the location is then that reference; no other context's chain and no suspended stack changes |
| CallChains.ExitScope | framework/common/src/main/java/de/axelfaust/alfresco/enhScriptEnv/common/webscripts/processor/EnhancedJSScriptProcessor.java:228-235 | the `finally` block keeps the registry invariant |
| CallChains.EnterThenExitRestores | framework/common/src/main/java/de/axelfaust/alfresco/enhScriptEnv/common/webscripts/processor/EnhancedJSScriptProcessor.java:175-235 | a balanced `executeInScope` leaves the registry exactly as it found it: chain existence, contents and every suspended stack |
| CallChains.EnterExecution | framework/common/src/main/java/de/axelfaust/alfresco/enhScriptEnv/common/webscripts/processor/EnhancedJSScriptProcessor.java:559-560 | `executeScript` runs with a call chain holding only its own script |
| CallChains.ExecutionRestores | framework/common/src/main/java/de/axelfaust/alfresco/enhScriptEnv/common/webscripts/processor/EnhancedJSScriptProcessor.java:559-567 | after `executeScript` the registry is the one it started from |
| CallChains.NestedFramesUnwind | framework/common/src/main/java/de/axelfaust/alfresco/enhScriptEnv/common/webscripts/processor/EnhancedJSScriptProcessor.java:175-235 | nested executions see the innermost script as location, and unwinding returns to the outer one and then to no location |
| CallChains.ReentryRestoresOuterChain | framework/common/src/main/java/de/axelfaust/alfresco/enhScriptEnv/common/webscripts/processor/EnhancedJSScriptProcessor.java:549-574 | a top-level execution started inside another one suspends the outer chain and brings it back exactly |
| ScriptProcessor.FirstReferencePath | framework/common/src/main/java/de/axelfaust/alfresco/enhScriptEnv/common/webscripts/processor/EnhancedJSScriptProcessor.java:672-679 | the real path is taken from the first path type of the succession that is supported and yields a path, and none is taken exactly when no type does |
| ScriptProcessor.FileBeforeStore | framework/common/src/main/java/de/axelfaust/alfresco/enhScriptEnv/common/webscripts/processor/EnhancedJSScriptProcessor.java:85-86 | a file path wins over a store path, a store path is used only without a file path, and without either there is none |
| ScriptProcessor.FallbackPath | framework/common/src/main/java/de/axelfaust/alfresco/enhScriptEnv/common/webscripts/processor/EnhancedJSScriptProcessor.java:683-722 | without file or store path, a path that is neither in classpath form nor equal to the classpath reference is taken as is; otherwise the result is a class-loader resource or the path itself |
| ScriptProcessor.MatchesClasspathForm | framework/common/src/main/java/de/axelfaust/alfresco/enhScriptEnv/common/webscripts/processor/EnhancedJSScriptProcessor.java:690 | a path matches the classpath form exactly when it starts with `classpath:` or `classpath*:` and holds no line terminator, which `.` does not match |
| ScriptProcessor.IndexOfChar | framework/common/src/main/java/de/axelfaust/alfresco/enhScriptEnv/common/webscripts/processor/EnhancedJSScriptProcessor.java:706 | `indexOf` gives the first position of the character, or -1 exactly when it is absent |
| ScriptProcessor.RealPath | framework/common/src/main/java/de/axelfaust/alfresco/enhScriptEnv/common/webscripts/processor/EnhancedJSScriptProcessor.java:669-723 | the cache key is the first reference path of the succession when there is one, and the fallback path otherwise |
| ScriptProcessor.DynamicScriptKeyIsItsName | framework/common/src/main/java/de/axelfaust/alfresco/enhScriptEnv/common/webscripts/processor/EnhancedJSScriptProcessor.java:651-665 | a source string is cached under its generated name, so sources with different digests never share a key |
| ScriptProcessor.ToReferenceScript | framework/common/src/main/java/de/axelfaust/alfresco/enhScriptEnv/common/webscripts/processor/EnhancedJSScriptProcessor.java:651-665 | a source string becomes a dynamic script holding that source, named `string:///DynamicJS-` followed by its digest and `.js`, offering no reference path, neither cachable nor secure |
| ScriptProcessor.UsesCache | framework/common/src/main/java/de/axelfaust/alfresco/enhScriptEnv/common/webscripts/processor/EnhancedJSScriptProcessor.java:729 | a cache is used only with compilation on and no debugger, and then exactly for a dynamic or cachable script |
| ScriptProcessor.DefaultsUseCache | framework/common/src/main/java/de/axelfaust/alfresco/enhScriptEnv/common/webscripts/processor/EnhancedJSScriptProcessor.java:88-115 | with the field initialisers the cache is used exactly for dynamic or cachable scripts, compilation starts at the interpreted level with failover on, scopes are shared and the bound is 200 |
| ScriptProcessor.LookupScriptCache | framework/common/src/main/java/de/axelfaust/alfresco/enhScriptEnv/common/webscripts/processor/EnhancedJSScriptProcessor.java:852-865 | a cached script is found exactly when a non-null script is stored under the key; a stored `null` reads as a miss |
| ScriptProcessor.StoreFor | framework/common/src/main/java/de/axelfaust/alfresco/enhScriptEnv/common/webscripts/processor/EnhancedJSScriptProcessor.java:753-757 | a dynamic script is stored only in the dynamic script cache, any other only in the script cache |
| ScriptProcessor.GetCompiledScript | framework/common/src/main/java/de/axelfaust/alfresco/enhScriptEnv/common/webscripts/processor/EnhancedJSScriptProcessor.java:667-767 | without the gate no cache is read or written; dynamic scripts touch only the dynamic cache and others only the script cache; a hit returns the cached script without compiling; on a miss a failed load gives the load error, an empty real path the path error, and otherwise the failover outcome decides: its exception becomes the compilation error, its script or `null` is returned as compiled; a compile under the gate stores its result under the real path; a compiled script comes from the highest level that did not fail over, or from the single interpreted attempt |
| ScriptProcessor.FirstSuccessfulLevel | framework/common/src/main/java/de/axelfaust/alfresco/enhScriptEnv/common/webscripts/processor/EnhancedJSScriptProcessor.java:781-826 | a script returned by compilation was produced at the highest level, from the configured one down, whose attempt did not fail over; without optimizing compilation at the interpreted level |
| ScriptProcessor.SecondCompileHitsCache | framework/common/src/main/java/de/axelfaust/alfresco/enhScriptEnv/common/webscripts/processor/EnhancedJSScriptProcessor.java:726-757 | compiling the same script a second time under the gate is a hit that returns the first result and leaves the caches as they were |
| ScriptProcessor.NullResultIsCachedButMisses | framework/common/src/main/java/de/axelfaust/alfresco/enhScriptEnv/common/webscripts/processor/EnhancedJSScriptProcessor.java:753-757 | a `null` compile result is stored under the real path, yet the next call compiles again |
| ScriptProcessor.Reset | framework/common/src/main/java/de/axelfaust/alfresco/enhScriptEnv/common/webscripts/processor/EnhancedJSScriptProcessor.java:591-611 | after a reset both caches are empty, so no lookup in either finds a script |
| ScriptProcessor.ClearScriptCache | framework/common/src/main/java/de/axelfaust/alfresco/enhScriptEnv/common/webscripts/processor/EnhancedJSScriptProcessor.java:593-601 | the script cache is empty afterwards and the dynamic script cache is untouched |
| ScriptProcessor.ClearDynamicScriptCache | framework/common/src/main/java/de/axelfaust/alfresco/enhScriptEnv/common/webscripts/processor/EnhancedJSScriptProcessor.java:602-610 | the dynamic script cache is empty afterwards and the script cache is untouched |
| ScriptProcessor.ResetForcesCompilation | framework/common/src/main/java/de/axelfaust/alfresco/enhScriptEnv/common/webscripts/processor/EnhancedJSScriptProcessor.java:591-611 | after a reset every script is compiled anew |
| ScriptProcessor.ContentExecutionScope | framework/common/src/main/java/de/axelfaust/alfresco/enhScriptEnv/common/webscripts/processor/EnhancedJSScriptProcessor.java:294-326 | a scriptable scope argument is used as is; a `null` argument gets a new scope and a host object is wrapped; a shared scope is used exactly when scopes are shared; the shared scope is the unrestricted one, and a fresh scope is trusted, exactly when the content is secure |
| ScriptProcessor.StringExecutionScope | framework/common/src/main/java/de/axelfaust/alfresco/enhScriptEnv/common/webscripts/processor/EnhancedJSScriptProcessor.java:189-221 | a script given as a source string never gets the unrestricted shared scope or a trusted fresh scope |
| ScriptProcessor.ExecuteInScope | framework/common/src/main/java/de/axelfaust/alfresco/enhScriptEnv/common/webscripts/processor/EnhancedJSScriptProcessor.java:259-357 | a compile error is passed on and leaves the call chains untouched; a `null` script fails when executed (line 1034, wrapped at 342-346); otherwise the script runs with itself as location in the scope chosen for its content, with the caches the compile left, and the registry is restored afterwards |
| ScriptProcessor.ExecuteStringInScope | framework/common/src/main/java/de/axelfaust/alfresco/enhScriptEnv/common/webscripts/processor/EnhancedJSScriptProcessor.java:154-252 | an empty source is refused, and only an empty source gets that error; otherwise the source is compiled as its dynamic script and the run fails exactly when that compile fails or gives `null`, and succeeds with the compiled script and the caches it left; the chains are restored, the script cache is untouched and the scope is never trusted |
| ScriptProcessor.RepeatedSourceHitsCache | framework/common/src/main/java/de/axelfaust/alfresco/enhScriptEnv/common/webscripts/processor/EnhancedJSScriptProcessor.java:154-160 | running the same source string twice with compilation on and no debugger reuses the script compiled by the first run |
| ScriptProcessor.ExecuteScript | framework/common/src/main/java/de/axelfaust/alfresco/enhScriptEnv/common/webscripts/processor/EnhancedJSScriptProcessor.java:549-574 | a compile error is passed on and leaves the chains untouched; a `null` script fails when executed (line 1034, wrapped at 998-1001); otherwise the script runs as its own location, with the caches the compile left, and the registry is restored afterwards |
| ArgumentCorrection.CorrectArguments | framework/common/src/main/java/de/axelfaust/alfresco/enhScriptEnv/common/script/aop/NativeJavaMethodArgumentCorrectingInterceptor.java:42-54 | the array keeps its length; a slot changes exactly when it holds an adapter whose backing object is cached, and then it holds that cached wrapper; every other slot is unchanged |
| ArgumentCorrection.Invoke | framework/common/src/main/java/de/axelfaust/alfresco/enhScriptEnv/common/script/aop/NativeJavaMethodArgumentCorrectingInterceptor.java:37-59 | the invocation proceeds once, with the corrected arguments, and its result is returned unchanged; the cache is only read |
| ArgumentCorrection.CorrectionIsIdempotent | framework/common/src/main/java/de/axelfaust/alfresco/enhScriptEnv/common/script/aop/NativeJavaMethodArgumentCorrectingInterceptor.java:43-54 | correcting corrected arguments changes nothing more |
| ArgumentCorrection.NothingToCorrect | framework/common/src/main/java/de/axelfaust/alfresco/enhScriptEnv/common/script/aop/NativeJavaMethodArgumentCorrectingInterceptor.java:45-52 | without adapters whose backing object is cached, the call sees exactly the arguments it was given |
| ArgumentCorrection.CorrectionDistributes | framework/common/src/main/java/de/axelfaust/alfresco/enhScriptEnv/common/script/aop/NativeJavaMethodArgumentCorrectingInterceptor.java:43-54 | each slot is corrected independently of the others |
| ArrayFunctionName.FirstMatch | framework/common/src/main/java/de/axelfaust/alfresco/enhScriptEnv/common/script/aop/NativeArrayFunctionName.java:28-35 | the result is the first literal, in the given order, whose name equals the input ignoring case, and none exactly when no name matches |
| ArrayFunctionName.EqualsIgnoreCase | framework/common/src/main/java/de/axelfaust/alfresco/enhScriptEnv/common/script/aop/NativeArrayFunctionName.java:30 | `equalsIgnoreCase` is false for `null`, true for the same string, and true only for strings of the same length |
| ArrayFunctionName.FunctionLiteralOf | framework/common/src/main/java/de/axelfaust/alfresco/enhScriptEnv/common/script/aop/NativeArrayFunctionName.java:24-38 | a result other than `UNKNOWN` matches the input ignoring case; no match, and in particular `null`, gives `UNKNOWN` |
| ArrayFunctionName.MatchIsSpelling | framework/common/src/main/java/de/axelfaust/alfresco/enhScriptEnv/common/script/aop/NativeArrayFunctionName.java:30 | matching an upper-case name ignoring case is spelling it in some letter case |
| ArrayFunctionName.SpellingIsUnique | framework/common/src/main/java/de/axelfaust/alfresco/enhScriptEnv/common/script/aop/NativeArrayFunctionName.java:22 | no string spells two of the enum's names |
| ArrayFunctionName.AnyCasingFindsLiteral | framework/common/src/main/java/de/axelfaust/alfresco/enhScriptEnv/common/script/aop/NativeArrayFunctionName.java:28-35 | looking up a literal's name in any letter case returns that literal |
| ArrayFunctionName.RecognisedNameIsSpelled | framework/common/src/main/java/de/axelfaust/alfresco/enhScriptEnv/common/script/aop/NativeArrayFunctionName.java:30-33 | a result other than `UNKNOWN` is spelled by the input, and it is the only literal the input spells |
| ArrayFunctionName.MixedCaseExample | framework/common/src/main/java/de/axelfaust/alfresco/enhScriptEnv/common/script/aop/NativeArrayFunctionName.java:24-38 | `UnShift` finds `UNSHIFT` |
| ArrayFunctionName.UnnamedIsUnknown | framework/common/src/main/java/de/axelfaust/alfresco/enhScriptEnv/common/script/aop/NativeArrayFunctionName.java:26-37 | `slice` and `null` give `UNKNOWN` |
| ClasspathScript.StripClasspathPrefix | framework/repository/src/main/java/de/axelfaust/alfresco/enhScriptEnv/repo/script/registry/ClasspathRegisterableScript.java:62-63 | a path starting with `classpath:` loses exactly that prefix, and any other path is kept |
| ClasspathScript.StripsOnlyOnce | framework/repository/src/main/java/de/axelfaust/alfresco/enhScriptEnv/repo/script/registry/ClasspathRegisterableScript.java:63 | a doubled prefix leaves one `classpath:` behind |
| ClasspathScript.AfterPropertiesSet | framework/repository/src/main/java/de/axelfaust/alfresco/enhScriptEnv/repo/script/registry/ClasspathRegisterableScript.java:35-38 | initialisation fails exactly when the script resource is missing |
| ClasspathScript.GetScriptInstance | framework/repository/src/main/java/de/axelfaust/alfresco/enhScriptEnv/repo/script/registry/ClasspathRegisterableScript.java:60-66 | the location's path is the resource path, or the resource path with exactly one prefix removed, the latter exactly when it had the prefix |
| ClasspathScript.CompareStrings | framework/repository/src/main/java/de/axelfaust/alfresco/enhScriptEnv/repo/script/registry/ClasspathRegisterableScript.java:52 | `String.compareTo` is zero exactly for equal strings |
| ClasspathScript.CompareSignIsLexLess | framework/repository/src/main/java/de/axelfaust/alfresco/enhScriptEnv/repo/script/registry/ClasspathRegisterableScript.java:52 | `String.compareTo` is negative exactly when the first string precedes the second lexicographically |
| ClasspathScript.CompareAntisymmetric | framework/repository/src/main/java/de/axelfaust/alfresco/enhScriptEnv/repo/script/registry/ClasspathRegisterableScript.java:52 | swapping the operands negates the comparison |
| ClasspathScript.CompareTransitive | framework/repository/src/main/java/de/axelfaust/alfresco/enhScriptEnv/repo/script/registry/ClasspathRegisterableScript.java:52 | comparison is transitive in sign |
| ClasspathScript.CompareTo | framework/repository/src/main/java/de/axelfaust/alfresco/enhScriptEnv/repo/script/registry/ClasspathRegisterableScript.java:45-53 | scripts compare as zero exactly when their stripped paths are equal, and as negative exactly when the stripped path precedes lexicographically |
| ClasspathScript.CompareToIsOrdering | framework/repository/src/main/java/de/axelfaust/alfresco/enhScriptEnv/repo/script/registry/ClasspathRegisterableScript.java:45-53 | the script ordering is zero on self, antisymmetric and transitive |
| ClasspathScript.PrefixedAndBarePathsCompareEqual | framework/repository/src/main/java/de/axelfaust/alfresco/enhScriptEnv/repo/script/registry/ClasspathRegisterableScript.java:45-63 | `classpath:x` and `x` name the same location and compare as equal |
| Converters.MapFacadeForJavaConfidence | framework/common/src/main/java/org/nabucco/alfresco/enhScriptEnv/common/script/converter/rhino/ScriptableFacadeMapConverter.java:74-80 | Java-direction confidence is the lowest, whatever the classes |
| Converters.MapFacadeCanConvertForJava | framework/common/src/main/java/org/nabucco/alfresco/enhScriptEnv/common/script/converter/rhino/ScriptableFacadeMapConverter.java:86-90 | the facade converter never offers a Java conversion |
| Converters.MapFacadeConvertForJava | framework/common/src/main/java/org/nabucco/alfresco/enhScriptEnv/common/script/converter/rhino/ScriptableFacadeMapConverter.java:96-100 | a Java conversion is always refused as unsupported |
| Converters.MapFacadeForScriptConfidence | framework/common/src/main/java/org/nabucco/alfresco/enhScriptEnv/common/script/converter/rhino/ScriptableFacadeMapConverter.java:107-119 | script confidence is low exactly for a map offered where a scriptable is accepted, otherwise the lowest, never the highest |
| Converters.MapFacadeCanConvertForScript | framework/common/src/main/java/org/nabucco/alfresco/enhScriptEnv/common/script/converter/rhino/ScriptableFacadeMapConverter.java:125-129 | the facade converter offers a script conversion exactly when its confidence for the value's class ranks above the lowest, and never for `null` |
| Converters.MapFacadeConvertForScript | framework/common/src/main/java/org/nabucco/alfresco/enhScriptEnv/common/script/converter/rhino/ScriptableFacadeMapConverter.java:135-163 | a non-map (or `null`) is an illegal argument, and only that; a map becomes a facade over it |
| Converters.MapFacadeJavaSideConsistent | framework/common/src/main/java/org/nabucco/alfresco/enhScriptEnv/common/script/converter/rhino/ScriptableFacadeMapConverter.java:74-100 | on the Java side applicability agrees with the confidence, and a conversion attempted anyway fails |
| Converters.MapFacadeCanConvertMeansConverts | framework/common/src/main/java/org/nabucco/alfresco/enhScriptEnv/common/script/converter/rhino/ScriptableFacadeMapConverter.java:125-140 | whenever a script conversion is offered it succeeds |
| Converters.AssociationForJavaConfidence | framework/repository/src/main/java/de/axelfaust/alfresco/enhScriptEnv/repo/script/converter/rhino/AssociationConverter.java:93-105 | Java confidence is the highest exactly for an association offered where an association reference is accepted, otherwise the lowest |
| Converters.AssociationCanConvertForJava | framework/repository/src/main/java/de/axelfaust/alfresco/enhScriptEnv/repo/script/converter/rhino/AssociationConverter.java:111-115 | applicability for Java agrees with the highest confidence on the value's class, and is false for `null` |
| Converters.AssociationConvertForJava | framework/repository/src/main/java/de/axelfaust/alfresco/enhScriptEnv/repo/script/converter/rhino/AssociationConverter.java:121-132 | a non-association is an illegal argument, and only that; an association yields its reference |
| Converters.AssociationForScriptConfidence | framework/repository/src/main/java/de/axelfaust/alfresco/enhScriptEnv/repo/script/converter/rhino/AssociationConverter.java:139-151 | script confidence is the highest exactly for an association reference offered where an association is accepted, otherwise the lowest |
| Converters.AssociationCanConvertForScript | framework/repository/src/main/java/de/axelfaust/alfresco/enhScriptEnv/repo/script/converter/rhino/AssociationConverter.java:157-161 | applicability for the script side agrees with the highest confidence on the value's class, and is false for `null` |
| Converters.AssociationConvertForScript | framework/repository/src/main/java/de/axelfaust/alfresco/enhScriptEnv/repo/script/converter/rhino/AssociationConverter.java:167-179 | a non-reference is an illegal argument, and only that; a reference is wrapped in a new association |
| Converters.AssociationRoundTrip | framework/repository/src/main/java/de/axelfaust/alfresco/enhScriptEnv/repo/script/converter/rhino/AssociationConverter.java:121-179 | wrapping a reference for the script side and converting it back for Java returns the reference |
| Converters.AssociationCanConvertMeansConverts | framework/repository/src/main/java/de/axelfaust/alfresco/enhScriptEnv/repo/script/converter/rhino/AssociationConverter.java:111-179 | whenever either direction offers a conversion, the conversion succeeds |

## Findings

| source | as written | input that shows it | evidently intended | confidence | as-written member | corrected member |
|---|---|---|---|---|---|---|
| framework/common/src/main/java/de/axelfaust/alfresco/enhScriptEnv/common/webscripts/processor/EnhancedJSScriptProcessor.java:874-882 | the eviction loop takes keys from one `keySet()` iterator but removes them with `cache.remove`, so the iterator's second `next()` throws `ConcurrentModificationException` | a cache of three entries, a bound of one, and a fresh key; this needs the bound lowered below the size by two, since each put adds at most one entry | evict the oldest entries until the bound holds, first in first out | low, not executed; no setter changes the bound, so only a subclass writing the protected field reaches it | ScriptCache.UpdateScriptCache, ScriptCache.ShrunkBoundFailsStore | ScriptCache.Store |

The rest of the model stores through `ScriptCache.Store`, the evidently intended eviction. `ScriptCache.UpdateScriptCache` proves that it agrees with `Store` whenever the cache was within its bound.

## Left out

- Locks and concurrency are not modelled. Every cache and registry operation is one sequential step. `reset` is two separate steps, `ClearScriptCache` then `ClearDynamicScriptCache`, and the model makes no claim that it is atomic.
- The guest engine is not modelled:
  - entering and leaving engine contexts;
  - running a script (`executeScriptImpl`, `executeScriptInScopeImpl`);
  - `setupScope` and the scope objects themselves;
  - the wrap factory;
  - the thread-local global converter;
  - logging and timing.
- Compilation itself is an oracle from source, path and optimization level to a script or an exception class.
- `resolveScriptImports` is not modelled: Java regex replacement is not worth encoding. The compiler oracle receives the loaded source, so import resolution is part of the oracle.
- The MD5 digest of a source string is an abstract function `digest`. The UTF-8 encoding error cannot occur.
- Class-loader resource lookup and `toExternalForm` are the oracle `resource`. Reading and decoding a script's content is the parameter `load`, where None stands for an I/O error.
- The converters' proxy construction and the building of an `Association` with the service registry are abstract results (`MapFacade`, `newAssociation`).
- Converter registration and the registry's dispatch among converters are not shown, so they are not modelled.
- `ScriptContentAdapter`, `DynamicScript` and `ClasspathScriptLocation` are not part of this model. The model assumes:
  - an adapter exposes the path of its content;
  - a dynamic script offers no reference path and is neither cachable nor secure;
  - a location's path is the string it was created with.
- `StateLockingDelegator`, the batch worker, the debugger wrapper, scope contributors and the script locator registry are out of scope: they are locking, delegation or behaviour-free interfaces.
- `null` is modelled for results the code tests: a cached or compiled `null` script, a missing chain, a null reference path, a null name. Null arguments are not modelled. This covers the null `source` refused at line 156 (only its empty case is modelled), the null `content` or `location` refused at lines 261, 365 and 551, the null `parentContext` at line 447, the null `path` and `source` at lines 771-773, a null current context, full name or class argument, and the script resource in `getScriptInstance`.
- `maxScriptCacheSize` is a natural number: the bound is assumed not to be negative. There is no setter, but a subclass can write the protected field.
- ScriptProcessor.GetCompiledScript: the debugger flag is read once, from `cfg`. The source reads it a second time when compiling (line 781), which in a sequential model gives the same value.
- ScriptProcessor.FallbackPath: states which paths are taken as is, and that the result is otherwise a class-loader result or the path itself. The choice between the classpath reference and the text after the first colon, and the retry without a leading `/`, are in its definition but not in its contract.
- CallChains.ExitScope: its contract states only the registry invariant. That it undoes `EnterScope` is stated by `CallChains.EnterThenExitRestores`.
- ClasspathScript.CompareStrings: compares Unicode scalar values, where Java compares UTF-16 code units. The two orders differ only for characters outside the Basic Multilingual Plane.
- ClasspathScript.CompareTo: the other script is assumed to be a classpath registerable script as well.
- ArrayFunctionName.FunctionLiteralOf: case folding is restricted to ASCII letters, instead of Java's full Unicode `equalsIgnoreCase`.
- ScriptProcessor.ExecuteScript: the scope chosen by the engine-side `executeScriptImpl` is not modelled.
- ScriptProcessor.ExecuteInScope: a failed execution returns only the error. The caches and the registry after a failure are not part of the result. A stored `null` is stated by `ScriptProcessor.GetCompiledScript`, and the restore of the registry in the `finally` blocks by `CallChains.EnterThenExitRestores`.
- ScriptProcessor.ExecuteScript: on failure likewise only the error is returned. The restore of the registry is stated by `CallChains.ExecutionRestores`.
- ScriptProcessor.ExecuteInScope: the returned caches are those the compile left. A running script can start further executions, which compile and cache other scripts through `updateScriptCache` (lines 725-760, 874-882) and can evict this script's entry. That caching is not reflected in the result.
- ScriptProcessor.ExecuteScript: likewise, its returned caches do not reflect caching done by executions the script starts while it runs.
