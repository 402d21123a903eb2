/** The compile-and-cache path of the JavaScript script processor: resolving the
    real path that keys the caches, deciding whether a cache is used at all,
    looking up or compiling and storing, resetting the caches, and choosing the
    scope a script runs in. The guest engine's compiler and the class loader are
    oracles passed in as functions. */
module ScriptProcessor {
  import opened Wrappers
  import ScriptCache
  import opened CompileFailover
  import CallChains

  // ---------------------------------------------------------------- script references

  /** Kinds of reference path a script can offer (`FILE`, `STORE`, `CLASSPATH`). */
  datatype PathType = FilePath | StorePath | ClasspathPath

  /** Path types tried, in order, for the real path of a script. */
  const RealPathSuccession: seq<PathType> := [FilePath, StorePath]

  /** A script given as a source string, a script content adapter with the path
      of its content, or any other script reference. */
  datatype ScriptKind = DynamicScript(source: string) | ContentAdapter(path: string) | OtherScript

  /** The parts of a script reference the processor reads. A path type in
      `supported` may still map to no path (`getReferencePath` returning null). */
  datatype ReferenceScript = ReferenceScript(
    kind: ScriptKind,
    fullName: string,
    supported: set<PathType>,
    referencePaths: map<PathType, string>,
    cachable: bool,
    secure: bool)

  /** `getReferencePath(type)`. */
  function ReferencePath(ref: ReferenceScript, t: PathType): Option<string> {
    if t in ref.referencePaths then Some(ref.referencePaths[t]) else None
  }

  /** Lines 672-679: the first path type in `types` that is supported and yields a
      path. */
  function FirstReferencePath(ref: ReferenceScript, types: seq<PathType>): (r: Option<string>)
    ensures r.Some? <==> exists i :: 0 <= i < |types| && types[i] in ref.supported && ReferencePath(ref, types[i]).Some?
    ensures r.Some? ==> exists i :: (0 <= i < |types| && types[i] in ref.supported && ReferencePath(ref, types[i]) == r
                                     && forall j :: 0 <= j < i ==> !(types[j] in ref.supported && ReferencePath(ref, types[j]).Some?))
  {
    if |types| == 0 then None
    else if types[0] in ref.supported && ReferencePath(ref, types[0]).Some? then ReferencePath(ref, types[0])
    else
      var r := FirstReferencePath(ref, types[1..]);
      assert forall i :: 1 <= i < |types| ==> types[i] == types[1..][i - 1];
      if r.Some? then
        var i :| 0 <= i < |types[1..]| && types[1..][i] in ref.supported && ReferencePath(ref, types[1..][i]) == r
          && forall j :: 0 <= j < i ==> !(types[1..][j] in ref.supported && ReferencePath(ref, types[1..][j]).Some?);
        assert types[i + 1] in ref.supported && ReferencePath(ref, types[i + 1]) == r;
        r
      else r
  }

  /** The real path taken from the succession: a file path wins over a store path. */
  lemma FileBeforeStore(ref: ReferenceScript)
    ensures FilePath in ref.supported && FilePath in ref.referencePaths ==>
      FirstReferencePath(ref, RealPathSuccession) == Some(ref.referencePaths[FilePath])
    ensures (!(FilePath in ref.supported && FilePath in ref.referencePaths)
             && StorePath in ref.supported && StorePath in ref.referencePaths) ==>
      FirstReferencePath(ref, RealPathSuccession) == Some(ref.referencePaths[StorePath])
    ensures (!(FilePath in ref.supported && FilePath in ref.referencePaths)
             && !(StorePath in ref.supported && StorePath in ref.referencePaths)) ==>
      FirstReferencePath(ref, RealPathSuccession) == None
  {
    assert RealPathSuccession[1..] == [StorePath];
    assert RealPathSuccession[1..][1..] == [];
  }

  predicate IsLineTerminator(ch: char) {
    ch == '\n' || ch == '\r' || ch == '\U{0085}' || ch == '\U{2028}' || ch == '\U{2029}'
  }

  predicate NoLineTerminator(s: string) {
    forall i :: 0 <= i < |s| ==> !IsLineTerminator(s[i])
  }

  /** `path.matches("^(classpath[*]?:).*$")`: a `classpath:` or `classpath*:` prefix
      followed by characters that `.` matches (anything but a line terminator). */
  function MatchesClasspathForm(path: string): (r: bool)
    ensures r <==> ("classpath:" <= path || "classpath*:" <= path) && NoLineTerminator(path)
  {
    || ("classpath:" <= path && NoLineTerminator(path[|"classpath:"|..]))
    || ("classpath*:" <= path && NoLineTerminator(path[|"classpath*:"|..]))
  }

  /** `s.indexOf(ch)`, -1 when absent. */
  function IndexOfChar(s: string, ch: char): (r: int)
    ensures -1 <= r < |s|
    ensures r == -1 <==> ch !in s
    ensures 0 <= r ==> s[r] == ch && ch !in s[..r]
  {
    if |s| == 0 then -1
    else if s[0] == ch then 0
    else
      var r := IndexOfChar(s[1..], ch);
      if r == -1 then -1
      else
        assert s[..r + 1] == [s[0]] + s[1..][..r];
        r + 1
  }

  /** Lines 683-722: without a file or store path, the path of the content (or the
      full name) is used as is unless it is in classpath form or equals the
      classpath reference path; then the class loader resolves it (retrying without
      a leading `/`), falling back to the path itself. `resource` is the class
      loader lookup followed by `toExternalForm`. */
  function FallbackPath(ref: ReferenceScript, resource: string -> Option<string>): (r: string)
    ensures var path := if ref.kind.ContentAdapter? then ref.kind.path else ref.fullName;
      && (!MatchesClasspathForm(path) && ReferencePath(ref, ClasspathPath) != Some(path) ==> r == path)
      && (r == path || exists q :: resource(q) == Some(r))
  {
    var path := if ref.kind.ContentAdapter? then ref.kind.path else ref.fullName;
    var classPath := ReferencePath(ref, ClasspathPath);
    if !MatchesClasspathForm(path) && classPath != Some(path) then path
    else
      var resourcePath := if classPath == Some(path) then path else path[IndexOfChar(path, ':') + 1..];
      var found :=
        if resource(resourcePath).Some? then resource(resourcePath)
        else if "/" <= resourcePath then resource(resourcePath[1..])
        else None;
      if found.Some? then found.value else path
  }

  /** The key under which a script is cached: the first reference path of the
      succession, else the fallback path. */
  function RealPath(ref: ReferenceScript, resource: string -> Option<string>): (r: string)
    ensures FirstReferencePath(ref, RealPathSuccession).Some? ==> r == FirstReferencePath(ref, RealPathSuccession).value
    ensures FirstReferencePath(ref, RealPathSuccession).None? ==> r == FallbackPath(ref, resource)
  {
    match FirstReferencePath(ref, RealPathSuccession)
    case Some(p) => p
    case None => FallbackPath(ref, resource)
  }

  /** Prefix of the name of a script given as a source string. */
  const DynamicNamePrefix: string := "string:///DynamicJS-"

  /** `toReferenceScript`: a source string becomes a dynamic script named after
      the digest of its source. A dynamic script offers no reference path and is
      neither cachable nor secure. */
  function ToReferenceScript(source: string, digest: string -> string): (r: ReferenceScript)
    ensures r.kind == DynamicScript(source)
    ensures DynamicNamePrefix <= r.fullName && r.fullName[|DynamicNamePrefix|..] == digest(source) + ".js"
    ensures FirstReferencePath(r, RealPathSuccession).None? && !r.cachable && !r.secure
  {
    PrefixOfName(DynamicNamePrefix, digest(source) + ".js");
    ReferenceScript(DynamicScript(source), DynamicNamePrefix + digest(source) + ".js", {}, map[], false, false)
  }

  /** A dynamic script is cached under its generated name, so byte-identical sources
      share a key, and sources with different digests get different keys. */
  lemma DynamicScriptKeyIsItsName(source: string, other: string, digest: string -> string, resource: string -> Option<string>)
    ensures RealPath(ToReferenceScript(source, digest), resource) == DynamicNamePrefix + digest(source) + ".js"
    ensures digest(source) != digest(other) ==>
      RealPath(ToReferenceScript(source, digest), resource) != RealPath(ToReferenceScript(other, digest), resource)
  {
    var name := DynamicNamePrefix + digest(source) + ".js";
    assert name[0] == 's';
    assert !("classpath:" <= name) && !("classpath*:" <= name) by {
      assert "classpath:"[0] == 'c' && "classpath*:"[0] == 'c';
    }
    var name' := DynamicNamePrefix + digest(other) + ".js";
    assert name'[0] == 's';
    assert !("classpath:" <= name') && !("classpath*:" <= name') by {
      assert "classpath:"[0] == 'c' && "classpath*:"[0] == 'c';
    }
    if digest(source) != digest(other) && name == name' {
      DigestFromName(digest(source), digest(other));
    }
  }

  lemma PrefixOfName(prefix: string, rest: string)
    ensures prefix <= prefix + rest && (prefix + rest)[|prefix|..] == rest
  {
    assert (prefix + rest)[..|prefix|] == prefix;
  }

  lemma DigestFromName(d: string, d': string)
    requires DynamicNamePrefix + d + ".js" == DynamicNamePrefix + d' + ".js"
    ensures d == d'
  {
    var n := DynamicNamePrefix + d + ".js";
    assert |d| == |d'|;
    assert d == n[|DynamicNamePrefix|..|DynamicNamePrefix| + |d|];
    assert d' == (DynamicNamePrefix + d' + ".js")[|DynamicNamePrefix|..|DynamicNamePrefix| + |d'|];
  }

  // ---------------------------------------------------------------- caches

  /** The processor settings read by the compile path and the scope choice. */
  datatype Config = Config(
    compileScripts: bool,
    debuggerActive: bool,
    failoverToLessOptimization: bool,
    optimizationLevel: int,
    maxScriptCacheSize: nat,
    shareScopes: bool)

  /** The field initialisers. */
  const DefaultConfig: Config := Config(true, false, true, -1, ScriptCache.DefaultMaxScriptCacheSize, true)

  /** A cached value may be `null`: the failover loop can return no script, and that
      `null` is stored like any other value. */
  type CompiledCache<S> = ScriptCache.Cache<string, Option<S>>

  /** `scriptCache` for scripts from real locations, `dynamicScriptCache` for scripts
      given as source strings. */
  datatype Caches<S> = Caches(scriptCache: CompiledCache<S>, dynamicScriptCache: CompiledCache<S>)

  /** Line 729 (and 753): a cache is consulted only with compilation on, no debugger
      attached, and a dynamic or cachable script. */
  function UsesCache(cfg: Config, ref: ReferenceScript): (r: bool)
    ensures r ==> cfg.compileScripts && !cfg.debuggerActive
    ensures cfg.compileScripts && !cfg.debuggerActive ==> (r <==> ref.kind.DynamicScript? || ref.cachable)
  {
    cfg.compileScripts && !cfg.debuggerActive && (ref.kind.DynamicScript? || ref.cachable)
  }

  /** With the field initialisers (lines 88-115) the cache is used for every dynamic
      or cachable script, compilation fails over from the interpreted level, and
      scopes are shared. */
  lemma DefaultsUseCache(ref: ReferenceScript)
    ensures UsesCache(DefaultConfig, ref) <==> ref.kind.DynamicScript? || ref.cachable
    ensures DefaultConfig.optimizationLevel == InterpretedLevel && DefaultConfig.failoverToLessOptimization
    ensures DefaultConfig.shareScopes && DefaultConfig.maxScriptCacheSize == 200
  {
  }

  /** The cache a script belongs to. */
  function CacheOf<S>(caches: Caches<S>, ref: ReferenceScript): CompiledCache<S> {
    if ref.kind.DynamicScript? then caches.dynamicScriptCache else caches.scriptCache
  }

  /** `lookupScriptCache`: `cache.get(key)`, where a stored `null` reads as a miss. */
  function LookupScriptCache<S>(cache: CompiledCache<S>, key: string): (r: Option<S>)
    ensures r.Some? <==> ScriptCache.Get(cache, key).Some? && ScriptCache.Get(cache, key).value.Some?
    ensures r.Some? ==> ScriptCache.Get(cache, key) == Some(Some(r.value))
  {
    var stored := ScriptCache.Get(cache, key);
    if stored.Some? && stored.value.Some? then Some(stored.value.value) else None
  }

  /** `updateScriptCache` on the cache the script belongs to; the other cache is
      not touched. */
  function StoreFor<S>(caches: Caches<S>, ref: ReferenceScript, key: string, script: Option<S>, maxSize: nat): (r: Caches<S>)
    ensures CacheOf(r, ref) == ScriptCache.Store(CacheOf(caches, ref), key, script, maxSize)
    ensures ref.kind.DynamicScript? ==> r.scriptCache == caches.scriptCache
    ensures !ref.kind.DynamicScript? ==> r.dynamicScriptCache == caches.dynamicScriptCache
  {
    if ref.kind.DynamicScript? then caches.(dynamicScriptCache := ScriptCache.Store(caches.dynamicScriptCache, key, script, maxSize))
    else caches.(scriptCache := ScriptCache.Store(caches.scriptCache, key, script, maxSize))
  }

  /** Errors raised on the compile path. */
  datatype ScriptError =
    | EmptySource                             // ParameterCheck on a source string
    | LoadFailed                              // IOException reading the content
    | EmptyPath                               // ParameterCheck on the path
    | CompilationFailed(cause: ExceptionClass) // compiler exception, wrapped
    | NullScriptExecuted                      // `script.exec` on a null script, wrapped

  /** The script handed back (possibly `null`), the caches afterwards, and whether
      the compiler was called. */
  datatype Fetch<S> = Fetch(script: Option<S>, caches: Caches<S>, compiled: bool)

  /** The compiler applied to one source and path, as a function of the level. */
  function Attempts<S>(compiler: (string, string, int) -> Attempt<S>, source: string, path: string): int -> Attempt<S> {
    (level: int) => compiler(source, path, level)
  }

  /** No usable script is cached for `ref`: the cache is bypassed, or holds nothing
      or a `null` under the real path. */
  predicate Misses<S>(cfg: Config, caches: Caches<S>, ref: ReferenceScript, resource: string -> Option<string>) {
    !(UsesCache(cfg, ref) && LookupScriptCache(CacheOf(caches, ref), RealPath(ref, resource)).Some?)
  }

  /** Lines 667-767 and 769-840: look the script up under its real path when the
      cache is used; on a miss, load and compile it and, when the cache is used,
      store the result (even a `null` one). `load` is the content read from the
      script (None for an I/O failure); `compiler` maps source, path and
      optimization level to an attempt. The debugger flag is read once, in `cfg`. */
  function GetCompiledScript<S>(cfg: Config, caches: Caches<S>, ref: ReferenceScript,
                                resource: string -> Option<string>, load: Option<string>,
                                compiler: (string, string, int) -> Attempt<S>): (r: Result<Fetch<S>, ScriptError>)
    ensures !UsesCache(cfg, ref) && r.Success? ==> r.value.caches == caches && r.value.compiled
    ensures ref.kind.DynamicScript? && r.Success? ==> r.value.caches.scriptCache == caches.scriptCache
    ensures !ref.kind.DynamicScript? && r.Success? ==> r.value.caches.dynamicScriptCache == caches.dynamicScriptCache
    ensures r.Success? && !r.value.compiled ==>
      && UsesCache(cfg, ref)
      && r.value.caches == caches
      && r.value.script.Some?
      && r.value.script == LookupScriptCache(CacheOf(caches, ref), RealPath(ref, resource))
    ensures r.Success? && r.value.compiled && UsesCache(cfg, ref) ==>
      CacheOf(r.value.caches, ref) == ScriptCache.Store(CacheOf(caches, ref), RealPath(ref, resource), r.value.script, cfg.maxScriptCacheSize)
    ensures (UsesCache(cfg, ref) && LookupScriptCache(CacheOf(caches, ref), RealPath(ref, resource)).Some?) ==>
      r.Success? && !r.value.compiled
    ensures Misses(cfg, caches, ref, resource) ==> (r == Failure(LoadFailed) <==> load.None?)
    ensures Misses(cfg, caches, ref, resource) && load.Some? ==> (r == Failure(EmptyPath) <==> |RealPath(ref, resource)| == 0)
    ensures Misses(cfg, caches, ref, resource) && load.Some? && 0 < |RealPath(ref, resource)| ==>
      var c := Compile(Attempts(compiler, load.value, RealPath(ref, resource)), cfg.compileScripts && !cfg.debuggerActive,
                       cfg.optimizationLevel, cfg.failoverToLessOptimization);
      && (r.Failure? <==> c.outcome.Failed?)
      && (c.outcome.Failed? ==> r == Failure(CompilationFailed(c.outcome.cause)))
      && (c.outcome.Script? ==> r.Success? && r.value.compiled && r.value.script == Some(c.outcome.script))
      && (c.outcome.NoScript? ==> r.Success? && r.value.compiled && r.value.script.None?)
    ensures r.Success? && r.value.compiled && r.value.script.Some? ==>
      && load.Some?
      && (cfg.compileScripts && !cfg.debuggerActive ==>
            exists l :: (InterpretedLevel <= l <= cfg.optimizationLevel
                         && compiler(load.value, RealPath(ref, resource), l) == Compiled(r.value.script.value)
                         && forall h :: l < h <= cfg.optimizationLevel ==>
                              FailsOver(compiler(load.value, RealPath(ref, resource), h), cfg.failoverToLessOptimization)))
      && (!(cfg.compileScripts && !cfg.debuggerActive) ==>
            compiler(load.value, RealPath(ref, resource), InterpretedLevel) == Compiled(r.value.script.value))
  {
    var realPath := RealPath(ref, resource);
    var cached := if UsesCache(cfg, ref) then LookupScriptCache(CacheOf(caches, ref), realPath) else None;
    if cached.Some? then Success(Fetch(cached, caches, false))
    else match load
      case None => Failure(LoadFailed)
      case Some(source) =>
        if |realPath| == 0 then Failure(EmptyPath)
        else
          var attempt := Attempts(compiler, source, realPath);
          var compilation := Compile(attempt, cfg.compileScripts && !cfg.debuggerActive,
                                     cfg.optimizationLevel, cfg.failoverToLessOptimization);
          match compilation.outcome
          case Failed(e) => Failure(CompilationFailed(e))
          case NoScript =>
            Success(Fetch(None, if UsesCache(cfg, ref) then StoreFor(caches, ref, realPath, None, cfg.maxScriptCacheSize) else caches, true))
          case Script(s) =>
            FirstSuccessfulLevel(compiler, source, realPath, cfg.compileScripts && !cfg.debuggerActive, cfg.optimizationLevel,
                                 cfg.failoverToLessOptimization, s);
            Success(Fetch(Some(s), if UsesCache(cfg, ref) then StoreFor(caches, ref, realPath, Some(s), cfg.maxScriptCacheSize) else caches, true))
  }

  /** Where a compiled script comes from: with failover, the highest level from the
      configured one down whose attempt did not fail over; otherwise the single
      attempt at the interpreted level. */
  lemma FirstSuccessfulLevel<S>(compiler: (string, string, int) -> Attempt<S>, source: string, path: string,
                                 optimizing: bool, level: int, failover: bool, s: S)
    requires Compile(Attempts(compiler, source, path), optimizing, level, failover).outcome == Script(s)
    ensures optimizing ==>
      exists l :: (InterpretedLevel <= l <= level && compiler(source, path, l) == Compiled(s)
                   && forall h :: l < h <= level ==> FailsOver(compiler(source, path, h), failover))
    ensures !optimizing ==> compiler(source, path, InterpretedLevel) == Compiled(s)
  {
    var attempt := Attempts(compiler, source, path);
    if optimizing {
      ScriptIsFirstSuccess(attempt, level, failover, s);
      var l :| InterpretedLevel <= l <= level && attempt(l) == Compiled(s)
        && forall h :: l < h <= level ==> FailsOver(attempt(h), failover);
      assert compiler(source, path, l) == Compiled(s);
      forall h | l < h <= level ensures FailsOver(compiler(source, path, h), failover) {
        assert attempt(h) == compiler(source, path, h);
      }
    }
  }

  /** Compiling the same script twice: the second call is a cache hit that returns
      the script compiled by the first call and calls no compiler, as long as the
      cache is used, has room for at least one entry and was within its bound. */
  lemma SecondCompileHitsCache<S>(cfg: Config, caches: Caches<S>, ref: ReferenceScript,
                                  resource: string -> Option<string>, load: Option<string>, load': Option<string>,
                                  compiler: (string, string, int) -> Attempt<S>, compiler': (string, string, int) -> Attempt<S>)
    requires UsesCache(cfg, ref) && 0 < cfg.maxScriptCacheSize
    requires |CacheOf(caches, ref)| <= cfg.maxScriptCacheSize
    requires var r := GetCompiledScript(cfg, caches, ref, resource, load, compiler);
      r.Success? && r.value.script.Some?
    ensures var first := GetCompiledScript(cfg, caches, ref, resource, load, compiler).value;
      GetCompiledScript(cfg, first.caches, ref, resource, load', compiler') == Success(Fetch(first.script, first.caches, false))
  {
    var first := GetCompiledScript(cfg, caches, ref, resource, load, compiler).value;
    var key := RealPath(ref, resource);
    if first.compiled {
      assert ScriptCache.Get(CacheOf(first.caches, ref), key) == Some(first.script);
    }
  }

  /** A `null` result is cached too: it occupies an entry under the real path, yet
      reads as a miss, so the next call compiles again. */
  lemma NullResultIsCachedButMisses<S>(cfg: Config, caches: Caches<S>, ref: ReferenceScript,
                                       resource: string -> Option<string>, load: Option<string>, load': Option<string>,
                                       compiler: (string, string, int) -> Attempt<S>, compiler': (string, string, int) -> Attempt<S>)
    requires UsesCache(cfg, ref) && 0 < cfg.maxScriptCacheSize
    requires |CacheOf(caches, ref)| <= cfg.maxScriptCacheSize
    requires var r := GetCompiledScript(cfg, caches, ref, resource, load, compiler);
      r.Success? && r.value.script.None?
    ensures var first := GetCompiledScript(cfg, caches, ref, resource, load, compiler).value;
      && ScriptCache.Get(CacheOf(first.caches, ref), RealPath(ref, resource)) == Some(None)
      && var second := GetCompiledScript(cfg, first.caches, ref, resource, load', compiler');
         second.Success? ==> second.value.compiled
  {
  }

  // ---------------------------------------------------------------- reset

  /** First half of `reset`: the script cache is cleared under its own lock. */
  function ClearScriptCache<S>(caches: Caches<S>): (r: Caches<S>)
    ensures forall key :: ScriptCache.Get(r.scriptCache, key).None?
    ensures r.scriptCache == [] && r.dynamicScriptCache == caches.dynamicScriptCache
  {
    caches.(scriptCache := [])
  }

  /** Second half of `reset`: the dynamic script cache is cleared under its own lock. */
  function ClearDynamicScriptCache<S>(caches: Caches<S>): (r: Caches<S>)
    ensures forall key :: ScriptCache.Get(r.dynamicScriptCache, key).None?
    ensures r.dynamicScriptCache == [] && r.scriptCache == caches.scriptCache
  {
    caches.(dynamicScriptCache := [])
  }

  /** `reset`: two separate steps, one per cache; between them the script cache is
      already empty while the dynamic script cache is not yet cleared. */
  function Reset<S>(caches: Caches<S>): (r: Caches<S>)
    ensures r.scriptCache == [] && r.dynamicScriptCache == []
    ensures forall key :: LookupScriptCache(r.scriptCache, key).None? && LookupScriptCache(r.dynamicScriptCache, key).None?
  {
    ClearDynamicScriptCache(ClearScriptCache(caches))
  }

  /** After a reset every script is compiled anew, whatever was cached before. */
  lemma ResetForcesCompilation<S>(cfg: Config, caches: Caches<S>, ref: ReferenceScript,
                                  resource: string -> Option<string>, load: Option<string>,
                                  compiler: (string, string, int) -> Attempt<S>)
    ensures var r := GetCompiledScript(cfg, Reset(caches), ref, resource, load, compiler);
      r.Success? ==> r.value.compiled
  {
  }

  // ---------------------------------------------------------------- scopes

  /** The `scope` argument of `executeInScope`. */
  datatype ScopeArgument = NullScope | HostObject | ScriptableScope

  /** Which shared scope a script gets. */
  datatype SharedScope = RestrictedShared | UnrestrictedShared

  /** The scope a script runs in: a new object whose prototype is a shared scope, a
      freshly set-up scope, the host object wrapped with a shared or fresh scope as
      prototype, or the scriptable scope passed in. */
  datatype ExecutionScope =
    | SharedChild(shared: SharedScope)
    | FreshScope(trustworthy: bool)
    | HostObjectOnShared(shared: SharedScope)
    | HostObjectOnFresh(trustworthy: bool)
    | GivenScope

  /** Lines 294-326: the scope for a script content, trusted as far as the content is
      secure. */
  function ContentExecutionScope(arg: ScopeArgument, shareScopes: bool, secure: bool): (r: ExecutionScope)
    ensures arg == ScriptableScope <==> r == GivenScope
    ensures (r == SharedChild(UnrestrictedShared) || r == HostObjectOnShared(UnrestrictedShared)
             || r == FreshScope(true) || r == HostObjectOnFresh(true)) ==> secure
    ensures arg != ScriptableScope ==> (shareScopes <==> r.SharedChild? || r.HostObjectOnShared?)
    ensures (r.SharedChild? || r.HostObjectOnShared?) ==> (r.shared == UnrestrictedShared <==> secure)
    ensures (r.FreshScope? || r.HostObjectOnFresh?) ==> (r.trustworthy <==> secure)
    ensures arg == NullScope ==> r.SharedChild? || r.FreshScope?
    ensures arg == HostObject ==> r.HostObjectOnShared? || r.HostObjectOnFresh?
  {
    var shared := if secure then UnrestrictedShared else RestrictedShared;
    match arg
    case NullScope => if shareScopes then SharedChild(shared) else FreshScope(secure)
    case HostObject => if shareScopes then HostObjectOnShared(shared) else HostObjectOnFresh(secure)
    case ScriptableScope => GivenScope
  }

  /** Lines 189-221: a script given as a source string is never trusted. */
  function StringExecutionScope(arg: ScopeArgument, shareScopes: bool): (r: ExecutionScope)
    ensures r != SharedChild(UnrestrictedShared) && r != HostObjectOnShared(UnrestrictedShared)
    ensures r != FreshScope(true) && r != HostObjectOnFresh(true)
  {
    ContentExecutionScope(arg, shareScopes, false)
  }

  // ---------------------------------------------------------------- execution

  /** One successful execution as far as the processor's bookkeeping goes: the compiled script,
      the caches as the compile left them, the call-chain registry after the `finally` block,
      the scope chosen (absent when the engine-side implementation chooses it), and
      the script location seen while the script runs. Running the script is left to the
      engine: executions it starts in turn may compile and cache further scripts, which
      `caches` does not reflect; their effect on the registry is balanced and undone. */
  datatype Execution<S, X> = Execution(
    script: S,
    caches: Caches<S>,
    chains: CallChains.Chains<X, ReferenceScript>,
    scope: Option<ExecutionScope>,
    location: Option<ReferenceScript>)

  /** `executeInScope` for a script content (lines 259-357) on execution context
      `cx`: the script is compiled (or taken from the cache) before any chain is
      touched, so a compile error leaves the registry alone; then the reference is
      pushed, the scope chosen, and the `finally` block pops again. A `null` script
      (every failover level failed, now or in an earlier call whose `null` was
      cached) makes `script.exec` (line 1034) throw, and the exception is wrapped
      (lines 342-346). */
  function ExecuteInScope<S, X>(cfg: Config, caches: Caches<S>, chains: CallChains.Chains<X, ReferenceScript>, cx: X,
                                ref: ReferenceScript, load: Option<string>, scope: ScopeArgument,
                                resource: string -> Option<string>,
                                compiler: (string, string, int) -> Attempt<S>): (r: Result<Execution<S, X>, ScriptError>)
    requires CallChains.Valid(chains)
    ensures var fetched := GetCompiledScript(cfg, caches, ref, resource, load, compiler);
      && (r.Failure? <==> fetched.Failure? || fetched.value.script.None?)
      && (fetched.Failure? ==> r == Failure(fetched.error))
      && (fetched.Success? && fetched.value.script.None? ==> r == Failure(NullScriptExecuted))
      && (r.Success? ==> Some(r.value.script) == fetched.value.script && r.value.caches == fetched.value.caches)
    ensures r.Success? ==> r.value.chains == chains
    ensures r.Success? ==> r.value.location == Some(ref)
    ensures r.Success? ==> r.value.scope == Some(ContentExecutionScope(scope, cfg.shareScopes, ref.secure))
  {
    match GetCompiledScript(cfg, caches, ref, resource, load, compiler)
    case Failure(e) => Failure(e)
    case Success(fetch) =>
      if fetch.script.None? then Failure(NullScriptExecuted)
      else
        var (entered, newChain) := CallChains.EnterScope(chains, cx, ref);
        CallChains.EnterThenExitRestores(chains, cx, ref);
        Success(Execution(fetch.script.value, fetch.caches, CallChains.ExitScope(entered, cx, newChain),
                          Some(ContentExecutionScope(scope, cfg.shareScopes, ref.secure)),
                          CallChains.ContextScriptLocation(entered, cx)))
  }

  /** `executeInScope` for a source string (lines 154-252): an empty source is
      refused; otherwise the string becomes a dynamic script, which is never
      trusted and is cached only in the dynamic script cache. */
  function ExecuteStringInScope<S, X>(cfg: Config, caches: Caches<S>, chains: CallChains.Chains<X, ReferenceScript>, cx: X,
                                      source: string, scope: ScopeArgument, digest: string -> string,
                                      resource: string -> Option<string>,
                                      compiler: (string, string, int) -> Attempt<S>): (r: Result<Execution<S, X>, ScriptError>)
    requires CallChains.Valid(chains)
    ensures r == Failure(EmptySource) <==> |source| == 0
    ensures 0 < |source| ==>
      var fetched := GetCompiledScript(cfg, caches, ToReferenceScript(source, digest), resource, Some(source), compiler);
      && (r.Failure? <==> fetched.Failure? || fetched.value.script.None?)
      && (r.Success? ==> Some(r.value.script) == fetched.value.script && r.value.caches == fetched.value.caches)
    ensures r.Success? ==> r.value.chains == chains && r.value.location == Some(ToReferenceScript(source, digest))
    ensures r.Success? ==> r.value.caches.scriptCache == caches.scriptCache
    ensures r.Success? ==>
      && r.value.scope.Some?
      && r.value.scope.value != SharedChild(UnrestrictedShared) && r.value.scope.value != HostObjectOnShared(UnrestrictedShared)
      && r.value.scope.value != FreshScope(true) && r.value.scope.value != HostObjectOnFresh(true)
  {
    if |source| == 0 then Failure(EmptySource)
    else ExecuteInScope(cfg, caches, chains, cx, ToReferenceScript(source, digest), Some(source), scope, resource, compiler)
  }

  /** Running the same source string twice with compilation on and no debugger: the
      second run takes the script compiled by the first from the dynamic script
      cache and leaves the caches as they were. */
  lemma RepeatedSourceHitsCache<S, X>(cfg: Config, caches: Caches<S>, chains: CallChains.Chains<X, ReferenceScript>, cx: X,
                                      source: string, scope: ScopeArgument, scope': ScopeArgument, digest: string -> string,
                                      resource: string -> Option<string>,
                                      compiler: (string, string, int) -> Attempt<S>, compiler': (string, string, int) -> Attempt<S>)
    requires CallChains.Valid(chains)
    requires cfg.compileScripts && !cfg.debuggerActive && 0 < cfg.maxScriptCacheSize
    requires |caches.dynamicScriptCache| <= cfg.maxScriptCacheSize
    requires ExecuteStringInScope(cfg, caches, chains, cx, source, scope, digest, resource, compiler).Success?
    ensures var first := ExecuteStringInScope(cfg, caches, chains, cx, source, scope, digest, resource, compiler).value;
      var second := ExecuteStringInScope(cfg, first.caches, chains, cx, source, scope', digest, resource, compiler');
      second.Success? && second.value.script == first.script && second.value.caches == first.caches
  {
    var ref := ToReferenceScript(source, digest);
    SecondCompileHitsCache(cfg, caches, ref, resource, Some(source), Some(source), compiler, compiler');
  }

  /** `executeScript` (lines 549-574): after compiling, a fresh chain holding only
      this script is started, suspending any active one, and after-returning
      brings the registry back. A `null` script fails as in `ExecuteInScope`, its
      exception wrapped at lines 998-1001. */
  function ExecuteScript<S, X>(cfg: Config, caches: Caches<S>, chains: CallChains.Chains<X, ReferenceScript>, cx: X,
                               ref: ReferenceScript, load: Option<string>,
                               resource: string -> Option<string>,
                               compiler: (string, string, int) -> Attempt<S>): (r: Result<Execution<S, X>, ScriptError>)
    requires CallChains.Valid(chains)
    ensures var fetched := GetCompiledScript(cfg, caches, ref, resource, load, compiler);
      && (r.Failure? <==> fetched.Failure? || fetched.value.script.None?)
      && (fetched.Failure? ==> r == Failure(fetched.error))
      && (fetched.Success? && fetched.value.script.None? ==> r == Failure(NullScriptExecuted))
      && (r.Success? ==> Some(r.value.script) == fetched.value.script && r.value.caches == fetched.value.caches)
    ensures r.Success? ==> r.value.chains == chains && r.value.location == Some(ref)
  {
    match GetCompiledScript(cfg, caches, ref, resource, load, compiler)
    case Failure(e) => Failure(e)
    case Success(fetch) =>
      if fetch.script.None? then Failure(NullScriptExecuted)
      else
        var running := CallChains.EnterExecution(chains, cx, ref);
        CallChains.ExecutionRestores(chains, cx, ref);
        Success(Execution(fetch.script.value, fetch.caches, CallChains.AfterReturning(running, cx),
                          None,
                          CallChains.ContextScriptLocation(running, cx)))
  }
}
