/** A script registered from a classpath resource: its script location is the
    resource path without a `classpath:` prefix, and registered scripts are ordered
    by Java's `String.compareTo` on those locations. */
module ClasspathScript {
  import opened Wrappers

  /** The prefix removed from a resource path. */
  const ClasspathPrefix: string := "classpath:"

  /** Line 63: one leading `classpath:` is removed, any other path is kept. */
  function StripClasspathPrefix(path: string): (r: string)
    ensures ClasspathPrefix <= path ==> ClasspathPrefix + r == path
    ensures !(ClasspathPrefix <= path) ==> r == path
  {
    if ClasspathPrefix <= path then path[|ClasspathPrefix|..] else path
  }

  /** Only one prefix is removed: a doubled prefix leaves one behind. */
  lemma StripsOnlyOnce(rest: string)
    ensures StripClasspathPrefix(ClasspathPrefix + ClasspathPrefix + rest) == ClasspathPrefix + rest
  {
    var path := ClasspathPrefix + ClasspathPrefix + rest;
    assert ClasspathPrefix <= path by {
      assert path[..|ClasspathPrefix|] == ClasspathPrefix;
    }
    assert path[|ClasspathPrefix|..] == ClasspathPrefix + rest;
  }

  /** A registerable script with its resource (absent until configured), given by
      the resource's path. */
  datatype ClasspathRegisterableScript = ClasspathRegisterableScript(scriptResource: Option<string>)

  /** A classpath script location; its path is the location it was created with. */
  datatype ScriptLocation = ClasspathScriptLocation(path: string)

  /** The property check raised when the resource was never set. */
  datatype PropertyError = MissingScriptResource

  /** `afterPropertiesSet`: the resource is mandatory. */
  function AfterPropertiesSet(script: ClasspathRegisterableScript): (r: Result<ClasspathRegisterableScript, PropertyError>)
    ensures r.Failure? <==> script.scriptResource.None?
    ensures r.Success? ==> r.value == script
  {
    if script.scriptResource.None? then Failure(MissingScriptResource) else Success(script)
  }

  /** `getScriptInstance` of a configured script: a location for the stripped path. */
  function GetScriptInstance(script: ClasspathRegisterableScript): (r: ScriptLocation)
    requires script.scriptResource.Some?
    ensures r.path == script.scriptResource.value || ClasspathPrefix + r.path == script.scriptResource.value
    ensures ClasspathPrefix <= script.scriptResource.value <==> ClasspathPrefix + r.path == script.scriptResource.value
  {
    PrefixOfConcatenation(ClasspathPrefix, StripClasspathPrefix(script.scriptResource.value));
    ClasspathScriptLocation(StripClasspathPrefix(script.scriptResource.value))
  }

  lemma PrefixOfConcatenation(prefix: string, rest: string)
    ensures prefix <= prefix + rest
  {
    assert (prefix + rest)[..|prefix|] == prefix;
  }

  /** Java's `String.compareTo`: the difference of the first differing characters,
      or else the difference of the lengths. */
  function CompareStrings(a: string, b: string): (r: int)
    ensures r == 0 <==> a == b
  {
    if |a| == 0 || |b| == 0 then |a| - |b|
    else if a[0] != b[0] then a[0] as int - b[0] as int
    else
      var r := CompareStrings(a[1..], b[1..]);
      assert a == [a[0]] + a[1..] && b == [b[0]] + b[1..];
      r
  }

  /** Lexicographic order on strings, the independent reference for the sign of a
      comparison: a proper prefix comes first, otherwise the first differing
      character decides. */
  predicate LexLess(a: string, b: string) {
    || (|a| < |b| && a == b[..|a|])
    || exists k :: 0 <= k < |a| && k < |b| && a[..k] == b[..k] && a[k] < b[k]
  }

  /** A negative comparison is exactly lexicographic precedence. */
  lemma {:induction false} CompareSignIsLexLess(a: string, b: string)
    ensures CompareStrings(a, b) < 0 <==> LexLess(a, b)
  {
    if |a| == 0 || |b| == 0 {
      if |a| < |b| { assert a == b[..|a|]; }
    } else if a[0] != b[0] {
      if a[0] < b[0] {
        assert a[..0] == b[..0];
      }
    } else {
      CompareSignIsLexLess(a[1..], b[1..]);
      LexLessTail(a, b);
    }
  }

  /** Lexicographic precedence of two strings with the same first character is that
      of their tails. */
  lemma LexLessTail(a: string, b: string)
    requires 0 < |a| && 0 < |b| && a[0] == b[0]
    ensures LexLess(a, b) <==> LexLess(a[1..], b[1..])
  {
    if LexLess(a[1..], b[1..]) {
      if |a[1..]| < |b[1..]| && a[1..] == b[1..][..|a[1..]|] {
        assert a == b[..|a|];
      } else {
        var k :| 0 <= k < |a[1..]| && k < |b[1..]| && a[1..][..k] == b[1..][..k] && a[1..][k] < b[1..][k];
        assert a[..k + 1] == [a[0]] + a[1..][..k];
        assert b[..k + 1] == [b[0]] + b[1..][..k];
      }
    }
    if LexLess(a, b) {
      if |a| < |b| && a == b[..|a|] {
        assert a[1..] == b[1..][..|a[1..]|];
      } else {
        var k :| 0 <= k < |a| && k < |b| && a[..k] == b[..k] && a[k] < b[k];
        assert k != 0;
        assert a[1..][..k - 1] == a[..k][1..];
        assert b[1..][..k - 1] == b[..k][1..];
      }
    }
  }

  /** Swapping the arguments negates the comparison exactly. */
  lemma {:induction false} CompareAntisymmetric(a: string, b: string)
    ensures CompareStrings(b, a) == -CompareStrings(a, b)
  {
    if 0 < |a| && 0 < |b| && a[0] == b[0] {
      CompareAntisymmetric(a[1..], b[1..]);
    }
  }

  /** Comparisons are transitive in sign. */
  lemma {:induction false} CompareTransitive(a: string, b: string, c: string)
    requires CompareStrings(a, b) < 0 && CompareStrings(b, c) < 0
    ensures CompareStrings(a, c) < 0
  {
    if 0 < |a| && 0 < |b| && 0 < |c| && a[0] == b[0] && b[0] == c[0] {
      CompareTransitive(a[1..], b[1..], c[1..]);
    }
  }

  /** `compareTo`: the scripts' location paths compared as strings. */
  function CompareTo(script: ClasspathRegisterableScript, other: ClasspathRegisterableScript): (r: int)
    requires script.scriptResource.Some? && other.scriptResource.Some?
    ensures r == 0 <==> GetScriptInstance(script).path == GetScriptInstance(other).path
    ensures r < 0 <==> LexLess(GetScriptInstance(script).path, GetScriptInstance(other).path)
  {
    CompareSignIsLexLess(GetScriptInstance(script).path, GetScriptInstance(other).path);
    CompareStrings(GetScriptInstance(script).path, GetScriptInstance(other).path)
  }

  /** The ordering of registered scripts: zero against itself, negated when the
      operands are swapped, and transitive. */
  lemma CompareToIsOrdering(a: ClasspathRegisterableScript, b: ClasspathRegisterableScript, c: ClasspathRegisterableScript)
    requires a.scriptResource.Some? && b.scriptResource.Some? && c.scriptResource.Some?
    ensures CompareTo(a, a) == 0
    ensures CompareTo(b, a) == -CompareTo(a, b)
    ensures CompareTo(a, b) < 0 && CompareTo(b, c) < 0 ==> CompareTo(a, c) < 0
  {
    CompareAntisymmetric(GetScriptInstance(a).path, GetScriptInstance(b).path);
    if CompareTo(a, b) < 0 && CompareTo(b, c) < 0 {
      CompareTransitive(GetScriptInstance(a).path, GetScriptInstance(b).path, GetScriptInstance(c).path);
    }
  }

  /** A resource path with the prefix and the same path without it name the same
      location, so the two scripts compare as equal although their resources
      differ. */
  lemma PrefixedAndBarePathsCompareEqual(path: string)
    requires !(ClasspathPrefix <= path)
    ensures CompareTo(ClasspathRegisterableScript(Some(ClasspathPrefix + path)), ClasspathRegisterableScript(Some(path))) == 0
  {
    PrefixOfConcatenation(ClasspathPrefix, path);
  }
}
