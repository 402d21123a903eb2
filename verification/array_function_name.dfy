/** The names of the native array functions the interceptors recognise, and the
    case-insensitive lookup of a method name among them. Case folding follows
    Java's `equalsIgnoreCase`, restricted to ASCII letters. */
module ArrayFunctionName {
  import opened Wrappers

  /** The enum, in declaration order. */
  datatype NativeArrayFunctionName = Push | Pop | Shift | Unshift | Splice | Unknown

  /** `values()`: every literal, in declaration order. */
  const Literals: seq<NativeArrayFunctionName> := [Push, Pop, Shift, Unshift, Splice, Unknown]

  /** `name()`. */
  function Name(literal: NativeArrayFunctionName): string {
    match literal
    case Push => "PUSH"
    case Pop => "POP"
    case Shift => "SHIFT"
    case Unshift => "UNSHIFT"
    case Splice => "SPLICE"
    case Unknown => "UNKNOWN"
  }

  predicate IsAsciiLower(ch: char) { 'a' <= ch <= 'z' }
  predicate IsAsciiUpper(ch: char) { 'A' <= ch <= 'Z' }

  function ToUpper(ch: char): char {
    if IsAsciiLower(ch) then (ch as int - 32) as char else ch
  }

  function ToLower(ch: char): char {
    if IsAsciiUpper(ch) then (ch as int + 32) as char else ch
  }

  /** The per-character test of `regionMatches(true, ...)`: equal, equal upper-cased,
      or equal after lower-casing the upper-cased characters. */
  predicate CharsEqualIgnoringCase(a: char, b: char) {
    a == b || ToUpper(a) == ToUpper(b) || ToLower(ToUpper(a)) == ToLower(ToUpper(b))
  }

  /** `s.equalsIgnoreCase(other)`: false for a `null` argument, otherwise the same
      length and every position equal ignoring case. */
  function EqualsIgnoreCase(s: string, other: Option<string>): (r: bool)
    ensures other.None? ==> !r
    ensures other == Some(s) ==> r
    ensures r ==> |other.value| == |s|
  {
    other.Some? && |s| == |other.value|
    && forall i :: 0 <= i < |s| ==> CharsEqualIgnoringCase(s[i], other.value[i])
  }

  /** The loop of lines 28-35 over `literals`: the first literal whose name equals
      `methodName` ignoring case, if any. */
  function FirstMatch(literals: seq<NativeArrayFunctionName>, methodName: Option<string>): (r: Option<NativeArrayFunctionName>)
    ensures r.None? <==> forall i :: 0 <= i < |literals| ==> !EqualsIgnoreCase(Name(literals[i]), methodName)
    ensures r.Some? ==> exists i :: (0 <= i < |literals| && literals[i] == r.value
                                     && EqualsIgnoreCase(Name(literals[i]), methodName)
                                     && forall j :: 0 <= j < i ==> !EqualsIgnoreCase(Name(literals[j]), methodName))
  {
    if |literals| == 0 then None
    else if EqualsIgnoreCase(Name(literals[0]), methodName) then Some(literals[0])
    else
      var r := FirstMatch(literals[1..], methodName);
      assert forall i :: 1 <= i < |literals| ==> literals[i] == literals[1..][i - 1];
      if r.Some? then
        var i :| 0 <= i < |literals[1..]| && literals[1..][i] == r.value
          && EqualsIgnoreCase(Name(literals[1..][i]), methodName)
          && forall j :: 0 <= j < i ==> !EqualsIgnoreCase(Name(literals[1..][j]), methodName);
        assert literals[i + 1] == r.value && EqualsIgnoreCase(Name(literals[i + 1]), methodName);
        r
      else r
  }

  /** `functionLiteralOf`: the first literal in declaration order whose name matches
      `methodName` ignoring case, `UNKNOWN` when none does (in particular for
      `null`). */
  function FunctionLiteralOf(methodName: Option<string>): (r: NativeArrayFunctionName)
    ensures r != Unknown ==> EqualsIgnoreCase(Name(r), methodName)
    ensures (forall i :: 0 <= i < |Literals| ==> !EqualsIgnoreCase(Name(Literals[i]), methodName)) ==> r == Unknown
    ensures methodName.None? ==> r == Unknown
  {
    match FirstMatch(Literals, methodName)
    case Some(literal) => literal
    case None => Unknown
  }

  /** A character matches an upper-case letter ignoring case exactly when it
      upper-cases to it. */
  lemma MatchesUpperLetter(c: char, n: char)
    requires IsAsciiUpper(n)
    ensures CharsEqualIgnoringCase(n, c) <==> ToUpper(c) == n
  {
  }

  /** Every literal's name is written in upper-case letters. */
  lemma NamesAreUpperCase(literal: NativeArrayFunctionName)
    ensures forall i :: 0 <= i < |Name(literal)| ==> IsAsciiUpper(Name(literal)[i])
  {
  }

  /** `s` spells the name of `literal` in some letter case. */
  predicate SpellsName(s: string, literal: NativeArrayFunctionName) {
    |s| == |Name(literal)| && forall i :: 0 <= i < |s| ==> ToUpper(s[i]) == Name(literal)[i]
  }

  /** Matching a name ignoring case is spelling it in some letter case. */
  lemma {:induction false} MatchIsSpelling(s: string, literal: NativeArrayFunctionName)
    ensures EqualsIgnoreCase(Name(literal), Some(s)) <==> SpellsName(s, literal)
  {
    NamesAreUpperCase(literal);
    forall i | 0 <= i < |s| && i < |Name(literal)|
      ensures CharsEqualIgnoringCase(Name(literal)[i], s[i]) <==> ToUpper(s[i]) == Name(literal)[i]
    {
      MatchesUpperLetter(s[i], Name(literal)[i]);
    }
  }

  /** No string spells two different names. */
  lemma {:induction false} SpellingIsUnique(s: string, a: NativeArrayFunctionName, b: NativeArrayFunctionName)
    requires SpellsName(s, a) && SpellsName(s, b)
    ensures a == b
  {
    assert Name(a) == Name(b) by {
      assert forall i :: 0 <= i < |s| ==> Name(a)[i] == ToUpper(s[i]) == Name(b)[i];
    }
  }

  /** Looking up any letter-case spelling of a literal's name yields that literal. */
  lemma {:induction false} AnyCasingFindsLiteral(s: string, literal: NativeArrayFunctionName)
    requires SpellsName(s, literal)
    ensures FunctionLiteralOf(Some(s)) == literal
  {
    MatchIsSpelling(s, literal);
    assert Literals[LiteralIndex(literal)] == literal;
    var r := FunctionLiteralOf(Some(s));
    if r != Unknown {
      MatchIsSpelling(s, r);
      SpellingIsUnique(s, r, literal);
    }
  }

  /** The position of a literal in declaration order. */
  function LiteralIndex(literal: NativeArrayFunctionName): (i: nat)
    ensures i < |Literals| && Literals[i] == literal
  {
    match literal
    case Push => 0
    case Pop => 1
    case Shift => 2
    case Unshift => 3
    case Splice => 4
    case Unknown => 5
  }

  /** A recognised result other than `UNKNOWN` is a letter-case spelling of the input,
      and the input found is the only literal it spells. */
  lemma {:induction false} RecognisedNameIsSpelled(s: string)
    ensures FunctionLiteralOf(Some(s)) != Unknown ==> SpellsName(s, FunctionLiteralOf(Some(s)))
    ensures forall literal :: SpellsName(s, literal) ==> FunctionLiteralOf(Some(s)) == literal
  {
    var r := FunctionLiteralOf(Some(s));
    MatchIsSpelling(s, r);
    forall literal | SpellsName(s, literal)
      ensures FunctionLiteralOf(Some(s)) == literal
    {
      AnyCasingFindsLiteral(s, literal);
    }
  }

  /** A mixed-case spelling finds its literal. */
  lemma MixedCaseExample()
    ensures FunctionLiteralOf(Some("UnShift")) == Unshift
  {
    assert SpellsName("UnShift", Unshift) by {
      var s := "UnShift";
      assert ToUpper(s[0]) == 'U' && ToUpper(s[1]) == 'N' && ToUpper(s[2]) == 'S' && ToUpper(s[3]) == 'H';
      assert ToUpper(s[4]) == 'I' && ToUpper(s[5]) == 'F' && ToUpper(s[6]) == 'T';
    }
    AnyCasingFindsLiteral("UnShift", Unshift);
  }

  /** `slice` is an array function the enum does not name, so it is `UNKNOWN`; so is
      `null`. */
  lemma UnnamedIsUnknown()
    ensures FunctionLiteralOf(Some("slice")) == Unknown
    ensures FunctionLiteralOf(None) == Unknown
  {
    RecognisedNameIsSpelled("slice");
  }
}
