/** Two value converters between Java objects and script objects: the map facade
    converter (maps become scriptable facades; nothing is converted back to Java)
    and the association converter (script associations to association references
    and back). Classes are abstract, related by `isAssignableFrom`. */
module Converters {
  import opened Wrappers

  /** The confidence constants of the converter interface; only their order
      matters. */
  datatype Confidence = LowestConfidence | LowConfidence | HighestConfidence

  /** `a` ranks below `b`. */
  predicate RanksBelow(a: Confidence, b: Confidence) {
    (a == LowestConfidence && b != LowestConfidence) || (a == LowConfidence && b == HighestConfidence)
  }

  /** The classes and operations the converters rely on. `isAssignableFrom(a, b)`
      says a value of class `b` may be used where class `a` is expected; `classOf`
      is the runtime class of a non-null value. `newAssociation` wraps an association
      reference in a script association, and `associationRefOf` unwraps one. */
  datatype World<!C, !V> = World(
    isAssignableFrom: (C, C) -> bool,
    classOf: V -> C,
    mapClass: C,
    scriptableClass: C,
    associationClass: C,
    associationRefClass: C,
    associationRefOf: V -> V,
    newAssociation: V -> V)

  /** `value instanceof t`: never for `null`. */
  predicate InstanceOf<C, V>(w: World<C, V>, value: Option<V>, t: C) {
    value.Some? && w.isAssignableFrom(t, w.classOf(value.value))
  }

  /** Why a conversion was refused. */
  datatype ConversionError = UnsupportedOperation | IllegalArgument

  /** What a conversion produces: a facade proxy over a Java map, or a plain value. */
  datatype Converted<V> = MapFacade(target: V) | Plain(value: V)

  // ---------------------------------------------------------------- map facade converter

  /** Lines 74-80: the facade converter never claims a Java conversion. */
  function MapFacadeForJavaConfidence<C>(valueClass: C, expectedClass: C): (r: Confidence)
    ensures r == LowestConfidence
  {
    LowestConfidence
  }

  /** Lines 86-90. */
  function MapFacadeCanConvertForJava<C, V>(w: World<C, V>, value: Option<V>, expectedClass: C): (r: bool)
    ensures !r
  {
    false
  }

  /** Lines 96-100. */
  function MapFacadeConvertForJava<C, V>(w: World<C, V>, value: Option<V>, expectedClass: C): (r: Result<Converted<V>, ConversionError>)
    ensures r == Failure(UnsupportedOperation)
  {
    Failure(UnsupportedOperation)
  }

  /** Lines 107-119: a map offered where a scriptable is accepted gets low
      confidence; anything else the lowest. */
  function MapFacadeForScriptConfidence<C, V>(w: World<C, V>, valueClass: C, expectedClass: C): (r: Confidence)
    ensures r != HighestConfidence
    ensures r == LowConfidence <==> w.isAssignableFrom(w.mapClass, valueClass) && w.isAssignableFrom(expectedClass, w.scriptableClass)
  {
    if w.isAssignableFrom(w.mapClass, valueClass) && w.isAssignableFrom(expectedClass, w.scriptableClass) then LowConfidence
    else LowestConfidence
  }

  /** Lines 125-129. */
  function MapFacadeCanConvertForScript<C, V>(w: World<C, V>, value: Option<V>, expectedClass: C): (r: bool)
    ensures value.None? ==> !r
    ensures value.Some? ==> (r <==> RanksBelow(LowestConfidence, MapFacadeForScriptConfidence(w, w.classOf(value.value), expectedClass)))
  {
    InstanceOf(w, value, w.mapClass) && w.isAssignableFrom(expectedClass, w.scriptableClass)
  }

  /** Lines 135-163: a map becomes a facade proxy targeting it; anything else is an
      illegal argument. The expected class is not consulted. */
  function MapFacadeConvertForScript<C, V>(w: World<C, V>, value: Option<V>, expectedClass: C): (r: Result<Converted<V>, ConversionError>)
    ensures r.Failure? <==> !InstanceOf(w, value, w.mapClass)
    ensures r.Failure? ==> r.error == IllegalArgument
    ensures r.Success? ==> r.value == MapFacade(value.value)
  {
    if !InstanceOf(w, value, w.mapClass) then Failure(IllegalArgument) else Success(MapFacade(value.value))
  }

  /** The facade converter's Java side is consistent: its confidence never rises
      above the lowest, it never offers a conversion, and a conversion attempted
      anyway is refused as unsupported. */
  lemma MapFacadeJavaSideConsistent<C, V>(w: World<C, V>, value: Option<V>, expectedClass: C)
    ensures value.Some? ==>
      (MapFacadeCanConvertForJava(w, value, expectedClass)
       <==> RanksBelow(LowestConfidence, MapFacadeForJavaConfidence(w.classOf(value.value), expectedClass)))
    ensures !MapFacadeCanConvertForJava(w, value, expectedClass) && MapFacadeConvertForJava(w, value, expectedClass).Failure?
  {
  }

  /** Whenever the facade converter says it can convert for the script side, the
      conversion succeeds. */
  lemma MapFacadeCanConvertMeansConverts<C, V>(w: World<C, V>, value: Option<V>, expectedClass: C)
    requires MapFacadeCanConvertForScript(w, value, expectedClass)
    ensures MapFacadeConvertForScript(w, value, expectedClass).Success?
  {
  }

  // ---------------------------------------------------------------- association converter

  /** Lines 93-105: an association offered where an association reference is
      accepted gets the highest confidence; anything else the lowest. */
  function AssociationForJavaConfidence<C, V>(w: World<C, V>, valueClass: C, expectedClass: C): (r: Confidence)
    ensures r != LowConfidence
    ensures r == HighestConfidence <==>
      w.isAssignableFrom(w.associationClass, valueClass) && w.isAssignableFrom(expectedClass, w.associationRefClass)
  {
    if w.isAssignableFrom(w.associationClass, valueClass) && w.isAssignableFrom(expectedClass, w.associationRefClass) then HighestConfidence
    else LowestConfidence
  }

  /** Lines 111-115. */
  function AssociationCanConvertForJava<C, V>(w: World<C, V>, value: Option<V>, expectedClass: C): (r: bool)
    ensures value.None? ==> !r
    ensures value.Some? ==> (r <==> AssociationForJavaConfidence(w, w.classOf(value.value), expectedClass) == HighestConfidence)
  {
    InstanceOf(w, value, w.associationClass) && w.isAssignableFrom(expectedClass, w.associationRefClass)
  }

  /** Lines 121-132: an association yields its association reference; anything else
      is an illegal argument. */
  function AssociationConvertForJava<C, V>(w: World<C, V>, value: Option<V>, expectedClass: C): (r: Result<Converted<V>, ConversionError>)
    ensures r.Failure? <==> !InstanceOf(w, value, w.associationClass)
    ensures r.Failure? ==> r.error == IllegalArgument
    ensures r.Success? ==> r.value == Plain(w.associationRefOf(value.value))
  {
    if !InstanceOf(w, value, w.associationClass) then Failure(IllegalArgument)
    else Success(Plain(w.associationRefOf(value.value)))
  }

  /** Lines 139-151: an association reference offered where an association is
      accepted gets the highest confidence; anything else the lowest. */
  function AssociationForScriptConfidence<C, V>(w: World<C, V>, valueClass: C, expectedClass: C): (r: Confidence)
    ensures r != LowConfidence
    ensures r == HighestConfidence <==>
      w.isAssignableFrom(w.associationRefClass, valueClass) && w.isAssignableFrom(expectedClass, w.associationClass)
  {
    if w.isAssignableFrom(w.associationRefClass, valueClass) && w.isAssignableFrom(expectedClass, w.associationClass) then HighestConfidence
    else LowestConfidence
  }

  /** Lines 157-161. */
  function AssociationCanConvertForScript<C, V>(w: World<C, V>, value: Option<V>, expectedClass: C): (r: bool)
    ensures value.None? ==> !r
    ensures value.Some? ==> (r <==> AssociationForScriptConfidence(w, w.classOf(value.value), expectedClass) == HighestConfidence)
  {
    InstanceOf(w, value, w.associationRefClass) && w.isAssignableFrom(expectedClass, w.associationClass)
  }

  /** Lines 167-179: an association reference is wrapped in a new association;
      anything else is an illegal argument. */
  function AssociationConvertForScript<C, V>(w: World<C, V>, value: Option<V>, expectedClass: C): (r: Result<Converted<V>, ConversionError>)
    ensures r.Failure? <==> !InstanceOf(w, value, w.associationRefClass)
    ensures r.Failure? ==> r.error == IllegalArgument
    ensures r.Success? ==> r.value == Plain(w.newAssociation(value.value))
  {
    if !InstanceOf(w, value, w.associationRefClass) then Failure(IllegalArgument)
    else Success(Plain(w.newAssociation(value.value)))
  }

  /** Converting an association reference for the script side and the result back
      for the Java side returns the reference, given that a new association is an
      association wrapping the reference it was built from and that assignability
      is reflexive on the association class. Those facts belong to `Association`
      and the class hierarchy, which are not modelled, so they are requires here,
      and the lemma is the composition of the two conversion guards under them. */
  lemma AssociationRoundTrip<C, V>(w: World<C, V>, ref: V, toScript: C, toJava: C)
    requires w.isAssignableFrom(w.associationClass, w.associationClass)
    requires w.classOf(w.newAssociation(ref)) == w.associationClass
    requires w.associationRefOf(w.newAssociation(ref)) == ref
    requires InstanceOf(w, Some(ref), w.associationRefClass)
    ensures var wrapped := AssociationConvertForScript(w, Some(ref), toScript);
      && wrapped.Success?
      && AssociationConvertForJava(w, Some(wrapped.value.value), toJava) == Success(Plain(ref))
  {
  }

  /** Whenever the association converter says it can convert, in either direction,
      the conversion succeeds. */
  lemma AssociationCanConvertMeansConverts<C, V>(w: World<C, V>, value: Option<V>, expectedClass: C)
    ensures AssociationCanConvertForJava(w, value, expectedClass) ==> AssociationConvertForJava(w, value, expectedClass).Success?
    ensures AssociationCanConvertForScript(w, value, expectedClass) ==> AssociationConvertForScript(w, value, expectedClass).Success?
  {
  }
}
