/**
 * The `drop_off_type` field of a stop time: a closed enumeration of four
 * variants, each bound to an integer code. An absent code decodes to the
 * default variant; a present code outside the set decodes to the invalid
 * marker (`None`, Java's `null`).
 */
module DropOffTypes {
  import opened Wrappers

  datatype DropOffType =
    | RegularDropOff
    | NoDropOff
    | MustPhoneDropOff
    | MustAskDriverDropOff

  /** The integer code each variant is declared with. */
  function Value(d: DropOffType): (v: int)
    ensures 0 <= v <= 3
  {
    match d
    case RegularDropOff => 0
    case NoDropOff => 1
    case MustPhoneDropOff => 2
    case MustAskDriverDropOff => 3
  }

  /** The variants in declaration order, as `values()` lists them. */
  const Values: seq<DropOffType> :=
    [RegularDropOff, NoDropOff, MustPhoneDropOff, MustAskDriverDropOff]

  /** Does some variant of `items` carry code `v`? (a stream's `anyMatch`) */
  function AnyMatch(items: seq<DropOffType>, v: int): (b: bool)
    ensures b <==> exists i :: 0 <= i < |items| && Value(items[i]) == v
  {
    if items == [] then false
    else Value(items[0]) == v || AnyMatch(items[1..], v)
  }

  /** A variant of `items` carrying code `v`, if any (`filter` then `findAny`). */
  function FindAny(items: seq<DropOffType>, v: int): (r: Option<DropOffType>)
    ensures r.Some? <==> AnyMatch(items, v)
    ensures r.Some? ==> r.value in items && Value(r.value) == v
  {
    if items == [] then None
    else if Value(items[0]) == v then Some(items[0])
    else FindAny(items[1..], v)
  }

  /**
   * Absence is valid (a null code makes the comparison unbox null; the
   * exception handler answers true); a present code is valid exactly when
   * some listed variant carries it, that is, when it is one of 0, 1, 2, 3.
   */
  function IsEnumValid(value: Option<int>): (b: bool)
    ensures b <==> value.None? || 0 <= value.value <= 3
  {
    match value
    case None => true
    case Some(v) =>
      assert 0 <= v <= 3 ==> Value(Values[v]) == v;
      AnyMatch(Values, v)
  }

  /** Decodes an optional code; `None` in the result is the invalid marker. */
  function FromInt(fromValue: Option<int>): (r: Option<DropOffType>)
    ensures fromValue.None? ==> r == Some(RegularDropOff)
    ensures r.None? <==> fromValue.Some? && !IsEnumValid(fromValue)
    ensures fromValue.Some? && r.Some? ==> Value(r.value) == fromValue.value
  {
    match fromValue
    case None => Some(RegularDropOff)
    case Some(v) =>
      if !IsEnumValid(fromValue) then None
      else
        var found := FindAny(Values, v);
        Some(found.value)
  }

  /** `values()` lists every variant. */
  lemma ValuesListsEveryVariant(d: DropOffType)
    ensures d in Values
    ensures |Values| == 4
  {
  }

  /** The four codes are pairwise distinct. */
  lemma ValueInjective(d1: DropOffType, d2: DropOffType)
    ensures Value(d1) == Value(d2) <==> d1 == d2
  {
  }

  /** Validity of a present code means some variant carries that code. */
  lemma IsEnumValidIffSomeVariant(v: int)
    ensures IsEnumValid(Some(v)) <==> exists d :: Value(d) == v
  {
  }

  /** A present valid code decodes to the one variant that carries it. */
  lemma FromIntUnique(v: int, d: DropOffType)
    requires Value(d) == v
    ensures FromInt(Some(v)) == Some(d)
  {
  }

  /** Decoding the code of any variant gives the variant back. */
  lemma FromIntRoundTrip(d: DropOffType)
    ensures FromInt(Some(Value(d))) == Some(d)
  {
  }

  /** A present code outside 0..3 decodes to the invalid marker, not to the default. */
  lemma FromIntUnknownIsInvalid(v: int)
    requires v < 0 || 3 < v
    ensures FromInt(Some(v)) == None
    ensures FromInt(Some(v)) != FromInt(None)
  {
  }
}
