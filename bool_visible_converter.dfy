/** BoolVisibleConverter: a boolean (or null) to a Visibility, inverted by the
    parameter "not" in any letter case. */
module BoolVisible {
  import opened Framework

  /** `value as bool?`: the flag of a boxed bool, None for null or any other value. */
  function AsBool(value: BoundValue): Option<bool>
  {
    if value.BoolValue? then Some(value.flag) else None
  }

  /** Nullable GetValueOrDefault: false for None. */
  function ValueOrDefault(b: Option<bool>): bool
  {
    b.Some? && b.value
  }

  /** The parameter inverts when its text equals "not", ignoring case. */
  predicate IsNot(parameter: Option<string>)
  {
    parameter.Some? && EqualsIgnoreCase("not", parameter.value)
  }

  /** Convert: Visible exactly for a boxed true; with "not", exactly for everything else. */
  function Convert(value: BoundValue, parameter: Option<string>): (r: Visibility)
    ensures !IsNot(parameter) ==> (r == Visible <==> value == BoolValue(true))
    ensures IsNot(parameter) ==> (r == Visible <==> value != BoolValue(true))
  {
    var visible := AsBool(value);
    var visible' := if IsNot(parameter) then Some(!ValueOrDefault(visible)) else visible;
    if ValueOrDefault(visible') then Visible else Collapsed
  }

  /** For every value, "not" gives the opposite of no parameter; so null and non-bool
      values, which are Collapsed without it, are Visible with it. */
  lemma NotInverts(value: BoundValue, parameter: Option<string>)
    requires IsNot(parameter)
    ensures Convert(value, parameter) != Convert(value, None)
    ensures !value.BoolValue? ==> Convert(value, None) == Collapsed && Convert(value, parameter) == Visible
  {
  }

  /** Any parameter other than "not" acts as no parameter. */
  lemma OtherParameterIgnored(value: BoundValue, parameter: Option<string>)
    requires !IsNot(parameter)
    ensures Convert(value, parameter) == Convert(value, None)
  {
  }

  /** "not" is recognised in any letter case: every spelling that upper-cases to
      "NOT" inverts, exactly as "not" does. */
  lemma NotAnyCase(value: BoundValue, p: string)
    requires Upper(p) == "NOT"
    ensures Convert(value, Some(p)) == Convert(value, Some("not"))
    ensures Convert(value, Some(p)) != Convert(value, None)
  {
    assert Upper("not") == "NOT";
  }

  /** ConvertBack is not supported: every input gives UnsetValue. */
  function ConvertBack(value: BoundValue, parameter: Option<string>): (r: BoundValue)
    ensures r.UnsetValue?
  {
    UnsetValue
  }
}
