/** ThicknessToDoubleConverter: one side of a Thickness, chosen by the converter
    parameter, or the average of the four sides. */
module ThicknessToDouble {
  import opened Framework

  /** The number Convert returns for a bound value and a converter parameter
      (the parameter's ToString(), or None for null). */
  function Convert(value: BoundValue, parameter: Option<string>): (r: real)
    ensures !value.ThicknessValue? ==> r == 0.0
    ensures value.ThicknessValue? && parameter.Some? ==>
      var t, p := value.thickness, Upper(parameter.value);
      && (p == "LEFT" ==> r == t.left)
      && (p == "TOP" ==> r == t.top)
      && (p == "RIGHT" ==> r == t.right)
      && (p == "BOTTOM" ==> r == t.bottom)
  {
    match value
    case ThicknessValue(t) =>
      var para := if parameter.None? then "" else Upper(parameter.value);
      if para == "LEFT" then t.left
      else if para == "TOP" then t.top
      else if para == "RIGHT" then t.right
      else if para == "BOTTOM" then t.bottom
      else (t.left + t.right + t.bottom + t.top) / 4.0
    case _ => 0.0
  }

  /** The upper-cased names that select a single side. */
  predicate NamesSide(parameter: Option<string>)
  {
    parameter.Some? && Upper(parameter.value) in ["LEFT", "TOP", "RIGHT", "BOTTOM"]
  }

  /** A null parameter, or one naming no side, gives the average of the four sides,
      which lies between the smallest and the largest side. */
  lemma AverageWhenNoSideNamed(t: Thickness, parameter: Option<string>)
    requires !NamesSide(parameter)
    ensures var r := Convert(ThicknessValue(t), parameter);
      && r == (t.left + t.top + t.right + t.bottom) / 4.0
      && (exists s :: SideOf(t, s) <= r) && (exists s :: r <= SideOf(t, s))
      && ((forall s :: SideOf(t, s) == t.left) ==> r == t.left)
  {
    var r := Convert(ThicknessValue(t), parameter);
    var lo := if t.left <= t.top && t.left <= t.right && t.left <= t.bottom then LeftSide
              else if t.top <= t.right && t.top <= t.bottom then TopSide
              else if t.right <= t.bottom then RightSide else BottomSide;
    var hi := if t.left >= t.top && t.left >= t.right && t.left >= t.bottom then LeftSide
              else if t.top >= t.right && t.top >= t.bottom then TopSide
              else if t.right >= t.bottom then RightSide else BottomSide;
    assert SideOf(t, lo) <= r;
    assert r <= SideOf(t, hi);
    if forall s :: SideOf(t, s) == t.left {
      assert t.top == SideOf(t, TopSide) == t.left;
      assert t.right == SideOf(t, RightSide) == t.left;
      assert t.bottom == SideOf(t, BottomSide) == t.left;
    }
  }

  /** The side names match in any letter case. */
  lemma SideNameAnyCase(t: Thickness, s: Side, name: string)
    requires Upper(name) == Upper(SideName(s))
    ensures Convert(ThicknessValue(t), Some(name)) == SideOf(t, s)
  {
    UpperSideName(s);
  }

  /** ConvertBack is not supported: every input gives UnsetValue. */
  function ConvertBack(value: BoundValue, parameter: Option<string>): (r: BoundValue)
    ensures r.UnsetValue?
  {
    UnsetValue
  }
}
