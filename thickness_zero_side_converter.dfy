/** ThicknessZeroSideConverter: coerce the bound value to a Thickness, then zero the
    sides the converter parameter names. The parameter is split on commas and spaces
    with empty entries dropped; double.TryParse (culture-dependent) is a parameter. */
module ThicknessZeroSide {
  import opened Framework

  predicate IsSeparator(c: char)
  {
    c == ',' || c == ' '
  }

  predicate SeparatorFree(s: string)
  {
    forall i :: 0 <= i < |s| ==> !IsSeparator(s[i])
  }

  /** The longest prefix of s without a separator. */
  function Word(s: string): (w: string)
    ensures |w| <= |s| && w == s[..|w|] && SeparatorFree(w)
    ensures |w| < |s| ==> IsSeparator(s[|w|])
    decreases |s|
  {
    if s == [] || IsSeparator(s[0]) then [] else [s[0]] + Word(s[1..])
  }

  /** String.Split(new[] { ',', ' ' }, StringSplitOptions.RemoveEmptyEntries). */
  function Tokens(s: string): (ts: seq<string>)
    ensures forall i :: 0 <= i < |ts| ==> ts[i] != [] && SeparatorFree(ts[i])
    decreases |s|
  {
    if s == [] then []
    else if IsSeparator(s[0]) then Tokens(s[1..])
    else
      var w := Word(s);
      [w] + Tokens(s[|w|..])
  }

  /** The tokens joined with commas. */
  function Join(ts: seq<string>): string
  {
    if ts == [] then []
    else if |ts| == 1 then ts[0]
    else ts[0] + "," + Join(ts[1..])
  }

  /** A separator-free word followed by nothing or by a separator is what Word reads. */
  lemma {:induction false} WordOfPrefix(w: string, rest: string)
    requires SeparatorFree(w)
    requires rest == [] || IsSeparator(rest[0])
    ensures Word(w + rest) == w
    decreases |w|
  {
    if w != [] {
      assert (w + rest)[1..] == w[1..] + rest;
      WordOfPrefix(w[1..], rest);
    }
  }

  /** Splitting undoes joining: tokens that are non-empty and separator-free come
      back from their comma-joined string unchanged. */
  lemma {:induction false} TokensOfJoin(ts: seq<string>)
    requires forall i :: 0 <= i < |ts| ==> ts[i] != [] && SeparatorFree(ts[i])
    ensures Tokens(Join(ts)) == ts
    decreases |ts|
  {
    if |ts| == 1 {
      WordOfPrefix(ts[0], []);
      assert ts[0] + [] == ts[0];
      assert ts[0][|ts[0]|..] == [];
    } else if |ts| > 1 {
      var rest := "," + Join(ts[1..]);
      var s := ts[0] + rest;
      assert Join(ts) == s;
      WordOfPrefix(ts[0], rest);
      assert s[|ts[0]|..] == rest;
      assert rest[1..] == Join(ts[1..]);
      TokensOfJoin(ts[1..]);
      assert Tokens(rest) == Tokens(Join(ts[1..]));
      assert ts == [ts[0]] + ts[1..];
    }
  }

  /** The value Convert starts from: a Thickness as it is; a non-null value whose text
      parses as a number, a uniform thickness of that number; anything else, zeros. */
  function Coerce(value: BoundValue, tryParse: string -> Option<real>): (t: Thickness)
    ensures value.ThicknessValue? ==> t == value.thickness
    ensures value.NullValue? ==> t == Thickness(0.0, 0.0, 0.0, 0.0)
    ensures !value.ThicknessValue? && !value.NullValue? ==>
      match tryParse(Text(value))
      case Some(d) => t == Thickness(d, d, d, d)
      case None => t == Thickness(0.0, 0.0, 0.0, 0.0)
  {
    match value
    case ThicknessValue(t) => t
    case NullValue => Thickness(0.0, 0.0, 0.0, 0.0)
    case _ =>
      match tryParse(Text(value))
      case Some(d) => Thickness(d, d, d, d)
      case None => Thickness(0.0, 0.0, 0.0, 0.0)
  }

  /** The side a token names, compared in any letter case: "top", "left", "right"
      and "bottom" are tested in that order, each by comparing upper-cased forms. */
  function NamedSide(para: string): Option<Side>
  {
    var p := Upper(para);
    if p == "TOP" then Some(TopSide)
    else if p == "LEFT" then Some(LeftSide)
    else if p == "RIGHT" then Some(RightSide)
    else if p == "BOTTOM" then Some(BottomSide)
    else None
  }

  /** One token: it zeroes the side it names, if any. */
  function ZeroNamed(t: Thickness, para: string): Thickness
  {
    match NamedSide(para)
    case Some(TopSide) => t.(top := 0.0)
    case Some(LeftSide) => t.(left := 0.0)
    case Some(RightSide) => t.(right := 0.0)
    case Some(BottomSide) => t.(bottom := 0.0)
    case None => t
  }

  /** The tokens applied in order. */
  function ZeroSides(t: Thickness, tokens: seq<string>): Thickness
    decreases |tokens|
  {
    if tokens == [] then t else ZeroSides(ZeroNamed(t, tokens[0]), tokens[1..])
  }

  /** Some token names side s. */
  predicate Named(tokens: seq<string>, s: Side)
  {
    exists i :: 0 <= i < |tokens| && NamedSide(tokens[i]) == Some(s)
  }

  /** A side is zero after the tokens exactly when some token names it, and keeps its
      value otherwise; unknown tokens change nothing. */
  lemma {:induction false} ZeroSidesCharacterised(t: Thickness, tokens: seq<string>, s: Side)
    ensures SideOf(ZeroSides(t, tokens), s) == if Named(tokens, s) then 0.0 else SideOf(t, s)
    decreases |tokens|
  {
    if tokens != [] {
      ZeroSidesCharacterised(ZeroNamed(t, tokens[0]), tokens[1..], s);
      if Named(tokens, s) {
        var i :| 0 <= i < |tokens| && NamedSide(tokens[i]) == Some(s);
        if i > 0 {
          assert tokens[1..][i - 1] == tokens[i];
        }
      }
      if Named(tokens[1..], s) {
        var i :| 0 <= i < |tokens[1..]| && NamedSide(tokens[1..][i]) == Some(s);
        assert tokens[i + 1] == tokens[1..][i];
      }
    }
  }

  /** Two thicknesses that agree on every side are equal. */
  lemma SidesDetermine(a: Thickness, b: Thickness)
    requires forall s :: SideOf(a, s) == SideOf(b, s)
    ensures a == b
  {
    assert SideOf(a, LeftSide) == SideOf(b, LeftSide);
    assert SideOf(a, TopSide) == SideOf(b, TopSide);
    assert SideOf(a, RightSide) == SideOf(b, RightSide);
    assert SideOf(a, BottomSide) == SideOf(b, BottomSide);
  }

  /** The order of the tokens, and repeating them, does not matter: any two token
      lists holding the same tokens give the same result. */
  lemma TokenOrderIrrelevant(t: Thickness, tokens: seq<string>, tokens': seq<string>)
    requires forall x :: x in tokens <==> x in tokens'
    ensures ZeroSides(t, tokens) == ZeroSides(t, tokens')
  {
    forall s ensures SideOf(ZeroSides(t, tokens), s) == SideOf(ZeroSides(t, tokens'), s) {
      ZeroSidesCharacterised(t, tokens, s);
      ZeroSidesCharacterised(t, tokens', s);
      if Named(tokens, s) {
        var i :| 0 <= i < |tokens| && NamedSide(tokens[i]) == Some(s);
        assert tokens[i] in tokens';
        var j :| 0 <= j < |tokens'| && tokens'[j] == tokens[i];
      }
      if Named(tokens', s) {
        var i :| 0 <= i < |tokens'| && NamedSide(tokens'[i]) == Some(s);
        assert tokens'[i] in tokens;
        var j :| 0 <= j < |tokens| && tokens[j] == tokens'[i];
      }
    }
    SidesDetermine(ZeroSides(t, tokens), ZeroSides(t, tokens'));
  }

  /** Applying the same parameter twice is applying it once. */
  lemma ZeroSidesIdempotent(t: Thickness, tokens: seq<string>)
    ensures ZeroSides(ZeroSides(t, tokens), tokens) == ZeroSides(t, tokens)
  {
    var once := ZeroSides(t, tokens);
    forall s ensures SideOf(ZeroSides(once, tokens), s) == SideOf(once, s) {
      ZeroSidesCharacterised(t, tokens, s);
      ZeroSidesCharacterised(once, tokens, s);
    }
    SidesDetermine(ZeroSides(once, tokens), once);
  }

  /** The tokens a parameter gives: none for a null parameter. */
  function ParameterTokens(parameter: Option<string>): seq<string>
  {
    if parameter.None? then [] else Tokens(parameter.value)
  }

  /** Convert: coerce the value, then zero the named sides token by token. */
  method Convert(value: BoundValue, parameter: Option<string>, tryParse: string -> Option<real>)
    returns (target: Thickness)
    ensures target == ZeroSides(Coerce(value, tryParse), ParameterTokens(parameter))
  {
    target := Thickness(0.0, 0.0, 0.0, 0.0);
    match value {
      case ThicknessValue(t) =>
        target := t;
      case NullValue =>
      case _ =>
        var test := tryParse(Text(value));
        if test.Some? {
          var d := test.value;
          target := Thickness(d, d, d, d);
        }
    }
    if parameter.Some? {
      var paras := Tokens(parameter.value);
      for i := 0 to |paras|
        invariant ZeroSides(target, paras[i..]) == ZeroSides(Coerce(value, tryParse), paras)
      {
        match NamedSide(paras[i]) {
          case Some(TopSide) => target := target.(top := 0.0);
          case Some(LeftSide) => target := target.(left := 0.0);
          case Some(RightSide) => target := target.(right := 0.0);
          case Some(BottomSide) => target := target.(bottom := 0.0);
          case None =>
        }
        assert paras[i..][1..] == paras[i + 1..];
      }
    }
  }

  /** What Convert gives, side by side: a side is zero exactly when the parameter
      names it, and otherwise is the coerced value's; a null parameter changes
      nothing. */
  lemma ConvertSides(value: BoundValue, parameter: Option<string>, tryParse: string -> Option<real>, s: Side)
    ensures var r := ZeroSides(Coerce(value, tryParse), ParameterTokens(parameter));
      && SideOf(r, s) == (if Named(ParameterTokens(parameter), s) then 0.0 else SideOf(Coerce(value, tryParse), s))
      && (parameter.None? ==> r == Coerce(value, tryParse))
  {
    ZeroSidesCharacterised(Coerce(value, tryParse), ParameterTokens(parameter), s);
  }

  /** ConvertBack is not supported: every input gives UnsetValue. */
  function ConvertBack(value: BoundValue, parameter: Option<string>): (r: BoundValue)
    ensures r.UnsetValue?
  {
    UnsetValue
  }
}
