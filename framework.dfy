/** Value types of the host UI framework and the C# semantics the core relies on:
    nullable values, keys, visibilities, thicknesses, boxed binding values,
    ASCII case folding and the C# integer and double-to-int truncations. */
module Framework {

  datatype Option<+T> = None | Some(value: T)

  /** A failure-compatible outcome for operations that throw in the source. */
  datatype Outcome<+E> = Pass | Fail(error: E)

  /** The exceptions the modelled code can raise. */
  datatype Exception = ArgumentNull | DivideByZero | NullReference

  /** The keys the keyboard handlers distinguish; every other key is OtherKey. */
  datatype Key = Escape | Up | Down | PageUp | PageDown | Left | Right | OtherKey(code: int)

  datatype Visibility = Visible | Collapsed

  /** A WPF Thickness: one length per side of a rectangle. */
  datatype Thickness = Thickness(left: real, top: real, right: real, bottom: real)

  /** The four sides a thickness (and a border window) has. */
  datatype Side = LeftSide | TopSide | RightSide | BottomSide

  /** The length a thickness gives to one side. */
  function SideOf(t: Thickness, s: Side): real
  {
    match s
    case LeftSide => t.left
    case TopSide => t.top
    case RightSide => t.right
    case BottomSide => t.bottom
  }

  /** The name the framework prints for a side (the enum member name). */
  function SideName(s: Side): string
  {
    match s
    case LeftSide => "Left"
    case TopSide => "Top"
    case RightSide => "Right"
    case BottomSide => "Bottom"
  }

  /** The upper-cased side names. */
  lemma UpperSideName(s: Side)
    ensures Upper(SideName(s)) == match s
      case LeftSide => "LEFT"
      case TopSide => "TOP"
      case RightSide => "RIGHT"
      case BottomSide => "BOTTOM"
  {
    match s
    case LeftSide => assert Upper("Left") == "LEFT";
    case TopSide => assert Upper("Top") == "TOP";
    case RightSide => assert Upper("Right") == "RIGHT";
    case BottomSide => assert Upper("Bottom") == "BOTTOM";
  }

  /** A value as a binding hands it to a converter: null, a boxed Thickness,
      a boxed bool, or any other object, represented by what its ToString() gives. */
  datatype BoundValue =
    | NullValue
    | ThicknessValue(thickness: Thickness)
    | BoolValue(flag: bool)
    | OtherValue(text: string)
    | UnsetValue  // DependencyProperty.UnsetValue

  /** Object.ToString() of a non-null bound value. */
  function Text(v: BoundValue): string
    requires !v.NullValue?
  {
    match v
    case ThicknessValue(t) => "Thickness"
    case BoolValue(b) => if b then "True" else "False"
    case OtherValue(s) => s
    case UnsetValue => "{DependencyProperty.UnsetValue}"
  }

  /** Upper-casing of one character, folding the ASCII letters only. */
  function UpperChar(c: char): (u: char)
    ensures 'a' <= c <= 'z' ==> 'A' <= u <= 'Z' && u as int == c as int - 32
    ensures !('a' <= c <= 'z') ==> u == c
  {
    if 'a' <= c <= 'z' then (c as int - 32) as char else c
  }

  /** String.ToUpperInvariant, restricted to ASCII case mapping. */
  function Upper(s: string): (u: string)
    ensures |u| == |s|
  {
    if s == [] then [] else [UpperChar(s[0])] + Upper(s[1..])
  }

  /** Upper maps the string character by character. */
  lemma {:induction false} UpperAt(s: string, i: int)
    requires 0 <= i < |s|
    ensures Upper(s)[i] == UpperChar(s[i])
    decreases i
  {
    if i > 0 {
      UpperAt(s[1..], i - 1);
    }
  }

  /** String.Equals(a, b, StringComparison.OrdinalIgnoreCase), restricted to ASCII case mapping. */
  predicate EqualsIgnoreCase(a: string, b: string)
  {
    Upper(a) == Upper(b)
  }

  /** C# `(int)d` for a double d in range: truncation toward zero. */
  function TruncReal(r: real): (n: int)
    ensures 0.0 <= r ==> n as real <= r < n as real + 1.0
    ensures r < 0.0 ==> n as real - 1.0 < r <= n as real
  {
    if r >= 0.0 then r.Floor else -((-r).Floor)
  }

  function Abs(x: int): int { if x < 0 then -x else x }

  /** C# `a / b` on ints: the quotient truncated toward zero (Dafny's `/` is Euclidean),
      so that the remainder `a - q * b` has the sign of `a` and is smaller than `b` in magnitude. */
  function TruncDiv(a: int, b: int): (q: int)
    requires b != 0
    ensures 0 <= a ==> 0 <= a - q * b < Abs(b)
    ensures a < 0 ==> -Abs(b) < a - q * b <= 0
    ensures Abs(q) <= Abs(a)
  {
    var n, d := Abs(a), Abs(b);
    QuotientBound(n, d);
    var q := if (a >= 0) == (b > 0) then n / d else -(n / d);
    SignedProduct(q, b, n / d, d);
    q
  }

  /** The Euclidean quotient of naturals is at most the dividend. */
  lemma QuotientBound(n: int, d: int)
    requires n >= 0 && d >= 1
    ensures 0 <= n / d <= n
    ensures 0 <= n - (n / d) * d < d
  {
    var q, r := n / d, n % d;
    assert q * d + r == n && 0 <= r < d;
    if q < 0 {
      ProductAtMostNegated(q, d);
    }
    ProductAtLeast(q, d);
  }

  lemma ProductAtLeast(q: int, d: int)
    requires q >= 0 && d >= 1
    ensures q * d >= q
  {
  }

  lemma ProductAtMostNegated(q: int, d: int)
    requires q <= -1 && d >= 1
    ensures q * d <= -d
  {
  }

  /** Flipping the signs of both factors, or of one, keeps or flips the product. */
  lemma SignedProduct(q: int, b: int, m: int, d: int)
    requires q == m || q == -m
    requires b == d || b == -d
    ensures q * b == (if (q == m) == (b == d) then m * d else -(m * d))
  {
  }
  /** The range of a C# `int`. */
  const IntMin: int := -0x8000_0000
  const IntMax: int := 0x7FFF_FFFF
  type Int32 = x: int | IntMin <= x <= IntMax
}
