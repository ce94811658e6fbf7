/** One side of the resize/glow border drawn around a content window: its geometry,
    its glow opacity, the nine-way hit-test of a point on it and the window
    messages it answers itself. Window-system calls are left out; the point of a
    hit-test arrives already converted to window coordinates. */
module BorderWindows {
  import F = Framework
  import ThicknessToDouble

  /** The content window's ResizeMode. */
  datatype ResizeMode = NoResize | CanMinimize | CanResize | CanResizeWithGrip

  /** The hit-test codes the border answers with (the Win32 HT* values). */
  datatype ChromeHitTest =
    | Client | Left | Right | Top | TopLeft | TopRight
    | Bottom | BottomLeft | BottomRight | Border

  function Code(h: ChromeHitTest): int
  {
    match h
    case Client => 1
    case Left => 10
    case Right => 11
    case Top => 12
    case TopLeft => 13
    case TopRight => 14
    case Bottom => 15
    case BottomLeft => 16
    case BottomRight => 17
    case Border => 18
  }

  predicate Resizable(mode: ResizeMode)
  {
    mode == CanResizeWithGrip || mode == CanResize
  }

  /** The size of the corner zones: `(int)(2 * PadSize)`. */
  function DiagSize(padSize: real): int
  {
    F.TruncReal(2.0 * padSize)
  }

  /** The hit-test of point (x, y) on the border window of `side`, as written.
      On the top side the right-hand corner answers BottomRight. */
  function HandleHcHitTest(mode: ResizeMode, side: F.Side, x: real, y: real,
                           width: real, height: real, padSize: real): ChromeHitTest
  {
    if !Resizable(mode) then Border
    else
      var diag := DiagSize(padSize) as real;
      match side
      case LeftSide =>
        if y <= diag then TopLeft else if y >= height - diag then BottomLeft else Left
      case TopSide =>
        if x <= diag then TopLeft else if x >= width - diag then BottomRight else Top
      case RightSide =>
        if y <= diag then TopRight else if y >= height - diag then BottomRight else Right
      case BottomSide =>
        if x <= diag then BottomLeft else if x >= width - diag then BottomRight else Bottom
  }

  /** The hit-test with the top side's right-hand corner answering TopRight. */
  function HitTest(mode: ResizeMode, side: F.Side, x: real, y: real,
                   width: real, height: real, padSize: real): (h: ChromeHitTest)
    ensures side != F.TopSide ==> h == HandleHcHitTest(mode, side, x, y, width, height, padSize)
  {
    if !Resizable(mode) then Border
    else
      var diag := DiagSize(padSize) as real;
      match side
      case LeftSide =>
        if y <= diag then TopLeft else if y >= height - diag then BottomLeft else Left
      case TopSide =>
        if x <= diag then TopLeft else if x >= width - diag then TopRight else Top
      case RightSide =>
        if y <= diag then TopRight else if y >= height - diag then BottomRight else Right
      case BottomSide =>
        if x <= diag then BottomLeft else if x >= width - diag then BottomRight else Bottom
  }

  /** The window edges a hit-test code resizes. */
  function Edges(h: ChromeHitTest): set<F.Side>
  {
    match h
    case Left => {F.LeftSide}
    case Right => {F.RightSide}
    case Top => {F.TopSide}
    case Bottom => {F.BottomSide}
    case TopLeft => {F.TopSide, F.LeftSide}
    case TopRight => {F.TopSide, F.RightSide}
    case BottomLeft => {F.BottomSide, F.LeftSide}
    case BottomRight => {F.BottomSide, F.RightSide}
    case Client | Border => {}
  }

  /** The answer is Border exactly when the content window cannot be resized, and
      never Client. */
  lemma HitTestBorderIffNotResizable(mode: ResizeMode, side: F.Side, x: real, y: real,
                                     width: real, height: real, padSize: real)
    ensures var h := HandleHcHitTest(mode, side, x, y, width, height, padSize);
      && (h == Border <==> !Resizable(mode))
      && h != Client
    ensures var h := HitTest(mode, side, x, y, width, height, padSize);
      && (h == Border <==> !Resizable(mode))
      && h != Client
  {
  }

  /** On a resizable window the corrected hit-test always resizes the edge the border
      window stands on, and a corner exactly within the corner zones. */
  lemma {:induction false} HitTestResizesOwnEdge(mode: ResizeMode, side: F.Side, x: real, y: real,
                                                 width: real, height: real, padSize: real)
    requires Resizable(mode)
    ensures var h := HitTest(mode, side, x, y, width, height, padSize);
      var diag := DiagSize(padSize) as real;
      var along := if side == F.LeftSide || side == F.RightSide then y else x;
      var extent := if side == F.LeftSide || side == F.RightSide then height else width;
      && side in Edges(h)
      && (|Edges(h)| == 2 <==> along <= diag || along >= extent - diag)
  {
    var h := HitTest(mode, side, x, y, width, height, padSize);
    match h
    case TopLeft => assert Edges(h) == {F.TopSide, F.LeftSide};
    case TopRight => assert Edges(h) == {F.TopSide, F.RightSide};
    case BottomLeft => assert Edges(h) == {F.BottomSide, F.LeftSide};
    case BottomRight => assert Edges(h) == {F.BottomSide, F.RightSide};
    case _ =>
  }

  /** The point (width, 0) at the right end of the top border of a window wider than
      the corner zone: the code as written answers BottomRight, a corner whose edges do
      not include the top edge, where the corrected hit-test answers TopRight. */
  lemma TopRightCornerAnswersBottomRight(width: real, height: real, padSize: real)
    requires padSize >= 0.0 && width > DiagSize(padSize) as real
    ensures HandleHcHitTest(CanResize, F.TopSide, width, 0.0, width, height, padSize) == BottomRight
    ensures HitTest(CanResize, F.TopSide, width, 0.0, width, height, padSize) == TopRight
    ensures F.TopSide !in Edges(BottomRight)
  {
    assert Edges(BottomRight) == {F.BottomSide, F.RightSide};
  }

  /** The corner zones on the left and right sides: the top test wins when the zones overlap. */
  lemma VerticalSideZones(mode: ResizeMode, side: F.Side, x: real, y: real,
                          width: real, height: real, padSize: real)
    requires Resizable(mode) && (side == F.LeftSide || side == F.RightSide)
    ensures var h := HandleHcHitTest(mode, side, x, y, width, height, padSize);
      var diag := DiagSize(padSize) as real;
      && (h.TopLeft? || h.TopRight? <==> y <= diag)
      && (h.BottomLeft? || h.BottomRight? <==> diag < y && y >= height - diag)
      && (h == Left || h == Right <==> diag < y < height - diag)
  {
  }

  /** The zones on the top and bottom sides. */
  lemma HorizontalSideZones(mode: ResizeMode, side: F.Side, x: real, y: real,
                            width: real, height: real, padSize: real)
    requires Resizable(mode) && (side == F.TopSide || side == F.BottomSide)
    ensures var h := HandleHcHitTest(mode, side, x, y, width, height, padSize);
      var diag := DiagSize(padSize) as real;
      && (h == (if side == F.TopSide then TopLeft else BottomLeft) <==> x <= diag)
      && (h == BottomRight <==> diag < x && x >= width - diag)
      && (h == (if side == F.TopSide then Top else Bottom) <==> diag < x < width - diag)
  {
  }

  /** The border length UpdatePosn gives: the window's extent along its side, less
      the two corner pads, and never negative. */
  function BorderLengthFor(side: F.Side, width: real, height: real, padSize: real): (r: real)
    ensures r >= 0.0
    ensures var along := if side == F.LeftSide || side == F.RightSide then height else width;
      r >= along - 2.0 * padSize && (r == 0.0 || r == along - 2.0 * padSize)
  {
    var pad := 2.0 * padSize;
    match side
    case LeftSide | RightSide => if height - pad > 0.0 then height - pad else 0.0
    case TopSide | BottomSide => if width - pad > 0.0 then width - pad else 0.0
  }

  /** The glow opacity for the content window's active state. */
  function GlowFor(isContentActive: bool): (o: real)
    ensures 0.0 < o < 1.0
    ensures isContentActive ==> o == 0.9
    ensures !isContentActive ==> o == 0.5
  {
    if isContentActive then 0.9 else 0.5
  }

  /** The MA_* answers to WM_MOUSEACTIVATE. */
  const MaNoActivate: int := 3
  const MaNoActivateAndEat: int := 4

  /** The WM_MOUSEACTIVATE answer for an lParam: only its low 16 bits, the hit-test code,
      count. `0xffff & lParam` on a two's-complement int is lParam modulo 65536. */
  function MouseActivateAnswer(lParam: int): (r: int)
    ensures r == MaNoActivateAndEat <==> lParam % 0x1_0000 == Code(Client)
    ensures r == MaNoActivate || r == MaNoActivateAndEat
  {
    var lowword := lParam % 0x1_0000;
    if lowword == Code(Client) then MaNoActivateAndEat else MaNoActivate
  }

  /** The high word of lParam never changes the WM_MOUSEACTIVATE answer. */
  lemma MouseActivateIgnoresHighWord(lParam: int, high: int)
    ensures MouseActivateAnswer(lParam + high * 0x1_0000) == MouseActivateAnswer(lParam)
  {
    assert (lParam + high * 0x1_0000) % 0x1_0000 == lParam % 0x1_0000;
  }

  /** What WM_GETMINMAXINFO adds to both coordinates of ptMaxTrackSize: `2 * (int)PadSize`.
      This truncates before doubling, unlike the corner size. */
  function MaxTrackGrowth(padSize: real): (g: int)
    ensures g % 2 == 0
    ensures 0.0 <= padSize ==> 0 <= g <= DiagSize(padSize) && DiagSize(padSize) - g <= 1
  {
    2 * F.TruncReal(padSize)
  }

  /** The window messages the border window answers itself; every other message
      is OtherMessage. */
  datatype WindowMessage =
    | NcCalcSize | NcHitTest
    | NcRButtonDown | NcMButtonDown | NcRButtonDblClk | NcMButtonDblClk
    | RButtonDblClk | MButtonDblClk | LButtonDblClk
    | NcLButtonDown | NcLButtonDblClk
    | MouseActivate | GetMinMaxInfo
    | OtherMessage(code: int)

  /** What the handler does to the content window: nothing, bring it to the
      foreground, or also forward the message to it. */
  datatype Forward = NoForward | Activate | ActivateAndForward

  /** The MINMAXINFO structure the message points at (only ptMaxTrackSize is touched). */
  class MinMaxInfo {
    var maxTrackX: int
    var maxTrackY: int

    constructor (x: int, y: int)
      ensures maxTrackX == x && maxTrackY == y
    {
      maxTrackX, maxTrackY := x, y;
    }
  }

  class BorderWindow {
    var side: F.Side
    var left: real
    var top: real
    var width: real
    var height: real
    var borderLength: real
    var padSize: real
    var glowOpacity: real
    var hasChrome: bool
    var isContentActive: bool

    /** BorderWindow(manager): property defaults, then the chrome bindings. The
        Side property still has its default (Left) when the pad size is bound. */
    constructor (isContentActive: bool, chrome: F.Option<F.Thickness>)
      ensures side == F.LeftSide && width == 1.0 && height == 1.0 && borderLength == 1.0
      ensures this.isContentActive == isContentActive
      ensures hasChrome == chrome.Some?
      ensures padSize == (if chrome.Some? then F.SideOf(chrome.value, F.LeftSide) else 8.0)
      ensures glowOpacity == (if chrome.Some? then GlowFor(isContentActive) else 0.9)
    {
      side := F.LeftSide;
      width, height := 1.0, 1.0;
      borderLength := 1.0;
      padSize := 8.0;
      glowOpacity := 0.9;
      this.isContentActive := isContentActive;
      hasChrome := false;
      new;
      UpdateChromeBindings(chrome);
    }

    /** The border brush update: the glow follows the content window's active state
        once a chrome is attached, and nothing changes without one. */
    method UpdateBorderBrush()
      modifies this`glowOpacity
      ensures glowOpacity == if hasChrome then GlowFor(isContentActive) else old(glowOpacity)
    {
      if hasChrome {
        if isContentActive {
          glowOpacity := 0.9;
        } else {
          glowOpacity := 0.5;
        }
      }
    }

    /** The IsContentActive property; its change callback updates the border brush. */
    method SetIsContentActive(active: bool)
      modifies this`isContentActive, this`glowOpacity
      ensures isContentActive == active
      ensures glowOpacity == if hasChrome && active != old(isContentActive)
                             then GlowFor(active) else old(glowOpacity)
    {
      var changed := active != isContentActive;
      isContentActive := active;
      if changed {
        UpdateBorderBrush();
      }
    }

    /** Attaches a chrome: the pad size is the chrome's resize-border thickness on this
        window's side (through ThicknessToDoubleConverter with the side as parameter),
        then the border brush is updated. */
    method UpdateChromeBindings(chrome: F.Option<F.Thickness>)
      modifies this`hasChrome, this`padSize, this`glowOpacity
      ensures hasChrome == chrome.Some?
      ensures padSize == if chrome.Some? then F.SideOf(chrome.value, side) else old(padSize)
      ensures glowOpacity == if chrome.Some? then GlowFor(isContentActive) else old(glowOpacity)
    {
      hasChrome := chrome.Some?;
      if chrome.Some? {
        padSize := ThicknessToDouble.Convert(F.ThicknessValue(chrome.value), F.Some(F.SideName(side)));
        PadSizeIsSideThickness(chrome.value, side);
      }
      UpdateBorderBrush();
    }

    /** UpdatePosn: stores the position and size, and derives the border length. */
    method UpdatePosn(left: real, top: real, width: real, height: real)
      modifies this`left, this`top, this`width, this`height, this`borderLength
      ensures this.left == left && this.top == top && this.width == width && this.height == height
      ensures borderLength == BorderLengthFor(side, width, height, padSize)
      ensures borderLength >= 0.0
    {
      this.left := left;
      this.top := top;
      this.width := width;
      this.height := height;
      var pad := 2.0 * padSize;
      match side {
        case LeftSide =>
          borderLength := if height - pad > 0.0 then height - pad else 0.0;
        case RightSide =>
          borderLength := if height - pad > 0.0 then height - pad else 0.0;
        case TopSide =>
          borderLength := if width - pad > 0.0 then width - pad else 0.0;
        case BottomSide =>
          borderLength := if width - pad > 0.0 then width - pad else 0.0;
      }
    }

    /** The window procedure hook. `handled` is the ref flag on entry; the results are
        the message result, the flag on exit and what is done to the content window.
        For WM_NCHITTEST, (x, y) is the cursor in this window's coordinates, and the
        answer is HandleHcHitTest's as written, top-right corner slip included. */
    method WndProc(msg: WindowMessage, lParam: int, handled: bool,
                   mode: ResizeMode, x: real, y: real, info: MinMaxInfo)
      returns (retVal: int, handledOut: bool, forward: Forward)
      modifies info
      ensures handled ==> retVal == 0 && handledOut && forward == NoForward
      ensures handled || msg != GetMinMaxInfo ==> unchanged(info)
      ensures !handled ==>
        match msg
        case NcCalcSize => retVal == 0 && handledOut && forward == NoForward
        case NcHitTest =>
          && retVal == Code(HandleHcHitTest(mode, side, x, y, width, height, padSize))
          && handledOut && forward == NoForward
        case NcRButtonDown | NcMButtonDown | NcRButtonDblClk | NcMButtonDblClk
           | RButtonDblClk | MButtonDblClk | LButtonDblClk =>
          retVal == 0 && handledOut && forward == Activate
        case NcLButtonDown | NcLButtonDblClk =>
          retVal == 0 && handledOut && forward == ActivateAndForward
        case MouseActivate =>
          retVal == MouseActivateAnswer(lParam) && handledOut && forward == NoForward
        case GetMinMaxInfo =>
          && retVal == 0 && !handledOut && forward == NoForward
          && info.maxTrackX == old(info.maxTrackX) + MaxTrackGrowth(padSize)
          && info.maxTrackY == old(info.maxTrackY) + MaxTrackGrowth(padSize)
        case OtherMessage(_) => retVal == 0 && !handledOut && forward == NoForward
    {
      retVal, handledOut, forward := 0, handled, NoForward;
      if !handled {
        match msg {
          case NcCalcSize =>
            handledOut := true;
          case NcHitTest =>
            var res := HandleHcHitTest(mode, side, x, y, width, height, padSize);
            retVal := Code(res);
            handledOut := true;
          case NcRButtonDown =>
            handledOut, forward := true, Activate;
          case NcMButtonDown =>
            handledOut, forward := true, Activate;
          case NcRButtonDblClk =>
            handledOut, forward := true, Activate;
          case NcMButtonDblClk =>
            handledOut, forward := true, Activate;
          case RButtonDblClk =>
            handledOut, forward := true, Activate;
          case MButtonDblClk =>
            handledOut, forward := true, Activate;
          case LButtonDblClk =>
            handledOut, forward := true, Activate;
          case NcLButtonDown =>
            handledOut, forward := true, ActivateAndForward;
          case NcLButtonDblClk =>
            handledOut, forward := true, ActivateAndForward;
          case MouseActivate =>
            var lowword := lParam % 0x1_0000;
            if lowword == Code(Client) {
              retVal := MaNoActivateAndEat;
            } else {
              retVal := MaNoActivate;
            }
            handledOut := true;
          case GetMinMaxInfo =>
            var thick := 2 * F.TruncReal(padSize);
            info.maxTrackX := info.maxTrackX + thick;
            info.maxTrackY := info.maxTrackY + thick;
          case OtherMessage(_) =>
        }
      }
    }
  }

  /** Binding the pad size through ThicknessToDoubleConverter with the side as the
      parameter yields that side's resize-border thickness. */
  lemma PadSizeIsSideThickness(t: F.Thickness, side: F.Side)
    ensures ThicknessToDouble.Convert(F.ThicknessValue(t), F.Some(F.SideName(side))) == F.SideOf(t, side)
  {
    ThicknessToDouble.SideNameAnyCase(t, side, F.SideName(side));
  }
}
