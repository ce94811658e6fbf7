# ModernWPF core, modelled in Dafny

This project models the parts of the ModernWPF control library whose behaviour can
be stated and proved apart from the WPF runtime:

- the paging view model (`PagerViewModel`): page count, the command guards, the
  page each command asks for, and the page-size setter;
- the resize/glow border window (`BorderWindow`): its nine-way hit-test, border
  length, glow opacity and the window messages it answers;
- the animated scroll viewer (`AnimatedScrollViewer`): how the wheel, the
  horizontal wheel, the keyboard and the scroll bars move the target offsets, the
  clamp into the scrollable range, the non-animated jump to the targets, and the
  NullReferenceException a target change raises while an animated bar is missing;
- the flyout (`Flyout`): its tri-state dialog result, open flag and modal loop;
- the message box flyout (`MessageBoxFlyout`): visible buttons and icon, the
  default button, button clicks and the modal result;
- three value converters: `ThicknessZeroSideConverter`,
  `ThicknessToDoubleConverter` and `BoolVisibleConverter`;
- the accent colour (`Accent`) and its derived brushes.

Each source file is one module. Stateful objects are classes with the source's
fields, and pure logic is functions. Every class method is proved against a
specification function, and lemmas prove the properties of those functions.
The shared module `Framework` holds what the parts have in common:

- the WPF value types: `Thickness`, `Visibility`, keys, and bound values;
- ASCII case folding;
- C#'s truncating integer division and `(int)` cast of a double.

Doubles are modelled as reals. Some of the framework's behaviour becomes
parameters of the model:

- `double.TryParse`;
- the HSL colour conversions;
- the scroll viewer's `CanVScrollUp`-style queries and its animation switch;
- whether the pager is busy;
- a message box's `OnClosing` override;
- the sequence of inputs the dispatcher delivers while a modal loop runs.

## Model

| member | source | states |
|---|---|---|
| Pager.ClampCount | src/ModernWpf.Core/ViewModels/PagerViewModel.cs:76 | a negative item count becomes 0 and any other is kept |
| Pager.PageCountHoldsItems | src/ModernWpf.Core/ViewModels/PagerViewModel.cs:77 | for a positive page size and at least one item, the page count is the least number of pages that holds every item |
| Pager.EmptyPageCount | src/ModernWpf.Core/ViewModels/PagerViewModel.cs:76-77 | with no items, truncating division gives 0 pages for page size 1 and 1 page for any larger size |
| Pager.PageCountFitsInt | src/ModernWpf.Core/ViewModels/PagerViewModel.cs:77 | for int-sized inputs the page count fits in an int, so the C# arithmetic cannot overflow |
| Pager.ShownPage | src/ModernWpf.Core/ViewModels/PagerViewModel.cs:100 | the CurrentPage getter never exceeds the page count, and it shows the stored page whenever that is within the count |
| Pager.EnabledNavigationStaysInRange | src/ModernWpf.Core/ViewModels/PagerViewModel.cs:215-288 | every enabled First/Prev/Next/Last command asks for a page that is at most the page count and differs from the page shown; First and Prev ask for at least page 1, and so do Next and Last when the stored page is non-negative |
| Pager.GuardsCharacterised | src/ModernWpf.Core/ViewModels/PagerViewModel.cs:199-206 | CanGoPrevPage holds iff not busy, page > 1 and pages > 1; CanGoNextPage holds iff not busy and page < pages |
| Pager.BusyDisablesAll | src/ModernWpf.Core/ViewModels/PagerViewModel.cs:215-288 | while busy, no command (including Reload) is enabled |
| Pager.MoreThanOnePageMeansAnyPage | src/ModernWpf.Core/ViewModels/PagerViewModel.cs:192 | HasMoreThanOnePage holds iff there is at least one page, so it also holds for exactly one page |
| Pager.NonPositivePageSizeSticks | src/ModernWpf.Core/ViewModels/PagerViewModel.cs:118-126 | as written, once a non-positive size is set, no later assignment changes it |
| Pager.ValidatedPageSizeAfterSet | src/ModernWpf.Core/ViewModels/PagerViewModel.cs:118-126 | the corrected setter keeps either the old or the new size, and takes any positive new size |
| Pager.ValidatedPageSizeStaysPositive | src/ModernWpf.Core/ViewModels/PagerViewModel.cs:118-126 | under the corrected setter a positive page size stays positive after any sequence of assignments |
| Pager.PagerViewModel.constructor | src/ModernWpf.Core/ViewModels/PagerViewModel.cs:36-43 | page 1 of 1, no items, and the given page size if positive, else 100 |
| Pager.PagerViewModel.SetPageChangedCallback | src/ModernWpf.Core/ViewModels/PagerViewModel.cs:67 | the callback can be set or cleared at any time, and later requests follow the current setting |
| Pager.PagerViewModel.TryGoToPage | src/ModernWpf.Core/ViewModels/PagerViewModel.cs:45-51 | the callback is asked for the page exactly when one is set |
| Pager.PagerViewModel.UpdateStat | src/ModernWpf.Core/ViewModels/PagerViewModel.cs:74-89 | with page size 0 it fails with a division by zero and changes nothing; otherwise it stores the page, the clamped count and PageCount |
| Pager.PagerViewModel.CurrentPage | src/ModernWpf.Core/ViewModels/PagerViewModel.cs:100 | the getter is ShownPage of the stored page and page count |
| Pager.PagerViewModel.SetCurrentPage | src/ModernWpf.Core/ViewModels/PagerViewModel.cs:101-105 | only a positive value is passed to the callback; the stored page is unchanged |
| Pager.PagerViewModel.SetPageSize | src/ModernWpf.Core/ViewModels/PagerViewModel.cs:118-126 | as written: the new size is assigned and the current page reloaded only when the OLD size is positive |
| Pager.PagerViewModel.SetPageSizeValidated | src/ModernWpf.Core/ViewModels/PagerViewModel.cs:118-126 | corrected: the new size is assigned and the current page reloaded exactly when the NEW size is positive |
| Pager.PagerViewModel.Execute | src/ModernWpf.Core/ViewModels/PagerViewModel.cs:173-288 | a command runs iff its guard allows it, and then asks the callback for its Target page |
| BorderWindows.HitTest | src/ModernWpf.Core/Internal/Controls/BorderWindow.cs:304-338 | the corrected hit-test agrees with the code as written on every side but the top |
| BorderWindows.HitTestBorderIffNotResizable | src/ModernWpf.Core/Internal/Controls/BorderWindow.cs:306-311 | both hit-tests answer Border iff the content window cannot be resized, and never answer Client |
| BorderWindows.HitTestResizesOwnEdge | src/ModernWpf.Core/Internal/Controls/BorderWindow.cs:304-338 | on a resizable window the corrected answer always resizes the edge the border stands on, and is a corner exactly inside the corner zones |
| BorderWindows.TopRightCornerAnswersBottomRight | src/ModernWpf.Core/Internal/Controls/BorderWindow.cs:319-323 | as written, the right end of the top border answers BottomRight, which does not resize the top edge; the corrected test answers TopRight |
| BorderWindows.VerticalSideZones | src/ModernWpf.Core/Internal/Controls/BorderWindow.cs:313-328 | on the left and right borders: a top corner iff y is in the top zone, a bottom corner iff y is past the top zone and in the bottom zone, the plain edge iff y is between the zones |
| BorderWindows.HorizontalSideZones | src/ModernWpf.Core/Internal/Controls/BorderWindow.cs:319-333 | on the top and bottom borders: the left corner iff x is in the left zone, BottomRight iff x is in the right zone, the plain edge iff x is between the zones |
| BorderWindows.BorderLengthFor | src/ModernWpf.Core/Internal/Controls/BorderWindow.cs:171-192 | the border length is the extent along the side less two pads, floored at zero |
| BorderWindows.GlowFor | src/ModernWpf.Core/Internal/Controls/BorderWindow.cs:63-81 | the glow opacity is 0.9 for an active content window and 0.5 otherwise |
| BorderWindows.MouseActivateAnswer | src/ModernWpf.Core/Internal/Controls/BorderWindow.cs:273-287 | MA_NOACTIVATEANDEAT iff the low word of lParam is HTCLIENT, and MA_NOACTIVATE otherwise |
| BorderWindows.MouseActivateIgnoresHighWord | src/ModernWpf.Core/Internal/Controls/BorderWindow.cs:273-287 | the high word of lParam never changes the answer |
| BorderWindows.MaxTrackGrowth | src/ModernWpf.Core/Internal/Controls/BorderWindow.cs:288-298 | the max-track growth is even, and for a non-negative pad it lies within one of the corner size |
| BorderWindows.MinMaxInfo.constructor | src/ModernWpf.Core/Internal/Controls/BorderWindow.cs:288-298 | the structure holds the given max-track size |
| BorderWindows.BorderWindow.constructor | src/ModernWpf.Core/Internal/Controls/BorderWindow.cs:120-129 | property defaults, then the chrome bindings; the pad size is bound while Side is still Left |
| BorderWindows.BorderWindow.UpdateBorderBrush | src/ModernWpf.Core/Internal/Controls/BorderWindow.cs:63-81 | with a chrome, the glow follows the active state; without one, nothing changes |
| BorderWindows.BorderWindow.SetIsContentActive | src/ModernWpf.Core/Internal/Controls/BorderWindow.cs:63-81 | the flag is stored, and the glow is updated only on a change with a chrome attached |
| BorderWindows.BorderWindow.UpdateChromeBindings | src/ModernWpf.Core/Internal/Controls/BorderWindow.cs:143-163 | the pad size becomes the chrome's resize-border thickness on this side, and the glow is refreshed |
| BorderWindows.BorderWindow.UpdatePosn | src/ModernWpf.Core/Internal/Controls/BorderWindow.cs:171-192 | the position and size are stored, and the border length is BorderLengthFor |
| BorderWindows.BorderWindow.WndProc | src/ModernWpf.Core/Internal/Controls/BorderWindow.cs:239-302 | a handled message is ignored; otherwise each message gets its return value, handled flag and activation, WM_NCHITTEST answers the code of HandleHcHitTest as written (top-right corner slip included), and only GETMINMAXINFO touches the structure |
| BorderWindows.PadSizeIsSideThickness | src/ModernWpf.Core/Internal/Controls/BorderWindow.cs:146 | binding through ThicknessToDoubleConverter with the side's name yields that side of the thickness |
| ScrollViewers.NormalizeScrollPos | src/ModernWpf/Controls/AnimatedScrollViewer.cs:223-242 | a value above the bound becomes the bound (this test wins), a negative one becomes 0, and any other is kept; for a non-negative bound the result is in [0, bound] |
| ScrollViewers.NormalizeIdempotent | src/ModernWpf/Controls/AnimatedScrollViewer.cs:223-242 | normalising twice is normalising once |
| ScrollViewers.WheelTargetsInRange | src/ModernWpf/Controls/AnimatedScrollViewer.cs:54-159 | from in-range offsets, every wheel and horizontal-wheel target stays in range and moves in the wheel's direction |
| ScrollViewers.WheelPrefersVertical | src/ModernWpf/Controls/AnimatedScrollViewer.cs:122-159 | the wheel scrolls vertically iff the requested vertical direction is possible, and horizontally iff that is blocked, SimulateHWheel is on and the horizontal direction is possible |
| ScrollViewers.KeyTargetsInRange | src/ModernWpf/Controls/AnimatedScrollViewer.cs:165-221 | every keyboard target is in range whatever the offsets, and only the arrow and page keys scroll |
| ScrollViewers.AniBarClickSteps | src/ModernWpf/Controls/AnimatedScrollViewer.cs:271-336 | a page click moves by the viewport and an arrow click by 16 in the click's direction from the old value; a drag goes to the new value |
| ScrollViewers.Animate | src/ModernWpf/Controls/AnimatedScrollViewer.cs:545-582 | AnimateNow on the motion state: animated, both flags are set and the offsets kept; otherwise both offsets equal their targets and neither flag is set; targets and bars never change |
| ScrollViewers.SetTarget | src/ModernWpf/Controls/AnimatedScrollViewer.cs:357-405 | setting a target stores it and touches nothing of the other axis; it throws NullReferenceException iff the value changes while that axis's animated bar is missing, and then changes nothing else; a changed value otherwise moves the bar to it and settles the scroll unless overridden; an override or a throw leaves flags and offsets alone; an unchanged value changes nothing |
| ScrollViewers.SetTargetTwice | src/ModernWpf/Controls/AnimatedScrollViewer.cs:357-405 | setting a target to the value just set changes nothing and cannot throw |
| ScrollViewers.HandleScroll | src/ModernWpf/Controls/AnimatedScrollViewer.cs:54-221 | an input handler's tail throws iff setting the chosen target does; a throw leaves the event's handled flag as it was; otherwise the event is handled iff it was or a target was chosen; only the chosen target changes, and a handled event leaves the scroll settled |
| ScrollViewers.WheelKeepsTargetsInRange | src/ModernWpf/Controls/AnimatedScrollViewer.cs:54-159 | from offsets and targets inside the scrollable range, the wheel and the horizontal wheel leave both targets inside it |
| ScrollViewers.KeyKeepsTargetsInRange | src/ModernWpf/Controls/AnimatedScrollViewer.cs:165-221 | from targets inside the scrollable range, a key press leaves both targets inside it whatever the offsets |
| ScrollViewers.AnimatedScrollViewer.constructor | src/ModernWpf/Controls/AnimatedScrollViewer.cs:357-525 | the dependency-property defaults: offsets 0, AnimateScroll on, keyboard scrolling off; no animated bar before the template is applied |
| ScrollViewers.AnimatedScrollViewer.OnApplyTemplate | src/ModernWpf/Controls/AnimatedScrollViewer.cs:87-114 | outside design mode the animated bars become the template's parts, each missing when the template lacks it; in design mode nothing changes |
| ScrollViewers.AnimatedScrollViewer.AnimateNow | src/ModernWpf/Controls/AnimatedScrollViewer.cs:545-582 | the new motion state is Animate of the old one |
| ScrollViewers.AnimatedScrollViewer.SetTargetVerticalOffset | src/ModernWpf/Controls/AnimatedScrollViewer.cs:359-371 | the outcome and the whole new motion state are SetTarget's for the vertical axis under the current override flag |
| ScrollViewers.AnimatedScrollViewer.SetTargetHorizontalOffset | src/ModernWpf/Controls/AnimatedScrollViewer.cs:392-405 | the same for the horizontal axis |
| ScrollViewers.AnimatedScrollViewer.React | src/ModernWpf/Controls/AnimatedScrollViewer.cs:54-221 | the outcome, the handled flag and the new motion state are HandleScroll's for the chosen scroll |
| ScrollViewers.AnimatedScrollViewer.HandleHWheel | src/ModernWpf/Controls/AnimatedScrollViewer.cs:54-79 | a null or already-handled event changes nothing; otherwise the outcome, handled flag and new motion state are HandleScroll's for HWheelScroll's target |
| ScrollViewers.AnimatedScrollViewer.OnPreviewMouseWheel | src/ModernWpf/Controls/AnimatedScrollViewer.cs:122-159 | the same, with WheelScroll's target |
| ScrollViewers.AnimatedScrollViewer.OnKeyDown | src/ModernWpf/Controls/AnimatedScrollViewer.cs:165-221 | with a modifier key, keyboard scrolling off or a null event nothing changes; otherwise the outcome, handled flag and new motion state are HandleScroll's for KeyScroll's target, starting from the event's own handled flag |
| ScrollViewers.AnimatedScrollViewer.RealHorizontalScrollBarValueChanged | src/ModernWpf/Controls/AnimatedScrollViewer.cs:251-259 | during an animation nothing changes; otherwise the target follows the real bar as SetTarget under an override (no animation starts), and the override flag is cleared unless the setter throws |
| ScrollViewers.AnimatedScrollViewer.RealVerticalScrollBarValueChanged | src/ModernWpf/Controls/AnimatedScrollViewer.cs:261-269 | the vertical counterpart |
| ScrollViewers.AnimatedScrollViewer.AniVScrollBarValueChanged | src/ModernWpf/Controls/AnimatedScrollViewer.cs:271-302 | nothing changes when the bar is already at the target; otherwise the outcome and new motion state are SetTarget's for AniBarTarget |
| ScrollViewers.AnimatedScrollViewer.AniHScrollBarValueChanged | src/ModernWpf/Controls/AnimatedScrollViewer.cs:304-336 | the horizontal counterpart |
| Flyouts.FirstClosing | src/ModernWpf.Metro/Controls/Flyout.cs:220-241 | the index found is of a closing input, and no earlier input closes or shuts down |
| Flyouts.ModalResultIsClosingValue | src/ModernWpf.Metro/Controls/Flyout.cs:220-241 | an attached flyout shown modally closes at the first closing input before shutdown, with the value that input set; with none, it stays open with no result |
| Flyouts.DetachedNeverCloses | src/ModernWpf.Metro/Controls/Flyout.cs:45-58 | a flyout with no container is never closed by setting DialogResult |
| Flyouts.Flyout.constructor | src/ModernWpf.Metro/Controls/Flyout.cs:77-119 | not shown, no result, and CloseOnEscapeKey, CloseOnContainerClick and DisableTarget on |
| Flyouts.Flyout.SetContainer | src/ModernWpf.Metro/Controls/Flyout.cs:34 | the container is stored |
| Flyouts.Flyout.SetDialogResult | src/ModernWpf.Metro/Controls/Flyout.cs:45-58 | the value is always stored, and the flyout closes iff it has a container |
| Flyouts.Flyout.OnKeyDown | src/ModernWpf.Metro/Controls/Flyout.cs:134-143 | handled iff the key is Escape and CloseOnEscapeKey is on; then the result is set to false, otherwise nothing changes |
| Flyouts.Flyout.ShowDialog | src/ModernWpf.Metro/Controls/Flyout.cs:193-200 | a null container is an ArgumentNullException with no change; otherwise the flyout is attached, open and has no result |
| Flyouts.Flyout.ShowDialogModal | src/ModernWpf.Metro/Controls/Flyout.cs:220-241 | the final state is Pump over the inputs, and the result returned is the DialogResult at that point |
| MessageBoxes.VisibleButtonsShape | src/ModernWpf/Controls/MessageBoxFlyout.cs:247-272 | every kind shows a button; Yes and No come together and exclude OK; Cancel shows iff the kind names it |
| MessageBoxes.ShownIconInjective | src/ModernWpf/Controls/MessageBoxFlyout.cs:226-245 | exactly the four named images show an icon, and different images show different icons |
| MessageBoxes.FirstVisible | src/ModernWpf/Controls/MessageBoxFlyout.cs:186-197 | the button found is visible and in the panel, and none is found iff no panel button is visible |
| MessageBoxes.FirstVisibleAt | src/ModernWpf/Controls/MessageBoxFlyout.cs:186-197 | a visible button with no visible one before it is the one FirstVisible finds |
| MessageBoxes.FocusTargetChoice | src/ModernWpf/Controls/MessageBoxFlyout.cs:153-199 | the focused button is visible; the default result's button wins when it is visible; a panel holding every button always yields a focus |
| MessageBoxes.StaleCancelDefault | src/ModernWpf/Controls/MessageBoxFlyout.cs:247-253 | as written, a Yes/No/Cancel show with Cancel default, then an OK/Cancel show with OK default, leaves OK and Cancel both default and visible |
| MessageBoxes.ShowLeavesOneDefault | src/ModernWpf/Controls/MessageBoxFlyout.cs:247-272 | with all four flags cleared, a show leaves at most one default button, a visible one, and exactly one when the panel holds every button |
| MessageBoxes.ClickOutcomeMeaning | src/ModernWpf/Controls/MessageBoxFlyout.cs:107-138 | a click closes iff OnClosing allows it or the button is Cancel; it closes with the button's own result, and DialogResult is true iff that is OK or Yes |
| MessageBoxes.BaseOnClosing | src/ModernWpf/Controls/MessageBoxFlyout.cs:145-148 | the base OnClosing allows every result |
| MessageBoxes.ModalBoxResult | src/ModernWpf/Controls/MessageBoxFlyout.cs:209-218 | bounds on the returned result: the stored result or some button's; a box still open is unchanged; DialogResult true means OK or Yes; a newly stored Cancel means DialogResult false |
| MessageBoxes.FirstBoxClosing | src/ModernWpf.Metro/Controls/Flyout.cs:224-238 | the index found is of an input that closes the box (an allowed click, Cancel, or Escape with CloseOnEscapeKey), and no earlier input closes or shuts down |
| MessageBoxes.ModalBoxClosingInput | src/ModernWpf/Controls/MessageBoxFlyout.cs:107-218 | the first closing input before shutdown decides the outcome: a click leaves its button's result, with DialogResult true exactly for OK and Yes; Escape closes with DialogResult false and the previously stored result; with none the box stays open and unchanged |
| MessageBoxes.MessageBoxFlyout.constructor | src/ModernWpf/Controls/MessageBoxFlyout.cs:81-105 | the parts exist in the template's panel order, nothing is templated and no result is stored |
| MessageBoxes.MessageBoxFlyout.ApplyOptions | src/ModernWpf/Controls/MessageBoxFlyout.cs:220-274 | once templated: the title is shown, exactly the image's icon and the kind's buttons are visible, OK, Yes and No lose IsDefault and Cancel keeps its flag; before templating nothing changes |
| MessageBoxes.MessageBoxFlyout.ApplyOptionsCorrected | src/ModernWpf/Controls/MessageBoxFlyout.cs:220-274 | corrected: the same, with all four buttons losing IsDefault |
| MessageBoxes.MessageBoxFlyout.ShowIcon | src/ModernWpf/Controls/MessageBoxFlyout.cs:226-245 | exactly the image's icon is visible, and none for an image without one |
| MessageBoxes.MessageBoxFlyout.ShowButtons | src/ModernWpf/Controls/MessageBoxFlyout.cs:247-272 | exactly the kind's buttons are visible, OK, Yes and No lose IsDefault, and Cancel keeps its flag |
| MessageBoxes.MessageBoxFlyout.SetOptions | src/ModernWpf/Controls/MessageBoxFlyout.cs:211-215 | the caption, kind, image and default result are stored, and once templated the title, icon and buttons show them |
| MessageBoxes.MessageBoxFlyout.OnApplyTemplate | src/ModernWpf/Controls/MessageBoxFlyout.cs:81-105 | the first call templates the box and applies the options; later calls change nothing |
| MessageBoxes.MessageBoxFlyout.OnFocus | src/ModernWpf/Controls/MessageBoxFlyout.cs:153-199 | FocusTarget's button becomes default and focused, no other button and no visibility changes, and nothing changes when no button qualifies |
| MessageBoxes.MessageBoxFlyout.ApplyAndFocus | src/ModernWpf/Controls/MessageBoxFlyout.cs:153-272 | ApplyOptions followed by OnFocus leaves exactly DefaultsAfterShow's default buttons as written: Cancel's earlier flag plus the focus target |
| MessageBoxes.MessageBoxFlyout.ApplyAndFocusCorrected | src/ModernWpf/Controls/MessageBoxFlyout.cs:153-272 | with ApplyOptionsCorrected the default buttons are DefaultsAfterShow's with every flag cleared, so ShowLeavesOneDefault applies |
| MessageBoxes.MessageBoxFlyout.FindFirstVisible | src/ModernWpf/Controls/MessageBoxFlyout.cs:186-197 | the panel loop finds the index of FirstVisible's button, or none exactly when FirstVisible finds none |
| MessageBoxes.MessageBoxFlyout.Click | src/ModernWpf/Controls/MessageBoxFlyout.cs:107-138 | a closing click stores its result and sets the flyout's DialogResult; a refused one changes nothing |
| MessageBoxes.MessageBoxFlyout.ShowDialogModal | src/ModernWpf/Controls/MessageBoxFlyout.cs:209-218 | the options are stored and applied, a null container fails, and otherwise the final state is BoxPump from an open box keeping the stored result |
| MessageBoxes.MessageBoxFlyout.PumpInputs | src/ModernWpf.Metro/Controls/Flyout.cs:224-238 | the modal loop leaves the state BoxPump gives over the inputs |
| ThicknessZeroSide.Word | src/ModernWpf.Core/Converters/ThicknessZeroSideConverter.cs:15 | the longest separator-free prefix, ended by a separator or the end of the string |
| ThicknessZeroSide.Tokens | src/ModernWpf.Core/Converters/ThicknessZeroSideConverter.cs:56-58 | splitting on commas and spaces with empty entries removed gives non-empty, separator-free tokens |
| ThicknessZeroSide.TokensOfJoin | src/ModernWpf.Core/Converters/ThicknessZeroSideConverter.cs:56-58 | splitting the comma-joined list of non-empty separator-free tokens gives the tokens back |
| ThicknessZeroSide.Coerce | src/ModernWpf.Core/Converters/ThicknessZeroSideConverter.cs:41-55 | a Thickness is kept, null gives zeros, and any other value gives a uniform thickness if its text parses and zeros if not |
| ThicknessZeroSide.ZeroSidesCharacterised | src/ModernWpf.Core/Converters/ThicknessZeroSideConverter.cs:56-77 | a side ends up 0 iff some token names it in any case, and otherwise keeps its value |
| ThicknessZeroSide.TokenOrderIrrelevant | src/ModernWpf.Core/Converters/ThicknessZeroSideConverter.cs:56-77 | token lists holding the same tokens, in any order or repetition, give the same result |
| ThicknessZeroSide.ZeroSidesIdempotent | src/ModernWpf.Core/Converters/ThicknessZeroSideConverter.cs:56-77 | applying a parameter twice is applying it once |
| ThicknessZeroSide.Convert | src/ModernWpf.Core/Converters/ThicknessZeroSideConverter.cs:39-79 | the loop leaves the coerced value with the parameter's named sides zeroed |
| ThicknessZeroSide.ConvertSides | src/ModernWpf.Core/Converters/ThicknessZeroSideConverter.cs:39-79 | side by side, the result is 0 iff named and otherwise the coerced value's; a null parameter changes nothing |
| ThicknessZeroSide.ConvertBack | src/ModernWpf.Core/Converters/ThicknessZeroSideConverter.cs:91-94 | every input gives UnsetValue |
| ThicknessToDouble.Convert | src/ModernWpf.Core/Converters/ThicknessToDoubleConverter.cs:37-57 | a non-Thickness gives 0; a parameter naming a side in any case gives that side |
| ThicknessToDouble.AverageWhenNoSideNamed | src/ModernWpf.Core/Converters/ThicknessToDoubleConverter.cs:52-53 | a parameter naming no side gives the average, which lies between the smallest and largest sides and equals the common value of a uniform thickness |
| ThicknessToDouble.SideNameAnyCase | src/ModernWpf.Core/Converters/ThicknessToDoubleConverter.cs:41-51 | any spelling of a side's name that upper-cases to it selects that side |
| ThicknessToDouble.ConvertBack | src/ModernWpf.Core/Converters/ThicknessToDoubleConverter.cs:71-74 | every input gives UnsetValue |
| BoolVisible.Convert | src/ModernWpf.Core/Converters/BoolVisibleConverter.cs:35-44 | without "not", Visible iff the value is a boxed true; with "not", Visible iff it is anything else |
| BoolVisible.NotInverts | src/ModernWpf.Core/Converters/BoolVisibleConverter.cs:39-42 | "not" always gives the opposite of no parameter, so null and non-bool values become Visible |
| BoolVisible.OtherParameterIgnored | src/ModernWpf.Core/Converters/BoolVisibleConverter.cs:39 | any parameter other than "not" acts as no parameter |
| BoolVisible.NotAnyCase | src/ModernWpf.Core/Converters/BoolVisibleConverter.cs:39 | every spelling that upper-cases to "NOT" gives what "not" gives, the inverse of no parameter |
| BoolVisible.ConvertBack | src/ModernWpf.Core/Converters/BoolVisibleConverter.cs:56-59 | every input gives UnsetValue |
| Accents.GetBrush | src/ModernWpf/Accent.cs:137-142 | the brush has the given alpha and the colour's red, green and blue |
| Accents.GetBrushAlphaOnly | src/ModernWpf/Accent.cs:137-142 | a colour's own alpha gives it back, and only the last alpha applied counts |
| Accents.LuminosityLadders | src/ModernWpf/Accent.cs:80-105 | above L = 0.1 the dark brushes get strictly darker and the light ones strictly lighter; at 0.1 all equal the base; below 0.1 the ladders swap |
| Accents.LaddersMirror | src/ModernWpf/Accent.cs:89-123 | the dark and light ladders mirror each other about the base luminosity |
| Accents.LuminosityRange | src/ModernWpf/Accent.cs:80-123 | for a base in [0.1, 1] the darkest brush stays in [0.1, base], and the lightest goes above 1 iff the base is above 0.6 |
| Accents.AlphaLadderMeaning | src/ModernWpf/Accent.cs:126-134 | AlphaBrush k has alpha 255 * (10 - k) / 10 rounded down, strictly decreasing |
| Accents.Accent.constructor | src/ModernWpf/Accent.cs:72-135 | the main brush is the opaque colour, DarkBrush k and LightBrush k are the colour at the k-th luminosity step, and AlphaBrush k has the k-th ladder alpha |

## Left out

- Win32 interop is left out: window handles, `SetWindowPos`, DWM calls, `SendMessage` and the coordinate conversion of `WM_NCHITTEST`. The hit-test receives the point already in window coordinates, and WndProc reports what it would forward as a value.
- ScrollViewers.AnimatedScrollViewer.AnimateNow: the animated branch (the storyboards, their easing and duration, and their Completed callbacks) belongs to the framework; only its flags are modelled.
- ScrollViewers.AnimatedScrollViewer.AniVScrollBarValueChanged and AniHScrollBarValueChanged take `Math.Round(newValue - oldValue, 3)` as an input rather than computing it.
- ScrollViewers.SetTarget, ScrollViewers.AnimatedScrollViewer.AniVScrollBarValueChanged and AniHScrollBarValueChanged: an animated ScrollBar is taken to hold any value assigned to it. A real one coerces the value into its Minimum..Maximum range and raises ValueChanged with the coerced value, and the Ani* handler then assigns the target a second time. So near either end of the range the source ends with the clamped target (for example 0 after a page-up from 10 with a viewport of 50), while the model keeps the unclamped one (-40).
- ScrollViewers.AnimatedScrollViewer.OnKeyDown: the closing call to `base.OnKeyDown` (the ScrollViewer's own key handling, framework code) is not modelled; the handled flag returned is the one this override leaves before that call.
- ScrollViewers.AnimatedScrollViewer.OnPreviewMouseWheel: the closing call to `base.OnPreviewMouseWheel` is framework code and is not modelled.
- The real scroll bars, and the subscriptions OnApplyTemplate makes to them and to the animated bars, are framework wiring: the bar handlers are methods called with the event's values.
- The dispatcher's `DoEvents` and `Thread.Sleep` in the modal loops are not modelled. A finite sequence of inputs stands in for what the dispatcher delivers, and an exhausted sequence leaves the flyout open.
- `FlyoutContainer.Show` and `Close` are framework code. Showing is taken to attach the flyout, and the effect of closing on `Container` is not modelled.
- The flyouts' `OnClosed` overrides are empty and are not modelled.
- `TryFocus` in MessageBoxFlyout uses reflection and a visual-tree walk; keyboard focus is modelled as the `focused` field, which `OnFocus` sets.
- MessageBoxes.MessageBoxFlyout.OnApplyTemplate: the ten template parts (four buttons, four icons, the title and the button panel) are assumed present, as in the library's own template. A template missing one makes OnApplyTemplate or ApplyOptions throw NullReferenceException, leaving the box untemplated; that failure is not modelled.
- The button panel's child order comes from the XAML template; it is a constructor parameter.
- The `ShowDialog(Window)` overloads and `FindChildInVisualTree` are left out: the container is a parameter. ContentMinWidth, ContentMaxWidth, AnimateDuration and the animation spline are presentation only.
- The HSL colour type and its RGB conversions are parameters of the Accent constructor; any clamping of luminosity they do is not modelled.
- Brush freezing and debug output are not modelled.
- `double.TryParse` is culture-dependent and is a parameter.
- IEEE doubles are modelled as exact reals, so rounding, NaN and infinities are not modelled.
- Case-insensitive comparison folds ASCII letters only; the invariant culture's mapping of other letters is not modelled.
- ThicknessZeroSide.NamedSide is not proved to accept exactly the case variants of the four side names; ThicknessZeroSide.ZeroSidesCharacterised is stated in terms of NamedSide.
- TitleBar, ModernMessageBox, AnimatedContentControl, FileIconConverter, MouseEvents, CommandTextBinder, MessageBase, GridViewSortParameter and the sample application are not part of this model.

The model also states some behaviour of the code as written that the names suggest otherwise. These are not treated as defects:

- HasMoreThanOnePage holds for a single page (`Pager.MoreThanOnePageMeansAnyPage`).
- With no items the page count is 0 for page size 1 and 1 otherwise (`Pager.EmptyPageCount`).
- The BorderWindow constructor binds the pad size while Side still has its default Left.
- The scroll viewer's OnKeyDown does not check whether the event was already handled.
- A real scroll bar change that throws for a missing animated bar leaves the override flag set, so target changes on that axis that come from the animated bar or a later real-bar change no longer start AnimateNow through the property callback; wheel and key input still animate, because their handlers call AnimateNow themselves (`ScrollViewers.AnimatedScrollViewer.RealVerticalScrollBarValueChanged`, `ScrollViewers.HandleScroll`).
- A message box's stored result is never reset, so a close by Escape returns the previous show's result (`MessageBoxes.ModalBoxClosingInput`).
- Below luminosity 0.1 the accent ladders invert, and above 0.6 the lightest step exceeds 1 (`Accents.LuminosityLadders`, `Accents.LuminosityRange`).

## Findings

| source | as written | input that shows it | evidently intended | confidence | as-written member | corrected member |
|---|---|---|---|---|---|---|
| src/ModernWpf.Core/Internal/Controls/BorderWindow.cs:319-323 | on the top border, a point in the right-hand corner zone answers HTBOTTOMRIGHT | side Top, resizable, x = Width, y = 0 | HTTOPRIGHT, mirroring the left-hand corner and the right border | not executed | BorderWindows.TopRightCornerAnswersBottomRight | BorderWindows.HitTest |
| src/ModernWpf.Core/ViewModels/PagerViewModel.cs:118-126 | the PageSize setter tests the old size `_pageSize > 0`, not the new value | PageSize = 0, then UpdateStat: every later set is ignored and UpdateStat divides by zero | assign only a positive new value | not executed | Pager.NonPositivePageSizeSticks | Pager.ValidatedPageSizeStaysPositive |
| src/ModernWpf/Controls/MessageBoxFlyout.cs:247-253 | ApplyOptions clears IsDefault on OK, Yes and No but not on Cancel | show Yes/No/Cancel with default Cancel, then OK/Cancel with default OK: both OK and Cancel are default | clear IsDefault on all four buttons, leaving one default button | not executed | MessageBoxes.StaleCancelDefault | MessageBoxes.ShowLeavesOneDefault |
