# LabelLayout: a verified model of the label frame's layout arithmetic

`LabelLayout` is an Android `ViewGroup` that draws a titled frame: two top
corners on either side of a label, two side strips, the user's content (or a
"..." placeholder while collapsed) and two bottom corners. A tap on the label
collapses or expands the content, with a scale-and-fade transition.

This project models the widget's integer layout arithmetic and its small
show/hide state machine, and proves what they promise:

- `geometry.dfy` — rectangles, sizes, padding, Java's truncating `/ 2` (`Half`) and the in-place clamp (`AtMost`).
- `frame.dfy` — view visibility (`Vis`), the label alignment codes, the fixed pixel constants (`Decor`) and the fields both passes work on (`Metrics`).
- `measure.dfy` — the measure pass (`onMeasure`) as the function `Measured`, with the search for the first content child that is not GONE.
- `layout.dfy` — the layout pass (`onLayout`, `childLayout`) as the function `Arranged`, the alignment gaps (`Gaps`) and the facts about every rectangle.
- `visibility.dfy` — the visibility branch of `onLayout` (`Settle`), the effects of `fadeInAnimation` and `fadeOutAnimation`, and the two animation callbacks.
- `options.dfy` — the optional value used for rectangles laid out only in one state and for the measured child.
- `passes.dfy` — a measure pass followed by a layout pass, as the platform runs them, with the content visibilities the layout pass writes carried into the next measure pass.
- `widget.dfy` — the class `LabelLayout`, with the fields the source updates in place. Its methods do the same steps as the source and are proved against the functions above.

The platform's pieces are inputs. These are the label's unconstrained size, the size each content child reports when measured, the sizes carried by the measure specs, the padding and the final box. The pixel constants, already converted from dp, are fields of `Decor`. The two animation callbacks are explicit events: the reveal's start callback and the conceal's scale end callback.

Points worth knowing about the code:

- The middle alignment computes the left gap from the whole inner width, `(childWidth - tvW) / 2`, not from the width less the side strips. For a 300-pixel box with 4-pixel side strips and an 80-pixel label the left gap is 110 (`LayoutPass.MiddleWorkedCase`).
- The label width is clamped only during the layout pass, never during the measure pass.
- If every content child is GONE, the allocation is not zero. It becomes the label width plus both side strips wide. When expanded, it is the top row plus the bottom row plus the placeholder height tall.
- The left strip starts at the label height, the right strip at the top row height.
- The measure pass measures the first content child that is not GONE. The layout pass places, shows or hides the first content child, whatever its visibility. When the first content child is GONE and a later one is not, the two disagree (see Findings).
- The source has no toggle icon and no intermediate content container.

## Model

| member | source | states |
|---|---|---|
| Geometry.Half | src/com/kevin/widgets/views/LabelLayout.java:258 | Java's `/ 2` rounds toward zero: for a ≥ 0 the remainder a − 2h is 0 or 1, for a < 0 it is 0 or −1 |
| Geometry.AtMost | src/com/kevin/widgets/views/LabelLayout.java:253-254 | the clamp yields a value no larger than either the value or the bound, and equal to one of them |
| MeasurePass.FirstShown | src/com/kevin/widgets/views/LabelLayout.java:189-207 | the position found is the first content child that is not GONE: every earlier one is GONE, and it is |vis| exactly when all are |
| MeasurePass.Measured | src/com/kevin/widgets/views/LabelLayout.java:168-217 | the top row is raised to the label height and never lowered; a child is measured iff one is not GONE, it is the first such, and it is measured against (givenWidth − 2·side, givenHeight − top − bottom); expanded, the allocation is that child's size; collapsed, its height is the placeholder height and its width still the child's; without a child, the label-derived defaults; the required size is allocation + decoration + padding |
| MeasurePass.MeasureIdempotent | src/com/kevin/widgets/views/LabelLayout.java:183-214 | measuring twice with the same inputs and no change in between gives the same metrics and report |
| MeasurePass.RequiredCoversRows | src/com/kevin/widgets/views/LabelLayout.java:216 | with non-negative decoration and child heights, the required height is at least top row + bottom row + vertical padding |
| LayoutPass.Place | src/com/kevin/widgets/views/LabelLayout.java:325-327 | childLayout: characterised by `TopRowTiles`, `ContentBand` and `BottomSplit`, whose rectangles all start at the padding offset |
| LayoutPass.Clamped | src/com/kevin/widgets/views/LabelLayout.java:252-283 | the three in-place clamps of a layout pass: characterised by `ClampsFit` (each value bounded, and unchanged when it fits) |
| LayoutPass.TopRow | src/com/kevin/widgets/views/LabelLayout.java:272-279 | the two top corners and the label: characterised by `TopRowTiles`, `EdgeAnchors`, `MiddleCentres` and `UnknownAlignmentHalves` |
| LayoutPass.Band | src/com/kevin/widgets/views/LabelLayout.java:285-321 | the side strips, the content or placeholder slot and the bottom corners: characterised by `ContentBand`, `ContentOrPlaceholder` and `BottomSplit` |
| LayoutPass.Arranged | src/com/kevin/widgets/views/LabelLayout.java:228-323 | onLayout's geometry: characterised by `ClampsFit`, `TopRowTiles`, `EdgeAnchors`, `MiddleCentres`, `UnknownAlignmentHalves`, `ContentBand`, `ContentOrPlaceholder`, `BottomSplit` and `ArrangeIdempotent` |
| LayoutPass.Gaps | src/com/kevin/widgets/views/LabelLayout.java:234-269 | for MIDDLE, LEFT and RIGHT, ul + tvW + ur equals the inner width; LEFT fixes ul = side + offset and RIGHT fixes ur = side + offset; MIDDLE centres the label up to one pixel of rounding; any other code leaves both gaps at width/2 |
| LayoutPass.ClampsFit | src/com/kevin/widgets/views/LabelLayout.java:252-283 | after layout tvW ≤ childWidth − 2·side, customH ≤ childHeight − top − bottom, customW ≤ childWidth − 2·side, each unchanged when it already fitted and equal to the bound when it did not |
| LayoutPass.TopRowTiles | src/com/kevin/widgets/views/LabelLayout.java:272-279 | under the three codes the top row tiles the inner width: up-left ends where the label starts, the label ends where up-right starts, from the left padding to the inner right edge; the label rectangle is exactly as wide as the clamped label width |
| LayoutPass.UnknownAlignmentHalves | src/com/kevin/widgets/views/LabelLayout.java:234-235 | under any other alignment code both top corners are half the whole box wide |
| LayoutPass.EdgeAnchors | src/com/kevin/widgets/views/LabelLayout.java:261-268 | LEFT starts the label at side + offset from the inner left edge and RIGHT ends it at side + offset from the inner right edge, whatever the label or content size |
| LayoutPass.MiddleCentres | src/com/kevin/widgets/views/LabelLayout.java:257-259 | with non-negative side strips, MIDDLE's two gaps corrected by the offset differ by 0 or 1 pixel |
| LayoutPass.ContentBand | src/com/kevin/widgets/views/LabelLayout.java:285-314 | the side strips and the content all end at top + customH; the right strip and content start at the top row, the left strip at the label height; the content fills the width between the strips; the placeholder is customH tall and raised by half the placeholder height |
| LayoutPass.ContentOrPlaceholder | src/com/kevin/widgets/views/LabelLayout.java:293-316 | the content rectangle is emitted iff expanded with a content child, the placeholder's iff collapsed with one |
| LayoutPass.BottomSplit | src/com/kevin/widgets/views/LabelLayout.java:318-321 | the bottom corners split at childWidth/2, both span from top + customH to childHeight, and together cover the inner width; all are moved by the padding |
| LayoutPass.ArrangeIdempotent | src/com/kevin/widgets/views/LabelLayout.java:228-323 | a second layout pass without a measure pass in between changes neither the metrics nor any rectangle |
| LayoutPass.MiddleWorkedCase | src/com/kevin/widgets/views/LabelLayout.java:256-260 | a 300-wide box with an 80-wide middle label places the label at [110, 190] |
| VisibilityMachine.Settle | src/com/kevin/widgets/views/LabelLayout.java:293-316 | the content ends VISIBLE when expanded and INVISIBLE when collapsed; a reveal fires iff expanded and it was not VISIBLE, a conceal iff collapsed and it was VISIBLE; without a transition the placeholder and callbacks are untouched |
| VisibilityMachine.FadeIn | src/com/kevin/widgets/views/LabelLayout.java:329-363 | fadeInAnimation's effect on the placeholder: characterised by `RevealHidesPlaceholder` |
| VisibilityMachine.FadeOut | src/com/kevin/widgets/views/LabelLayout.java:365-395 | fadeOutAnimation's effect on the placeholder: characterised by `ConcealShowsPlaceholderAtEnd` |
| VisibilityMachine.RevealStarted | src/com/kevin/widgets/views/LabelLayout.java:350-354 | the reveal's start callback: characterised by `RevealHidesPlaceholder` and `CollapseExpandRoundTrip` |
| VisibilityMachine.ConcealEnded | src/com/kevin/widgets/views/LabelLayout.java:378-382 | the conceal's end callback: characterised by `ConcealShowsPlaceholderAtEnd` and `CollapseExpandRoundTrip` |
| VisibilityMachine.SettleIsQuiet | src/com/kevin/widgets/views/LabelLayout.java:300-311 | a second layout pass in the same state fires nothing and changes nothing |
| VisibilityMachine.RevealHidesPlaceholder | src/com/kevin/widgets/views/LabelLayout.java:329-363 | a reveal makes the placeholder GONE at once without animations; with them the placeholder is untouched until the start callback, which makes it GONE |
| VisibilityMachine.ConcealShowsPlaceholderAtEnd | src/com/kevin/widgets/views/LabelLayout.java:365-395 | a conceal makes the placeholder VISIBLE at once without animations; with them the layout pass leaves it as it was and only the scale animation's end callback makes it VISIBLE |
| VisibilityMachine.CollapseExpandRoundTrip | src/com/kevin/widgets/views/LabelLayout.java:293-395 | collapse then expand, each callback delivered in turn, fires one conceal and one reveal and restores the steady expanded state |
| Passes.Pass | src/com/kevin/widgets/views/LabelLayout.java:168-323 | a measure pass then a layout pass as written: characterised by `ToggleTwiceRestores`, `ToggleTwiceFirstGone`, `CollapsedPlaceholderHeight` and `ExpandedContentHeight` |
| Passes.MatchedPass | src/com/kevin/widgets/views/LabelLayout.java:168-323 | the corrected pair of passes, whose layout pass acts on the measured child: characterised by `MatchedToggleTwiceRestores` |
| Passes.SettledAt | src/com/kevin/widgets/views/LabelLayout.java:300-311 | after a layout pass the settled content child is VISIBLE when expanded and INVISIBLE when collapsed, and every other content child keeps its visibility |
| Passes.MeasuredSeesTopRow | src/com/kevin/widgets/views/LabelLayout.java:183-214 | a measure pass depends on the old metrics only through the top row height and on the visibilities only through the first content child that is not GONE |
| Passes.ToggleTwiceRestores | src/com/kevin/widgets/views/LabelLayout.java:168-323 | when the first content child is not GONE, measure and layout passes in the toggled state (in any box, with any measure specs and child sizes) and back, each measure pass seeing the visibilities the previous layout pass wrote, give back the metrics, the measure report, every rectangle and the visibilities of the first passes |
| Passes.ToggleTwiceFirstGone | src/com/kevin/widgets/views/LabelLayout.java:189-207 | with children [GONE, VISIBLE], the first measure pass measures the second child, and after toggling twice the measure pass measures the first one instead, so the allocation and the content rectangle change |
| Passes.SettledKeepsFirstShown | src/com/kevin/widgets/views/LabelLayout.java:189-207 | settling the first content child that is not GONE leaves it the first one that is not GONE |
| Passes.MatchedToggleTwiceRestores | src/com/kevin/widgets/views/LabelLayout.java:168-323 | when the layout pass acts on the child the measure pass measured, toggling twice restores the first passes for every content visibility and whatever box, measure specs and child sizes the toggled passes see |
| Passes.CollapsedPlaceholderHeight | src/com/kevin/widgets/views/LabelLayout.java:208-314 | collapsed, the placeholder rectangle is exactly the placeholder height tall when that fits, raised by half of it from the top row |
| Passes.ExpandedContentHeight | src/com/kevin/widgets/views/LabelLayout.java:189-298 | expanded, the content rectangle starts at the top row and is as tall as the measured child, when that fits |
| Widget.LabelLayout.constructor | src/com/kevin/widgets/views/LabelLayout.java:101-165 | the frame starts expanded, with the placeholder GONE, the configured flags and the given content children |
| Widget.LabelLayout.Measure | src/com/kevin/widgets/views/LabelLayout.java:168-225 | the loop over the content children stops at the first one that is not GONE; the fields and the report equal `Measured` of the old fields |
| Widget.LabelLayout.LayoutTopRow | src/com/kevin/widgets/views/LabelLayout.java:252-279 | the label width is clamped in place and the three top rectangles follow from `Gaps` |
| Widget.LabelLayout.ClampContent | src/com/kevin/widgets/views/LabelLayout.java:280-283 | the content allocation is clamped in place to the inner box |
| Widget.LabelLayout.LayoutBand | src/com/kevin/widgets/views/LabelLayout.java:285-321 | the side strips, the content or placeholder rectangle and the bottom corners equal `Band` of the current fields |
| Widget.LabelLayout.ArrangeRegions | src/com/kevin/widgets/views/LabelLayout.java:228-327 | the inner box fields, the clamped fields and every rectangle equal `Arranged` of the old fields |
| Widget.LabelLayout.SettleContent | src/com/kevin/widgets/views/LabelLayout.java:293-316 | the first content child's and the placeholder's visibility and the transition fired follow `Settle`; the other children are untouched |
| Widget.LabelLayout.Layout | src/com/kevin/widgets/views/LabelLayout.java:228-323 | the whole layout pass: `Arranged` for the geometry, `Settle` for the visibility, the flags unchanged and the outstanding layout request answered |
| Widget.LabelLayout.FadeInAnimation | src/com/kevin/widgets/views/LabelLayout.java:329-363 | with animations the reveal's start callback is pending, without them the placeholder is GONE |
| Widget.LabelLayout.FadeOutAnimation | src/com/kevin/widgets/views/LabelLayout.java:365-395 | with animations the conceal's end callback is pending, without them the placeholder is VISIBLE |
| Widget.LabelLayout.Click | src/com/kevin/widgets/views/LabelLayout.java:419-424 | a label tap flips the expanded state and asks for a layout only while hiding is enabled, and does nothing otherwise |
| Widget.LabelLayout.ShowContent | src/com/kevin/widgets/views/LabelLayout.java:410-413 | sets the expanded state and asks for a layout |
| Widget.LabelLayout.EnableHideContent | src/com/kevin/widgets/views/LabelLayout.java:415-430 | sets whether label taps toggle the content |
| Widget.LabelLayout.EnableAnimation | src/com/kevin/widgets/views/LabelLayout.java:397-399 | sets whether later transitions animate |
| Widget.LabelLayout.OnRevealStart | src/com/kevin/widgets/views/LabelLayout.java:350-354 | the reveal's start callback makes the placeholder GONE if it is outstanding |
| Widget.LabelLayout.OnConcealEnd | src/com/kevin/widgets/views/LabelLayout.java:378-382 | the conceal's end callback makes the placeholder VISIBLE if it is outstanding |
| Widget.TapTwice | src/com/kevin/widgets/views/LabelLayout.java:419-424 | two label taps restore the expanded state |
| Widget.TapWhileDisabled | src/com/kevin/widgets/views/LabelLayout.java:427-429 | while hiding is disabled, no number of taps changes the expanded state |

## Left out

- The `resolveSizeAndState` call, the measured-state bits and the `MeasureSpec` encoding (lines 221-224) are platform size policy. `Measure` reports the size the frame asks for before that resolution.
- Text measurement of the label (`v.measure(0, 0)`) and the content children's own measurement are platform work. Their results are inputs.
- Animation objects, interpolators, pivots and durations (lines 331-359, 367-391) are not modelled. Only their effects on visibility are kept, with the two callbacks as explicit events.
- The model delivers each outstanding callback independently. It does not model whether the platform drops a replaced animation's callbacks when a new transition starts on the content child.
- Attribute parsing and the float `dpToPx` conversion (lines 106-122) are replaced by integer parameters: the `Decor` constants and the initial top row height.
- Java's 32-bit `int` overflow is not modelled: all arithmetic uses unbounded integers. Truncating division is modelled by `Half`.
- Views, background drawables, `addView`, the label text and the `debug` logging are not modelled. The content children are given at construction, and nothing later changes their visibility except the layout pass.
- `requestLayout` is modelled as the flag `layoutRequested`, which a completed `Layout` clears. The platform's scheduling of the next passes is not modelled.
- The direct `right.layout(...)` at lines 289-290 is overwritten at once by `childLayout` at lines 291-292. Only the final rectangle is modelled.
- `ArrangeRegions` computes the content and placeholder rectangles before `SettleContent` changes visibility, while the source interleaves them. Neither depends on the other.
- `onLayout`'s `changed` argument is unused by the source and is left out.
- ToggleTwiceRestores: requires the first content child not to be GONE, because the source as written does not restore the first passes otherwise (`Passes.ToggleTwiceFirstGone`, and Findings below).
- The widget class keeps the source's behaviour as written: its layout pass acts on the first content child. The corrected pass of the Findings table is stated only as `Passes.MatchedPass`.

## Findings

| source | as written | input that shows it | evidently intended | confidence | as-written member | corrected member |
|---|---|---|---|---|---|---|
| src/com/kevin/widgets/views/LabelLayout.java:189-207, :293-316 | the measure pass measures the first content child that is not GONE, but the layout pass lays out and makes VISIBLE or INVISIBLE the first content child whatever its visibility | content children [GONE, VISIBLE] with sizes 100×100 and 50×60, expanded: the first measure allocates 60 pixels of height from the second child, the layout pass makes the first child VISIBLE, and after collapsing and expanding the allocation is 100 pixels, from the first child | the layout pass acts on the child the measure pass measured, so toggling twice restores the layout | medium, not executed | Passes.ToggleTwiceFirstGone | Passes.MatchedToggleTwiceRestores |
