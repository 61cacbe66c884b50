# TagView: a verified model of the tag widget's layout and draw pipeline

`TagView` is an Android view that draws one *tag*: a short text with an integer
level. The level picks the look of a level-list background drawable. The text is
fitted into the tag body, ellipsized when there is not enough room, and drawn
upside down: the canvas is rotated 180 degrees about the centre of the text area.
The widget has fixed spacing constants: `MARGIN = 200` between the bounds and
the tag body, and inner paddings `PAD_H = 100` and `PAD_V = 30` between the body
edge and the text.

The model has four modules:

- `Wrappers` (`wrappers.dfy`): `Option` and `Result`.
- `Geometry` (`geometry.dfy`): the framework value types `Rect`, `RectF` and
  `PointF`. It also holds Java's two float-to-int narrowings: the `(int)` cast
  (toward zero, saturating) and the fixed-point rounding `RectF.round` applies
  to each edge. That rounding is the framework's `FastMath.round`: it scales by
  2^24, casts to long, adds one half, shifts right by 24 bits and keeps the
  low 32 bits. So it wraps around, rather than saturating, outside int range.
- `Canvas` (`canvas.dfy`): the canvas calls a draw pass makes, as data (`Op`).
  A small interpreter (`Step`, `Exec`) gives them their documented meaning:
  `clipRect` and `rotate` change the current matrix and clip, `save` pushes
  them, `restore` pops them and fails when nothing was saved, and each paint
  call is recorded with the rotations and clips in force. Their relative order
  is not kept. That order does not matter for this widget, because its one
  rotation is a half turn about the clip's own centre, which maps the clip
  onto itself.
- `TagViewWidget` (`tagview.dfy`): the constants, the pure formulas of
  measurement, layout and drawing, and the class `TagView`. The class has the
  fields the widget updates in place: the bounds, the tag, the reused buffers
  `tagBorderTL`/`tagRectF`/`tagRect`, the background drawable's bounds and
  level, and the text paint's style and shadow. Its methods are `SetTag`,
  `OnMeasure`, `OnLayout` and `OnDraw`. `OnDraw` returns the canvas calls
  instead of issuing them.

Float quantities are `real`, so sums, `min` and halving are exact. The text
collaborator is a value of type `TextMeasure` given to the constructor. It
holds `measureText` and `TextUtils.ellipsize` as two function-valued fields.
Nothing is assumed about them, except where a lemma's `requires` says so.
`Paint.FontMetrics` is also a constructor parameter.

Where the code departs from the usual content-box and balanced save/restore
conventions, or from what a caller might expect, the model follows the code:

- `onLayout` stores a right edge of `width − padL − padR` and a bottom edge of
  `height − padT − padB`, in view-local coordinates, instead of the content box
  `width − padR`, `height − padB`. `LayoutBoundsIsContentBoxIff` proves the two
  agree exactly when the left and top paddings are zero.
  `DesiredWidthFitsIff` shows one consequence. A widget laid out at exactly
  its desired width keeps its text only when it has no left padding and the
  text width is a whole number. Otherwise the text is ellipsized.
- `canvas.clipRect` is called before `canvas.save`, so the matching
  `restore` undoes the rotation but not the clip. `DrawOpsEffect` proves that
  the clip stays in force after the draw pass.
- Measuring before a tag is set fails (`NullTag`, the NullPointerException on
  the absent tag). Drawing before a tag is set also fails, at the read of the
  tag's level. By then the buffers and the background's bounds have been
  updated for an empty text. `OnDraw` states both outcomes.
- `TextUtils.ellipsize`'s documented longest-prefix truncation is not
  modelled. The widget measures and draws the result but checks nothing about
  it.

## Model

| member | source | states |
|---|---|---|
| `Geometry.RectF.Center` | TagView/src/main/java/com/twitter/university/android/tagview/widget/TagView.java:187-188 | the pivot computed as edge plus half the extent is equidistant from both edges |
| `Geometry.RectF.Inset` | TagView/src/main/java/com/twitter/university/android/tagview/widget/TagView.java:181 | insetting keeps the centre and shrinks each extent by twice the inset |
| `Geometry.Rotate180` | TagView/src/main/java/com/twitter/university/android/tagview/widget/TagView.java:185-188 | a 180-degree rotation sends a point to the one whose midpoint with it is the pivot |
| `Geometry.FloatToIntTruncates` | TagView/src/main/java/com/twitter/university/android/tagview/widget/TagView.java:131-134 | the `(int)` cast stays in int range, drops the fraction toward zero, and clamps values outside the range to its ends |
| `Geometry.WrapInRange` | TagView/src/main/java/com/twitter/university/android/tagview/widget/TagView.java:176 | the long addition and the long-to-int cast inside `RectF.round` change nothing for values already in range |
| `Geometry.FastRoundIsNearest` | TagView/src/main/java/com/twitter/university/android/tagview/widget/TagView.java:176 | for an edge in int range, `RectF.round` gives an int within one half (plus 2^-24) of it, and exactly floor(x + 1/2) when the edge is a multiple of 2^-24 |
| `Geometry.FastRoundWrapsPastIntRange` | TagView/src/main/java/com/twitter/university/android/tagview/widget/TagView.java:176 | just past the int range, `RectF.round` wraps around to the most negative int |
| `Geometry.WholeNumbersAreExact` | TagView/src/main/java/com/twitter/university/android/tagview/widget/TagView.java:176-196 | an in-range whole number passes through `(int)` and `RectF.round` unchanged |
| `Canvas.Step` | TagView/src/main/java/com/twitter/university/android/tagview/widget/TagView.java:179-199 | only a restore with nothing saved fails; paint calls are recorded under the current frame; save pushes the frame; only paint calls add marks |
| `Canvas.ExecFlat` | TagView/src/main/java/com/twitter/university/android/tagview/widget/TagView.java:185-197 | calls between save and restore cannot fail, keep the save stack, and only add marks |
| `Canvas.SaveRestoreBracket` | TagView/src/main/java/com/twitter/university/android/tagview/widget/TagView.java:184-199 | a save/restore pair around such calls gives back the matrix and clip in force before the save, and paints exactly what those calls paint |
| `TagViewWidget.DeriveLineMetrics` | TagView/src/main/java/com/twitter/university/android/tagview/widget/TagView.java:95-97 | the line height spans descent − ascent + leading; it exceeds the baseline by the descent, so the baseline is at most the height when the descent is non-negative |
| `TagViewWidget.DesiredSize` | TagView/src/main/java/com/twitter/university/android/tagview/widget/TagView.java:131-134 | both sides are ints; when the total is non-negative and the result in int range, each side is the integer spacing plus the whole part of the text width or text height |
| `TagViewWidget.TagView.OnMeasure` | TagView/src/main/java/com/twitter/university/android/tagview/widget/TagView.java:130-137 | fails exactly when no tag is set; otherwise returns the desired size of the tag's text |
| `TagViewWidget.LayoutBounds` | TagView/src/main/java/com/twitter/university/android/tagview/widget/TagView.java:143-151 | the bounds start at the left/top padding and are narrower than the view by twice the left plus the right padding (shorter by twice the top plus the bottom) |
| `TagViewWidget.ContentBox` | TagView/src/main/java/com/twitter/university/android/tagview/widget/TagView.java:146-150 | the reference content box is the view less its four paddings |
| `TagViewWidget.LayoutBoundsIsContentBoxIff` | TagView/src/main/java/com/twitter/university/android/tagview/widget/TagView.java:146-150 | the stored bounds equal the content box if and only if the left and top paddings are zero |
| `TagViewWidget.TagView.OnLayout` | TagView/src/main/java/com/twitter/university/android/tagview/widget/TagView.java:141-152 | a reported change replaces the bounds with the layout bounds; no change leaves them as they were |
| `TagViewWidget.BodyHeight` | TagView/src/main/java/com/twitter/university/android/tagview/widget/TagView.java:161-163 | the body height exceeds neither the padded text height nor the bounds height less two margins, and equals one of them |
| `TagViewWidget.FitsWithinMargins` | TagView/src/main/java/com/twitter/university/android/tagview/widget/TagView.java:166-168 | a text fits the available width exactly when its padded body plus a margin on either side fits in the bounds |
| `TagViewWidget.FitText` | TagView/src/main/java/com/twitter/university/android/tagview/widget/TagView.java:166-172 | a text whose padded width fits is kept; otherwise it is ellipsized to the width left after the padding. Either way the body width is re-measured from the drawn text |
| `TagViewWidget.FitTextWithinAvailable` | TagView/src/main/java/com/twitter/university/android/tagview/widget/TagView.java:166-172 | if the ellipsized text fits the width it was ellipsized to, the body never exceeds the available width |
| `TagViewWidget.FitTextCanOverflow` | TagView/src/main/java/com/twitter/university/android/tagview/widget/TagView.java:166-172 | without that promise, the body can be wider than the available width |
| `TagViewWidget.AlertExamples` | TagView/src/main/java/com/twitter/university/android/tagview/widget/TagView.java:166-172 | "alert" of width 300 is kept in 2000-wide bounds with a 500-wide body; in 700-wide bounds it is ellipsized to 100 |
| `TagViewWidget.DesiredWidthFitsIff` | TagView/src/main/java/com/twitter/university/android/tagview/widget/TagView.java:131-172 | laid out at exactly its desired width, the text fits if and only if the left padding is zero and the text width is whole |
| `TagViewWidget.Plan` | TagView/src/main/java/com/twitter/university/android/tagview/widget/TagView.java:159-197 | one pass's geometry: the body starts at the margin corner, has the clamped height and the fitted text's width, and is rounded for the background. The clip is the body inset by the paddings, the pivot is the clip's centre, and, when the margin corner is within int range, the anchor is the clip's top-left lowered by the baseline |
| `TagViewWidget.PivotSwapsClipCorners` | TagView/src/main/java/com/twitter/university/android/tagview/widget/TagView.java:181-188 | rotating either corner of the clip about the pivot gives the opposite corner |
| `TagViewWidget.RotatedAnchor` | TagView/src/main/java/com/twitter/university/android/tagview/widget/TagView.java:185-197 | when the margin corner is within int range, the text anchor lands after the rotation at the clip's bottom-right, a baseline above the bottom edge |
| `TagViewWidget.DrawOpsEffect` | TagView/src/main/java/com/twitter/university/android/tagview/widget/TagView.java:176-199 | the pass paints the background under the incoming frame and the text clipped and rotated; afterwards the rotation is undone (by the save/restore bracket) but the clip stays |
| `TagViewWidget.TagView.constructor` | TagView/src/main/java/com/twitter/university/android/tagview/widget/TagView.java:70-99 | the line metrics are derived once from the font metrics; the bounds, the three reused buffers and the background's bounds start at zero, no tag is set, and the text paint is stroked without shadow |
| `TagViewWidget.TagView.SetTag` | TagView/src/main/java/com/twitter/university/android/tagview/widget/TagView.java:120-124 | the tag becomes exactly the given text and level, in one assignment, and no other field changes |
| `TagViewWidget.TagView.PlaceBody` | TagView/src/main/java/com/twitter/university/android/tagview/widget/TagView.java:159-177 | the corner, body and rounded body buffers and the background's bounds take the values the geometry prescribes; the fitted text is returned |
| `TagViewWidget.TagView.OnDraw` | TagView/src/main/java/com/twitter/university/android/tagview/widget/TagView.java:158-200 | with a tag: the prescribed canvas calls, the clip left in `tagRectF`, and the paint left filled and shadowed. Without one: failure after the buffers and the background bounds are set, with level and paint untouched |
| `TagViewWidget.RedrawIsIdempotent` | TagView/src/main/java/com/twitter/university/android/tagview/widget/TagView.java:158-200 | two draws with nothing changed between them issue the same calls |
| `TagViewWidget.SetTagThenDraw` | TagView/src/main/java/com/twitter/university/android/tagview/widget/TagView.java:120-200 | a draw right after a new tag uses the bounds of the last layout |

## Left out

- Java's 32-bit wrap-around on the int sums of `onMeasure` (the paddings plus
  the fixed spacing), `onLayout` and `onDraw`. These sums are unbounded ints,
  because pixel coordinates stay far from the int limits. Only the narrowings
  are modelled exactly: the `(int)` cast saturates, and `RectF.round`'s
  fixed-point rounding wraps.
- IEEE float rounding. Floats are reals, so a computed result that a float
  cannot represent exactly (for example a whole number above 2^24) is not
  modelled. That includes the float product `x * 2^24` inside `RectF.round`,
  which the model computes exactly.
- `View.getDefaultSize` and `setMeasuredDimension`. The host's size
  negotiation belongs to the framework, so `OnMeasure` returns the size the
  widget asks for.
- `invalidate()`, `requestLayout()` and `super.onLayout`. These only schedule
  work in the framework.
- What the canvas renders: anti-aliasing, the shadow blur, colours and the
  pixels themselves. The calls are recorded as values instead.
- How `LevelListDrawable` and `Resources` map a level to an appearance. The
  model records the level and bounds handed to the drawable. The drawable's
  level before the first draw is taken to be 0, the framework's default.
- The bodies of `TextPaint.measureText`, `Paint.getFontMetrics` and
  `TextUtils.ellipsize`. They are library calls, so they are parameters.
  `TEXT_SIZE` and `TEXT_COLOR` only configure that paint, so they do not appear.
- A null tag text. Java's `setTag(null, level)` is accepted, and
  `measureText` then throws in `onMeasure` and `onDraw`. A Dafny `string`
  cannot be null, so the model has no such path.
- The two convenience constructors, the `TAG` log constant, the unused `tagTL`
  buffer and the unused imports.
- `TagViewWidget.DesiredSize`: its contract gives the exact integer only when
  the total is non-negative and the result is within int range. Other totals
  are covered by `Geometry.FloatToIntTruncates` applied to the same sums.
- `TagViewWidget.FitTextWithinAvailable`: the bound on the body width needs
  the collaborator's promise that the ellipsized text fits. The widget never
  checks that promise.
