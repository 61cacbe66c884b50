/**
 * The TagView widget: a (text, level) tag drawn as a level-dependent
 * background with the text fitted inside, inset by fixed paddings, and
 * rotated by 180 degrees about the centre of the text area.
 *
 * The measuring collaborator (TextPaint.measureText and TextUtils.ellipsize)
 * is a parameter: its bodies are not part of this model, and nothing is
 * assumed of them beyond what a caller states in a requires clause.
 */
module TagViewWidget {
  import opened Wrappers
  import opened Geometry
  import opened Canvas

  const MARGIN: int := 200
  const PAD_H: int := 100
  const PAD_V: int := 30

  /** Color.GREEN (ARGB 0xff00ff00 read as a signed int), the colour of the text shadow. */
  const GREEN: int := -0x00ff_0100

  /** The shadow layer set on the text paint before the text is drawn. */
  const TEXT_SHADOW: ShadowLayer := ShadowLayer(6.0, 15.0, 17.0, GREEN)

  /** The degrees by which the text is rotated. */
  const TEXT_ROTATION: real := 180.0

  datatype Tag = Tag(text: string, level: int)

  /** Paint.FontMetrics, as far as the widget reads it. Android's ascent is negative. */
  datatype FontMetrics = FontMetrics(ascent: real, descent: real, leading: real)

  /** The two quantities the widget derives once from the font metrics. */
  datatype LineMetrics = LineMetrics(baseline: real, height: real)

  /** The host's padding, getPaddingLeft() and so on. */
  datatype Padding = Padding(left: int, top: int, right: int, bottom: int)

  datatype Size = Size(width: int, height: int)

  /** NullPointerException on the unset tag. */
  datatype Error = NullTag

  /** TextPaint.measureText(text) and TextUtils.ellipsize(text, paint, avail, END). */
  datatype TextMeasure = TextMeasure(measureText: string -> real, ellipsize: (string, real) -> string)

  /**
   * The baseline sits below the top of the line box by the leading and the
   * ascent; the line height adds the descent. The height is the full span
   * descent - ascent + leading, and the baseline never lies below the bottom
   * of the line when the descent is not negative.
   */
  function DeriveLineMetrics(m: FontMetrics): (r: LineMetrics)
    ensures r.height == m.leading + m.descent - m.ascent
    ensures r.height - r.baseline == m.descent
    ensures m.descent >= 0.0 ==> r.baseline <= r.height
  {
    var baseline := m.leading - m.ascent;
    LineMetrics(baseline, m.descent + baseline)
  }

  // ---------------------------------------------------------------------------
  // Measurement
  // ---------------------------------------------------------------------------

  /** The float width onMeasure computes before the (int) cast. */
  function DesiredWidthF(text: string, pad: Padding, tm: TextMeasure): real
  {
    (pad.left + pad.right + 2 * (MARGIN + PAD_H)) as real + tm.measureText(text)
  }

  /** The float height onMeasure computes before the (int) cast. */
  function DesiredHeightF(pad: Padding, textHeight: real): real
  {
    (pad.top + pad.bottom + 2 * (MARGIN + PAD_V)) as real + textHeight
  }

  /**
   * The size the widget asks the host for. Each side is the outer padding,
   * twice (margin + inner padding) and the text's extent, narrowed to int:
   * for a non-negative total the integer spacing is kept and the text's
   * extent loses its fractional part.
   */
  function DesiredSize(text: string, pad: Padding, tm: TextMeasure, textHeight: real): (s: Size)
    ensures InIntRange(s.width) && InIntRange(s.height)
    ensures var base := pad.left + pad.right + 2 * (MARGIN + PAD_H);
            var m := tm.measureText(text);
            0.0 <= base as real + m && InIntRange(base + m.Floor) ==> s.width == base + m.Floor
    ensures var base := pad.top + pad.bottom + 2 * (MARGIN + PAD_V);
            0.0 <= base as real + textHeight && InIntRange(base + textHeight.Floor) ==>
              s.height == base + textHeight.Floor
  {
    Size(FloatToInt(DesiredWidthF(text, pad, tm)), FloatToInt(DesiredHeightF(pad, textHeight)))
  }

  // ---------------------------------------------------------------------------
  // Layout
  // ---------------------------------------------------------------------------

  /**
   * The bounds onLayout stores, in the view's own coordinates. The right and
   * bottom edges subtract the left (top) padding as well as the right
   * (bottom) one, so the bounds are narrower than the content box by the
   * left padding and shorter by the top padding.
   */
  function LayoutBounds(left: int, top: int, right: int, bottom: int, pad: Padding): (r: Rect)
    ensures r.left == pad.left && r.top == pad.top
    ensures r.Width() == (right - left) - 2 * pad.left - pad.right
    ensures r.Height() == (bottom - top) - 2 * pad.top - pad.bottom
  {
    Rect(pad.left, pad.top, right - (left + pad.left + pad.right), bottom - (top + pad.top + pad.bottom))
  }

  /** The content box of a view of the given size: its own rectangle less the padding. */
  function ContentBox(width: int, height: int, pad: Padding): (r: Rect)
    ensures r.Width() == width - pad.left - pad.right
    ensures r.Height() == height - pad.top - pad.bottom
  {
    Rect(pad.left, pad.top, width - pad.right, height - pad.bottom)
  }

  /** The stored bounds are the content box exactly when there is no left and no top padding. */
  lemma LayoutBoundsIsContentBoxIff(left: int, top: int, right: int, bottom: int, pad: Padding)
    ensures LayoutBounds(left, top, right, bottom, pad) == ContentBox(right - left, bottom - top, pad)
            <==> pad.left == 0 && pad.top == 0
  {
  }

  // ---------------------------------------------------------------------------
  // Draw geometry
  // ---------------------------------------------------------------------------

  /** The top-left corner of the tag body: the bounds' corner moved in by the margin. */
  function TagTopLeft(bounds: Rect): PointF
  {
    PointF((bounds.left + MARGIN) as real, (bounds.top + MARGIN) as real)
  }

  /**
   * The body height: the text height with its vertical padding, but never
   * more than the bounds leave after a margin above and below.
   */
  function BodyHeight(bounds: Rect, textHeight: real): (h: real)
    ensures h <= (2 * PAD_V) as real + textHeight
    ensures h <= (bounds.Height() - 2 * MARGIN) as real
    ensures h == (2 * PAD_V) as real + textHeight || h == (bounds.Height() - 2 * MARGIN) as real
  {
    var wanted := (2 * PAD_V) as real + textHeight;
    var room := (bounds.bottom - (bounds.top + 2 * MARGIN)) as real;
    if wanted <= room then wanted else room
  }

  /** wMax: the width the bounds leave after a margin on either side. */
  function AvailableWidth(bounds: Rect): real
  {
    (bounds.right - (bounds.left + 2 * MARGIN)) as real
  }

  /** The body width of a text: the text's advance with the horizontal padding on both sides. */
  function BodyWidth(text: string, tm: TextMeasure): real
  {
    (2 * PAD_H) as real + tm.measureText(text)
  }

  /** Whether a text's body fits in the available width. */
  predicate Fits(text: string, wMax: real, tm: TextMeasure)
  {
    BodyWidth(text, tm) <= wMax
  }

  /** A text fits exactly when its body, with a margin on either side, fits in the bounds. */
  lemma FitsWithinMargins(text: string, bounds: Rect, tm: TextMeasure)
    ensures Fits(text, AvailableWidth(bounds), tm) <==> BodyWidth(text, tm) + (2 * MARGIN) as real <= bounds.Width() as real
  {
  }

  datatype FittedText = FittedText(text: string, width: real)

  /**
   * The text to draw and the body width. A text that fits is kept; one that
   * does not is ellipsized to the width left after the padding, and the body
   * width is measured again from the ellipsized text.
   */
  function FitText(text: string, wMax: real, tm: TextMeasure): (r: FittedText)
    ensures r.width == BodyWidth(r.text, tm)
    ensures Fits(text, wMax, tm) ==> r.text == text
    ensures !Fits(text, wMax, tm) ==> r.text == tm.ellipsize(text, wMax - (2 * PAD_H) as real)
  {
    var w := BodyWidth(text, tm);
    if wMax < w then
      var shortened := tm.ellipsize(text, wMax - (2 * PAD_H) as real);
      FittedText(shortened, BodyWidth(shortened, tm))
    else
      FittedText(text, w)
  }

  /**
   * The body never exceeds the available width, provided the ellipsized text
   * fits the width it was ellipsized to (a property of the collaborator that
   * the widget relies on without checking).
   */
  lemma FitTextWithinAvailable(text: string, wMax: real, tm: TextMeasure)
    requires tm.measureText(tm.ellipsize(text, wMax - (2 * PAD_H) as real)) <= wMax - (2 * PAD_H) as real
    ensures FitText(text, wMax, tm).width <= wMax
  {
  }

  /** Without that promise the body can overflow: nothing in the widget bounds it. */
  lemma FitTextCanOverflow()
    ensures var tm := TextMeasure(_ => 1000.0, (s, _) => s);
            FitText("alert", 100.0, tm).width > 100.0
  {
  }

  /**
   * Two fitting examples, with "alert" measuring 300:
   * bounds 2000 wide keep the text and give a body 500 wide; bounds 700 wide
   * leave 100 for the text, so it is ellipsized to that width.
   */
  lemma AlertExamples(tm: TextMeasure, top: int, bottom: int)
    requires tm.measureText("alert") == 300.0
    ensures FitText("alert", AvailableWidth(Rect(0, top, 2000, bottom)), tm) == FittedText("alert", 500.0)
    ensures FitText("alert", AvailableWidth(Rect(0, top, 700, bottom)), tm).text == tm.ellipsize("alert", 100.0)
  {
  }

  /**
   * A host that lays the widget out at exactly its desired width gives the
   * text room only when there is no left padding and the text's width is a
   * whole number: the (int) cast drops the fraction, and the bounds lose the
   * left padding twice.
   */
  lemma DesiredWidthFitsIff(text: string, pad: Padding, tm: TextMeasure, textHeight: real,
                            left: int, top: int, bottom: int)
    requires 0.0 <= tm.measureText(text)
    requires 0 <= pad.left && 0 <= pad.right
    requires InIntRange(pad.left + pad.right + 2 * (MARGIN + PAD_H) + tm.measureText(text).Floor)
    ensures var width := DesiredSize(text, pad, tm, textHeight).width;
            var bounds := LayoutBounds(left, top, left + width, bottom, pad);
            (Fits(text, AvailableWidth(bounds), tm) <==>
             pad.left == 0 && tm.measureText(text) == tm.measureText(text).Floor as real)
  {
  }

  /** What one draw pass computes, named after the buffers the widget reuses. */
  datatype DrawPlan = DrawPlan(
    topLeft: PointF,     // tagBorderTL
    body: RectF,         // tagRectF before the inset
    background: Rect,    // tagRect: the body rounded, given to the background drawable
    clip: RectF,         // tagRectF after the inset
    pivot: PointF,       // the point the canvas rotates about
    text: string,        // the fitted text
    anchor: PointF)      // where drawText places the text

  /** The text the draw pass starts from: the tag's, or empty when no tag is set. */
  function TagText(tag: Option<Tag>): string
  {
    if tag.None? then "" else tag.value.text
  }

  /** The geometry of one draw pass, from the stored bounds and the text. */
  function Plan(bounds: Rect, text: string, tm: TextMeasure, line: LineMetrics): (p: DrawPlan)
    ensures p.topLeft == TagTopLeft(bounds)
    ensures p.body.TopLeft() == p.topLeft
    ensures p.body.Height() == BodyHeight(bounds, line.height)
    ensures p.text == FitText(text, AvailableWidth(bounds), tm).text
    ensures p.body.Width() == BodyWidth(p.text, tm)
    ensures p.background == RoundRect(p.body)
    ensures p.clip == p.body.Inset(PAD_H as real, PAD_V as real)
    ensures p.pivot == p.clip.Center()
    ensures InIntRange(bounds.left + MARGIN) && InIntRange(bounds.top + MARGIN) ==>
              p.anchor == PointF(p.clip.left, p.clip.top + line.baseline)
  {
    var tl := TagTopLeft(bounds);
    var fitted := FitText(text, AvailableWidth(bounds), tm);
    var body := RectF(tl.x, tl.y, tl.x + fitted.width, tl.y + BodyHeight(bounds, line.height));
    var clip := body.Inset(PAD_H as real, PAD_V as real);
    var anchor := PointF((FloatToInt(tl.x) + PAD_H) as real, (FloatToInt(tl.y) + PAD_V) as real + line.baseline);
    WholeNumbersAreExact(bounds.left + MARGIN);
    WholeNumbersAreExact(bounds.top + MARGIN);
    DrawPlan(tl, body, RoundRect(body), clip, clip.Center(), fitted.text, anchor)
  }

  /** The text paint in force when the text is drawn: filled, with the green shadow. */
  const TEXT_STYLE: TextStyle := TextStyle(Fill, Some(TEXT_SHADOW))

  /** The canvas calls of a draw pass with a tag of the given level, in the widget's order. */
  function DrawOps(p: DrawPlan, level: int): seq<Op>
  {
    [ DrawDrawable(p.background, level),
      ClipRect(p.clip),
      Save,
      Rotate(TEXT_ROTATION, p.pivot),
      DrawText(p.text, p.anchor, TEXT_STYLE),
      Restore ]
  }

  /** The rotation pivot is the centre of the clip: rotating either corner gives the other. */
  lemma PivotSwapsClipCorners(p: DrawPlan)
    requires p.pivot == p.clip.Center()
    ensures Rotate180(p.clip.TopLeft(), p.pivot) == p.clip.BottomRight()
    ensures Rotate180(p.clip.BottomRight(), p.pivot) == p.clip.TopLeft()
  {
  }

  /**
   * The anchor is taken before the rotation, at the clip's top-left plus
   * the baseline; after the rotation the text starts at the clip's
   * bottom-right, a baseline above the bottom, running upside down.
   */
  lemma RotatedAnchor(bounds: Rect, text: string, tm: TextMeasure, line: LineMetrics)
    requires InIntRange(bounds.left + MARGIN) && InIntRange(bounds.top + MARGIN)
    ensures var p := Plan(bounds, text, tm, line);
            Rotate180(p.anchor, p.pivot) == PointF(p.clip.right, p.clip.bottom - line.baseline)
  {
  }

  /**
   * The effect of a draw pass on a canvas: the background is painted under
   * the frame the canvas had, the text under that frame clipped to the inset
   * body and rotated about the pivot. The restore undoes the rotation but not
   * the clip, which was applied before the save and stays in force.
   */
  lemma DrawOpsEffect(p: DrawPlan, level: int, s: State)
    ensures var bg := Mark(DrawDrawable(p.background, level), s.current);
            var clipped := s.current.(clips := s.current.clips + [p.clip]);
            var rotated := clipped.(rotations := s.current.rotations + [Rotation(TEXT_ROTATION, p.pivot)]);
            var text := Mark(DrawText(p.text, p.anchor, TEXT_STYLE), rotated);
            Exec(s, DrawOps(p, level)) == Ok(State(clipped, s.saved, s.marks + [bg, text]))
  {
    var bg := DrawDrawable(p.background, level);
    var clip := ClipRect(p.clip);
    var body := [Rotate(TEXT_ROTATION, p.pivot), DrawText(p.text, p.anchor, TEXT_STYLE)];
    assert DrawOps(p, level) == [bg, clip] + ([Save] + body + [Restore]);
    ExecAppend(s, [bg, clip], [Save] + body + [Restore]);
    // the background and the clip, one call at a time
    var s1 := Step(s, bg).value;
    var s2 := Step(s1, clip).value;
    assert Exec(s1, [clip]) == Ok(s2) by { assert [clip][1..] == []; }
    assert Exec(s, [bg, clip]) == Ok(s2) by { assert [bg, clip][1..] == [clip]; }
    // the bracket restores the clipped frame
    assert forall i :: 0 <= i < |body| ==> Flat(body[i]);
    SaveRestoreBracket(s2, body);
    // what the rotated text paints
    var t0 := s2.(saved := s2.saved + [s2.current]);
    var t1 := Step(t0, body[0]).value;
    var t2 := Step(t1, body[1]).value;
    assert Exec(t1, [body[1]]) == Ok(t2) by { assert [body[1]][1..] == []; }
    assert Exec(t0, body) == Ok(t2) by { assert body[1..] == [body[1]]; }
    var after := Exec(s2, [Save] + body + [Restore]).value;
    assert Exec(s, DrawOps(p, level)) == Ok(after);
    assert after == State(s2.current, s.saved, t2.marks);
    assert s2.current == s.current.(clips := s.current.clips + [p.clip]);
    assert t1.current == s2.current.(rotations := s.current.rotations + [Rotation(TEXT_ROTATION, p.pivot)]);
    assert t2.marks == s.marks + [Mark(bg, s.current), Mark(body[1], t1.current)];
  }

  // ---------------------------------------------------------------------------
  // The widget
  // ---------------------------------------------------------------------------

  class TagView {
    /** The measuring collaborator behind the widget's text paint. */
    const paint: TextMeasure
    const textBaseline: real
    const textHeight: real

    /** The drawable area, recomputed by OnLayout. */
    var bounds: Rect
    /** The current tag; None until SetTag is first called. */
    var tag: Option<Tag>

    // buffers that OnDraw reuses from one pass to the next
    var tagBorderTL: PointF
    var tagRectF: RectF
    var tagRect: Rect

    // the state of the level-list background drawable
    var backgroundBounds: Rect
    var backgroundLevel: int

    /** The text paint's style and shadow, which OnDraw switches and leaves switched. */
    var textStyle: TextStyle

    function Line(): LineMetrics
    {
      LineMetrics(textBaseline, textHeight)
    }

    /** The font metrics are read once; the text paint starts out stroked and without shadow. */
    constructor (metrics: FontMetrics, paint: TextMeasure)
      ensures this.paint.measureText == paint.measureText
      ensures this.paint.ellipsize == paint.ellipsize
      ensures Line() == DeriveLineMetrics(metrics)
      ensures bounds == Rect(0, 0, 0, 0) && tag == None
      ensures textStyle == TextStyle(Stroke, None)
      ensures backgroundLevel == 0
      ensures tagBorderTL == PointF(0.0, 0.0) && tagRectF == RectF(0.0, 0.0, 0.0, 0.0)
      ensures tagRect == Rect(0, 0, 0, 0)
      ensures backgroundBounds == Rect(0, 0, 0, 0)
    {
      this.paint := paint;
      var line := DeriveLineMetrics(metrics);
      textBaseline := line.baseline;
      textHeight := line.height;
      bounds := Rect(0, 0, 0, 0);
      tag := None;
      tagBorderTL := PointF(0.0, 0.0);
      tagRectF := RectF(0.0, 0.0, 0.0, 0.0);
      tagRect := Rect(0, 0, 0, 0);
      backgroundBounds := Rect(0, 0, 0, 0);
      backgroundLevel := 0;
      textStyle := TextStyle(Stroke, None);
    }

    /** Replaces the tag in one assignment; nothing else changes. */
    method SetTag(text: string, level: int)
      modifies this`tag
      ensures tag == Some(Tag(text, level))
    {
      tag := Some(Tag(text, level));
    }

    /**
     * The desired size, before the host negotiates it. Measuring before a
     * tag is set dereferences the absent tag.
     */
    method OnMeasure(pad: Padding) returns (r: Result<Size, Error>)
      ensures r.Err? <==> tag.None?
      ensures tag.Some? ==> r == Ok(DesiredSize(tag.value.text, pad, paint, textHeight))
    {
      if tag == None {
        return Err(NullTag);
      }
      var w := FloatToInt(DesiredWidthF(tag.value.text, pad, paint));
      var h := FloatToInt(DesiredHeightF(pad, textHeight));
      r := Ok(Size(w, h));
    }

    /** Recomputes the bounds when the host reports a change; otherwise keeps them. */
    method OnLayout(changed: bool, left: int, top: int, right: int, bottom: int, pad: Padding)
      modifies this`bounds
      ensures changed ==> bounds == LayoutBounds(left, top, right, bottom, pad)
      ensures !changed ==> bounds == old(bounds)
    {
      if changed {
        var padL := pad.left;
        var padT := pad.top;
        bounds := Rect(padL, padT, right - (left + padL + pad.right), bottom - (top + padT + pad.bottom));
      }
    }

    /**
     * The first half of a draw pass: places the tag body from the bounds and
     * the fitted text, and hands its rounded rectangle to the background
     * drawable. Returns the text to draw.
     */
    method PlaceBody() returns (tagText: string)
      modifies this`tagBorderTL, this`tagRectF, this`tagRect, this`backgroundBounds
      ensures var p := Plan(bounds, TagText(tag), paint, Line());
              && tagBorderTL == p.topLeft && tagRectF == p.body
              && tagRect == p.background && backgroundBounds == p.background
              && tagText == p.text
    {
      ghost var p := Plan(bounds, TagText(tag), paint, Line());
      tagBorderTL := PointF((bounds.left + MARGIN) as real, (bounds.top + MARGIN) as real);
      assert tagBorderTL == p.topLeft;

      var h := BodyHeight(bounds, textHeight);

      tagText := TagText(tag);
      var wMax := AvailableWidth(bounds);
      var w := BodyWidth(tagText, paint);
      if wMax < w {
        tagText := paint.ellipsize(tagText, wMax - (2 * PAD_H) as real);
        w := BodyWidth(tagText, paint);
      }
      assert tagText == p.text && w == p.body.Width();

      tagRectF := RectF(tagBorderTL.x, tagBorderTL.y, tagBorderTL.x + w, tagBorderTL.y + h);
      assert tagRectF == p.body;
      tagRect := RoundRect(tagRectF);
      backgroundBounds := tagRect;
      assert p == Plan(bounds, TagText(tag), paint, Line());
    }

    /**
     * One draw pass, returning the canvas calls it makes. The buffers and the
     * background's bounds are set before the tag's level is read, so with no
     * tag they are updated and the pass then fails; with a tag the text paint
     * is left filled and shadowed.
     */
    method OnDraw() returns (r: Result<seq<Op>, Error>)
      modifies this`tagBorderTL, this`tagRectF, this`tagRect, this`backgroundBounds,
               this`backgroundLevel, this`textStyle
      ensures var p := Plan(bounds, TagText(tag), paint, Line());
              && tagBorderTL == p.topLeft
              && tagRect == p.background
              && backgroundBounds == p.background
              && (tag.None? ==> r == Err(NullTag) && tagRectF == p.body
                                && backgroundLevel == old(backgroundLevel) && textStyle == old(textStyle))
              && (tag.Some? ==> r == Ok(DrawOps(p, tag.value.level)) && tagRectF == p.clip
                                && backgroundLevel == tag.value.level && textStyle == TEXT_STYLE)
    {
      ghost var p := Plan(bounds, TagText(tag), paint, Line());
      var tagText := PlaceBody();
      assert p == Plan(bounds, TagText(tag), paint, Line());
      if tag == None {
        return Err(NullTag);
      }
      backgroundLevel := tag.value.level;

      tagRectF := tagRectF.Inset(PAD_H as real, PAD_V as real);
      var pivot := PointF(tagRectF.left + (tagRectF.right - tagRectF.left) / 2.0,
                          tagRectF.top + (tagRectF.bottom - tagRectF.top) / 2.0);

      textStyle := TextStyle(Fill, Some(TEXT_SHADOW));
      var anchor := PointF((FloatToInt(tagBorderTL.x) + PAD_H) as real,
                           (FloatToInt(tagBorderTL.y) + PAD_V) as real + textBaseline);
      assert tagRectF == p.clip && pivot == p.pivot && anchor == p.anchor;
      var ops := [ DrawDrawable(backgroundBounds, backgroundLevel),
                   ClipRect(tagRectF),
                   Save,
                   Rotate(TEXT_ROTATION, pivot),
                   DrawText(tagText, anchor, textStyle),
                   Restore ];
      assert ops == DrawOps(p, tag.value.level);
      r := Ok(ops);
      assert p == Plan(bounds, TagText(tag), paint, Line());
    }
  }

  /** Drawing twice with nothing changed in between issues the same calls. */
  method RedrawIsIdempotent(v: TagView) returns (first: Result<seq<Op>, Error>, second: Result<seq<Op>, Error>)
    modifies v
    ensures first == second
  {
    first := v.OnDraw();
    second := v.OnDraw();
  }

  /** A tag set after the last layout is drawn against the bounds that layout stored. */
  method SetTagThenDraw(v: TagView, text: string, level: int) returns (r: Result<seq<Op>, Error>)
    modifies v
    ensures r == Ok(DrawOps(Plan(old(v.bounds), text, v.paint, v.Line()), level))
  {
    v.SetTag(text, level);
    r := v.OnDraw();
  }
}
