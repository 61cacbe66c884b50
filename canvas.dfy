/**
 * A recorded android.graphics.Canvas. A draw pass is a sequence of canvas
 * calls (Op); the interpreter below gives them the meaning the Canvas API
 * documents: clipRect and rotate change the current matrix and clip, save
 * pushes them, restore pops them (and fails when nothing was saved), and
 * every paint call is recorded with the rotations and clips in force.
 *
 * A frame keeps the rotations and the clips as two separate lists, so it does
 * not record in which matrix a clip was applied (Android maps a clip through
 * the matrix in force at clipRect). The widget clips once, before its one
 * rotation, which is a half turn about the clip's own centre and so maps the
 * clip onto itself; for that pass the order makes no difference.
 */
module Canvas {
  import opened Wrappers
  import opened Geometry

  datatype PaintStyle = Stroke | Fill

  /** Paint.setShadowLayer(radius, dx, dy, color). */
  datatype ShadowLayer = ShadowLayer(radius: real, dx: real, dy: real, color: int)

  /** The parts of the TextPaint that the widget switches between draws. */
  datatype TextStyle = TextStyle(style: PaintStyle, shadow: Option<ShadowLayer>)

  datatype Op =
    | DrawDrawable(bounds: Rect, level: int)          // a level-list drawable drawn in its bounds
    | ClipRect(clip: RectF)
    | Save
    | Rotate(degrees: real, pivot: PointF)
    | DrawText(text: string, origin: PointF, paint: TextStyle)
    | Restore

  /** A paint call: it draws something; the others only change the frame. */
  predicate Paints(op: Op) { op.DrawDrawable? || op.DrawText? }

  /** A call that neither saves nor restores. */
  predicate Flat(op: Op) { !op.Save? && !op.Restore? }

  datatype Rotation = Rotation(degrees: real, pivot: PointF)

  /** What is in force: the rotations concatenated so far and the clips intersected so far. */
  datatype Frame = Frame(rotations: seq<Rotation>, clips: seq<RectF>)

  /** Something painted, with the frame it was painted under. */
  datatype Mark = Mark(op: Op, frame: Frame)

  datatype State = State(current: Frame, saved: seq<Frame>, marks: seq<Mark>)

  /** Canvas.restore throws IllegalStateException when it has nothing to restore. */
  datatype CanvasError = RestoreUnderflow

  function Step(s: State, op: Op): (r: Result<State, CanvasError>)
    ensures r.Err? <==> op.Restore? && s.saved == []
    ensures r.Ok? && Paints(op) ==> r.value == s.(marks := s.marks + [Mark(op, s.current)])
    ensures r.Ok? && !Paints(op) ==> r.value.marks == s.marks
    ensures r.Ok? && Flat(op) ==> r.value.saved == s.saved
    ensures op.Save? ==> r == Ok(s.(saved := s.saved + [s.current]))
  {
    match op
    case DrawDrawable(_, _) => Ok(s.(marks := s.marks + [Mark(op, s.current)]))
    case DrawText(_, _, _) => Ok(s.(marks := s.marks + [Mark(op, s.current)]))
    case ClipRect(c) => Ok(s.(current := s.current.(clips := s.current.clips + [c])))
    case Rotate(d, p) => Ok(s.(current := s.current.(rotations := s.current.rotations + [Rotation(d, p)])))
    case Save => Ok(s.(saved := s.saved + [s.current]))
    case Restore =>
      if s.saved == [] then Err(RestoreUnderflow)
      else Ok(s.(current := s.saved[|s.saved| - 1], saved := s.saved[..|s.saved| - 1]))
  }

  /** Runs the calls in order; the first failure ends the pass. */
  function Exec(s: State, ops: seq<Op>): Result<State, CanvasError>
    decreases |ops|
  {
    if ops == [] then Ok(s)
    else match Step(s, ops[0])
      case Err(e) => Err(e)
      case Ok(t) => Exec(t, ops[1..])
  }

  /** Running a + b is running a, then b from where a left off. */
  lemma {:induction false} ExecAppend(s: State, a: seq<Op>, b: seq<Op>)
    ensures Exec(s, a + b) == match Exec(s, a) case Err(e) => Err(e) case Ok(t) => Exec(t, b)
    decreases |a|
  {
    if a == [] {
      assert a + b == b;
    } else {
      assert (a + b)[0] == a[0];
      assert (a + b)[1..] == a[1..] + b;
      match Step(s, a[0])
      case Err(_) =>
      case Ok(t) => ExecAppend(t, a[1..], b);
    }
  }

  /**
   * Calls that neither save nor restore never fail, leave the save stack
   * alone and only add marks.
   */
  lemma {:induction false} ExecFlat(s: State, ops: seq<Op>)
    requires forall i :: 0 <= i < |ops| ==> Flat(ops[i])
    ensures Exec(s, ops).Ok?
    ensures Exec(s, ops).value.saved == s.saved
    ensures s.marks <= Exec(s, ops).value.marks
    decreases |ops|
  {
    if ops != [] {
      var t := Step(s, ops[0]).value;
      ExecFlat(t, ops[1..]);
    }
  }

  /**
   * A save ... restore bracket around calls that neither save nor restore
   * puts the matrix and clip back as they were before the save; what is
   * painted is what the calls paint under the frame saved.
   */
  lemma SaveRestoreBracket(s: State, body: seq<Op>)
    requires forall i :: 0 <= i < |body| ==> Flat(body[i])
    ensures Exec(s, [Save] + body + [Restore]).Ok?
    ensures Exec(s, [Save] + body + [Restore]).value.current == s.current
    ensures Exec(s, [Save] + body + [Restore]).value.saved == s.saved
    ensures Exec(s.(saved := s.saved + [s.current]), body).Ok?
    ensures Exec(s, [Save] + body + [Restore]).value.marks
              == Exec(s.(saved := s.saved + [s.current]), body).value.marks
  {
    var saved := Step(s, Save).value;
    ExecAppend(s, [Save], body);
    ExecAppend(s, [Save] + body, [Restore]);
    assert Exec(s, [Save]) == Ok(saved) by {
      assert [Save][1..] == [];
    }
    ExecFlat(saved, body);
    var t := Exec(saved, body).value;
    assert Exec(t, [Restore]) == Step(t, Restore) by {
      assert [Restore][1..] == [];
    }
    assert t.saved == s.saved + [s.current];
    assert t.saved[..|t.saved| - 1] == s.saved;
  }
}
