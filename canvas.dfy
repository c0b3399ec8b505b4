/** A CanvasRenderingContext2D reduced to what the camera page does with it:
    the canvas size, the fill style and font in effect, and the ordered log
    of the drawing calls made on it. The meaning of the transform calls in
    that log (save, restore, translate, scale) is given by `Replay`. */
module Canvas {
  import opened Media

  /** The fonts the page uses. The title font's pixel size is computed from
      text metrics at run time and is not modelled. */
  datatype Font = DefaultFont | Gaegu16 | GaeguTitle

  /** The context's fill style and font when it is created or reset. */
  const DefaultFillStyle: string := "#000000"

  /** One call on the context. Drawing calls record the fill style and the
      font in effect when they were made. `Reset` records an assignment to
      the canvas's width or height, which clears the bitmap and resets the
      context. */
  datatype CanvasOp =
    | Reset
    | FillRect(x: real, y: real, w: real, h: real, style: string)
    | Save
    | Restore
    | Translate(dx: real, dy: real)
    | Scale(kx: real, ky: real)
    | DrawImage(source: Option<Stream>, x: real, y: real)
    | FillText(text: string, x: real, y: real, style: string, font: Font)

  class Context2D {
    var canvasWidth: real
    var canvasHeight: real
    var fillStyle: string
    var font: Font
    var ops: seq<CanvasOp>

    constructor (width: real, height: real)
      ensures canvasWidth == width && canvasHeight == height
      ensures fillStyle == DefaultFillStyle && font == DefaultFont && ops == []
    {
      canvasWidth, canvasHeight := width, height;
      fillStyle, font := DefaultFillStyle, DefaultFont;
      ops := [];
    }

    /** `canvas.width = w`: the bitmap is cleared and the context goes back
        to its defaults, even when the width does not change. */
    method SetWidth(w: real)
      modifies this
      ensures canvasWidth == w && canvasHeight == old(canvasHeight)
      ensures fillStyle == DefaultFillStyle && font == DefaultFont && ops == old(ops) + [Reset]
    {
      canvasWidth := w;
      fillStyle, font := DefaultFillStyle, DefaultFont;
      ops := ops + [Reset];
    }

    /** `canvas.height = h`, with the same reset. */
    method SetHeight(h: real)
      modifies this
      ensures canvasHeight == h && canvasWidth == old(canvasWidth)
      ensures fillStyle == DefaultFillStyle && font == DefaultFont && ops == old(ops) + [Reset]
    {
      canvasHeight := h;
      fillStyle, font := DefaultFillStyle, DefaultFont;
      ops := ops + [Reset];
    }

    method FillRect(x: real, y: real, w: real, h: real)
      modifies this`ops
      ensures ops == old(ops) + [CanvasOp.FillRect(x, y, w, h, fillStyle)]
    {
      ops := ops + [CanvasOp.FillRect(x, y, w, h, fillStyle)];
    }

    method Save()
      modifies this`ops
      ensures ops == old(ops) + [CanvasOp.Save]
    {
      ops := ops + [CanvasOp.Save];
    }

    method Restore()
      modifies this`ops
      ensures ops == old(ops) + [CanvasOp.Restore]
    {
      ops := ops + [CanvasOp.Restore];
    }

    method Translate(dx: real, dy: real)
      modifies this`ops
      ensures ops == old(ops) + [CanvasOp.Translate(dx, dy)]
    {
      ops := ops + [CanvasOp.Translate(dx, dy)];
    }

    method Scale(kx: real, ky: real)
      modifies this`ops
      ensures ops == old(ops) + [CanvasOp.Scale(kx, ky)]
    {
      ops := ops + [CanvasOp.Scale(kx, ky)];
    }

    method DrawImage(source: Option<Stream>, x: real, y: real)
      modifies this`ops
      ensures ops == old(ops) + [CanvasOp.DrawImage(source, x, y)]
    {
      ops := ops + [CanvasOp.DrawImage(source, x, y)];
    }

    method FillText(text: string, x: real, y: real)
      modifies this`ops
      ensures ops == old(ops) + [CanvasOp.FillText(text, x, y, fillStyle, font)]
    {
      ops := ops + [CanvasOp.FillText(text, x, y, fillStyle, font)];
    }
  }

  /** A transform without rotation or shear: (x, y) goes to
      (sx * x + tx, sy * y + ty). */
  datatype Affine = Affine(sx: real, sy: real, tx: real, ty: real)

  const Identity: Affine := Affine(1.0, 1.0, 0.0, 0.0)

  function Apply(t: Affine, x: real, y: real): (real, real)
  {
    (t.sx * x + t.tx, t.sy * y + t.ty)
  }

  /** The current transform and the stack that save and restore use. */
  datatype DrawState = DrawState(current: Affine, saved: seq<Affine>)

  /** The state of a new or reset context. */
  const Initial: DrawState := DrawState(Identity, [])

  /** The effect of one call on the transform state. A restore with
      nothing saved does nothing. */
  function Step(st: DrawState, op: CanvasOp): DrawState
  {
    match op
      case Reset => Initial
      case Save => DrawState(st.current, st.saved + [st.current])
      case Restore =>
        if st.saved == [] then st
        else DrawState(st.saved[|st.saved| - 1], st.saved[..|st.saved| - 1])
      case Translate(dx, dy) =>
        var t := st.current;
        DrawState(Affine(t.sx, t.sy, t.sx * dx + t.tx, t.sy * dy + t.ty), st.saved)
      case Scale(kx, ky) =>
        var t := st.current;
        DrawState(Affine(t.sx * kx, t.sy * ky, t.tx, t.ty), st.saved)
      case _ => st
  }

  /** The transform state after the calls in `ops`, starting from `st`. */
  function Replay(ops: seq<CanvasOp>, st: DrawState): DrawState
    decreases |ops|
  {
    if ops == [] then st else Step(Replay(ops[..|ops| - 1], st), ops[|ops| - 1])
  }

  /** The transform in effect for the call at index `k`. */
  function TransformAt(ops: seq<CanvasOp>, k: nat, st: DrawState): Affine
    requires k <= |ops|
  {
    Replay(ops[..k], st).current
  }

  lemma {:induction false} ReplayAppend(a: seq<CanvasOp>, b: seq<CanvasOp>, st: DrawState)
    ensures Replay(a + b, st) == Replay(b, Replay(a, st))
    decreases |b|
  {
    if b == [] {
      assert a + b == a;
    } else {
      var b' := b[..|b| - 1];
      assert (a + b)[..|a + b| - 1] == a + b';
      ReplayAppend(a, b', st);
    }
  }

  /** A reset forgets the transform history: whatever was saved, translated
      or scaled before it, the calls after it act on the initial state. */
  lemma {:induction false} ResetForgetsHistory(before: seq<CanvasOp>, after: seq<CanvasOp>, st: DrawState)
    ensures Replay(before + [Reset] + after, st) == Replay(after, Initial)
  {
    ReplayAppend(before + [Reset], after, st);
  }
}
