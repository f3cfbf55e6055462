/**
 * A canvas with its 2D drawing context, reduced to what the sticker code
 * touches: the context state it sets and the drawing calls it makes, which
 * are recorded in order instead of being rasterised.
 */
module Canvas2D {
  import opened Wrappers

  datatype TextAlign = Start | End | Left | Right | Center

  datatype TextBaseline = Top | Hanging | Middle | Alphabetic | Ideographic | Bottom

  /** A CSS font of the form `[bold ]<px>px <family>`. */
  datatype Font = Font(bold: bool, px: int, family: string)

  /** One drawing call, with the context state it was made under. */
  datatype DrawOp =
    | Rect(style: string, x: int, y: int, w: int, h: int)
    | Text(style: string, font: Font, align: TextAlign, baseline: TextBaseline, text: string, tx: real, ty: real)
    | Image(source: Canvas, smoothing: bool, dx: int, dy: int, dw: int, dh: int)

  /** The drawing state of a context: what every later drawing call is made under. */
  datatype DrawState = DrawState(fillStyle: string, font: Font, textAlign: TextAlign, textBaseline: TextBaseline,
                                 imageSmoothingEnabled: bool)

  class Canvas {
    const width: nat
    const height: nat
    var fillStyle: string
    var font: Font
    var textAlign: TextAlign
    var textBaseline: TextBaseline
    var imageSmoothingEnabled: bool
    /** Every drawing call made so far, oldest first. */
    var ops: seq<DrawOp>

    /** The context's current drawing state. */
    function State(): DrawState
      reads this
    {
      DrawState(fillStyle, font, textAlign, textBaseline, imageSmoothingEnabled)
    }

    /** A blank canvas of the given size; the context starts in its default state. */
    constructor (width: nat, height: nat)
      ensures this.width == width && this.height == height
      ensures fillStyle == "#000000" && font == Font(false, 10, "sans-serif")
      ensures textAlign == Start && textBaseline == Alphabetic && imageSmoothingEnabled
      ensures ops == []
    {
      this.width := width;
      this.height := height;
      fillStyle := "#000000";
      font := Font(false, 10, "sans-serif");
      textAlign := Start;
      textBaseline := Alphabetic;
      imageSmoothingEnabled := true;
      ops := [];
    }

    /** `fillRect(x, y, w, h)` in the current fill style. */
    method FillRect(x: int, y: int, w: int, h: int)
      modifies this`ops
      ensures ops == old(ops) + [Rect(fillStyle, x, y, w, h)]
    {
      ops := ops + [Rect(fillStyle, x, y, w, h)];
    }

    /** `fillText(text, x, y)` in the current fill style, font, alignment and baseline. */
    method FillText(text: string, x: real, y: real)
      modifies this`ops
      ensures ops == old(ops) + [Text(fillStyle, font, textAlign, textBaseline, text, x, y)]
    {
      ops := ops + [Text(fillStyle, font, textAlign, textBaseline, text, x, y)];
    }

    /**
     * `drawImage(source, x, y, w, h)`: `source` scaled into the given
     * rectangle. A source canvas with no width or no height makes the call
     * throw an `InvalidStateError` instead; `ok` is false then and nothing is
     * drawn.
     */
    method DrawImage(source: Canvas, x: int, y: int, w: int, h: int) returns (ok: bool)
      modifies this`ops
      ensures ok <==> source.width > 0 && source.height > 0
      ensures ops == if ok then old(ops) + [Image(source, imageSmoothingEnabled, x, y, w, h)] else old(ops)
    {
      ok := source.width > 0 && source.height > 0;
      if ok {
        ops := ops + [Image(source, imageSmoothingEnabled, x, y, w, h)];
      }
    }
  }

  /** The rectangle fill covers pixel `(x, y)`. */
  predicate Covers(op: DrawOp, x: int, y: int)
  {
    op.Rect? && op.x <= x < op.x + op.w && op.y <= y < op.y + op.h
  }

  /** The fill style rectangle fills left at `(x, y)`: that of the last fill covering it, if any. */
  function Paint(ops: seq<DrawOp>, x: int, y: int): (r: Option<string>)
    ensures r.Some? <==> exists i :: 0 <= i < |ops| && Covers(ops[i], x, y)
  {
    if |ops| == 0 then None
    else
      var last := ops[|ops| - 1];
      if Covers(last, x, y) then Some(last.style)
      else
        var r := Paint(ops[..|ops| - 1], x, y);
        assert forall i :: 0 <= i < |ops| - 1 ==> ops[..|ops| - 1][i] == ops[i];
        r
  }

  /** A drawing call that does not cover `(x, y)` leaves its colour as it was. */
  lemma PaintUncovered(ops: seq<DrawOp>, op: DrawOp, x: int, y: int)
    requires !Covers(op, x, y)
    ensures Paint(ops + [op], x, y) == Paint(ops, x, y)
  {
    assert (ops + [op])[..|ops|] == ops;
  }

  /** A fill that covers `(x, y)` gives it its style. */
  lemma PaintCovered(ops: seq<DrawOp>, op: DrawOp, x: int, y: int)
    requires Covers(op, x, y)
    ensures Paint(ops + [op], x, y) == Some(op.style)
  {
  }
}
