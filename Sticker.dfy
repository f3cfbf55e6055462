/**
 * `composeStickerPng` and the file-name rule of `downloadCanvasPng`: the
 * sticker is a blue header band with two lines of text, a thin white
 * divider, a red body holding the QR code scaled into a centred square, and
 * the formatted code number below it.
 */
module Sticker {
  import opened Wrappers
  import opened JsString
  import opened CodeNumber
  import opened Layout
  import opened Canvas2D

  const Blue := "#0B2A5B"
  const Red := "#E02222"
  const White := "#FFFFFF"
  const DefaultHeaderText := "PROPERTY OF\nTRANS CONTINENT"

  /** The optional overrides; None for an absent option. */
  datatype StickerOptions = StickerOptions(width: Option<nat>, height: Option<nat>, headerText: Option<string>)

  /** `bold <px>px Arial`. */
  function BoldArial(px: int): Font
  {
    Font(true, px, "Arial")
  }

  /**
   * `const [line1, line2] = headerText.split('\n')`: the first two pieces;
   * a missing second piece is `undefined`, which `fillText` draws as the
   * text "undefined".
   */
  function HeaderLines(headerText: string): (string, string)
  {
    var parts := Split(headerText, '\n');
    (parts[0], if |parts| >= 2 then parts[1] else "undefined")
  }

  /** The three background fills: the blue header, the white divider and the red body. */
  function BandOps(width: nat, height: nat): seq<DrawOp>
  {
    [ Rect(Blue, 0, 0, width, HeaderH(height)),
      Rect(White, 0, LineY(height), width, LineH(height)),
      Rect(Red, 0, RedStartY(height), width, RedH(height)) ]
  }

  /** The two header lines, white, bold and centred on the middle of the canvas. */
  function HeaderOps(width: nat, height: nat, headerText: string): seq<DrawOp>
  {
    var lines := HeaderLines(headerText);
    var headerFont := BoldArial(HeaderFontPx(height));
    [ Text(White, headerFont, Center, Middle, lines.0, CentreX(width), HeaderLine1Y(height)),
      Text(White, headerFont, Center, Middle, lines.1, CentreX(width), HeaderLine2Y(height)) ]
  }

  /** The code number below the QR code. */
  function CodeOp(codeText: string, width: nat, height: nat): DrawOp
  {
    Text(White, BoldArial(CodeFontPx(height)), Center, Alphabetic, codeText, CentreX(width), CodeY(width, height) as real)
  }

  /**
   * The drawing calls of a sticker, in the order the renderer makes them;
   * `codeText` is the code number as it is shown.
   */
  function StickerOps(qr: Canvas, codeText: string, width: nat, height: nat, headerText: string): seq<DrawOp>
  {
    var bands := BandOps(width, height);
    var header := HeaderOps(width, height, headerText);
    [ bands[0], bands[1], bands[2], header[0], header[1],
      Image(qr, true, QrX(width), QrY(height), QrSize(width), QrSize(width)),
      CodeOp(codeText, width, height) ]
  }

  /**
   * `composeStickerPng(qrCanvas, codeNumber, opts)`: a fresh canvas of the
   * requested size (600 by 840 by default) holding the sticker's drawing
   * calls, with the code number drawn as `formatCodeNumber` shows it;
   * `qrCanvas` is only read. None when the call throws, which it does
   * exactly when `qrCanvas` has no width or no height (`drawImage` refuses
   * an empty source).
   */
  method ComposeSticker(qrCanvas: Canvas, codeNumber: string, opts: StickerOptions) returns (r: Option<Canvas>)
    ensures r.Some? <==> qrCanvas.width > 0 && qrCanvas.height > 0
    ensures r.Some? ==> fresh(r.value)
    ensures r.Some? ==> var out := r.value;
      out.width == opts.width.GetOr(DefaultWidth) && out.height == opts.height.GetOr(DefaultHeight) &&
      out.ops == StickerOps(qrCanvas, FormatCodeNumber(Some(codeNumber)), out.width, out.height,
                            opts.headerText.GetOr(DefaultHeaderText)) &&
      out.State() == DrawState(White, BoldArial(CodeFontPx(out.height)), Center, Alphabetic, true)
  {
    r := DrawSticker(qrCanvas, FormatCodeNumber(Some(codeNumber)), opts);
  }

  /** The drawing of `composeStickerPng`, given the text it shows for the code number. */
  method DrawSticker(qrCanvas: Canvas, codeText: string, opts: StickerOptions) returns (r: Option<Canvas>)
    ensures r.Some? <==> qrCanvas.width > 0 && qrCanvas.height > 0
    ensures r.Some? ==> fresh(r.value)
    ensures r.Some? ==> var out := r.value;
      out.width == opts.width.GetOr(DefaultWidth) && out.height == opts.height.GetOr(DefaultHeight) &&
      out.ops == StickerOps(qrCanvas, codeText, out.width, out.height, opts.headerText.GetOr(DefaultHeaderText)) &&
      out.State() == DrawState(White, BoldArial(CodeFontPx(out.height)), Center, Alphabetic, true)
  {
    var width := opts.width.GetOr(DefaultWidth);
    var height := opts.height.GetOr(DefaultHeight);
    var headerText := opts.headerText.GetOr(DefaultHeaderText);

    var out := new Canvas(width, height);
    out.imageSmoothingEnabled := true;

    DrawBands(out, width, height);
    DrawHeader(out, width, height, headerText);

    var qrTargetSize := QrSize(width);
    var qrX := QrX(width);
    var qrY := QrY(height);
    var drawn := out.DrawImage(qrCanvas, qrX, qrY, qrTargetSize, qrTargetSize);
    if !drawn {
      return None;
    }

    DrawCodeNumber(out, codeText, width, height);
    r := Some(out);
  }

  /** The background of the sticker: the blue header band, the white divider and the red body. */
  method DrawBands(out: Canvas, width: nat, height: nat)
    modifies out
    ensures out.ops == old(out.ops) + BandOps(width, height)
    ensures out.State() == old(out.State()).(fillStyle := Red)
  {
    var headerH := HeaderH(height);
    out.fillStyle := Blue;
    out.FillRect(0, 0, width, headerH);

    var whiteLineHeight := LineH(height);
    var whiteLineY := LineY(height);
    out.fillStyle := White;
    out.FillRect(0, whiteLineY, width, whiteLineHeight);

    var redStartY := RedStartY(height);
    out.fillStyle := Red;
    out.FillRect(0, redStartY, width, height - redStartY);
  }

  /** The two lines of the header text, the first two pieces of `headerText` split at line breaks. */
  method DrawHeader(out: Canvas, width: nat, height: nat, headerText: string)
    modifies out
    ensures out.ops == old(out.ops) + HeaderOps(width, height, headerText)
    ensures out.State() == old(out.State()).(fillStyle := White, font := BoldArial(HeaderFontPx(height)),
                                             textAlign := Center, textBaseline := Middle)
  {
    out.fillStyle := White;
    out.textAlign := Center;
    out.textBaseline := Middle;
    out.font := BoldArial(HeaderFontPx(height));
    var parts := Split(headerText, '\n');
    var line1 := parts[0];
    var line2 := if |parts| >= 2 then parts[1] else "undefined";
    out.FillText(line1, CentreX(width), HeaderLine1Y(height));
    out.FillText(line2, CentreX(width), HeaderLine2Y(height));
  }

  /** The code number, as shown, centred below the QR code. */
  method DrawCodeNumber(out: Canvas, codeText: string, width: nat, height: nat)
    modifies out
    ensures out.ops == old(out.ops) + [CodeOp(codeText, width, height)]
    ensures out.State() == old(out.State()).(fillStyle := White, font := BoldArial(CodeFontPx(height)),
                                             textAlign := Center, textBaseline := Alphabetic)
  {
    out.fillStyle := White;
    out.textAlign := Center;
    out.textBaseline := Alphabetic;
    out.font := BoldArial(CodeFontPx(height));
    var codeY := CodeY(width, height);
    out.FillText(codeText, CentreX(width), codeY as real);
  }

  /**
   * Every pixel of the sticker is filled, and its background is blue above
   * the divider, white on the divider and red from there to the bottom edge.
   */
  lemma StickerBands(qr: Canvas, codeText: string, width: nat, height: nat, headerText: string, x: int, y: int)
    requires 0 <= x < width && 0 <= y < height
    ensures Paint(StickerOps(qr, codeText, width, height, headerText), x, y)
         == Some(if y < LineY(height) then Blue else if y < RedStartY(height) then White else Red)
  {
    var ops := StickerOps(qr, codeText, width, height, headerText);
    BandsStack(height);
    var p0, p1, p2 := [ops[0]], [ops[0], ops[1]], [ops[0], ops[1], ops[2]];
    var p3, p4 := p2 + [ops[3]], p2 + [ops[3], ops[4]];
    var p5 := p4 + [ops[5]];
    assert p1 == p0 + [ops[1]] && p2 == p1 + [ops[2]] && p4 == p3 + [ops[4]];
    assert ops == p5 + [ops[6]];
    PaintUncovered(p5, ops[6], x, y);
    PaintUncovered(p4, ops[5], x, y);
    PaintUncovered(p3, ops[4], x, y);
    PaintUncovered(p2, ops[3], x, y);
    assert Paint(ops, x, y) == Paint(p2, x, y);
    if RedStartY(height) <= y {
      PaintCovered(p1, ops[2], x, y);
    } else {
      PaintUncovered(p1, ops[2], x, y);
      if LineY(height) <= y {
        PaintCovered(p0, ops[1], x, y);
      } else {
        PaintUncovered(p0, ops[1], x, y);
        PaintCovered([], ops[0], x, y);
        assert [] + [ops[0]] == p0;
      }
    }
  }

  /**
   * The QR code is drawn once, after every background fill, into a square
   * that is horizontally centred, inside the canvas width and below the
   * header band; no fill is made after it.
   */
  lemma StickerQrPlacement(qr: Canvas, codeText: string, width: nat, height: nat, headerText: string)
    ensures var ops := StickerOps(qr, codeText, width, height, headerText);
      exists i :: 0 <= i < |ops| && ops[i].Image? && ops[i].source == qr &&
        (forall j :: 0 <= j < |ops| && j != i ==> !ops[j].Image?) &&
        (forall j :: i < j < |ops| ==> !ops[j].Rect?) &&
        ops[i].dw == ops[i].dh &&
        0 <= ops[i].dx && ops[i].dx + ops[i].dw <= width &&
        -1 <= ops[i].dx - (width - ops[i].dx - ops[i].dw) <= 1 &&
        HeaderH(height) <= ops[i].dy
  {
    var ops := StickerOps(qr, codeText, width, height, headerText);
    QrCentred(width);
    QrBelowHeader(height);
    assert ops[5].Image?;
  }

  /** The texts drawn, in order. */
  function Texts(ops: seq<DrawOp>): seq<string>
  {
    if |ops| == 0 then []
    else (if ops[0].Text? then [ops[0].text] else []) + Texts(ops[1..])
  }

  lemma TextsFrom(ops: seq<DrawOp>, i: int)
    requires 0 <= i < |ops|
    ensures Texts(ops[i..]) == (if ops[i].Text? then [ops[i].text] else []) + Texts(ops[i + 1..])
  {
    assert ops[i..][1..] == ops[i + 1..];
  }

  /** The texts drawn, in order, are the two header lines and then the code number as shown. */
  lemma StickerTexts(qr: Canvas, codeText: string, width: nat, height: nat, headerText: string)
    ensures Texts(StickerOps(qr, codeText, width, height, headerText))
         == [HeaderLines(headerText).0, HeaderLines(headerText).1, codeText]
  {
    var ops := StickerOps(qr, codeText, width, height, headerText);
    assert ops[0..] == ops;
    TextsFrom(ops, 0); TextsFrom(ops, 1); TextsFrom(ops, 2); TextsFrom(ops, 3);
    TextsFrom(ops, 4); TextsFrom(ops, 5); TextsFrom(ops, 6);
    assert ops[7..] == [];
  }

  /** Every text is drawn white, centred on the canvas's middle; the header lines in the header font, the code number in its own. */
  lemma StickerTextsCentred(qr: Canvas, codeText: string, width: nat, height: nat, headerText: string)
    ensures var ops := StickerOps(qr, codeText, width, height, headerText);
      forall i :: 0 <= i < |ops| && ops[i].Text? ==>
        ops[i].tx == CentreX(width) && ops[i].align == Center && ops[i].style == White &&
        ops[i].font == BoldArial(if ops[i].baseline == Middle then HeaderFontPx(height) else CodeFontPx(height))
  {
  }

  /** The header lines are the text before the first line break and the text between it and the next one. */
  lemma HeaderLinesSplit(a: string, b: string)
    requires '\n' !in a
    ensures HeaderLines(a + "\n" + b) == (a, Split(b, '\n')[0])
  {
    SplitAtFirst(a, '\n', b);
  }

  /** A header text without a line break draws its second line as "undefined". */
  lemma HeaderLinesSingle(a: string)
    requires '\n' !in a
    ensures HeaderLines(a) == (a, "undefined")
  {
    SplitNoSeparator(a, '\n');
  }

  /** The default header reads "PROPERTY OF" over "TRANS CONTINENT". */
  lemma DefaultHeaderLines()
    ensures HeaderLines(DefaultHeaderText) == ("PROPERTY OF", "TRANS CONTINENT")
  {
    var a, b := "PROPERTY OF", "TRANS CONTINENT";
    assert '\n' !in a && '\n' !in b;
    assert DefaultHeaderText == a + "\n" + b;
    HeaderLinesSplit(a, b);
    SplitNoSeparator(b, '\n');
  }

  // ---------------------------------------------------------------------------
  // File names

  /** The name `downloadCanvasPng` saves under: `.png` is appended unless the name already ends with it. */
  function PngFileName(filename: string): (r: string)
    ensures EndsWith(r, ".png")
    ensures r == filename || r == filename + ".png"
  {
    if EndsWith(filename, ".png") then filename else filename + ".png"
  }

  /** Applying the suffix rule twice is the same as applying it once, and a name already ending in `.png` is kept. */
  lemma PngFileNameIdempotent(filename: string)
    ensures PngFileName(PngFileName(filename)) == PngFileName(filename)
    ensures EndsWith(filename, ".png") <==> PngFileName(filename) == filename
  {
  }

  /**
   * The names the page downloads under, `qr-<code>.png` and
   * `sticker-<code>.png`, with the raw code number or, when it is empty
   * or missing, the kind itself.
   */
  function ExportFileName(kind: string, codeNumber: Option<string>): (r: string)
    ensures |r| >= |kind| + 1 && r[..|kind| + 1] == kind + "-"
    ensures EndsWith(r, ".png")
  {
    var code := if codeNumber.None? || codeNumber.value == "" then kind else codeNumber.value;
    kind + "-" + code + ".png"
  }

  /** The page's names already end in `.png`, so the suffix rule leaves them as they are. */
  lemma ExportFileNameKept(kind: string, codeNumber: Option<string>)
    ensures PngFileName(ExportFileName(kind, codeNumber)) == ExportFileName(kind, codeNumber)
  {
  }
}
