/**
 * The integer geometry of the sticker: every measure is a rounded fraction
 * of the canvas width or height.
 */
module Layout {

  /** `Math.round(x)`: the nearest integer, a half rounded up. */
  function Round(x: real): (r: int)
    ensures x - 0.5 < r as real <= x + 0.5
  {
    (x + 0.5).Floor
  }

  const DefaultWidth: nat := 600
  const DefaultHeight: nat := 840

  /** `headerH`: the blue header band. */
  function HeaderH(height: nat): int
  {
    Round(height as real * 0.18)
  }

  /** `footerH`. */
  function FooterH(height: nat): int
  {
    Round(height as real * 0.06)
  }

  /** `bodyH`: everything below the header band. */
  function BodyH(height: nat): int
  {
    height - HeaderH(height)
  }

  /** `whiteLineHeight`: the thickness of the white divider. */
  function LineH(height: nat): int
  {
    Round(height as real * 0.009)
  }

  /** `whiteLineY`: the divider starts a little above the header's bottom edge. */
  function LineY(height: nat): int
  {
    HeaderH(height) - Round(LineH(height) as real * 0.3)
  }

  /** `redStartY`: the red body starts right below the divider. */
  function RedStartY(height: nat): int
  {
    LineY(height) + LineH(height)
  }

  /** The height of the red body: down to the bottom edge. */
  function RedH(height: nat): int
  {
    height - RedStartY(height)
  }

  /** The pixel size of the header font. */
  function HeaderFontPx(height: nat): int
  {
    Round(HeaderH(height) as real * 0.28)
  }

  /** The baselines of the two header lines, at 40% and 78% of the header band. */
  function HeaderLine1Y(height: nat): real
  {
    HeaderH(height) as real * 0.40
  }

  function HeaderLine2Y(height: nat): real
  {
    HeaderH(height) as real * 0.78
  }

  /** `width / 2`: the x position of all centred text. */
  function CentreX(width: nat): real
  {
    width as real / 2.0
  }

  /** `qrTargetSize`: the side of the QR square. */
  function QrSize(width: nat): int
  {
    Round(width as real * 0.65)
  }

  /** `qrX`. */
  function QrX(width: nat): int
  {
    Round((width - QrSize(width)) as real / 2.0)
  }

  /** `qrY`: 16% of the body (less the footer) below the header. */
  function QrY(height: nat): int
  {
    Round(HeaderH(height) as real + (BodyH(height) - FooterH(height)) as real * 0.16)
  }

  /** The pixel size of the code-number font. */
  function CodeFontPx(height: nat): int
  {
    Round(height as real * 0.055)
  }

  /** `codeY`: the code number's baseline, a fixed fraction of the height below the QR. */
  function CodeY(width: nat, height: nat): int
  {
    QrY(height) + QrSize(width) + Round(height as real * 0.085)
  }

  /**
   * The bands stack without a gap: the divider starts at or above the
   * header's bottom edge and ends at or below it, and the red body, which
   * starts where the divider ends, reaches exactly the bottom edge.
   */
  lemma BandsStack(height: nat)
    ensures 0 <= LineY(height) <= HeaderH(height) <= RedStartY(height) <= height
    ensures LineH(height) >= 0 && RedH(height) >= 0
    ensures RedStartY(height) + RedH(height) == height
  {
    var h := height as real;
    var l := LineH(height);
    var cut := Round(l as real * 0.3);
    assert l >= 0;
    assert 0 <= cut <= l;
    if height >= 1 {
      assert HeaderH(height) as real > 0.18 * h - 0.5;
      assert cut as real <= 0.3 * (0.009 * h + 0.5) + 0.5;
    }
  }

  /** The QR square fits the width and is centred: its left and right margins differ by at most one pixel. */
  lemma QrCentred(width: nat)
    ensures 0 <= QrX(width) && 0 <= QrSize(width)
    ensures QrX(width) + QrSize(width) <= width
    ensures var right := width - QrX(width) - QrSize(width);
      -1 <= QrX(width) - right <= 1
  {
  }

  /** The QR square starts below the header band, and for any sticker at least 14 pixels high, inside the red body. */
  lemma QrBelowHeader(height: nat)
    ensures HeaderH(height) <= QrY(height)
    ensures height >= 14 ==> RedStartY(height) <= QrY(height)
  {
    BandsStack(height);
  }

  /** The code number's baseline lies below the QR square. */
  lemma CodeBelowQr(width: nat, height: nat)
    ensures CodeY(width, height) >= QrY(height) + QrSize(width)
  {
  }

  /** The two header lines lie inside the header band, the first above the second. */
  lemma HeaderLinesInBand(height: nat)
    ensures 0.0 <= HeaderLine1Y(height) <= HeaderLine2Y(height) <= HeaderH(height) as real
  {
  }

  /** The default 600 by 840 sticker, measure by measure; everything fits on the canvas. */
  lemma DefaultLayout()
    ensures HeaderH(DefaultHeight) == 151 && FooterH(DefaultHeight) == 50 && BodyH(DefaultHeight) == 689
    ensures LineH(DefaultHeight) == 8 && LineY(DefaultHeight) == 149 && RedStartY(DefaultHeight) == 157
    ensures RedH(DefaultHeight) == 683
    ensures QrSize(DefaultWidth) == 390 && QrX(DefaultWidth) == 105 && QrY(DefaultHeight) == 253
    ensures CodeY(DefaultWidth, DefaultHeight) == 714 && CodeY(DefaultWidth, DefaultHeight) < DefaultHeight
    ensures HeaderFontPx(DefaultHeight) == 42 && CodeFontPx(DefaultHeight) == 46
  {
  }
}
