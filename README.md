# Sticker QR service, modelled in Dafny

A model of `StickerQrService` from the asset-labelling web app. The service does three things:

- It builds the text that goes into an asset's QR code (`buildPayload`).
- It draws the printable asset sticker on a canvas (`composeStickerPng`, which uses `formatCodeNumber`).
- It chooses the file name a canvas is downloaded under (`downloadCanvasPng`).

The model also covers the page's two download handlers, which choose a `qr-<code>.png` or `sticker-<code>.png` name.

Modules:

- `Wrappers`: `Option`, standing for a value that may be `null` or `undefined`.
- `JsString`:
  - `String.prototype.trim` (ECMAScript white space and line terminators);
  - `split` on one character, and the inverse `Join`;
  - `endsWith`.
- `Json`: string literals as `JSON.stringify` writes them (the QuoteJSONString operation of ECMA-262), with a decoder that serves as their inverse.
- `Payload`:
  - the `AssetPayload` record;
  - `buildPayload` as a function;
  - the key order, trimming and framing of its output;
  - a reader that recovers the written properties from the text (the round trip).
- `CodeNumber`: `formatCodeNumber`. Twelve digits, after trimming, are shown as `ddd/ddd/ddd/ddd`; anything else is shown trimmed.
- `Layout`: the integer geometry of the sticker. `Math.round` is modelled as `Round`.
- `Canvas2D`: an HTML canvas together with its 2D context, as a class.
  - Its fields are the drawing state the service sets: fill style, font, text alignment, text baseline and image smoothing.
  - Every drawing call is appended to `ops` in order, instead of being rasterised.
  - `Paint` gives the colour that rectangle fills leave at a pixel.
- `Sticker`:
  - `composeStickerPng` as the imperative method `ComposeSticker`, which creates a fresh `Canvas` and updates its state call by call;
  - its drawing sequence as the function `StickerOps`, with the properties of that sequence proved as lemmas;
  - the `.png` suffix rule and the page's export file names.

## Model

| member | source | states |
|---|---|---|
| JsString.Trim | src/app/sticker-qr.service.ts:114 | `trim()` leaves no white space at either end and never lengthens its input |
| JsString.IsWhiteSpace | src/app/sticker-qr.service.ts:114 | the characters `trim()` removes: the ECMAScript WhiteSpace and LineTerminator code points (tab, line feed, vertical tab, form feed, carriage return, space, no-break space, the Unicode space separators, line and paragraph separators, byte order mark) |
| JsString.TrimSlice | src/app/sticker-qr.service.ts:18-25 | the trimmed text is the contiguous slice of the input that starts where the leading white space ends |
| JsString.TrimCutsWhiteSpace | src/app/sticker-qr.service.ts:18-25 | everything `trim()` removes, before and after the kept slice, is white space |
| JsString.TrimIdentity | src/app/sticker-qr.service.ts:114 | `trim()` returns its input unchanged exactly when the input has no white space at either end |
| JsString.TrimIdempotent | src/app/sticker-qr.service.ts:114 | trimming twice is trimming once |
| JsString.TrimPadded | src/app/sticker-qr.service.ts:114 | a non-empty trimmed text surrounded by white space comes back as that text |
| JsString.Split | src/app/sticker-qr.service.ts:88 | `split('\n')` yields at least one piece, and no piece holds the separator |
| JsString.JoinSplit | src/app/sticker-qr.service.ts:88 | joining the pieces of `split` with the separator gives back the text |
| JsString.SplitJoin | src/app/sticker-qr.service.ts:27-29 | splitting the join of separator-free pieces gives back the pieces |
| JsString.SplitNoSeparator | src/app/sticker-qr.service.ts:88 | a text without the separator splits into itself alone |
| JsString.SplitAtFirst | src/app/sticker-qr.service.ts:88 | a text splits at its first separator: the part before it, then the pieces of the rest |
| JsString.EndsWith | src/app/sticker-qr.service.ts:35 | `endsWith`: the text's last characters are the suffix |
| Json.EscapeChar | src/app/sticker-qr.service.ts:27 | one character as `JSON.stringify` writes it inside a string: 1 to 6 characters, none a control character, either an escape or the plain character itself |
| Json.Escape | src/app/sticker-qr.service.ts:27 | an escaped string body never holds a control character (so no line break) and is 1 to 6 times as long as its input |
| Json.Quote | src/app/sticker-qr.service.ts:27 | a JSON string literal starts and ends with a quote and holds no control character |
| Json.HexDigit | src/app/sticker-qr.service.ts:27 | the hexadecimal digit written in a `\u00xx` escape reads back as its value |
| Json.ParseEscapedChar | src/app/sticker-qr.service.ts:27 | the decoder reads back each escaped character and leaves what follows |
| Json.ParseEscaped | src/app/sticker-qr.service.ts:27 | the decoder reads an escaped string body back up to its closing quote: decoding inverts `JSON.stringify`'s escaping |
| Payload.TrimField | src/app/sticker-qr.service.ts:18-25 | `v?.trim()`: defined exactly when the field is, and then trimmed and no longer than the field |
| Payload.Ordered | src/app/sticker-qr.service.ts:17-26 | the `ordered` object: one trimmed-or-undefined value per key, in the key order of the object literal |
| Payload.Present | src/app/sticker-qr.service.ts:27 | the properties `JSON.stringify` writes: those whose value is not undefined, in key order (its properties are `FieldsLookup`, `FieldsInOrder`, `FieldsKeys`, `FieldsEmpty`) |
| Payload.Stringify | src/app/sticker-qr.service.ts:27 | `JSON.stringify(obj, null, 2)`: `{}` for no properties, otherwise each member on its own line, indented by two spaces, between `{` and `}` lines (its properties are `TextLines` and `IndentedJoin`) |
| Payload.StripOpening | src/app/sticker-qr.service.ts:28 | `.replace(/^{\n/, '')`: either removes a leading `{` line break or, when the text does not start with one, leaves it unchanged |
| Payload.StripClosing | src/app/sticker-qr.service.ts:29 | `.replace(/\n}$/, '')`: either removes a trailing line break and `}` or, when the text does not end with them, leaves it unchanged |
| Payload.BuildPayload | src/app/sticker-qr.service.ts:16-31 | `buildPayload`: the stripped pretty-printed text of the written properties (its properties are `PayloadLines`, `PayloadAllUndefined`, `PayloadRoundTrip` and `PayloadIgnoresSurroundingSpace`) |
| Payload.FieldsLookup | src/app/sticker-qr.service.ts:17-26 | the payload holds, under each of the eight keys, that field trimmed, or nothing when the field is undefined |
| Payload.FieldsInOrder | src/app/sticker-qr.service.ts:17-26 | the written keys follow the fixed order assetName, specification, colour, date, user, location, emailOfficeActivation, codeNumber |
| Payload.FieldsKeys | src/app/sticker-qr.service.ts:17-26 | only the eight asset keys are ever written |
| Payload.FieldsEmpty | src/app/sticker-qr.service.ts:17-27 | nothing is written exactly when every field is undefined |
| Payload.PayloadIgnoresSurroundingSpace | src/app/sticker-qr.service.ts:17-26 | trimming every field beforehand does not change the payload |
| Payload.PayloadAllUndefined | src/app/sticker-qr.service.ts:27-30 | with every field undefined the payload is `{}`, because the brace lines are not there to cut off |
| Payload.PayloadLines | src/app/sticker-qr.service.ts:27-30 | otherwise the payload is one line per written field and nothing else: two spaces of indent, the quoted key, `: `, the quoted value, and a comma on every line but the last |
| Payload.TextLines | src/app/sticker-qr.service.ts:27-30 | for any non-empty list of properties, cutting the brace lines from the pretty-printed object leaves exactly the member lines |
| Payload.IndentedJoin | src/app/sticker-qr.service.ts:27 | the members written by `JSON.stringify(…, null, 2)` are the indented member lines, joined with line breaks |
| Payload.StripBraces | src/app/sticker-qr.service.ts:28-29 | the two replacements remove exactly the leading `{` line and the trailing `}` line |
| Payload.LinesHaveNoBreak | src/app/sticker-qr.service.ts:27 | no member line holds a line break, so each property stays on one line |
| Payload.ParseOneLine | src/app/sticker-qr.service.ts:27-29 | each payload line reads back as its property, and only the last line lacks its comma |
| Payload.ParseAllLines | src/app/sticker-qr.service.ts:27-29 | the member lines read back as the properties, in order |
| Payload.PayloadRoundTrip | src/app/sticker-qr.service.ts:16-31 | reading the payload gives back exactly the written properties, with their keys, trimmed values and order, so no two assets with different trimmed fields share a payload |
| CodeNumber.FormatCodeNumber | src/app/sticker-qr.service.ts:113-120 | the shown code number never has white space at either end |
| CodeNumber.Clean | src/app/sticker-qr.service.ts:114 | the fallback to `''` followed by `trim()`: null, undefined and empty become empty; the result has no white space at either end |
| CodeNumber.IsTwelveDigits | src/app/sticker-qr.service.ts:115 | the test `/^\d{12}$/`: exactly twelve characters, each an ASCII digit |
| CodeNumber.Group | src/app/sticker-qr.service.ts:117 | the replacement `'$1/$2/$3/$4'` of the four three-digit groups (its layout is `GroupLayout`, its inverse `RemoveSlashes`) |
| CodeNumber.GroupLayout | src/app/sticker-qr.service.ts:117 | the grouping has 15 characters: `/` at positions 3, 7 and 11 and the twelve digits, in order, everywhere else |
| CodeNumber.FormatGroupsDigits | src/app/sticker-qr.service.ts:114-117 | a code number that is twelve ASCII digits after trimming is shown as four groups of three separated by `/` |
| CodeNumber.FormatPassesThrough | src/app/sticker-qr.service.ts:114-119 | any other code number (null, undefined, empty, of another length or with a non-digit) is shown exactly as trimmed |
| CodeNumber.FormatUngroups | src/app/sticker-qr.service.ts:115-117 | grouping only inserts separators: removing the slashes gives back the trimmed digits |
| CodeNumber.RemoveSlashes | src/app/sticker-qr.service.ts:117 | the ungrouping used by `FormatUngroups` leaves no `/` |
| CodeNumber.FormatIdempotent | src/app/sticker-qr.service.ts:113-120 | formatting a shown code number again changes nothing |
| CodeNumber.FormatOfShown | src/app/sticker-qr.service.ts:114-119 | trimmed text that is not twelve digits is shown as it is |
| CodeNumber.FormatExample | src/app/sticker-qr.service.ts:116-117 | `"  100200300400  "` is shown as `"100/200/300/400"` |
| CodeNumber.FormatEmpty | src/app/sticker-qr.service.ts:114 | an empty, null or undefined code number is shown as the empty string |
| Layout.Round | src/app/sticker-qr.service.ts:55-56 | `Math.round` gives the integer nearest its argument, with a half rounded up |
| Layout.HeaderH | src/app/sticker-qr.service.ts:55 | `headerH`: 18% of the height, rounded (bounds in `BandsStack`, `DefaultLayout`) |
| Layout.FooterH | src/app/sticker-qr.service.ts:56 | `footerH`: 6% of the height, rounded |
| Layout.BodyH | src/app/sticker-qr.service.ts:57 | `bodyH`: the height below the header |
| Layout.LineH | src/app/sticker-qr.service.ts:74 | `whiteLineHeight`: 0.9% of the height, rounded |
| Layout.LineY | src/app/sticker-qr.service.ts:75 | `whiteLineY`: the header's bottom edge less 30% of the divider, rounded |
| Layout.RedStartY | src/app/sticker-qr.service.ts:80 | `redStartY`: the divider's bottom edge |
| Layout.RedH | src/app/sticker-qr.service.ts:82 | the red body's height, down to the bottom edge |
| Layout.HeaderFontPx | src/app/sticker-qr.service.ts:87 | the header font size: 28% of the header, rounded |
| Layout.HeaderLine1Y | src/app/sticker-qr.service.ts:89 | the first header line's y: 40% of the header |
| Layout.HeaderLine2Y | src/app/sticker-qr.service.ts:90 | the second header line's y: 78% of the header |
| Layout.CentreX | src/app/sticker-qr.service.ts:89-107 | `width / 2`, the x of every text |
| Layout.QrSize | src/app/sticker-qr.service.ts:93 | `qrTargetSize`: 65% of the width, rounded |
| Layout.QrX | src/app/sticker-qr.service.ts:94 | `qrX`: half the remaining width, rounded |
| Layout.QrY | src/app/sticker-qr.service.ts:97 | `qrY`: the header plus 16% of the body less the footer, rounded |
| Layout.CodeFontPx | src/app/sticker-qr.service.ts:104 | the code-number font size: 5.5% of the height, rounded |
| Layout.CodeY | src/app/sticker-qr.service.ts:106 | `codeY`: the QR square's bottom edge plus 8.5% of the height, rounded |
| Layout.BandsStack | src/app/sticker-qr.service.ts:55-82 | the white divider starts at or above the header's bottom edge and ends at or below it; the red body starts where the divider ends and reaches exactly the bottom edge; no band has negative height |
| Layout.QrCentred | src/app/sticker-qr.service.ts:93-94 | the QR square fits the width, and its left and right margins differ by at most one pixel |
| Layout.QrBelowHeader | src/app/sticker-qr.service.ts:97 | the QR square starts below the header, and below the divider on any canvas at least 14 pixels high |
| Layout.CodeBelowQr | src/app/sticker-qr.service.ts:106 | the code number's baseline lies below the QR square |
| Layout.HeaderLinesInBand | src/app/sticker-qr.service.ts:89-90 | both header lines lie inside the header band, the first above the second |
| Layout.DefaultLayout | src/app/sticker-qr.service.ts:51-106 | the default 600 by 840 sticker: header 151, divider 149..157, QR 390 square at (105, 253), code baseline 714, which fits on the canvas |
| Canvas2D.Canvas.constructor | src/app/sticker-qr.service.ts:59-61 | a new canvas has the requested size, the context's default state and no drawing |
| Canvas2D.Canvas.FillRect | src/app/sticker-qr.service.ts:71 | `fillRect` records one rectangle in the current fill style and changes nothing else |
| Canvas2D.Canvas.FillText | src/app/sticker-qr.service.ts:89-90 | `fillText` records one text in the current style, font, alignment and baseline |
| Canvas2D.Canvas.DrawImage | src/app/sticker-qr.service.ts:98 | `drawImage` records the source canvas scaled into the rectangle, under the current smoothing setting; it fails, drawing nothing, exactly when the source has no width or no height |
| Canvas2D.Paint | src/app/sticker-qr.service.ts:69-82 | a pixel has a fill colour exactly when some rectangle covers it |
| Canvas2D.PaintCovered | src/app/sticker-qr.service.ts:69-82 | a later fill paints over what lies beneath it |
| Canvas2D.PaintUncovered | src/app/sticker-qr.service.ts:69-82 | a call that does not cover a pixel leaves its colour alone |
| Sticker.ComposeSticker | src/app/sticker-qr.service.ts:46-111 | throws (None) exactly when the QR canvas has no width or no height; otherwise returns a fresh canvas of the requested size (600 by 840 by default) holding the sticker's seven drawing calls in order, with the code number as `formatCodeNumber` shows it; its state afterwards is that of the last text drawn |
| Sticker.DrawSticker | src/app/sticker-qr.service.ts:51-107 | the same outcome: no canvas for an empty QR canvas, otherwise the same sequence of drawing calls for a given code-number text: defaults, smoothing on, bands, header, QR code, code number |
| Sticker.DrawBands | src/app/sticker-qr.service.ts:69-82 | appends the blue header, the white divider and the red body, in that order; leaves the fill style red and the rest of the state as it was |
| Sticker.DrawHeader | src/app/sticker-qr.service.ts:84-90 | appends the first two lines of the header text, white, bold Arial, centred and middle-aligned |
| Sticker.DrawCodeNumber | src/app/sticker-qr.service.ts:100-107 | appends the code number below the QR code, white, bold Arial, centred and on the alphabetic baseline |
| Sticker.HeaderLines | src/app/sticker-qr.service.ts:88 | `const [line1, line2] = headerText.split('\n')`: the first two pieces, the second `undefined` when there is only one (its properties are `HeaderLinesSplit`, `HeaderLinesSingle`, `DefaultHeaderLines`) |
| Sticker.BandOps | src/app/sticker-qr.service.ts:69-82 | the three background fills, in source order |
| Sticker.HeaderOps | src/app/sticker-qr.service.ts:84-90 | the two header texts, with the state they are drawn under |
| Sticker.CodeOp | src/app/sticker-qr.service.ts:101-107 | the code-number text, with the state it is drawn under |
| Sticker.StickerOps | src/app/sticker-qr.service.ts:69-107 | the seven drawing calls of a sticker in the order they are made (its properties are `StickerBands`, `StickerQrPlacement`, `StickerTexts`, `StickerTextsCentred`) |
| Sticker.StickerBands | src/app/sticker-qr.service.ts:69-82 | every pixel of the sticker is filled: blue above the divider, white on it, red from there to the bottom edge |
| Sticker.StickerQrPlacement | src/app/sticker-qr.service.ts:93-98 | the QR canvas is drawn exactly once, after every fill, as a horizontally centred square inside the width and below the header |
| Sticker.StickerTexts | src/app/sticker-qr.service.ts:84-107 | the texts drawn are, in order, the two header lines and the code number as shown |
| Sticker.StickerTextsCentred | src/app/sticker-qr.service.ts:84-104 | every text is white and centred on the canvas's middle; the header lines use the header font and the code number its own |
| Sticker.HeaderLinesSplit | src/app/sticker-qr.service.ts:88 | the header lines are the text before the first line break and the piece after it |
| Sticker.HeaderLinesSingle | src/app/sticker-qr.service.ts:88-90 | a header without a line break draws its second line as "undefined" |
| Sticker.DefaultHeaderLines | src/app/sticker-qr.service.ts:53 | the default header reads "PROPERTY OF" over "TRANS CONTINENT" |
| Sticker.PngFileName | src/app/sticker-qr.service.ts:35 | the download name always ends in `.png`, and is the given name or that name with `.png` appended |
| Sticker.PngFileNameIdempotent | src/app/sticker-qr.service.ts:35 | the suffix rule is idempotent, and keeps a name exactly when it already ends in `.png` |
| Sticker.ExportFileName | src/app/app.component.ts:62-75 | `qr-${code}.png` and `sticker-${code}.png` with `code` the raw code number or, when it is empty or missing, the kind: the name starts with the kind and a dash and ends in `.png` |
| Sticker.ExportFileNameKept | src/app/app.component.ts:62-75 | the page's `qr-<code>.png` and `sticker-<code>.png` names, with the fallback when the code is empty, pass through the suffix rule unchanged |

## Left out

- Rasterisation: `Canvas` records drawing calls instead of pixels. `Paint` models only the colour that rectangle fills leave, because glyphs and the scaled QR image need font and image data that are not part of this model.
- `toDataURL` and `downloadDataUrl` (src/app/sticker-qr.service.ts:34, 38-44): producing the PNG and clicking a temporary link are browser I/O. Only the file name passed to them is modelled.
- `drawImage` records a reference to the source canvas, not its pixels.
- The `InvalidStateError` that `drawImage` throws for a source canvas with no width or no height is modelled as a result: `DrawImage` returns false, and `ComposeSticker` returns None. The exception's propagation through the page is not modelled, and neither is the half-drawn canvas, which nothing can observe. QR code generation and the component's lookup of the QR canvas (app.component.ts:78-81) are not part of this model, and neither is the early return when no canvas is found.
- Floating point: the geometry is computed in exact reals. `Math.round` on a product such as `height * 0.18` can differ from the exact result when the IEEE-754 product lands within rounding error of a half.
- Width and height are natural numbers. Negative or fractional canvas sizes are not modelled; the page always passes 600 and 840.
- A canvas and its 2D context are one object. `getContext('2d')!` is therefore always available, and the size is fixed when the canvas is created instead of being assigned to `width`/`height` afterwards.
- `composeStickerPng`'s body is split into the section methods `DrawBands`, `DrawHeader` and `DrawCodeNumber`. They make the same calls in the same order.
- Strings are sequences of Unicode scalar values. Lone UTF-16 surrogates, which `JSON.stringify` writes as `\udxxx` escapes, cannot occur in the model.
- `AssetPayload` fields are `Option<string>`: `None` stands for both `null` and `undefined`. `JSON.stringify` writes a `null` field as `null` but drops an `undefined` one; since `?.trim()` turns both into `undefined`, both are dropped, as modelled.
- The payload is always the pretty-printed JSON with its brace lines removed; there is no other payload format.
- A missing field is omitted from the payload; it is never written as an empty string.
- Only a code number that is exactly twelve ASCII digits after trimming is grouped.
- The Angular component, form and template are left out, except the file-name fallbacks of the two download handlers.
