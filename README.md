# Square frame: a verified model of the framing core

The repository is a browser page that frames a photo. The user picks or drops
an image and chooses a border as a percentage of the image's longer side. The
page then draws the image, unscaled, in the middle of a white square canvas
and offers it for download. HEIC/HEIF photos are first converted by trying
three decoders in turn.

This project models the parts of `SquareFrameProcessor` (script.js) that
compute something, and proves what they promise:

- `geometry.dfy` (module `Geometry`): the framing arithmetic of
  `performImageProcessing`. It covers the `parseFloat(...) || 2.5` default,
  `Math.round` of the border, the square side, and the offsets at which the
  image is drawn.
- `naming.dfy` (module `Naming`): output format, extension and encoder
  quality. It also covers the download name and the rename of a converted
  HEIC file.
- `acceptance.dfy` (module `Acceptance`): the HEIC test and the "is an image"
  test of `handleFileSelect`, and the same filter in the drop handler.
- `heic.dfy` (module `HeicDecode`): the 15 MiB guard, the three-strategy
  fallback chain, the choice of the error raised when every strategy fails,
  and the ordered classification of that error into an alert.
- `processor.dfy` (module `Processor`): the class `SquareFrameProcessor`. Its
  field `currentFile` is updated by select, drop, convert and reset. The
  canvas size is set by `PerformImageProcessing`.
- `text.dfy`, `media.dfy`, `wrappers.dfy`: `toLowerCase`, `startsWith`,
  `endsWith` and `includes` on strings; the `File` and `Blob` records; the
  `Option` and `Result` types.

JavaScript numbers are modelled as reals. Canvas side and border are
integers. Offsets are reals, because `(S - W) / 2` can be a half pixel. Each
decoding strategy is an opaque outcome given to the chain:

- for the two libraries: a result, "library absent", or an error message;
- for the browser decoder: a blob or a rejection.

Notes on the code as written:

- Entering `0` as the border does not give a zero border. `0` is falsy, so it
  is replaced by the 2.5% default, exactly like an empty or unparsable entry
  (`Geometry.ZeroEntryUsesDefault`). The canvas side equals the longer side
  of the image exactly when the border rounds to zero pixels
  (`Geometry.ZeroBorderFillsLongerSide`). That happens when
  `max(W, H) * pct / 100` lies in [-0.5, 0.5). The percentage may be small
  and positive, or small and negative, since negative entries are not
  rejected. It also happens for an empty image.
- For an 800 x 600 image at 2.5%, the bordered box is placed at (0, 100) and
  the image at (20, 120) on an 840 square (`Geometry.FrameExample`).
- When neither library is on the page and the browser cannot decode the
  file, the error raised is `Library not available`. None of the classification's keywords occur in it,
  so the user sees the generic "Failed to convert HEIC file" alert, not the
  "library failed to load" one (`HeicDecode.MissingLibrariesGiveGenericAlert`).
- A library that resolves to an empty array makes the code read `.type` of
  `undefined`. The resulting TypeError also ends in the generic alert
  (`HeicDecode.EmptyArrayGivesGenericAlert`).

## Model

| member | source | states |
|---|---|---|
| Geometry.EffectiveBorderPercentage | script.js:339 | An empty, unparsable (NaN) or zero entry becomes 2.5; any other entry is used as is; the percentage used is never 0 |
| Geometry.FrameForInput | script.js:339-343 | A non-zero parsed entry is used as the percentage; an unparsable or zero entry gives the layout for 2.5% |
| Geometry.Round | script.js:343 | `Math.round`: the result is the integer within one half of the argument, halves going up |
| Geometry.Frame | script.js:333-370 | The border is the percentage of the longer side to the nearest pixel. The bordered box is the image grown by the border on every side. The canvas side is the longer side plus two borders. The bordered box is centred: both offsets non-negative, one of them zero. Left and right margins are equal, and so are top and bottom. Along the longer side the image sits exactly one border from each edge. With a non-negative border the whole unscaled image lies on the canvas |
| Geometry.NonNegativeEntryGivesNonNegativeBorder | script.js:339-350 | An entry that is missing or non-negative gives a border of at least 0 and a canvas at least as large as the longer side |
| Geometry.ZeroEntryUsesDefault | script.js:339-343 | Entering 0 produces the same layout as entering nothing, namely the layout for 2.5% |
| Geometry.ZeroBorderFillsLongerSide | script.js:342-368 | A border that rounds to 0 gives a canvas whose side is the longer side, with the image touching both ends of it |
| Geometry.FrameExample | script.js:333-368 | 800 x 600 at 2.5%: border 20, bordered box 840 x 640, square 840, offsets (0, 100), image at (20, 120) |
| Naming.GetOutputFormat | script.js:403-413 | The output is `image/png` exactly when the file type is `image/png`, and `image/jpeg` otherwise (JPEG, HEIC conversions, any other type) |
| Naming.GetOutputExtension | script.js:415-418 | The extension is `.png` exactly when the file type is PNG, and `.jpg` otherwise |
| Naming.Quality | script.js:388 | Quality is 0.9 exactly for `image/jpeg` and 1.0 for any other format |
| Naming.OutputQuality | script.js:430-431 | The quality used for a file is 1.0 for a PNG and 0.9 for every other type |
| Naming.DownloadFileName | script.js:425-427 | The name starts with the text before the first dot. It is exactly `_square_framed` plus four characters longer than that text. It ends in `.png` for a PNG file and `.jpg` otherwise |
| Naming.HasHeicExtension | script.js:179 | `/\.(heic\|heif)$/i` matches exactly when the name's last five characters are a dot, then `h`, `e`, `i`, then `c` or `f`, each letter in either case |
| Naming.ConvertedName | script.js:177-179 | The name is unchanged exactly when it has no HEIC tail. Otherwise it is one character shorter and ends in the extension of the blob type |
| Naming.BaseName | script.js:425 | `split('.')[0]` is a prefix of the name without a dot, followed in the name by a dot or by nothing |
| Naming.DownloadFileNameParts | script.js:424-427 | The download name is the text before the first dot, then `_square_framed`, then `.png` for a PNG file and `.jpg` otherwise |
| Naming.ConvertedNameReplacesTail | script.js:177-179 | A trailing `.heic`/`.heif` in any letter case is replaced by `.png` for a PNG blob and `.jpg` otherwise, keeping the rest of the name. Other names are unchanged. The result never has a HEIC tail |
| Acceptance.IsHeic | script.js:85-86 | A file is HEIC exactly when its type is `image/heic` or `image/heif`, or the rename's regular expression matches its name |
| Acceptance.SelectAccepts | script.js:88 | `handleFileSelect` goes on exactly when the file is HEIC or its type starts with `image/` |
| Acceptance.DropAccepts | script.js:48-51 | The drop handler passes on exactly the files `handleFileSelect` accepts |
| Acceptance.DropAndSelectAgree | script.js:48-91 | The drop filter and the select filter accept the same files: those with a HEIC/HEIF type, a name ending in `.heic`/`.heif` once lower-cased, or an `image/` type |
| Acceptance.HeicNameTestMatchesRename | script.js:85-86 | The lower-cased name test of `isHeic` holds exactly when the rename's `/\.(heic\|heif)$/i` matches |
| Acceptance.ConvertedFileIsNotHeic | script.js:176-180 | A converted file whose blob type is not HEIC is not HEIC, so it would not be sent to conversion again |
| HeicDecode.ErrorMessage | script.js:130-147 | A library that threw fails with its own message. An absent library fails with the non-empty `Library not available` |
| HeicDecode.RunStrategies | script.js:118-169 | The chain succeeds exactly when some strategy succeeds. It reports the first successful strategy in the order 1, 2, 3 and that strategy's result. When all fail, the error is the marker `HEIC_FORMAT_NOT_SUPPORTED` if strategy 2's message contains `format not supported`, and strategy 2's own error otherwise. An absent library counts as a failure with message `Library not available` |
| HeicDecode.FirstBlob | script.js:171-174 | A single blob is kept. For an array the first element is kept. Nothing is left exactly for an empty array |
| HeicDecode.Convert | script.js:110-180 | A file over 15 MiB fails with the "too large" message. Within the limit: a failed chain gives the chain's error. An empty array from the winning strategy gives the TypeError. Otherwise the result is a file made from the winning strategy's first blob, with the renamed name |
| HeicDecode.Classify | script.js:195-205 | The checks run in order: exact `HEIC_FORMAT_NOT_SUPPORTED` gives the remediation alert; otherwise `not loaded`, then `fetch`, then `too large`; otherwise the generic alert with the message |
| HeicDecode.ConvertAndClassify | script.js:108-206 | The converted file is shown exactly when the file is within the limit and the winning strategy hands on a blob. The file shown is the renamed file made from that first blob. An oversized file raises the "too large" alert. An empty array from whichever strategy wins raises the generic alert with the TypeError's message. A failed chain is classified by its error |
| HeicDecode.TooLargeMessageIsClassifiedTooLarge | script.js:111-113 | The size guard's message contains `too large` and neither `not loaded` nor `fetch`, so it yields the "too large" alert with its own text |
| HeicDecode.OtherMessagesAreClassifiedGeneric | script.js:147 | `Library not available` and the TypeError from an empty result both yield the generic alert |
| HeicDecode.OversizedFileSkipsStrategies | script.js:111-113 | A file over 15 MiB gets the same failure whatever the strategies would do, and the user sees the "too large" alert |
| HeicDecode.ExactLimitPassesGuard | script.js:111-180 | For every strategy outcome, a file of exactly 15 MiB converts like an empty file of the same name. It is shown whenever the winning strategy hands on a blob |
| HeicDecode.LaterStrategiesNotConsulted | script.js:119-149 | Once strategy 1, or failing it strategy 2, succeeds, the later strategies do not influence the result |
| HeicDecode.OnlySecondErrorMatters | script.js:158-166 | When every strategy fails, the errors of strategies 1 and 3 are discarded: only strategy 2's outcome decides the error |
| HeicDecode.UnsupportedVariantScenario | script.js:161-196 | Strategy 1 throws, strategy 2's message contains `format not supported`, and the browser fails: the remediation alert is shown |
| HeicDecode.MissingLibrariesGiveGenericAlert | script.js:129-204 | With both libraries absent and the browser failing, the alert is the generic one carrying `Library not available` |
| HeicDecode.EmptyArrayGivesGenericAlert | script.js:171-204 | A library result that is an empty array ends in the generic alert |
| Processor.SquareFrameProcessor.constructor | script.js:2-6 | A new processor has no current file |
| Processor.SquareFrameProcessor.HandleFileSelect | script.js:78-100 | No file, or a file that is neither HEIC nor `image/`, is refused and the current file kept. An accepted non-HEIC file becomes current and is displayed. A HEIC file is converted: the current file ends up as the converted file, or none after a failure |
| Processor.SquareFrameProcessor.HandleDrop | script.js:43-55 | A dropped file that fails the filter is ignored without an alert or state change; one that passes is handled as a selected file |
| Processor.SquareFrameProcessor.ConvertAndDisplayHeic | script.js:102-207 | The nested try/catch computes the outcome of `HeicDecode.Convert` and `Classify`. Success makes the converted file current. Every failure path resets the session, leaving no current file |
| Processor.SquareFrameProcessor.PerformImageProcessing | script.js:333-370 | The returned layout is `Geometry.Frame` for the image and the effective percentage; the canvas becomes a square of that side |
| Processor.SquareFrameProcessor.DownloadProcessedImage | script.js:420-440 | The download name as in `Naming`. The format is PNG exactly for a PNG file and JPEG otherwise. The quality is 1.0 for PNG and 0.9 otherwise |
| Processor.SquareFrameProcessor.ResetApp | script.js:442-445 | After a reset no file is current |

## Left out

- Page elements, event listeners, drag-over styling, buttons, scrolling and the `innerHTML` info panels are UI glue without computation. This includes `updateOriginalInfo` with its `wasHeic` note, `updateProcessedInfo`'s text, and the `toFixed(2)` sizes.
- Alert wording is out: the model names which alert is raised, not its text.
- Pixels are out: `fillRect`, `drawImage` and `toBlob` encoding. The model covers the rectangle geometry and the canvas size only.
- `parseFloat` is a JavaScript built-in. The border entry arrives already parsed, as NaN or a finite number. `Infinity` and `-Infinity` (from an entry such as `Infinity`) are not modelled.
- Floating point is replaced by exact reals. So neither rounding error in `maxDimension * (pct / 100)` nor `Math.round`'s behaviour on floats is modelled. Overflow of a huge entry to ±Infinity is not modelled either; in the page that makes the canvas side infinite and the offsets NaN.
- Processor.SquareFrameProcessor.PerformImageProcessing: the model records the integer the code assigns to the canvas width and height, a square side. A negative border alone is harmless (800 x 600 at -10% gives a 640 square). When the side itself is negative, which needs an entry below about -50%, the page's canvas rejects the value after its unsigned conversion. It then keeps its default 300 x 150 size, which is not a square. That browser conversion is not modelled.
- The decoders are opaque outcomes: the two `heic2any` calls, with their `toType`/`quality` options, and `tryBrowserHeicDecoding` with its `Image` load, object URL and 10-second timeout.
- HeicDecode.Strategies: the two library strategies are given independent outcomes. In the page both read the same global `heic2any` (script.js:120 and script.js:137), so they are present or absent together. The model therefore also covers combinations that cannot arise, and the all-inputs lemmas hold for them as well.
- Asynchrony is out: each `await` is run to completion with no other event in between, and so are the 100 ms yield in `processImage`, the library probe timer and the `FileReader` in `displayOriginalImage`. The model does not show the interval after `handleFileSelect` sets `currentFile` to the HEIC file itself and before the conversion ends. It shows only the final state.
- A thrown value without a `message` property (a string, say) would make the `catch` block itself throw. Every failure is modelled as carrying a message string.
- `processImage`'s guard on `originalImage.src` is out, because it reads page state.
- Text.Lower: lower-cases ASCII letters only, where `toLowerCase` is full Unicode. For the `.heic`/`.heif` suffix tests the two agree. The only non-ASCII characters whose lower case contains one of those ASCII letters are U+0130 (giving `i` plus a combining dot) and the Kelvin sign (giving `k`), and neither can complete such a suffix.
- HeicDecode.EmptyResultMessage: the TypeError text is the V8 engine's. Other engines word it differently, but none of their wordings contain the classification's keywords.
- Processor.SquareFrameProcessor.DownloadProcessedImage: requires a current file, because the code reads `currentFile.name` and would throw without one. The page only offers the download after an image has been processed.
- Console logging and the recorded `conversionMethod` name only feed diagnostics. The method is kept only as the chain's result.
