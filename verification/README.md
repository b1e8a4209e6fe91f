# Meme editor: export geometry and caption state

A Dafny model of the logic inside the meme editor component
(`meme_forge/client/components/MemeGenerator.jsx`) of the meme_forge web app.
The editor holds a selected image and two captions (top and bottom text). It
draws a live preview. When the user downloads, it sizes a hidden export canvas
from the image, scales the caption font sizes to that canvas, and saves the
result as a PNG file.

The model has five modules:

- `Geometry`: the per-axis cap of 1920 pixels on the export canvas, and the
  scale factor `min(w/500, h/500)`.
- `Captions`: the six-field caption record and its two defaults. It also holds
  the export font rule `max(fontSize * scale, 24)`, which rewrites `fontSize`
  and no other field.
- `Session`: the editor state (image locator plus two captions) and its
  transitions: select an image, edit a caption, receive a generated meme,
  reset.
- `Decimal`: the decimal text of a millisecond timestamp, and reading it back.
- `Export`: the preview and download entry points. Each returns
  `Skipped` when no image is selected, `LoadError` when the image fails to
  load, or `Ready` with what is drawn. For a download, that is the export plan:
  canvas size, scale, scaled captions, `image/png` at quality 0.95, and the
  file name `meme-<ms>.png`.

Pixel sizes are `nat`. The scale and all caption numbers are `real`: exact
rationals stand in for the browser's double-precision arithmetic. Image
loading and `Date.now()` are not modelled as behaviour. They become
parameters: the loaded image's natural size (or a load failure) and the clock
reading.

What the code does on export and preview, as modelled:

- Export scales only `fontSize` (lines 72-73). `strokeWidth` and `y` are
  passed on unchanged.
- The preview canvas element is 600 by 600 (lines 125-126). That canvas and
  the unscaled captions are what is handed to `drawMemeOnCanvas` (line 42).
- Export is always encoded as `image/png` with quality 0.95 (line 79).

## Model

| member | source | states |
|---|---|---|
| Geometry.CanvasSide | meme_forge/client/components/MemeGenerator.jsx:68-69 | an export-canvas side is at most 1920 and at most the image's side; it equals the image's side exactly when that side is at most 1920, and is 1920 otherwise |
| Geometry.CanvasSideMonotone | meme_forge/client/components/MemeGenerator.jsx:68-69 | a larger image side never gives a smaller canvas side |
| Geometry.Scale | meme_forge/client/components/MemeGenerator.jsx:71 | the smaller of the two per-axis ratios equals the smaller side over 500; it is never negative, and it is positive exactly when both sides are at least 1 |
| Geometry.ScaleMonotone | meme_forge/client/components/MemeGenerator.jsx:71 | a canvas at least as large on both axes has at least the same scale |
| Geometry.ScaleDoubles | meme_forge/client/components/MemeGenerator.jsx:71 | doubling both canvas sides doubles the scale |
| Captions.WithContent | meme_forge/client/components/MemeGenerator.jsx:30-31 | a spread that sets `content` gives the new text and keeps font size, colours, stroke width and position |
| Captions.ScaledFontSize | meme_forge/client/components/MemeGenerator.jsx:72-73 | the exported font size is at least 24 and at least `fontSize * scale`, and is one of the two |
| Captions.ScaleCaption | meme_forge/client/components/MemeGenerator.jsx:72-73 | the exported caption has font size `fontSize * scale` exactly when that is at least 24, and 24 exactly when the product is at most 24; content, colour, stroke colour, stroke width and position are unchanged |
| Captions.ScaledFontMonotoneInSize | meme_forge/client/components/MemeGenerator.jsx:72-73 | with a non-negative scale, a larger caption font is never exported smaller |
| Captions.ScaledFontMonotoneInScale | meme_forge/client/components/MemeGenerator.jsx:71-73 | a larger scale never gives a smaller exported font, including for non-positive font sizes |
| Session.SelectImage | meme_forge/client/components/MemeGenerator.jsx:111-112 | choosing an image sets the locator and leaves both captions as they were |
| Session.EditTop | meme_forge/client/components/MemeGenerator.jsx:151-155 | the text form replaces the top caption and nothing else |
| Session.EditBottom | meme_forge/client/components/MemeGenerator.jsx:156-160 | the text form replaces the bottom caption and nothing else |
| Session.AIMemeGenerated | meme_forge/client/components/MemeGenerator.jsx:29-32 | a generated meme sets the two caption texts, keeps every other caption field, and leaves the selected image alone |
| Session.AIMemeIgnoresImageUrl | meme_forge/client/components/MemeGenerator.jsx:29-32 | the outcome does not depend on the image locator passed along |
| Session.Reset | meme_forge/client/components/MemeGenerator.jsx:97-100 | reset sets the texts to "TOP TEXT" and "BOTTOM TEXT", keeps every other caption field, and keeps the selected image |
| Session.ResetIdempotent | meme_forge/client/components/MemeGenerator.jsx:97-100 | resetting twice equals resetting once |
| Session.ResetInitial | meme_forge/client/components/MemeGenerator.jsx:8-24 | the initial state (no image, the two default captions) is unchanged by reset |
| Session.ResetAfterAIMeme | meme_forge/client/components/MemeGenerator.jsx:29-32 | a reset after a generated meme gives the same state as a reset without it |
| Session.ResetIsAIMemeWithDefaults | meme_forge/client/components/MemeGenerator.jsx:97-100 | reset behaves like a generated meme whose texts are the two default texts |
| Decimal.NatToString | meme_forge/client/components/MemeGenerator.jsx:78 | the decimal text of the timestamp has at least one character, consists only of digits, and has no leading zero when longer than one digit |
| Decimal.ParseNatToString | meme_forge/client/components/MemeGenerator.jsx:78 | reading the decimal text of a timestamp gives the timestamp back |
| Decimal.NatToStringInjective | meme_forge/client/components/MemeGenerator.jsx:78 | different timestamps have different decimal texts |
| Export.FileName | meme_forge/client/components/MemeGenerator.jsx:78 | the download name starts with `meme-`, ends with `.png` and has something in between |
| Export.TimestampOfFileName | meme_forge/client/components/MemeGenerator.jsx:78 | the clock reading can be read back out of the download name |
| Export.FileNameInjective | meme_forge/client/components/MemeGenerator.jsx:78 | downloads made at different milliseconds get different names |
| Export.Preview | meme_forge/client/components/MemeGenerator.jsx:34-53 | the preview does nothing exactly when no image is selected, and reports a failure exactly when the image fails to load; otherwise it hands the unscaled captions and the 600 by 600 canvas to the drawing routine |
| Export.Plan | meme_forge/client/components/MemeGenerator.jsx:67-79 | each export-canvas side is at most 1920 and at most the image's side, equals the image's side when that fits, and is exactly 1920 when it does not; the scale is the smaller canvas side over 500; both captions are scaled by that one factor; the encoding is `image/png` at 0.95; the clock reading is recoverable from the file name |
| Export.Download | meme_forge/client/components/MemeGenerator.jsx:59-95 | the download does nothing exactly when no image is selected, and reports a failure exactly when the image fails to load; otherwise it yields the export plan for the loaded image's natural size |
| Export.PlanChangesOnlyFontSize | meme_forge/client/components/MemeGenerator.jsx:71-73 | each exported caption equals its editor caption with only the font size replaced; that size is at least 24 and is either `fontSize * scale` or 24, with the same scale for both captions |
| Export.PlanScalePositive | meme_forge/client/components/MemeGenerator.jsx:68-71 | an image with no empty side gets a positive export scale |
| Export.ExportFontMonotoneInImage | meme_forge/client/components/MemeGenerator.jsx:68-73 | for any caption font size, an image at least as large on both axes never gets a smaller exported font |
| Export.PlanFontMonotoneInImage | meme_forge/client/components/MemeGenerator.jsx:68-73 | an image at least as large on both axes never gets smaller exported captions |
| Export.PlanFontMonotoneInCaption | meme_forge/client/components/MemeGenerator.jsx:72 | raising the top caption's font size never lowers its exported size |
| Export.PlanFontMonotoneInBottomCaption | meme_forge/client/components/MemeGenerator.jsx:73 | raising the bottom caption's font size never lowers its exported size |
| Export.ScalingLawDoubleSize | meme_forge/client/components/MemeGenerator.jsx:68-73 | a 1000 by 1000 image gets twice the scale of a 500 by 500 one, so the unfloored font size doubles; the position `y` stays the editor's value on both |
| Export.LandscapeExample | meme_forge/client/components/MemeGenerator.jsx:68-73 | a 1024 by 768 image with the default captions exports at 1024 by 768 with scale 1.536 and both captions at 73.728 |
| Export.OversizedExample | meme_forge/client/components/MemeGenerator.jsx:68-71 | a 4000 by 3000 image exports on a 1920 by 1920 canvas with scale 3.84 |
| Export.TinyImageExample | meme_forge/client/components/MemeGenerator.jsx:71-73 | a 100 by 100 image has scale 0.2, and the 48-point defaults are floored to 24 |

## Left out

- `drawMemeOnCanvas`: the text drawing (word wrap, stroke and fill order, line stacking) lives in `meme_forge/client/utils/canvas`, which is not part of this model. Preview and export therefore stop at what would be handed to it.
- Image loading (`new Image()`, `onload`, `onerror`, `crossOrigin`): asynchronous browser I/O. Its result is the `ImageLoad` parameter.
- `Date.now()`: the clock. Its reading is the `now` parameter.
- `toDataURL` encoding, link creation and `click`, `alert` and `console` output: browser APIs. The plan records only the MIME type, quality and file name passed to them.
- The `try`/`catch` around drawing and encoding: errors thrown inside `drawMemeOnCanvas` or `toDataURL` cannot be derived from code in this model.
- The `previewRef.current` and `canvasRef.current` null checks (lines 35 and 60): the refs are set by the rendered layout. The preview canvas exists exactly when an image is selected (lines 121-127), so only the selected-image guard is modelled.
- React hooks and the JSX layout: rendering scaffolding with no logic beyond the guards and handlers above.
- IEEE-754 rounding of `w / 500` and `fontSize * scale`: modelled with exact rationals.
- Exponent notation in file names: the model prints every timestamp in plain decimal. JavaScript switches to exponent notation from 10^21, far beyond any millisecond clock reading.
- `meme_forge/server/index.js`: an HTTP proxy to an image-generation service. It is network I/O with no algorithmic content.
