/**
 The two drawing entry points of the editor: the live preview and the
 download. Both do nothing while no image is selected, report a failed image
 load, and otherwise describe what is drawn. Image loading and the
 millisecond clock are outside the model: the loaded image's natural size
 and the clock reading are parameters.
 */
module Export {
  import opened Geometry
  import opened Captions
  import opened Session
  import opened Decimal

  /** A value that may be absent. */
  datatype Option<T> = None | Some(value: T)

  /** What loading the selected image produced. */
  datatype ImageLoad = Loaded(width: nat, height: nat) | LoadFailed

  /**
   Outcome of a drawing entry point: returned early because no image is
   selected, stopped because the image failed to load, or ready to draw.
   */
  datatype Attempt<T> = Skipped | LoadError | Ready(value: T)

  /** The fixed size, on both axes, of the visible preview canvas. */
  const PreviewSide: nat := 600

  /** A preview draw: the canvas size and the captions as the editor holds them. */
  datatype PreviewJob = PreviewJob(width: nat, height: nat, top: Caption, bottom: Caption)

  /** A download: the export canvas, the scaled captions and the encoding choice. */
  datatype ExportPlan = ExportPlan(
    width: nat,
    height: nat,
    scale: real,
    top: Caption,
    bottom: Caption,
    mimeType: string,
    quality: real,
    fileName: string)

  const ExportMimeType: string := "image/png"
  const ExportQuality: real := 0.95
  const FileNamePrefix: string := "meme-"
  const FileNameSuffix: string := ".png"

  /** Name of the downloaded file for a clock reading in milliseconds. */
  function FileName(now: nat): (name: string)
    ensures |name| > |FileNamePrefix| + |FileNameSuffix|
    ensures name[..|FileNamePrefix|] == FileNamePrefix
    ensures name[|name| - |FileNameSuffix|..] == FileNameSuffix
  {
    FileNamePrefix + NatToString(now) + FileNameSuffix
  }

  /** Reads the clock reading back out of a downloaded file's name. */
  function TimestampOf(name: string): (t: Option<nat>)
  {
    if |name| > |FileNamePrefix| + |FileNameSuffix|
       && name[..|FileNamePrefix|] == FileNamePrefix
       && name[|name| - |FileNameSuffix|..] == FileNameSuffix
       && AllDigits(name[|FileNamePrefix|..|name| - |FileNameSuffix|])
    then Some(ParseDigits(name[|FileNamePrefix|..|name| - |FileNameSuffix|]))
    else None
  }

  /** The clock reading is recoverable from the file name. */
  lemma TimestampOfFileName(now: nat)
    ensures TimestampOf(FileName(now)) == Some(now)
  {
    var name := FileName(now);
    var digits := NatToString(now);
    assert name[|FileNamePrefix|..|name| - |FileNameSuffix|] == digits;
    ParseNatToString(now);
  }

  /** Downloads made at different milliseconds get different file names. */
  lemma FileNameInjective(t1: nat, t2: nat)
    requires t1 != t2
    ensures FileName(t1) != FileName(t2)
  {
    TimestampOfFileName(t1);
    TimestampOfFileName(t2);
  }

  /** The live preview: the unscaled captions on the fixed 600 by 600 canvas. */
  function Preview(s: Session, load: ImageLoad): (r: Attempt<PreviewJob>)
    ensures r.Skipped? <==> s.selectedImage == ""
    ensures r.LoadError? <==> s.selectedImage != "" && load.LoadFailed?
    ensures r.Ready? ==> r.value == PreviewJob(PreviewSide, PreviewSide, s.top, s.bottom)
  {
    if s.selectedImage == "" then Skipped
    else if load.LoadFailed? then LoadError
    else Ready(PreviewJob(PreviewSide, PreviewSide, s.top, s.bottom))
  }

  /** The export canvas, scale and captions for an image of the given natural size. */
  function Plan(s: Session, width: nat, height: nat, now: nat): (p: ExportPlan)
    ensures p.width <= MaxExportSide && p.height <= MaxExportSide
    ensures p.width <= width && p.height <= height
    ensures width <= MaxExportSide ==> p.width == width
    ensures height <= MaxExportSide ==> p.height == height
    ensures width > MaxExportSide ==> p.width == MaxExportSide
    ensures height > MaxExportSide ==> p.height == MaxExportSide
    ensures p.scale == MinNat(p.width, p.height) as real / ReferenceSide
    ensures p.top == ScaleCaption(s.top, p.scale) && p.bottom == ScaleCaption(s.bottom, p.scale)
    ensures p.mimeType == "image/png" && p.quality == 0.95
    ensures TimestampOf(p.fileName) == Some(now)
  {
    TimestampOfFileName(now);
    var w := CanvasSide(width);
    var h := CanvasSide(height);
    var scale := Scale(w, h);
    ExportPlan(w, h, scale, ScaleCaption(s.top, scale), ScaleCaption(s.bottom, scale),
               ExportMimeType, ExportQuality, FileName(now))
  }

  /** The download button: the export plan once the selected image has loaded. */
  function Download(s: Session, load: ImageLoad, now: nat): (r: Attempt<ExportPlan>)
    ensures r.Skipped? <==> s.selectedImage == ""
    ensures r.LoadError? <==> s.selectedImage != "" && load.LoadFailed?
    ensures r.Ready? ==> load.Loaded? && r.value == Plan(s, load.width, load.height, now)
  {
    if s.selectedImage == "" then Skipped
    else if load.LoadFailed? then LoadError
    else Ready(Plan(s, load.width, load.height, now))
  }

  /** Exported captions keep their text, colours, stroke width and position; both share one scale. */
  lemma PlanChangesOnlyFontSize(s: Session, width: nat, height: nat, now: nat)
    ensures var p := Plan(s, width, height, now);
      && p.top == s.top.(fontSize := p.top.fontSize)
      && p.bottom == s.bottom.(fontSize := p.bottom.fontSize)
      && p.top.fontSize >= MinExportFontSize && p.bottom.fontSize >= MinExportFontSize
      && (p.top.fontSize == s.top.fontSize * p.scale || p.top.fontSize == MinExportFontSize)
      && (p.bottom.fontSize == s.bottom.fontSize * p.scale || p.bottom.fontSize == MinExportFontSize)
  {
  }

  /** A non-empty image gives a positive export scale. */
  lemma PlanScalePositive(s: Session, width: nat, height: nat, now: nat)
    requires width >= 1 && height >= 1
    ensures Plan(s, width, height, now).scale > 0.0
  {
  }

  /** The font rule alone: a larger image never gives a smaller exported font. */
  lemma ExportFontMonotoneInImage(fontSize: real, w1: nat, h1: nat, w2: nat, h2: nat)
    requires w1 <= w2 && h1 <= h2
    ensures ScaledFontSize(fontSize, Scale(CanvasSide(w1), CanvasSide(h1)))
         <= ScaledFontSize(fontSize, Scale(CanvasSide(w2), CanvasSide(h2)))
  {
    CanvasSideMonotone(w1, w2);
    CanvasSideMonotone(h1, h2);
    ScaleMonotone(CanvasSide(w1), CanvasSide(h1), CanvasSide(w2), CanvasSide(h2));
    ScaledFontMonotoneInScale(fontSize, Scale(CanvasSide(w1), CanvasSide(h1)), Scale(CanvasSide(w2), CanvasSide(h2)));
  }

  /** An image at least as large on both axes never gets smaller exported captions. */
  lemma PlanFontMonotoneInImage(s: Session, w1: nat, h1: nat, w2: nat, h2: nat, now: nat)
    requires w1 <= w2 && h1 <= h2
    ensures Plan(s, w1, h1, now).top.fontSize <= Plan(s, w2, h2, now).top.fontSize
    ensures Plan(s, w1, h1, now).bottom.fontSize <= Plan(s, w2, h2, now).bottom.fontSize
  {
    ExportFontMonotoneInImage(s.top.fontSize, w1, h1, w2, h2);
    ExportFontMonotoneInImage(s.bottom.fontSize, w1, h1, w2, h2);
  }

  /** A caption with a larger font is never exported with a smaller one. */
  lemma PlanFontMonotoneInCaption(s: Session, c: Caption, width: nat, height: nat, now: nat)
    requires s.top.fontSize <= c.fontSize
    ensures Plan(s, width, height, now).top.fontSize <= Plan(EditTop(s, c), width, height, now).top.fontSize
  {
    var p := Plan(s, width, height, now);
    ScaledFontMonotoneInSize(s.top.fontSize, c.fontSize, p.scale);
  }

  /** The same for the bottom caption. */
  lemma PlanFontMonotoneInBottomCaption(s: Session, c: Caption, width: nat, height: nat, now: nat)
    requires s.bottom.fontSize <= c.fontSize
    ensures Plan(s, width, height, now).bottom.fontSize <= Plan(EditBottom(s, c), width, height, now).bottom.fontSize
  {
    var p := Plan(s, width, height, now);
    ScaledFontMonotoneInSize(s.bottom.fontSize, c.fontSize, p.scale);
  }

  /** A 1000 by 1000 image gets exactly twice the unfloored font size of a 500 by 500 one. */
  lemma ScalingLawDoubleSize(s: Session, now: nat)
    ensures Plan(s, 1000, 1000, now).scale == 2.0 * Plan(s, 500, 500, now).scale
    ensures s.top.fontSize * Plan(s, 1000, 1000, now).scale
         == 2.0 * (s.top.fontSize * Plan(s, 500, 500, now).scale)
    ensures Plan(s, 1000, 1000, now).top.y == Plan(s, 500, 500, now).top.y == s.top.y
  {
  }

  /** A 1024 by 768 image exports at its own size with scale 768/500 and 48-point defaults at 73.728. */
  lemma LandscapeExample(locator: string, now: nat)
    requires locator != ""
    ensures var r := Download(Session(locator, DefaultTop, DefaultBottom), Loaded(1024, 768), now);
      && r.Ready?
      && r.value.width == 1024 && r.value.height == 768
      && r.value.scale == 1.536
      && r.value.top.fontSize == 73.728 && r.value.bottom.fontSize == 73.728
      && r.value.top.content == "TOP TEXT" && r.value.bottom.content == "BOTTOM TEXT"
  {
  }

  /** An oversized image is capped to 1920 on each axis before scaling. */
  lemma OversizedExample(locator: string, now: nat)
    requires locator != ""
    ensures var r := Download(Session(locator, DefaultTop, DefaultBottom), Loaded(4000, 3000), now);
      && r.Ready?
      && r.value.width == 1920 && r.value.height == 1920
      && r.value.scale == 3.84
  {
  }

  /** A tiny image keeps the default captions at the 24-point floor. */
  lemma TinyImageExample(locator: string, now: nat)
    requires locator != ""
    ensures var r := Download(Session(locator, DefaultTop, DefaultBottom), Loaded(100, 100), now);
      && r.Ready?
      && r.value.scale == 0.2
      && r.value.top.fontSize == 24.0 && r.value.bottom.fontSize == 24.0
  {
  }
}
