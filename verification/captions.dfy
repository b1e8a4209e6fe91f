/**
 The caption record of the meme editor (one for the top text, one for the
 bottom text), its two default values, and the export-time font scaling that
 rewrites the font size and nothing else.
 */
module Captions {

  /**
   A caption as the editor keeps it. `fontSize` is in reference-frame units,
   `strokeWidth` in pixels and `y` a vertical position in percent of the
   canvas height; colours are CSS colour strings.
   */
  datatype Caption = Caption(
    content: string,
    fontSize: real,
    color: string,
    stroke: string,
    strokeWidth: real,
    y: real)

  /** Smallest font size a caption is given on the export canvas. */
  const MinExportFontSize: real := 24.0

  const DefaultTopContent: string := "TOP TEXT"
  const DefaultBottomContent: string := "BOTTOM TEXT"

  /** The top caption a fresh editor starts with. */
  const DefaultTop: Caption :=
    Caption(DefaultTopContent, 48.0, "#FFFFFF", "#000000", 3.0, 50.0)

  /** The bottom caption a fresh editor starts with. */
  const DefaultBottom: Caption :=
    Caption(DefaultBottomContent, 48.0, "#FFFFFF", "#000000", 3.0, 90.0)

  /** Two captions agree on every field except, possibly, `content`. */
  predicate SameStyle(a: Caption, b: Caption) {
    && a.fontSize == b.fontSize
    && a.color == b.color
    && a.stroke == b.stroke
    && a.strokeWidth == b.strokeWidth
    && a.y == b.y
  }

  /** Replaces the text of a caption, keeping its style and position. */
  function WithContent(c: Caption, content: string): (r: Caption)
    ensures r.content == content
    ensures SameStyle(r, c)
  {
    c.(content := content)
  }

  /**
   The exported font size: the caption's size times the scale, but never
   below the legibility floor of 24.
   */
  function ScaledFontSize(fontSize: real, scale: real): (r: real)
    ensures r >= MinExportFontSize
    ensures r >= fontSize * scale
    ensures r == fontSize * scale || r == MinExportFontSize
  {
    if fontSize * scale >= MinExportFontSize then fontSize * scale else MinExportFontSize
  }

  /** The caption as it is drawn on the export canvas: only `fontSize` changes. */
  function ScaleCaption(c: Caption, scale: real): (r: Caption)
    ensures r.fontSize >= MinExportFontSize
    ensures r.fontSize == c.fontSize * scale <==> c.fontSize * scale >= MinExportFontSize
    ensures r.fontSize == MinExportFontSize <==> c.fontSize * scale <= MinExportFontSize
    ensures r.content == c.content && r.color == c.color && r.stroke == c.stroke
    ensures r.strokeWidth == c.strokeWidth && r.y == c.y
  {
    c.(fontSize := ScaledFontSize(c.fontSize, scale))
  }

  /** A product of two non-negative numbers is non-negative. */
  lemma MulNonNegative(a: real, b: real)
    requires a >= 0.0 && b >= 0.0
    ensures a * b >= 0.0
  {
  }

  /** With a non-negative scale, a larger caption is never exported smaller. */
  lemma ScaledFontMonotoneInSize(f1: real, f2: real, scale: real)
    requires f1 <= f2
    requires scale >= 0.0
    ensures ScaledFontSize(f1, scale) <= ScaledFontSize(f2, scale)
  {
    MulNonNegative(f2 - f1, scale);
    assert (f2 - f1) * scale == f2 * scale - f1 * scale;
  }

  /**
   A larger scale never yields a smaller exported font, whatever the sign of
   the caption's own size: a non-positive size is floored to 24 at every scale.
   */
  lemma ScaledFontMonotoneInScale(fontSize: real, s1: real, s2: real)
    requires 0.0 <= s1 <= s2
    ensures ScaledFontSize(fontSize, s1) <= ScaledFontSize(fontSize, s2)
  {
    if fontSize <= 0.0 {
      MulNonNegative(-fontSize, s2);
      assert fontSize * s2 == -((-fontSize) * s2);
    } else {
      MulNonNegative(fontSize, s2 - s1);
      assert fontSize * (s2 - s1) == fontSize * s2 - fontSize * s1;
    }
  }
}
