/**
 The editor's state (the selected image and the two captions) and the
 transitions the editor applies to it. Each transition is a pure function
 from the old state to the new one.
 */
module Session {
  import opened Captions

  /**
   `selectedImage` is the image locator (a URL or data URL); the empty string
   means that no image has been chosen yet.
   */
  datatype Session = Session(selectedImage: string, top: Caption, bottom: Caption)

  /** The state a freshly mounted editor starts in. */
  const Initial: Session := Session("", DefaultTop, DefaultBottom)

  /** The user picked an image (upload, template or generated image). */
  function SelectImage(s: Session, locator: string): (r: Session)
    ensures r.selectedImage == locator
    ensures r.top == s.top && r.bottom == s.bottom
  {
    s.(selectedImage := locator)
  }

  /** The text form replaced the whole top caption. */
  function EditTop(s: Session, c: Caption): (r: Session)
    ensures r.top == c
    ensures r.selectedImage == s.selectedImage && r.bottom == s.bottom
  {
    s.(top := c)
  }

  /** The text form replaced the whole bottom caption. */
  function EditBottom(s: Session, c: Caption): (r: Session)
    ensures r.bottom == c
    ensures r.selectedImage == s.selectedImage && r.top == s.top
  {
    s.(bottom := c)
  }

  /**
   A generated meme arrived with its two caption texts. Only the texts of the
   captions change; the image locator handed along is not used.
   */
  function AIMemeGenerated(s: Session, imageUrl: string, topContent: string, bottomContent: string): (r: Session)
    ensures r.top.content == topContent && r.bottom.content == bottomContent
    ensures SameStyle(r.top, s.top) && SameStyle(r.bottom, s.bottom)
    ensures r.selectedImage == s.selectedImage
  {
    Session(s.selectedImage, WithContent(s.top, topContent), WithContent(s.bottom, bottomContent))
  }

  /** Puts the default texts back, keeping every style, position and the image. */
  function Reset(s: Session): (r: Session)
    ensures r.top.content == "TOP TEXT" && r.bottom.content == "BOTTOM TEXT"
    ensures SameStyle(r.top, s.top) && SameStyle(r.bottom, s.bottom)
    ensures r.selectedImage == s.selectedImage
  {
    Session(s.selectedImage, WithContent(s.top, DefaultTopContent), WithContent(s.bottom, DefaultBottomContent))
  }

  /** Resetting twice is the same as resetting once. */
  lemma ResetIdempotent(s: Session)
    ensures Reset(Reset(s)) == Reset(s)
  {
  }

  /** The fresh editor is already in its reset state. */
  lemma ResetInitial()
    ensures Reset(Initial) == Initial
  {
  }

  /** A reset wipes out whatever texts a generated meme had put in. */
  lemma ResetAfterAIMeme(s: Session, imageUrl: string, topContent: string, bottomContent: string)
    ensures Reset(AIMemeGenerated(s, imageUrl, topContent, bottomContent)) == Reset(s)
  {
  }

  /** The outcome of a generated meme does not depend on the image locator it carries. */
  lemma AIMemeIgnoresImageUrl(s: Session, url1: string, url2: string, topContent: string, bottomContent: string)
    ensures AIMemeGenerated(s, url1, topContent, bottomContent) == AIMemeGenerated(s, url2, topContent, bottomContent)
  {
  }

  /** Reset is a generated meme whose texts are the default texts. */
  lemma ResetIsAIMemeWithDefaults(s: Session, imageUrl: string)
    ensures Reset(s) == AIMemeGenerated(s, imageUrl, DefaultTopContent, DefaultBottomContent)
  {
  }
}
