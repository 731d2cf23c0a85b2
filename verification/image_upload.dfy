/** The link image: the synchronous checks of `handleFileSelect`, and `removeImage`.

    On acceptance the page starts decoding the file into a data URL and sets the
    preview when the decode completes; that asynchronous part is not modelled, so
    accepting a file leaves the preview as it was. */
module ImageUpload {

  import opened Wrappers

  /** What the page reads of a `File`: its name, its MIME type and its size in bytes. */
  datatype File = File(name: string, mimeType: string, size: nat)

  /** `imageFile` and `imagePreview` (a data URL). */
  datatype ImageState = ImageState(file: Option<File>, preview: Option<string>)

  /** The state the page starts in: no file, no preview. */
  const Initial: ImageState := ImageState(None, None)

  /** The largest accepted size, 5 MiB. */
  const MaxImageBytes: nat := 5 * 1024 * 1024

  /** The MIME prefix an accepted file must have. */
  const ImagePrefix: string := "image/"

  /** What `handleFileSelect` tells the user: nothing, or one of its two alerts. */
  datatype Verdict = Accepted | NotAnImage | TooLarge

  /** A file the page accepts. */
  predicate Acceptable(f: File)
  {
    StartsWith(f.mimeType, ImagePrefix) && f.size <= MaxImageBytes
  }

  /** `handleFileSelect(file)`: the type is checked first, then the size. A
      rejected file raises its alert and changes nothing; an accepted one becomes
      the image file. */
  function SelectFile(s: ImageState, f: File): (r: (ImageState, Verdict))
    ensures r.1 == Accepted <==> Acceptable(f)
    ensures r.1 == NotAnImage <==> !StartsWith(f.mimeType, ImagePrefix)
    ensures r.1 == TooLarge <==> StartsWith(f.mimeType, ImagePrefix) && f.size > MaxImageBytes
    ensures r.1 != Accepted ==> r.0 == s
    ensures r.1 == Accepted ==> r.0.file == Some(f) && r.0.preview == s.preview
  {
    if !StartsWith(f.mimeType, ImagePrefix) then (s, NotAnImage)
    else if f.size > MaxImageBytes then (s, TooLarge)
    else (s.(file := Some(f)), Accepted)
  }

  /** `removeImage`: both the file and the preview are cleared, whatever they were. */
  function RemoveImage(s: ImageState): (r: ImageState)
    ensures r.file.None? && r.preview.None?
    ensures r == Initial
  {
    ImageState(None, None)
  }

  /** A 6 MiB image is refused for its size; a 4 MiB PNG is taken. */
  lemma SizeExamples(s: ImageState)
    ensures SelectFile(s, File("big.png", "image/png", 6 * 1024 * 1024)) == (s, TooLarge)
    ensures SelectFile(s, File("ok.png", "image/png", 4 * 1024 * 1024)).1 == Accepted
  {
  }

  /** The boundary is inclusive: exactly 5 MiB is accepted, one byte more is not. */
  lemma SizeBoundary(s: ImageState, name: string, mimeType: string)
    requires StartsWith(mimeType, ImagePrefix)
    ensures SelectFile(s, File(name, mimeType, MaxImageBytes)).1 == Accepted
    ensures SelectFile(s, File(name, mimeType, MaxImageBytes + 1)).1 == TooLarge
  {
  }

  /** The type check is case-sensitive and looks at the start only. */
  lemma TypeExamples(s: ImageState)
    ensures SelectFile(s, File("a.pdf", "application/pdf", 10)).1 == NotAnImage
    ensures SelectFile(s, File("a.PNG", "IMAGE/PNG", 10)).1 == NotAnImage
  {
    assert "application/pdf"[0] != ImagePrefix[0];
    assert "IMAGE/PNG"[0] != ImagePrefix[0];
  }
}
