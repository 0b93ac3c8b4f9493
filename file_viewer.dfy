/**
 * The full-screen file viewer (components/FileViewer.tsx): which renderers
 * it shows for an attachment.
 */
module FileViewer {
  import opened Types
  import opened MimeTypes

  /** Plain text: flagged as text, and neither an HTML page nor an SVG drawing
      (those go to the frame). */
  predicate IsPlainText(file: Attachment) {
    file.isText && !IsHtml(file.mimeType) && !IsSvg(file.mimeType)
  }

  datatype Renderer = PdfObject | Frame | Picture | TextBlock | Unsupported

  /** The renderers shown, in page order; nothing at all without a file. */
  function Renderers(file: Option<Attachment>): seq<Renderer> {
    match file
    case None => []
    case Some(f) =>
      var m := f.mimeType;
      (if IsPdf(m) then [PdfObject] else [])
      + (if IsHtml(m) || IsSvg(m) then [Frame] else [])
      + (if IsImage(m) then [Picture] else [])
      + (if IsPlainText(f) then [TextBlock] else [])
      + (if !IsPdf(m) && !IsImage(m) && !IsPlainText(f) && !IsHtml(m) && !IsSvg(m) then [Unsupported] else [])
  }

  /** Without a file the viewer renders nothing. */
  lemma NoFileNothingShown()
    ensures Renderers(None) == []
  {
  }

  /** HTML and SVG both go to the frame and to no other renderer; text is
      never shown for them. */
  lemma HtmlAndSvgUseFrame(file: Attachment)
    requires IsHtml(file.mimeType) || IsSvg(file.mimeType)
    ensures Renderers(Some(file)) == [Frame]
  {
    MimeTestsExclusive(file.mimeType);
  }

  /** The unsupported notice appears exactly when no renderer applies. */
  lemma UnsupportedWhenNothingApplies(file: Attachment)
    ensures Unsupported in Renderers(Some(file)) <==>
      !IsPdf(file.mimeType) && !IsImage(file.mimeType) && !IsPlainText(file)
      && !IsHtml(file.mimeType) && !IsSvg(file.mimeType)
    ensures Unsupported in Renderers(Some(file)) ==> Renderers(Some(file)) == [Unsupported]
  {
  }

  /** A file is always shown somehow, and by one renderer except for a PDF or
      an image that is also flagged as text, which shows its text as well. */
  lemma OneRendererUnlessFlaggedText(file: Attachment)
    ensures |Renderers(Some(file))| >= 1
    ensures |Renderers(Some(file))| == if IsPlainText(file) && (IsPdf(file.mimeType) || IsImage(file.mimeType)) then 2 else 1
  {
    MimeTestsExclusive(file.mimeType);
  }
}
