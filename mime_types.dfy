/**
 * The MIME-type tests the two viewers share (components/CanvasPanel.tsx,
 * components/FileViewer.tsx): exact PDF, HTML and SVG types, and "image"
 * meaning any `image/` type other than SVG.
 */
module MimeTypes {
  import opened JsStrings

  const Pdf := "application/pdf"
  const Html := "text/html"
  const Svg := "image/svg+xml"
  const ImagePrefix := "image/"

  predicate IsPdf(mimeType: string) {
    mimeType == Pdf
  }

  predicate IsHtml(mimeType: string) {
    mimeType == Html
  }

  predicate IsSvg(mimeType: string) {
    mimeType == Svg
  }

  /** A raster image: an `image/` type, SVG excluded. */
  predicate IsImage(mimeType: string) {
    StartsWith(mimeType, ImagePrefix) && mimeType != Svg
  }

  /** An SVG is never an image, and the image, PDF, HTML and SVG tests
      exclude one another. */
  lemma MimeTestsExclusive(mimeType: string)
    ensures !(IsImage(mimeType) && IsSvg(mimeType))
    ensures !(IsImage(mimeType) && IsPdf(mimeType))
    ensures !(IsImage(mimeType) && IsHtml(mimeType))
    ensures !(IsPdf(mimeType) && (IsHtml(mimeType) || IsSvg(mimeType)))
    ensures !(IsHtml(mimeType) && IsSvg(mimeType))
  {
    if IsPdf(mimeType) {
      assert mimeType[..|ImagePrefix|] != ImagePrefix by {
        assert mimeType[0] == 'a';
      }
    }
    if IsHtml(mimeType) {
      assert mimeType[..|ImagePrefix|] != ImagePrefix by {
        assert mimeType[0] == 't';
      }
    }
  }
}
