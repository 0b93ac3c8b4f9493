/**
 * The canvas side panel (components/CanvasPanel.tsx): the zoom buttons, the
 * document written into its frame for HTML and SVG content, and the choice
 * of what the panel shows.
 */
module CanvasPanel {
  import opened Types
  import opened JsStrings
  import opened MimeTypes

  // ---------------------------------------------------------------------------
  // Zoom

  const InitialZoom: int := 100
  const MinZoom: int := 50
  const MaxZoom: int := 200
  const ZoomStep: int := 10

  /** The zoom levels the panel can be at: 50 to 200 percent in steps of 10. */
  predicate ZoomValid(z: int) {
    MinZoom <= z <= MaxZoom && z % ZoomStep == 0
  }

  /** The "+" button: `Math.min(200, z + 10)`. */
  function ZoomedIn(z: int): int {
    if z + ZoomStep < MaxZoom then z + ZoomStep else MaxZoom
  }

  /** The "-" button: `Math.max(50, z - 10)`. */
  function ZoomedOut(z: int): int {
    if z - ZoomStep > MinZoom then z - ZoomStep else MinZoom
  }

  /** The zoom after a run of clicks, `true` for "+" and `false` for "-". */
  function ZoomAfter(z: int, clicks: seq<bool>): int
    decreases |clicks|
  {
    if clicks == [] then z
    else ZoomAfter(if clicks[0] then ZoomedIn(z) else ZoomedOut(z), clicks[1..])
  }

  // ---------------------------------------------------------------------------
  // The frame document

  /** The content written into the frame: HTML pages and SVG drawings. */
  predicate IsCode(mimeType: string) {
    IsHtml(mimeType) || IsSvg(mimeType)
  }

  const DoctypeLower := "<!doctype html"
  const HtmlLower := "<html"

  const Doctype := "<!DOCTYPE html"
  const BodyOpen := "<body>"
  const BodyClose := "</body>"
  /** The start of the wrapping document, up to and including `<body>`. */
  const WrapperHead := Doctype + "><html><head><meta charset=\"utf-8\"></head>" + BodyOpen
  /** The end of the wrapping document, from `</body>` on. */
  const WrapperTail := BodyClose + "</html>"

  /** Content is wrapped unless, trimmed and lowercased, it already starts
      like a whole HTML document. */
  predicate NeedsWrapper(data: string) {
    var clean := ToLower(Trim(data));
    !StartsWith(clean, DoctypeLower) && !StartsWith(clean, HtmlLower)
  }

  /** The document written into the frame for content `data`. */
  function FrameDocument(data: string): string {
    if NeedsWrapper(data) then WrapperHead + data + WrapperTail else data
  }

  // ---------------------------------------------------------------------------
  // What the panel shows

  datatype View = Awaiting | Frame | Picture | PdfObject | Unsupported

  /** The views rendered for the current content, in page order: the waiting
      notice without content; otherwise the frame for code, the picture for
      an image, the PDF object for a PDF, and the unsupported notice for
      anything else. */
  function Views(content: Option<Attachment>): seq<View> {
    match content
    case None => [Awaiting]
    case Some(c) =>
      var m := c.mimeType;
      (if IsCode(m) then [Frame] else [])
      + (if IsImage(m) then [Picture] else [])
      + (if IsPdf(m) then [PdfObject] else [])
      + (if !IsCode(m) && !IsImage(m) && !IsPdf(m) then [Unsupported] else [])
  }

  datatype Engine = Html5Webkit | ImageProcessor | Generic

  /** The render engine named in the footer. */
  function FooterEngine(content: Option<Attachment>): Engine {
    if content.Some? && IsCode(content.value.mimeType) then Html5Webkit
    else if content.Some? && IsImage(content.value.mimeType) then ImageProcessor
    else Generic
  }

  class Canvas {
    var zoom: int
    /** What was last written into the frame's document, if anything. The
        frame is mounted only while HTML or SVG content is shown; the model
        keeps the last write across other content instead of unmounting it. */
    var frameDocument: Option<string>

    predicate Valid()
      reads this
    {
      ZoomValid(zoom)
    }

    constructor ()
      ensures Valid() && zoom == InitialZoom && frameDocument == None
    {
      zoom := InitialZoom;
      frameDocument := None;
    }

    method ZoomIn()
      requires Valid()
      modifies this
      ensures Valid() && zoom == ZoomedIn(old(zoom)) && frameDocument == old(frameDocument)
    {
      ZoomStaysValid(zoom);
      zoom := if zoom + ZoomStep < MaxZoom then zoom + ZoomStep else MaxZoom;
    }

    method ZoomOut()
      requires Valid()
      modifies this
      ensures Valid() && zoom == ZoomedOut(old(zoom)) && frameDocument == old(frameDocument)
    {
      ZoomStaysValid(zoom);
      zoom := if zoom - ZoomStep > MinZoom then zoom - ZoomStep else MinZoom;
    }

    /** The effect run when the content changes: HTML and SVG content is
        written into the frame, wrapped in a document when it is not one, when
        the frame is mounted and its document is reachable from the page
        (`frameReachable`); otherwise the frame is left alone. */
    method ContentChanged(content: Option<Attachment>, frameReachable: bool)
      modifies this
      ensures content.Some? && IsCode(content.value.mimeType) && frameReachable ==>
        frameDocument == Some(FrameDocument(content.value.data))
      ensures !(content.Some? && IsCode(content.value.mimeType) && frameReachable) ==>
        frameDocument == old(frameDocument)
      ensures zoom == old(zoom)
    {
      if content.Some? && (content.value.mimeType == Html || content.value.mimeType == Svg) && frameReachable {
        var finalHtml := content.value.data;
        var cleanContent := ToLower(Trim(finalHtml));
        if !StartsWith(cleanContent, DoctypeLower) && !StartsWith(cleanContent, HtmlLower) {
          finalHtml := WrapperHead + finalHtml + WrapperTail;
        }
        frameDocument := Some(finalHtml);
      }
    }
  }

  // ---------------------------------------------------------------------------
  // Properties

  /** Both buttons keep the zoom within 50 to 200 percent and on a multiple
      of 10; at the ends they do nothing. */
  lemma ZoomStaysValid(z: int)
    requires ZoomValid(z)
    ensures ZoomValid(ZoomedIn(z)) && ZoomValid(ZoomedOut(z))
    ensures ZoomedIn(z) == if z == MaxZoom then z else z + ZoomStep
    ensures ZoomedOut(z) == if z == MinZoom then z else z - ZoomStep
  {
  }

  /** Away from the ends, one button undoes the other. */
  lemma ZoomButtonsUndo(z: int)
    requires ZoomValid(z)
    ensures z < MaxZoom ==> ZoomedOut(ZoomedIn(z)) == z
    ensures z > MinZoom ==> ZoomedIn(ZoomedOut(z)) == z
  {
  }

  /** However the buttons are pressed, the zoom stays a valid level. */
  lemma {:induction false} ZoomAfterValid(z: int, clicks: seq<bool>)
    requires ZoomValid(z)
    ensures ZoomValid(ZoomAfter(z, clicks))
    decreases |clicks|
  {
    if clicks != [] {
      ZoomStaysValid(z);
      ZoomAfterValid(if clicks[0] then ZoomedIn(z) else ZoomedOut(z), clicks[1..]);
    }
  }

  /** The panel's zoom, from its initial 100 percent, is always a valid level. */
  lemma InitialZoomReachesOnlyValid(clicks: seq<bool>)
    ensures ZoomValid(ZoomAfter(InitialZoom, clicks))
  {
    ZoomAfterValid(InitialZoom, clicks);
  }

  /** A wrapped document embeds the content unchanged in its body. */
  lemma WrappedEmbedsContent(data: string)
    requires NeedsWrapper(data)
    ensures var doc := FrameDocument(data);
      && OccursAt(doc, data, |WrapperHead|)
      && EndsWith(doc[..|WrapperHead|], BodyOpen)
      && StartsWith(doc[|WrapperHead| + |data|..], BodyClose)
  {
    var doc := WrapperHead + data + WrapperTail;
    assert FrameDocument(data) == doc;
    assert doc[..|WrapperHead|] == WrapperHead;
    assert doc[|WrapperHead|..|WrapperHead| + |data|] == data;
    assert doc[|WrapperHead| + |data|..] == WrapperTail;
  }

  /** Content that already is a whole document is written as it is. */
  lemma WholeDocumentUnchanged(data: string)
    requires StartsWith(ToLower(Trim(data)), DoctypeLower) || StartsWith(ToLower(Trim(data)), HtmlLower)
    ensures FrameDocument(data) == data
  {
  }

  /** The wrapper's doctype, lowercased, is the one the wrap test looks for. */
  lemma LowerDoctype()
    ensures ToLower(Doctype) == DoctypeLower
  {
    var u := Doctype;
    var l := ToLower(u);
    forall i | 0 <= i < |u|
      ensures l[i] == DoctypeLower[i]
    {
      assert l[i] == LowerChar(u[i]);
    }
  }

  /** The written document is never wrapped again: writing it a second time
      leaves it as it is. */
  lemma FrameDocumentIdempotent(data: string)
    ensures !NeedsWrapper(FrameDocument(data))
    ensures FrameDocument(FrameDocument(data)) == FrameDocument(data)
  {
    if NeedsWrapper(data) {
      var doc := WrapperHead + data + WrapperTail;
      assert doc[0] == Doctype[0] == '<';
      assert doc[|doc| - 1] == WrapperTail[|WrapperTail| - 1] == '>';
      TrimOfUnpadded(doc);
      var clean := ToLower(doc);
      var n := |DoctypeLower|;
      assert doc[..n] == Doctype;
      LowerDoctype();
      assert clean[..n] == ToLower(doc[..n]);
    }
  }

  /** Exactly one view is shown, and the unsupported notice is it exactly
      when the content is neither code, nor an image, nor a PDF. */
  lemma ExactlyOneView(content: Option<Attachment>)
    ensures |Views(content)| == 1
    ensures Unsupported in Views(content) <==>
      content.Some? && !IsCode(content.value.mimeType) && !IsImage(content.value.mimeType) && !IsPdf(content.value.mimeType)
    ensures Frame in Views(content) <==> content.Some? && IsCode(content.value.mimeType)
  {
    if content.Some? {
      MimeTestsExclusive(content.value.mimeType);
    }
  }

  /** The footer names the engine of the view shown. */
  lemma FooterMatchesView(content: Option<Attachment>)
    ensures FooterEngine(content) == Html5Webkit <==> Views(content) == [Frame]
    ensures FooterEngine(content) == ImageProcessor <==> Views(content) == [Picture]
  {
    ExactlyOneView(content);
    if content.Some? {
      MimeTestsExclusive(content.value.mimeType);
    }
  }
}
