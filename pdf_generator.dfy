/**
 * PDF pagination: the rendered document is one tall image, scaled to the
 * A4 page width, and laid on as many A4 pages as it needs, each page showing
 * it shifted up by one more page height.
 */
module PdfGenerator {
  import opened Wrappers

  /** The A4 page in millimetres. */
  const PageWidth: real := 210.0
  const PageHeight: real := 295.0

  /** The rendered element's canvas, in pixels. */
  datatype Canvas = Canvas(width: nat, height: nat)

  /** The image height on the page: the canvas scaled to the page width. */
  function ImageHeight(canvas: Canvas): (h: real)
    requires canvas.width > 0
    ensures h >= 0.0
    ensures h * (canvas.width as real) == (canvas.height as real) * PageWidth
  {
    (canvas.height as real) * PageWidth / (canvas.width as real)
  }

  /** The number of pages an image of height `h` takes: one, plus one more
      for every full page height it has. */
  function PageCount(h: real): (n: nat)
    requires h >= 0.0
    ensures n >= 1
    ensures ((n - 1) as real) * PageHeight <= h < (n as real) * PageHeight
  {
    (h / PageHeight).Floor + 1
  }

  /** An image exactly one page high spills onto a second, empty page. */
  lemma ExactPageHeightTakesTwoPages()
    ensures PageCount(PageHeight) == 2
  {
  }

  /** `generateSecurePDF`: `rendered` is the element's canvas, None when the
      element is missing.  `offsets` are the vertical offsets at which the
      image is placed, one per page. */
  method GenerateSecurePdf(rendered: Option<Canvas>) returns (success: bool, offsets: seq<real>)
    requires rendered.Some? ==> rendered.value.width > 0
    ensures success <==> rendered.Some?
    ensures !success ==> offsets == []
    ensures success ==> |offsets| == PageCount(ImageHeight(rendered.value))
    ensures forall k :: 0 <= k < |offsets| ==> offsets[k] == -(k as real) * PageHeight
  {
    if rendered.None? {
      return false, [];
    }
    var imgHeight := ImageHeight(rendered.value);
    var heightLeft := imgHeight;
    var position := 0.0;
    offsets := [position];
    heightLeft := heightLeft - PageHeight;
    while heightLeft >= 0.0
      invariant |offsets| >= 1
      invariant heightLeft == imgHeight - (|offsets| as real) * PageHeight
      invariant ((|offsets| - 1) as real) * PageHeight <= imgHeight
      invariant forall k :: 0 <= k < |offsets| ==> offsets[k] == -(k as real) * PageHeight
      decreases (heightLeft + PageHeight).Floor
    {
      position := heightLeft - imgHeight;
      offsets := offsets + [position];
      heightLeft := heightLeft - PageHeight;
    }
    var n := |offsets|;
    assert ((n - 1) as real) <= imgHeight / PageHeight < n as real;
    success := true;
  }
}
