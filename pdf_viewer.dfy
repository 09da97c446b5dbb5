/** The `PdfViewer` of components/pdf-viewer.tsx: a zoom factor and a
    rotation that three buttons update, and the choice between the frame
    and the placeholder. The zoom is a real number here. */
module PdfViewer {

  const MIN_ZOOM: real := 0.5
  const MAX_ZOOM: real := 2.0
  const ZOOM_STEP: real := 0.1
  const PLACEHOLDER := "No PDF to display"

  /** `Math.min(prev + 0.1, 2)`. */
  function ZoomedIn(z: real): (r: real)
    ensures r <= MAX_ZOOM
    ensures r == MAX_ZOOM || r == z + ZOOM_STEP
    ensures z <= MAX_ZOOM ==> z <= r
  {
    if z + ZOOM_STEP < MAX_ZOOM then z + ZOOM_STEP else MAX_ZOOM
  }

  /** `Math.max(prev - 0.1, 0.5)`. */
  function ZoomedOut(z: real): (r: real)
    ensures MIN_ZOOM <= r
    ensures r == MIN_ZOOM || r == z - ZOOM_STEP
    ensures MIN_ZOOM <= z ==> r <= z
  {
    if z - ZOOM_STEP > MIN_ZOOM then z - ZOOM_STEP else MIN_ZOOM
  }

  /** `(prev + 90) % 360`. The rotation is never negative, where the
      remainder of JavaScript and that of Dafny agree. */
  function Rotated(r: nat): (q: nat)
    ensures q < 360
    ensures r < 360 && r % 90 == 0 ==> q % 90 == 0 && q != r
  {
    (r + 90) % 360
  }

  /** The rotations the viewer can be in. */
  predicate IsQuarterTurn(r: int) {
    r == 0 || r == 90 || r == 180 || r == 270
  }

  /** Four rotations bring a quarter-turn rotation back to where it was,
      and each one is again a quarter turn. */
  lemma FourRotations(r: nat)
    requires IsQuarterTurn(r)
    ensures IsQuarterTurn(Rotated(r))
    ensures Rotated(Rotated(Rotated(Rotated(r)))) == r
  {
  }

  /** One zoom step keeps a factor in [0.5, 2] within it; the class
      invariant `Valid` carries this across any number of steps from 1. */
  lemma ZoomStaysInRange(z: real)
    requires MIN_ZOOM <= z <= MAX_ZOOM
    ensures MIN_ZOOM <= ZoomedIn(z) <= MAX_ZOOM
    ensures MIN_ZOOM <= ZoomedOut(z) <= MAX_ZOOM
  {
  }

  /** What the frame area shows: the document, or the placeholder when
      `pdfUrl` is empty. */
  datatype Display = Frame(src: string) | Placeholder(text: string)

  function View(pdfUrl: string): (d: Display)
    ensures d.Placeholder? <==> pdfUrl == ""
    ensures d.Frame? ==> d.src == pdfUrl
    ensures d.Placeholder? ==> d.text == PLACEHOLDER
  {
    if pdfUrl != "" then Frame(pdfUrl) else Placeholder(PLACEHOLDER)
  }

  class PdfViewerState {
    var zoom: real
    var rotation: nat

    /** The zoom is in range and the rotation a quarter turn. */
    predicate Valid()
      reads this
    {
      MIN_ZOOM <= zoom <= MAX_ZOOM && IsQuarterTurn(rotation)
    }

    constructor()
      ensures zoom == 1.0 && rotation == 0
      ensures Valid()
    {
      zoom := 1.0;
      rotation := 0;
    }

    /** `handleZoomIn`. */
    method ZoomIn()
      requires Valid()
      modifies this
      ensures zoom == ZoomedIn(old(zoom)) && rotation == old(rotation)
      ensures Valid()
    {
      zoom := ZoomedIn(zoom);
    }

    /** `handleZoomOut`. */
    method ZoomOut()
      requires Valid()
      modifies this
      ensures zoom == ZoomedOut(old(zoom)) && rotation == old(rotation)
      ensures Valid()
    {
      zoom := ZoomedOut(zoom);
    }

    /** `handleRotate`. */
    method Rotate()
      requires Valid()
      modifies this
      ensures rotation == Rotated(old(rotation)) && zoom == old(zoom)
      ensures Valid()
    {
      FourRotations(rotation);
      rotation := Rotated(rotation);
    }
  }
}
