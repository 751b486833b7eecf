/** `perform_edge_detection`: a selector over the technique name. The three
    named techniques run OpenCV routines whose code is not part of this
    model; any other name returns the input image itself. */
module EdgeDetection {
  import opened U8
  import opened Raster
  import DifferenceOfGaussians

  /** The OpenCV routines the selector calls, as uninterpreted functions.
      - `canny(img, low, high)`: `cv2.Canny` with hysteresis thresholds.
      - `gaussianBlur(img, k)`: `cv2.GaussianBlur` with a k x k kernel and
        the standard deviation derived from the kernel size.
      - `laplacianScaled(img)`: `cv2.Laplacian` to a 64-bit float response,
        min-max normalised to [0, 1], scaled by 255 and cast to `uint8`. */
  datatype Backend = Backend(
    canny: (Image, int, int) -> Image,
    gaussianBlur: (Image, int) -> Image,
    laplacianScaled: Image -> Image)

  /** What the selector relies on from OpenCV: a blur keeps the shape and
      the `uint8` dtype of its input, and no routine changes the height or
      the row widths (Canny may change the channel count). */
  ghost predicate ValidBackend(b: Backend) {
    && (forall img, k :: Regular(img) && IsU8Image(img) ==>
          SameShape(b.gaussianBlur(img, k), img) && IsU8Image(b.gaussianBlur(img, k)))
    && (forall img, lo, hi :: Regular(img) ==> SameFrame(b.canny(img, lo, hi), img))
    && (forall img :: Regular(img) ==> SameFrame(b.laplacianScaled(img), img))
  }

  /** Same number of rows and the same width row by row; channels may differ. */
  predicate SameFrame(a: Image, b: Image) {
    && |a| == |b|
    && forall i :: 0 <= i < |a| ==> |a[i]| == |b[i]|
  }

  /** Canny's lower and upper hysteresis thresholds. */
  const CannyLow: int := 50
  const CannyHigh: int := 150

  /** Kernel sizes: one blur for LoG, a small and a large one for DoG. */
  const LoGKernel: int := 3
  const DoGSmallKernel: int := 5
  const DoGLargeKernel: int := 9

  /** The names the selector recognises. */
  predicate IsKnownTechnique(name: string) {
    name == "Canny" || name == "LoG" || name == "DoG"
  }

  function PerformEdgeDetection(img: Image, edgeType: string, b: Backend): (r: Image)
    requires Regular(img) && IsU8Image(img)
    requires ValidBackend(b)
    ensures !IsKnownTechnique(edgeType) ==> r == img
    ensures edgeType == "Canny" ==> r == b.canny(img, CannyLow, CannyHigh)
    ensures edgeType == "LoG" ==> r == b.laplacianScaled(b.gaussianBlur(img, LoGKernel))
    ensures edgeType == "DoG" ==>
      var small, large := b.gaussianBlur(img, DoGSmallKernel), b.gaussianBlur(img, DoGLargeKernel);
      && SameShape(r, img)
      && IsU8Image(r)
      && forall i, j, c :: 0 <= i < |r| && 0 <= j < |r[i]| && 0 <= c < |r[i][j]| ==>
           && (small[i][j][c] >= large[i][j][c] ==> r[i][j][c] == small[i][j][c] - large[i][j][c])
           && AddU8(r[i][j][c], large[i][j][c]) == small[i][j][c]
  {
    if edgeType == "Canny" then
      b.canny(img, CannyLow, CannyHigh)
    else if edgeType == "LoG" then
      b.laplacianScaled(b.gaussianBlur(img, LoGKernel))
    else if edgeType == "DoG" then
      DifferenceOfGaussians.Subtract(b.gaussianBlur(img, DoGSmallKernel), b.gaussianBlur(img, DoGLargeKernel))
    else
      img
  }

  /** Whatever the technique name, the edge map has the input's height and
      row widths: the selector itself never crops or resizes. */
  lemma EdgeMapKeepsFrame(img: Image, edgeType: string, b: Backend)
    requires Regular(img) && IsU8Image(img)
    requires ValidBackend(b)
    ensures SameFrame(PerformEdgeDetection(img, edgeType, b), img)
  {
  }
}
