/** Raster images as NumPy holds them after decoding: a rectangular
    rows x columns x channels array of samples. A nested sequence can be
    ragged, so rectangularity is a predicate rather than part of the type. */
module Raster {
  import opened U8

  /** `img[row][column][channel]`. */
  type Image = seq<seq<seq<int>>>

  /** `img.shape == (h, w, c)`. */
  predicate HasShape(img: Image, h: int, w: int, c: int) {
    && |img| == h
    && (forall i :: 0 <= i < |img| ==> |img[i]| == w)
    && (forall i, j :: 0 <= i < |img| && 0 <= j < |img[i]| ==> |img[i][j]| == c)
  }

  /** `img.shape[1]`, read off the first row. */
  function Width(img: Image): nat {
    if |img| == 0 then 0 else |img[0]|
  }

  /** `img.shape[2]`, read off the first pixel. */
  function Channels(img: Image): nat {
    if |img| == 0 || |img[0]| == 0 then 0 else |img[0][0]|
  }

  /** The nested sequence is a proper three-dimensional array. */
  predicate Regular(img: Image) {
    HasShape(img, |img|, Width(img), Channels(img))
  }

  /** Both arrays have the same shape, position by position. */
  predicate SameShape(a: Image, b: Image) {
    && |a| == |b|
    && (forall i :: 0 <= i < |a| ==> |a[i]| == |b[i]|)
    && (forall i, j :: 0 <= i < |a| && 0 <= j < |a[i]| && j < |b[i]| ==> |a[i][j]| == |b[i][j]|)
  }

  /** Every sample fits the `uint8` dtype. */
  predicate IsU8Image(img: Image) {
    forall i, j, c :: 0 <= i < |img| && 0 <= j < |img[i]| && 0 <= c < |img[i][j]| ==> IsU8(img[i][j][c])
  }
}
