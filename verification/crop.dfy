/** `crop_image`: the rectangle `[top, bottom) x [left, right)` of an image,
    taken as `image[top:bottom, left:right, :]`. The four bounds come from
    number inputs whose ranges are fixed by the image and by each other;
    those ranges are this model's preconditions. */
module Cropping {
  import opened Raster
  import opened Slicing

  /** The values the four number inputs admit: `left` and `top` anywhere on
      their axis, `right` from `left` and `bottom` from `top` up to the far
      edge. */
  predicate WidgetRange(image: Image, left: int, top: int, right: int, bottom: int) {
    && 0 <= left <= Width(image)
    && 0 <= top <= |image|
    && left <= right <= Width(image)
    && top <= bottom <= |image|
  }

  /** The pre-filled values of the four number inputs. */
  const DefaultLeft: int := 0
  const DefaultTop: int := 0
  function DefaultRight(image: Image): int { Width(image) }
  function DefaultBottom(image: Image): int { |image| }

  /** `image[top:bottom, left:right, :]`: rows are sliced, then the columns of
      every kept row; each kept pixel is kept whole (the `:` on channels). */
  function Crop(image: Image, left: int, top: int, right: int, bottom: int): (r: Image)
    requires Regular(image)
    requires WidgetRange(image, left, top, right, bottom)
    ensures |r| == bottom - top
    ensures forall i :: 0 <= i < |r| ==> |r[i]| == right - left
    ensures forall i, j :: 0 <= i < |r| && 0 <= j < |r[i]| ==> r[i][j] == image[top + i][left + j]
  {
    var rows := PySlice(image, top, bottom);
    seq(|rows|, i requires 0 <= i < |rows| => PySlice(rows[i], left, right))
  }

  /** The output shape is `(bottom - top, right - left, channels)`: each
      output sample is the input sample at the offset position. */
  lemma CropShape(image: Image, left: int, top: int, right: int, bottom: int, h: int, w: int, c: int)
    requires HasShape(image, h, w, c)
    requires Regular(image)
    requires WidgetRange(image, left, top, right, bottom)
    ensures HasShape(Crop(image, left, top, right, bottom), bottom - top, right - left, c)
    ensures var r := Crop(image, left, top, right, bottom);
      forall i, j, k :: 0 <= i < |r| && 0 <= j < |r[i]| && 0 <= k < |r[i][j]| ==>
        r[i][j][k] == image[top + i][left + j][k]
  {
  }

  /** Leaving the four inputs at their defaults is allowed and crops nothing. */
  lemma CropDefaultsIdentity(image: Image)
    requires Regular(image)
    ensures WidgetRange(image, DefaultLeft, DefaultTop, DefaultRight(image), DefaultBottom(image))
    ensures Crop(image, DefaultLeft, DefaultTop, DefaultRight(image), DefaultBottom(image)) == image
  {
    var r := Crop(image, 0, 0, Width(image), |image|);
    forall i | 0 <= i < |image|
      ensures r[i] == image[i]
    {
      assert |r[i]| == |image[i]|;
    }
  }

  /** `right == left` or `bottom == top` is admitted by the inputs and gives
      an image with no columns or no rows instead of an error. */
  lemma CropDegenerate(image: Image, left: int, top: int, right: int, bottom: int)
    requires Regular(image)
    requires WidgetRange(image, left, top, right, bottom)
    ensures bottom == top ==> Crop(image, left, top, right, bottom) == []
    ensures right == left ==>
      forall i :: 0 <= i < |Crop(image, left, top, right, bottom)| ==> Crop(image, left, top, right, bottom)[i] == []
  {
  }

  /** Within the input ranges NumPy's slice neither clamps nor counts from
      the end: the crop is exactly the subsequences `[top..bottom]` and
      `[left..right]`. */
  lemma CropIsSubarray(image: Image, left: int, top: int, right: int, bottom: int)
    requires Regular(image)
    requires WidgetRange(image, left, top, right, bottom)
    ensures Crop(image, left, top, right, bottom) ==
      seq(bottom - top, i requires 0 <= i < bottom - top => image[top + i][left..right])
  {
  }
}
