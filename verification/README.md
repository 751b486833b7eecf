# Image-transform core of the edge-detection / manipulation app

The app takes a decoded image and applies one of several operations to it. This model covers the parts of those operations that have logic of their own in `corner.py`. The rest is calls into OpenCV.

- **Crop** (`crop_image`). Four number inputs give `left`, `top`, `right` and `bottom`, and the result is the NumPy slice `image[top:bottom, left:right, :]`. The model takes the four bounds as arguments. The ranges the inputs admit (`0 <= left <= right <= width`, `0 <= top <= bottom <= height`) are its preconditions. The slice is modelled with Python's own rules, so negative bounds count from the end and out-of-range bounds are clamped. The contracts then show that none of that happens inside the admitted ranges.
- **Difference of Gaussians**. The subtraction `img_blur1 - img_blur2` works on two same-shaped `uint8` arrays. Each sample is `(a - b) mod 256`: NumPy wraps around on unsigned underflow rather than saturating.
- **Technique dispatch** (`perform_edge_detection`). A total selector over the technique name: `"Canny"`, `"LoG"` and `"DoG"` run their branches, and any other name returns the input image unchanged.

Images are `seq<seq<seq<int>>>`, indexed row, column, channel (`Raster.Image`). NumPy arrays are always rectangular, and the predicate `Raster.Regular` states this. The uint8 dtype is `Raster.IsU8Image`. The OpenCV routines (`cv2.Canny`, `cv2.GaussianBlur`, and `cv2.Laplacian` followed by `cv2.normalize` and the `uint8` cast) are the function-valued fields of `EdgeDetection.Backend`. `EdgeDetection.ValidBackend` states what the selector assumes of them:
- a blur keeps the shape and dtype of its input;
- no routine changes the height or the row widths.

Modules: `U8` (8-bit sample arithmetic), `Raster` (image shape), `Slicing` (Python `start:stop` slices), `Cropping`, `DifferenceOfGaussians`, `EdgeDetection`.

Three choices follow directly from `corner.py`:
- `crop_image` does not re-validate its bounds; only the input widgets constrain them. They are therefore preconditions, not error results.
- The DoG output keeps the shape of the blurred images, channels included.
- The DoG subtraction wraps around; it does not clamp.

## Model

| member | source | states |
|---|---|---|
| U8.SubU8 | corner.py:19 | uint8 subtraction is `a - b` when `a >= b` and `a - b + 256` otherwise; the result is always in 0..255, is 0 for equal samples, and adding `b` back modulo 256 gives `a` |
| Slicing.ResolveBound | corner.py:31 | Python's documented rule for one slice bound on an axis of length `n`: a bound in `0..n` is taken as is, a negative bound counts from the end, and a bound beyond either end is clamped to `0` or `n` |
| Slicing.PySlice | corner.py:31 | a `start:stop` slice has length `max(0, stop' - start')` after negative bounds are counted from the end and clamped; element `k` is element `start' + k`; in-range bounds are taken literally, and a non-negative `stop` at or before `start` (`0 <= stop <= start`) gives an empty slice |
| Cropping.Crop | corner.py:25-33 | for every bound tuple the inputs admit, the crop is defined, has `bottom - top` rows of `right - left` pixels, and pixel `(i, j)` is the input pixel `(top + i, left + j)`, all channels kept |
| Cropping.CropShape | corner.py:26-31 | an image of shape `(h, w, c)` crops to shape `(bottom - top, right - left, c)`, and every output sample `[i][j][k]` equals input sample `[top + i][left + j][k]` |
| Cropping.CropDefaultsIdentity | corner.py:26-31 | the inputs' defaults (`0, 0, width, height`) lie in their admitted ranges, and cropping with them returns the input unchanged |
| Cropping.CropDegenerate | corner.py:28-31 | `bottom == top` gives an image with no rows and `right == left` gives rows with no pixels; neither is an error |
| Cropping.CropIsSubarray | corner.py:31 | inside the admitted ranges the NumPy slice neither clamps nor wraps: the crop equals the plain subsequences `[top..bottom]` of rows and `[left..right]` of each row |
| DifferenceOfGaussians.Subtract | corner.py:17-19 | the difference of two same-shaped uint8 images has their shape and the uint8 range, is exactly `a - b` where `a >= b`, and is `a - b + 256` where the second blur is brighter |
| DifferenceOfGaussians.SubtractBlackIffEqual | corner.py:19 | the difference is all zeros if and only if the two blurred images are identical |
| DifferenceOfGaussians.SubtractInjective | corner.py:19 | the wrap-around loses no information: with the subtrahend fixed, equal differences come from equal minuends |
| EdgeDetection.PerformEdgeDetection | corner.py:8-23 | a name other than `Canny`, `LoG` or `DoG` returns the input unchanged. `Canny` uses thresholds 50 and 150, and `LoG` applies the Laplacian step to a 3x3 blur. `DoG` subtracts the 9x9 blur from the 5x5 blur: the result has the input's shape and the uint8 range, is exact where there is no underflow, and adding the 9x9 blur back gives the 5x5 blur |
| EdgeDetection.EdgeMapKeepsFrame | corner.py:8-23 | whatever the technique name, the result has the input's height and row widths, given the OpenCV assumptions |

## Left out

- Streamlit UI: page styling, the sidebar, the mode and technique menus, image display (corner.py:56-148). This is presentation. Of the number inputs in `crop_image`, only their ranges and defaults are kept.
- Upload decoding with `cv2.imdecode` (corner.py:108, 124): file I/O through a foreign decoder. The model starts from a decoded, rectangular `uint8` image.
- `cv2.Canny`, `cv2.GaussianBlur`, `cv2.Laplacian` (corner.py:10, 12-13, 17-18): foreign library code. These are uninterpreted fields of `EdgeDetection.Backend`.
- LoG min-max normalisation, the scaling by 255 and the `uint8` cast (corner.py:14-15): floating-point work. It is folded into the uninterpreted `laplacianScaled` together with the Laplacian.
- Rotation (corner.py:35-42), grayscale conversion (corner.py:44-47) and scaling (corner.py:49-54). Each is a thin wrapper over OpenCV doing floating-point or fixed-point work: interpolation (rotation, scaling) or a weighted channel sum (grayscale). Rotation builds a matrix about `(cols/2, rows/2)` with `cv2.getRotationMatrix2D` and applies it with `cv2.warpAffine`; grayscale and scaling are one call each. The source holds no logic of its own to model for them.
- EdgeDetection.EdgeMapKeepsFrame: holds only under `ValidBackend`'s assumptions about OpenCV's output shapes. These assumptions are stated, not derived, because the OpenCV routines are not part of this model.
- Cropping.CropShape: a nested sequence with no rows, or rows with no pixels, cannot carry its inner dimensions, whereas NumPy keeps shape `(0, right - left, c)` or `(bottom - top, 0, c)`. So when `bottom == top` or `right == left`, the shape claim says nothing about the width or the channel count.
