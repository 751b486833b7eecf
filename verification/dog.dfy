/** The subtraction step of Difference-of-Gaussians: `img_blur1 - img_blur2`
    on two `uint8` arrays of one shape. NumPy subtracts element by element
    and keeps the `uint8` dtype, so a sample where the second blur is
    brighter wraps around instead of going negative or saturating. */
module DifferenceOfGaussians {
  import opened U8
  import opened Raster

  /** `a - b` for two same-shaped `uint8` arrays. */
  function Subtract(a: Image, b: Image): (r: Image)
    requires SameShape(a, b)
    requires IsU8Image(a) && IsU8Image(b)
    ensures SameShape(r, a)
    ensures forall h, w, c :: HasShape(a, h, w, c) ==> HasShape(r, h, w, c)
    ensures IsU8Image(r)
    ensures forall i, j, c :: 0 <= i < |r| && 0 <= j < |r[i]| && 0 <= c < |r[i][j]| ==>
      (a[i][j][c] >= b[i][j][c] ==> r[i][j][c] == a[i][j][c] - b[i][j][c]) &&
      (a[i][j][c] < b[i][j][c] ==> r[i][j][c] == a[i][j][c] - b[i][j][c] + Modulus)
  {
    seq(|a|, i requires 0 <= i < |a| =>
      seq(|a[i]|, j requires 0 <= j < |a[i]| =>
        seq(|a[i][j]|, c requires 0 <= c < |a[i][j]| => SubU8(a[i][j][c], b[i][j][c]))))
  }

  /** Every sample of the image is zero. */
  predicate IsBlack(img: Image) {
    forall i, j, c :: 0 <= i < |img| && 0 <= j < |img[i]| && 0 <= c < |img[i][j]| ==> img[i][j][c] == 0
  }

  /** Where the two blurs agree the difference is black, and it is black
      everywhere exactly when the two blurs are the same image. */
  lemma SubtractBlackIffEqual(a: Image, b: Image)
    requires SameShape(a, b)
    requires IsU8Image(a) && IsU8Image(b)
    ensures IsBlack(Subtract(a, b)) <==> a == b
  {
    var r := Subtract(a, b);
    if IsBlack(r) {
      forall i | 0 <= i < |a|
        ensures a[i] == b[i]
      {
        forall j | 0 <= j < |a[i]|
          ensures a[i][j] == b[i][j]
        {
          forall c | 0 <= c < |a[i][j]|
            ensures a[i][j][c] == b[i][j][c]
          {
            assert r[i][j][c] == 0;
          }
        }
      }
    }
  }

  /** The wrap-around loses nothing: the difference together with the
      subtrahend determines the minuend. */
  lemma SubtractInjective(a1: Image, a2: Image, b: Image)
    requires SameShape(a1, b) && SameShape(a2, b)
    requires IsU8Image(a1) && IsU8Image(a2) && IsU8Image(b)
    requires Subtract(a1, b) == Subtract(a2, b)
    ensures a1 == a2
  {
    var r1, r2 := Subtract(a1, b), Subtract(a2, b);
    forall i | 0 <= i < |a1|
      ensures a1[i] == a2[i]
    {
      forall j | 0 <= j < |a1[i]|
        ensures a1[i][j] == a2[i][j]
      {
        forall c | 0 <= c < |a1[i][j]|
          ensures a1[i][j][c] == a2[i][j][c]
        {
          assert r1[i][j][c] == r2[i][j][c];
          assert AddU8(r1[i][j][c], b[i][j][c]) == a1[i][j][c];
        }
      }
    }
  }
}
