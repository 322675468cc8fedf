/** The size and box arithmetic of ONNXInference.preprocess: the
    aspect-preserving resize to 256 on the shorter side, then the centre crop
    to 224 x 224. Sizes are (width, height), as PIL's Image.size gives them.
    The float scale factor is computed exactly here. */
module Geometry {
  import opened Errors

  datatype Size = Size(width: nat, height: nat)

  /** A crop box as PIL takes it: (left, top, right, bottom), right and
      bottom exclusive. */
  datatype Box = Box(left: int, top: int, right: int, bottom: int)

  const ResizeTarget: nat := 256
  const CropSize: nat := 224

  function Min(a: nat, b: nat): nat
  {
    if a <= b then a else b
  }

  function Max(a: nat, b: nat): nat
  {
    if a <= b then b else a
  }

  /** Python's `//` for a positive divisor: the largest q with q * b <= a.
      (Dafny's `/` agrees with it when b > 0, for negative a too.) */
  function FloorDiv(a: int, b: int): (q: int)
    requires b > 0
    ensures q * b <= a < q * b + b
  {
    a / b
  }

  /** resize_keep_ratio: scale = target / min(width, height), and each side
      becomes int(side * scale). With exact arithmetic int() of the
      non-negative product is its floor, so each new side is the largest
      integer n with n * min <= side * target. A zero-length side makes the
      division fail. */
  function ResizeKeepRatio(size: Size, target: nat): (r: Result<Size>)
    ensures r.Err? <==> Min(size.width, size.height) == 0
    ensures r.Err? ==> r.error == ZeroDivision
    ensures r.Ok? ==>
      var m := Min(size.width, size.height);
      r.value.width * m <= size.width * target < (r.value.width + 1) * m &&
      r.value.height * m <= size.height * target < (r.value.height + 1) * m
  {
    var m := Min(size.width, size.height);
    if m == 0 then Err(ZeroDivision)
    else Ok(Size(FloorDiv(size.width * target, m), FloorDiv(size.height * target, m)))
  }

  lemma {:induction false} DivMonotone(a: nat, b: nat, m: nat)
    requires a <= b && m > 0
    ensures a / m <= b / m
  {
    var qa, qb := a / m, b / m;
    assert qa * m <= a && b < qb * m + m;
    if qb < qa {
      assert (qb + 1) * m <= qa * m by {
        MulMonotone(qb + 1, qa, m);
      }
    }
  }

  lemma MulMonotone(x: nat, y: nat, m: nat)
    requires x <= y
    ensures x * m <= y * m
  {
  }

  lemma DivSelfMul(m: nat, t: nat)
    requires m > 0
    ensures (m * t) / m == t
  {
    var q := (m * t) / m;
    assert q * m <= m * t < q * m + m;
    if q < t {
      MulMonotone(q + 1, t, m);
    } else if q > t {
      MulMonotone(t + 1, q, m);
    }
  }

  /** The shorter side becomes exactly `target`, the longer one at least
      `target`, and the orientation of the image is kept. */
  lemma ResizeShorterSide(size: Size, target: nat)
    requires size.width > 0 && size.height > 0
    ensures ResizeKeepRatio(size, target).Ok?
    ensures var r := ResizeKeepRatio(size, target).value;
      Min(r.width, r.height) == target && Max(r.width, r.height) >= target &&
      (size.width <= size.height ==> r.width == target && r.width <= r.height) &&
      (size.height <= size.width ==> r.height == target && r.height <= r.width)
  {
    var m := Min(size.width, size.height);
    DivSelfMul(m, target);
    assert m * target == target * m;
    if size.width <= size.height {
      MulMonotone(size.width, size.height, target);
      DivMonotone(size.width * target, size.height * target, m);
    } else {
      MulMonotone(size.height, size.width, target);
      DivMonotone(size.height * target, size.width * target, m);
    }
  }

  /** center_crop: left = (width - crop) // 2 and top = (height - crop) // 2
      with Python's floor division, then right = left + crop and
      bottom = top + crop. The box is exactly crop x crop, and the margins
      on the two sides differ by the parity of the slack: an odd pixel goes
      to the right (or bottom) margin. */
  function CenterCrop(size: Size, crop: nat): (b: Box)
    ensures b.right - b.left == crop && b.bottom - b.top == crop
    ensures (size.width - b.right) - b.left == (size.width - crop) % 2
    ensures (size.height - b.bottom) - b.top == (size.height - crop) % 2
  {
    var left := FloorDiv(size.width - crop, 2);
    var top := FloorDiv(size.height - crop, 2);
    Box(left, top, left + crop, top + crop)
  }

  predicate Inside(b: Box, size: Size)
  {
    0 <= b.left && b.right <= size.width && 0 <= b.top && b.bottom <= size.height
  }

  /** The centre-crop box lies inside the image exactly when both sides are
      at least the crop size. */
  lemma CenterCropInside(size: Size, crop: nat)
    ensures Inside(CenterCrop(size, crop), size) <==> size.width >= crop && size.height >= crop
  {
  }

  /** The size of the image PIL's crop returns for a box. */
  function CroppedSize(b: Box): Size
    requires b.left <= b.right && b.top <= b.bottom
  {
    Size(b.right - b.left, b.bottom - b.top)
  }

  /** The geometry of preprocess: the resized size and the crop box. */
  function PreprocessGeometry(size: Size): Result<(Size, Box)>
  {
    match ResizeKeepRatio(size, ResizeTarget)
    case Err(e) => Err(e)
    case Ok(resized) => Ok((resized, CenterCrop(resized, CropSize)))
  }

  /** For every image with both sides positive the resized image has both
      sides at least 256, so the 224 x 224 crop box always lies inside it
      and the cropped image is exactly 224 x 224. Only a zero-length side
      fails, with the division by zero. */
  lemma PreprocessGeometryInBounds(size: Size)
    ensures PreprocessGeometry(size).Err? <==> size.width == 0 || size.height == 0
    ensures PreprocessGeometry(size).Ok? ==>
      var (resized, box) := PreprocessGeometry(size).value;
      resized.width >= ResizeTarget && resized.height >= ResizeTarget &&
      Inside(box, resized) && CroppedSize(box) == Size(CropSize, CropSize)
  {
    if size.width > 0 && size.height > 0 {
      ResizeShorterSide(size, ResizeTarget);
      var resized := ResizeKeepRatio(size, ResizeTarget).value;
      CenterCropInside(resized, CropSize);
    }
  }

  /** A 512 x 256 image keeps its size, since its shorter side is already
      256, and is cropped to the box (144, 16, 368, 240). */
  lemma PreprocessGeometryExample()
    ensures PreprocessGeometry(Size(512, 256)) == Ok((Size(512, 256), Box(144, 16, 368, 240)))
  {
    DivSelfMul(256, 512);
    DivSelfMul(256, 256);
    assert 512 * 256 == 256 * 512;
  }
}
