/**
 * Image buffers (OpenCV `cv::Mat` on the host, `cv::cuda::GpuMat` on the
 * device) reduced to what the controller's logic depends on: whether a buffer
 * is allocated, its size and element type, and where its contents came from.
 * Pixel values are never modelled; `Pixels` records which operations
 * produced a buffer's contents.
 */
module Mats {

  /** OpenCV element-type codes used by the controller. */
  const CV_8UC1: int := 0
  const CV_8UC3: int := 16

  datatype Shape = Shape(width: nat, height: nat, matType: int)

  /** Provenance of a buffer's contents. */
  datatype Pixels =
    | Uninitialized
    | CameraImage(id: nat)
    | FlippedHorizontally(Pixels)
    | RgbToGray(Pixels)
    | GrayToRgb(Pixels)
    | SobelHoriz(Pixels)
    | SobelVert(Pixels)
    | SaturatedSum(Pixels, Pixels)

  /** A default-constructed or released buffer, or an allocated one. */
  datatype Mat = EmptyMat | Mat(shape: Shape, pixels: Pixels)

  /** `size()` and `type()` of a buffer; an empty OpenCV matrix reports 0x0 and CV_8UC1. */
  function ShapeOf(m: Mat): (s: Shape)
    ensures m.EmptyMat? ==> s == Shape(0, 0, CV_8UC1)
    ensures m.Mat? ==> s == m.shape
  {
    match m
    case EmptyMat => Shape(0, 0, CV_8UC1)
    case Mat(shape, _) => shape
  }

  /** `empty()`: the buffer holds no elements. */
  predicate IsEmpty(m: Mat)
    ensures IsEmpty(m) <==> ShapeOf(m).width * ShapeOf(m).height == 0
  {
    m.EmptyMat? || m.shape.width == 0 || m.shape.height == 0
  }

  /** `cv::Mat(size, type)`, or `create` on a freshly reset `GpuMat`: new storage, contents undefined. */
  function Allocate(shape: Shape): (m: Mat)
    ensures m.Mat? && m.shape == shape && m.pixels == Uninitialized
  {
    Mat(shape, Uninitialized)
  }

  /**
   * `GpuMat::create(size, type)`: keeps the existing storage (and contents)
   * when it already has that size and type, otherwise allocates anew.
   */
  function Create(m: Mat, shape: Shape): (r: Mat)
    ensures r.Mat? && r.shape == shape
    ensures m.Mat? && m.shape == shape ==> r == m
    ensures !(m.Mat? && m.shape == shape) ==> r.pixels == Uninitialized
  {
    if m.Mat? && m.shape == shape then m else Allocate(shape)
  }

  /** A kernel writing into an existing device buffer: size and type stay, contents change. */
  function WriteInto(dst: Mat, p: Pixels): (r: Mat)
    requires dst.Mat?
    ensures r.Mat? && r.shape == dst.shape && r.pixels == p
  {
    Mat(dst.shape, p)
  }
}
