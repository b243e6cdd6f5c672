/** The part of OpenCV the session touches, as opaque values and uninterpreted calls.
    Nothing here is computed: each library call is a total function supplied by the
    caller, so the session model can only use what the call returns. */
module OpenCv {

  /** Rust's `i32`, the type of key codes and of the matcher's indices. */
  newtype i32 = x: int | -0x8000_0000 <= x < 0x8000_0000

  /** Rust's `u8`, the element type of the RANSAC inlier mask. */
  newtype u8 = x: int | 0 <= x < 0x100

  /** An image matrix. `Empty` is `Mat::default()`; any other image is known only by
      an identity. */
  datatype Mat = Empty | Image(handle: nat)

  /** An integer pixel position, as found by the corner detector. */
  datatype Point = Point(x: i32, y: i32)

  /** A sub-pixel position. The coordinates are carried, never computed with. */
  datatype Point2f = Point2f(x: real, y: real)

  /** A keypoint: position, diameter, orientation, detector response, pyramid octave
      and class id. */
  datatype KeyPoint = KeyPoint(pt: Point2f, size: real, angle: real, response: real, octave: int, classId: int)

  /** One result of the descriptor matcher: the index of a descriptor in the query set
      (the current frame) and in the train set (the previous frame). The distance and
      image index of a match are never read, so they are not modelled. */
  datatype DMatch = DMatch(queryIdx: i32, trainIdx: i32)

  /** A colour, as four channel values. */
  datatype Scalar = Scalar(c0: real, c1: real, c2: real, c3: real)

  /** The result of a library call: its output, or the status code it raised. */
  datatype CvResult<+T> = Done(value: T) | Raised(code: int)

  datatype ColorConversion = BgrToGray

  datatype Norm = NormHamming

  /** The ORB feature detector/descriptor, created with its default parameters. */
  datatype Orb = OrbDefault

  /** A brute-force descriptor matcher: distance norm and whether matches must agree
      in both directions. */
  datatype Matcher = BruteForce(norm: Norm, crossCheck: bool)

  datatype CannyParams = CannyParams(threshold1: real, threshold2: real, apertureSize: int, l2Gradient: bool)

  datatype CornerParams = CornerParams(maxCorners: int, qualityLevel: real, minDistance: real, blockSize: int, useHarrisDetector: bool, k: real)

  datatype FundamentalMethod = FmRansac

  datatype RansacParams = RansacParams(fmMethod: FundamentalMethod, reprojThreshold: real, confidence: real, maxIters: int)

  datatype LineStyle = LineStyle(thickness: int, lineType: int, shift: int)

  /** The library calls the session makes, one field per call. Each is total: for any
      input it returns some image, list or mask, or raises. */
  datatype Library = Library(
    cvtColor: (Mat, ColorConversion) -> CvResult<Mat>,
    canny: (Mat, CannyParams) -> CvResult<Mat>,
    goodFeaturesToTrack: (Mat, CornerParams) -> CvResult<seq<Point>>,
    /** ORB's `compute`: may drop or adjust the keypoints it is given, and yields one
        descriptor row per keypoint it keeps. */
    orbCompute: (Orb, Mat, seq<KeyPoint>) -> CvResult<(seq<KeyPoint>, Mat)>,
    /** `train_match(query, train)` with an empty mask. */
    trainMatch: (Matcher, Mat, Mat) -> CvResult<seq<DMatch>>,
    /** `find_fundamental_mat`, reduced to the inlier mask it writes. */
    findFundamentalMat: (seq<Point2f>, seq<Point2f>, RansacParams) -> CvResult<seq<u8>>,
    drawKeypoints: (Mat, seq<KeyPoint>, Scalar) -> CvResult<Mat>,
    line: (Mat, Point, Point, Scalar, LineStyle) -> CvResult<Mat>
  )

  /** Rust's `r as i32` for a float: rounds toward zero and saturates at the bounds of
      `i32`. */
  function TruncateToI32(r: real): (v: i32)
    ensures 0.0 <= r < 2147483648.0 ==> v as real <= r < v as real + 1.0
    ensures -2147483648.0 <= r < 0.0 ==> v as real - 1.0 < r <= v as real
    ensures r >= 2147483648.0 ==> v == 0x7fff_ffff
    ensures r < -2147483648.0 ==> v == -0x8000_0000
  {
    if r >= 2147483648.0 then 0x7fff_ffff
    else if r < -2147483648.0 then -0x8000_0000
    else if r >= 0.0 then r.Floor as i32
    else (-((-r).Floor)) as i32
  }
}
