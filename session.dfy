/** The per-frame session: the two-frame rolling window, the filter, extract and render
    stages over it, the display-mode selection, keyboard dispatch and the main loop. */
module Session {
  import opened OpenCv
  import opened Failures
  import opened Matching

  /** Which image of the current frame the preview is drawn on. */
  datatype VisualOutputBase = Gray | Canny | Original

  /** Everything known about one frame: the raw image and what the stages derive from it. */
  datatype FrameState = FrameState(
    original: Mat,
    gray: Mat,
    canny: Mat,
    features: seq<Point>,
    keypoints: seq<KeyPoint>,
    descriptors: Mat)

  const SELECT_GRAY_OUTPUT: i32 := 103      // 'g'
  const SELECT_CANNY_OUTPUT: i32 := 99      // 'c'
  const SELECT_ORIGINAL_OUTPUT: i32 := 111  // 'o'
  const KEY_ESCAPE: i32 := 27
  const KEY_SPACE: i32 := 32

  /** The text of the missing-frame guard, the same in all three stages although the
      guard tests the current frame. */
  const NO_FRAME_MESSAGE: string := "No previous frame."
  const NO_FRAME: Error := Message(NO_FRAME_MESSAGE)

  const CANNY_PARAMS: CannyParams := CannyParams(60.0, 100.0, 3, false)
  const CORNER_PARAMS: CornerParams := CornerParams(3000, 0.01, 3.0, 3, false, 0.004)
  const KEYPOINT_SIZE: real := 20.0
  const RANSAC_PARAMS: RansacParams := RansacParams(FmRansac, 5.0, 0.1, 100)
  const KEYPOINT_COLOR: Scalar := Scalar(0.0, 0.0, 255.0, 255.0)
  const MATCH_COLOR: Scalar := Scalar(0.0, 255.0, 0.0, 255.0)
  const MATCH_LINE: LineStyle := LineStyle(1, 8, 0)

  /** A library result as the session sees it after `?`. */
  function Lift<T>(r: CvResult<T>): Result<T> {
    match r
    case Done(v) => Ok(v)
    case Raised(code) => Err(Cv(code))
  }

  /** The frame state `input` builds: the raw image, every derived field empty. */
  function FreshFrame(input: Mat): FrameState {
    FrameState(input, Empty, Empty, [], [], Empty)
  }

  // ----- filter -----

  /** What a stage leaves behind: its outcome and the frame as it wrote it. */
  datatype Stage = Stage(status: Outcome, frame: FrameState)

  /** The filter stage on a present frame: grayscale conversion of the raw image, then
      edge detection on the grayscale image. A failing call ends the stage, and what was
      written before it stays written. */
  function FilterFrame(cv: Library, f: FrameState): (s: Stage)
    ensures s.frame == f.(gray := s.frame.gray, canny := s.frame.canny)
    ensures s.status.Pass? <==> cv.cvtColor(f.original, BgrToGray).Done? && cv.canny(s.frame.gray, CANNY_PARAMS).Done?
    ensures s.status.Pass? ==> Ok(s.frame.gray) == Lift(cv.cvtColor(f.original, BgrToGray)) && Ok(s.frame.canny) == Lift(cv.canny(s.frame.gray, CANNY_PARAMS))
    ensures s.status.Fail? ==> s.status.error.Cv?
    ensures cv.cvtColor(f.original, BgrToGray).Raised? ==> s.frame == f
    ensures cv.cvtColor(f.original, BgrToGray).Done? ==> s.frame.gray == cv.cvtColor(f.original, BgrToGray).value
    ensures cv.canny(s.frame.gray, CANNY_PARAMS).Raised? ==> s.frame.canny == f.canny
  {
    match cv.cvtColor(f.original, BgrToGray)
    case Raised(code) => Stage(Fail(Cv(code)), f)
    case Done(gray) =>
      var g := f.(gray := gray);
      match cv.canny(gray, CANNY_PARAMS)
      case Raised(code) => Stage(Fail(Cv(code)), g)
      case Done(edges) => Stage(Pass, g.(canny := edges))
  }

  // ----- extract -----

  /** The keypoints seeded from the detected corners: one per corner, centred on it,
      of diameter 20, with zero angle, response, octave and class id. */
  function Seeded(features: seq<Point>): (r: seq<KeyPoint>)
    ensures |r| == |features|
    ensures forall k :: 0 <= k < |r| ==>
      && r[k].pt == Point2f(features[k].x as real, features[k].y as real)
      && r[k].size == KEYPOINT_SIZE
      && r[k].angle == 0.0 && r[k].response == 0.0 && r[k].octave == 0 && r[k].classId == 0
  {
    seq(|features|, k requires 0 <= k < |features| =>
      KeyPoint(Point2f(features[k].x as real, features[k].y as real), KEYPOINT_SIZE, 0.0, 0.0, 0, 0))
  }

  /** Cross-frame matching: match the current descriptors against the previous ones,
      resolve the results into keypoint pairs, estimate the inlier mask by RANSAC over the
      pair positions, and keep the inlier pairs. */
  function MatchFrames(cv: Library, bf: Matcher, previous: FrameState, current: FrameState): (r: Result<seq<Match>>)
    ensures r.Err? ==> r.error.Cv? || r.error.OutOfRange?
    ensures r.Ok? <==>
      var matched := cv.trainMatch(bf, current.descriptors, previous.descriptors);
      && matched.Done?
      && var assembled := AssembleMatches(matched.value, current.keypoints, previous.keypoints);
      && assembled.Ok?
      && var halves := Unzip(assembled.value);
      && cv.findFundamentalMat(Positions(halves.0), Positions(halves.1), RANSAC_PARAMS).Done?
  {
    var dms :- Lift(cv.trainMatch(bf, current.descriptors, previous.descriptors));
    var pairs :- AssembleMatches(dms, current.keypoints, previous.keypoints);
    var (cs, ps) := Unzip(pairs);
    var mask :- Lift(cv.findFundamentalMat(Positions(cs), Positions(ps), RANSAC_PARAMS));
    Ok(FilterInliers(cs, ps, mask))
  }

  /** What the extract stage leaves behind: its outcome, the current frame as it wrote
      it, and the session's match list. */
  datatype Extraction = Extraction(status: Outcome, frame: FrameState, matches: seq<Match>)

  /** The extract stage on a present current frame `f`: detect corners, seed keypoints
      from them, compute ORB descriptors (which may adjust the keypoints) and, when there
      is a previous frame, replace the match list by the inlier matches against it; with
      no previous frame the match list is cleared. A failing call ends the stage: the
      fields written before it stay written and the match list keeps its old value. */
  function ExtractFrame(cv: Library, orb: Orb, bf: Matcher, previous: Option<FrameState>, f: FrameState, matches: seq<Match>): (x: Extraction)
    ensures x.frame.original == f.original && x.frame.gray == f.gray && x.frame.canny == f.canny
    ensures x.status.Fail? ==> x.matches == matches && !x.status.error.Message?
    ensures x.status.Pass? ==>
      && cv.goodFeaturesToTrack(f.gray, CORNER_PARAMS) == Done(x.frame.features)
      && cv.orbCompute(orb, f.gray, Seeded(x.frame.features)) == Done((x.frame.keypoints, x.frame.descriptors))
    ensures x.status.Pass? && previous.None? ==> x.matches == []
    ensures x.status.Pass? && previous.Some? ==> MatchFrames(cv, bf, previous.value, x.frame) == Ok(x.matches)
    ensures x.status.Pass? <==>
      var detected := cv.goodFeaturesToTrack(f.gray, CORNER_PARAMS);
      && detected.Done?
      && cv.orbCompute(orb, f.gray, Seeded(detected.value)).Done?
      && (previous.Some? ==> MatchFrames(cv, bf, previous.value, x.frame).Ok?)
    ensures cv.goodFeaturesToTrack(f.gray, CORNER_PARAMS).Raised? ==> x.frame == f
    ensures
      var detected := cv.goodFeaturesToTrack(f.gray, CORNER_PARAMS);
      detected.Done? && cv.orbCompute(orb, f.gray, Seeded(detected.value)).Raised? ==>
        x.frame == f.(features := detected.value, keypoints := Seeded(detected.value), descriptors := Empty)
    ensures
      var detected := cv.goodFeaturesToTrack(f.gray, CORNER_PARAMS);
      detected.Done? && cv.orbCompute(orb, f.gray, Seeded(detected.value)).Done? ==>
        var computed := cv.orbCompute(orb, f.gray, Seeded(detected.value)).value;
        x.frame == f.(features := detected.value, keypoints := computed.0, descriptors := computed.1)
  {
    match cv.goodFeaturesToTrack(f.gray, CORNER_PARAMS)
    case Raised(code) => Extraction(Fail(Cv(code)), f, matches)
    case Done(features) =>
      var seeded := f.(features := features, keypoints := Seeded(features), descriptors := Empty);
      match cv.orbCompute(orb, f.gray, seeded.keypoints)
      case Raised(code) => Extraction(Fail(Cv(code)), seeded, matches)
      case Done(computed) =>
        var g := seeded.(keypoints := computed.0, descriptors := computed.1);
        match previous
        case None => Extraction(Pass, g, [])
        case Some(p) =>
          match MatchFrames(cv, bf, p, g)
          case Err(e) => Extraction(Fail(e), g, matches)
          case Ok(kept) => Extraction(Pass, g, kept)
  }

  /** Cross-frame matching fails with an out-of-range error exactly when the matcher
      returns a result whose query index is not a current keypoint or whose train index
      is not a previous keypoint. */
  lemma MatchFramesOutOfRange(cv: Library, bf: Matcher, previous: FrameState, current: FrameState)
    ensures var r := MatchFrames(cv, bf, previous, current);
      var matched := cv.trainMatch(bf, current.descriptors, previous.descriptors);
      (r.Err? && r.error.OutOfRange?) <==>
        (matched.Done? && exists k :: 0 <= k < |matched.value| && !Resolvable(matched.value[k], current.keypoints, previous.keypoints))
  {
    var matched := cv.trainMatch(bf, current.descriptors, previous.descriptors);
    if matched.Done? {
      AssembleMatchesCorrect(matched.value, current.keypoints, previous.keypoints);
    }
  }

  /** A successful cross-frame match keeps exactly the inlier matches, in matcher order:
      the `k`-th kept match is the keypoint pair named by the matcher result at the
      `k`-th position whose RANSAC mask entry is greater than 0. */
  lemma MatchFramesKeepsInliers(cv: Library, bf: Matcher, previous: FrameState, current: FrameState)
    ensures var r := MatchFrames(cv, bf, previous, current);
      r.Ok? ==>
        var dms := cv.trainMatch(bf, current.descriptors, previous.descriptors).value;
        var halves := Unzip(AssembleMatches(dms, current.keypoints, previous.keypoints).value);
        var mask := cv.findFundamentalMat(Positions(halves.0), Positions(halves.1), RANSAC_PARAMS).value;
        var positions := InliersFrom(mask, Min3(|dms|, |dms|, |mask|), 0);
        && |r.value| == |positions|
        && forall k :: 0 <= k < |r.value| ==>
             && positions[k] < |dms| && positions[k] < |mask| && mask[positions[k]] > 0
             && Resolvable(dms[positions[k]], current.keypoints, previous.keypoints)
             && (r.value[k].currentKeypoint, r.value[k].previousKeypoint)
                  == Resolve(dms[positions[k]], current.keypoints, previous.keypoints)
  {
    var r := MatchFrames(cv, bf, previous, current);
    if r.Ok? {
      var dms := cv.trainMatch(bf, current.descriptors, previous.descriptors).value;
      var halves := Unzip(AssembleMatches(dms, current.keypoints, previous.keypoints).value);
      var mask := cv.findFundamentalMat(Positions(halves.0), Positions(halves.1), RANSAC_PARAMS).value;
      assert r.value == FilterInliers(halves.0, halves.1, mask);
      InlierMatchesResolve(dms, current.keypoints, previous.keypoints, mask);
    }
  }

  /** Every kept match joins a keypoint of the current frame to a keypoint of the
      previous frame, and there are no more kept matches than matcher results. */
  lemma MatchFramesConnect(cv: Library, bf: Matcher, previous: FrameState, current: FrameState)
    ensures var r := MatchFrames(cv, bf, previous, current);
      r.Ok? ==>
        && cv.trainMatch(bf, current.descriptors, previous.descriptors).Done?
        && |r.value| <= |cv.trainMatch(bf, current.descriptors, previous.descriptors).value|
        && forall k :: 0 <= k < |r.value| ==>
             r.value[k].currentKeypoint in current.keypoints && r.value[k].previousKeypoint in previous.keypoints
  {
    var r := MatchFrames(cv, bf, previous, current);
    if r.Ok? {
      var dms := cv.trainMatch(bf, current.descriptors, previous.descriptors).value;
      var pairs := AssembleMatches(dms, current.keypoints, previous.keypoints).value;
      var (cs, ps) := Unzip(pairs);
      var mask := cv.findFundamentalMat(Positions(cs), Positions(ps), RANSAC_PARAMS).value;
      assert r.value == FilterInliers(cs, ps, mask);
      InlierMatchesResolve(dms, current.keypoints, previous.keypoints, mask);
      var positions := InliersFrom(mask, Min3(|dms|, |dms|, |mask|), 0);
      forall k | 0 <= k < |r.value|
        ensures r.value[k].currentKeypoint in current.keypoints && r.value[k].previousKeypoint in previous.keypoints
      {
        var dm := dms[positions[k]];
        assert AsUsize(dm.queryIdx) < |current.keypoints| && AsUsize(dm.trainIdx) < |previous.keypoints|;
        assert r.value[k].currentKeypoint == current.keypoints[AsUsize(dm.queryIdx)];
        assert r.value[k].previousKeypoint == previous.keypoints[AsUsize(dm.trainIdx)];
      }
    }
  }

  /** After a successful extract with a previous frame, every match joins a keypoint of
      the newly extracted current frame to a keypoint of the previous frame. */
  lemma ExtractMatchesConnectFrames(cv: Library, orb: Orb, bf: Matcher, p: FrameState, f: FrameState, matches: seq<Match>)
    ensures var x := ExtractFrame(cv, orb, bf, Some(p), f, matches);
      x.status.Pass? ==>
        forall k :: 0 <= k < |x.matches| ==>
          x.matches[k].currentKeypoint in x.frame.keypoints && x.matches[k].previousKeypoint in p.keypoints
  {
    var x := ExtractFrame(cv, orb, bf, Some(p), f, matches);
    if x.status.Pass? {
      MatchFramesConnect(cv, bf, p, x.frame);
    }
  }

  // ----- render -----

  /** The image the preview is drawn on: one of the frame's three images, chosen by the
      display mode alone. */
  function BaseImage(f: FrameState, base: VisualOutputBase): (m: Mat)
    ensures base == Gray ==> m == f.gray
    ensures base == Canny ==> m == f.canny
    ensures base == Original ==> m == f.original
  {
    match base
    case Gray => f.gray
    case Canny => f.canny
    case Original => f.original
  }

  /** The pixel a keypoint position is drawn at: each coordinate cast with `as i32`. */
  function ToPixel(p: Point2f): (q: Point)
    ensures 0.0 <= p.x < 2147483648.0 ==> q.x as int == p.x.Floor
    ensures 0.0 <= p.y < 2147483648.0 ==> q.y as int == p.y.Floor
    ensures -2147483648.0 <= p.x < 0.0 ==> q.x as int == -((-p.x).Floor)
    ensures -2147483648.0 <= p.y < 0.0 ==> q.y as int == -((-p.y).Floor)
  {
    Point(TruncateToI32(p.x), TruncateToI32(p.y))
  }

  /** Draw one line per match, in order, from the current keypoint to the previous one;
      the first failing draw ends the rendering. */
  function DrawMatches(cv: Library, image: Mat, matches: seq<Match>): (r: Result<Mat>)
    ensures r.Err? ==> r.error.Cv?
    decreases |matches|
  {
    if matches == [] then Ok(image)
    else
      match cv.line(image, ToPixel(matches[0].currentKeypoint.pt), ToPixel(matches[0].previousKeypoint.pt), MATCH_COLOR, MATCH_LINE)
      case Raised(code) => Err(Cv(code))
      case Done(next) => DrawMatches(cv, next, matches[1..])
  }

  /** The preview of a frame: its keypoints drawn on the selected base image, then a line
      per match. With no matches nothing but the keypoints is drawn. */
  function RenderFrame(cv: Library, f: FrameState, base: VisualOutputBase, matches: seq<Match>): (r: Result<Mat>)
    ensures r.Err? ==> r.error.Cv?
    ensures matches == [] ==> r == Lift(cv.drawKeypoints(BaseImage(f, base), f.keypoints, KEYPOINT_COLOR))
  {
    var withKeypoints :- Lift(cv.drawKeypoints(BaseImage(f, base), f.keypoints, KEYPOINT_COLOR));
    DrawMatches(cv, withKeypoints, matches)
  }

  // ----- keys -----

  /** The display base after `key` is dispatched. */
  function BaseAfterKey(base: VisualOutputBase, key: i32): VisualOutputBase {
    if key == SELECT_GRAY_OUTPUT then Gray
    else if key == SELECT_CANNY_OUTPUT then Canny
    else if key == SELECT_ORIGINAL_OUTPUT then Original
    else base
  }

  /** Whether dispatching a key lets the loop go on or ends the process. */
  datatype Control = Proceed | Exit

  // ----- the session -----

  class State {
    var previousFrameState: Option<FrameState>
    var currentFrameState: Option<FrameState>
    /** The ORB detector and the brute-force matcher the session owns. */
    const orb: Orb
    const bf: Matcher
    var matches: seq<Match>
    var visualOutputBase: VisualOutputBase
    var halted: bool

    /** A new session: no frames, no matches, the grayscale base, not halted; matching
        uses the Hamming norm with cross-checking. */
    constructor ()
      ensures previousFrameState == None && currentFrameState == None
      ensures matches == [] && visualOutputBase == Gray && !halted
      ensures orb == OrbDefault && bf == BruteForce(NormHamming, true)
    {
      previousFrameState := None;
      currentFrameState := None;
      orb := OrbDefault;
      bf := BruteForce(NormHamming, true);
      matches := [];
      visualOutputBase := Gray;
      halted := false;
    }

    /** Make a fresh frame state around `input` the current frame. */
    method Input(input: Mat)
      modifies this
      ensures currentFrameState == Some(FreshFrame(input))
      ensures previousFrameState == old(previousFrameState) && matches == old(matches)
      ensures visualOutputBase == old(visualOutputBase) && halted == old(halted)
    {
      currentFrameState := Some(FreshFrame(input));
    }

    /** The filter stage. Fails with the missing-frame error exactly when there is no
        current frame; otherwise it is `FilterFrame` on the current frame. */
    method Filter(cv: Library) returns (r: Outcome)
      modifies this
      ensures r == Fail(NO_FRAME) <==> old(currentFrameState).None?
      ensures old(currentFrameState).None? ==> currentFrameState == None
      ensures old(currentFrameState).Some? ==>
        var s := FilterFrame(cv, old(currentFrameState).value);
        r == s.status && currentFrameState == Some(s.frame)
      ensures previousFrameState == old(previousFrameState) && matches == old(matches)
      ensures visualOutputBase == old(visualOutputBase) && halted == old(halted)
    {
      if currentFrameState.None? {
        return Fail(NO_FRAME);
      }
      var frame := currentFrameState.value;
      var converted := cv.cvtColor(frame.original, BgrToGray);
      if converted.Raised? {
        return Fail(Cv(converted.code));
      }
      frame := frame.(gray := converted.value);
      currentFrameState := Some(frame);
      var edges := cv.canny(frame.gray, CANNY_PARAMS);
      if edges.Raised? {
        return Fail(Cv(edges.code));
      }
      currentFrameState := Some(frame.(canny := edges.value));
      r := Pass;
    }

    /** The extract stage. Fails with the missing-frame error exactly when there is no
        current frame; otherwise it is `ExtractFrame` on the current frame, against the
        previous frame if there is one. */
    method Extract(cv: Library) returns (r: Outcome)
      modifies this
      ensures r == Fail(NO_FRAME) <==> old(currentFrameState).None?
      ensures old(currentFrameState).None? ==> currentFrameState == None && matches == old(matches)
      ensures old(currentFrameState).Some? ==>
        var x := ExtractFrame(cv, orb, bf, previousFrameState, old(currentFrameState).value, old(matches));
        r == x.status && currentFrameState == Some(x.frame) && matches == x.matches
      ensures previousFrameState == old(previousFrameState)
      ensures visualOutputBase == old(visualOutputBase) && halted == old(halted)
    {
      if currentFrameState.None? {
        return Fail(NO_FRAME);
      }
      var frame := currentFrameState.value;
      var detected := cv.goodFeaturesToTrack(frame.gray, CORNER_PARAMS);
      if detected.Raised? {
        return Fail(Cv(detected.code));
      }
      frame := frame.(features := detected.value, keypoints := Seeded(detected.value), descriptors := Empty);
      currentFrameState := Some(frame);
      var computed := cv.orbCompute(orb, frame.gray, frame.keypoints);
      if computed.Raised? {
        return Fail(Cv(computed.code));
      }
      frame := frame.(keypoints := computed.value.0, descriptors := computed.value.1);
      currentFrameState := Some(frame);
      if previousFrameState.Some? {
        var kept := MatchFrames(cv, bf, previousFrameState.value, frame);
        if kept.Err? {
          return Fail(kept.error);
        }
        matches := kept.value;
      } else {
        matches := [];
      }
      r := Pass;
    }

    /** The preview of the current frame. Fails with the missing-frame error exactly when
        there is no current frame; otherwise it is `RenderFrame` of the current frame with
        the selected base and the session's matches. */
    method VisualOutput(cv: Library) returns (r: Result<Mat>)
      ensures r == Err(NO_FRAME) <==> currentFrameState.None?
      ensures currentFrameState.Some? ==> r == RenderFrame(cv, currentFrameState.value, visualOutputBase, matches)
    {
      if currentFrameState.None? {
        return Err(NO_FRAME);
      }
      var frame := currentFrameState.value;
      var selected;
      match visualOutputBase {
        case Gray => selected := frame.gray;
        case Canny => selected := frame.canny;
        case Original => selected := frame.original;
      }
      var drawn := cv.drawKeypoints(selected, frame.keypoints, KEYPOINT_COLOR);
      if drawn.Raised? {
        return Err(Cv(drawn.code));
      }
      var output := drawn.value;
      var i := 0;
      while i < |matches|
        invariant 0 <= i <= |matches|
        invariant DrawMatches(cv, drawn.value, matches) == DrawMatches(cv, output, matches[i..])
      {
        var m := matches[i];
        assert matches[i..][1..] == matches[i + 1..];
        var next := cv.line(output, ToPixel(m.currentKeypoint.pt), ToPixel(m.previousKeypoint.pt), MATCH_COLOR, MATCH_LINE);
        if next.Raised? {
          return Err(Cv(next.code));
        }
        output := next.value;
        i := i + 1;
      }
      r := Ok(output);
    }

    /** Rotate the window: the current frame becomes the previous one, the old previous
        frame is dropped and no current frame is left. */
    method ForwardFrameState()
      modifies this
      ensures previousFrameState == old(currentFrameState) && currentFrameState == None
      ensures matches == old(matches) && visualOutputBase == old(visualOutputBase) && halted == old(halted)
    {
      previousFrameState := currentFrameState;
      currentFrameState := None;
    }

    /** The part of the session that one loop iteration hands to the next. */
    function Held(): Progress
      reads this
    {
      Progress(previousFrameState, matches, visualOutputBase, halted)
    }

    /** Select the base image of later previews. */
    method SelectVisualOutputBase(base: VisualOutputBase)
      modifies this
      ensures visualOutputBase == base
      ensures previousFrameState == old(previousFrameState) && currentFrameState == old(currentFrameState)
      ensures matches == old(matches) && halted == old(halted)
    {
      visualOutputBase := base;
    }
  }

  /** Keyboard dispatch: escape ends the process; 'g', 'c' and 'o' select the grayscale,
      edge and raw base; space sets the halted flag, which nothing clears; any other key
      (including "no key", -1) does nothing. */
  method MatchKey(state: State, key: i32) returns (c: Control)
    modifies state
    ensures c == Exit <==> key == KEY_ESCAPE
    ensures state.visualOutputBase == BaseAfterKey(old(state.visualOutputBase), key)
    ensures state.halted == (old(state.halted) || key == KEY_SPACE)
    ensures state.previousFrameState == old(state.previousFrameState)
    ensures state.currentFrameState == old(state.currentFrameState)
    ensures state.matches == old(state.matches)
  {
    if key == KEY_ESCAPE {
      return Exit;
    } else if key == SELECT_GRAY_OUTPUT {
      state.SelectVisualOutputBase(Gray);
    } else if key == SELECT_CANNY_OUTPUT {
      state.SelectVisualOutputBase(Canny);
    } else if key == SELECT_ORIGINAL_OUTPUT {
      state.SelectVisualOutputBase(Original);
    } else if key == KEY_SPACE {
      state.halted := true;
    }
    c := Proceed;
  }

  // ----- the main loop -----

  /** How one iteration of the main loop ends: the preview it showed, the process exiting
      on escape, or an error that ends the process. */
  datatype StepOutcome = Continue(shown: Mat) | Exited | Failed(error: Error)

  /** What one iteration is given: the video source's next frame and the two key waits. */
  datatype Tick = Tick(frame: CvResult<Mat>, key: i32, pausedKey: i32)

  /** The part of the session that one iteration hands to the next: the previous frame,
      the match list, the display mode and the pause flag. */
  datatype Progress = Progress(previous: Option<FrameState>, matches: seq<Match>, base: VisualOutputBase, halted: bool)

  /** The progress of a new session. */
  const START: Progress := Progress(None, [], Gray, false)

  /** The frame and match list one iteration on `image` produces from progress `p`: the
      fresh frame is filtered and, when filtering passes, extracted against the previous
      frame with the held matches. */
  function Processed(cv: Library, orb: Orb, bf: Matcher, p: Progress, image: Mat): (x: Extraction)
    ensures x.status.Fail? ==> !x.status.error.Message?
    ensures x.frame.original == image
  {
    var filtered := FilterFrame(cv, FreshFrame(image));
    if filtered.status.Fail? then Extraction(filtered.status, filtered.frame, p.matches)
    else ExtractFrame(cv, orb, bf, p.previous, filtered.frame, p.matches)
  }

  /** What one loop iteration on `frame` shows from progress `p`: the rendered preview, or
      the error that ends the process. That error is the frame read's own, else that of
      the first stage (filter, extract, render) that fails. */
  function Preview(cv: Library, orb: Orb, bf: Matcher, p: Progress, frame: CvResult<Mat>): (r: Result<Mat>)
    ensures r.Err? ==> !r.error.Message?
    ensures frame.Raised? ==> r == Err(Cv(frame.code))
  {
    match frame
    case Raised(code) => Err(Cv(code))
    case Done(image) =>
      var processed := Processed(cv, orb, bf, p, image);
      if processed.status.Fail? then Err(processed.status.error)
      else RenderFrame(cv, processed.frame, p.base, processed.matches)
  }

  /** Whether the keys of an iteration end the process: escape within the wait, or, when
      the session is halted after that key, escape as the key that ends the pause. */
  predicate ExitRequested(halted: bool, key: i32, pausedKey: i32) {
    key == KEY_ESCAPE || ((halted || key == KEY_SPACE) && pausedKey == KEY_ESCAPE)
  }

  /** The progress after an iteration on `t` that goes on: the frame and the matches the
      iteration processed, which are those `Preview` renders, are kept, and the keys update
      the display mode and the pause flag. A frame that could not be read ends the loop, so
      it leaves the previous frame and the matches as they were. */
  function Advance(cv: Library, orb: Orb, bf: Matcher, p: Progress, t: Tick): (q: Progress)
    ensures q.halted == (p.halted || t.key == KEY_SPACE)
    ensures t.frame.Done? ==> q.previous.Some? && q.previous.value.original == t.frame.value
  {
    var halted := p.halted || t.key == KEY_SPACE;
    var base := BaseAfterKey(p.base, t.key);
    var base := if halted then BaseAfterKey(base, t.pausedKey) else base;
    match t.frame
    case Raised(_) => Progress(p.previous, p.matches, base, halted)
    case Done(image) =>
      var processed := Processed(cv, orb, bf, p, image);
      Progress(Some(processed.frame), processed.matches, base, halted)
  }

  /** How a run of the main loop over a finite prefix of its iterations ends. */
  datatype SessionEnd = Running | Quit | Crashed(error: Error)

  /** What a run of the main loop produces: how it ended, the previews shown, and the
      progress held when it stopped. */
  datatype Replayed = Replayed(end: SessionEnd, shown: seq<Mat>, last: Progress)

  /** The main loop over `ticks` from progress `p`, as a reference definition. It runs
      until `ticks` is used up, or until an iteration fails or exits. */
  function Replay(cv: Library, orb: Orb, bf: Matcher, p: Progress, ticks: seq<Tick>): (r: Replayed)
    ensures |r.shown| <= |ticks|
    ensures r.end.Running? <==> |r.shown| == |ticks|
    decreases |ticks|, 1
  {
    if ticks == [] then Replayed(Running, [], p) else ReplayFirst(cv, orb, bf, p, ticks)
  }

  /** The main loop from its first iteration on: that iteration fails, exits, or shows its
      preview and hands its progress to the rest of the loop. */
  function ReplayFirst(cv: Library, orb: Orb, bf: Matcher, p: Progress, ticks: seq<Tick>): (r: Replayed)
    requires ticks != []
    ensures |r.shown| <= |ticks|
    ensures r.end.Running? <==> |r.shown| == |ticks|
    decreases |ticks|, 0
  {
    match Preview(cv, orb, bf, p, ticks[0].frame)
    case Err(error) => Replayed(Crashed(error), [], p)
    case Ok(image) =>
      if ExitRequested(p.halted, ticks[0].key, ticks[0].pausedKey) then Replayed(Quit, [], p)
      else
        var rest := Replay(cv, orb, bf, Advance(cv, orb, bf, p, ticks[0]), ticks[1..]);
        Replayed(rest.end, [image] + rest.shown, rest.last)
  }

  /** One iteration of the reference loop: it fails with the error of `Preview`, or, when
      the preview is rendered, quits if the keys ask to exit and otherwise shows the preview
      and goes on with the progress `Advance` computes. */
  lemma ReplayOne(cv: Library, orb: Orb, bf: Matcher, p: Progress, t: Tick)
    ensures Replay(cv, orb, bf, p, [t]) ==
      match Preview(cv, orb, bf, p, t.frame)
      case Err(error) => Replayed(Crashed(error), [], p)
      case Ok(image) =>
        if ExitRequested(p.halted, t.key, t.pausedKey) then Replayed(Quit, [], p)
        else Replayed(Running, [image], Advance(cv, orb, bf, p, t))
  {
    assert [t][0] == t && [t][1..] == [];
    assert Replay(cv, orb, bf, p, [t]) == ReplayFirst(cv, orb, bf, p, [t]);
    var shown := Preview(cv, orb, bf, p, t.frame);
    if shown.Ok? && !ExitRequested(p.halted, t.key, t.pausedKey) {
      var rest := Replay(cv, orb, bf, Advance(cv, orb, bf, p, t), []);
      assert rest == Replayed(Running, [], Advance(cv, orb, bf, p, t));
    }
  }

  /** A run is its first iteration followed, when that iteration goes on, by the rest of
      the run from the progress it hands on. */
  lemma ReplaySplit(cv: Library, orb: Orb, bf: Matcher, p: Progress, ticks: seq<Tick>)
    requires ticks != []
    ensures var first := Replay(cv, orb, bf, p, [ticks[0]]);
      Replay(cv, orb, bf, p, ticks) ==
        if first.end.Running? then
          var rest := Replay(cv, orb, bf, first.last, ticks[1..]);
          Replayed(rest.end, first.shown + rest.shown, rest.last)
        else first
  {
    ReplayOne(cv, orb, bf, p, ticks[0]);
  }

  /** The progress from `p` after the first `n` iterations of `ticks` all went on. */
  function After(cv: Library, orb: Orb, bf: Matcher, p: Progress, ticks: seq<Tick>, n: nat): (q: Progress)
    requires n <= |ticks|
    ensures q.halted == (p.halted || exists j :: 0 <= j < n && ticks[j].key == KEY_SPACE)
    ensures n > 0 && ticks[n - 1].frame.Done? ==>
      q.previous.Some? && q.previous.value.original == ticks[n - 1].frame.value
    decreases n
  {
    if n == 0 then p
    else
      var q := After(cv, orb, bf, Advance(cv, orb, bf, p, ticks[0]), ticks[1..], n - 1);
      assert forall j :: 1 <= j < n ==> ticks[j] == ticks[1..][j - 1];
      q
  }

  /** A run holds the progress of the iterations it completed. */
  lemma {:induction false} ReplayLast(cv: Library, orb: Orb, bf: Matcher, p: Progress, ticks: seq<Tick>)
    ensures var r := Replay(cv, orb, bf, p, ticks);
      r.last == After(cv, orb, bf, p, ticks, |r.shown|)
    decreases |ticks|
  {
    if ticks != [] {
      ReplaySplit(cv, orb, bf, p, ticks);
      var first := Replay(cv, orb, bf, p, [ticks[0]]);
      if first.end.Running? {
        ReplayOneAdvances(cv, orb, bf, p, ticks[0]);
        ReplayLast(cv, orb, bf, Advance(cv, orb, bf, p, ticks[0]), ticks[1..]);
      }
    }
  }

  /** An iteration that goes on hands on the progress `Advance` computes. */
  lemma ReplayOneAdvances(cv: Library, orb: Orb, bf: Matcher, p: Progress, t: Tick)
    requires Replay(cv, orb, bf, p, [t]).end.Running?
    ensures Replay(cv, orb, bf, p, [t]).last == Advance(cv, orb, bf, p, t)
  {
    ReplayOne(cv, orb, bf, p, t);
  }

  /** A run, iteration by iteration: iteration `j`, started from the progress the
      iterations before it left, goes on, shows the `j`-th preview of the run and leaves
      the progress after `j + 1` iterations. */
  lemma {:induction false} ReplayIteration(cv: Library, orb: Orb, bf: Matcher, p: Progress, ticks: seq<Tick>, j: nat)
    requires j < |Replay(cv, orb, bf, p, ticks).shown|
    ensures Replay(cv, orb, bf, After(cv, orb, bf, p, ticks, j), [ticks[j]]) ==
      Replayed(Running, [Replay(cv, orb, bf, p, ticks).shown[j]], After(cv, orb, bf, p, ticks, j + 1))
    decreases j
  {
    var r := Replay(cv, orb, bf, p, ticks);
    ReplaySplit(cv, orb, bf, p, ticks);
    var first := Replay(cv, orb, bf, p, [ticks[0]]);
    assert first.end.Running?;
    ReplayOneAdvances(cv, orb, bf, p, ticks[0]);
    var next := Advance(cv, orb, bf, p, ticks[0]);
    var rest := Replay(cv, orb, bf, next, ticks[1..]);
    assert r.shown == first.shown + rest.shown;
    if j == 0 {
      assert After(cv, orb, bf, p, ticks, 1) == After(cv, orb, bf, next, ticks[1..], 0);
    } else {
      ReplayIteration(cv, orb, bf, next, ticks[1..], j - 1);
      assert ticks[j] == ticks[1..][j - 1];
      assert After(cv, orb, bf, p, ticks, j) == After(cv, orb, bf, next, ticks[1..], j - 1);
      assert After(cv, orb, bf, p, ticks, j + 1) == After(cv, orb, bf, next, ticks[1..], j);
    }
  }

  /** Why a run stops early: the iteration after the last one it completed, started from
      the progress the run holds, crashes with the run's error or quits, and leaves that
      progress as it was. */
  lemma {:induction false} ReplayStops(cv: Library, orb: Orb, bf: Matcher, p: Progress, ticks: seq<Tick>)
    ensures var r := Replay(cv, orb, bf, p, ticks);
      !r.end.Running? ==> Replay(cv, orb, bf, r.last, [ticks[|r.shown|]]) == Replayed(r.end, [], r.last)
    decreases |ticks|
  {
    if ticks != [] {
      var r := Replay(cv, orb, bf, p, ticks);
      ReplaySplit(cv, orb, bf, p, ticks);
      var first := Replay(cv, orb, bf, p, [ticks[0]]);
      if first.end.Running? {
        ReplayOneAdvances(cv, orb, bf, p, ticks[0]);
        var next := Advance(cv, orb, bf, p, ticks[0]);
        ReplayStops(cv, orb, bf, next, ticks[1..]);
        var rest := Replay(cv, orb, bf, next, ticks[1..]);
        if !rest.end.Running? {
          assert ticks[|r.shown|] == ticks[1..][|rest.shown|];
        }
      } else {
        ReplayOne(cv, orb, bf, p, ticks[0]);
      }
    }
  }

  /** One iteration of the main loop: read a frame, filter, extract, render, dispatch the
      key pressed within the wait (and, when halted, the key that ends the pause), then
      rotate the window. `frame`, `key` and `pausedKey` are what the video source and the
      two waits deliver. */
  method Step(state: State, cv: Library, frame: CvResult<Mat>, key: i32, pausedKey: i32) returns (r: StepOutcome)
    modifies state
    ensures old(state.halted) ==> state.halted
    ensures frame.Raised? ==> r == Failed(Cv(frame.code)) && unchanged(state)
    ensures var replayed := Replay(cv, state.orb, state.bf, old(state.Held()), [Tick(frame, key, pausedKey)]);
      match r
      case Continue(shown) =>
        && replayed == Replayed(Running, [shown], state.Held())
        && state.currentFrameState == None
      case Exited =>
        && replayed == Replayed(Quit, [], old(state.Held()))
        && state.previousFrameState == old(state.previousFrameState)
      case Failed(error) =>
        && replayed == Replayed(Crashed(error), [], old(state.Held()))
        && state.previousFrameState == old(state.previousFrameState)
        && state.visualOutputBase == old(state.visualOutputBase)
        && state.halted == old(state.halted)
  {
    ReplayOne(cv, state.orb, state.bf, state.Held(), Tick(frame, key, pausedKey));
    if frame.Raised? {
      return Failed(Cv(frame.code));
    }
    state.Input(frame.value);
    var filtered := state.Filter(cv);
    if filtered.Fail? {
      return Failed(filtered.error);
    }
    var extracted := state.Extract(cv);
    if extracted.Fail? {
      return Failed(extracted.error);
    }
    var output := state.VisualOutput(cv);
    if output.Err? {
      return Failed(output.error);
    }
    var c := MatchKey(state, key);
    if c == Exit {
      return Exited;
    }
    if state.halted {
      c := MatchKey(state, pausedKey);
      if c == Exit {
        return Exited;
      }
    }
    state.ForwardFrameState();
    r := Continue(output.value);
  }

  /** The main loop over the iterations in `ticks`, from a new session: it stops at the
      first iteration that exits or fails. Returns the session, how the run ended and the
      previews shown, one per completed iteration. */
  method Run(cv: Library, ticks: seq<Tick>) returns (state: State, end: SessionEnd, shown: seq<Mat>)
    ensures fresh(state) && state.orb == OrbDefault && state.bf == BruteForce(NormHamming, true)
    ensures var r := Replay(cv, state.orb, state.bf, START, ticks);
      && end == r.end
      && shown == r.shown
      && state.previousFrameState == r.last.previous
      && (!end.Quit? ==> state.visualOutputBase == r.last.base && state.halted == r.last.halted)
      && (end.Running? ==> state.Held() == r.last && state.currentFrameState.None?)
  {
    state := new State();
    shown := [];
    end := Running;
    ghost var whole := Replay(cv, state.orb, state.bf, START, ticks);
    while |shown| < |ticks|
      invariant |shown| <= |ticks|
      invariant state.currentFrameState.None?
      invariant
        var rest := Replay(cv, state.orb, state.bf, state.Held(), ticks[|shown|..]);
        whole == Replayed(rest.end, shown + rest.shown, rest.last)
    {
      var t := ticks[|shown|];
      ghost var before := state.Held();
      assert ticks[|shown|..][0] == t && ticks[|shown|..][1..] == ticks[|shown| + 1..];
      assert Tick(t.frame, t.key, t.pausedKey) == t;
      ReplaySplit(cv, state.orb, state.bf, before, ticks[|shown|..]);
      var r := Step(state, cv, t.frame, t.key, t.pausedKey);
      match r {
        case Continue(image) =>
          ghost var rest := Replay(cv, state.orb, state.bf, state.Held(), ticks[|shown| + 1..]);
          assert shown + ([image] + rest.shown) == (shown + [image]) + rest.shown;
          shown := shown + [image];
        case Exited =>
          end := Quit;
          break;
        case Failed(error) =>
          end := Crashed(error);
          break;
      }
    }
  }
}
