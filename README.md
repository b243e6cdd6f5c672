# Visual-odometry preview session, modelled in Dafny

The program reads frames from a video file and shows an annotated preview for each one.
For each frame it computes a grayscale image and an edge map, detects corners, turns them
into ORB keypoints and descriptors, matches them against the previous frame, and keeps
only the matches that RANSAC marks as inliers. The preview shows the keypoints and one
line per kept match. Every vision computation is one OpenCV call. The logic the program
owns is the per-frame session state machine in `src/main.rs`, and that is what this
project models:

- the two-frame rolling window (`previous_frame_state`, `current_frame_state`);
- the missing-frame guard of `filter`, `extract` and `visual_output`;
- the match bookkeeping of `extract`, which resolves matcher indices into keypoint pairs
  and keeps the RANSAC inliers;
- display-mode selection and keyboard dispatch, including the `halted` flag;
- the order of steps in one iteration of the main loop.

Files:

- `failures.dfy` (module `Failures`): the three kinds of error the session can meet.
  These are the `anyhow!` message, the out-of-range error of an OpenCV vector lookup, and
  any other OpenCV failure. The file also defines `Option`, `Result` and `Outcome`.
- `opencv.dfy` (module `OpenCv`): the OpenCV types the session touches, as opaque values.
  It also holds the record `Library`, with one total function per OpenCV call. A call's
  result is an input to the model, never computed by it. `i32`, `u8` and the
  float-to-`i32` cast are written out explicitly.
- `matching.dfy` (module `Matching`): match assembly, the unzip, and inlier filtering,
  with their lemmas.
- `session.dfy` (module `Session`): the frame state, the filter, extract and render
  stages as functions, and the class `State` whose methods update the session in place.
  It also holds `MatchKey`, one main-loop iteration `Step`, and `Run`, which drives the
  loop over a finite list of iterations.

The missing-frame guard tests the CURRENT frame, but its message reads
"No previous frame." in all three stages. The model keeps that text (`NO_FRAME_MESSAGE`).

A failing `?` leaves behind whatever the stage wrote before the failing call. For example,
`extract` stores the detected features, the seeded keypoints and empty descriptors before
the ORB call that can fail. When matching fails, the old match list stays. The contracts
of the stage functions `FilterFrame` and `ExtractFrame` state these partial states: a
failed Canny call keeps the new grayscale image, and a failed ORB call keeps the detected
features, the seeded keypoints and empty descriptors.

## Model

| member | source | states |
|---|---|---|
| `Session.State.constructor` | src/main.rs:94-110 | A new session has no previous frame, no current frame, no matches, the grayscale base and `halted` false. Its matcher uses the Hamming norm with cross-checking. |
| `Session.State.Input` | src/main.rs:112-122 | The current frame becomes a fresh frame state whose raw image is the input and whose derived fields are empty. Previous frame, matches, base and `halted` are unchanged. |
| `Session.State.Filter` | src/main.rs:124-133 | Fails with the "No previous frame." error exactly when there is no current frame. Otherwise the result and the new current frame are those of `FilterFrame`. Nothing else changes. |
| `Session.FilterFrame` | src/main.rs:130-131 | Filtering writes only the grayscale and edge images. It succeeds iff grayscale conversion of the raw image and Canny (60, 100, aperture 3, no L2) on the grayscale image both succeed; it then stores their outputs. Its failures are library errors. A failed grayscale conversion leaves the frame as it was; otherwise the grayscale image is stored even when Canny then fails, and a failed Canny leaves the edge image as it was. |
| `Session.State.Extract` | src/main.rs:135-235 | Fails with the "No previous frame." error exactly when there is no current frame. Otherwise the result, the new current frame and the match list are those of `ExtractFrame` against the previous frame. Previous frame, base and `halted` are unchanged. |
| `Session.ExtractFrame` | src/main.rs:141-232 | Extraction never changes the raw, grayscale or edge image. A failure keeps the old match list and is never the missing-frame error. On success the features are the detector's corners and the keypoints and descriptors come from ORB applied to the keypoints seeded from those corners. On success with no previous frame the match list is empty; with a previous frame it is the result of `MatchFrames` against it. Extraction succeeds iff corner detection succeeds, ORB succeeds on the seeded keypoints, and, when there is a previous frame, cross-frame matching succeeds. A failed detector leaves the frame as it was. A failed ORB call leaves the detected features, the seeded keypoints and empty descriptors. When both succeed, the features, keypoints and descriptors are their outputs. |
| `Session.Seeded` | src/main.rs:153-163 | One seeded keypoint per detected corner, in the same order. Each is centred on its corner, has size 20, angle 0, response 0, octave 0 and class id 0. |
| `Session.MatchFrames` | src/main.rs:170-229 | Cross-frame matching fails only with a library error or an out-of-range lookup error. It succeeds iff the matcher succeeds, every matcher result resolves to a keypoint pair, and `find_fundamental_mat` succeeds on the positions of the two halves. |
| `Session.MatchFramesKeepsInliers` | src/main.rs:183-229 | A successful cross-frame match keeps exactly the inlier matches in matcher order. The k-th kept match is the keypoint pair named by the matcher result at the k-th position whose RANSAC mask entry is greater than 0. |
| `Session.MatchFramesOutOfRange` | src/main.rs:194-202 | Matching fails with an out-of-range error exactly when the matcher succeeded and returned a result whose query index is not a current keypoint or whose train index is not a previous keypoint. |
| `Session.MatchFramesConnect` | src/main.rs:170-229 | Every kept match joins a keypoint of the current frame to a keypoint of the previous frame. There are no more kept matches than matcher results. |
| `Session.ExtractMatchesConnectFrames` | src/main.rs:170-232 | After a successful extract with a previous frame, every match joins a keypoint of the newly extracted frame to a keypoint of the previous frame. |
| `Matching.AssembleMatches` | src/main.rs:194-202 | Match assembly fails only with an out-of-range lookup error. |
| `Matching.AssembleMatchesCorrect` | src/main.rs:194-202 | Assembly succeeds iff every matcher result's indices, after the `as usize` cast, fall inside the current and previous keypoint lists. It then yields one `(current, previous)` pair per result, in matcher order. |
| `Matching.AssembleMatchesFirstError` | src/main.rs:194-202 | A failed assembly reports the error of the first unresolvable matcher result. The query index is checked before the train index. |
| `Matching.AssembleMatchesInBounds` | src/main.rs:195-198 | For keypoint lists shorter than 2^63, a negative `i32` index never resolves. Assembly then succeeds iff every `query_idx` is in `0..current` and every `train_idx` in `0..previous`, and pair k is `(current[query_idx], previous[train_idx])`. |
| `Matching.Unzip` | src/main.rs:203-204 | Both halves have the pairs' length and zip back to the pairs. |
| `Matching.Positions` | src/main.rs:209-210 | One RANSAC point per keypoint, in the same order: the k-th point is the position of the k-th keypoint. |
| `Matching.AsUsize` | src/main.rs:195-198 | The `as usize` cast of an `i32` index sign-extends. The result is below 2^64. It equals the index iff the index is not negative. A negative index becomes at least 2^64 - 2^31. |
| `Matching.Get` | src/main.rs:196-198 | A vector lookup succeeds iff the index is below the vector's length. It then yields the element at that index, and otherwise reports an out-of-range error naming the index and the length. |
| `Matching.FilterInliers` | src/main.rs:218-229 | The kept matches are no more than the current keypoints, the previous keypoints or the mask entries: the zip stops at the shortest. |
| `Matching.InliersFrom` | src/main.rs:218-229 | The listed positions lie in the range asked for, and there are no more of them than that range holds. |
| `Matching.InliersFromExact` | src/main.rs:218-229 | The listed positions are strictly increasing and are exactly the positions in range whose mask entry is greater than 0. |
| `Matching.FilterInliersSelects` | src/main.rs:218-229 | Inlier filtering yields exactly the matches at the positions below the shortest length whose mask entry is greater than 0, in order. |
| `Matching.FilterInliersAllInliers` | src/main.rs:218-229 | A mask that is positive everywhere keeps every zipped pair. |
| `Matching.FilterInliersNoInliers` | src/main.rs:218-229 | An all-zero mask keeps nothing. |
| `Matching.InlierMatchesResolve` | src/main.rs:183-229 | After assembly, unzip and filtering, the k-th kept match is the keypoint pair named by the matcher result at the k-th inlier position of the mask. |
| `Session.BaseImage` | src/main.rs:245-249 | The grayscale, edge or raw image of the frame, chosen by the display mode. |
| `Session.ToPixel` | src/main.rs:264-271 | A match endpoint becomes a pixel by the `as i32` cast of each coordinate. For a non-negative coordinate in range this is its floor. For a negative one in range it is the negation of the floor of its magnitude. |
| `Session.DrawMatches` | src/main.rs:261-277 | Drawing the match lines fails only with a library error. |
| `Session.RenderFrame` | src/main.rs:243-279 | A preview fails only with a library error. With no matches it is the keypoints drawn on the selected base image and nothing more. |
| `Session.State.VisualOutput` | src/main.rs:237-280 | Fails with the "No previous frame." error exactly when there is no current frame. Otherwise it is `RenderFrame` of the current frame with the selected base and the session's matches: keypoints in red, then one green line per match, in order. |
| `OpenCv.TruncateToI32` | src/main.rs:264-271 | The `as i32` cast of a keypoint coordinate truncates toward zero and saturates at the `i32` bounds. |
| `Session.State.ForwardFrameState` | src/main.rs:282-284 | The previous frame becomes the old current frame and no current frame remains. The old previous frame is discarded. Matches, base and `halted` are unchanged. |
| `Session.State.SelectVisualOutputBase` | src/main.rs:286-288 | Sets the base and changes nothing else. |
| `Session.MatchKey` | src/main.rs:57-68 | Escape, and only escape, ends the process. 'g', 'c' and 'o' select the grayscale, edge and raw base. `halted` becomes old `halted` or (key is space), so it is never cleared. The frames and the matches are unchanged. |
| `Session.Processed` | src/main.rs:36-40 | The frame one iteration processes keeps the raw image that was read. A failure to filter or extract it is never the missing-frame error. `Preview` renders this frame and `Advance` hands it on. |
| `Session.Preview` | src/main.rs:36-42 | What one iteration shows: the rendered preview, or the error that ends the process. A frame that could not be read yields that read's error. Otherwise the stages run in order (filter, extract against the previous frame with the held matches, render with the current base) and the first stage error is the result. The error is never the missing-frame error, because the loop stores the frame before the stages run. |
| `Session.Advance` | src/main.rs:46-53 | After an iteration that goes on, `halted` is the old flag or (key is space). When a frame was read, the previous frame is the one just processed, whose raw image is that frame. |
| `Session.Replay` | src/main.rs:35-54 | The reference main loop over a finite list of iterations. It shows at most one preview per iteration, and it is still running iff it showed one preview for every iteration. |
| `Session.ReplayFirst` | src/main.rs:35-54 | The same bounds for a run from its first iteration on: an iteration fails, exits, or shows its preview and hands on its progress. |
| `Session.ReplayOne` | src/main.rs:35-54 | One iteration: it crashes with the error of `Preview` when a stage fails. When the preview is rendered, it quits iff escape is the key or, when the session is halted after that key, escape is the pause key. Otherwise it shows the preview and hands on `Advance`'s progress. |
| `Session.ReplaySplit` | src/main.rs:35-54 | A run is its first iteration, followed by the rest of the run from the progress that iteration hands on, when it goes on. |
| `Session.ReplayOneAdvances` | src/main.rs:46-53 | An iteration that goes on hands on the progress of `Advance`. |
| `Session.After` | src/main.rs:46-53 | After `n` iterations that went on, `halted` is true iff it was at the start or one of those iterations' keys was space. When the n-th frame was read, it is the raw image of the previous frame. |
| `Session.ReplayLast` | src/main.rs:35-54 | A run holds the progress after exactly the iterations it completed. |
| `Session.ReplayIteration` | src/main.rs:35-54 | Iteration `j` of a run, started from the progress after the `j` iterations before it, goes on. It shows the run's `j`-th preview and leaves the progress after `j + 1` iterations. With `ReplayOne` this means every completed iteration passed every stage, rendered the run's `j`-th preview, and neither its key nor (when halted) its pause key was escape. |
| `Session.ReplayStops` | src/main.rs:35-54 | A run that stopped early stopped at the iteration after the last one it completed. That iteration, from the progress the run holds, crashes with the run's error or quits, and changes nothing. |
| `Session.Step` | src/main.rs:35-54 | One loop iteration in place on the session does what `Replay` does for that one iteration. It never clears `halted`, and a frame-read failure changes nothing. An iteration that goes on shows the reference preview and leaves the session's previous frame, matches, base and `halted` equal to the reference progress, with no current frame. An exit or a failure is the reference's quit or crash from the old progress. Neither changes the previous frame, and a failure also keeps the base and `halted`. |
| `Session.Run` | src/main.rs:33-54 | The loop runs on a newly created session with the default ORB detector and the Hamming cross-checking matcher. Over a finite list of iterations it ends as the reference `Replay` from the start progress with that detector and matcher, with the same previews. It stops at the first exit or failure. Its previous frame is the reference's. Unless it quit, its base and `halted` are the reference's. If it used up the list, the whole held progress is the reference's and no current frame remains. |
## Left out

- OpenCV computation: colour conversion, Canny, corner detection, ORB `compute`, brute-force matching, `find_fundamental_mat` and all drawing. Each is an uninterpreted total function in `OpenCv.Library`. The model uses only what a call returns, or the status code it raises.
- A failing OpenCV call is assumed to leave its output argument as it was. What OpenCV writes into an output argument before it raises is not modelled.
- Video decoding: the next frame, or the error that ends the stream, is a parameter of `Step`.
- The window: creating it, making it topmost, and `imshow` are not modelled. The keys that `wait_key(50)` and `wait_key(-1)` return are parameters; a failure of either call is not modelled. The startup message is left out.
- `std::process::exit(0)` becomes the `Exited` outcome of `Step` and the `Quit` end of `Run`.
- Session.State.constructor: the model's session cannot fail to be created; a failure to create the ORB detector or the brute-force matcher in `State::new` is not modelled.
- Session.Run: the source loop has no end. `Run` covers any finite prefix of its iterations and reports `Running` when the prefix is used up.
- Session.Seeded: keypoint coordinates are exact reals. The `i32`-to-`f32` rounding of corner coordinates beyond 2^24 is not modelled, and no other float arithmetic is either. The ORB keypoints' coordinates, angles and responses are carried, never computed with.
- Session.Seeded: `KeyPoint::new_point(...).unwrap()` panics if OpenCV fails to build the keypoint. The model treats that construction as total, so the panic path is not modelled.
- Matching.AsUsize: the cast assumes a 64-bit `usize`. On a 32-bit target a negative index still fails the lookup, but the index in the out-of-range error would differ.
- Session.Run: the run starts from `new State()`. The earlier `?` on `VideoFileSource::new` (src/main.rs:29) and on the window setup (src/main.rs:31-32) can end the program before the loop; those failures are not modelled.
- The fields of a matcher result that the code never reads (distance, image index) are not modelled.
- `plot.py` is a plotting script with no session logic, so it is not part of this model.
