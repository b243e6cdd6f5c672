/** Match bookkeeping of the extract stage: resolving the matcher's index pairs into
    keypoint pairs, splitting them into two lists, and keeping only the pairs the
    RANSAC mask marks as inliers. */
module Matching {
  import opened OpenCv
  import opened Failures

  /** A current-frame keypoint paired with the previous-frame keypoint it matched. */
  datatype Match = Match(currentKeypoint: KeyPoint, previousKeypoint: KeyPoint)

  const USIZE_MODULUS: int := 0x1_0000_0000_0000_0000

  /** Rust's `i as usize` for an `i32` on a 64-bit target: a non-negative value is kept,
      a negative one is sign-extended, that is, wraps to 2^64 + i. */
  function AsUsize(i: i32): (u: nat)
    ensures u < USIZE_MODULUS
    ensures u == i as int <==> i >= 0
    ensures i < 0 ==> u >= USIZE_MODULUS - 0x8000_0000
  {
    if i >= 0 then i as int else USIZE_MODULUS + i as int
  }

  /** `VectorOfKeyPoint::get`: the element at `index`, or an out-of-range error. */
  function Get(v: seq<KeyPoint>, index: nat): (r: Result<KeyPoint>)
    ensures r.Ok? <==> index < |v|
    ensures r.Ok? ==> r.value == v[index]
    ensures r.Err? ==> r.error == OutOfRange(index, |v|)
  {
    if index < |v| then Ok(v[index]) else Err(OutOfRange(index, |v|))
  }

  /** Both indices of `dm`, cast as the code casts them, fall inside their lists. */
  predicate Resolvable(dm: DMatch, current: seq<KeyPoint>, previous: seq<KeyPoint>) {
    AsUsize(dm.queryIdx) < |current| && AsUsize(dm.trainIdx) < |previous|
  }

  /** The error the lookup of an unresolvable `dm` reports: the query index is looked
      up first. */
  function LookupError(dm: DMatch, current: seq<KeyPoint>, previous: seq<KeyPoint>): Error {
    if AsUsize(dm.queryIdx) < |current| then OutOfRange(AsUsize(dm.trainIdx), |previous|)
    else OutOfRange(AsUsize(dm.queryIdx), |current|)
  }

  /** The `(current, previous)` keypoint pair that `dm` names. */
  function Resolve(dm: DMatch, current: seq<KeyPoint>, previous: seq<KeyPoint>): (KeyPoint, KeyPoint)
    requires Resolvable(dm, current, previous)
  {
    (current[AsUsize(dm.queryIdx)], previous[AsUsize(dm.trainIdx)])
  }

  /** Match assembly: each matcher result becomes the pair of keypoints it indexes, in
      matcher order; the first lookup that fails ends the assembly with its error. */
  function AssembleMatches(dms: seq<DMatch>, current: seq<KeyPoint>, previous: seq<KeyPoint>): (r: Result<seq<(KeyPoint, KeyPoint)>>)
    ensures r.Err? ==> r.error.OutOfRange?
  {
    if dms == [] then Ok([])
    else
      var c :- Get(current, AsUsize(dms[0].queryIdx));
      var p :- Get(previous, AsUsize(dms[0].trainIdx));
      var rest :- AssembleMatches(dms[1..], current, previous);
      Ok([(c, p)] + rest)
  }

  /** Assembly succeeds exactly when every matcher result is resolvable, and then it
      yields one pair per result, in matcher order. */
  lemma {:induction false} AssembleMatchesCorrect(dms: seq<DMatch>, current: seq<KeyPoint>, previous: seq<KeyPoint>)
    ensures AssembleMatches(dms, current, previous).Ok? <==> forall k :: 0 <= k < |dms| ==> Resolvable(dms[k], current, previous)
    ensures AssembleMatches(dms, current, previous).Ok? ==>
      var pairs := AssembleMatches(dms, current, previous).value;
      |pairs| == |dms| && forall k :: 0 <= k < |dms| ==> Resolvable(dms[k], current, previous) && pairs[k] == Resolve(dms[k], current, previous)
  {
    if dms != [] {
      AssembleMatchesCorrect(dms[1..], current, previous);
      assert forall k :: 1 <= k < |dms| ==> dms[k] == dms[1..][k - 1];
    }
  }

  /** When assembly fails, its error is the lookup error of the first unresolvable
      matcher result. */
  lemma {:induction false} AssembleMatchesFirstError(dms: seq<DMatch>, current: seq<KeyPoint>, previous: seq<KeyPoint>)
    requires AssembleMatches(dms, current, previous).Err?
    ensures exists k ::
      && 0 <= k < |dms|
      && !Resolvable(dms[k], current, previous)
      && (forall j :: 0 <= j < k ==> Resolvable(dms[j], current, previous))
      && AssembleMatches(dms, current, previous).error == LookupError(dms[k], current, previous)
  {
    if Resolvable(dms[0], current, previous) {
      AssembleMatchesFirstError(dms[1..], current, previous);
      var k :| 0 <= k < |dms[1..]| && !Resolvable(dms[1..][k], current, previous)
        && (forall j :: 0 <= j < k ==> Resolvable(dms[1..][j], current, previous))
        && AssembleMatches(dms[1..], current, previous).error == LookupError(dms[1..][k], current, previous);
      assert forall j :: 1 <= j < k + 1 ==> dms[j] == dms[1..][j - 1];
      assert !Resolvable(dms[k + 1], current, previous);
    } else {
      assert !Resolvable(dms[0], current, previous);
    }
  }

  /** The source-level reading of assembly: while neither keypoint list is anywhere near
      2^63 long, a negative index never resolves, so assembly succeeds exactly when
      every `query_idx` lies in `0 .. |current|` and every `train_idx` in
      `0 .. |previous|`. */
  lemma {:induction false} AssembleMatchesInBounds(dms: seq<DMatch>, current: seq<KeyPoint>, previous: seq<KeyPoint>)
    requires |current| <= 0x8000_0000_0000_0000 && |previous| <= 0x8000_0000_0000_0000
    ensures AssembleMatches(dms, current, previous).Ok? <==>
      forall k :: 0 <= k < |dms| ==> 0 <= dms[k].queryIdx as int < |current| && 0 <= dms[k].trainIdx as int < |previous|
    ensures AssembleMatches(dms, current, previous).Ok? ==>
      var pairs := AssembleMatches(dms, current, previous).value;
      |pairs| == |dms| &&
      forall k :: 0 <= k < |dms| ==>
        && 0 <= dms[k].queryIdx as int < |current|
        && 0 <= dms[k].trainIdx as int < |previous|
        && pairs[k] == (current[dms[k].queryIdx as int], previous[dms[k].trainIdx as int])
  {
    AssembleMatchesCorrect(dms, current, previous);
  }

  /** `multiunzip` of the assembled pairs: the current keypoints and the previous
      keypoints, which zip back to the pairs. */
  function Unzip(pairs: seq<(KeyPoint, KeyPoint)>): (r: (seq<KeyPoint>, seq<KeyPoint>))
    ensures |r.0| == |pairs| && |r.1| == |pairs|
    ensures forall k :: 0 <= k < |pairs| ==> (r.0[k], r.1[k]) == pairs[k]
  {
    (seq(|pairs|, k requires 0 <= k < |pairs| => pairs[k].0),
     seq(|pairs|, k requires 0 <= k < |pairs| => pairs[k].1))
  }

  /** The positions of a list of keypoints, the point lists handed to RANSAC. */
  function Positions(keypoints: seq<KeyPoint>): (r: seq<Point2f>)
    ensures |r| == |keypoints|
    ensures forall k :: 0 <= k < |r| ==> r[k] == keypoints[k].pt
  {
    seq(|keypoints|, k requires 0 <= k < |keypoints| => keypoints[k].pt)
  }

  function Min3(a: nat, b: nat, c: nat): nat {
    if a <= b && a <= c then a else if b <= c then b else c
  }

  /** Inlier filtering: zip the current keypoints, the previous keypoints and the mask,
      stopping at the shortest, and keep a match for each position whose mask entry is
      greater than 0, in order. */
  function FilterInliers(current: seq<KeyPoint>, previous: seq<KeyPoint>, mask: seq<u8>): (r: seq<Match>)
    ensures |r| <= |current| && |r| <= |previous| && |r| <= |mask|
  {
    if |current| == 0 || |previous| == 0 || |mask| == 0 then []
    else
      (if mask[0] > 0 then [Match(current[0], previous[0])] else [])
      + FilterInliers(current[1..], previous[1..], mask[1..])
  }

  /** The positions `i <= j < n` whose mask entry is greater than 0, in increasing order:
      an independent statement of which positions inlier filtering keeps. */
  function InliersFrom(mask: seq<u8>, n: nat, i: nat): (r: seq<nat>)
    requires n <= |mask| && i <= n
    ensures |r| <= n - i
    ensures forall k :: 0 <= k < |r| ==> i <= r[k] < n
    decreases n - i
  {
    if i == n then []
    else (if mask[i] > 0 then [i] else []) + InliersFrom(mask, n, i + 1)
  }

  /** `InliersFrom` lists exactly the inlier positions from `i` to `n`, each once and in
      increasing order. */
  lemma {:induction false} InliersFromExact(mask: seq<u8>, n: nat, i: nat)
    requires n <= |mask| && i <= n
    ensures forall k, l :: 0 <= k < l < |InliersFrom(mask, n, i)| ==> InliersFrom(mask, n, i)[k] < InliersFrom(mask, n, i)[l]
    ensures forall j :: j in InliersFrom(mask, n, i) <==> i <= j < n && mask[j] > 0
    decreases n - i
  {
    if i < n {
      InliersFromExact(mask, n, i + 1);
    }
  }

  /** The matches at the given positions. */
  function Pick(current: seq<KeyPoint>, previous: seq<KeyPoint>, positions: seq<nat>): (r: seq<Match>)
    requires forall k :: 0 <= k < |positions| ==> positions[k] < |current| && positions[k] < |previous|
    ensures |r| == |positions|
  {
    seq(|positions|, k requires 0 <= k < |positions| => Match(current[positions[k]], previous[positions[k]]))
  }

  lemma PickAppend(current: seq<KeyPoint>, previous: seq<KeyPoint>, a: seq<nat>, b: seq<nat>)
    requires forall k :: 0 <= k < |a| ==> a[k] < |current| && a[k] < |previous|
    requires forall k :: 0 <= k < |b| ==> b[k] < |current| && b[k] < |previous|
    ensures Pick(current, previous, a + b) == Pick(current, previous, a) + Pick(current, previous, b)
  {
  }

  /** One step of inlier filtering on the suffix from position `i`. */
  lemma FilterInliersStep(current: seq<KeyPoint>, previous: seq<KeyPoint>, mask: seq<u8>, i: nat)
    requires i < |current| && i < |previous| && i < |mask|
    ensures FilterInliers(current[i..], previous[i..], mask[i..])
      == (if mask[i] > 0 then [Match(current[i], previous[i])] else [])
         + FilterInliers(current[i + 1..], previous[i + 1..], mask[i + 1..])
  {
  }

  lemma {:induction false} FilterInliersFrom(current: seq<KeyPoint>, previous: seq<KeyPoint>, mask: seq<u8>, i: nat)
    requires i <= Min3(|current|, |previous|, |mask|)
    ensures FilterInliers(current[i..], previous[i..], mask[i..])
      == Pick(current, previous, InliersFrom(mask, Min3(|current|, |previous|, |mask|), i))
    decreases Min3(|current|, |previous|, |mask|) - i
  {
    var n := Min3(|current|, |previous|, |mask|);
    if i < n {
      FilterInliersFrom(current, previous, mask, i + 1);
      FilterInliersStep(current, previous, mask, i);
      var head: seq<nat> := if mask[i] > 0 then [i] else [];
      var tail := InliersFrom(mask, n, i + 1);
      assert InliersFrom(mask, n, i) == head + tail;
      PickAppend(current, previous, head, tail);
      assert Pick(current, previous, head) == if mask[i] > 0 then [Match(current[i], previous[i])] else [];
    } else {
      assert InliersFrom(mask, n, i) == [];
      assert |current[i..]| == 0 || |previous[i..]| == 0 || |mask[i..]| == 0;
    }
  }

  /** Inlier filtering keeps exactly the positions (below the length of the shortest of
      its three inputs) whose mask entry is greater than 0, in increasing order, and
      yields the match at each of them. */
  lemma {:induction false} FilterInliersSelects(current: seq<KeyPoint>, previous: seq<KeyPoint>, mask: seq<u8>)
    ensures var positions := InliersFrom(mask, Min3(|current|, |previous|, |mask|), 0);
      FilterInliers(current, previous, mask) == Pick(current, previous, positions)
  {
    FilterInliersFrom(current, previous, mask, 0);
    assert current[0..] == current && previous[0..] == previous && mask[0..] == mask;
  }

  /** A mask that marks every position an inlier keeps every zipped pair. */
  lemma {:induction false} FilterInliersAllInliers(current: seq<KeyPoint>, previous: seq<KeyPoint>, mask: seq<u8>)
    requires |current| == |previous| <= |mask|
    requires forall k :: 0 <= k < |mask| ==> mask[k] > 0
    ensures FilterInliers(current, previous, mask) == seq(|current|, k requires 0 <= k < |current| => Match(current[k], previous[k]))
  {
    if |current| > 0 {
      FilterInliersAllInliers(current[1..], previous[1..], mask[1..]);
    }
  }

  /** A mask that marks no position an inlier keeps nothing. */
  lemma {:induction false} FilterInliersNoInliers(current: seq<KeyPoint>, previous: seq<KeyPoint>, mask: seq<u8>)
    requires forall k :: 0 <= k < |mask| ==> mask[k] == 0
    ensures FilterInliers(current, previous, mask) == []
  {
    if |current| > 0 && |previous| > 0 && |mask| > 0 {
      FilterInliersNoInliers(current[1..], previous[1..], mask[1..]);
    }
  }

  /** Every kept match is the keypoint pair named by a matcher result whose mask entry
      marks it an inlier: the `k`-th kept match comes from the result at the `k`-th
      inlier position, so the kept matches are in matcher order. */
  lemma {:induction false} InlierMatchesResolve(dms: seq<DMatch>, current: seq<KeyPoint>, previous: seq<KeyPoint>, mask: seq<u8>)
    requires AssembleMatches(dms, current, previous).Ok?
    ensures var (cs, ps) := Unzip(AssembleMatches(dms, current, previous).value);
      var positions := InliersFrom(mask, Min3(|dms|, |dms|, |mask|), 0);
      var kept := FilterInliers(cs, ps, mask);
      |kept| == |positions| &&
      forall k :: 0 <= k < |kept| ==>
        positions[k] < |dms| && positions[k] < |mask| && mask[positions[k]] > 0 &&
        Resolvable(dms[positions[k]], current, previous) &&
        (kept[k].currentKeypoint, kept[k].previousKeypoint) == Resolve(dms[positions[k]], current, previous)
  {
    AssembleMatchesCorrect(dms, current, previous);
    var pairs := AssembleMatches(dms, current, previous).value;
    var (cs, ps) := Unzip(pairs);
    var n := Min3(|dms|, |dms|, |mask|);
    var positions := InliersFrom(mask, n, 0);
    var kept := FilterInliers(cs, ps, mask);
    FilterInliersSelects(cs, ps, mask);
    assert Min3(|cs|, |ps|, |mask|) == n;
    InliersFromExact(mask, n, 0);
    forall k | 0 <= k < |kept|
      ensures positions[k] < |dms| && positions[k] < |mask| && mask[positions[k]] > 0
      ensures Resolvable(dms[positions[k]], current, previous)
      ensures (kept[k].currentKeypoint, kept[k].previousKeypoint) == Resolve(dms[positions[k]], current, previous)
    {
      var p := positions[k];
      assert p in positions;
      assert kept[k] == Match(cs[p], ps[p]);
      assert (cs[p], ps[p]) == pairs[p];
    }
  }
}
