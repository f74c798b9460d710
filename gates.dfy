/** The two gates of the frame loop. The blur gate rejects a view whose
    sharpness score is too low: in standard mode below a fixed floor, in
    smart mode also below 60% of the mean of the last ten accepted scores,
    with the sixth consecutive rejection force-accepted. The motion gate
    skips a whole frame that moved too little since the last extracted one. */
module Gates {
  import opened Common

  /** `deque(maxlen=10)`. */
  const HistoryLimit: nat := 10

  /** Rejections in a row after which the next one is forced through. */
  const MaxConsecutiveSkips: nat := 5

  /** The fraction of the mean history score a view must reach. */
  const AdaptiveFactor: real := 0.6

  /** `blur_history`, `consecutive_blur_skips` and `skipped_blur_count`. */
  datatype BlurState = BlurState(history: seq<real>, consecutive: nat, skipped: nat)

  const InitialBlur := BlurState([], 0, 0)

  /** `blur_history.append(score)` on a deque of at most ten: the oldest
      score drops out when the deque is full. */
  function Push(history: seq<real>, score: real): (h: seq<real>)
    ensures |history| < HistoryLimit ==> h == history + [score]
    ensures |history| >= HistoryLimit ==> h == history[|history| - HistoryLimit + 1..] + [score]
  {
    if |history| < HistoryLimit then history + [score]
    else history[|history| - HistoryLimit + 1..] + [score]
  }

  /** The deque never exceeds ten scores, ends with the newest, and is
      always the most recent part of everything appended. */
  lemma PushKeepsLatest(history: seq<real>, score: real)
    requires |history| <= HistoryLimit
    ensures var h := Push(history, score);
      |h| <= HistoryLimit && h[|h| - 1] == score && h == (history + [score])[|history| + 1 - |h|..] &&
      |h| == if |history| < HistoryLimit then |history| + 1 else HistoryLimit
  {
    var h := Push(history, score);
    var all := history + [score];
    if |history| >= HistoryLimit {
      assert all[|all| - |h|..] == h;
    } else {
      assert all[0..] == all;
    }
  }

  function Sum(xs: seq<real>): real
  {
    if xs == [] then 0.0 else Sum(xs[..|xs| - 1]) + xs[|xs| - 1]
  }

  function Mean(xs: seq<real>): real
    requires |xs| > 0
  {
    Sum(xs) / |xs| as real
  }

  /** Smart mode's verdict before the override: below the floor, or (with a
      history) below 60% of its mean. */
  predicate SmartBlurry(history: seq<real>, score: real, threshold: real)
  {
    score < threshold || (|history| > 0 && score < Mean(history) * AdaptiveFactor)
  }

  /** One view through the blur gate: whether the view is kept, and the new
      state. A rejected view is counted in `skipped`. */
  function BlurStep(smart: bool, threshold: real, s: BlurState, score: real): (bool, BlurState)
  {
    if smart then
      if SmartBlurry(s.history, score, threshold) && s.consecutive + 1 <= MaxConsecutiveSkips then
        (false, s.(consecutive := s.consecutive + 1, skipped := s.skipped + 1))
      else
        (true, s.(history := Push(s.history, score), consecutive := 0))
    else if score < threshold then (false, s.(skipped := s.skipped + 1))
    else (true, s)
  }

  /** The gate as the frame loop runs it on one scored view: mark it
      blurry, count the run of rejections, force the sixth through, and
      record accepted scores. */
  method BlurCheck(smart: bool, threshold: real, s: BlurState, score: real) returns (isBlurry: bool, s': BlurState)
    ensures (!isBlurry, s') == BlurStep(smart, threshold, s, score)
  {
    var history, consecutive, skipped := s.history, s.consecutive, s.skipped;
    isBlurry := false;
    if smart {
      if score < threshold {
        isBlurry := true;
      } else if |history| > 0 {
        var avgScore := Sum(history) / |history| as real;
        if score < avgScore * AdaptiveFactor {
          isBlurry := true;
        }
      }
      if isBlurry {
        consecutive := consecutive + 1;
        if consecutive > MaxConsecutiveSkips {
          isBlurry := false;
          consecutive := 0;
        }
      }
      if !isBlurry {
        consecutive := 0;
        history := Push(history, score);
      }
    } else {
      if score < threshold {
        isBlurry := true;
      }
    }
    if isBlurry {
      skipped := skipped + 1;
    }
    s' := BlurState(history, consecutive, skipped);
  }

  /** Standard mode keeps a view exactly when its score reaches the
      threshold, and touches neither the history nor the counter. */
  lemma StandardGate(threshold: real, s: BlurState, score: real)
    ensures var (keep, s') := BlurStep(false, threshold, s, score);
      (keep <==> score >= threshold) &&
      s'.history == s.history && s'.consecutive == s.consecutive &&
      s'.skipped == if keep then s.skipped else s.skipped + 1
  {
  }

  /** Smart mode rejects a blurry view unless it is the sixth in a row; a
      kept view (natural or forced) resets the counter and enters the
      history. */
  lemma SmartGate(threshold: real, s: BlurState, score: real)
    ensures var (keep, s') := BlurStep(true, threshold, s, score);
      (!keep <==> SmartBlurry(s.history, score, threshold) && s.consecutive < MaxConsecutiveSkips) &&
      (!keep ==> s'.history == s.history && s'.consecutive == s.consecutive + 1 && s'.skipped == s.skipped + 1) &&
      (keep ==> s'.history == Push(s.history, score) && s'.consecutive == 0 && s'.skipped == s.skipped)
  {
  }

  /** The sixth consecutive blurry view is forced through. */
  lemma ForcedAcceptance(threshold: real, history: seq<real>, skipped: nat, score: real)
    requires SmartBlurry(history, score, threshold)
    ensures BlurStep(true, threshold, BlurState(history, MaxConsecutiveSkips, skipped), score)
      == (true, BlurState(Push(history, score), 0, skipped))
  {
  }

  /** A state the gate can reach: at most ten scores, at most five
      rejections in a row. */
  predicate ValidBlur(s: BlurState)
  {
    |s.history| <= HistoryLimit && s.consecutive <= MaxConsecutiveSkips
  }

  lemma BlurStepValid(smart: bool, threshold: real, s: BlurState, score: real)
    requires ValidBlur(s)
    ensures ValidBlur(BlurStep(smart, threshold, s, score).1)
  {
    PushKeepsLatest(s.history, score);
  }

  /** Whether every score in turn is rejected. */
  predicate AllRejected(smart: bool, threshold: real, s: BlurState, scores: seq<real>)
    decreases |scores|
  {
    scores == [] ||
    (var (keep, s') := BlurStep(smart, threshold, s, scores[0]);
     !keep && AllRejected(smart, threshold, s', scores[1..]))
  }

  /** In smart mode no run of rejections is longer than five. */
  lemma {:induction false} RejectionRunBounded(threshold: real, s: BlurState, scores: seq<real>)
    requires ValidBlur(s) && AllRejected(true, threshold, s, scores)
    ensures s.consecutive + |scores| <= MaxConsecutiveSkips
    decreases |scores|
  {
    if scores != [] {
      var s' := BlurStep(true, threshold, s, scores[0]).1;
      BlurStepValid(true, threshold, s, scores[0]);
      RejectionRunBounded(threshold, s', scores[1..]);
    }
  }

  lemma SixInARowImpossible(threshold: real, scores: seq<real>)
    requires |scores| == MaxConsecutiveSkips + 1
    ensures !AllRejected(true, threshold, InitialBlur, scores)
  {
    if AllRejected(true, threshold, InitialBlur, scores) {
      RejectionRunBounded(threshold, InitialBlur, scores);
    }
  }

  /** The motion gate: with adaptive mode on and a reference frame, a frame
      whose motion score does not exceed the threshold is skipped and the
      reference kept; otherwise (in adaptive mode) the frame becomes the
      reference. */
  function MotionGate<F>(adaptive: bool, reference: Option<F>, frame: F, motion: (F, F) -> real, threshold: real): (bool, Option<F>)
  {
    if adaptive then
      if reference.Some? && motion(reference.value, frame) <= threshold then (true, reference)
      else (false, Some(frame))
    else (false, reference)
  }

  lemma MotionGateCases<F>(adaptive: bool, reference: Option<F>, frame: F, motion: (F, F) -> real, threshold: real)
    ensures var (skip, ref') := MotionGate(adaptive, reference, frame, motion, threshold);
      (skip <==> adaptive && reference.Some? && motion(reference.value, frame) <= threshold) &&
      (skip ==> ref' == reference) &&
      (!skip && adaptive ==> ref' == Some(frame)) &&
      (!adaptive ==> ref' == reference)
  {
  }
}
