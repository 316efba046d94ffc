/** Which predictions survive the confidence threshold: the class scan of the CPU postprocess
    (src/runner/detect/YoloDetector.cpp) and the one of the CUDA filter (src/device/gpu_filter.cu). */
module Candidates {
  datatype Best = Best(score: real, cls: int)

  const CPU_START := Best(0.0, 0)
  const GPU_START := Best(-1.0, -1)

  /** The running maximum after the given class scores. */
  function Scan(start: Best, scores: seq<real>): Best {
    if scores == [] then start
    else
      var n := |scores| - 1;
      var b := Scan(start, scores[..n]);
      if scores[n] > b.score then Best(scores[n], n) else b
  }

  /** The scan ends at the lowest-numbered class of greatest score, unless no score beats the starting one. */
  lemma {:induction false} ScanIsLowestArgmax(start: Best, scores: seq<real>)
    ensures var b := Scan(start, scores);
      && b.score >= start.score
      && (forall c :: 0 <= c < |scores| ==> scores[c] <= b.score)
      && (b == start ||
           (b.score > start.score && 0 <= b.cls < |scores| && scores[b.cls] == b.score
            && forall c :: 0 <= c < b.cls ==> scores[c] < b.score))
  {
    if scores != [] {
      ScanIsLowestArgmax(start, scores[..|scores| - 1]);
    }
  }

  predicate Passes(b: Best, conf: real) {
    b.score >= conf
  }

  /** Either both paths reject the prediction, or both keep it with the same score and class. */
  predicate SameCandidate(scores: seq<real>, conf: real) {
    var cpu, gpu := Scan(CPU_START, scores), Scan(GPU_START, scores);
    Passes(cpu, conf) == Passes(gpu, conf) && (Passes(cpu, conf) ==> cpu == gpu)
  }

  /** The two paths agree on a prediction exactly when the threshold is positive, or some class score is, or the first is zero. */
  lemma SameCandidateIff(scores: seq<real>, conf: real)
    ensures SameCandidate(scores, conf) <==>
      conf > 0.0 || (exists c :: 0 <= c < |scores| && scores[c] > 0.0) || (scores != [] && scores[0] == 0.0)
  {
    ScanIsLowestArgmax(CPU_START, scores);
    ScanIsLowestArgmax(GPU_START, scores);
    var cpu, gpu := Scan(CPU_START, scores), Scan(GPU_START, scores);
    if c :| 0 <= c < |scores| && scores[c] > 0.0 {
      assert cpu.score == gpu.score && cpu.cls == gpu.cls;
    } else if scores != [] && scores[0] == 0.0 {
      assert cpu == CPU_START && gpu == Best(0.0, 0);
    } else {
      assert cpu == CPU_START && gpu != cpu && gpu.score <= 0.0;
    }
  }

  /** With a positive threshold they agree on every prediction. */
  lemma PositiveThresholdAgrees(scores: seq<real>, conf: real)
    requires conf > 0.0
    ensures SameCandidate(scores, conf)
  {
    SameCandidateIff(scores, conf);
  }

  /** For any number of classes, the two paths select the same candidates, for all scores, exactly when the threshold is
      positive. */
  lemma PathsAgreeIff(classes: nat, conf: real)
    requires classes > 0
    ensures (forall scores :: |scores| == classes ==> SameCandidate(scores, conf)) <==> conf > 0.0
  {
    forall scores | conf > 0.0
      ensures SameCandidate(scores, conf)
    {
      SameCandidateIff(scores, conf);
    }
    var negative := seq(classes, _ => -1.0);
    SameCandidateIff(negative, conf);
    assert |negative| == classes && forall c :: 0 <= c < classes ==> negative[c] == -1.0;
  }

  /** Both scans as they are written: a loop over the classes. */
  method ScanLoop(start: Best, scores: seq<real>) returns (b: Best)
    ensures b == Scan(start, scores)
  {
    b := start;
    for c := 0 to |scores|
      invariant b == Scan(start, scores[..c])
    {
      assert scores[..c + 1][..c] == scores[..c];
      if scores[c] > b.score {
        b := Best(scores[c], c);
      }
    }
    assert scores[..|scores|] == scores;
  }
}
