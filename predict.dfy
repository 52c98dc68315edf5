/** The entry point `predict`: with at least 20 results in the history it
    builds the 20 pattern samples, runs each of the five models on the last
    20 results and on the last 50, and lets the ten predictions vote. */
module Ensemble {
  import opened Outcomes
  import opened SampleGenerator
  import opened Predictors

  /** `predict_goc`: Tài, Xỉu, or 'Không xác định' on a tie. */
  datatype Final = FinalTai | FinalXiu | Undetermined

  /** The answer: not enough data, or the verdict with its confidence (in
      percent), the vote counts, the number of votes and of samples. */
  datatype Prediction =
    | NotEnoughData
    | Verdict(final: Final, confidence: nat, voteTai: nat, voteXiu: nat, totalVotes: nat, sampleTotal: nat)

  /** The fewest results `predict` accepts. */
  const MinHistory: nat := 20

  /** The number of models. */
  const ModelCount: nat := 5

  /** `history.slice(-20)`. */
  function ShortWindow(h: seq<Token>): seq<Token>
  {
    Suffix(h, 20)
  }

  /** `last50.length >= 20 ? last50 : history`. */
  function LongWindow(h: seq<Token>): seq<Token>
  {
    if |Suffix(h, 50)| >= 20 then Suffix(h, 50) else h
  }

  /** Both windows are tails of the history: the short one its last 20
      results, the long one its last 20 to 50 results, or all of a history
      shorter than 20. */
  lemma WindowsAreTails(h: seq<Token>)
    ensures |ShortWindow(h)| == Min(20, |h|) && ShortWindow(h) == h[|h| - |ShortWindow(h)|..]
    ensures |LongWindow(h)| <= |h| && LongWindow(h) == h[|h| - |LongWindow(h)|..]
    ensures |h| >= 20 ==> 20 <= |LongWindow(h)| <= 50
    ensures |h| < 20 ==> LongWindow(h) == h
  {
  }

  /** Model `k` (1 to 5) on window `w`; only model 1 can answer Blank. */
  function ModelPrediction(k: nat, w: seq<Token>, samples: seq<Sample>): (r: Token)
    requires 1 <= k <= ModelCount
    ensures k >= 2 ==> r != Blank
  {
    if k == 1 then PatternAnalysis(w, samples)
    else if k == 2 then FrequencyAnalysis(w)
    else if k == 3 then MarkovPrediction(w)
    else if k == 4 then NgramPrediction(w, samples)
    else Heuristic(w, samples)
  }

  /** The votes of models 1 to k: model 1 on the short window, model 1 on
      the long window, model 2 on the short window, and so on. */
  function VotesUpTo(h: seq<Token>, samples: seq<Sample>, k: nat): (r: seq<Token>)
    requires k <= ModelCount
    ensures |r| == 2 * k
  {
    if k == 0 then []
    else VotesUpTo(h, samples, k - 1)
         + [ModelPrediction(k, ShortWindow(h), samples), ModelPrediction(k, LongWindow(h), samples)]
  }

  /** The ten votes. */
  function Votes(h: seq<Token>, samples: seq<Sample>): (r: seq<Token>)
    ensures |r| == 10
  {
    VotesUpTo(h, samples, ModelCount)
  }

  /** The side with more votes wins; a tie is undetermined. */
  function Decide(voteTai: nat, voteXiu: nat): (r: Final)
    ensures r == Undetermined <==> voteTai == voteXiu
    ensures r == FinalTai ==> voteTai > voteXiu
    ensures r == FinalXiu ==> voteXiu > voteTai
  {
    if voteTai > voteXiu then FinalTai
    else if voteXiu > voteTai then FinalXiu
    else Undetermined
  }

  /** The vote: Tai and Xiu counts (a Blank vote counts for neither), the
      majority, and the winning share rounded to a whole percent. */
  function Tally(votes: seq<Token>, sampleTotal: nat): (r: Prediction)
    requires |votes| > 0
    ensures r.Verdict? && r.totalVotes == |votes| && r.sampleTotal == sampleTotal
    ensures r.voteTai + r.voteXiu + Count(votes, Blank) == |votes|
    ensures r.confidence <= 100
  {
    CountPartition(votes);
    var t := Count(votes, Tai);
    var x := Count(votes, Xiu);
    Verdict(Decide(t, x), RoundPercent(Max(t, x), |votes|), t, x, |votes|, sampleTotal)
  }

  /** `predict` on the list of results. */
  function Ensemble(h: seq<Token>): (r: Prediction)
    ensures r.Verdict? ==> r.totalVotes == 2 * ModelCount && r.sampleTotal <= SampleCount
  {
    if |h| < MinHistory then NotEnoughData
    else
      var samples := PatternSamples(h);
      PatternSamplesBound(h);
      Tally(Votes(h, samples), |samples|)
  }

  method RunModel(k: nat, w: seq<Token>, samples: seq<Sample>) returns (r: Token)
    requires 1 <= k <= ModelCount
    ensures r == ModelPrediction(k, w, samples)
  {
    if k == 1 {
      r := PatternAnalysis(w, samples);
    } else if k == 2 {
      r := FrequencyAnalysis(w);
    } else if k == 3 {
      r := MarkovChain(w);
    } else if k == 4 {
      r := NgramMatching(w, samples);
    } else {
      r := HeuristicEnsemble(w, samples);
    }
  }

  method Predict(history: seq<Token>) returns (p: Prediction)
    ensures p == Ensemble(history)
  {
    if |history| < MinHistory {
      return NotEnoughData;
    }
    var samples := GeneratePatternSamples(history);
    var all := CastVotes(history, samples);
    var voteTai := Count(all, Tai);
    var voteXiu := Count(all, Xiu);
    var finalResult := Undetermined;
    if voteTai > voteXiu {
      finalResult := FinalTai;
    } else if voteXiu > voteTai {
      finalResult := FinalXiu;
    }
    assert finalResult == Decide(voteTai, voteXiu);
    var confidence := RoundPercent(Max(voteTai, voteXiu), |all|);
    p := Verdict(finalResult, confidence, voteTai, voteXiu, |all|, |samples|);
  }

  /** The loop over the five models, each run on the short and the long
      window. */
  method CastVotes(history: seq<Token>, samples: seq<Sample>) returns (all: seq<Token>)
    ensures all == Votes(history, samples)
  {
    var last20 := ShortWindow(history);
    var longWindow := LongWindow(history);
    all := [];
    var k := 1;
    while k <= ModelCount
      invariant 1 <= k <= ModelCount + 1
      invariant all == Votes(history, samples)[..2 * (k - 1)]
    {
      all := CastModelVotes(history, samples, k, last20, longWindow, all);
      k := k + 1;
    }
  }

  /** One round of the loop: model `k` on both windows, its two votes
      appended to those of the models before it. */
  method CastModelVotes(history: seq<Token>, samples: seq<Sample>, k: nat,
                        last20: seq<Token>, longWindow: seq<Token>, prior: seq<Token>)
    returns (all: seq<Token>)
    requires 1 <= k <= ModelCount
    requires last20 == ShortWindow(history) && longWindow == LongWindow(history)
    requires prior == Votes(history, samples)[..2 * (k - 1)]
    ensures all == Votes(history, samples)[..2 * k]
  {
    var shortPred := RunModel(k, last20, samples);
    var longPred := RunModel(k, longWindow, samples);
    VotesPrefix(history, samples, k - 1, ModelCount);
    VotesPrefix(history, samples, k, ModelCount);
    all := prior + [shortPred, longPred];
  }

  /** The votes of the first `k` models open those of the first `j`. */
  lemma {:induction false} VotesPrefix(h: seq<Token>, samples: seq<Sample>, k: nat, j: nat)
    requires k <= j <= ModelCount
    ensures VotesUpTo(h, samples, j)[..2 * k] == VotesUpTo(h, samples, k)
  {
    if k < j {
      VotesPrefix(h, samples, k, j - 1);
      var pair := [ModelPrediction(j, ShortWindow(h), samples), ModelPrediction(j, LongWindow(h), samples)];
      PrefixOfAppend(VotesUpTo(h, samples, j - 1), pair, 2 * k);
    }
  }

  lemma PrefixOfAppend<T>(a: seq<T>, b: seq<T>, n: nat)
    requires n <= |a|
    ensures (a + b)[..n] == a[..n]
  {
  }

  // ------------------------------------------------------------- properties

  /** The guard: `predict` answers "not enough data" exactly when the
      history has fewer than 20 results. */
  lemma EnsembleGuard(h: seq<Token>)
    ensures Ensemble(h) == NotEnoughData <==> |h| < MinHistory
  {
  }

  /** Once the guard passes, the long window is always the last 50 results
      (or the whole history when shorter); the fallback to the whole history
      is never taken. Both windows hold at least 20 results. */
  lemma LongWindowFacts(h: seq<Token>)
    requires |h| >= MinHistory
    ensures LongWindow(h) == Suffix(h, 50)
    ensures |LongWindow(h)| == Min(50, |h|) >= 20
    ensures |ShortWindow(h)| == 20
  {
  }

  /** Among the votes of models 1 to k at most two are Blank: only model 1
      can vote Blank. */
  lemma {:induction false} VotesBlankUpTo(h: seq<Token>, samples: seq<Sample>, k: nat)
    requires k <= ModelCount
    ensures Count(VotesUpTo(h, samples, k), Blank) <= 2
  {
    if k > 1 {
      VotesBlankUpTo(h, samples, k - 1);
      var a := ModelPrediction(k, ShortWindow(h), samples);
      var b := ModelPrediction(k, LongWindow(h), samples);
      CountAppend(VotesUpTo(h, samples, k - 1), [a, b], Blank);
      assert [a, b][..1] == [a];
    }
  }

  /** Only model 1 can cast a Blank vote, so at least eight of the ten votes
      go to Tai or Xiu. */
  lemma VotesBlank(h: seq<Token>, samples: seq<Sample>)
    ensures Count(Votes(h, samples), Blank) <= 2
    ensures Count(Votes(h, samples), Tai) + Count(Votes(h, samples), Xiu) >= 8
  {
    VotesBlankUpTo(h, samples, ModelCount);
    CountPartition(Votes(h, samples));
  }

  /** The verdict of a history of at least 20 results: ten votes over 20
      samples; the majority side wins and a tie is undetermined; the
      confidence is ten times the larger count, so between 40% and 100%. */
  lemma EnsembleVerdict(h: seq<Token>)
    requires |h| >= MinHistory
    ensures Ensemble(h).Verdict?
    ensures Ensemble(h).totalVotes == 10
    ensures Ensemble(h).sampleTotal == SampleCount
    ensures Ensemble(h).voteTai + Ensemble(h).voteXiu <= 10
    ensures Ensemble(h).voteTai + Ensemble(h).voteXiu >= 8
    ensures Ensemble(h).final == FinalTai <==> Ensemble(h).voteTai > Ensemble(h).voteXiu
    ensures Ensemble(h).final == FinalXiu <==> Ensemble(h).voteXiu > Ensemble(h).voteTai
    ensures Ensemble(h).final == Undetermined <==> Ensemble(h).voteTai == Ensemble(h).voteXiu
    ensures Ensemble(h).confidence == 10 * Max(Ensemble(h).voteTai, Ensemble(h).voteXiu)
    ensures 40 <= Ensemble(h).confidence <= 100
  {
    var samples := PatternSamples(h);
    PatternSamplesCount(h);
    VotesBlank(h, samples);
    TallyVerdict(Votes(h, samples), |samples|);
  }

  /** The vote over ten ballots of which at most two are Blank: the majority
      side wins and a tie is undetermined; the confidence is ten times the
      larger count, so between 40% and 100%. */
  lemma TallyVerdict(votes: seq<Token>, sampleTotal: nat)
    requires |votes| == 10 && Count(votes, Blank) <= 2
    ensures Tally(votes, sampleTotal).Verdict?
    ensures Tally(votes, sampleTotal).totalVotes == 10
    ensures Tally(votes, sampleTotal).sampleTotal == sampleTotal
    ensures 8 <= Tally(votes, sampleTotal).voteTai + Tally(votes, sampleTotal).voteXiu <= 10
    ensures Tally(votes, sampleTotal).final == FinalTai <==> Tally(votes, sampleTotal).voteTai > Tally(votes, sampleTotal).voteXiu
    ensures Tally(votes, sampleTotal).final == FinalXiu <==> Tally(votes, sampleTotal).voteXiu > Tally(votes, sampleTotal).voteTai
    ensures Tally(votes, sampleTotal).final == Undetermined <==> Tally(votes, sampleTotal).voteTai == Tally(votes, sampleTotal).voteXiu
    ensures Tally(votes, sampleTotal).confidence == 10 * Max(Tally(votes, sampleTotal).voteTai, Tally(votes, sampleTotal).voteXiu)
    ensures 40 <= Tally(votes, sampleTotal).confidence <= 100
  {
    CountPartition(votes);
  }

  /** A tie with no Blank vote is five against five, at 50%. */
  lemma EnsembleTie(h: seq<Token>)
    requires |h| >= MinHistory
    requires Ensemble(h).final == Undetermined
    requires Count(Votes(h, PatternSamples(h)), Blank) == 0
    ensures Ensemble(h).voteTai == 5 && Ensemble(h).voteXiu == 5
    ensures Ensemble(h).confidence == 50
  {
    EnsembleVerdict(h);
    CountPartition(Votes(h, PatternSamples(h)));
  }
}
