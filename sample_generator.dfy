/** The deterministic pattern-sample generator: from the whole history it
    builds exactly 20 samples, stage by stage — the top mined windows, the
    longest runs, the first alternations, a fixed canonical list, and padding
    taken from the last 20 tokens. */
module SampleGenerator {
  import opened Outcomes
  import opened StableSort
  import opened WindowTable
  import opened Motifs

  /** The only sample count the engine asks for. */
  const SampleCount: nat := 20
  /** floor(20 * 0.6), floor(20 * 0.15) and floor(20 * 0.1). */
  const MatchQuota: nat := 12
  const RunQuota: nat := 3
  const AltQuota: nat := 2

  function MatchSample(e: WindowStat): Sample
  {
    Sample(WindowMatch, e.pattern, if e.taiNext >= e.xiuNext then Tai else Xiu)
  }

  function MatchSamples(es: seq<WindowStat>): (r: seq<Sample>)
    ensures |r| == |es|
    ensures forall i :: 0 <= i < |r| ==> r[i] == MatchSample(es[i])
  {
    seq(|es|, i requires 0 <= i < |es| => MatchSample(es[i]))
  }

  function RunSamples(rs: seq<RunInfo>): (r: seq<Sample>)
    ensures |r| == |rs|
    ensures forall i :: 0 <= i < |r| ==> r[i] == Sample(RunMotif, rs[i].pattern, rs[i].predNext)
  {
    seq(|rs|, i requires 0 <= i < |rs| => Sample(RunMotif, rs[i].pattern, rs[i].predNext))
  }

  function AltSamples(alts: seq<AltInfo>): (r: seq<Sample>)
    ensures |r| == |alts|
    ensures forall i :: 0 <= i < |r| ==> r[i] == Sample(Alternation, alts[i].pattern, alts[i].predNext)
  {
    seq(|alts|, i requires 0 <= i < |alts| => Sample(Alternation, alts[i].pattern, alts[i].predNext))
  }

  /** The eight hand-picked motifs and the token each is taken to predict. */
  function CanonicalSamples(): seq<Sample>
  {
    [ Sample(Canonical, [Tai, Xiu, Tai, Xiu], Tai),
      Sample(Canonical, [Xiu, Tai, Xiu, Tai], Xiu),
      Sample(Canonical, [Tai, Tai, Xiu, Xiu], Tai),
      Sample(Canonical, [Xiu, Xiu, Tai, Tai], Xiu),
      Sample(Canonical, [Tai, Tai, Tai, Xiu], Xiu),
      Sample(Canonical, [Xiu, Xiu, Xiu, Tai], Tai),
      Sample(Canonical, [Tai, Xiu, Xiu, Tai], Xiu),
      Sample(Canonical, [Xiu, Tai, Tai, Xiu], Tai) ]
  }

  /** `last20[idx+4] || last20[last20.length - 1]`, then anything but Tai
      counts as Xiu. A missing element behaves like Blank here. */
  function PadNext(l: seq<Token>, idx: nat): (r: Token)
    ensures r != Blank
    ensures idx + 4 < |l| && l[idx + 4] != Blank ==> r == l[idx + 4]
  {
    var last := if idx + 4 < |l| && l[idx + 4] != Blank then l[idx + 4]
                else if |l| > 0 then l[|l| - 1] else Blank;
    assert idx + 4 < |l| && l[idx + 4] != Blank ==> last == l[idx + 4];
    if last == Tai then Tai else Xiu
  }

  function PadSample(l: seq<Token>, idx: nat): Sample
  {
    Sample(Pad, Slice(l, idx, idx + 4), PadNext(l, idx))
  }

  /** The pad loop's bound `Math.max(1, last20.length - 3)`. */
  function PadLimit(l: seq<Token>): (r: nat)
    ensures r >= 1
    ensures |l| >= 4 ==> r + 3 == |l|
  {
    if |l| >= 4 then |l| - 3 else 1
  }

  /** Eight four-token motifs, each predicting Tai or Xiu. */
  lemma CanonicalSamplesShape()
    ensures |CanonicalSamples()| == 8
    ensures forall i :: 0 <= i < |CanonicalSamples()| ==>
              CanonicalSamples()[i].kind == Canonical && |CanonicalSamples()[i].pattern| == 4
              && CanonicalSamples()[i].next != Blank
  {
  }

  /** A pad sample is the (possibly short) four tokens at `idx`, predicting
      Tai or Xiu. */
  lemma PadSampleShape(l: seq<Token>, idx: nat)
    ensures PadSample(l, idx).kind == Pad && PadSample(l, idx).next != Blank
    ensures |PadSample(l, idx).pattern| <= 4
    ensures idx + 4 <= |l| ==> PadSample(l, idx).pattern == l[idx..idx + 4]
  {
  }

  // ----------------------------------------------------------------- stages

  function MatchStage(h: seq<Token>): (r: seq<Sample>)
    ensures |r| <= MatchQuota
  {
    var wl := WindowList(h);
    MatchSamples(wl[..Min(MatchQuota, |wl|)])
  }

  function RunStage(h: seq<Token>): (r: seq<Sample>)
    ensures |r| <= RunQuota
  {
    var runs := DetectedRuns(h);
    RunSamples(runs[..Min(RunQuota, |runs|)])
  }

  function AltStage(h: seq<Token>): (r: seq<Sample>)
    ensures |r| <= AltQuota
  {
    var alts := Alternations(h);
    AltSamples(alts[..Min(AltQuota, |alts|)])
  }

  /** The canonical loop, run after `filled` samples: it stops at 20 samples
      or at the end of the list. */
  function CanonicalStage(filled: nat): (r: seq<Sample>)
    requires filled <= SampleCount
    ensures filled + |r| <= SampleCount
  {
    CanonicalSamples()[..Min(|CanonicalSamples()|, SampleCount - filled)]
  }

  /** The pad loop over `l` (the last 20 tokens), run after `filled` samples. */
  function PadStage(l: seq<Token>, filled: nat): (r: seq<Sample>)
    requires filled <= SampleCount
    ensures filled + |r| <= SampleCount
    ensures |r| == Min(PadLimit(l), SampleCount - filled)
    ensures forall i :: 0 <= i < |r| ==> r[i] == PadSample(l, i)
  {
    seq(Min(PadLimit(l), SampleCount - filled), i requires 0 <= i => PadSample(l, i))
  }

  /** Never more than 20 samples. */
  lemma PatternSamplesBound(h: seq<Token>)
    ensures |PatternSamples(h)| <= SampleCount
  {
  }

  /** `generatePatternSamplesDeterministic(history, 20)`. */
  function PatternSamples(h: seq<Token>): seq<Sample>
  {
    Untrimmed(h)[..Min(SampleCount, |Untrimmed(h)|)]
  }

  /** The stages before the trim, in order. */
  function Untrimmed(h: seq<Token>): seq<Sample>
  {
    var first := MatchStage(h) + RunStage(h) + AltStage(h);
    var withCanonical := first + CanonicalStage(|first|);
    withCanonical + PadStage(Suffix(h, SampleCount), |withCanonical|)
  }

  // ---------------------------------------------------------------- method

  method GeneratePatternSamples(h: seq<Token>) returns (samples: seq<Sample>)
    ensures samples == PatternSamples(h)
  {
    // 1) top windows
    var order, counts := BuildWindowIndex(h);
    IndexOrderCounted(AllOccurrences(h));
    var windowList := SortDesc(Entries(WindowIndex(order, counts)), Score);
    samples := TopWindowSamples(windowList);
    assert samples == MatchStage(h);
    // 2) runs
    var runs := DetectRuns(h);
    samples := AppendRunSamples(samples, runs[..Min(RunQuota, |runs|)]);
    assert samples == MatchStage(h) + RunStage(h);
    // 3) alternations
    var alternations := DetectAlternations(h);
    samples := AppendAltSamples(samples, alternations[..Min(AltQuota, |alternations|)]);
    assert samples == MatchStage(h) + RunStage(h) + AltStage(h);
    // 4) canonical motifs
    samples := FillFrom(samples, CanonicalSamples());
    // 5) padding from the last 20 tokens
    samples := PadFrom(samples, Suffix(h, SampleCount));
    assert samples == Untrimmed(h);
    samples := samples[..Min(SampleCount, |samples|)];
  }

  /** The first loop: one match sample per ranked window while fewer than 12
      samples are held. */
  method TopWindowSamples(windowList: seq<WindowStat>) returns (samples: seq<Sample>)
    ensures samples == MatchSamples(windowList[..Min(MatchQuota, |windowList|)])
  {
    samples := [];
    var i := 0;
    while i < |windowList| && |samples| < MatchQuota
      invariant i <= |windowList| && i <= MatchQuota
      invariant samples == MatchSamples(windowList[..i])
    {
      var w := windowList[i];
      var next := if w.taiNext >= w.xiuNext then Tai else Xiu;
      assert windowList[..i + 1] == windowList[..i] + [w];
      samples := samples + [Sample(WindowMatch, w.pattern, next)];
      i := i + 1;
    }
  }

  /** `for (let r of runs.slice(0, 3)) samples.push(...)`. */
  method AppendRunSamples(prior: seq<Sample>, topRuns: seq<RunInfo>) returns (samples: seq<Sample>)
    ensures samples == prior + RunSamples(topRuns)
  {
    samples := prior;
    for r := 0 to |topRuns|
      invariant samples == prior + RunSamples(topRuns[..r])
    {
      assert topRuns[..r + 1] == topRuns[..r] + [topRuns[r]];
      samples := samples + [Sample(RunMotif, topRuns[r].pattern, topRuns[r].predNext)];
    }
    assert topRuns[..|topRuns|] == topRuns;
  }

  /** `for (let a of alternations.slice(0, 2)) samples.push(...)`. */
  method AppendAltSamples(prior: seq<Sample>, topAlts: seq<AltInfo>) returns (samples: seq<Sample>)
    ensures samples == prior + AltSamples(topAlts)
  {
    samples := prior;
    for a := 0 to |topAlts|
      invariant samples == prior + AltSamples(topAlts[..a])
    {
      assert topAlts[..a + 1] == topAlts[..a] + [topAlts[a]];
      samples := samples + [Sample(Alternation, topAlts[a].pattern, topAlts[a].predNext)];
    }
    assert topAlts[..|topAlts|] == topAlts;
  }

  /** The canonical loop: push `source[ci]` while fewer than 20 samples are
      held and the list is not exhausted. */
  method FillFrom(prior: seq<Sample>, source: seq<Sample>) returns (samples: seq<Sample>)
    ensures samples == prior + source[..Min(|source|, Max(0, SampleCount - |prior|))]
  {
    samples := prior;
    var ci := 0;
    while |samples| < SampleCount && ci < |source|
      invariant ci <= Min(|source|, Max(0, SampleCount - |prior|))
      invariant samples == prior + source[..ci]
    {
      assert source[..ci + 1] == source[..ci] + [source[ci]];
      samples := samples + [source[ci]];
      ci := ci + 1;
    }
  }

  /** The pad loop: slide a 4-window over `last20` from index 0 while fewer
      than 20 samples are held and `idx < max(1, last20.length - 3)`. */
  method PadFrom(prior: seq<Sample>, last20: seq<Token>) returns (samples: seq<Sample>)
    ensures |prior| >= SampleCount ==> samples == prior
    ensures |prior| <= SampleCount ==> samples == prior + PadStage(last20, |prior|)
  {
    samples := prior;
    var idx := 0;
    while |samples| < SampleCount && idx < (if |last20| >= 4 then |last20| - 3 else 1)
      invariant |prior| >= SampleCount ==> idx == 0 && samples == prior
      invariant |prior| < SampleCount ==> idx <= Min(PadLimit(last20), SampleCount - |prior|)
      invariant |prior| < SampleCount ==> samples == prior + PadStage(last20, |prior|)[..idx]
    {
      var sample := PadOne(last20, idx);
      ghost var pads := PadStage(last20, |prior|);
      assert pads[..idx + 1] == pads[..idx] + [sample];
      samples := samples + [sample];
      idx := idx + 1;
    }
    if |prior| <= SampleCount {
      assert PadStage(last20, |prior|)[..idx] == PadStage(last20, |prior|);
    }
  }

  /** One round of the pad loop: the four tokens at `idx` and the token
      after them, or the last token when that one is missing or blank. */
  method PadOne(last20: seq<Token>, idx: nat) returns (sample: Sample)
    ensures sample == PadSample(last20, idx)
  {
    var pattern := Slice(last20, idx, idx + 4);
    var last := if idx + 4 < |last20| && last20[idx + 4] != Blank then last20[idx + 4]
                else if |last20| > 0 then last20[|last20| - 1] else Blank;
    sample := Sample(Pad, pattern, if last == Tai then Tai else Xiu);
  }

  // -------------------------------------------------------------- properties

  /** Position of a sample kind in the stage order. */
  function StageRank(k: SampleKind): nat
  {
    match k
    case WindowMatch => 0
    case RunMotif => 1
    case Alternation => 2
    case Canonical => 3
    case Pad => 4
  }

  /** The kinds of `s` appear in stage order. */
  ghost predicate InStageOrder(s: seq<Sample>)
  {
    forall i, j :: 0 <= i < j < |s| ==> StageRank(s[i].kind) <= StageRank(s[j].kind)
  }

  /** Every sample of `s` has the kind of rank `k` and predicts Tai or Xiu. */
  ghost predicate StageOf(s: seq<Sample>, k: nat)
  {
    forall x :: x in s ==> StageRank(x.kind) == k && x.next != Blank
  }

  /** `s` is in stage order, no stage above `k`, and every sample predicts
      Tai or Xiu. */
  ghost predicate OrderedUpTo(s: seq<Sample>, k: nat)
  {
    && InStageOrder(s)
    && (forall x :: x in s ==> StageRank(x.kind) <= k && x.next != Blank)
  }

  lemma StageOrderAppend(a: seq<Sample>, b: seq<Sample>, ka: nat, k: nat)
    requires OrderedUpTo(a, ka)
    requires StageOf(b, k) && ka <= k
    ensures OrderedUpTo(a + b, k)
  {
    forall i, j | 0 <= i < j < |a + b|
      ensures StageRank((a + b)[i].kind) <= StageRank((a + b)[j].kind)
    {
      if j >= |a| {
        assert (a + b)[j] == b[j - |a|] && b[j - |a|] in b;
        if i < |a| {
          assert (a + b)[i] == a[i] && a[i] in a;
        } else {
          assert (a + b)[i] == b[i - |a|] && b[i - |a|] in b;
        }
      }
    }
  }

  /** Every sample of each mined stage has that stage's kind and predicts
      Tai or Xiu. */
  lemma MatchStageKinds(h: seq<Token>)
    ensures StageOf(MatchStage(h), 0)
  {
    forall s | s in MatchStage(h) ensures StageRank(s.kind) == 0 && s.next != Blank {
      var i :| 0 <= i < |MatchStage(h)| && MatchStage(h)[i] == s;
    }
  }

  lemma RunStageKinds(h: seq<Token>)
    ensures StageOf(RunStage(h), 1)
  {
    DetectedRunsGuess(h);
    var runs := DetectedRuns(h);
    forall s | s in RunStage(h) ensures StageRank(s.kind) == 1 && s.next != Blank {
      var i :| 0 <= i < |RunStage(h)| && RunStage(h)[i] == s;
      assert runs[i] in runs;
    }
  }

  lemma AltStageKinds(h: seq<Token>)
    ensures StageOf(AltStage(h), 2)
  {
    AlternationsFacts(h, AltPositions(|h|));
    var alts := Alternations(h);
    forall s | s in AltStage(h) ensures StageRank(s.kind) == 2 && s.next != Blank {
      var i :| 0 <= i < |AltStage(h)| && AltStage(h)[i] == s;
      assert alts[i] in alts;
    }
  }

  lemma CanonicalStageKinds(n: nat)
    requires n <= SampleCount
    ensures StageOf(CanonicalStage(n), 3)
  {
    forall s | s in CanonicalStage(n) ensures StageRank(s.kind) == 3 && s.next != Blank {
      assert s in CanonicalSamples();
    }
  }

  lemma PadStageKinds(l: seq<Token>, n: nat)
    requires n <= SampleCount
    ensures StageOf(PadStage(l, n), 4)
  {
    forall s | s in PadStage(l, n) ensures StageRank(s.kind) == 4 && s.next != Blank {
      var i :| 0 <= i < |PadStage(l, n)| && PadStage(l, n)[i] == s;
    }
  }

  /** For a history of at least 20 tokens the stages fill exactly 20 samples,
      so the final trim drops nothing: at least three windows are mined, the
      first three stages hold at most 17, the canonical list adds up to 8 and
      the padding (17 positions over the last 20 tokens) covers the rest. */
  lemma PatternSamplesCount(h: seq<Token>)
    requires |h| >= SampleCount
    ensures |Untrimmed(h)| == SampleCount
    ensures PatternSamples(h) == Untrimmed(h)
  {
    WindowListAtLeastThree(h);
    var all := Untrimmed(h);
    assert |all| == SampleCount;
    assert all[..Min(SampleCount, |all|)] == all;
  }

  /** The stages come out in order and every sample predicts Tai or Xiu. */
  lemma UntrimmedOrder(h: seq<Token>)
    ensures OrderedUpTo(Untrimmed(h), 4)
  {
    MatchStageKinds(h);
    RunStageKinds(h);
    AltStageKinds(h);
    var m, r, a := MatchStage(h), RunStage(h), AltStage(h);
    var first := m + r + a;
    var withCanonical := first + CanonicalStage(|first|);
    StageOrderAppend([], m, 0, 0);
    assert [] + m == m;
    StageOrderAppend(m, r, 0, 1);
    StageOrderAppend(m + r, a, 1, 2);
    CanonicalStageKinds(|first|);
    StageOrderAppend(first, CanonicalStage(|first|), 2, 3);
    PadStageKinds(Suffix(h, SampleCount), |withCanonical|);
    StageOrderAppend(withCanonical, PadStage(Suffix(h, SampleCount), |withCanonical|), 3, 4);
  }

  lemma PrefixOfStages<T>(m: seq<T>, r: seq<T>, a: seq<T>, c: seq<T>, p: seq<T>)
    ensures |m| <= |(m + r + a) + c + p|
    ensures ((m + r + a) + c + p)[..|m|] == m
  {
    assert (m + r + a) + c + p == m + (r + a + c + p);
  }

  /** The match samples open the list. */
  lemma UntrimmedPrefix(h: seq<Token>)
    ensures |MatchStage(h)| <= |Untrimmed(h)|
    ensures MatchStage(h) == Untrimmed(h)[..|MatchStage(h)|]
  {
    var m := MatchStage(h);
    var first := m + RunStage(h) + AltStage(h);
    var c := CanonicalStage(|first|);
    PrefixOfStages(m, RunStage(h), AltStage(h), c, PadStage(Suffix(h, SampleCount), |first + c|));
  }

  /** For a history of at least 20 tokens the generator returns exactly 20
      samples: first the match samples of the top-ranked windows (at most
      12), then at most 3 runs and at most 2 alternations, then canonical
      motifs in list order, then padding; the stages never interleave and
      every sample predicts Tai or Xiu. */
  lemma PatternSamplesFacts(h: seq<Token>)
    requires |h| >= SampleCount
    ensures |PatternSamples(h)| == SampleCount
    ensures PatternSamples(h) == Untrimmed(h)
    ensures MatchStage(h) == PatternSamples(h)[..|MatchStage(h)|]
    ensures forall s :: s in PatternSamples(h) ==> s.next != Blank
    ensures InStageOrder(PatternSamples(h))
  {
    PatternSamplesCount(h);
    UntrimmedOrder(h);
    UntrimmedPrefix(h);
  }

  /** A match sample predicts Tai exactly when its window was followed by Tai
      at least as often as by Xiu (ties favour Tai). */
  lemma MatchStageMeaning(h: seq<Token>, i: nat)
    requires i < |MatchStage(h)|
    ensures i < |WindowList(h)|
    ensures MatchStage(h)[i].pattern == WindowList(h)[i].pattern
    ensures MatchStage(h)[i].next == Tai <==> WindowList(h)[i].taiNext >= WindowList(h)[i].xiuNext
    ensures MatchStage(h)[i].next != Tai ==> MatchStage(h)[i].next == Xiu
  {
  }
}
