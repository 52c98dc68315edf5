/** Structural motifs of a history: maximal runs of equal tokens ('bệt') and
    strict period-2 alternations ('1-1'). */
module Motifs {
  import opened Outcomes
  import opened StableSort

  // ------------------------------------------------------------------- runs

  datatype RunInfo = RunInfo(start: nat, length: nat, pattern: seq<Token>, predNext: Token)

  /** `h[i..j]` is a maximal block of equal tokens. */
  predicate IsMaximalRun(h: seq<Token>, i: nat, j: nat)
  {
    && i < j <= |h|
    && (forall k :: i <= k < j ==> h[k] == h[i])
    && (i == 0 || h[i - 1] != h[i])
    && (j == |h| || h[j] != h[i])
  }

  /** `i` is where a block of equal tokens begins (or the end of the history). */
  predicate IsRunStart(h: seq<Token>, i: nat)
  {
    i <= |h| && (i == 0 || i == |h| || h[i - 1] != h[i])
  }

  /** The inner scan `while (j < n && h[j] === h[i]) j++`, started at `j`. */
  function RunEnd(h: seq<Token>, i: nat, j: nat): (r: nat)
    requires i < j <= |h|
    requires forall k :: i <= k < j ==> h[k] == h[i]
    ensures j <= r <= |h|
    ensures forall k :: i <= k < r ==> h[k] == h[i]
    ensures r == |h| || h[r] != h[i]
    decreases |h| - j
  {
    if j < |h| && h[j] == h[i] then RunEnd(h, i, j + 1) else j
  }

  /** The guess after a run ending before `j`: the next token when it is a
      truthy string, else the opposite of the run's token. */
  function RunNext(h: seq<Token>, i: nat, j: nat): (r: Token)
    requires i < |h|
    ensures r != Blank
  {
    if j < |h| && h[j] != Blank then h[j] else Flip(h[i])
  }

  /** The runs of length at least 3 found by the scan from `i`, in order. */
  function RunsFrom(h: seq<Token>, i: nat): seq<RunInfo>
    requires i <= |h|
    decreases |h| - i
  {
    if i == |h| then []
    else
      var j := RunEnd(h, i, i + 1);
      (if j - i >= 3 then [RunInfo(i, j - i, h[i..j], RunNext(h, i, j))] else []) + RunsFrom(h, j)
  }

  function RunLength(r: RunInfo): int { r.length }

  function RunStart(r: RunInfo): int { r.start }

  /** `detectRuns`: the runs in scan order, then sorted by length, longest
      first, equal lengths keeping scan order. */
  function DetectedRuns(h: seq<Token>): seq<RunInfo>
  {
    SortDesc(RunsFrom(h, 0), RunLength)
  }

  method DetectRuns(h: seq<Token>) returns (runs: seq<RunInfo>)
    ensures runs == DetectedRuns(h)
  {
    runs := [];
    var i := 0;
    while i < |h|
      invariant i <= |h|
      invariant runs + RunsFrom(h, i) == RunsFrom(h, 0)
    {
      var j := i + 1;
      while j < |h| && h[j] == h[i]
        invariant i < j <= |h|
        invariant forall k :: i <= k < j ==> h[k] == h[i]
        invariant RunEnd(h, i, j) == RunEnd(h, i, i + 1)
      {
        j := j + 1;
      }
      var length := j - i;
      var found := [];
      if length >= 3 {
        var predNext := if j < |h| && h[j] != Blank then h[j] else Flip(h[i]);
        found := [RunInfo(i, length, h[i..j], predNext)];
      }
      RunsFromStep(h, i, j, found, runs);
      runs := runs + found;
      i := j;
    }
    assert runs + [] == runs;
    runs := SortDesc(runs, RunLength);
  }

  /** One round of the outer scan: the runs still to find from `i` are those
      of the block `h[i..j]` (if long enough), then those from `j`. */
  lemma RunsFromStep(h: seq<Token>, i: nat, j: nat, found: seq<RunInfo>, prior: seq<RunInfo>)
    requires i < j <= |h|
    requires j == RunEnd(h, i, i + 1)
    requires found == if j - i >= 3 then [RunInfo(i, j - i, h[i..j], RunNext(h, i, j))] else []
    ensures prior + RunsFrom(h, i) == (prior + found) + RunsFrom(h, j)
  {
  }

  /** `r` is a maximal run of at least three tokens of `h`, with its tokens
      and the guess for what follows. */
  predicate IsReportedRun(h: seq<Token>, r: RunInfo)
  {
    && r.length >= 3
    && IsMaximalRun(h, r.start, r.start + r.length)
    && r.pattern == h[r.start..r.start + r.length]
    && r.predNext == RunNext(h, r.start, r.start + r.length)
  }

  /** Every run the scan reports from a block start is a maximal run of at
      least three tokens at or after that start, with its tokens and the
      guess for what follows. */
  lemma {:induction false} RunsFromSound(h: seq<Token>, i: nat)
    requires IsRunStart(h, i)
    ensures forall r :: r in RunsFrom(h, i) ==> r.start >= i && IsReportedRun(h, r)
    decreases |h| - i
  {
    if i < |h| {
      var j := RunEnd(h, i, i + 1);
      RunsFromSound(h, j);
      BlockIsMaximal(h, i);
      forall r | r in RunsFrom(h, i)
        ensures r.start >= i && IsReportedRun(h, r)
      {
        RunsFromSplit(h, i, r);
        if r !in RunsFrom(h, j) {
          assert r == RunInfo(i, j - i, h[i..j], RunNext(h, i, j));
        }
      }
    }
  }

  /** The block scanned from a block start is a maximal run, reported when
      it has at least three tokens, and the scan resumes at a block start. */
  lemma BlockIsMaximal(h: seq<Token>, i: nat)
    requires IsRunStart(h, i) && i < |h|
    ensures var j := RunEnd(h, i, i + 1);
            j - i >= 3 ==> IsReportedRun(h, RunInfo(i, j - i, h[i..j], RunNext(h, i, j)))
    ensures IsRunStart(h, RunEnd(h, i, i + 1))
  {
  }

  /** A run reported from `i` is the block at `i` or is reported after it. */
  lemma RunsFromSplit(h: seq<Token>, i: nat, r: RunInfo)
    requires i < |h| && r in RunsFrom(h, i)
    ensures var j := RunEnd(h, i, i + 1);
            r in RunsFrom(h, j) || (j - i >= 3 && r == RunInfo(i, j - i, h[i..j], RunNext(h, i, j)))
  {
  }

  /** Every maximal run of at least three tokens at or after a block start is
      reported by the scan from there. */
  lemma {:induction false} RunsFromComplete(h: seq<Token>, i: nat, a: nat, b: nat)
    requires IsRunStart(h, i)
    requires i <= a
    requires IsMaximalRun(h, a, b) && b - a >= 3
    ensures RunInfo(a, b - a, h[a..b], RunNext(h, a, b)) in RunsFrom(h, i)
    decreases |h| - i
  {
    var j := RunEnd(h, i, i + 1);
    if i == a {
      RunEndUnique(h, a, b, j);
      RunsFromHead(h, a, b);
    } else {
      NextRunStart(h, i, a);
      RunsFromComplete(h, j, a, b);
      RunsFromTail(h, i, RunInfo(a, b - a, h[a..b], RunNext(h, a, b)));
    }
  }

  /** A maximal run of at least three tokens is the first one reported by
      the scan from its start. */
  lemma RunsFromHead(h: seq<Token>, a: nat, b: nat)
    requires a < b <= |h| && b - a >= 3
    requires b == RunEnd(h, a, a + 1)
    ensures RunInfo(a, b - a, h[a..b], RunNext(h, a, b)) in RunsFrom(h, a)
  {
    assert RunsFrom(h, a)[0] == RunInfo(a, b - a, h[a..b], RunNext(h, a, b));
  }

  /** The block starting at `i` ends at a block start no later than any block
      start `a` after `i`. */
  lemma NextRunStart(h: seq<Token>, i: nat, a: nat)
    requires i < a && IsRunStart(h, a) && a < |h|
    ensures RunEnd(h, i, i + 1) <= a
    ensures IsRunStart(h, RunEnd(h, i, i + 1))
  {
    assert h[a - 1] != h[a];
  }

  /** What the scan reports after the block at `i` it reports from `i`. */
  lemma RunsFromTail(h: seq<Token>, i: nat, x: RunInfo)
    requires i < |h|
    requires x in RunsFrom(h, RunEnd(h, i, i + 1))
    ensures x in RunsFrom(h, i)
  {
  }

  lemma RunEndUnique(h: seq<Token>, a: nat, b: nat, j: nat)
    requires IsMaximalRun(h, a, b)
    requires a < j <= |h|
    requires forall k :: a <= k < j ==> h[k] == h[a]
    requires j == |h| || h[j] != h[a]
    ensures j == b
  {
  }

  /** The runs of `detectRuns` are exactly the maximal runs of length at
      least 3, ordered by length (longest first), equal lengths in order of
      position. */
  lemma DetectedRunsFacts(h: seq<Token>)
    ensures forall r :: r in DetectedRuns(h) ==>
              && r.length >= 3
              && IsMaximalRun(h, r.start, r.start + r.length)
              && r.pattern == h[r.start..r.start + r.length]
              && r.predNext == RunNext(h, r.start, r.start + r.length)
    ensures forall a: nat, b: nat :: IsMaximalRun(h, a, b) && b - a >= 3 ==>
              RunInfo(a, b - a, h[a..b], RunNext(h, a, b)) in DetectedRuns(h)
    ensures NonIncreasing(DetectedRuns(h), RunLength)
    ensures forall v :: WithKey(DetectedRuns(h), RunLength, v) == WithKey(RunsFrom(h, 0), RunLength, v)
    ensures forall p, q :: 0 <= p < q < |DetectedRuns(h)| && DetectedRuns(h)[p].length == DetectedRuns(h)[q].length ==>
              DetectedRuns(h)[p].start < DetectedRuns(h)[q].start
  {
    var scan := RunsFrom(h, 0);
    var sorted := DetectedRuns(h);
    RunsFromSound(h, 0);
    forall r | r in sorted
      ensures r in scan
    {
      assert r in multiset(sorted);
    }
    forall a: nat, b: nat | IsMaximalRun(h, a, b) && b - a >= 3
      ensures RunInfo(a, b - a, h[a..b], RunNext(h, a, b)) in sorted
    {
      RunsFromComplete(h, 0, a, b);
      assert RunInfo(a, b - a, h[a..b], RunNext(h, a, b)) in multiset(scan);
    }
    SortDescSorted(scan, RunLength);
    forall v ensures WithKey(sorted, RunLength, v) == WithKey(scan, RunLength, v) {
      SortDescStable(scan, RunLength, v);
    }
    DetectedRunsPositionOrder(h);
  }

  /** Runs of equal length come out of `detectRuns` in increasing position;
      in particular no run is listed twice. */
  lemma DetectedRunsPositionOrder(h: seq<Token>)
    ensures forall p, q :: 0 <= p < q < |DetectedRuns(h)| && RunLength(DetectedRuns(h)[p]) == RunLength(DetectedRuns(h)[q]) ==>
              RunStart(DetectedRuns(h)[p]) < RunStart(DetectedRuns(h)[q])
  {
    var scan := RunsFrom(h, 0);
    var sorted := DetectedRuns(h);
    RunsFromIncreasing(h, 0);
    forall v ensures Increasing(WithKey(sorted, RunLength, v), RunStart) {
      SortDescStable(scan, RunLength, v);
      WithKeyIncreasing(scan, RunLength, RunStart, v);
    }
    EqualKeysIncreasing(sorted, RunLength, RunStart);
  }

  /** The scan from `i` reports runs at or after `i`, in increasing position. */
  lemma {:induction false} RunsFromIncreasing(h: seq<Token>, i: nat)
    requires i <= |h|
    ensures forall r :: r in RunsFrom(h, i) ==> r.start >= i
    ensures Increasing(RunsFrom(h, i), RunStart)
    decreases |h| - i
  {
    if i < |h| {
      var j := RunEnd(h, i, i + 1);
      RunsFromIncreasing(h, j);
      var head := if j - i >= 3 then [RunInfo(i, j - i, h[i..j], RunNext(h, i, j))] else [];
      var tail := RunsFrom(h, j);
      var runs := RunsFrom(h, i);
      assert runs == head + tail;
      forall r | r in runs ensures r.start >= i {
        RunsFromSplit(h, i, r);
      }
      forall p, q | 0 <= p < q < |runs| ensures RunStart(runs[p]) < RunStart(runs[q]) {
        if p < |head| {
          assert runs[q] == tail[q - 1];
          assert runs[q] in tail;
        } else {
          assert runs[p] == tail[p - |head|] && runs[q] == tail[q - |head|];
        }
      }
    }
  }

  /** Every run found by the scan guesses Tai or Xiu. */
  lemma {:induction false} RunsFromGuess(h: seq<Token>, i: nat)
    requires i <= |h|
    ensures forall r :: r in RunsFrom(h, i) ==> r.predNext != Blank
    decreases |h| - i
  {
    if i < |h| {
      RunsFromGuess(h, RunEnd(h, i, i + 1));
    }
  }

  /** Every run of `detectRuns` guesses Tai or Xiu. */
  lemma DetectedRunsGuess(h: seq<Token>)
    ensures forall r :: r in DetectedRuns(h) ==> r.predNext != Blank
  {
    RunsFromGuess(h, 0);
    forall r | r in DetectedRuns(h)
      ensures r in RunsFrom(h, 0)
    {
      assert r in multiset(DetectedRuns(h));
    }
  }

  // ----------------------------------------------------------- alternations

  datatype AltInfo = AltInfo(index: nat, pattern: seq<Token>, predNext: Token)

  /** `h[i..i+4]` is a, b, a, b with a != b. */
  predicate AltAt(h: seq<Token>, i: nat)
    requires i + 4 <= |h|
  {
    h[i] != h[i + 1] && h[i] == h[i + 2] && h[i + 1] == h[i + 3]
  }

  /** Number of 4-windows of `h`. */
  function AltPositions(len: nat): nat
  {
    if len >= 4 then len - 3 else 0
  }

  /** The alternation reported at position `i`, if any. */
  function AltFound(h: seq<Token>, i: nat): seq<AltInfo>
    requires i + 4 <= |h|
  {
    if AltAt(h, i) then [AltInfo(i, h[i..i + 4], Flip(h[i + 3]))] else []
  }

  /** Alternations starting before `m`, in increasing position. */
  function AltsBefore(h: seq<Token>, m: nat): seq<AltInfo>
    requires m <= AltPositions(|h|)
  {
    if m == 0 then [] else AltsBefore(h, m - 1) + AltFound(h, m - 1)
  }

  /** `detectAlternations`. */
  function Alternations(h: seq<Token>): seq<AltInfo>
  {
    AltsBefore(h, AltPositions(|h|))
  }

  method DetectAlternations(h: seq<Token>) returns (alts: seq<AltInfo>)
    ensures alts == Alternations(h)
  {
    alts := [];
    var i := 0;
    while i + 4 <= |h|
      invariant i <= AltPositions(|h|)
      invariant alts == AltsBefore(h, i)
    {
      var found := CheckWindow(h, i);
      alts := alts + found;
      i := i + 1;
    }
  }

  /** The loop body: the 4-window at `i` is reported when it reads a, b, a, b
      with a != b, guessing the opposite of its last token. */
  method CheckWindow(h: seq<Token>, i: nat) returns (found: seq<AltInfo>)
    requires i + 4 <= |h|
    ensures found == AltFound(h, i)
  {
    found := [];
    var window := h[i..i + 4];
    if window[0] != window[1] && window[0] == window[2] && window[1] == window[3] {
      var predNext := if window[3] == Tai then Xiu else Tai;
      found := [AltInfo(i, window, predNext)];
    }
  }

  /** The alternations reported are exactly the positions of a, b, a, b
      windows, in increasing position, each predicting the opposite of its
      last token. */
  lemma AlternationsFacts(h: seq<Token>, m: nat)
    requires m <= AltPositions(|h|)
    ensures forall i :: 0 <= i < m ==>
              (AltAt(h, i) <==> AltInfo(i, h[i..i + 4], Flip(h[i + 3])) in AltsBefore(h, m))
    ensures forall a :: a in AltsBefore(h, m) ==>
              && a.index < m
              && AltAt(h, a.index)
              && a.pattern == h[a.index..a.index + 4]
              && a.predNext == Flip(h[a.index + 3])
    ensures forall p, q :: 0 <= p < q < |AltsBefore(h, m)| ==>
              AltsBefore(h, m)[p].index < AltsBefore(h, m)[q].index
  {
    AltsSound(h, m);
    AltsComplete(h, m);
    AltsOrdered(h, m);
  }

  /** What is reported at one position: the alternation there, if any. */
  lemma AltFoundFacts(h: seq<Token>, i: nat)
    requires i + 4 <= |h|
    ensures AltAt(h, i) <==> AltInfo(i, h[i..i + 4], Flip(h[i + 3])) in AltFound(h, i)
    ensures forall a :: a in AltFound(h, i) ==>
              a.index == i && AltAt(h, i) && a.pattern == h[i..i + 4] && a.predNext == Flip(h[i + 3])
  {
  }

  lemma {:induction false} AltsSound(h: seq<Token>, m: nat)
    requires m <= AltPositions(|h|)
    ensures forall a :: a in AltsBefore(h, m) ==>
              && a.index < m
              && AltAt(h, a.index)
              && a.pattern == h[a.index..a.index + 4]
              && a.predNext == Flip(h[a.index + 3])
  {
    if m > 0 {
      AltsSound(h, m - 1);
      AltFoundFacts(h, m - 1);
      forall a | a in AltsBefore(h, m)
        ensures && a.index < m
                && AltAt(h, a.index)
                && a.pattern == h[a.index..a.index + 4]
                && a.predNext == Flip(h[a.index + 3])
      {
        assert a in AltsBefore(h, m - 1) || a in AltFound(h, m - 1);
      }
    }
  }

  lemma {:induction false} AltsBelow(h: seq<Token>, m: nat)
    requires m <= AltPositions(|h|)
    ensures forall a :: a in AltsBefore(h, m) ==> a.index < m
  {
    if m > 0 {
      AltsBelow(h, m - 1);
      AltFoundFacts(h, m - 1);
      forall a | a in AltsBefore(h, m)
        ensures a.index < m
      {
        assert a in AltsBefore(h, m - 1) || a in AltFound(h, m - 1);
      }
    }
  }

  lemma {:induction false} AltsComplete(h: seq<Token>, m: nat)
    requires m <= AltPositions(|h|)
    ensures forall i :: 0 <= i < m ==>
              (AltAt(h, i) <==> AltInfo(i, h[i..i + 4], Flip(h[i + 3])) in AltsBefore(h, m))
  {
    if m > 0 {
      AltsComplete(h, m - 1);
      AltsBelow(h, m - 1);
      AltFoundFacts(h, m - 1);
      var prior := AltsBefore(h, m - 1);
      var found := AltFound(h, m - 1);
      forall i | 0 <= i < m
        ensures AltAt(h, i) <==> AltInfo(i, h[i..i + 4], Flip(h[i + 3])) in prior + found
      {
        var x := AltInfo(i, h[i..i + 4], Flip(h[i + 3]));
        if i < m - 1 {
          assert x !in found;
        } else {
          assert x !in prior;
        }
      }
    }
  }

  lemma {:induction false} AltsOrdered(h: seq<Token>, m: nat)
    requires m <= AltPositions(|h|)
    ensures forall p, q :: 0 <= p < q < |AltsBefore(h, m)| ==>
              AltsBefore(h, m)[p].index < AltsBefore(h, m)[q].index
  {
    if m > 0 {
      AltsOrdered(h, m - 1);
      AltsBelow(h, m - 1);
      AltFoundFacts(h, m - 1);
      var prior := AltsBefore(h, m - 1);
      var alts := prior + AltFound(h, m - 1);
      forall p, q | 0 <= p < q < |alts|
        ensures alts[p].index < alts[q].index
      {
        assert alts[p] == prior[p];
        if q < |prior| {
          assert alts[q] == prior[q];
        } else {
          assert alts[q] in AltFound(h, m - 1);
          assert prior[p] in prior;
        }
      }
    }
  }
}
