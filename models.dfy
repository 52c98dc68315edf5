/** The five predictors the engine runs on a window of the history. Each
    returns a token: Tai or Xiu, except that Model 1 repeats the window's last
    token after a run and so returns Blank when that token is Blank. */
module Predictors {
  import opened Outcomes
  import opened WindowTable

  datatype Option<T> = None | Some(value: T)

  // ================================================= Model 1: pattern analysis

  const AltTXTX: seq<Token> := [Tai, Xiu, Tai, Xiu]
  const OneTwoOne: seq<Token> := [Tai, Xiu, Xiu, Tai]
  const TwoOneTwo: seq<Token> := [Xiu, Tai, Tai, Xiu]
  const TaiRun: seq<Token> := [Tai, Tai, Tai]
  const XiuRun: seq<Token> := [Xiu, Xiu, Xiu]
  const TwoTwo: seq<Token> := [Tai, Tai, Xiu, Xiu]

  /** `w.endsWith('Tài') ? 'Xỉu' : 'Tài'` on the joined window. */
  function AgainstLast(w: seq<Token>): (r: Token)
    ensures r != Blank
    ensures r == Xiu <==> |w| > 0 && w[|w| - 1] == Tai
  {
    if |w| > 0 && w[|w| - 1] == Tai then Xiu else Tai
  }

  lemma ContainsFits(s: seq<Token>, pat: seq<Token>)
    requires Contains(s, pat)
    ensures |pat| <= |s|
  {
  }

  /** Model 1: the first motif found among the last six tokens decides; with
      none, the majority of the samples' predictions decides. */
  function PatternAnalysis(data: seq<Token>, samples: seq<Sample>): (r: Token)
    ensures r == Blank ==> |data| > 0 && data[|data| - 1] == Blank
  {
    var w := Suffix(data, 6);
    if Contains(w, AltTXTX) then AgainstLast(w)
    else if Contains(w, OneTwoOne) then Xiu
    else if Contains(w, TwoOneTwo) then Tai
    else if Contains(w, TaiRun) || Contains(w, XiuRun) then
      if Contains(w, TaiRun) then ContainsFits(w, TaiRun); data[|data| - 1]
      else ContainsFits(w, XiuRun); data[|data| - 1]
    else if Contains(w, TwoTwo) then AgainstLast(w)
    else SampleMajority(samples)
  }

  /** Model 1 looks at nothing of the window but its last six tokens. */
  lemma PatternAnalysisLocal(data: seq<Token>, samples: seq<Sample>)
    ensures PatternAnalysis(data, samples) == PatternAnalysis(Suffix(data, 6), samples)
  {
    var w := Suffix(data, 6);
    assert Suffix(w, 6) == w;
    if |data| > 0 {
      assert w[|w| - 1] == data[|data| - 1];
    }
  }

  /** A constant sequence contains no pattern with another token in it. */
  lemma NotInConstant(w: seq<Token>, pat: seq<Token>, t: Token, k: nat)
    requires AllAre(w, t)
    requires k < |pat| && pat[k] != t
    ensures !Contains(w, pat)
  {
    forall i: nat | i <= |w| ensures !OccursAt(w, pat, i) {
      if i + |pat| <= |w| {
        assert w[i..i + |pat|][k] == w[i + k];
      }
    }
  }

  /** A window whose last six tokens are all Tai (or all Xiu) is a run, and
      the run is predicted to continue. */
  lemma PatternAnalysisConstant(data: seq<Token>, samples: seq<Sample>, t: Token)
    requires t != Blank && |data| >= 3
    requires AllAre(Suffix(data, 6), t)
    ensures PatternAnalysis(data, samples) == t
  {
    var w := Suffix(data, 6);
    var other := if t == Tai then 1 else 0;
    NotInConstant(w, AltTXTX, t, other);
    NotInConstant(w, OneTwoOne, t, other);
    NotInConstant(w, TwoOneTwo, t, 1 - other);
    var run := if t == Tai then TaiRun else XiuRun;
    assert OccursAt(w, run, 0) by {
      assert forall k :: 0 <= k < 3 ==> w[k] == run[k];
    }
    assert w[|w| - 1] == data[|data| - 1];
  }

  /** 1-1 alternation: when the last five tokens alternate between Tai and
      Xiu, the prediction breaks the alternation's rhythm by answering the
      opposite of the last token. */
  predicate Alternating(v: seq<Token>)
  {
    forall k :: 0 <= k < |v| ==> v[k] != Blank && (k + 1 < |v| ==> v[k + 1] != v[k])
  }

  lemma PatternAnalysisAlternation(data: seq<Token>, samples: seq<Sample>)
    requires |data| >= 5 && Alternating(data[|data| - 5..])
    ensures PatternAnalysis(data, samples) == Flip(data[|data| - 1])
  {
    var w := Suffix(data, 6);
    AlternationHasMotif(data);
    assert w[|w| - 1] == data[|data| - 1];
  }

  /** The last five tokens alternating, the last six contain 1-1 alternation
      starting with Tai. */
  lemma AlternationHasMotif(data: seq<Token>)
    requires |data| >= 5 && Alternating(data[|data| - 5..])
    ensures Contains(Suffix(data, 6), AltTXTX)
  {
    var w := Suffix(data, 6);
    var off := |w| - 5;
    var v := data[|data| - 5..];
    assert w[off..] == v;
    assert v[3] != v[4] && v[2] != v[3] && v[1] != v[2] && v[0] != v[1];
    assert v[0] != Blank && v[1] != Blank && v[2] != Blank && v[3] != Blank && v[4] != Blank;
    if v[4] == Tai {
      assert v[..4] == AltTXTX;
      assert w[off..off + 4] == v[..4];
      assert OccursAt(w, AltTXTX, off);
    } else {
      assert v[1..] == AltTXTX;
      assert w[off + 1..off + 5] == v[1..];
      assert OccursAt(w, AltTXTX, off + 1);
    }
  }

  /** The run branch repeats the last token even when it is Blank: such a
      window votes for neither side. */
  lemma PatternAnalysisBlankVote(samples: seq<Sample>)
    ensures PatternAnalysis([Xiu, Xiu, Tai, Tai, Tai, Blank], samples) == Blank
  {
    var w: seq<Token> := [Xiu, Xiu, Tai, Tai, Tai, Blank];
    assert Suffix(w, 6) == w;
    assert !Contains(w, AltTXTX) by {
      forall i: nat | i <= |w| ensures !OccursAt(w, AltTXTX, i) {
        if i + 4 <= |w| { assert w[i..i + 4][0] == w[i] && w[i..i + 4][1] == w[i + 1] && w[i..i + 4][3] == w[i + 3]; }
      }
    }
    assert !Contains(w, OneTwoOne) by {
      forall i: nat | i <= |w| ensures !OccursAt(w, OneTwoOne, i) {
        if i + 4 <= |w| { assert w[i..i + 4][0] == w[i] && w[i..i + 4][1] == w[i + 1] && w[i..i + 4][3] == w[i + 3]; }
      }
    }
    assert !Contains(w, TwoOneTwo) by {
      forall i: nat | i <= |w| ensures !OccursAt(w, TwoOneTwo, i) {
        if i + 4 <= |w| { assert w[i..i + 4][0] == w[i] && w[i..i + 4][1] == w[i + 1] && w[i..i + 4][3] == w[i + 3]; }
      }
    }
    assert OccursAt(w, TaiRun, 2);
  }

  // ================================================ Model 2: rolling frequency

  /** Share of Tai in the window, as a rounded percentage. */
  function TaiPercent(data: seq<Token>): (r: nat)
    requires |data| > 0
    ensures r <= 100
  {
    RoundPercent(Count(data, Tai), |data|)
  }

  /** Model 2: a strongly skewed window is expected to even out; a
      moderately skewed one too; a nearly balanced one follows its lean. */
  function FrequencyAnalysis(data: seq<Token>): (r: Token)
    ensures r != Blank
  {
    if |data| == 0 then Tai
    else
      var pct := TaiPercent(data);
      if pct >= 70 then Xiu
      else if pct <= 30 then Tai
      else if pct > 55 then Xiu
      else if pct < 45 then Tai
      else if pct >= 50 then Tai
      else Xiu
  }

  /** The bands, flattened: Tai exactly when the rounded share is below 45%
      or between 50% and 55%. */
  lemma FrequencyBands(data: seq<Token>)
    requires |data| > 0
    ensures FrequencyAnalysis(data) == Tai <==> TaiPercent(data) < 45 || 50 <= TaiPercent(data) <= 55
    ensures FrequencyAnalysis(data) == Xiu <==> 45 <= TaiPercent(data) < 50 || TaiPercent(data) > 55
  {
  }

  /** Stated on counts, before rounding: at least 70% Tai predicts Xiu, at
      most 30% predicts Tai, and an exact half predicts Tai. */
  lemma FrequencyOnCounts(data: seq<Token>)
    requires |data| > 0
    ensures 10 * Count(data, Tai) >= 7 * |data| ==> FrequencyAnalysis(data) == Xiu
    ensures 10 * Count(data, Tai) <= 3 * |data| ==> FrequencyAnalysis(data) == Tai
    ensures 2 * Count(data, Tai) == |data| ==> FrequencyAnalysis(data) == Tai
  {
    var c, n, pct := Count(data, Tai), |data|, TaiPercent(data);
    if 10 * c >= 7 * n && pct < 70 {
      MulLe(2 * n, pct + 1, 70);
    }
    if 10 * c <= 3 * n && pct > 30 {
      MulLe(2 * n, 31, pct);
    }
    if 2 * c == n && pct > 50 {
      MulLe(2 * n, 51, pct);
    }
    if 2 * c == n && pct < 50 {
      MulLe(2 * n, pct + 1, 50);
    }
  }

  lemma MulLe(k: nat, a: int, b: int)
    requires a <= b
    ensures k * a <= k * b
  {
  }

  // ==================================================== Model 3: Markov chain

  /** Transition counters: from Tai to Tai, from Tai to anything else, from a
      non-Tai to anything but Xiu, and from a non-Tai to Xiu. */
  datatype Transitions = Transitions(tt: nat, tx: nat, xt: nat, xx: nat)

  /** The number of pairs the counters record. */
  function Pairs(c: Transitions): nat
  {
    c.tt + c.tx + c.xt + c.xx
  }

  /** Counts the pair `a`, `b` once, in the row of `a`. */
  function Step(c: Transitions, a: Token, b: Token): Transitions
  {
    if a == Tai then
      if b == Tai then c.(tt := c.tt + 1) else c.(tx := c.tx + 1)
    else
      if b == Xiu then c.(xx := c.xx + 1) else c.(xt := c.xt + 1)
  }

  /** The counters over all adjacent pairs of `s`. */
  function TransitionsOf(s: seq<Token>): Transitions
  {
    if |s| < 2 then Transitions(0, 0, 0, 0)
    else Step(TransitionsOf(s[..|s| - 1]), s[|s| - 2], s[|s| - 1])
  }

  /** Each pair is counted once, in the row of its first token. */
  lemma {:induction false} TransitionsRows(s: seq<Token>)
    requires |s| > 0
    ensures TransitionsOf(s).tt + TransitionsOf(s).tx == Count(s[..|s| - 1], Tai)
    ensures TransitionsOf(s).xt + TransitionsOf(s).xx == |s| - 1 - Count(s[..|s| - 1], Tai)
  {
    if |s| >= 2 {
      var p := s[..|s| - 1];
      TransitionsRows(p);
      assert p[..|p| - 1] == s[..|s| - 2];
    }
  }

  /** Every adjacent pair is counted exactly once. */
  lemma {:induction false} TransitionsTotal(s: seq<Token>)
    ensures Pairs(TransitionsOf(s)) == if |s| < 2 then 0 else |s| - 1
  {
    if |s| >= 2 {
      var c := TransitionsOf(s);
      TransitionsRows(s);
      assert Pairs(c) == (c.tt + c.tx) + (c.xt + c.xx);
    }
  }

  /** In a constant window every pair is a self-transition. */
  lemma {:induction false} TransitionsConstant(s: seq<Token>, t: Token)
    requires t != Blank && AllAre(s, t) && |s| > 0
    ensures t == Tai ==> TransitionsOf(s) == Transitions(|s| - 1, 0, 0, 0)
    ensures t == Xiu ==> TransitionsOf(s) == Transitions(0, 0, 0, |s| - 1)
  {
    if |s| >= 2 {
      TransitionsConstant(s[..|s| - 1], t);
    }
  }

  /** `same / (same + other)`, or 0.5 with no transitions. */
  function PSelf(same: nat, other: nat): (r: real)
    ensures 0.0 <= r <= 1.0
    ensures r >= 0.5 <==> same >= other
  {
    if same + other > 0 then
      ShareAtLeastHalf(same, other);
      same as real / (same + other) as real
    else 0.5
  }

  lemma ShareAtLeastHalf(same: nat, other: nat)
    requires same + other > 0
    ensures 0.0 <= same as real / (same + other) as real <= 1.0
    ensures same as real / (same + other) as real >= 0.5 <==> same >= other
  {
    var d := (same + other) as real;
    var q := same as real / d;
    QuotientTimesDivisor(same as real, d);
    ScaleByPositive(q, 0.0, d);
    ScaleByPositive(q, 0.5, d);
    ScaleByPositive(1.0, q, d);
  }

  lemma QuotientTimesDivisor(x: real, d: real)
    requires d > 0.0
    ensures (x / d) * d == x
  {
  }

  lemma ScaleByPositive(x: real, y: real, d: real)
    requires d > 0.0
    ensures x < y <==> x * d < y * d
  {
    if x < y {
      assert (y - x) * d > 0.0;
    } else {
      assert (x - y) * d >= 0.0;
    }
  }

  /** Model 3: stay on the last token when its self-transition probability
      is at least one half, else switch. */
  function MarkovPrediction(data: seq<Token>): (r: Token)
    ensures r != Blank
  {
    if |data| < 2 then Tai
    else
      var c := TransitionsOf(data);
      if data[|data| - 1] == Tai then (if PSelf(c.tt, c.tx) >= 0.5 then Tai else Xiu)
      else (if PSelf(c.xx, c.xt) >= 0.5 then Xiu else Tai)
  }

  /** On counts: after Tai the chain keeps Tai iff Tai→Tai is at least as
      frequent as Tai→other; after anything else it predicts Xiu iff the
      self-transition is at least as frequent. */
  lemma MarkovOnCounts(data: seq<Token>)
    requires |data| >= 2
    ensures data[|data| - 1] == Tai ==>
              (MarkovPrediction(data) == Tai <==> TransitionsOf(data).tt >= TransitionsOf(data).tx)
    ensures data[|data| - 1] != Tai ==>
              (MarkovPrediction(data) == Xiu <==> TransitionsOf(data).xx >= TransitionsOf(data).xt)
  {
  }

  /** A constant window of Tai or Xiu is predicted to go on. */
  lemma MarkovConstant(data: seq<Token>, t: Token)
    requires t != Blank && AllAre(data, t) && |data| >= 2
    ensures MarkovPrediction(data) == t
  {
    TransitionsConstant(data, t);
  }

  method CountTransitions(data: seq<Token>) returns (c: Transitions)
    ensures c == TransitionsOf(data)
  {
    c := Transitions(0, 0, 0, 0);
    if |data| < 2 {
      return;
    }
    var i := 0;
    while i < |data| - 1
      invariant i <= |data| - 1
      invariant c == TransitionsOf(data[..i + 1])
    {
      assert data[..i + 2][..i + 1] == data[..i + 1];
      if data[i] == Tai {
        if data[i + 1] == Tai { c := c.(tt := c.tt + 1); } else { c := c.(tx := c.tx + 1); }
      } else {
        if data[i + 1] == Xiu { c := c.(xx := c.xx + 1); } else { c := c.(xt := c.xt + 1); }
      }
      i := i + 1;
    }
    assert data[..i + 1] == data;
  }

  method MarkovChain(data: seq<Token>) returns (r: Token)
    ensures r == MarkovPrediction(data)
  {
    if |data| < 2 {
      return Tai;
    }
    var c := CountTransitions(data);
    var pTT := if c.tt + c.tx > 0 then c.tt as real / (c.tt + c.tx) as real else 0.5;
    var pXX := if c.xx + c.xt > 0 then c.xx as real / (c.xx + c.xt) as real else 0.5;
    if data[|data| - 1] == Tai {
      r := if pTT >= 0.5 then Tai else Xiu;
    } else {
      r := if pXX >= 0.5 then Xiu else Tai;
    }
  }

  // ================================================== Model 4: n-gram matching

  /** Followers of one n-gram: how many were Tai, how many Xiu, how many in
      all (a Blank follower counts only in the total). */
  datatype NextCounts = NextCounts(tai: nat, xiu: nat, total: nat)

  /** `Math.min(4, Math.max(3, data.length - 1))`. */
  function NgramSize(len: nat): (n: nat)
    ensures 3 <= n <= 4
    ensures len >= 5 ==> n == 4
  {
    Min(4, Max(3, len - 1))
  }

  function CountFollower(c: NextCounts, next: Token): (r: NextCounts)
    ensures r.total == c.total + 1
    ensures r.tai + r.xiu <= c.tai + c.xiu + 1
  {
    NextCounts(c.tai + (if next == Tai then 1 else 0), c.xiu + (if next == Xiu then 1 else 0), c.total + 1)
  }

  /** The n-gram dictionary after the positions before `m`. */
  function NgramTable(data: seq<Token>, n: nat, m: nat): map<seq<Token>, NextCounts>
    requires m <= FollowedWindows(|data|, n)
  {
    if m == 0 then map[]
    else
      var t := NgramTable(data, n, m - 1);
      var key := data[m - 1..m - 1 + n];
      t[key := CountFollower(if key in t then t[key] else NextCounts(0, 0, 0), data[m - 1 + n])]
  }

  /** `entry.Tài >= entry.Xỉu ? 'Tài' : 'Xỉu'`. */
  function Lean(c: NextCounts): (r: Token)
    ensures r != Blank
  {
    if c.tai >= c.xiu then Tai else Xiu
  }

  /** Model 4: look the last n tokens up among the earlier n-grams; retry
      with the last 3 tokens; fall back on the samples' majority. */
  function NgramPrediction(data: seq<Token>, samples: seq<Sample>): (r: Token)
    ensures r != Blank
  {
    var n := NgramSize(|data|);
    var table := NgramTable(data, n, FollowedWindows(|data|, n));
    var lastN := Suffix(data, n);
    if lastN in table then Lean(table[lastN])
    else if n > 3 && Suffix(data, 3) in table then Lean(table[Suffix(data, 3)])
    else SampleMajority(samples)
  }

  /** The dictionary's meaning: a key is present exactly when it is an
      n-gram occurring at a position before `m`, and its counters are the
      numbers of such positions followed by Tai, by Xiu, and in all. */
  lemma NgramEntry(data: seq<Token>, n: nat, m: nat, key: seq<Token>)
    requires m <= FollowedWindows(|data|, n)
    ensures key in NgramTable(data, n, m) <==> |key| == n && PositionCount(data, key, m) > 0
    ensures key in NgramTable(data, n, m) ==>
              NgramTable(data, n, m)[key]
              == NextCounts(FollowerCount(data, key, m, Tai), FollowerCount(data, key, m, Xiu),
                            PositionCount(data, key, m))
  {
    NgramKeys(data, n, m, key);
    NgramCounts(data, n, m, key);
  }

  /** A key is in the dictionary exactly when it is an n-gram occurring at a
      position before `m`. */
  lemma {:induction false} NgramKeys(data: seq<Token>, n: nat, m: nat, key: seq<Token>)
    requires m <= FollowedWindows(|data|, n)
    ensures key in NgramTable(data, n, m) <==> |key| == n && PositionCount(data, key, m) > 0
  {
    if m > 0 {
      NgramKeys(data, n, m - 1, key);
      if |key| == n {
        PositionStep(data, key, m);
      }
    }
  }

  /** The counters of a key in the dictionary count its positions before
      `m`, and those followed by Tai and by Xiu. */
  lemma {:induction false} NgramCounts(data: seq<Token>, n: nat, m: nat, key: seq<Token>)
    requires m <= FollowedWindows(|data|, n)
    ensures key in NgramTable(data, n, m) ==>
              NgramTable(data, n, m)[key]
              == NextCounts(FollowerCount(data, key, m, Tai), FollowerCount(data, key, m, Xiu),
                            PositionCount(data, key, m))
  {
    if m > 0 {
      NgramKeys(data, n, m - 1, key);
      NgramCounts(data, n, m - 1, key);
      FollowersWithin(data, key, m - 1);
      if |key| == n {
        PositionStep(data, key, m);
      }
    }
  }

  /** One more start position: the counters of `key` grow exactly when the
      window there is `key`, the follower's counter by the token after it. */
  lemma PositionStep(data: seq<Token>, key: seq<Token>, m: nat)
    requires 0 < m && m - 1 + |key| < |data|
    ensures PositionCount(data, key, m)
            == PositionCount(data, key, m - 1) + (if data[m - 1..m - 1 + |key|] == key then 1 else 0)
    ensures FollowerCount(data, key, m, Tai)
            == FollowerCount(data, key, m - 1, Tai) + (if data[m - 1..m - 1 + |key|] == key && data[m - 1 + |key|] == Tai then 1 else 0)
    ensures FollowerCount(data, key, m, Xiu)
            == FollowerCount(data, key, m - 1, Xiu) + (if data[m - 1..m - 1 + |key|] == key && data[m - 1 + |key|] == Xiu then 1 else 0)
  {
  }

  /** The 3-token retry never finds anything once n is 4: every key of the
      dictionary has 4 tokens. */
  lemma NgramShorterMisses(data: seq<Token>)
    requires NgramSize(|data|) > 3
    ensures Suffix(data, 3) !in NgramTable(data, NgramSize(|data|), FollowedWindows(|data|, NgramSize(|data|)))
  {
    var n := NgramSize(|data|);
    NgramEntry(data, n, FollowedWindows(|data|, n), Suffix(data, 3));
  }

  /** Model 4 on positions: when the last n tokens occurred earlier with a
      follower, Tai wins iff it followed them at least as often as Xiu;
      otherwise the samples' majority decides. */
  lemma NgramOnPositions(data: seq<Token>, samples: seq<Sample>)
    ensures var n := NgramSize(|data|);
            var m := FollowedWindows(|data|, n);
            var lastN := Suffix(data, n);
            NgramPrediction(data, samples) == Tai
            <==> if |lastN| == n && PositionCount(data, lastN, m) > 0
                 then FollowerCount(data, lastN, m, Tai) >= FollowerCount(data, lastN, m, Xiu)
                 else 2 * TaiLeads(samples) >= |samples|
  {
    var n := NgramSize(|data|);
    var m := FollowedWindows(|data|, n);
    NgramEntry(data, n, m, Suffix(data, n));
    if n > 3 {
      NgramShorterMisses(data);
    }
  }

  /** Followers of a key are at most its occurrences. */
  lemma {:induction false} FollowersWithin(h: seq<Token>, key: seq<Token>, m: nat)
    ensures FollowerCount(h, key, m, Tai) + FollowerCount(h, key, m, Xiu) <= PositionCount(h, key, m)
  {
    if m > 0 {
      FollowersWithin(h, key, m - 1);
    }
  }

  /** When the last n tokens occurred exactly once before, followed by Tai or
      Xiu, Model 4 predicts that follower. */
  lemma NgramSingleMatch(data: seq<Token>, samples: seq<Sample>, t: Token)
    requires t != Blank
    requires var n := NgramSize(|data|);
             var m := FollowedWindows(|data|, n);
             |data| >= n && PositionCount(data, Suffix(data, n), m) == 1
             && FollowerCount(data, Suffix(data, n), m, t) == 1
    ensures NgramPrediction(data, samples) == t
  {
    var n := NgramSize(|data|);
    var m := FollowedWindows(|data|, n);
    NgramOnPositions(data, samples);
    FollowersWithin(data, Suffix(data, n), m);
  }

  method NgramMatching(data: seq<Token>, samples: seq<Sample>) returns (r: Token)
    ensures r == NgramPrediction(data, samples)
  {
    var n := Min(4, Max(3, |data| - 1));
    var lastN := Suffix(data, n);
    var table: map<seq<Token>, NextCounts> := map[];
    var i := 0;
    while i + n + 1 <= |data|
      invariant i <= FollowedWindows(|data|, n)
      invariant table == NgramTable(data, n, i)
    {
      var key := data[i..i + n];
      var entry := if key in table then table[key] else NextCounts(0, 0, 0);
      table := table[key := CountFollower(entry, data[i + n])];
      i := i + 1;
    }
    if lastN in table {
      r := Lean(table[lastN]);
    } else if n > 3 && Suffix(data, 3) in table {
      r := Lean(table[Suffix(data, 3)]);
    } else {
      r := SampleMajority(samples);
    }
  }

  // ============================================== Model 5: weighted heuristic

  function Fraction(part: nat, whole: nat): (r: real)
    requires part <= whole && whole > 0
    ensures 0.0 <= r <= 1.0
  {
    var d := whole as real;
    var q := part as real / d;
    assert q * d == part as real;
    q
  }

  /** `(pTT - (1 - pXX)) / 2 + 0.5`. */
  function MarkovFavor(c: Transitions): (r: real)
    ensures 0.0 <= r <= 1.0
  {
    (PSelf(c.tt, c.tx) - (1.0 - PSelf(c.xx, c.xt))) / 2.0 + 0.5
  }

  /** The first position `j >= i` with `j <= |data| - 5` whose four tokens
      equal the last four. */
  function FirstMatchFrom(data: seq<Token>, i: nat): (r: Option<nat>)
    ensures r.Some? ==> i <= r.value && r.value + 5 <= |data|
                        && OccursAt(data, Suffix(data, 4), r.value)
                        && forall k: nat :: i <= k < r.value ==> !OccursAt(data, Suffix(data, 4), k)
    ensures r.None? ==> forall k: nat :: i <= k && k + 5 <= |data| ==> !OccursAt(data, Suffix(data, 4), k)
    decreases |data| - i
  {
    if i + 5 > |data| then None
    else if data[i..i + 4] == Suffix(data, 4) then Some(i)
    else FirstMatchFrom(data, i + 1)
  }

  /** 1 or 0 by the follower of the first earlier occurrence of the last four
      tokens, 0.5 without one. */
  function NgramFavor(data: seq<Token>): (r: real)
    ensures r == 0.0 || r == 0.5 || r == 1.0
    ensures r == 0.5 <==> FirstMatchFrom(data, 0).None?
  {
    match FirstMatchFrom(data, 0)
    case None => 0.5
    case Some(j) => if data[j + 4] == Tai then 1.0 else 0.0
  }

  /** The weighted score: samples 40%, Markov 30%, frequency 20%, n-gram 10%. */
  function HeuristicScore(data: seq<Token>, samples: seq<Sample>): (r: real)
    requires |data| > 0 && |samples| > 0
  {
    0.4 * Fraction(TaiLeads(samples), |samples|)
    + 0.3 * MarkovFavor(TransitionsOf(data))
    + 0.2 * Fraction(Count(data, Tai), |data|)
    + 0.1 * NgramFavor(data)
  }

  /** Model 5: Tai iff the score is above one half. An empty window or an
      empty sample list makes the score NaN, which is never above one half. */
  function Heuristic(data: seq<Token>, samples: seq<Sample>): (r: Token)
    ensures r != Blank
  {
    if |data| == 0 || |samples| == 0 then Xiu
    else if HeuristicScore(data, samples) > 0.5 then Tai
    else Xiu
  }

  /** The score is a weighted mean of four numbers in [0, 1]. */
  lemma HeuristicScoreBounds(data: seq<Token>, samples: seq<Sample>)
    requires |data| > 0 && |samples| > 0
    ensures 0.0 <= HeuristicScore(data, samples) <= 1.0
  {
  }

  /** The two sources weighing 60% settle the vote when they agree fully:
      every sample leading to Tai and every token Tai gives Tai; no sample
      leading to Tai and no Tai token gives Xiu. */
  lemma HeuristicUnanimous(data: seq<Token>, samples: seq<Sample>)
    requires |data| > 0 && |samples| > 0
    ensures TaiLeads(samples) == |samples| && Count(data, Tai) == |data| ==> Heuristic(data, samples) == Tai
    ensures TaiLeads(samples) == 0 && Count(data, Tai) == 0 ==> Heuristic(data, samples) == Xiu
  {
    assert Fraction(|samples|, |samples|) == 1.0;
    assert Fraction(|data|, |data|) == 1.0;
    assert Fraction(0, |samples|) == 0.0;
    assert Fraction(0, |data|) == 0.0;
  }

  method HeuristicEnsemble(data: seq<Token>, samples: seq<Sample>) returns (r: Token)
    ensures r == Heuristic(data, samples)
  {
    if |data| == 0 || |samples| == 0 {
      // a fraction over an empty list is NaN, and NaN > 0.5 is false
      return Xiu;
    }
    var patternFraction := TaiLeads(samples) as real / |samples| as real;
    var freqFraction := Count(data, Tai) as real / |data| as real;
    var c := CountTransitions(data);
    var pTT := if c.tt + c.tx > 0 then c.tt as real / (c.tt + c.tx) as real else 0.5;
    var pXX := if c.xx + c.xt > 0 then c.xx as real / (c.xx + c.xt) as real else 0.5;
    var markovFavor := (pTT - (1.0 - pXX)) / 2.0 + 0.5;
    var last4 := Suffix(data, 4);
    var ngramFavor := 0.5;
    var i := 0;
    while i + 5 <= |data|
      invariant FirstMatchFrom(data, i) == FirstMatchFrom(data, 0)
      decreases |data| - i
    {
      if data[i..i + 4] == last4 {
        ngramFavor := if data[i + 4] == Tai then 1.0 else 0.0;
        break;
      }
      i := i + 1;
    }
    assert ngramFavor == NgramFavor(data);
    var totalScore := 0.4 * patternFraction + 0.3 * markovFavor + 0.2 * freqFraction + 0.1 * ngramFavor;
    r := if totalScore > 0.5 then Tai else Xiu;
  }
}
