/** Outcome tokens, pattern samples and the small list helpers every part of
    the engine shares. A history is a sequence of tokens: "Tài" (Tai), "Xỉu"
    (Xiu) or the empty string produced for a record without a result (Blank). */
module Outcomes {

  datatype Token = Tai | Xiu | Blank

  /** The source's `t === 'Tài' ? 'Xỉu' : 'Tài'`: a Blank flips to Tai. */
  function Flip(t: Token): (r: Token)
    ensures r != Blank
    ensures t != Blank ==> r != t
    ensures r == Tai <==> t != Tai
  {
    if t == Tai then Xiu else Tai
  }

  /** Number of occurrences of `t` in `s`. */
  function Count(s: seq<Token>, t: Token): (r: nat)
    ensures r <= |s|
  {
    if s == [] then 0 else Count(s[..|s| - 1], t) + (if s[|s| - 1] == t then 1 else 0)
  }

  lemma {:induction false} CountAppend(s: seq<Token>, u: seq<Token>, t: Token)
    ensures Count(s + u, t) == Count(s, t) + Count(u, t)
    decreases |u|
  {
    if u == [] {
      assert s + u == s;
    } else {
      assert (s + u)[..|s + u| - 1] == s + u[..|u| - 1];
      CountAppend(s, u[..|u| - 1], t);
    }
  }

  /** Every token is one of the three kinds, so the three counts add up. */
  lemma {:induction false} CountPartition(s: seq<Token>)
    ensures Count(s, Tai) + Count(s, Xiu) + Count(s, Blank) == |s|
  {
    if s != [] {
      CountPartition(s[..|s| - 1]);
    }
  }

  /** A sequence made of one token only. */
  predicate AllAre(s: seq<Token>, t: Token)
  {
    forall i :: 0 <= i < |s| ==> s[i] == t
  }

  lemma {:induction false} CountAllAre(s: seq<Token>, t: Token)
    requires AllAre(s, t)
    ensures Count(s, t) == |s|
  {
    if s != [] {
      CountAllAre(s[..|s| - 1], t);
    }
  }

  function Min(a: int, b: int): int { if a <= b then a else b }
  function Max(a: int, b: int): int { if a >= b then a else b }

  /** JavaScript `s.slice(-k)` for k > 0: the last min(k, |s|) elements. */
  function Suffix<T>(s: seq<T>, k: nat): (r: seq<T>)
    ensures |r| == Min(k, |s|)
    ensures r == s[|s| - |r|..]
  {
    s[|s| - Min(k, |s|)..]
  }

  /** JavaScript `s.slice(a, b)` for 0 <= a <= b: both ends clamped to |s|. */
  function Slice<T>(s: seq<T>, a: nat, b: nat): (r: seq<T>)
    requires a <= b
    ensures |r| == Min(b, |s|) - Min(a, |s|)
    ensures a + |r| <= |s| ==> r == s[a..a + |r|]
    ensures b <= |s| ==> r == s[a..b]
  {
    s[Min(a, |s|)..Min(b, |s|)]
  }

  /** `pat` starts at position `i` of `s`. */
  predicate OccursAt(s: seq<Token>, pat: seq<Token>, i: nat)
  {
    i + |pat| <= |s| && s[i..i + |pat|] == pat
  }

  /** The source's `includes` on '-'-joined strings, and its regular-expression
      tests: a contiguous occurrence of `pat` in `s`. */
  predicate Contains(s: seq<Token>, pat: seq<Token>)
  {
    exists i: nat :: i <= |s| && OccursAt(s, pat, i)
  }

  /** Rounding of `part / whole * 100` to the nearest integer, halves upwards
      (`Math.round`), computed on exact rationals. */
  function RoundPercent(part: nat, whole: nat): (r: nat)
    requires 0 < whole
    ensures part <= whole ==> r <= 100
    ensures 2 * whole * r <= 200 * part + whole < 2 * whole * (r + 1)
  {
    var q := (200 * part + whole) / (2 * whole);
    QuotientBounds(200 * part + whole, 2 * whole);
    if part <= whole then
      PercentAtMost(part, whole, q);
      q
    else
      q
  }

  /** The quotient of `a` by `d` is the largest `q` with `d * q <= a`. */
  lemma QuotientBounds(a: nat, d: nat)
    requires 0 < d
    ensures d * (a / d) <= a < d * (a / d + 1)
  {
    var q := a / d;
    assert a == d * q + a % d;
    assert d * (q + 1) == d * q + d;
  }

  lemma PercentAtMost(part: nat, whole: nat, q: nat)
    requires 0 < whole && part <= whole
    requires 2 * whole * q <= 200 * part + whole
    ensures q <= 100
  {
    assert 200 * part <= 200 * whole;
    assert whole * (2 * q) <= whole * 201;
    CancelFactor(2 * q, 201, whole);
  }

  lemma CancelFactor(a: int, b: int, x: int)
    requires 0 < x && x * a <= x * b
    ensures a <= b
  {
    assert x * b - x * a == x * (b - a);
  }

  /** The kind of a pattern sample: a mined window ('match'), a run ('bệt'),
      an alternation ('1-1'), a fixed canonical motif, or padding. */
  datatype SampleKind = WindowMatch | RunMotif | Alternation | Canonical | Pad

  datatype Sample = Sample(kind: SampleKind, pattern: seq<Token>, next: Token)

  /** Number of samples whose `next` is Tai. */
  function TaiLeads(samples: seq<Sample>): (r: nat)
    ensures r <= |samples|
  {
    if samples == [] then 0
    else TaiLeads(samples[..|samples| - 1]) + (if samples[|samples| - 1].next == Tai then 1 else 0)
  }

  /** The source's fallback `taiCount >= samples.length / 2 ? 'Tài' : 'Xỉu'`. */
  function SampleMajority(samples: seq<Sample>): (r: Token)
    ensures r != Blank
    ensures r == Tai <==> 2 * TaiLeads(samples) >= |samples|
  {
    if 2 * TaiLeads(samples) >= |samples| then Tai else Xiu
  }
}
