/** Window mining (first stage of the pattern-sample generator): every window
    of 5, 4 and 3 tokens that has a following token is counted in one
    insertion-ordered dictionary keyed by the window's tokens, together with
    how often Tai and Xiu followed it; the entries are then ranked by
    total × |taiNext − xiuNext|. */
module WindowTable {
  import opened Outcomes
  import opened StableSort

  /** One window of the history and the token right after it. */
  datatype Occurrence = Occurrence(key: seq<Token>, next: Token)

  /** The counters the source keeps per key: `total` and `nextCounts`. */
  datatype Counts = Counts(total: nat, taiNext: nat, xiuNext: nat)

  /** The `windows` object: keys in insertion order plus their counters. */
  datatype WindowIndex = WindowIndex(order: seq<seq<Token>>, counts: map<seq<Token>, Counts>)

  /** One row of the ranked window list. */
  datatype WindowStat = WindowStat(pattern: seq<Token>, total: nat, taiNext: nat, xiuNext: nat)

  /** Window lengths, longest first, in the order they are scanned. */
  const WindowSizes: seq<nat> := [5, 4, 3]

  /** Number of windows of length `n` that have a following token. */
  function FollowedWindows(len: nat, n: nat): nat
  {
    if len > n then len - n else 0
  }

  /** The windows of length `n` starting before `m`, left to right, with
      their followers. */
  function OccurrencesBefore(h: seq<Token>, n: nat, m: nat): (r: seq<Occurrence>)
    requires m <= FollowedWindows(|h|, n)
    ensures |r| == m
  {
    if m == 0 then [] else OccurrencesBefore(h, n, m - 1) + [Occurrence(h[m - 1..m - 1 + n], h[m - 1 + n])]
  }

  /** The windows of length `n` scanned left to right, with their followers. */
  function Occurrences(h: seq<Token>, n: nat): seq<Occurrence>
  {
    OccurrencesBefore(h, n, FollowedWindows(|h|, n))
  }

  /** Entry `i` of the scan is the window at position `i` with its follower. */
  lemma {:induction false} OccurrenceAt(h: seq<Token>, n: nat, m: nat, i: nat)
    requires i < m <= FollowedWindows(|h|, n)
    ensures OccurrencesBefore(h, n, m)[i] == Occurrence(h[i..i + n], h[i + n])
  {
    if i < m - 1 {
      OccurrenceAt(h, n, m - 1, i);
    }
  }

  /** The occurrences for each size in `ns`, sizes in the given order. */
  function OccurrencesOfSizes(h: seq<Token>, ns: seq<nat>): seq<Occurrence>
  {
    if ns == [] then [] else OccurrencesOfSizes(h, ns[..|ns| - 1]) + Occurrences(h, ns[|ns| - 1])
  }

  function AllOccurrences(h: seq<Token>): seq<Occurrence>
  {
    OccurrencesOfSizes(h, WindowSizes)
  }

  /** Occurrences of `key` among `occs`. */
  function TotalOf(occs: seq<Occurrence>, key: seq<Token>): (r: nat)
    ensures r <= |occs|
  {
    if occs == [] then 0
    else TotalOf(occs[..|occs| - 1], key) + (if occs[|occs| - 1].key == key then 1 else 0)
  }

  /** Occurrences of `key` among `occs` that were followed by `t`. */
  function FollowedBy(occs: seq<Occurrence>, key: seq<Token>, t: Token): (r: nat)
    ensures r <= TotalOf(occs, key)
  {
    if occs == [] then 0
    else
      FollowedBy(occs[..|occs| - 1], key, t)
      + (if occs[|occs| - 1].key == key && occs[|occs| - 1].next == t then 1 else 0)
  }

  /** One more occurrence of a key: `total++`, and the follower's counter when
      the follower is Tai or Xiu. */
  function Bump(c: Counts, next: Token): Counts
  {
    Counts(c.total + 1,
           c.taiNext + (if next == Tai then 1 else 0),
           c.xiuNext + (if next == Xiu then 1 else 0))
  }

  /** One step of the scan: create the key if it is new (at the end of the
      insertion order), then bump its counters. */
  function Record(w: WindowIndex, o: Occurrence): WindowIndex
  {
    var c := if o.key in w.counts then w.counts[o.key] else Counts(0, 0, 0);
    WindowIndex(if o.key in w.counts then w.order else w.order + [o.key],
                w.counts[o.key := Bump(c, o.next)])
  }

  /** Recording an occurrence adds one to its key's total, leaves every other
      key as it was, and can only extend the insertion order, by that key. */
  lemma RecordEffect(w: WindowIndex, o: Occurrence)
    ensures o.key in Record(w, o).counts
    ensures Record(w, o).counts[o.key].total == 1 + (if o.key in w.counts then w.counts[o.key].total else 0)
    ensures forall k :: k != o.key ==> (k in Record(w, o).counts <==> k in w.counts)
    ensures forall k :: k != o.key && k in w.counts ==> Record(w, o).counts[k] == w.counts[k]
    ensures Record(w, o).order == w.order || Record(w, o).order == w.order + [o.key]
  {
  }

  /** Keys in the order are distinct and are exactly the dictionary's keys. */
  ghost predicate Valid(w: WindowIndex)
  {
    (forall i, j :: 0 <= i < j < |w.order| ==> w.order[i] != w.order[j])
    && (forall k :: k in w.counts <==> k in w.order)
  }

  /** The dictionary after scanning `occs`. */
  function Index(occs: seq<Occurrence>): WindowIndex
  {
    if occs == [] then WindowIndex([], map[])
    else Record(Index(occs[..|occs| - 1]), occs[|occs| - 1])
  }

  /** After scanning `occs` the keys are distinct and in the dictionary; a key
      is present iff it occurs, and carries its number of occurrences and the
      number of them followed by Tai and by Xiu. */
  lemma {:induction false} IndexFacts(occs: seq<Occurrence>)
    ensures Valid(Index(occs))
    ensures forall k :: k in Index(occs).counts <==> TotalOf(occs, k) > 0
    ensures forall k :: k in Index(occs).counts ==>
              Index(occs).counts[k] == Counts(TotalOf(occs, k), FollowedBy(occs, k, Tai), FollowedBy(occs, k, Xiu))
  {
    if occs != [] {
      IndexFacts(occs[..|occs| - 1]);
    }
  }

  /** Every key in the insertion order has counters. */
  lemma IndexOrderCounted(occs: seq<Occurrence>)
    ensures forall k :: k in Index(occs).order ==> k in Index(occs).counts
  {
    IndexFacts(occs);
  }

  lemma IndexSnoc(occs: seq<Occurrence>, o: Occurrence)
    ensures Index(occs + [o]) == Record(Index(occs), o)
  {
    assert (occs + [o])[..|occs|] == occs;
  }

  /** Insertion order is first-seen order: the keys met in any prefix of the
      scan form a prefix of the final order. */
  lemma {:induction false} FirstSeenPrefix(occs: seq<Occurrence>, m: nat)
    requires m <= |occs|
    ensures Index(occs[..m]).order <= Index(occs).order
    decreases |occs|
  {
    if m < |occs| {
      var p := occs[..|occs| - 1];
      assert p[..m] == occs[..m];
      FirstSeenPrefix(p, m);
    } else {
      assert occs[..m] == occs;
    }
  }

  /** `windowList` before sorting: one row per key, in insertion order. */
  function Entries(w: WindowIndex): (r: seq<WindowStat>)
    requires forall k :: k in w.order ==> k in w.counts
    ensures |r| == |w.order|
    ensures forall j :: 0 <= j < |r| ==> r[j].pattern == w.order[j]
  {
    seq(|w.order|, j requires 0 <= j < |w.order| =>
      WindowStat(w.order[j], w.counts[w.order[j]].total,
                 w.counts[w.order[j]].taiNext, w.counts[w.order[j]].xiuNext))
  }

  function Decisive(e: WindowStat): nat
  {
    if e.taiNext >= e.xiuNext then e.taiNext - e.xiuNext else e.xiuNext - e.taiNext
  }

  /** The sort key: frequent and decisive windows first. */
  function Score(e: WindowStat): (r: int)
    ensures r >= 0
    ensures r == 0 <==> e.total == 0 || e.taiNext == e.xiuNext
  {
    e.total * Decisive(e)
  }

  /** The ranked window list. */
  function WindowList(h: seq<Token>): seq<WindowStat>
  {
    IndexOrderCounted(AllOccurrences(h));
    SortDesc(Entries(Index(AllOccurrences(h))), Score)
  }

  // ---------------------------------------------------------------- scanning

  /** The source's nested loops: for each size 5, 4, 3 in turn, every window
      of that size with a follower is recorded in the `windows` dictionary. */
  method BuildWindowIndex(h: seq<Token>) returns (order: seq<seq<Token>>, counts: map<seq<Token>, Counts>)
    ensures WindowIndex(order, counts) == Index(AllOccurrences(h))
  {
    order, counts := [], map[];
    ghost var done: seq<Occurrence> := [];
    for s := 0 to |WindowSizes|
      invariant done == OccurrencesOfSizes(h, WindowSizes[..s])
      invariant WindowIndex(order, counts) == Index(done)
    {
      order, counts := RecordWindows(h, WindowSizes[s], order, counts, done);
      assert WindowSizes[..s + 1][..s] == WindowSizes[..s];
      done := done + Occurrences(h, WindowSizes[s]);
    }
    assert WindowSizes[..3] == WindowSizes;
  }

  /** The inner loop for one window size `n`: the dictionary that was built
      from the occurrences `done` is extended by those of size `n`. */
  method RecordWindows(h: seq<Token>, n: nat, order0: seq<seq<Token>>, counts0: map<seq<Token>, Counts>,
                       ghost done: seq<Occurrence>)
    returns (order: seq<seq<Token>>, counts: map<seq<Token>, Counts>)
    requires WindowIndex(order0, counts0) == Index(done)
    ensures WindowIndex(order, counts) == Index(done + Occurrences(h, n))
  {
    order, counts := order0, counts0;
    var i := 0;
    assert done + OccurrencesBefore(h, n, 0) == done;
    while i + n + 1 <= |h|
      invariant i <= FollowedWindows(|h|, n)
      invariant WindowIndex(order, counts) == Index(done + OccurrencesBefore(h, n, i))
    {
      ScanExtend(h, n, done, i);
      order, counts := RecordWindow(order, counts, h[i..i + n], h[i + n]);
      i := i + 1;
    }
  }

  /** One step of the scan: `key` is added to the insertion order when new
      and its counters are bumped. */
  method RecordWindow(order0: seq<seq<Token>>, counts0: map<seq<Token>, Counts>, key: seq<Token>, next: Token)
    returns (order: seq<seq<Token>>, counts: map<seq<Token>, Counts>)
    ensures WindowIndex(order, counts) == Record(WindowIndex(order0, counts0), Occurrence(key, next))
  {
    order, counts := order0, counts0;
    if key !in counts {
      order := order + [key];
      counts := counts[key := Counts(0, 0, 0)];
    }
    counts := counts[key := Bump(counts[key], next)];
  }

  /** Scanning one more window records that window and its follower. */
  lemma ScanExtend(h: seq<Token>, n: nat, done: seq<Occurrence>, i: nat)
    requires i < FollowedWindows(|h|, n)
    ensures Index(done + OccurrencesBefore(h, n, i + 1))
            == Record(Index(done + OccurrencesBefore(h, n, i)), Occurrence(h[i..i + n], h[i + n]))
  {
    var o := Occurrence(h[i..i + n], h[i + n]);
    assert done + OccurrencesBefore(h, n, i + 1) == (done + OccurrencesBefore(h, n, i)) + [o];
    IndexSnoc(done + OccurrencesBefore(h, n, i), o);
  }

  // ------------------------------------------------------- what the counts mean

  lemma {:induction false} TotalOfAppend(a: seq<Occurrence>, b: seq<Occurrence>, key: seq<Token>, t: Token)
    ensures TotalOf(a + b, key) == TotalOf(a, key) + TotalOf(b, key)
    ensures FollowedBy(a + b, key, t) == FollowedBy(a, key, t) + FollowedBy(b, key, t)
    decreases |b|
  {
    if b == [] {
      assert a + b == a;
    } else {
      assert (a + b)[..|a + b| - 1] == a + b[..|b| - 1];
      TotalOfAppend(a, b[..|b| - 1], key, t);
    }
  }

  /** Number of start positions i < m at which `key` occurs in `h`. */
  function PositionCount(h: seq<Token>, key: seq<Token>, m: nat): nat
  {
    if m == 0 then 0 else PositionCount(h, key, m - 1) + (if OccursAt(h, key, m - 1) then 1 else 0)
  }

  /** `key` occurs at `i` in `h` and is followed there by `t`. */
  predicate FollowedAt(h: seq<Token>, key: seq<Token>, i: nat, t: Token)
  {
    OccursAt(h, key, i) && i + |key| < |h| && h[i + |key|] == t
  }

  /** Number of start positions i < m at which `key` occurs in `h` and is
      followed by `t`. */
  function FollowerCount(h: seq<Token>, key: seq<Token>, m: nat, t: Token): nat
  {
    if m == 0 then 0 else FollowerCount(h, key, m - 1, t) + (if FollowedAt(h, key, m - 1, t) then 1 else 0)
  }

  /** Scanning the windows of length `|key|` counts `key` once per position
      where it occurs. */
  lemma {:induction false} OccurrencesTotal(h: seq<Token>, n: nat, key: seq<Token>, m: nat)
    requires |key| == n && m <= FollowedWindows(|h|, n)
    ensures TotalOf(OccurrencesBefore(h, n, m), key) == PositionCount(h, key, m)
  {
    if m > 0 {
      OccurrencesTotal(h, n, key, m - 1);
      TotalScanStep(h, n, key, m);
    }
  }

  /** Scanning the windows of length `|key|` counts `key` followed by `t` once
      per position where it occurs followed by `t`. */
  lemma {:induction false} OccurrencesFollowed(h: seq<Token>, n: nat, key: seq<Token>, t: Token, m: nat)
    requires |key| == n && m <= FollowedWindows(|h|, n)
    ensures FollowedBy(OccurrencesBefore(h, n, m), key, t) == FollowerCount(h, key, m, t)
  {
    if m > 0 {
      OccurrencesFollowed(h, n, key, t, m - 1);
      FollowedScanStep(h, n, key, t, m);
    }
  }

  /** A key of another length than the windows is never counted. */
  lemma {:induction false} OccurrencesOtherLength(h: seq<Token>, n: nat, key: seq<Token>, m: nat)
    requires |key| != n && m <= FollowedWindows(|h|, n)
    ensures TotalOf(OccurrencesBefore(h, n, m), key) == 0
  {
    if m > 0 {
      OccurrencesOtherLength(h, n, key, m - 1);
      var o := Occurrence(h[m - 1..m - 1 + n], h[m - 1 + n]);
      assert OccurrencesBefore(h, n, m) == OccurrencesBefore(h, n, m - 1) + [o];
      TotalOfStep(OccurrencesBefore(h, n, m - 1), o, key);
      assert |o.key| != |key|;
    }
  }

  /** One more window in the scan: the key's counter grows by one when the
      new window is `key`. */
  lemma TotalScanStep(h: seq<Token>, n: nat, key: seq<Token>, m: nat)
    requires |key| == n && 0 < m <= FollowedWindows(|h|, n)
    ensures TotalOf(OccurrencesBefore(h, n, m), key)
            == TotalOf(OccurrencesBefore(h, n, m - 1), key) + (if OccursAt(h, key, m - 1) then 1 else 0)
  {
    var prior := OccurrencesBefore(h, n, m - 1);
    var o := Occurrence(h[m - 1..m - 1 + n], h[m - 1 + n]);
    assert OccurrencesBefore(h, n, m) == prior + [o];
    TotalOfStep(prior, o, key);
    WindowIsKey(h, key, m - 1);
  }

  /** One more window in the scan: the follower counter for `t` grows by one
      when the new window is `key` and is followed by `t`. */
  lemma FollowedScanStep(h: seq<Token>, n: nat, key: seq<Token>, t: Token, m: nat)
    requires |key| == n && 0 < m <= FollowedWindows(|h|, n)
    ensures FollowedBy(OccurrencesBefore(h, n, m), key, t)
            == FollowedBy(OccurrencesBefore(h, n, m - 1), key, t) + (if FollowedAt(h, key, m - 1, t) then 1 else 0)
  {
    var prior := OccurrencesBefore(h, n, m - 1);
    var o := Occurrence(h[m - 1..m - 1 + n], h[m - 1 + n]);
    assert OccurrencesBefore(h, n, m) == prior + [o];
    FollowedByStep(prior, o, key, t);
    WindowIsKey(h, key, m - 1);
  }

  /** The window of `|key|` tokens at `i` is `key` exactly when `key` occurs
      at `i`. */
  lemma WindowIsKey(h: seq<Token>, key: seq<Token>, i: nat)
    requires i + |key| < |h|
    ensures h[i..i + |key|] == key <==> OccursAt(h, key, i)
  {
  }

  lemma TotalOfStep(a: seq<Occurrence>, o: Occurrence, key: seq<Token>)
    ensures TotalOf(a + [o], key) == TotalOf(a, key) + (if o.key == key then 1 else 0)
  {
    assert (a + [o])[..|a|] == a;
  }

  lemma FollowedByStep(a: seq<Occurrence>, o: Occurrence, key: seq<Token>, t: Token)
    ensures FollowedBy(a + [o], key, t) == FollowedBy(a, key, t) + (if o.key == key && o.next == t then 1 else 0)
  {
    assert (a + [o])[..|a|] == a;
  }

  /** The counters of the mined windows, stated on positions of the history:
      a key of length 3, 4 or 5 is counted once per position where it occurs
      with a following token, and once per such position followed by `t`. */
  lemma {:induction false} AllOccurrencesCount(h: seq<Token>, key: seq<Token>, t: Token)
    requires 3 <= |key| <= 5
    ensures TotalOf(AllOccurrences(h), key) == PositionCount(h, key, FollowedWindows(|h|, |key|))
    ensures FollowedBy(AllOccurrences(h), key, t) == FollowerCount(h, key, FollowedWindows(|h|, |key|), t)
  {
    var o5, o4, o3 := Occurrences(h, 5), Occurrences(h, 4), Occurrences(h, 3);
    AllOccurrencesSplit(h);
    TotalOfAppend(o5, o4, key, t);
    TotalOfAppend(o5 + o4, o3, key, t);
    ScanCount(h, 5, key, t);
    ScanCount(h, 4, key, t);
    ScanCount(h, 3, key, t);
  }

  /** The counters of the whole scan of windows of length `n`. */
  lemma ScanCount(h: seq<Token>, n: nat, key: seq<Token>, t: Token)
    ensures TotalOf(Occurrences(h, n), key) == if |key| == n then PositionCount(h, key, FollowedWindows(|h|, n)) else 0
    ensures FollowedBy(Occurrences(h, n), key, t) == if |key| == n then FollowerCount(h, key, FollowedWindows(|h|, n), t) else 0
  {
    if |key| == n {
      OccurrencesTotal(h, n, key, FollowedWindows(|h|, n));
      OccurrencesFollowed(h, n, key, t, FollowedWindows(|h|, n));
    } else {
      OccurrencesOtherLength(h, n, key, FollowedWindows(|h|, n));
    }
  }

  lemma {:induction false} TotalOfPositive(occs: seq<Occurrence>, i: nat)
    requires i < |occs|
    ensures TotalOf(occs, occs[i].key) > 0
  {
    if i < |occs| - 1 {
      TotalOfPositive(occs[..|occs| - 1], i);
    }
  }

  /** Facts about the ranked list: each row's counters are those of its
      window in the history, the followers never exceed the total, the rows
      are a permutation of the dictionary's entries, ranked non-increasingly
      by total × |taiNext − xiuNext|, with rows of equal rank in first-seen
      (insertion) order. */
  lemma WindowListFacts(h: seq<Token>)
    ensures Valid(Index(AllOccurrences(h)))
    ensures NonIncreasing(WindowList(h), Score)
    ensures multiset(WindowList(h)) == multiset(Entries(Index(AllOccurrences(h))))
    ensures forall v :: WithKey(WindowList(h), Score, v) == WithKey(Entries(Index(AllOccurrences(h))), Score, v)
    ensures forall e :: e in WindowList(h) ==>
              && e.total == TotalOf(AllOccurrences(h), e.pattern) > 0
              && e.taiNext == FollowedBy(AllOccurrences(h), e.pattern, Tai)
              && e.xiuNext == FollowedBy(AllOccurrences(h), e.pattern, Xiu)
              && e.taiNext + e.xiuNext <= e.total
  {
    var occs := AllOccurrences(h);
    IndexFacts(occs);
    var w := Index(occs);
    var es := Entries(w);
    var wl := WindowList(h);
    SortDescSorted(es, Score);
    forall v ensures WithKey(wl, Score, v) == WithKey(es, Score, v) {
      SortDescStable(es, Score, v);
    }
    forall e | e in wl
      ensures e.total == TotalOf(occs, e.pattern) > 0
      ensures e.taiNext == FollowedBy(occs, e.pattern, Tai)
      ensures e.xiuNext == FollowedBy(occs, e.pattern, Xiu)
      ensures e.taiNext + e.xiuNext <= e.total
    {
      assert e in multiset(es);
      var j :| 0 <= j < |es| && es[j] == e;
      assert e.pattern in w.counts;
      FollowedPartition(occs, e.pattern);
    }
  }

  /** A window is followed by Tai or by Xiu at most as often as it occurs. */
  lemma {:induction false} FollowedPartition(occs: seq<Occurrence>, key: seq<Token>)
    ensures FollowedBy(occs, key, Tai) + FollowedBy(occs, key, Xiu) <= TotalOf(occs, key)
  {
    if occs != [] {
      FollowedPartition(occs[..|occs| - 1], key);
    }
  }

  lemma AllOccurrencesSplit(h: seq<Token>)
    ensures AllOccurrences(h) == Occurrences(h, 5) + Occurrences(h, 4) + Occurrences(h, 3)
  {
    assert [5, 4, 3][..2] == [5, 4];
    assert [5, 4][..1] == [5];
    assert [5][..0] == [];
    assert OccurrencesOfSizes(h, [5]) == Occurrences(h, 5);
    assert OccurrencesOfSizes(h, [5, 4]) == Occurrences(h, 5) + Occurrences(h, 4);
  }

  /** Three pairwise different members force at least three elements. */
  lemma AtLeastThree<T>(s: seq<T>, a: T, b: T, c: T)
    requires a in s && b in s && c in s
    requires a != b && b != c && a != c
    ensures |s| >= 3
  {
  }

  /** With at least six tokens one window of each length is mined, so the
      list holds at least three rows. */
  lemma WindowListAtLeastThree(h: seq<Token>)
    requires |h| >= 6
    ensures |WindowList(h)| >= 3
  {
    var occs := AllOccurrences(h);
    var o5, o4, o3 := Occurrences(h, 5), Occurrences(h, 4), Occurrences(h, 3);
    AllOccurrencesSplit(h);
    OccurrenceAt(h, 5, |o5|, 0);
    OccurrenceAt(h, 4, |o4|, 0);
    OccurrenceAt(h, 3, |o3|, 0);
    assert occs[0] == o5[0];
    assert occs[|o5|] == o4[0];
    assert occs[|o5| + |o4|] == o3[0];
    TotalOfPositive(occs, 0);
    TotalOfPositive(occs, |o5|);
    TotalOfPositive(occs, |o5| + |o4|);
    IndexFacts(occs);
    var w := Index(occs);
    AtLeastThree(w.order, h[0..5], h[0..4], h[0..3]);
  }
}
