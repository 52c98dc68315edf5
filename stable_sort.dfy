/** The engine sorts with `Array.prototype.sort` and a comparator `b.k - a.k`,
    that is descending by an integer key; that sort is stable, so elements with
    equal keys keep their relative order. This module gives one stable
    descending sort and proves the three facts that pin its result down:
    it is non-increasing in the key, a permutation of its input, and for every
    key value it lists the elements with that key in input order. */
module StableSort {

  /** Insert `x` in front of the first element whose key is not above `key(x)`. */
  function InsertDesc<T>(x: T, s: seq<T>, key: T -> int): (r: seq<T>)
    ensures |r| == |s| + 1
    ensures multiset(r) == multiset(s) + multiset{x}
  {
    if s == [] || key(s[0]) <= key(x) then [x] + s
    else
      assert s == [s[0]] + s[1..];
      [s[0]] + InsertDesc(x, s[1..], key)
  }

  /** Stable sort, descending by `key`. */
  function SortDesc<T>(s: seq<T>, key: T -> int): (r: seq<T>)
    ensures |r| == |s|
    ensures multiset(r) == multiset(s)
  {
    if s == [] then []
    else
      assert s == [s[0]] + s[1..];
      InsertDesc(s[0], SortDesc(s[1..], key), key)
  }

  predicate NonIncreasing<T>(s: seq<T>, key: T -> int)
  {
    forall i, j :: 0 <= i < j < |s| ==> key(s[i]) >= key(s[j])
  }

  /** The elements of `s` whose key is `v`, in order. */
  function WithKey<T>(s: seq<T>, key: T -> int, v: int): (r: seq<T>)
    ensures |r| <= |s|
  {
    if s == [] then []
    else (if key(s[0]) == v then [s[0]] else []) + WithKey(s[1..], key, v)
  }

  lemma {:induction false} InsertDescSorted<T>(x: T, s: seq<T>, key: T -> int)
    requires NonIncreasing(s, key)
    ensures NonIncreasing(InsertDesc(x, s, key), key)
  {
    if s == [] || key(s[0]) <= key(x) {
    } else {
      InsertDescSorted(x, s[1..], key);
      var r := InsertDesc(x, s, key);
      var t := InsertDesc(x, s[1..], key);
      assert r == [s[0]] + t;
      forall j | 0 < j < |r| ensures key(r[0]) >= key(r[j]) {
        assert r[j] in multiset(t);
        assert r[j] in multiset(s[1..]) + multiset{x};
        if r[j] in multiset(s[1..]) {
          var k :| 0 <= k < |s[1..]| && s[1..][k] == r[j];
          assert s[k + 1] == r[j];
        }
      }
    }
  }

  lemma {:induction false} SortDescSorted<T>(s: seq<T>, key: T -> int)
    ensures NonIncreasing(SortDesc(s, key), key)
  {
    if s != [] {
      SortDescSorted(s[1..], key);
      InsertDescSorted(s[0], SortDesc(s[1..], key), key);
    }
  }

  lemma {:induction false} InsertDescWithKey<T>(x: T, s: seq<T>, key: T -> int, v: int)
    ensures WithKey(InsertDesc(x, s, key), key, v)
            == (if key(x) == v then [x] else []) + WithKey(s, key, v)
  {
    if s == [] || key(s[0]) <= key(x) {
      assert ([x] + s)[1..] == s;
    } else {
      var t := InsertDesc(x, s[1..], key);
      InsertDescWithKey(x, s[1..], key, v);
      assert ([s[0]] + t)[1..] == t;
      var head := if key(s[0]) == v then [s[0]] else [];
      var xs := if key(x) == v then [x] else [];
      assert WithKey(s, key, v) == head + WithKey(s[1..], key, v);
      assert WithKey([s[0]] + t, key, v) == head + WithKey(t, key, v);
      assert head == [] || xs == [];
    }
  }

  /** Stability: among elements with equal keys the input order survives. */
  lemma {:induction false} SortDescStable<T>(s: seq<T>, key: T -> int, v: int)
    ensures WithKey(SortDesc(s, key), key, v) == WithKey(s, key, v)
  {
    if s != [] {
      SortDescStable(s[1..], key, v);
      InsertDescWithKey(s[0], SortDesc(s[1..], key), key, v);
    }
  }

  /** `s` is strictly increasing in `pos`. */
  predicate Increasing<T>(s: seq<T>, pos: T -> int)
  {
    forall i, j :: 0 <= i < j < |s| ==> pos(s[i]) < pos(s[j])
  }

  /** `WithKey` keeps exactly the elements with the given key. */
  lemma {:induction false} WithKeyMember<T>(s: seq<T>, key: T -> int, v: int, y: T)
    ensures y in WithKey(s, key, v) <==> y in s && key(y) == v
  {
    if s != [] {
      WithKeyMember(s[1..], key, v, y);
      assert s == [s[0]] + s[1..];
    }
  }

  /** Keeping the elements with one key keeps a strictly increasing order. */
  lemma {:induction false} WithKeyIncreasing<T>(s: seq<T>, key: T -> int, pos: T -> int, v: int)
    requires Increasing(s, pos)
    ensures Increasing(WithKey(s, key, v), pos)
  {
    if s != [] {
      var rest := s[1..];
      assert Increasing(rest, pos) by {
        forall i, j | 0 <= i < j < |rest| ensures pos(rest[i]) < pos(rest[j]) {
          assert rest[i] == s[i + 1] && rest[j] == s[j + 1];
        }
      }
      WithKeyIncreasing(rest, key, pos, v);
      var tail := WithKey(rest, key, v);
      if key(s[0]) == v {
        var r := [s[0]] + tail;
        forall j | 0 < j < |r| ensures pos(r[0]) < pos(r[j]) {
          assert r[j] == tail[j - 1];
          WithKeyMember(rest, key, v, r[j]);
          var k :| 0 <= k < |rest| && rest[k] == r[j];
          assert s[k + 1] == r[j];
        }
        forall i, j | 0 <= i < j < |r| ensures pos(r[i]) < pos(r[j]) {
          if i > 0 {
            assert r[i] == tail[i - 1] && r[j] == tail[j - 1];
          }
        }
      } else {
        assert WithKey(s, key, v) == tail;
      }
    }
  }

  /** When every key's elements are strictly increasing in `pos`, so are any
      two elements with equal keys, wherever they stand. */
  lemma {:induction false} EqualKeysIncreasing<T>(s: seq<T>, key: T -> int, pos: T -> int)
    requires forall v :: Increasing(WithKey(s, key, v), pos)
    ensures forall p, q :: 0 <= p < q < |s| && key(s[p]) == key(s[q]) ==> pos(s[p]) < pos(s[q])
  {
    if s != [] {
      var rest := s[1..];
      forall v ensures Increasing(WithKey(rest, key, v), pos) {
        var w := WithKey(s, key, v);
        var tail := WithKey(rest, key, v);
        assert Increasing(w, pos);
        if key(s[0]) == v {
          forall i, j | 0 <= i < j < |tail| ensures pos(tail[i]) < pos(tail[j]) {
            assert tail[i] == w[i + 1] && tail[j] == w[j + 1];
          }
        } else {
          assert w == tail;
        }
      }
      EqualKeysIncreasing(rest, key, pos);
      forall p, q | 0 <= p < q < |s| && key(s[p]) == key(s[q]) ensures pos(s[p]) < pos(s[q]) {
        if p > 0 {
          assert s[p] == rest[p - 1] && s[q] == rest[q - 1];
        } else {
          var v := key(s[0]);
          var w := WithKey(s, key, v);
          var tail := WithKey(rest, key, v);
          assert w == [s[0]] + tail;
          assert s[q] == rest[q - 1];
          WithKeyMember(rest, key, v, s[q]);
          var k :| 0 <= k < |tail| && tail[k] == s[q];
          assert w[0] == s[0] && w[k + 1] == s[q];
        }
      }
    }
  }
}
