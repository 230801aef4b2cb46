/** Sequence operations shared by the pages: `Array.prototype.filter`, removal of
    every occurrence of a value, and the toggle-membership update used by the order
    wizard's multi-select fields and by the pricing page's add-on buttons. */
module Seqs {

  /** `a` is `b` with some elements dropped, the rest kept in their order. */
  predicate IsSubsequence<T(==,!new)>(a: seq<T>, b: seq<T>)
    decreases |b|
  {
    if a == [] then true
    else if b == [] then false
    else if a[0] == b[0] then IsSubsequence(a[1..], b[1..])
    else IsSubsequence(a, b[1..])
  }

  /** No value occurs twice. */
  predicate NoDuplicates<T(==,!new)>(s: seq<T>) {
    forall i, j :: 0 <= i < j < |s| ==> s[i] != s[j]
  }

  /** `s.filter(p)`: the elements of `s` that satisfy `p`, in their order. */
  function Filter<T(!new)>(s: seq<T>, p: T -> bool): (r: seq<T>)
    ensures |r| <= |s|
    ensures forall x :: x in r ==> x in s && p(x)
    ensures forall x :: x in s && p(x) ==> x in r
  {
    if s == [] then []
    else if p(s[0]) then [s[0]] + Filter(s[1..], p)
    else Filter(s[1..], p)
  }

  lemma {:induction false} FilterIsSubsequence<T(!new)>(s: seq<T>, p: T -> bool)
    ensures IsSubsequence(Filter(s, p), s)
  {
    if s != [] {
      FilterIsSubsequence(s[1..], p);
      if !p(s[0]) {
        SubsequenceOfTail(Filter(s[1..], p), s);
      }
    }
  }

  lemma {:induction false} SubsequenceOfTail<T(!new)>(a: seq<T>, b: seq<T>)
    requires b != [] && IsSubsequence(a, b[1..])
    ensures IsSubsequence(a, b)
    decreases |b|, 0
  {
    if a != [] && a[0] == b[0] {
      DropFirstIsSubsequence(a);
      SubsequenceTrans(a[1..], a, b[1..]);
    }
  }

  lemma {:induction false} SubsequenceRefl<T(!new)>(a: seq<T>)
    ensures IsSubsequence(a, a)
    decreases |a|
  {
    if a != [] {
      SubsequenceRefl(a[1..]);
    }
  }

  lemma {:induction false} DropFirstIsSubsequence<T(!new)>(a: seq<T>)
    requires a != []
    ensures IsSubsequence(a[1..], a)
    decreases |a|
  {
    if a[1..] != [] {
      if a[1] == a[0] {
        DropFirstIsSubsequence(a[1..]);
        assert a[1..][1..] == a[2..];
      } else {
        SubsequenceRefl(a[1..]);
      }
    }
  }

  lemma {:induction false} SubsequenceTrans<T(!new)>(a: seq<T>, b: seq<T>, c: seq<T>)
    requires IsSubsequence(a, b) && IsSubsequence(b, c)
    ensures IsSubsequence(a, c)
    decreases |c|, 1
  {
    if a != [] {
      assert b != [] && c != [];
      if b[0] == c[0] {
        if a[0] == b[0] {
          SubsequenceTrans(a[1..], b[1..], c[1..]);
        } else {
          SubsequenceTrans(a, b[1..], c[1..]);
        }
      } else {
        SubsequenceTrans(a, b, c[1..]);
        SubsequenceOfTail(a, c);
      }
    }
  }

  /** The number of times `p` holds of `x` is the number of times `x` is kept. */
  lemma {:induction false} FilterCount<T(!new)>(s: seq<T>, p: T -> bool, x: T)
    ensures multiset(Filter(s, p))[x] == if p(x) then multiset(s)[x] else 0
  {
    if s != [] {
      FilterCount(s[1..], p, x);
      assert s == [s[0]] + s[1..];
      assert multiset(s) == multiset{s[0]} + multiset(s[1..]);
      if p(s[0]) {
        assert multiset(Filter(s, p)) == multiset{s[0]} + multiset(Filter(s[1..], p));
      }
    }
  }

  lemma {:induction false} FilterAppend<T(!new)>(s: seq<T>, t: seq<T>, p: T -> bool)
    ensures Filter(s + t, p) == Filter(s, p) + Filter(t, p)
  {
    if s == [] {
      assert s + t == t;
    } else {
      assert (s + t)[1..] == s[1..] + t;
      FilterAppend(s[1..], t, p);
    }
  }

  /** A filter that every element passes keeps the whole sequence. */
  lemma {:induction false} FilterAll<T(!new)>(s: seq<T>, p: T -> bool)
    requires forall x :: x in s ==> p(x)
    ensures Filter(s, p) == s
  {
    if s != [] {
      FilterAll(s[1..], p);
    }
  }

  lemma {:induction false} FilterKeepsNoDuplicates<T(!new)>(s: seq<T>, p: T -> bool)
    requires NoDuplicates(s)
    ensures NoDuplicates(Filter(s, p))
  {
    if s != [] {
      assert NoDuplicates(s[1..]) by {
        forall i, j | 0 <= i < j < |s[1..]| ensures s[1..][i] != s[1..][j] {
          assert s[1..][i] == s[i + 1] && s[1..][j] == s[j + 1];
        }
      }
      FilterKeepsNoDuplicates(s[1..], p);
      if p(s[0]) {
        assert s[0] !in s[1..] by {
          forall k | 0 <= k < |s[1..]| ensures s[1..][k] != s[0] {
            assert s[1..][k] == s[k + 1];
          }
        }
        var r := Filter(s[1..], p);
        forall i, j | 0 <= i < j < |[s[0]] + r| ensures ([s[0]] + r)[i] != ([s[0]] + r)[j] {
          if i == 0 {
            assert ([s[0]] + r)[j] == r[j - 1];
            assert r[j - 1] in r;
          } else {
            assert ([s[0]] + r)[i] == r[i - 1] && ([s[0]] + r)[j] == r[j - 1];
          }
        }
      }
    }
  }

  /** The number of occurrences of `v` in `s`. */
  function Count<T(==,!new)>(s: seq<T>, v: T): nat {
    if s == [] then 0 else (if s[0] == v then 1 else 0) + Count(s[1..], v)
  }

  lemma {:induction false} CountIsMultiplicity<T(!new)>(s: seq<T>, v: T)
    ensures Count(s, v) == multiset(s)[v]
  {
    if s != [] {
      assert s == [s[0]] + s[1..];
      CountIsMultiplicity(s[1..], v);
    }
  }

  /** `s.filter(item => item !== v)`: every occurrence of `v` removed. */
  function Without<T(==,!new)>(s: seq<T>, v: T): (r: seq<T>)
    ensures |r| <= |s|
    ensures v !in r
    ensures forall x :: x != v ==> (x in r <==> x in s)
    ensures v !in s ==> r == s
  {
    if v in s then Filter(s, x => x != v)
    else
      FilterAll(s, x => x != v);
      Filter(s, x => x != v)
  }

  /** The toggle-membership update: a present value is removed (every occurrence),
      an absent one is appended at the end. */
  function Toggle<T(==,!new)>(s: seq<T>, v: T): (r: seq<T>)
    ensures v in r <==> v !in s
    ensures forall x :: x != v ==> (x in r <==> x in s)
  {
    if v in s then Without(s, v) else s + [v]
  }

  /** Removal keeps the other elements, each as often as before, in their order. */
  lemma WithoutKeepsOthers<T(!new)>(s: seq<T>, v: T)
    ensures IsSubsequence(Without(s, v), s)
    ensures multiset(Without(s, v)) == multiset(s)[v := 0]
  {
    FilterIsSubsequence(s, x => x != v);
    forall x ensures multiset(Without(s, v))[x] == multiset(s)[v := 0][x] {
      FilterCount(s, x => x != v, x);
    }
  }

  /** Removal from a non-empty sequence drops or keeps its first element. */
  lemma WithoutCons<T(!new)>(s: seq<T>, v: T)
    requires s != []
    ensures Without(s, v) == if s[0] == v then Without(s[1..], v) else [s[0]] + Without(s[1..], v)
  {
  }

  lemma WithoutAbsent<T(!new)>(s: seq<T>, v: T)
    requires v !in s
    ensures Without(s, v) == s
  {
    FilterAll(s, x => x != v);
  }

  /** Toggling a present value removes it and keeps the rest in order; toggling an
      absent one appends it. */
  lemma ToggleShape<T(!new)>(s: seq<T>, v: T)
    ensures v in s ==> IsSubsequence(Toggle(s, v), s) && multiset(Toggle(s, v)) == multiset(s)[v := 0]
    ensures v !in s ==> Toggle(s, v) == s + [v]
  {
    if v in s {
      WithoutKeepsOthers(s, v);
    }
  }

  /** Toggling an absent value twice restores the sequence exactly. */
  lemma ToggleTwiceAbsent<T(!new)>(s: seq<T>, v: T)
    requires v !in s
    ensures Toggle(Toggle(s, v), v) == s
  {
    assert v in s + [v];
    FilterAppend(s, [v], x => x != v);
    WithoutAbsent(s, v);
    assert Filter([v], x => x != v) == [];
  }

  /** Toggling a present value twice moves it to the end, once. */
  lemma ToggleTwicePresent<T(!new)>(s: seq<T>, v: T)
    requires v in s
    ensures Toggle(Toggle(s, v), v) == Without(s, v) + [v]
  {
    assert v !in Without(s, v);
  }

  /** Toggling keeps a sequence free of duplicates. */
  lemma ToggleKeepsNoDuplicates<T(!new)>(s: seq<T>, v: T)
    requires NoDuplicates(s)
    ensures NoDuplicates(Toggle(s, v))
  {
    if v in s {
      FilterKeepsNoDuplicates(s, x => x != v);
    } else {
      var r := s + [v];
      forall i, j | 0 <= i < j < |r| ensures r[i] != r[j] {
        if j == |s| {
          assert r[i] == s[i] && r[j] == v;
        } else {
          assert r[i] == s[i] && r[j] == s[j];
        }
      }
    }
  }

  /** Without duplicates, toggling the same value twice gives back the same
      elements (the order may differ when the value was present). */
  lemma ToggleTwiceSameElements<T(!new)>(s: seq<T>, v: T)
    requires NoDuplicates(s)
    ensures multiset(Toggle(Toggle(s, v), v)) == multiset(s)
  {
    if v in s {
      ToggleTwicePresent(s, v);
      WithoutKeepsOthers(s, v);
      assert multiset(s)[v] == 1 by { OccursOnce(s, v); }
      assert multiset(Without(s, v) + [v]) == multiset(s)[v := 0] + multiset{v};
    } else {
      ToggleTwiceAbsent(s, v);
    }
  }

  lemma {:induction false} OccursOnce<T(!new)>(s: seq<T>, v: T)
    requires NoDuplicates(s) && v in s
    ensures multiset(s)[v] == 1
  {
    assert s == [s[0]] + s[1..];
    assert NoDuplicates(s[1..]) by {
      forall i, j | 0 <= i < j < |s[1..]| ensures s[1..][i] != s[1..][j] {
        assert s[1..][i] == s[i + 1] && s[1..][j] == s[j + 1];
      }
    }
    if s[0] == v {
      assert v !in s[1..] by {
        forall k | 0 <= k < |s[1..]| ensures s[1..][k] != v {
          assert s[1..][k] == s[k + 1];
        }
      }
    } else {
      OccursOnce(s[1..], v);
    }
  }
}
