/**
 * The JavaScript array operations the pages compose: `filter`, `map` that
 * replaces the elements matching an id, the "toggle a value in a list" idiom,
 * `slice(0, n)` and a stable sort by a lexicographic key.
 */
module Seqs {

  /** `s.filter(p)`: the elements satisfying `p`, each as often as in `s`. */
  function Filter<T(==,!new)>(s: seq<T>, p: T -> bool): (r: seq<T>)
    ensures |r| <= |s|
    ensures forall x :: x in r <==> x in s && p(x)
    ensures forall x :: multiset(r)[x] == if p(x) then multiset(s)[x] else 0
  {
    if s == [] then []
    else
      assert s == [s[0]] + s[1..];
      (if p(s[0]) then [s[0]] else []) + Filter(s[1..], p)
  }

  /** Filtering keeps the original order: it distributes over concatenation. */
  lemma {:induction false} FilterAppend<T(!new)>(a: seq<T>, b: seq<T>, p: T -> bool)
    ensures Filter(a + b, p) == Filter(a, p) + Filter(b, p)
  {
    if a == [] {
      assert a + b == b;
    } else {
      assert (a + b)[1..] == a[1..] + b;
      FilterAppend(a[1..], b, p);
    }
  }

  /** A filter every element passes returns the list unchanged. */
  lemma {:induction false} FilterKeepsAll<T(!new)>(s: seq<T>, p: T -> bool)
    requires forall x :: x in s ==> p(x)
    ensures Filter(s, p) == s
  {
    if s != [] {
      FilterKeepsAll(s[1..], p);
    }
  }

  /** `s.map(x => hit(x) ? f(x) : x)`: the elements matching `hit` are replaced by `f` of them. */
  function UpdateWhere<T>(s: seq<T>, hit: T -> bool, f: T -> T): (r: seq<T>)
    ensures |r| == |s|
    ensures forall i :: 0 <= i < |s| ==> r[i] == if hit(s[i]) then f(s[i]) else s[i]
  {
    seq(|s|, i requires 0 <= i < |s| => if hit(s[i]) then f(s[i]) else s[i])
  }

  /**
   * `toggleArrayValue`: a value already present is removed (every occurrence of it),
   * an absent value is appended at the end.
   */
  function Toggle<T(==,!new)>(s: seq<T>, v: T): (r: seq<T>)
    ensures v in s ==> v !in r && forall x :: x != v ==> multiset(r)[x] == multiset(s)[x]
    ensures v !in s ==> r == s + [v]
  {
    if v in s then Filter(s, x => x != v) else s + [v]
  }

  /** Toggling an absent value twice gives back the original list. */
  lemma {:induction false} ToggleTwiceAbsent<T(!new)>(s: seq<T>, v: T)
    requires v !in s
    ensures Toggle(Toggle(s, v), v) == s
  {
    var p := (x: T) => x != v;
    FilterAppend(s, [v], p);
    FilterKeepsAll(s, p);
    assert Filter([v], p) == [];
  }

  /** Toggling a present value twice leaves it present exactly once, at the end. */
  lemma {:induction false} ToggleTwicePresent<T(!new)>(s: seq<T>, v: T)
    requires v in s
    ensures var r := Toggle(Toggle(s, v), v); |r| > 0 && r[|r| - 1] == v && multiset(r)[v] == 1
  {
  }

  /** `s.slice(0, n)`. */
  function Take<T>(s: seq<T>, n: nat): (r: seq<T>)
    ensures |r| == if |s| <= n then |s| else n
    ensures r == s[..|r|]
  {
    if |s| <= n then s else s[..n]
  }

  /** Lexicographic order on integer sequences (a proper prefix comes first). */
  predicate LexLe(a: seq<int>, b: seq<int>) {
    |a| == 0 || (|b| > 0 && (a[0] < b[0] || (a[0] == b[0] && LexLe(a[1..], b[1..]))))
  }

  lemma {:induction false} LexLeTotal(a: seq<int>, b: seq<int>)
    ensures LexLe(a, b) || LexLe(b, a)
  {
    if |a| > 0 && |b| > 0 && a[0] == b[0] {
      LexLeTotal(a[1..], b[1..]);
    }
  }

  lemma {:induction false} LexLeTrans(a: seq<int>, b: seq<int>, c: seq<int>)
    requires LexLe(a, b) && LexLe(b, c)
    ensures LexLe(a, c)
  {
    if |a| > 0 && |b| > 0 && |c| > 0 && a[0] == b[0] == c[0] {
      LexLeTrans(a[1..], b[1..], c[1..]);
    }
  }

  /** Comparing two keys that start with a number: first by that number, then by the rest. */
  lemma LexLeHead(x: int, s: seq<int>, y: int, t: seq<int>)
    ensures LexLe([x] + s, [y] + t) <==> x < y || (x == y && LexLe(s, t))
  {
    assert ([x] + s)[1..] == s && ([y] + t)[1..] == t;
  }

  /** Every element's key is at most every later element's key. */
  ghost predicate SortedBy<T>(s: seq<T>, key: T -> seq<int>) {
    forall i, j :: 0 <= i < j < |s| ==> LexLe(key(s[i]), key(s[j]))
  }

  /** Inserts `x` before the first element whose key is not smaller than its own. */
  function Insert<T>(x: T, s: seq<T>, key: T -> seq<int>): (r: seq<T>)
    ensures multiset(r) == multiset(s) + multiset{x}
    ensures |r| == |s| + 1
  {
    if s == [] then [x]
    else if LexLe(key(x), key(s[0])) then [x] + s
    else
      assert s == [s[0]] + s[1..];
      [s[0]] + Insert(x, s[1..], key)
  }

  /**
   * A stable insertion sort by `key`: the result of JavaScript's stable
   * `Array.prototype.sort` and of a database `order by` on the same key.
   */
  function SortBy<T>(s: seq<T>, key: T -> seq<int>): (r: seq<T>)
    ensures multiset(r) == multiset(s)
    ensures |r| == |s|
  {
    if s == [] then []
    else
      assert s == [s[0]] + s[1..];
      Insert(s[0], SortBy(s[1..], key), key)
  }

  lemma {:induction false} InsertSorted<T>(x: T, s: seq<T>, key: T -> seq<int>)
    requires SortedBy(s, key)
    ensures SortedBy(Insert(x, s, key), key)
  {
    if s == [] {
    } else if LexLe(key(x), key(s[0])) {
      forall j | 0 <= j < |s|
        ensures LexLe(key(x), key(s[j]))
      {
        if j > 0 {
          LexLeTrans(key(x), key(s[0]), key(s[j]));
        }
      }
    } else {
      LexLeTotal(key(x), key(s[0]));
      InsertSorted(x, s[1..], key);
      var t := Insert(x, s[1..], key);
      forall j | 0 <= j < |t|
        ensures LexLe(key(s[0]), key(t[j]))
      {
        assert t[j] in multiset(t);
        assert t[j] == x || t[j] in multiset(s[1..]);
        if t[j] != x {
          var k :| 1 <= k < |s| && s[k] == t[j] by {
            assert t[j] in s[1..];
          }
        }
      }
    }
  }

  /** The sort orders its result by the key. */
  lemma {:induction false} SortByIsSorted<T>(s: seq<T>, key: T -> seq<int>)
    ensures SortedBy(SortBy(s, key), key)
  {
    if s != [] {
      SortByIsSorted(s[1..], key);
      InsertSorted(s[0], SortBy(s[1..], key), key);
    }
  }

  /** Sorting an already sorted list changes nothing. */
  lemma {:induction false} SortBySortedUnchanged<T>(s: seq<T>, key: T -> seq<int>)
    requires SortedBy(s, key)
    ensures SortBy(s, key) == s
  {
    if s != [] {
      SortBySortedUnchanged(s[1..], key);
      assert SortBy(s[1..], key) == s[1..];
      if |s| > 1 {
        assert LexLe(key(s[0]), key(s[1]));
      }
    }
  }
}
