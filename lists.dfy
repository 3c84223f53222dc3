/** The array operations the stores and pages build on: `filter`, `map`
    over the elements a predicate selects, the `new Set(...)` duplicate
    removal, `slice` with JavaScript's index clamping, and page slicing. */
module Lists {
  import opened Wrappers

  /** `r` is obtained from `s` by dropping elements, keeping order. */
  predicate IsSubseq<T(==)>(r: seq<T>, s: seq<T>)
    decreases |s|
  {
    if |r| == 0 then true
    else if |s| == 0 then false
    else (r[0] == s[0] && IsSubseq(r[1..], s[1..])) || IsSubseq(r, s[1..])
  }

  /** `s.filter(p)`. */
  function Filter<T(==)>(s: seq<T>, p: T -> bool): (r: seq<T>)
    ensures |r| <= |s|
    ensures forall k :: 0 <= k < |r| ==> r[k] in s && p(r[k])
    ensures forall k :: 0 <= k < |s| && p(s[k]) ==> s[k] in r
    ensures IsSubseq(r, s)
    decreases |s|
  {
    if |s| == 0 then []
    else if p(s[0]) then [s[0]] + Filter(s[1..], p)
    else Filter(s[1..], p)
  }

  /** The filter keeps every kept value as often as `s` holds it, and no
      other value. */
  lemma {:induction false} FilterCounts<T>(s: seq<T>, p: T -> bool)
    ensures forall x :: multiset(Filter(s, p))[x] == if p(x) then multiset(s)[x] else 0
    decreases |s|
  {
    if |s| > 0 {
      FilterCounts(s[1..], p);
      assert s == [s[0]] + s[1..];
    }
  }

  lemma {:induction false} FilterAll<T>(s: seq<T>, p: T -> bool)
    requires forall k :: 0 <= k < |s| ==> p(s[k])
    ensures Filter(s, p) == s
    decreases |s|
  {
    if |s| > 0 {
      FilterAll(s[1..], p);
    }
  }

  lemma {:induction false} FilterOfNone<T>(s: seq<T>, p: T -> bool)
    requires forall k :: 0 <= k < |s| ==> !p(s[k])
    ensures Filter(s, p) == []
    decreases |s|
  {
    if |s| > 0 {
      FilterOfNone(s[1..], p);
    }
  }

  /** Filtering by `p` then by `q` is filtering by both at once. */
  lemma {:induction false} FilterFilter<T>(s: seq<T>, p: T -> bool, q: T -> bool)
    ensures Filter(Filter(s, p), q) == Filter(s, x => p(x) && q(x))
    decreases |s|
  {
    if |s| > 0 {
      FilterFilter(s[1..], p, q);
      if p(s[0]) {
        assert Filter(s, p) == [s[0]] + Filter(s[1..], p);
        assert Filter(s, p)[1..] == Filter(s[1..], p);
      }
    }
  }

  /** Filtering a concatenation filters each part. */
  lemma {:induction false} FilterAppend<T>(a: seq<T>, b: seq<T>, p: T -> bool)
    ensures Filter(a + b, p) == Filter(a, p) + Filter(b, p)
    decreases |a|
  {
    if |a| > 0 {
      assert (a + b)[1..] == a[1..] + b;
      FilterAppend(a[1..], b, p);
    } else {
      assert a + b == b;
    }
  }

  /** The elements `p` keeps and the ones it drops make up the whole list. */
  lemma {:induction false} FilterSplitsCount<T>(s: seq<T>, p: T -> bool)
    ensures |Filter(s, p)| + |Filter(s, x => !p(x))| == |s|
    decreases |s|
  {
    if |s| > 0 {
      FilterSplitsCount(s[1..], p);
    }
  }

  /** `s.find(p)`: the first element `p` accepts, if any. */
  function Find<T>(s: seq<T>, p: T -> bool): (r: Option<T>)
    ensures r.None? <==> forall j :: 0 <= j < |s| ==> !p(s[j])
    ensures r.Some? ==> exists j :: 0 <= j < |s| && s[j] == r.value && p(s[j]) && forall i :: 0 <= i < j ==> !p(s[i])
    decreases |s|
  {
    if |s| == 0 then None
    else if p(s[0]) then Some(s[0])
    else
      var r := Find(s[1..], p);
      if r.Some? then
        ghost var j :| 0 <= j < |s| - 1 && s[1..][j] == r.value && p(s[1..][j]) && forall i :: 0 <= i < j ==> !p(s[1..][i]);
        assert s[j + 1] == r.value && forall i :: 0 <= i < j + 1 ==> !p(s[i]);
        r
      else r
  }

  /** `s.map(x => p(x) ? f(x) : x)`: rewrite the selected elements only. */
  function MapWhere<T>(s: seq<T>, p: T -> bool, f: T -> T): (r: seq<T>)
    ensures |r| == |s|
    ensures forall i :: 0 <= i < |s| ==> r[i] == (if p(s[i]) then f(s[i]) else s[i])
    decreases |s|
  {
    if |s| == 0 then [] else [if p(s[0]) then f(s[0]) else s[0]] + MapWhere(s[1..], p, f)
  }

  /** No element of `s` occurs twice. */
  predicate NoDuplicates<T(==)>(s: seq<T>) {
    forall i, j :: 0 <= i < j < |s| ==> s[i] != s[j]
  }

  /** The index of the first occurrence of `x` in `s`. */
  function FirstIndex<T(==)>(s: seq<T>, x: T): (k: nat)
    requires x in s
    ensures k < |s| && s[k] == x
    ensures forall j :: 0 <= j < k ==> s[j] != x
    decreases |s|
  {
    if s[0] == x then 0 else 1 + FirstIndex(s[1..], x)
  }

  lemma {:induction false} FirstIndexOfPrefix<T>(s: seq<T>, n: nat, x: T)
    requires n <= |s| && x in s[..n]
    ensures FirstIndex(s, x) == FirstIndex(s[..n], x)
  {
    var k := FirstIndex(s[..n], x);
    assert s[k] == x;
  }

  /** `[...new Set(s)]`: each element once, at the place where it first
      occurs. */
  function Dedupe<T(==)>(s: seq<T>): (r: seq<T>)
    ensures NoDuplicates(r)
    ensures forall k :: 0 <= k < |r| ==> r[k] in s
    ensures forall k :: 0 <= k < |s| ==> s[k] in r
    decreases |s|
  {
    if |s| == 0 then []
    else
      var init := s[..|s| - 1];
      var last := s[|s| - 1];
      var r := Dedupe(init);
      assert s == init + [last];
      if last in r then r else r + [last]
  }

  /** The elements of `r` come in the order of their first occurrences
      in `s`. */
  predicate InFirstOrder<T(==)>(r: seq<T>, s: seq<T>)
    requires forall k :: 0 <= k < |r| ==> r[k] in s
  {
    forall i, j :: 0 <= i < j < |r| ==> FirstIndex(s, r[i]) < FirstIndex(s, r[j])
  }

  /** First-occurrence order in a prefix of `s` is that order in `s`. */
  lemma {:induction false} InFirstOrderOfPrefix<T>(s: seq<T>, n: nat, r: seq<T>)
    requires n <= |s|
    requires forall k :: 0 <= k < |r| ==> r[k] in s[..n]
    requires InFirstOrder(r, s[..n])
    ensures forall k :: 0 <= k < |r| ==> r[k] in s && FirstIndex(s, r[k]) < n
    ensures InFirstOrder(r, s)
  {
    forall k | 0 <= k < |r| ensures r[k] in s && FirstIndex(s, r[k]) == FirstIndex(s[..n], r[k]) < n {
      FirstIndexOfPrefix(s, n, r[k]);
    }
  }

  /** An element first occurring after all of `r`'s keeps the order when
      appended. */
  lemma {:induction false} InFirstOrderAppend<T>(s: seq<T>, r: seq<T>, x: T)
    requires x in s
    requires forall k :: 0 <= k < |r| ==> r[k] in s && FirstIndex(s, r[k]) < FirstIndex(s, x)
    requires InFirstOrder(r, s)
    ensures InFirstOrder(r + [x], s)
  {
    var d := r + [x];
    forall i, j | 0 <= i < j < |d| ensures FirstIndex(s, d[i]) < FirstIndex(s, d[j]) {
      assert d[i] == r[i];
      if j < |r| {
        assert d[j] == r[j];
      }
    }
  }

  /** The kept elements appear in the order of their first occurrences. */
  lemma {:induction false} DedupeOrder<T>(s: seq<T>)
    ensures InFirstOrder(Dedupe(s), s)
    decreases |s|
  {
    if |s| > 0 {
      var n := |s| - 1;
      var init := s[..n];
      var last := s[n];
      var r := Dedupe(init);
      DedupeOrder(init);
      InFirstOrderOfPrefix(s, n, r);
      assert s == init + [last];
      if last !in r {
        assert forall j :: 0 <= j < n ==> s[j] == init[j] && init[j] in r;
        assert FirstIndex(s, last) == n;
        InFirstOrderAppend(s, r, last);
      }
    }
  }

  /** Deduplicating one element more keeps the earlier result and adds
      the element at the end when it is new. */
  lemma {:induction false} DedupeSnoc<T>(s: seq<T>, x: T)
    ensures Dedupe(s + [x]) == if x in Dedupe(s) then Dedupe(s) else Dedupe(s) + [x]
  {
    assert (s + [x])[..|s|] == s;
  }

  /** Dedupe leaves a list without repeats as it is. */
  lemma {:induction false} DedupeOfDistinct<T>(s: seq<T>)
    requires NoDuplicates(s)
    ensures Dedupe(s) == s
    decreases |s|
  {
    if |s| > 0 {
      var init := s[..|s| - 1];
      var last := s[|s| - 1];
      assert NoDuplicates(init) by {
        forall i, j | 0 <= i < j < |init| ensures init[i] != init[j] {
          assert init[i] == s[i] && init[j] == s[j];
        }
      }
      DedupeOfDistinct(init);
      assert last !in init by {
        forall k | 0 <= k < |init| ensures init[k] != last {
          assert init[k] == s[k];
        }
      }
      assert s[..|s| - 1] == init;
      assert Dedupe(s) == Dedupe(init) + [last];
      assert init + [last] == s;
    }
  }

  // ---------------------------------------------------------------- slicing

  /** How `Array.prototype.slice` turns an argument into an index. */
  function ClampIndex(i: int, len: nat): (r: nat)
    ensures r <= len
    ensures 0 <= i <= len ==> r == i
    ensures i > len ==> r == len
  {
    if i < 0 then (if len + i < 0 then 0 else len + i)
    else if i > len then len
    else i
  }

  /** `s.slice(start, end)`. */
  function JsSlice<T>(s: seq<T>, start: int, end: int): (r: seq<T>)
    ensures |r| <= |s|
  {
    var a := ClampIndex(start, |s|);
    var b := ClampIndex(end, |s|);
    if a < b then s[a..b] else []
  }

  /** `s.slice((page - 1) * size, page * size)`: the rows of one page. */
  function PageSlice<T>(s: seq<T>, page: int, size: nat): seq<T>
  {
    JsSlice(s, (page - 1) * size, page * size)
  }

  /** Every row of a page is an element of the list. */
  lemma {:induction false} PageSliceIn<T>(s: seq<T>, page: int, size: nat)
    ensures forall k :: 0 <= k < |PageSlice(s, page, size)| ==> PageSlice(s, page, size)[k] in s
  {
    var a := ClampIndex((page - 1) * size, |s|);
    var b := ClampIndex(page * size, |s|);
    if a < b {
      forall k | 0 <= k < b - a ensures s[a..b][k] in s {
        assert s[a..b][k] == s[a + k];
      }
    }
  }

  /** The slice from `start` of at most `size` rows: at most `size` rows,
      those from `start` on, empty exactly when `start` is not below the
      length, and full when the list holds `size` rows from `start`. */
  lemma {:induction false} WindowSpec<T>(s: seq<T>, start: int, size: nat)
    requires start >= 0
    ensures var r := JsSlice(s, start, start + size);
      && |r| <= size
      && (|r| > 0 ==> start + |r| <= |s|)
      && (forall i :: 0 <= i < |r| ==> r[i] == s[start + i])
      && (|r| == 0 <==> size == 0 || |s| <= start)
      && (start + size <= |s| ==> |r| == size)
  {
  }

  /** The offsets of page `page`: the first page starts at 0 and each page
      ends where the next one starts. */
  lemma {:induction false} PageOffsets(page: int, size: nat)
    requires page >= 1
    ensures (page - 1) * size >= 0 && page * size == (page - 1) * size + size
  {
    assert page - 1 >= 0;
  }

  /** The page holds at most `size` rows, the ones from offset
      `(page - 1) * size` on, and it is empty exactly when that offset is
      not below the length. */
  lemma {:induction false} PageSliceSpec<T>(s: seq<T>, page: int, size: nat)
    requires page >= 1
    ensures var r := PageSlice(s, page, size);
      && |r| <= size
      && (|r| > 0 ==> (page - 1) * size + |r| <= |s|)
      && (forall i :: 0 <= i < |r| ==> r[i] == s[(page - 1) * size + i])
      && (|r| == 0 <==> size == 0 || |s| <= (page - 1) * size)
      && ((page - 1) * size + size <= |s| ==> |r| == size)
  {
    PageOffsets(page, size);
    var start := (page - 1) * size;
    WindowSpec(s, start, size);
  }
}
