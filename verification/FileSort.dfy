/**
 * `sortFiles`: the in-place sort that puts `project.json` first, then orders files by the
 * number before the first '.' of their path, then by string comparison. Its comparator is
 * modelled as two predicates (negative result, non-positive result); the sort is proved to
 * return a sorted permutation, and any two sorted permutations of a list whose paths are
 * distinct are proved equal, so the output does not depend on the input order.
 */
module FileSort {
  import opened Manifest
  import opened Strings

  /**
   * `+path.split('.').shift() || 0`, for decimal prefixes: the value of the digits before
   * the first '.', and 0 when that text is empty or not all digits.
   */
  function NumericPrefix(path: string): nat {
    var p := BeforeFirstDot(path);
    if |p| > 0 && AllDigits(p) then DecimalValue(p) else 0
  }

  /** A file named `{n}.{ext}` sorts by `n`. */
  lemma NumericPrefixOfIdPath(n: nat, ext: string)
    ensures NumericPrefix(NatToString(n) + "." + ext) == n
  {
    BeforeFirstDotOfJoin(NatToString(n), ext);
    DecimalRoundTrip(n);
  }

  /** The comparator returns a negative number: `a` is moved before `b`. */
  predicate Precedes(a: FileEntry, b: FileEntry) {
    a.path == ProjectJsonPath
    || (b.path != ProjectJsonPath
        && (NumericPrefix(a.path) < NumericPrefix(b.path)
            || (NumericPrefix(a.path) == NumericPrefix(b.path) && LocaleLess(a.path, b.path))))
  }

  /** The comparator returns zero or a negative number: `a` may stand before `b`. */
  predicate InOrder(a: FileEntry, b: FileEntry) {
    a.path == ProjectJsonPath
    || (b.path != ProjectJsonPath
        && (NumericPrefix(a.path) < NumericPrefix(b.path)
            || (NumericPrefix(a.path) == NumericPrefix(b.path) && !LocaleLess(b.path, a.path))))
  }

  predicate Sorted(s: seq<FileEntry>) {
    forall i, j :: 0 <= i < j < |s| ==> InOrder(s[i], s[j])
  }

  predicate DistinctPaths(s: seq<FileEntry>) {
    forall i, j :: 0 <= i < j < |s| ==> s[i].path != s[j].path
  }

  lemma PrecedesIsInOrder(a: FileEntry, b: FileEntry)
    requires Precedes(a, b)
    ensures InOrder(a, b)
  {
    if a.path != ProjectJsonPath && NumericPrefix(a.path) == NumericPrefix(b.path) {
      LocaleLessAsymmetric(a.path, b.path);
    }
  }

  lemma NotPrecedesIsInOrder(a: FileEntry, b: FileEntry)
    requires !Precedes(a, b)
    ensures InOrder(b, a)
  {
  }

  lemma InOrderTransitive(a: FileEntry, b: FileEntry, c: FileEntry)
    requires InOrder(a, b) && InOrder(b, c)
    ensures InOrder(a, c)
  {
    if a.path != ProjectJsonPath && NumericPrefix(a.path) == NumericPrefix(b.path) == NumericPrefix(c.path) {
      if LocaleLess(c.path, a.path) {
        LocaleLessTotal(a.path, b.path);
        if LocaleLess(a.path, b.path) {
          LocaleLessTransitive(c.path, a.path, b.path);
        }
      }
    }
  }

  /** Two entries that may each stand before the other have the same path. */
  lemma InOrderBothWays(a: FileEntry, b: FileEntry)
    requires InOrder(a, b) && InOrder(b, a)
    ensures a.path == b.path
  {
    LocaleLessTotal(a.path, b.path);
  }

  /** `sortFiles`, as an insertion sort that moves an entry left while the comparator is negative. */
  method SortFiles(a: array<FileEntry>)
    modifies a
    ensures Sorted(a[..])
    ensures multiset(a[..]) == multiset(old(a[..]))
  {
    var i := 0;
    while i < a.Length
      invariant 0 <= i <= a.Length
      invariant forall p, q :: 0 <= p < q < i ==> InOrder(a[p], a[q])
      invariant multiset(a[..]) == multiset(old(a[..]))
    {
      InsertLeft(a, i);
      i := i + 1;
    }
  }

  /** One pass of the insertion sort: moves `a[i]` left into the sorted prefix `a[..i]`. */
  method InsertLeft(a: array<FileEntry>, i: nat)
    requires i < a.Length
    requires forall p, q :: 0 <= p < q < i ==> InOrder(a[p], a[q])
    modifies a
    ensures forall p, q :: 0 <= p < q <= i ==> InOrder(a[p], a[q])
    ensures multiset(a[..]) == multiset(old(a[..]))
  {
    var j := i;
    while j > 0 && Precedes(a[j], a[j - 1])
      invariant 0 <= j <= i
      invariant forall p, q :: 0 <= p < q <= i && p != j && q != j ==> InOrder(a[p], a[q])
      invariant forall q :: j < q <= i ==> InOrder(a[j], a[q])
      invariant multiset(a[..]) == multiset(old(a[..]))
    {
      PrecedesIsInOrder(a[j], a[j - 1]);
      Swap(a, j - 1, j);
      j := j - 1;
    }
    if j > 0 {
      NotPrecedesIsInOrder(a[j], a[j - 1]);
      forall p | 0 <= p < j - 1
        ensures InOrder(a[p], a[j])
      {
        InOrderTransitive(a[p], a[j - 1], a[j]);
      }
    }
  }

  method Swap(a: array<FileEntry>, i: nat, j: nat)
    requires i < j < a.Length
    modifies a
    ensures a[i] == old(a[j]) && a[j] == old(a[i])
    ensures forall m :: 0 <= m < a.Length && m != i && m != j ==> a[m] == old(a[m])
    ensures multiset(a[..]) == multiset(old(a[..]))
  {
    a[i], a[j] := a[j], a[i];
  }

  /**
   * `sortFiles(files)` followed by `{type: 'zip', title, extension, files}`: the archive
   * holds the given files, sorted, and nothing else.
   */
  method SortedArchive(title: string, extension: string, files: seq<FileEntry>) returns (z: LoadResult)
    ensures z.Zip? && z.title == title && z.extension == extension
    ensures Sorted(z.files) && multiset(z.files) == multiset(files)
  {
    var a := new FileEntry[|files|](j requires 0 <= j < |files| => files[j]);
    assert a[..] == files;
    SortFiles(a);
    z := Zip(title, extension, a[..]);
  }

  /** In a sorted list that holds `project.json`, it is the first entry, and the other entries ascend by number. */
  lemma SortedLayout(s: seq<FileEntry>, k: nat)
    requires Sorted(s) && k < |s| && s[k].path == ProjectJsonPath
    ensures s[0].path == ProjectJsonPath
    ensures forall i, j :: 0 <= i < j < |s| && s[i].path != ProjectJsonPath ==>
              s[j].path != ProjectJsonPath && NumericPrefix(s[i].path) <= NumericPrefix(s[j].path)
  {
    if k > 0 {
      assert InOrder(s[0], s[k]);
    }
  }

  lemma InOrderReflexive(a: FileEntry)
    ensures InOrder(a, a)
  {
    LocaleLessIrreflexive(a.path);
  }

  /** Two sorted permutations of a list with distinct paths start with the same entry. */
  lemma SortedHeadsEqual(s: seq<FileEntry>, t: seq<FileEntry>)
    requires s != [] && Sorted(s) && Sorted(t) && multiset(s) == multiset(t)
    requires DistinctPaths(s)
    ensures t != [] && s[0] == t[0]
  {
    assert |s| == |multiset(s)| == |multiset(t)| == |t|;
    assert t[0] in multiset(s) && s[0] in multiset(t);
    var k :| 0 <= k < |s| && s[k] == t[0];
    var m :| 0 <= m < |t| && t[m] == s[0];
    InOrderReflexive(s[0]);
    InOrderReflexive(t[0]);
    assert InOrder(s[0], s[k]);
    assert InOrder(t[0], t[m]);
    InOrderBothWays(s[0], t[0]);
    assert k == 0;
  }

  lemma SortedTail(s: seq<FileEntry>)
    requires s != [] && Sorted(s)
    ensures Sorted(s[1..])
  {
    forall i, j | 0 <= i < j < |s| - 1
      ensures InOrder(s[1..][i], s[1..][j])
    {
      assert s[1..][i] == s[i + 1] && s[1..][j] == s[j + 1];
    }
  }

  lemma DistinctPathsTail(s: seq<FileEntry>)
    requires s != [] && DistinctPaths(s)
    ensures DistinctPaths(s[1..])
  {
    forall i, j | 0 <= i < j < |s| - 1
      ensures s[1..][i].path != s[1..][j].path
    {
      assert s[1..][i] == s[i + 1] && s[1..][j] == s[j + 1];
    }
  }

  lemma MultisetTails<T>(s: seq<T>, t: seq<T>)
    requires s != [] && t != [] && s[0] == t[0] && multiset(s) == multiset(t)
    ensures multiset(s[1..]) == multiset(t[1..])
  {
    assert s == [s[0]] + s[1..] && t == [t[0]] + t[1..];
    assert multiset(s) == multiset([s[0]]) + multiset(s[1..]);
    assert multiset(t) == multiset([t[0]]) + multiset(t[1..]);
    assert multiset(s[1..]) == multiset(s) - multiset([s[0]]);
    assert multiset(t[1..]) == multiset(t) - multiset([t[0]]);
  }

  /** Sort determinism: two sorted permutations of a list with distinct paths are the same list. */
  lemma {:induction false} SortedPermutationsEqual(s: seq<FileEntry>, t: seq<FileEntry>)
    requires Sorted(s) && Sorted(t) && multiset(s) == multiset(t)
    requires DistinctPaths(s)
    ensures s == t
  {
    if s == [] {
      assert |t| == |multiset(t)| == 0;
    } else {
      SortedHeadsEqual(s, t);
      SortedTail(s);
      SortedTail(t);
      DistinctPathsTail(s);
      MultisetTails(s, t);
      SortedPermutationsEqual(s[1..], t[1..]);
      assert s == [s[0]] + s[1..] && t == [t[0]] + t[1..];
    }
  }

  lemma {:induction false} RepeatCounted<T>(s: seq<T>, i: nat, j: nat)
    requires i < j < |s|
    ensures s[i] == s[j] ==> multiset(s)[s[i]] >= 2
  {
    assert s == s[..j] + [s[j]] + s[j + 1..];
    assert s[..j][i] == s[i];
  }

  lemma {:induction false} DistinctPathsCount(u: seq<FileEntry>, e: FileEntry)
    requires DistinctPaths(u)
    ensures multiset(u)[e] <= 1
  {
    if u != [] {
      var t := u[1..];
      assert u == [u[0]] + t;
      assert DistinctPaths(t) by {
        forall i, j | 0 <= i < j < |t|
          ensures t[i].path != t[j].path
        {
          assert t[i] == u[i + 1] && t[j] == u[j + 1];
        }
      }
      DistinctPathsCount(t, e);
      assert forall q :: 0 <= q < |t| ==> t[q].path != u[0].path;
      assert u[0] !in t;
    }
  }

  /** Reordering a list whose paths are distinct keeps them distinct. */
  lemma DistinctPathsPermutation(s: seq<FileEntry>, u: seq<FileEntry>)
    requires multiset(s) == multiset(u) && DistinctPaths(u)
    ensures DistinctPaths(s)
  {
    forall i, j | 0 <= i < j < |s|
      ensures s[i].path != s[j].path
    {
      RepeatCounted(s, i, j);
      DistinctPathsCount(u, s[i]);
      assert s[i] in multiset(u) && s[j] in multiset(u);
      var a :| 0 <= a < |u| && u[a] == s[i];
      var b :| 0 <= b < |u| && u[b] == s[j];
      assert s[i].path == s[j].path ==> a == b;
    }
  }

  /**
   * Sorting a list of distinct paths has one possible result: whatever order the entries
   * arrive in, the sorted list is the same.
   */
  lemma SortIsDeterministic(s: seq<FileEntry>, t: seq<FileEntry>, u: seq<FileEntry>)
    requires DistinctPaths(u)
    requires Sorted(s) && multiset(s) == multiset(u)
    requires Sorted(t) && multiset(t) == multiset(u)
    ensures s == t
  {
    DistinctPathsPermutation(s, u);
    SortedPermutationsEqual(s, t);
  }

  /** A sorted list of distinct paths is the only sorted arrangement of its entries. */
  lemma SortedUnique(s: seq<FileEntry>)
    requires Sorted(s) && DistinctPaths(s)
    ensures forall t :: Sorted(t) && multiset(t) == multiset(s) ==> t == s
  {
    forall t | Sorted(t) && multiset(t) == multiset(s)
      ensures t == s
    {
      SortedPermutationsEqual(s, t);
    }
  }

  /**
   * An archive built as `pending + [pj]`, with distinct asset paths none of which is
   * `project.json`, sorts to exactly one `project.json` entry, at the front.
   */
  lemma ProjectJsonFirst(s: seq<FileEntry>, pending: seq<FileEntry>, pj: FileEntry)
    requires pj.path == ProjectJsonPath
    requires DistinctPaths(pending)
    requires forall q :: 0 <= q < |pending| ==> pending[q].path != ProjectJsonPath
    requires Sorted(s) && multiset(s) == multiset(pending + [pj])
    ensures |s| == |pending| + 1 && s[0] == pj
    ensures forall i :: 0 < i < |s| ==> s[i].path != ProjectJsonPath
    ensures DistinctPaths(s)
  {
    var u := pending + [pj];
    assert DistinctPaths(u) by {
      forall i, j | 0 <= i < j < |u|
        ensures u[i].path != u[j].path
      {
        if j < |pending| {
          assert u[i] == pending[i] && u[j] == pending[j];
        } else {
          assert u[i] == pending[i];
        }
      }
    }
    DistinctPathsPermutation(s, u);
    assert |s| == |multiset(s)| == |multiset(u)| == |u|;
    assert pj in multiset(s);
    var k :| 0 <= k < |s| && s[k] == pj;
    SortedLayout(s, k);
  }
}
