/** Order-preserving removal of duplicates. The source does this twice, in
    two different ways (a `Set` spread on the server, an `indexOf` filter in
    the browser); both are proved equal to the reference definition here. */
module Seqs {

  predicate NoDuplicates<T(==)>(s: seq<T>) {
    forall i, j :: 0 <= i < j < |s| ==> s[i] != s[j]
  }

  /** The index of the first occurrence of `x` in `s`. */
  function FirstIndex<T(==)>(s: seq<T>, x: T): (k: nat)
    requires x in s
    ensures k < |s| && s[k] == x && x !in s[..k]
    ensures forall m :: 0 <= m < k ==> s[m] != x
  {
    if s[0] == x then 0
    else
      var k := FirstIndex(s[1..], x);
      assert s[..k + 1] == [s[0]] + s[1..][..k];
      k + 1
  }

  /** The last element of a prefix is first found at its own place exactly
      when it does not occur earlier. */
  lemma FirstIndexOfLast<T>(s: seq<T>, n: nat)
    requires 0 < n <= |s|
    ensures FirstIndex(s, s[n - 1]) == n - 1 <==> s[n - 1] !in s[..n - 1]
  {
    var x := s[n - 1];
    var k := FirstIndex(s, x);
    assert k <= n - 1;
    assert forall m :: 0 <= m < n - 1 ==> s[..n - 1][m] == s[m];
  }

  /** Reference definition: each element of `s` kept at its first occurrence,
      later repeats dropped. */
  function FirstOccurrences<T(==,!new)>(s: seq<T>): (r: seq<T>)
    ensures NoDuplicates(r)
    ensures forall x :: x in r <==> x in s
    ensures |r| <= |s|
  {
    if s == [] then []
    else
      var init := s[..|s| - 1];
      var last := s[|s| - 1];
      var p := FirstOccurrences(init);
      assert forall x :: x in s <==> x in init || x == last;
      if last in init then p else p + [last]
  }

  /** A sequence without repeats is its own de-duplication. */
  lemma {:induction false} FirstOccurrencesOfDistinct<T(!new)>(s: seq<T>)
    requires NoDuplicates(s)
    ensures FirstOccurrences(s) == s
  {
    if s != [] {
      var init := s[..|s| - 1];
      assert NoDuplicates(init);
      FirstOccurrencesOfDistinct(init);
      assert s[|s| - 1] !in init;
      assert s == init + [s[|s| - 1]];
    }
  }

  /** Extending the input only extends the output. */
  lemma FirstOccurrencesSnoc<T(!new)>(s: seq<T>, x: T)
    ensures FirstOccurrences(s + [x]) == if x in s then FirstOccurrences(s) else FirstOccurrences(s) + [x]
  {
    assert (s + [x])[..|s|] == s;
  }

  /** The output keeps the relative order of first occurrences: `x` comes
      before `y` in the output exactly when the first `x` comes before the
      first `y` in the input. */
  lemma {:induction false} FirstOccurrencesOrder<T(!new)>(s: seq<T>, x: T, y: T)
    requires x in s && y in s
    ensures FirstIndex(FirstOccurrences(s), x) < FirstIndex(FirstOccurrences(s), y)
            <==> FirstIndex(s, x) < FirstIndex(s, y)
    decreases |s|
  {
    var init := s[..|s| - 1];
    var last := s[|s| - 1];
    var p := FirstOccurrences(init);
    var r := FirstOccurrences(s);
    assert s == init + [last];
    if x in init && y in init {
      FirstOccurrencesOrder(init, x, y);
      FirstIndexPrefix(s, init, x);
      FirstIndexPrefix(s, init, y);
      if last !in init {
        FirstIndexPrefix(r, p, x);
        FirstIndexPrefix(r, p, y);
      }
    } else if x in init {
      // y first occurs at the end
      FirstIndexPrefix(s, init, x);
      assert FirstIndex(s, y) == |s| - 1;
      assert r == p + [y];
      FirstIndexPrefix(r, p, x);
      assert FirstIndex(r, y) == |p|;
    } else if y in init {
      FirstIndexPrefix(s, init, y);
      assert FirstIndex(s, x) == |s| - 1;
      assert r == p + [x];
      FirstIndexPrefix(r, p, y);
      assert FirstIndex(r, x) == |p|;
    } else {
      assert x == last && y == last;
    }
  }

  /** First indices are the same in a sequence and any prefix that holds the element. */
  lemma FirstIndexPrefix<T>(s: seq<T>, p: seq<T>, x: T)
    requires p <= s && x in p
    ensures x in s && FirstIndex(s, x) == FirstIndex(p, x)
  {
    var k := FirstIndex(p, x);
    assert s[k] == x;
    assert forall m :: 0 <= m < |p| ==> s[m] == p[m];
  }

  /** Two sequences without repeats and without common elements join into
      one without repeats. */
  lemma NoDuplicatesConcat<T>(a: seq<T>, b: seq<T>)
    requires NoDuplicates(a) && NoDuplicates(b)
    requires forall x :: x in a ==> x !in b
    ensures NoDuplicates(a + b)
  {
    forall i, j | 0 <= i < j < |a + b| ensures (a + b)[i] != (a + b)[j] {
      if i < |a| && j >= |a| {
        assert (a + b)[i] in a && (a + b)[j] == b[j - |a|];
      }
    }
  }

  /** What a sequence holds is what its two pieces hold. */
  lemma SplitMembership<T>(s: seq<T>, n: nat)
    requires n <= |s|
    ensures forall x :: x in s <==> x in s[..n] || x in s[n..]
  {
    assert s == s[..n] + s[n..];
  }

  /** Cutting a sequence without repeats gives two pieces without repeats
      and without common elements. */
  lemma NoDuplicatesSplit<T>(s: seq<T>, n: nat)
    requires NoDuplicates(s) && n <= |s|
    ensures NoDuplicates(s[..n]) && NoDuplicates(s[n..])
    ensures forall x :: x in s[..n] ==> x !in s[n..]
  {
    forall x | x in s[..n] ensures x !in s[n..] {
      var i :| 0 <= i < n && s[..n][i] == x;
      forall j | 0 <= j < |s| - n ensures s[n..][j] != x {
        assert s[n..][j] == s[n + j] && s[..n][i] == s[i];
      }
    }
  }
}
