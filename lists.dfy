// List facts shared by the per-frame passes that walk a list from its end
// and splice out the entries that are done.

module Lists {

  /** No element occurs twice. */
  predicate Distinct<T(==)>(s: seq<T>)
  {
    forall i, j :: 0 <= i < j < |s| ==> s[i] != s[j]
  }

  /**
   * The entries of `s` whose flag is false, in list order: what a walk that
   * splices out every flagged entry leaves behind.
   */
  function Keep<T>(s: seq<T>, gone: seq<bool>): (r: seq<T>)
    requires |gone| == |s|
    ensures |r| <= |s|
    ensures (forall i :: 0 <= i < |gone| ==> !gone[i]) ==> r == s
  {
    if s == [] then [] else (if gone[0] then [] else [s[0]]) + Keep(s[1..], gone[1..])
  }

  /** Every kept entry comes from the list. */
  lemma {:induction false} KeepFrom<T>(s: seq<T>, gone: seq<bool>, x: T)
    requires |gone| == |s| && x in Keep(s, gone)
    ensures x in s
  {
    if s != [] && x != s[0] {
      KeepFrom(s[1..], gone[1..], x);
    }
  }

  /** An entry that is kept was not flagged; one that is not flagged is kept. */
  lemma {:induction false} KeepExactly<T>(s: seq<T>, gone: seq<bool>, i: int)
    requires |gone| == |s| && Distinct(s) && 0 <= i < |s|
    ensures s[i] in Keep(s, gone) <==> !gone[i]
  {
    if i == 0 {
      if s[0] in Keep(s[1..], gone[1..]) {
        KeepFrom(s[1..], gone[1..], s[0]);
      }
    } else {
      KeepExactly(s[1..], gone[1..], i - 1);
      assert s[1..][i - 1] == s[i];
    }
  }

  /** Keeping a sub-list of a list free of repeats leaves no repeats. */
  lemma {:induction false} KeepDistinct<T>(s: seq<T>, gone: seq<bool>)
    requires |gone| == |s| && Distinct(s)
    ensures Distinct(Keep(s, gone))
  {
    if s != [] {
      KeepDistinct(s[1..], gone[1..]);
      var t := Keep(s[1..], gone[1..]);
      assert s[0] !in s[1..];
      if s[0] in t {
        KeepFrom(s[1..], gone[1..], s[0]);
      }
    }
  }

  /** Appending to a list free of repeats entries that are new and pairwise apart keeps it so. */
  lemma DistinctAppend<T>(s: seq<T>, t: seq<T>)
    requires Distinct(s) && Distinct(t)
    requires forall x :: x in t ==> x !in s
    ensures Distinct(s + t)
  {
    forall i, j | 0 <= i < j < |s + t|
      ensures (s + t)[i] != (s + t)[j]
    {
      if j >= |s| && i < |s| {
        assert (s + t)[j] in t;
      }
    }
  }

  /** `indexOf`: the first position of `x`, or -1 when it does not occur. */
  method IndexOf<T(==)>(s: seq<T>, x: T) returns (i: int)
    ensures -1 <= i < |s|
    ensures i == -1 <==> x !in s
    ensures 0 <= i ==> s[i] == x && x !in s[..i]
  {
    i := 0;
    while i < |s|
      invariant 0 <= i <= |s| && x !in s[..i]
    {
      if s[i] == x {
        return i;
      }
      assert s[..i + 1] == s[..i] + [s[i]];
      i := i + 1;
    }
    assert s[..i] == s;
    return -1;
  }

  /** Splicing one entry out of a list free of repeats removes exactly that entry. */
  lemma SpliceOut<T>(s: seq<T>, i: int)
    requires Distinct(s) && 0 <= i < |s|
    ensures var r := s[..i] + s[i + 1..];
      Distinct(r) && |r| == |s| - 1 && forall x :: x in r <==> x in s && x != s[i]
  {
    var r := s[..i] + s[i + 1..];
    forall a, b | 0 <= a < b < |r|
      ensures r[a] != r[b]
    {
      var a' := if a < i then a else a + 1;
      var b' := if b < i then b else b + 1;
      assert r[a] == s[a'] && r[b] == s[b'];
    }
    forall x
      ensures x in r <==> x in s && x != s[i]
    {
      if x in s && x != s[i] {
        var k :| 0 <= k < |s| && s[k] == x;
        assert r[if k < i then k else k - 1] == x;
      }
      if x in r {
        var k :| 0 <= k < |r| && r[k] == x;
        assert s[if k < i then k else k + 1] == x;
      }
    }
  }
}
