/** Rows of an in-memory table as a sequence in row-id order, with the two
    statements the database layer uses on them: `DELETE ... WHERE` (a
    filter) and `UPDATE ... WHERE` (a row-wise map). */
module Tables {

  /** The rows of `s` that `keep` accepts, in their order. */
  function Filter<T>(s: seq<T>, keep: T -> bool): (r: seq<T>)
    ensures |r| <= |s|
  {
    if s == [] then []
    else if keep(s[0]) then [s[0]] + Filter(s[1..], keep)
    else Filter(s[1..], keep)
  }

  /** Every row a filter keeps comes from the table and is accepted. */
  lemma {:induction false} FilterSound<T>(s: seq<T>, keep: T -> bool)
    ensures forall i :: 0 <= i < |Filter(s, keep)| ==> Filter(s, keep)[i] in s && keep(Filter(s, keep)[i])
  {
    if s != [] {
      FilterSound(s[1..], keep);
      var rest := Filter(s[1..], keep);
      forall i | 0 <= i < |Filter(s, keep)| ensures Filter(s, keep)[i] in s && keep(Filter(s, keep)[i]) {
        if keep(s[0]) && i == 0 {
          assert Filter(s, keep)[0] == s[0];
        } else {
          var j := if keep(s[0]) then i - 1 else i;
          assert Filter(s, keep)[i] == rest[j];
          assert rest[j] in s[1..];
        }
      }
    }
  }

  /** Every accepted row of the table is kept. */
  lemma {:induction false} FilterComplete<T>(s: seq<T>, keep: T -> bool)
    ensures forall i :: 0 <= i < |s| && keep(s[i]) ==> s[i] in Filter(s, keep)
  {
    if s != [] {
      FilterComplete(s[1..], keep);
      forall i | 0 <= i < |s| && keep(s[i]) ensures s[i] in Filter(s, keep) {
        if i == 0 {
          assert Filter(s, keep)[0] == s[0];
        } else {
          assert s[i] == s[1..][i - 1];
          assert s[i] in Filter(s[1..], keep);
        }
      }
    }
  }

  /** A filter that accepts every row changes nothing. */
  lemma {:induction false} FilterAll<T>(s: seq<T>, keep: T -> bool)
    requires forall i :: 0 <= i < |s| ==> keep(s[i])
    ensures Filter(s, keep) == s
  {
    if s != [] {
      FilterAll(s[1..], keep);
    }
  }

  /** Every row stands in `rel` to every later row. */
  predicate Pairwise<T>(s: seq<T>, rel: (T, T) -> bool) {
    forall i, j :: 0 <= i < j < |s| ==> rel(s[i], s[j])
  }

  /** Deleting rows keeps a pairwise ordering (ids stay increasing, unique
      columns stay unique). */
  lemma {:induction false} FilterPairwise<T>(s: seq<T>, keep: T -> bool, rel: (T, T) -> bool)
    requires Pairwise(s, rel)
    ensures Pairwise(Filter(s, keep), rel)
  {
    if s != [] {
      assert Pairwise(s[1..], rel) by {
        forall i, j | 0 <= i < j < |s[1..]| ensures rel(s[1..][i], s[1..][j]) {
          assert s[1..][i] == s[i + 1] && s[1..][j] == s[j + 1];
        }
      }
      FilterPairwise(s[1..], keep, rel);
      FilterSound(s[1..], keep);
      var rest := Filter(s[1..], keep);
      if keep(s[0]) {
        forall i, j | 0 <= i < j < |[s[0]] + rest| ensures rel(([s[0]] + rest)[i], ([s[0]] + rest)[j]) {
          if i == 0 {
            var y := rest[j - 1];
            assert y in s[1..];
            var k :| 0 <= k < |s[1..]| && s[1..][k] == y;
            assert s[k + 1] == y;
            assert rel(s[0], s[k + 1]);
          } else {
            assert ([s[0]] + rest)[i] == rest[i - 1] && ([s[0]] + rest)[j] == rest[j - 1];
          }
        }
      }
    }
  }

  /** Appending a row that every existing row stands in `rel` to. */
  lemma PairwiseAppend<T>(s: seq<T>, x: T, rel: (T, T) -> bool)
    requires Pairwise(s, rel)
    requires forall i :: 0 <= i < |s| ==> rel(s[i], x)
    ensures Pairwise(s + [x], rel)
  {
    forall i, j | 0 <= i < j < |s + [x]| ensures rel((s + [x])[i], (s + [x])[j]) {
      assert (s + [x])[i] == s[i];
      if j < |s| {
        assert (s + [x])[j] == s[j];
      }
    }
  }

  /** `f` applied to every row. */
  function Update<T>(s: seq<T>, f: T -> T): (r: seq<T>)
    ensures |r| == |s|
    ensures forall i :: 0 <= i < |s| ==> r[i] == f(s[i])
  {
    seq(|s|, i requires 0 <= i < |s| => f(s[i]))
  }
}
