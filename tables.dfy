/** Generic facts about rows kept in sequences: pairwise constraints and filtering. */
module Tables {

  /** No two distinct rows clash: what a set of unique constraints demands of a table. */
  predicate Pairwise<T>(s: seq<T>, clash: (T, T) -> bool) {
    forall i, j :: 0 <= i < j < |s| ==> !clash(s[i], s[j])
  }

  lemma PairwiseAppend<T>(s: seq<T>, x: T, clash: (T, T) -> bool)
    requires Pairwise(s, clash)
    requires forall i :: 0 <= i < |s| ==> !clash(s[i], x)
    ensures Pairwise(s + [x], clash)
  {
    var t := s + [x];
    forall i, j | 0 <= i < j < |t|
      ensures !clash(t[i], t[j])
    {
      if j < |s| {
        assert t[i] == s[i] && t[j] == s[j];
      } else {
        assert t[i] == s[i] && t[j] == x;
      }
    }
  }

  lemma PairwiseUpdate<T>(s: seq<T>, k: nat, x: T, clash: (T, T) -> bool)
    requires Pairwise(s, clash) && k < |s|
    requires forall i :: 0 <= i < |s| && i != k ==> !clash(s[i], x) && !clash(x, s[i])
    ensures Pairwise(s[k := x], clash)
  {
  }

  lemma PairwiseRemove<T>(s: seq<T>, k: nat, clash: (T, T) -> bool)
    requires Pairwise(s, clash) && k < |s|
    ensures Pairwise(s[..k] + s[k + 1..], clash)
  {
    var t := s[..k] + s[k + 1..];
    forall i, j | 0 <= i < j < |t|
      ensures !clash(t[i], t[j])
    {
      var i', j' := if i < k then i else i + 1, if j < k then j else j + 1;
      assert t[i] == s[i'] && t[j] == s[j'];
    }
  }

  /** The rows that satisfy `keep`, in their order. */
  function Filter<T>(s: seq<T>, keep: T -> bool): (r: seq<T>)
    ensures |r| <= |s|
    ensures forall k :: 0 <= k < |r| ==> r[k] in s && keep(r[k])
    ensures forall k :: 0 <= k < |s| && keep(s[k]) ==> s[k] in r
  {
    if s == [] then []
    else if keep(s[0]) then [s[0]] + Filter(s[1..], keep)
    else Filter(s[1..], keep)
  }

  /** Deleting rows never breaks a unique constraint. */
  lemma {:induction false} PairwiseFilter<T>(s: seq<T>, keep: T -> bool, clash: (T, T) -> bool)
    requires Pairwise(s, clash)
    ensures Pairwise(Filter(s, keep), clash)
  {
    if s != [] {
      var tail := s[1..];
      assert Pairwise(tail, clash) by {
        forall i, j | 0 <= i < j < |tail| ensures !clash(tail[i], tail[j]) {
          assert tail[i] == s[i + 1] && tail[j] == s[j + 1];
        }
      }
      PairwiseFilter(tail, keep, clash);
      if keep(s[0]) {
        var rest := Filter(tail, keep);
        var t := [s[0]] + rest;
        forall i, j | 0 <= i < j < |t|
          ensures !clash(t[i], t[j])
        {
          if i == 0 {
            assert t[j] == rest[j - 1] && rest[j - 1] in tail;
            var m :| 0 <= m < |tail| && tail[m] == rest[j - 1];
            assert s[m + 1] == t[j];
          } else {
            assert t[i] == rest[i - 1] && t[j] == rest[j - 1];
          }
        }
      }
    }
  }
}
