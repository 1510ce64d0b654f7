/** What several modules need. */
module Common {
  datatype Option<+T> = None | Some(value: T)

  predicate NoRepeat<T(==)>(s: seq<T>) { forall i, j :: 0 <= i < j < |s| ==> s[i] != s[j] }

  /** The sequence with its element at `k` taken out. */
  function Without<T>(s: seq<T>, k: nat): seq<T>
    requires k < |s|
  {
    s[..k] + s[k + 1..]
  }

  lemma WithoutIs<T>(s: seq<T>, k: nat)
    requires k < |s| && NoRepeat(s)
    ensures NoRepeat(Without(s, k)) && forall x :: x in Without(s, k) <==> x in s && x != s[k]
    ensures |Without(s, k)| == |s| - 1
    ensures forall j :: 0 <= j < |s| - 1 ==> Without(s, k)[j] == if j < k then s[j] else s[j + 1]
  {
    var t := Without(s, k);
    assert forall j :: 0 <= j < |t| ==> t[j] == if j < k then s[j] else s[j + 1];
    forall x | x in s && x != s[k]
      ensures x in t
    {
      var j :| 0 <= j < |s| && s[j] == x;
      assert t[if j < k then j else j - 1] == x;
    }
    forall x | x in t
      ensures x in s && x != s[k]
    {
      var j :| 0 <= j < |t| && t[j] == x;
    }
  }

  lemma Associative<T>(x: seq<T>, y: seq<T>, z: seq<T>)
    ensures (x + y) + z == x + (y + z)
  {
  }

  /** A set of numbers below `n` has at most `n` of them. */
  lemma {:induction false} SmallSet(s: set<nat>, n: nat)
    requires forall x :: x in s ==> x < n
    ensures |s| <= n
  {
    if n == 0 {
      assert s == {};
    } else {
      SmallSet(s - {n - 1}, n - 1);
    }
  }
}
