/**
 * The keys of a Python dict in insertion order. Storing a new key appends
 * it; `del` removes it and keeps the others in their order.
 */
module KeyOrder {

  /** No key occurs twice. */
  ghost predicate Distinct(s: seq<string>) {
    forall i, j :: 0 <= i < j < |s| ==> s[i] != s[j]
  }

  /** The key order after `del d[x]`. */
  function Without(s: seq<string>, x: string): (r: seq<string>)
    ensures forall y :: y in r <==> y in s && y != x
    ensures Distinct(s) ==> Distinct(r)
    ensures Distinct(s) && x in s ==> |r| == |s| - 1
    ensures x !in s ==> r == s
  {
    if s == [] then []
    else if s[0] == x then Without(s[1..], x)
    else
      var rest := Without(s[1..], x);
      assert Distinct(s) ==> s[0] !in s[1..];
      [s[0]] + rest
  }

  /** Deleting the key that was stored last restores the previous order. */
  lemma {:induction false} WithoutLastAppended(s: seq<string>, x: string)
    requires x !in s
    ensures Without(s + [x], x) == s
  {
    if s == [] {
      assert Without([x], x) == Without([x][1..], x);
    } else {
      assert (s + [x])[1..] == s[1..] + [x];
      WithoutLastAppended(s[1..], x);
      assert s == [s[0]] + s[1..];
    }
  }

  /** A duplicate-free sequence has as many elements as the set it enumerates. */
  lemma {:induction false} DistinctCardinality(s: seq<string>, keys: set<string>)
    requires Distinct(s)
    requires forall k :: k in s <==> k in keys
    ensures |keys| == |s|
  {
    if s == [] {
      assert keys == {};
    } else {
      var rest := keys - {s[0]};
      assert forall k :: k in s[1..] ==> k != s[0] by {
        forall k | k in s[1..] ensures k != s[0] {
          var j :| 0 <= j < |s[1..]| && s[1..][j] == k;
          assert s[j + 1] == k;
        }
      }
      forall k ensures k in s[1..] <==> k in rest {
        if k in rest {
          assert k in s && k != s[0];
          var j :| 0 <= j < |s| && s[j] == k;
          assert s[1..][j - 1] == k;
        }
      }
      DistinctCardinality(s[1..], rest);
    }
  }
}
