/**
 * `array.indexOf(x)` followed by `array.splice(index, 1)`: the removal idiom
 * both the client's `_off` and the listener's `_removeClient` use.
 */
module Seqs {

  /** True when no element occurs twice. */
  ghost predicate Distinct<T>(s: seq<T>)
  {
    forall i, j :: 0 <= i < j < |s| ==> s[i] != s[j]
  }

  /** `s.indexOf(x)`: the first index holding `x`, or -1 when there is none. */
  function IndexOf<T(==)>(s: seq<T>, x: T): (r: int)
    ensures -1 <= r < |s|
    ensures r == -1 <==> x !in s
    ensures 0 <= r ==> s[r] == x && x !in s[..r]
  {
    if s == [] then -1
    else if s[0] == x then 0
    else
      var k := IndexOf(s[1..], x);
      assert s[1..][..if k < 0 then 0 else k] == s[1..if k < 0 then 1 else k + 1];
      if k < 0 then -1 else k + 1
  }

  /** `if (index > -1) s.splice(index, 1)` with `index = s.indexOf(x)`. */
  function RemoveFirst<T(==)>(s: seq<T>, x: T): (r: seq<T>)
  {
    var i := IndexOf(s, x);
    if i < 0 then s else s[..i] + s[i + 1..]
  }

  /** An absent element leaves the sequence as it is. */
  lemma RemoveAbsent<T>(s: seq<T>, x: T)
    requires x !in s
    ensures RemoveFirst(s, x) == s
  {
  }

  /**
   * A present element: exactly its first occurrence goes, the rest keep their
   * relative order, and the length drops by one.
   */
  lemma RemovePresent<T>(s: seq<T>, x: T)
    requires x in s
    ensures exists i :: 0 <= i < |s| && s[i] == x && x !in s[..i] && RemoveFirst(s, x) == s[..i] + s[i + 1..]
    ensures |RemoveFirst(s, x)| == |s| - 1
    ensures multiset(RemoveFirst(s, x)) == multiset(s) - multiset{x}
  {
    var i := IndexOf(s, x);
    assert s == s[..i] + [x] + s[i + 1..];
  }

  /** Removal keeps a duplicate-free sequence duplicate-free and takes `x` out of it. */
  lemma {:induction false} RemoveKeepsDistinct<T>(s: seq<T>, x: T)
    requires Distinct(s)
    ensures Distinct(RemoveFirst(s, x))
    ensures x !in RemoveFirst(s, x)
  {
    var i := IndexOf(s, x);
    if 0 <= i {
      var r := s[..i] + s[i + 1..];
      forall a, b | 0 <= a < b < |r| ensures r[a] != r[b] {
        var a' := if a < i then a else a + 1;
        var b' := if b < i then b else b + 1;
        assert r[a] == s[a'] && r[b] == s[b'];
      }
      forall k | 0 <= k < |r| ensures r[k] != x {
        var k' := if k < i then k else k + 1;
        assert r[k] == s[k'] && k' != i;
      }
    }
  }

  /** Appending keeps a sequence duplicate-free exactly when the element is new. */
  lemma AppendDistinct<T>(s: seq<T>, x: T)
    ensures Distinct(s + [x]) <==> Distinct(s) && x !in s
  {
    var r := s + [x];
    if Distinct(r) {
      forall i, j | 0 <= i < j < |s| ensures s[i] != s[j] {
        assert r[i] == s[i] && r[j] == s[j];
      }
      forall k | 0 <= k < |s| ensures s[k] != x {
        assert r[k] == s[k] && r[|s|] == x;
      }
    }
  }

  /** Removing an element that was just appended, and was not there before, restores the sequence. */
  lemma RemoveJustAppended<T>(s: seq<T>, x: T)
    requires x !in s
    ensures RemoveFirst(s + [x], x) == s
  {
    assert (s + [x])[..|s|] == s;
  }
}
