/** Small vocabulary shared by the models. */
module Common {

  datatype Option<+T> = None | Some(value: T)

  /** The elements of `s` are pairwise different. */
  ghost predicate NoDup<T>(s: seq<T>) {
    forall i, j :: 0 <= i < j < |s| ==> s[i] != s[j]
  }

  /** `s` without the elements of `d`, in the same order. */
  function Minus<T(==, !new)>(s: seq<T>, d: set<T>): (r: seq<T>)
    ensures forall x :: x in r <==> x in s && x !in d
    ensures |r| <= |s|
  {
    if s == [] then []
    else if s[0] in d then Minus(s[1..], d)
    else [s[0]] + Minus(s[1..], d)
  }

  lemma {:induction false} MinusNoDup<T(!new)>(s: seq<T>, d: set<T>)
    requires NoDup(s)
    ensures NoDup(Minus(s, d))
  {
    if s != [] {
      MinusNoDup(s[1..], d);
      assert s[0] !in s[1..];
    }
  }

  lemma {:induction false} MinusAppend<T(!new)>(s: seq<T>, t: seq<T>, d: set<T>)
    ensures Minus(s + t, d) == Minus(s, d) + Minus(t, d)
  {
    if s == [] {
      assert s + t == t;
    } else {
      assert (s + t)[1..] == s[1..] + t;
      MinusAppend(s[1..], t, d);
    }
  }

  lemma {:induction false} MinusNothing<T(!new)>(s: seq<T>, d: set<T>)
    requires forall x :: x in s ==> x !in d
    ensures Minus(s, d) == s
  {
    if s != [] {
      MinusNothing(s[1..], d);
    }
  }

  lemma NoDupAppend<T>(s: seq<T>, t: seq<T>)
    requires NoDup(s) && NoDup(t) && forall x :: x in t ==> x !in s
    ensures NoDup(s + t)
  {
    forall i, j | 0 <= i < j < |s + t|
      ensures (s + t)[i] != (s + t)[j]
    {
      if i < |s| <= j {
        assert t[j - |s|] in t && s[i] in s;
      }
    }
  }

  lemma NoDupTail<T>(x: T, s: seq<T>)
    requires NoDup([x] + s)
    ensures NoDup(s) && x !in s
  {
    forall k | 0 <= k < |s|
      ensures s[k] != x
    {
      assert ([x] + s)[0] == x && ([x] + s)[k + 1] == s[k];
    }
    forall i, j | 0 <= i < j < |s|
      ensures s[i] != s[j]
    {
      assert ([x] + s)[i + 1] != ([x] + s)[j + 1];
    }
  }

  lemma NoDupInsert<T(!new)>(s: seq<T>, t: seq<T>, x: T)
    requires NoDup(s + t) && x !in s + t
    ensures NoDup(s + ([x] + t))
    ensures forall y :: y in s + ([x] + t) <==> y == x || y in s + t
  {
    var r := s + ([x] + t);
    assert r == s + [x] + t;
    forall k | 0 <= k < |r|
      ensures r[k] == if k < |s| then (s + t)[k] else if k == |s| then x else (s + t)[k - 1]
    {
    }
    forall y | y in s + t
      ensures y in r
    {
      var k :| 0 <= k < |s + t| && (s + t)[k] == y;
      assert y == r[if k < |s| then k else k + 1];
    }
    forall i, j | 0 <= i < j < |r|
      ensures r[i] != r[j]
    {
      var a, b := if i < |s| then i else i - 1, if j < |s| then j else j - 1;
      assert i != |s| && j != |s| ==> (s + t)[a] != (s + t)[b];
    }
  }

  /** Removing the one element at position `k` of a duplicate-free sequence. */
  lemma NoDupRemove<T(!new)>(s: seq<T>, k: nat)
    requires NoDup(s) && k < |s|
    ensures NoDup(s[..k] + s[k + 1..])
    ensures forall x :: x in s[..k] + s[k + 1..] <==> x in s && x != s[k]
  {
    var r := s[..k] + s[k + 1..];
    forall x | x in s && x != s[k]
      ensures x in r
    {
      var i :| 0 <= i < |s| && s[i] == x;
      if i < k {
        assert r[i] == x;
      } else {
        assert r[i - 1] == x;
      }
    }
  }
}
