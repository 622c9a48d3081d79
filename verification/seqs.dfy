/**
 * The two `java.util.List` operations the coordinator relies on, by
 * reference identity: the position of the first occurrence of an element,
 * and `remove(Object)`, which drops that first occurrence only.
 */
module Seqs {

  /** Position of the first occurrence of `x` in `s`. */
  function IndexOf<T(==)>(s: seq<T>, x: T): (i: nat)
    requires x in s
    ensures i < |s| && s[i] == x && x !in s[..i]
  {
    if s[0] == x then 0 else 1 + IndexOf(s[1..], x)
  }

  /** `List.remove(Object)`: the list without its first occurrence of `x`;
      the list itself when `x` does not occur. */
  function RemoveFirst<T(==)>(s: seq<T>, x: T): (r: seq<T>)
    ensures x !in s ==> r == s
    ensures |r| == if x in s then |s| - 1 else |s|
  {
    if s == [] then []
    else if s[0] == x then s[1..]
    else
      assert s == [s[0]] + s[1..];
      [s[0]] + RemoveFirst(s[1..], x)
  }

  /** The occurrence removed is the first one: what is left is the list before
      it followed by the list after it. */
  lemma {:induction false} RemoveFirstAt<T>(s: seq<T>, x: T)
    requires x in s
    ensures RemoveFirst(s, x) == s[..IndexOf(s, x)] + s[IndexOf(s, x) + 1..]
  {
    if s[0] != x {
      var j := IndexOf(s[1..], x);
      RemoveFirstAt(s[1..], x);
      assert s[..j + 1] == [s[0]] + s[1..][..j];
      assert s[j + 2..] == s[1..][j + 1..];
    }
  }

  /** Position `i` of `s` without its element at `k` holds the element of `s`
      at `i` before `k` and at `i + 1` from `k` on. */
  lemma RemoveAtSelects<T>(s: seq<T>, k: nat, i: nat)
    requires k < |s| && i < |s| - 1
    ensures (s[..k] + s[k + 1..])[i] == s[if i < k then i else i + 1]
  {
  }

  /** Removing the first occurrence takes away one copy of `x`, if there is
      one, and nothing else. */
  lemma {:induction false} RemoveFirstMultiset<T>(s: seq<T>, x: T)
    ensures multiset(RemoveFirst(s, x)) == multiset(s) - multiset{x}
  {
    if s != [] {
      assert s == [s[0]] + s[1..];
      if s[0] != x {
        RemoveFirstMultiset(s[1..], x);
      }
    }
  }

  /** Removing an element adds nothing. */
  lemma RemoveFirstSubset<T>(s: seq<T>, x: T)
    ensures forall y | y in RemoveFirst(s, x) :: y in s
  {
    RemoveFirstMultiset(s, x);
    forall y | y in RemoveFirst(s, x)
      ensures y in s
    {
      assert y in multiset(RemoveFirst(s, x));
    }
  }

  /** Appending `x` after removing its first occurrence (the coordinator's
      CONNECT) leaves exactly one copy of `x`, at the end, when there was at
      most one before; every other element keeps its multiplicity. */
  lemma {:induction false} RemoveThenAppendKeepsOneCopy<T>(s: seq<T>, x: T)
    requires multiset(s)[x] <= 1
    ensures var r := RemoveFirst(s, x) + [x];
      && r[|r| - 1] == x
      && x !in r[..|r| - 1]
      && multiset(r)[x] == 1
      && forall y :: y != x ==> multiset(r)[y] == multiset(s)[y]
  {
    var t := RemoveFirst(s, x);
    var r := t + [x];
    RemoveFirstMultiset(s, x);
    assert r[..|r| - 1] == t;
    assert multiset(t)[x] == 0;
  }
}
