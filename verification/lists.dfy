/** `list.filter(x => x._id !== id)`, the deletion both home-page carousels apply after the
    server confirms a delete. */
module Lists {

  /** The entries whose id differs from `id`, in their order. */
  function WithoutId<T>(s: seq<T>, idOf: T -> string, id: string): (r: seq<T>)
    ensures |r| <= |s|
    decreases |s|
  {
    if s == [] then []
    else (if idOf(s[0]) != id then [s[0]] else []) + WithoutId(s[1..], idOf, id)
  }

  /** Exactly the entries whose id differs are kept: none with the id survives and none
      without it is lost. */
  lemma {:induction false} WithoutIdMembers<T>(s: seq<T>, idOf: T -> string, id: string)
    ensures forall x :: x in WithoutId(s, idOf, id) <==> x in s && idOf(x) != id
    decreases |s|
  {
    if s != [] {
      WithoutIdMembers(s[1..], idOf, id);
      assert s == [s[0]] + s[1..];
    }
  }

  /** Deleting keeps the order: deleting from two lists one after the other is deleting from
      each and joining the results. */
  lemma {:induction false} WithoutIdAppend<T>(a: seq<T>, b: seq<T>, idOf: T -> string, id: string)
    ensures WithoutId(a + b, idOf, id) == WithoutId(a, idOf, id) + WithoutId(b, idOf, id)
    decreases |a|
  {
    if a == [] {
      assert a + b == b;
    } else {
      ConsAppend(a, b);
      WithoutIdAppend(a[1..], b, idOf, id);
      var head := if idOf(a[0]) != id then [a[0]] else [];
      var restA, restB := WithoutId(a[1..], idOf, id), WithoutId(b, idOf, id);
      assert WithoutId(a + b, idOf, id) == head + (restA + restB);
      assert WithoutId(a, idOf, id) == head + restA;
      assert head + (restA + restB) == (head + restA) + restB;
    }
  }

  /** An id carried by exactly one entry deletes exactly that entry. */
  lemma WithoutIdExactlyOne<T>(before: seq<T>, x: T, after: seq<T>, idOf: T -> string)
    requires forall k :: 0 <= k < |before| ==> idOf(before[k]) != idOf(x)
    requires forall k :: 0 <= k < |after| ==> idOf(after[k]) != idOf(x)
    ensures WithoutId(before + [x] + after, idOf, idOf(x)) == before + after
  {
    var id := idOf(x);
    WithoutIdAbsent(before, idOf, id);
    WithoutIdAbsent(after, idOf, id);
    assert WithoutId([x], idOf, id) == [] by {
      assert [x][1..] == [];
    }
    WithoutIdAppend(before + [x], after, idOf, id);
    WithoutIdAppend(before, [x], idOf, id);
    assert WithoutId(before + [x], idOf, id) == before;
  }

  /** An id that no entry carries deletes nothing. */
  lemma {:induction false} WithoutIdAbsent<T>(s: seq<T>, idOf: T -> string, id: string)
    requires forall k :: 0 <= k < |s| ==> idOf(s[k]) != id
    ensures WithoutId(s, idOf, id) == s
    decreases |s|
  {
    if s != [] {
      var t := s[1..];
      forall k | 0 <= k < |t|
        ensures idOf(t[k]) != id
      {
        assert t[k] == s[k + 1];
      }
      WithoutIdAbsent(t, idOf, id);
      assert idOf(s[0]) != id;
      assert s == [s[0]] + t;
    }
  }

  /** The head and the tail of `a + b` when `a` is not empty. */
  lemma ConsAppend<T>(a: seq<T>, b: seq<T>)
    requires a != []
    ensures (a + b)[0] == a[0] && (a + b)[1..] == a[1..] + b
  {
  }
}
