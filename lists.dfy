/** Python lists of line numbers: the value-level `list.remove` and a mutable list object. */
module Lists {

  datatype Option<T> = None | Some(value: T)

  /** No value occurs twice. */
  predicate Distinct(s: seq<int>)
  {
    forall i, j :: 0 <= i < j < |s| ==> s[i] != s[j]
  }

  /** `list.remove(x)` on a value: drops the first occurrence of `x`;
      `None` is the case where Python raises ValueError. */
  function RemoveFirst(s: seq<int>, x: int): (r: Option<seq<int>>)
  {
    if s == [] then None
    else if s[0] == x then Some(s[1..])
    else match RemoveFirst(s[1..], x)
      case None => None
      case Some(t) => Some([s[0]] + t)
  }

  /** `remove` fails exactly when the value is absent, and otherwise takes out one occurrence. */
  lemma {:induction false} RemoveFirstSpec(s: seq<int>, x: int)
    ensures RemoveFirst(s, x).Some? <==> x in s
    ensures RemoveFirst(s, x).Some? ==>
      |RemoveFirst(s, x).value| + 1 == |s| && multiset(RemoveFirst(s, x).value) + multiset{x} == multiset(s)
  {
    if s != [] {
      assert s == [s[0]] + s[1..];
      RemoveFirstSpec(s[1..], x);
    }
  }

  /** The elements of `s` that are not in `d`, in their order in `s`. */
  function Without(s: seq<int>, d: seq<int>): (r: seq<int>)
    ensures forall x {:trigger x in r} :: x in r <==> x in s && x !in d
    ensures |r| <= |s|
  {
    if s == [] then []
    else (if s[0] in d then [] else [s[0]]) + Without(s[1..], d)
  }

  /** `RemoveFirst` cuts the list at the first index holding the value. */
  lemma {:induction false} RemoveFirstAt(s: seq<int>, x: int, i: nat)
    requires i < |s| && s[i] == x && x !in s[..i]
    ensures RemoveFirst(s, x) == Some(s[..i] + s[i + 1..])
  {
    if i > 0 {
      assert s[0] in s[..i];
      assert s[1..][..i - 1] == s[1..i];
      RemoveFirstAt(s[1..], x, i - 1);
      assert [s[0]] + (s[1..][..i - 1] + s[1..][i..]) == s[..i] + s[i + 1..];
    } else {
      assert s[..i] + s[i + 1..] == s[1..];
    }
  }

  lemma {:induction false} WithoutNothing(s: seq<int>, d: seq<int>)
    requires forall i :: 0 <= i < |s| ==> s[i] !in d
    ensures Without(s, d) == s
  {
    if s != [] {
      WithoutNothing(s[1..], d);
      assert Without(s, d) == [s[0]] + Without(s[1..], d);
      assert s == [s[0]] + s[1..];
    }
  }

  /** Filtering twice is filtering by the union. */
  lemma {:induction false} WithoutWithout(s: seq<int>, d1: seq<int>, d2: seq<int>)
    ensures Without(Without(s, d1), d2) == Without(s, d1 + d2)
  {
    if s != [] {
      WithoutWithout(s[1..], d1, d2);
      var h := if s[0] in d1 then [] else [s[0]];
      assert Without(s, d1) == h + Without(s[1..], d1);
      WithoutAppend(h, Without(s[1..], d1), d2);
    }
  }

  lemma {:induction false} WithoutAppend(a: seq<int>, b: seq<int>, d: seq<int>)
    ensures Without(a + b, d) == Without(a, d) + Without(b, d)
  {
    if a != [] {
      assert (a + b)[1..] == a[1..] + b;
      assert (a + b)[0] == a[0];
      var h := if a[0] in d then [] else [a[0]];
      assert Without(a + b, d) == h + Without(a[1..] + b, d);
      WithoutAppend(a[1..], b, d);
      assert Without(a, d) == h + Without(a[1..], d);
      assert h + (Without(a[1..], d) + Without(b, d)) == (h + Without(a[1..], d)) + Without(b, d);
    } else {
      assert a + b == b;
    }
  }

  lemma {:induction false} DistinctWithout(s: seq<int>, d: seq<int>)
    requires Distinct(s)
    ensures Distinct(Without(s, d))
  {
    if s != [] {
      DistinctTail(s);
      DistinctWithout(s[1..], d);
      if s[0] !in d {
        DistinctCons(s[0], Without(s[1..], d));
      }
    }
  }

  lemma DistinctTail(s: seq<int>)
    requires Distinct(s) && s != []
    ensures Distinct(s[1..]) && s[0] !in s[1..]
  {
    forall i, j | 0 <= i < j < |s[1..]|
      ensures s[1..][i] != s[1..][j]
    {
      assert s[1..][i] == s[i + 1] && s[1..][j] == s[j + 1];
    }
    forall j | 0 <= j < |s[1..]|
      ensures s[1..][j] != s[0]
    {
      assert s[1..][j] == s[j + 1];
    }
  }

  lemma DistinctCons(x: int, s: seq<int>)
    requires Distinct(s) && x !in s
    ensures Distinct([x] + s)
  {
    forall i, j | 0 <= i < j < |[x] + s|
      ensures ([x] + s)[i] != ([x] + s)[j]
    {
      if i > 0 {
        assert ([x] + s)[i] == s[i - 1] && ([x] + s)[j] == s[j - 1];
      } else {
        assert ([x] + s)[j] == s[j - 1];
      }
    }
  }

  /** In a list without duplicates, `remove` takes out exactly that value. */
  lemma {:induction false} RemoveFirstDistinct(s: seq<int>, x: int)
    requires Distinct(s) && x in s
    ensures RemoveFirst(s, x) == Some(Without(s, [x]))
  {
    assert s == [s[0]] + s[1..];
    DistinctTail(s);
    if s[0] == x {
      forall i | 0 <= i < |s[1..]| ensures s[1..][i] !in [x] {
        assert s[1..][i] in s[1..];
      }
      WithoutNothing(s[1..], [x]);
      assert Without(s, [x]) == [] + Without(s[1..], [x]);
      assert [] + s[1..] == s[1..];
    } else {
      RemoveFirstDistinct(s[1..], x);
      assert Without(s, [x]) == [s[0]] + Without(s[1..], [x]);
    }
  }

  /** A Python list object: every name bound to it sees its changes. */
  class IntList {
    var items: seq<int>

    constructor (items: seq<int>)
      ensures this.items == items
    {
      this.items := items;
    }

    /** `list.remove(x)`: `found` is false where Python raises ValueError; the list is then untouched. */
    method Remove(x: int) returns (found: bool)
      modifies this
      ensures found <==> x in old(items)
      ensures RemoveFirst(old(items), x) == if found then Some(items) else None
      ensures !found ==> items == old(items)
    {
      var i := 0;
      while i < |items| && items[i] != x
        invariant 0 <= i <= |items|
        invariant x !in items[..i]
      {
        assert items[..i + 1] == items[..i] + [items[i]];
        i := i + 1;
      }
      found := i < |items|;
      RemoveFirstSpec(items, x);
      if found {
        RemoveFirstAt(items, x, i);
        items := items[..i] + items[i + 1..];
      } else {
        assert items[..i] == items;
      }
    }
  }
}
