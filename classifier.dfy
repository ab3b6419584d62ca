/** The deletion-marker classifier of `VcsGutterCommand.lines_removed`, on values.
    A deletion "at line N" means content was deleted just before line N. Line N - 1 is
    a bottom candidate (its marker sits at its bottom edge); a line that is both a
    deletion position and a bottom candidate is dual (marked at both edges). */
module Classifier {
  import opened Lists

  /** `[line - 1 for line in lines if line > 1]`: the line just above each deletion. */
  function BottomCandidates(lines: seq<int>): (r: seq<int>)
    ensures |r| <= |lines|
    ensures forall x {:trigger x in r} :: x in r <==> x + 1 in lines && x >= 1
  {
    if lines == [] then []
    else (if lines[0] > 1 then [lines[0] - 1] else []) + BottomCandidates(lines[1..])
  }

  /** The first loop: the entries of `top` that also occur in `bottom`, in the order of `top`,
      one per entry (a value repeated in `top` is collected once per occurrence). */
  function DualLines(top: seq<int>, bottom: seq<int>): (r: seq<int>)
    ensures forall x {:trigger x in r} :: x in r <==> x in top && x in bottom
  {
    if top == [] then []
    else (if top[0] in bottom then [top[0]] else []) + DualLines(top[1..], bottom)
  }

  /** The dual list is drawn from `top`, one entry per occurrence at most. */
  lemma {:induction false} DualWithinTop(top: seq<int>, bottom: seq<int>)
    ensures multiset(DualLines(top, bottom)) <= multiset(top)
  {
    if top != [] {
      assert top == [top[0]] + top[1..];
      DualWithinTop(top[1..], bottom);
    }
  }

  /** The first loop appends at the end: one more entry extends the dual list by at most it. */
  lemma {:induction false} DualLinesSnoc(top: seq<int>, x: int, bottom: seq<int>)
    ensures DualLines(top + [x], bottom) == DualLines(top, bottom) + (if x in bottom then [x] else [])
  {
    if top == [] {
      assert [] + [x] == [x] && [x][1..] == [];
    } else {
      assert (top + [x])[0] == top[0] && (top + [x])[1..] == top[1..] + [x];
      var h := if top[0] in bottom then [top[0]] else [];
      assert DualLines(top + [x], bottom) == h + DualLines(top[1..] + [x], bottom);
      DualLinesSnoc(top[1..], x, bottom);
      assert DualLines(top, bottom) == h + DualLines(top[1..], bottom);
    }
  }

  /** Where the second loop stands: the two lists, and whether every `remove` found its value. */
  datatype Removal = Removal(top: seq<int>, bottom: seq<int>, ok: bool)

  /** The second loop: for each dual value in order, `bottom.remove` then `top.remove`;
      the first `remove` that misses raises, leaving both lists as they then are. */
  function RemoveDual(dual: seq<int>, top: seq<int>, bottom: seq<int>): (r: Removal)
    decreases |dual|
  {
    if dual == [] then Removal(top, bottom, true)
    else
      match RemoveFirst(bottom, dual[0])
      case None => Removal(top, bottom, false)
      case Some(bottom') =>
        match RemoveFirst(top, dual[0])
        case None => Removal(top, bottom', false)
        case Some(top') => RemoveDual(dual[1..], top', bottom')
  }

  /** A loop that runs to the end removes one element of each list per dual value. */
  lemma {:induction false} RemoveDualCounts(dual: seq<int>, top: seq<int>, bottom: seq<int>)
    ensures var r := RemoveDual(dual, top, bottom);
      r.ok ==>
        |r.top| + |dual| == |top| && |r.bottom| + |dual| == |bottom| &&
        multiset(r.top) + multiset(dual) == multiset(top) &&
        multiset(r.bottom) + multiset(dual) == multiset(bottom)
    decreases |dual|
  {
    if dual != [] {
      assert dual == [dual[0]] + dual[1..];
      assert multiset(dual) == multiset{dual[0]} + multiset(dual[1..]);
      RemoveFirstSpec(bottom, dual[0]);
      RemoveFirstSpec(top, dual[0]);
      if dual[0] in bottom && dual[0] in top {
        RemoveDualCounts(dual[1..], RemoveFirst(top, dual[0]).value, RemoveFirst(bottom, dual[0]).value);
      }
    }
  }

  /** The outcome of `lines_removed` on its argument: the final top list (the caller's list,
      shrunk in place), the final bottom list, the dual list, and whether ValueError was raised.
      When it was raised, `top` and `bottom` are the lists at the moment of the failing `remove`. */
  datatype Classification = Classification(top: seq<int>, bottom: seq<int>, dual: seq<int>, raised: bool)

  function Classify(lines: seq<int>): (c: Classification)
  {
    var bottom := BottomCandidates(lines);
    var dual := DualLines(lines, bottom);
    var r := RemoveDual(dual, lines, bottom);
    Classification(r.top, r.bottom, dual, !r.ok)
  }

  /** The candidates are `line - 1` for each line above 1, in input order: the candidate list
      of a concatenation is the concatenation of the candidate lists. */
  lemma {:induction false} CandidatesAppend(a: seq<int>, b: seq<int>)
    ensures BottomCandidates(a + b) == BottomCandidates(a) + BottomCandidates(b)
  {
    if a == [] {
      assert a + b == b;
    } else {
      assert (a + b)[0] == a[0];
      assert (a + b)[1..] == a[1..] + b;
      CandidatesAppend(a[1..], b);
    }
  }

  /** Each single line contributes its own candidate; a deletion at line 1 (or below) none. */
  lemma CandidatesOfOne(n: int)
    ensures BottomCandidates([n]) == if n > 1 then [n - 1] else []
  {
    assert [n][1..] == [];
  }

  /** The dual lines are the deletion positions whose next line is also a deletion position. */
  lemma DualIsAdjacent(lines: seq<int>, x: int)
    ensures x in Classify(lines).dual <==> x in lines && x + 1 in lines && x >= 1
  {
    ClassifyUnfold(lines);
    var bottom := BottomCandidates(lines);
    assert x in DualLines(lines, bottom) <==> x in lines && x in bottom;
  }

  lemma ClassifyUnfold(lines: seq<int>)
    ensures var bottom := BottomCandidates(lines);
      var dual := DualLines(lines, bottom);
      var r := RemoveDual(dual, lines, bottom);
      Classify(lines) == Classification(r.top, r.bottom, dual, !r.ok)
  {
  }

  /** `remove` misses exactly when some value is to be removed more often than it occurs
      in `bottom`; the `top` removals never miss, since `dual` is drawn from `top`. */
  lemma {:induction false} RemoveDualOk(dual: seq<int>, top: seq<int>, bottom: seq<int>)
    requires multiset(dual) <= multiset(top)
    ensures RemoveDual(dual, top, bottom).ok <==> multiset(dual) <= multiset(bottom)
    decreases |dual|
  {
    if dual != [] {
      var x := dual[0];
      assert dual == [x] + dual[1..];
      assert multiset(dual) == multiset{x} + multiset(dual[1..]);
      assert x in multiset(top);
      RemoveFirstSpec(bottom, x);
      RemoveFirstSpec(top, x);
      if x in bottom {
        var bottom' := RemoveFirst(bottom, x).value;
        var top' := RemoveFirst(top, x).value;
        AddOneLe(multiset(dual[1..]), multiset(top'), x);
        RemoveDualOk(dual[1..], top', bottom');
        AddOneLe(multiset(dual[1..]), multiset(bottom'), x);
      } else {
        assert multiset(bottom)[x] == 0;
      }
    }
  }

  lemma AddOneLe(a: multiset<int>, b: multiset<int>, x: int)
    ensures multiset{x} + a <= multiset{x} + b <==> a <= b
  {
    if multiset{x} + a <= multiset{x} + b {
      forall y ensures a[y] <= b[y] {
        assert (multiset{x} + a)[y] <= (multiset{x} + b)[y];
      }
    }
  }

  /** `lines_removed` raises ValueError exactly when some dual value is collected more often
      than it occurs among the bottom candidates (only possible with a repeated input line). */
  lemma ClassifyRaises(lines: seq<int>)
    ensures Classify(lines).raised <==> !(multiset(Classify(lines).dual) <= multiset(BottomCandidates(lines)))
  {
    DualWithinTop(lines, BottomCandidates(lines));
    ClassifyUnfold(lines);
    RemoveDualOk(Classify(lines).dual, lines, BottomCandidates(lines));
  }

  /** When no ValueError is raised, the dual values are taken out of both lists one for one. */
  lemma ClassifySizes(lines: seq<int>)
    ensures var c := Classify(lines);
      !c.raised ==>
        |c.top| + |c.dual| == |lines| &&
        |c.bottom| + |c.dual| == |BottomCandidates(lines)| &&
        multiset(c.top) + multiset(c.dual) == multiset(lines) &&
        multiset(c.bottom) + multiset(c.dual) == multiset(BottomCandidates(lines))
  {
    RemoveDualCounts(Classify(lines).dual, lines, BottomCandidates(lines));
  }

  lemma {:induction false} CandidatesDistinct(lines: seq<int>)
    requires Distinct(lines)
    ensures Distinct(BottomCandidates(lines))
  {
    if lines != [] {
      DistinctTail(lines);
      CandidatesDistinct(lines[1..]);
      if lines[0] > 1 {
        DistinctCons(lines[0] - 1, BottomCandidates(lines[1..]));
      }
    }
  }

  lemma {:induction false} DualDistinct(top: seq<int>, bottom: seq<int>)
    requires Distinct(top)
    ensures Distinct(DualLines(top, bottom))
  {
    if top != [] {
      DistinctTail(top);
      DualDistinct(top[1..], bottom);
      if top[0] in bottom {
        DistinctCons(top[0], DualLines(top[1..], bottom));
      }
    }
  }

  /** For lists without repeats, the removal loop takes out each dual value exactly. */
  lemma {:induction false} RemoveDualDistinct(dual: seq<int>, top: seq<int>, bottom: seq<int>)
    requires Distinct(dual) && Distinct(top) && Distinct(bottom)
    requires forall i :: 0 <= i < |dual| ==> dual[i] in top && dual[i] in bottom
    ensures var r := RemoveDual(dual, top, bottom);
      r.ok && r.top == Without(top, dual) && r.bottom == Without(bottom, dual)
    decreases |dual|
  {
    if dual == [] {
      WithoutNothing(top, []);
      WithoutNothing(bottom, []);
    } else {
      var x := dual[0];
      assert x in top && x in bottom;
      RemoveFirstDistinct(bottom, x);
      RemoveFirstDistinct(top, x);
      var bottom', top' := Without(bottom, [x]), Without(top, [x]);
      DistinctWithout(bottom, [x]);
      DistinctWithout(top, [x]);
      DistinctTail(dual);
      forall i | 0 <= i < |dual[1..]|
        ensures dual[1..][i] in top' && dual[1..][i] in bottom'
      {
        assert dual[1..][i] == dual[i + 1];
        assert dual[1..][i] in dual[1..];
      }
      RemoveDualDistinct(dual[1..], top', bottom');
      WithoutWithout(top, [x], dual[1..]);
      WithoutWithout(bottom, [x], dual[1..]);
      assert dual == [x] + dual[1..];
    }
  }

  /** Without repeated input lines no ValueError is raised, and the three lists partition the
      positions: `top` is the input without the dual values and `bottom` the candidates without
      them (both in order), the three are pairwise disjoint, and together they hold exactly the
      input lines and the candidates. */
  lemma ClassifyDistinct(lines: seq<int>)
    requires Distinct(lines)
    ensures var c := Classify(lines);
      var bottom := BottomCandidates(lines);
      !c.raised &&
      c.top == Without(lines, c.dual) &&
      c.bottom == Without(bottom, c.dual) &&
      |c.top| + |c.dual| == |lines| &&
      |c.bottom| + |c.dual| == |bottom| &&
      (forall x :: !(x in c.top && x in c.bottom) && !(x in c.top && x in c.dual) && !(x in c.bottom && x in c.dual)) &&
      (forall x :: x in c.top || x in c.bottom || x in c.dual <==> x in lines || x in bottom)
  {
    var bottom := BottomCandidates(lines);
    var dual := DualLines(lines, bottom);
    CandidatesDistinct(lines);
    DualDistinct(lines, bottom);
    forall i | 0 <= i < |dual| ensures dual[i] in lines && dual[i] in bottom {
      assert dual[i] in dual;
    }
    RemoveDualDistinct(dual, lines, bottom);
    RemoveDualCounts(dual, lines, bottom);
    ClassifyUnfold(lines);
  }

  /** Assembles `Classify` from its three stages. */
  lemma ClassifyFrom(lines: seq<int>, bottom: seq<int>, dual: seq<int>, r: Removal)
    requires BottomCandidates(lines) == bottom
    requires DualLines(lines, bottom) == dual
    requires RemoveDual(dual, lines, bottom) == r
    ensures Classify(lines) == Classification(r.top, r.bottom, dual, !r.ok)
  {
  }

  /** Deletions before lines 3 and 4: line 3 is dual, 4 is top, 2 is bottom. */
  lemma ExampleAdjacent()
    ensures Classify([3, 4]) == Classification([4], [2], [3], false)
  {
    assert RemoveDual([3], [3, 4], [2, 3]) == Removal([4], [2], true) by {
      assert [3][1..] == [];
    }
    ClassifyFrom([3, 4], [2, 3], [3], Removal([4], [2], true));
  }

  /** Deletions before lines 1, 3 and 4: line 1 yields no candidate. */
  lemma ExampleFirstLine()
    ensures Classify([1, 3, 4]) == Classification([1, 4], [2], [3], false)
  {
    assert RemoveDual([3], [1, 3, 4], [2, 3]) == Removal([1, 4], [2], true) by {
      assert [3][1..] == [];
    }
    ClassifyFrom([1, 3, 4], [2, 3], [3], Removal([1, 4], [2], true));
  }

  /** Deletions before lines 5 and 10 are not adjacent: nothing is dual. */
  lemma ExampleApart()
    ensures Classify([5, 10]) == Classification([5, 10], [4, 9], [], false)
  {
    ClassifyFrom([5, 10], [4, 9], [], Removal([5, 10], [4, 9], true));
  }

  /** A deletion before line 1 alone is a top marker; no input, no markers. */
  lemma ExampleEdges()
    ensures Classify([1]) == Classification([1], [], [], false)
    ensures Classify([]) == Classification([], [], [], false)
  {
    ClassifyFrom([1], [], [], Removal([1], [], true));
    ClassifyFrom([], [], [], Removal([], [], true));
  }

  /** A repeated line makes the second `bottom_lines.remove(3)` raise ValueError,
      after the first pass has already taken one 3 out of the caller's list. */
  lemma ExampleDuplicateRaises()
    ensures Classify([3, 3, 4]) == Classification([3, 4], [2, 2], [3, 3], true)
  {
    assert RemoveFirst([2, 2, 3], 3) == Some([2, 2]) by {
      assert [2, 2, 3][1..] == [2, 3] && [2, 3][1..] == [3] && [3][1..] == [];
      assert [2] + ([2] + []) == [2, 2];
    }
    assert RemoveFirst([3, 3, 4], 3) == Some([3, 4]) by {
      assert [3, 3, 4][1..] == [3, 4];
    }
    assert RemoveDual([3, 3], [3, 3, 4], [2, 2, 3]) == Removal([3, 4], [2, 2], false) by {
      assert [3, 3][0] == 3 && [3, 3][1..] == [3];
    }
    ClassifyFrom([3, 3, 4], [2, 2, 3], [3, 3], Removal([3, 4], [2, 2], false));
  }

  /** A repeated line need not raise: for `[3, 4, 4]` every `remove` succeeds, yet the bottom
      list keeps a 3 that is also dual, so the partition of `ClassifyDistinct` needs `Distinct`. */
  lemma ExampleRepeatCompletes()
    ensures Classify([3, 4, 4]) == Classification([4, 4], [2, 3], [3], false)
  {
    assert RemoveFirst([2, 3, 3], 3) == Some([2, 3]) by {
      assert [2, 3, 3][1..] == [3, 3] && [3, 3][1..] == [3];
      assert RemoveFirst([3, 3], 3) == Some([3]);
      assert [2] + [3] == [2, 3];
    }
    assert RemoveFirst([3, 4, 4], 3) == Some([4, 4]) by {
      assert [3, 4, 4][1..] == [4, 4];
    }
    assert RemoveDual([3], [3, 4, 4], [2, 3, 3]) == Removal([4, 4], [2, 3], true) by {
      assert [3][1..] == [];
    }
    ClassifyFrom([3, 4, 4], [2, 3, 3], [3], Removal([4, 4], [2, 3], true));
  }
}
