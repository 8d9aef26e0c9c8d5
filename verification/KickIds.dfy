/** Ids of kicked jobs: `fmt.Sprintf("%s->%d", parent, idx)` (processor.go:382, 410). */
module KickIds {
  import opened Decimal

  function Child(parent: string, idx: nat): string {
    parent + "->" + Dec(idx)
  }

  /** The id of the job reached from `root` along a path of kick indices. */
  function Descendant(root: string, path: seq<nat>): string {
    if path == [] then root else Child(Descendant(root, path[..|path| - 1]), path[|path| - 1])
  }

  predicate NoArrow(s: string) {
    '>' !in s
  }

  /** The first kick of "a", and the twelfth-indexed one of that. */
  lemma SomeIds()
    ensures Child("a", 0) == "a->0" && Child("a->0", 12) == "a->0->12"
  {
    assert Dec(12) == Dec(1) + ['2'];
    assert Dec(12) == "12";
  }

  lemma ArrowAt(parent: string, idx: nat)
    ensures var id := Child(parent, idx);
            && id[|parent| + 1] == '>'
            && (forall k :: |parent| + 1 < k < |id| ==> id[k] != '>')
            && id[..|parent|] == parent && id[|parent| + 2..] == Dec(idx)
  {
    var id := Child(parent, idx);
    forall k | |parent| + 1 < k < |id| ensures id[k] != '>' {
      assert id[k] == Dec(idx)[k - |parent| - 2];
      assert !IsDigit('>');
    }
  }

  /** An id determines the parent and the index it was made from. */
  lemma ChildInjective(p: string, i: nat, q: string, j: nat)
    ensures Child(p, i) == Child(q, j) ==> p == q && i == j
  {
    if Child(p, i) == Child(q, j) {
      ArrowAt(p, i);
      ArrowAt(q, j);
      assert |p| == |q|;
      DecInjective(i, j);
    }
  }

  lemma ChildHasArrow(p: string, i: nat)
    ensures !NoArrow(Child(p, i)) && Child(p, i) != p
  {
    ArrowAt(p, i);
  }

  /** An id whose root holds no arrow decodes to one root and one path, at any depth and width. */
  lemma {:induction false} DescendantInjective(r: string, a: seq<nat>, q: string, b: seq<nat>)
    requires NoArrow(r) && NoArrow(q)
    requires Descendant(r, a) == Descendant(q, b)
    ensures r == q && a == b
    decreases |a|
  {
    if a == [] && b != [] {
      ChildHasArrow(Descendant(q, b[..|b| - 1]), b[|b| - 1]);
    } else if a != [] && b == [] {
      ChildHasArrow(Descendant(r, a[..|a| - 1]), a[|a| - 1]);
    } else if a != [] {
      var pa, pb := a[..|a| - 1], b[..|b| - 1];
      ChildInjective(Descendant(r, pa), a[|a| - 1], Descendant(q, pb), b[|b| - 1]);
      DescendantInjective(r, pa, q, pb);
      assert a == pa + [a[|a| - 1]] && b == pb + [b[|b| - 1]];
    }
  }
}
