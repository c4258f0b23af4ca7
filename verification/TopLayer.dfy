/** The children of LVGL's top layer, bottom first, and the two calls that reorder them. */
module TopLayer {

  datatype Child =
    | KeypadScrim | KeypadCard | ConfirmScrim | ConfirmCard | NoticeScrim | NoticeCard
    | EStop | BusyScrim | LogBox

  type Layer = seq<Child>

  function Without(l: Layer, c: Child): Layer {
    if l == [] then [] else if l[0] == c then Without(l[1..], c) else [l[0]] + Without(l[1..], c)
  }

  /** lv_obj_move_foreground, creating the child first when it is not there yet. */
  function Raise(l: Layer, c: Child): Layer {
    Without(l, c) + [c]
  }

  /** lv_obj_move_background. */
  function Lower(l: Layer, c: Child): Layer {
    [c] + Without(l, c)
  }

  predicate Distinct(l: Layer) {
    l == [] || (l[0] !in l[1..] && Distinct(l[1..]))
  }

  /** `hi` is drawn above `lo`: some occurrence of `lo` comes before one of `hi`. */
  predicate Above(l: Layer, hi: Child, lo: Child) {
    l != [] && ((l[0] == lo && hi in l[1..]) || Above(l[1..], hi, lo))
  }

  predicate Topmost(l: Layer, c: Child) {
    l != [] && l[|l| - 1] == c
  }

  /** What a foreground or background move does to the set of children: nothing, or one appended. */
  ghost predicate Reordered(l: Layer, m: Layer, c: Child) {
    multiset(m) == if c in l then multiset(l) else multiset(l) + multiset{c}
  }

  lemma {:induction false} WithoutMembers(l: Layer, c: Child, x: Child)
    ensures x in Without(l, c) <==> x in l && x != c
  {
    if l != [] {
      WithoutMembers(l[1..], c, x);
      assert x in l <==> x == l[0] || x in l[1..];
    }
  }

  lemma {:induction false} WithoutAbsent(l: Layer, c: Child)
    requires c !in l
    ensures Without(l, c) == l
  {
    if l != [] {
      WithoutAbsent(l[1..], c);
    }
  }

  lemma {:induction false} WithoutDistinct(l: Layer, c: Child)
    requires Distinct(l)
    ensures Distinct(Without(l, c))
  {
    if l != [] {
      WithoutDistinct(l[1..], c);
      WithoutMembers(l[1..], c, l[0]);
      assert l[0] != c ==> Without(l, c)[1..] == Without(l[1..], c);
    }
  }

  /** Taking out a child that is there once leaves exactly the others. */
  lemma {:induction false} WithoutCounts(l: Layer, c: Child)
    requires Distinct(l) && c in l
    ensures multiset(Without(l, c)) + multiset{c} == multiset(l)
  {
    var rest := l[1..];
    assert l == [l[0]] + rest;
    if l[0] == c {
      WithoutAbsent(rest, c);
    } else {
      WithoutCounts(rest, c);
      assert multiset(Without(l, c)) == multiset{l[0]} + multiset(Without(rest, c));
    }
  }

  lemma {:induction false} DistinctSnoc(l: Layer, c: Child)
    requires Distinct(l) && c !in l
    ensures Distinct(l + [c])
  {
    if l != [] {
      DistinctSnoc(l[1..], c);
      assert (l + [c])[1..] == l[1..] + [c];
    }
  }

  lemma DistinctCons(c: Child, l: Layer)
    requires Distinct(l) && c !in l
    ensures Distinct([c] + l)
  {
    assert ([c] + l)[1..] == l;
  }

  /** Both moves keep the children distinct and only permute them or append the new one. */
  lemma MovesReorder(l: Layer, c: Child)
    requires Distinct(l)
    ensures Distinct(Raise(l, c)) && Distinct(Lower(l, c))
    ensures Reordered(l, Raise(l, c), c) && Reordered(l, Lower(l, c), c)
  {
    var r := Without(l, c);
    WithoutDistinct(l, c);
    WithoutMembers(l, c, c);
    DistinctSnoc(r, c);
    assert ([c] + r)[1..] == r;
    if c in l {
      WithoutCounts(l, c);
    } else {
      WithoutAbsent(l, c);
    }
  }

  lemma {:induction false} AboveMember(l: Layer, hi: Child, lo: Child)
    requires Above(l, hi, lo)
    ensures hi in l && lo in l
  {
    if !(l[0] == lo && hi in l[1..]) {
      AboveMember(l[1..], hi, lo);
    }
  }

  lemma {:induction false} WithoutKeepsOrder(l: Layer, c: Child, hi: Child, lo: Child)
    requires c != hi && c != lo && Above(l, hi, lo)
    ensures Above(Without(l, c), hi, lo)
  {
    var r := Without(l, c);
    if l[0] == c {
      WithoutKeepsOrder(l[1..], c, hi, lo);
    } else {
      assert r[1..] == Without(l[1..], c);
      if l[0] == lo && hi in l[1..] {
        WithoutMembers(l[1..], c, hi);
      } else {
        WithoutKeepsOrder(l[1..], c, hi, lo);
      }
    }
  }

  lemma {:induction false} AboveSnoc(l: Layer, c: Child, hi: Child, lo: Child)
    ensures Above(l, hi, lo) ==> Above(l + [c], hi, lo)
    ensures lo in l ==> Above(l + [c], c, lo)
  {
    if l != [] {
      assert (l + [c])[1..] == l[1..] + [c];
      AboveSnoc(l[1..], c, hi, lo);
    }
  }

  /** Moving one child never changes the order of two others. */
  lemma MovesKeepOrder(l: Layer, c: Child, hi: Child, lo: Child)
    requires c != hi && c != lo && Above(l, hi, lo)
    ensures Above(Raise(l, c), hi, lo) && Above(Lower(l, c), hi, lo)
  {
    WithoutKeepsOrder(l, c, hi, lo);
    AboveSnoc(Without(l, c), c, hi, lo);
    assert Lower(l, c)[1..] == Without(l, c);
  }

  lemma RaiseTops(l: Layer, c: Child, lo: Child)
    requires lo in l && lo != c
    ensures Above(Raise(l, c), c, lo)
  {
    WithoutMembers(l, c, lo);
    AboveSnoc(Without(l, c), c, c, lo);
  }

  lemma MoveMembers(l: Layer, c: Child, x: Child)
    ensures x in Raise(l, c) <==> x in l || x == c
    ensures x in Lower(l, c) <==> x in l || x == c
  {
    WithoutMembers(l, c, x);
  }

  lemma {:induction false} TopIsNotBelow(l: Layer, hi: Child, lo: Child)
    requires Distinct(l) && Above(l, hi, lo) && hi != lo
    ensures !Topmost(l, lo)
  {
    AboveMember(l, hi, lo);
    if |l| > 1 {
      if l[0] == lo && hi in l[1..] {
        assert l[|l| - 1] == l[1..][|l| - 2];
      } else {
        TopIsNotBelow(l[1..], hi, lo);
      }
    }
  }

  // ---- who is above one fixed child ----

  lemma {:induction false} SnocAbove(l: Layer, x: Child, hi: Child, lo: Child)
    ensures Above(l + [x], hi, lo) <==> Above(l, hi, lo) || (hi == x && lo in l)
  {
    if l != [] {
      assert (l + [x])[1..] == l[1..] + [x];
      SnocAbove(l[1..], x, hi, lo);
    }
  }

  lemma {:induction false} WithoutReflectsOrder(l: Layer, c: Child, hi: Child, lo: Child)
    requires Above(Without(l, c), hi, lo)
    ensures Above(l, hi, lo)
  {
    var rest := Without(l[1..], c);
    if l[0] == c {
      WithoutReflectsOrder(l[1..], c, hi, lo);
    } else {
      assert Without(l, c)[1..] == rest;
      if l[0] == lo && hi in rest {
        WithoutMembers(l[1..], c, hi);
      } else {
        WithoutReflectsOrder(l[1..], c, hi, lo);
      }
    }
  }

  /** Raising `x` puts it above `lo` and changes nothing else about what is above `lo`. */
  lemma RaiseAbove(l: Layer, x: Child, hi: Child, lo: Child)
    requires x != lo && hi != lo && lo in l
    ensures Above(Raise(l, x), hi, lo) <==> hi == x || Above(l, hi, lo)
  {
    var r := Without(l, x);
    SnocAbove(r, x, hi, lo);
    WithoutMembers(l, x, lo);
    if Above(r, hi, lo) {
      WithoutReflectsOrder(l, x, hi, lo);
    }
    if hi != x && Above(l, hi, lo) {
      WithoutKeepsOrder(l, x, hi, lo);
    }
  }

  /** Lowering `x` takes it from above `lo` and changes nothing else about what is above `lo`. */
  lemma LowerAbove(l: Layer, x: Child, hi: Child, lo: Child)
    requires x != lo && hi != lo
    ensures Above(Lower(l, x), hi, lo) <==> hi != x && Above(l, hi, lo)
  {
    var r := Without(l, x);
    assert Lower(l, x)[1..] == r;
    if Above(r, hi, lo) {
      AboveMember(r, hi, lo);
      WithoutMembers(l, x, hi);
      WithoutReflectsOrder(l, x, hi, lo);
    }
    if hi != x && Above(l, hi, lo) {
      WithoutKeepsOrder(l, x, hi, lo);
    }
  }

  /** Nothing is above a child just raised. */
  lemma RaisedIsClear(l: Layer, hi: Child, lo: Child)
    requires hi != lo
    ensures !Above(Raise(l, lo), hi, lo)
  {
    SnocAbove(Without(l, lo), lo, hi, lo);
    WithoutMembers(l, lo, lo);
    if Above(Without(l, lo), hi, lo) {
      AboveMember(Without(l, lo), hi, lo);
    }
  }

  lemma {:induction false} LastIsAbove(l: Layer, lo: Child)
    requires lo in l && !Topmost(l, lo)
    ensures Above(l, l[|l| - 1], lo)
  {
    if l[0] == lo {
      assert l[|l| - 1] == l[1..][|l| - 2];
    } else {
      LastIsAbove(l[1..], lo);
    }
  }

  /** `Above`, as a name to quantify over. */
  predicate Over(l: Layer, hi: Child, lo: Child) {
    Above(l, hi, lo)
  }

  /** A child is topmost exactly when no other is above it. */
  lemma TopmostIff(l: Layer, lo: Child)
    requires Distinct(l) && lo in l
    ensures Topmost(l, lo) <==> forall hi :: hi != lo ==> !Over(l, hi, lo)
  {
    if Topmost(l, lo) {
      forall hi | hi != lo
        ensures !Over(l, hi, lo)
      {
        if Over(l, hi, lo) {
          TopIsNotBelow(l, hi, lo);
        }
      }
    } else {
      LastIsAbove(l, lo);
      assert Over(l, l[|l| - 1], lo);
    }
  }
}
