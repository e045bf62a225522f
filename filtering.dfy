/**
 * Filtering a sequence and mapping what is kept, as the tools do with
 * `filter(...).map(...)` and with loops that push the entries they keep.
 */
module Filtering {
  /** `render` of every element `keep` accepts, in order: JavaScript's `filter` followed by `map`, and the shape of the loops that push what they keep. */
  function Collect<T, U>(xs: seq<T>, keep: T -> bool, render: T -> U): (out: seq<U>)
    ensures |out| <= |xs|
    decreases |xs|
  {
    if |xs| == 0 then []
    else
      var last := xs[|xs| - 1];
      Collect(xs[..|xs| - 1], keep, render) + (if keep(last) then [render(last)] else [])
  }

  /** Collecting two runs collects each in turn, so the order is kept. */
  lemma {:induction false} CollectConcat<T, U>(a: seq<T>, b: seq<T>, keep: T -> bool, render: T -> U)
    ensures Collect(a + b, keep, render) == Collect(a, keep, render) + Collect(b, keep, render)
    decreases |b|
  {
    if |b| == 0 {
      assert a + b == a;
    } else {
      assert (a + b)[..|a + b| - 1] == a + b[..|b| - 1];
      CollectConcat(a, b[..|b| - 1], keep, render);
    }
  }

  /** An item is collected exactly when it is the rendering of an accepted element. */
  lemma {:induction false} CollectMembers<T, U>(xs: seq<T>, keep: T -> bool, render: T -> U, item: U)
    ensures item in Collect(xs, keep, render) <==> exists i :: 0 <= i < |xs| && keep(xs[i]) && item == render(xs[i])
    decreases |xs|
  {
    if |xs| > 0 {
      var init := xs[..|xs| - 1];
      CollectMembers(init, keep, render, item);
      if exists i :: 0 <= i < |xs| && keep(xs[i]) && item == render(xs[i]) {
        var i :| 0 <= i < |xs| && keep(xs[i]) && item == render(xs[i]);
        if i < |init| {
          assert init[i] == xs[i];
        }
      }
      if item in Collect(init, keep, render) {
        var i :| 0 <= i < |init| && keep(init[i]) && item == render(init[i]);
        assert xs[i] == init[i];
      }
    }
  }

  /** When every element is accepted, the result renders each element at its own position. */
  lemma {:induction false} CollectAll<T, U>(xs: seq<T>, keep: T -> bool, render: T -> U)
    requires forall i :: 0 <= i < |xs| ==> keep(xs[i])
    ensures |Collect(xs, keep, render)| == |xs|
    ensures forall i :: 0 <= i < |xs| ==> Collect(xs, keep, render)[i] == render(xs[i])
    decreases |xs|
  {
    if |xs| > 0 {
      var init := xs[..|xs| - 1];
      CollectAll(init, keep, render);
    }
  }

  /** Nothing is collected exactly when no element is accepted. */
  lemma CollectEmptyIffNoneKept<T, U>(xs: seq<T>, keep: T -> bool, render: T -> U)
    ensures Collect(xs, keep, render) == [] <==> forall i :: 0 <= i < |xs| ==> !keep(xs[i])
  {
    if Collect(xs, keep, render) != [] {
      CollectMembers(xs, keep, render, Collect(xs, keep, render)[0]);
    }
    forall i | 0 <= i < |xs| && keep(xs[i])
      ensures Collect(xs, keep, render) != []
    {
      CollectMembers(xs, keep, render, render(xs[i]));
    }
  }
}
