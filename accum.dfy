/** Mapping a sequence left to right while threading a counter through the steps. */
module Accum {
  import opened Wrappers


  /** Applies `step` to each element in order, each step starting from the counter value the previous one left. */
  function MapAccum<A, B>(xs: seq<A>, step: (A, nat) -> (B, nat), n: nat): (r: (seq<B>, nat))
    ensures |r.0| == |xs|
  {
    if xs == [] then ([], n)
    else
      var init := MapAccum(xs[..|xs| - 1], step, n);
      var last := step(xs[|xs| - 1], init.1);
      (init.0 + [last.0], last.1)
  }

  /** Element i of the result is the step applied to element i, from where the first i steps left the counter. */
  lemma {:induction false} MapAccumAt<A, B>(xs: seq<A>, step: (A, nat) -> (B, nat), n: nat, i: nat)
    requires i < |xs|
    ensures MapAccum(xs, step, n).0[i] == step(xs[i], MapAccum(xs[..i], step, n).1).0
    decreases |xs|
  {
    var k := |xs| - 1;
    var init := xs[..k];
    if i < k {
      MapAccumAt(init, step, n, i);
      assert init[..i] == xs[..i] && init[i] == xs[i];
    } else {
      assert xs[..i] == init;
    }
  }

  /** One more element: the result grows by that element's step. */
  lemma MapAccumSnoc<A, B>(xs: seq<A>, step: (A, nat) -> (B, nat), n: nat, i: nat)
    requires i < |xs|
    ensures var before := MapAccum(xs[..i], step, n);
      var s := step(xs[i], before.1);
      MapAccum(xs[..i + 1], step, n) == (before.0 + [s.0], s.1)
  {
    assert xs[..i + 1][..i] == xs[..i];
  }

  /**
   * Applies `step` to each element in order until one fails: the results so
   * far, whether a step failed, and the notes the successful steps left.
   */
  function RunUntil<A, B, L>(xs: seq<A>, step: A -> Option<B>, note: (A, B) -> seq<L>): (seq<B>, bool, seq<L>)
  {
    if xs == [] then ([], false, [])
    else
      var c := RunUntil(xs[..|xs| - 1], step, note);
      var x := xs[|xs| - 1];
      if c.1 then c
      else match step(x)
        case None => (c.0, true, c.2)
        case Some(y) => (c.0 + [y], false, c.2 + note(x, y))
  }

  /** One more element after a run that has not failed. */
  lemma RunUntilSnoc<A, B, L>(xs: seq<A>, step: A -> Option<B>, note: (A, B) -> seq<L>, i: nat)
    requires i < |xs|
    ensures var c := RunUntil(xs[..i], step, note);
      RunUntil(xs[..i + 1], step, note)
      == if c.1 then c
         else match step(xs[i])
           case None => (c.0, true, c.2)
           case Some(y) => (c.0 + [y], false, c.2 + note(xs[i], y))
  {
    assert xs[..i + 1][..i] == xs[..i];
  }

  /** Once a step has failed, later elements change nothing. */
  lemma {:induction false} RunUntilStopped<A, B, L>(xs: seq<A>, step: A -> Option<B>, note: (A, B) -> seq<L>, i: nat)
    requires i <= |xs| && RunUntil(xs[..i], step, note).1
    ensures RunUntil(xs, step, note) == RunUntil(xs[..i], step, note)
    decreases |xs| - i
  {
    if i < |xs| {
      assert xs[..i + 1][..i] == xs[..i];
      RunUntilStopped(xs, step, note, i + 1);
    } else {
      assert xs[..i] == xs;
    }
  }

  /**
   * The run yields the results of a prefix, in order; it fails exactly when
   * some step fails, and stops at the first failing element.
   */
  lemma {:induction false} RunUntilPrefix<A, B, L>(xs: seq<A>, step: A -> Option<B>, note: (A, B) -> seq<L>)
    ensures var (out, failed, _) := RunUntil(xs, step, note);
      && |out| <= |xs|
      && (forall i :: 0 <= i < |out| ==> step(xs[i]) == Some(out[i]))
      && (failed <==> |out| < |xs|)
      && (failed ==> step(xs[|out|]).None?)
    decreases |xs|
  {
    if xs != [] {
      var init := xs[..|xs| - 1];
      RunUntilPrefix(init, step, note);
      assert forall i :: 0 <= i < |init| ==> init[i] == xs[i];
    }
  }

  /** When no step fails and no step leaves a note, every element yields a result and there are no notes. */
  lemma {:induction false} RunUntilTotal<A, B, L>(xs: seq<A>, step: A -> Option<B>, note: (A, B) -> seq<L>)
    requires forall x :: step(x).Some?
    requires forall x, y :: note(x, y) == []
    ensures var (out, failed, notes) := RunUntil(xs, step, note);
      !failed && |out| == |xs| && notes == []
    decreases |xs|
  {
    if xs != [] {
      var x := xs[|xs| - 1];
      RunUntilTotal(xs[..|xs| - 1], step, note);
      match step(x)
      case Some(y) => assert note(x, y) == [];
    }
  }
}
