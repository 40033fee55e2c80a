/** The two text-cursor patterns of the poster route: a cursor that moves by
    a fixed step after each drawn line (the vertical stacks) and the
    right-to-left run layout, where the x cursor moves left by each run's
    measured width plus a gap so that the next run lands to its left. */
module TextLayout {

  function Sum(xs: seq<real>): real
    decreases |xs|
  {
    if |xs| == 0 then 0.0 else Sum(xs[..|xs| - 1]) + xs[|xs| - 1]
  }

  /** Cursor positions: `start`, then after each step the previous position
      moved by that step (`ucY += …`, `textCursorY -= …`, `x -= …`). */
  function Cursor(start: real, steps: seq<real>): (ps: seq<real>)
    ensures |ps| == |steps| + 1
    ensures ps[0] == start
    ensures forall k :: 0 <= k < |steps| ==> ps[k + 1] == ps[k] + steps[k]
    decreases |steps|
  {
    if |steps| == 0 then [start]
    else
      var init := Cursor(start, steps[..|steps| - 1]);
      init + [init[|init| - 1] + steps[|steps| - 1]]
  }

  /** The position after `k` steps is the start moved by the sum of the first
      `k` steps. */
  lemma {:induction false} CursorClosedForm(start: real, steps: seq<real>, k: nat)
    requires k <= |steps|
    ensures Cursor(start, steps)[k] == start + Sum(steps[..k])
    decreases k
  {
    if k > 0 {
      CursorClosedForm(start, steps, k - 1);
      assert steps[..k][..k - 1] == steps[..k - 1];
    }
  }

  /** With every step negative the cursor only moves one way: later
      positions are strictly smaller. */
  lemma {:induction false} CursorDecreasing(start: real, steps: seq<real>, i: nat, j: nat)
    requires forall k :: 0 <= k < |steps| ==> steps[k] < 0.0
    requires i < j <= |steps|
    ensures Cursor(start, steps)[j] < Cursor(start, steps)[i]
    decreases j - i
  {
    if j > i + 1 {
      CursorDecreasing(start, steps, i, j - 1);
    }
  }

  /** With every step positive later positions are strictly larger. */
  lemma {:induction false} CursorIncreasing(start: real, steps: seq<real>, i: nat, j: nat)
    requires forall k :: 0 <= k < |steps| ==> steps[k] > 0.0
    requires i < j <= |steps|
    ensures Cursor(start, steps)[i] < Cursor(start, steps)[j]
    decreases j - i
  {
    if j > i + 1 {
      CursorIncreasing(start, steps, i, j - 1);
    }
  }

  /** The left moves of a right-to-left run list: after run `k` the x cursor
      moves left by its measured width plus the inter-run gap. */
  function RunSteps(widths: seq<real>, gap: real): (steps: seq<real>)
    ensures |steps| == |widths|
    ensures forall k :: 0 <= k < |widths| ==> steps[k] == -(widths[k] + gap)
  {
    seq(|widths|, k requires 0 <= k < |widths| => -(widths[k] + gap))
  }

  /** The right edges of consecutive right-aligned runs drawn from the anchor
      `right`; `widths` are the measured widths of all runs but the last (the
      last run's width is never needed). */
  function RunEdges(right: real, widths: seq<real>, gap: real): (edges: seq<real>)
    ensures |edges| == |widths| + 1
  {
    Cursor(right, RunSteps(widths, gap))
  }

  /** Run `k`'s right edge is the anchor less the widths of the runs before it
      and one gap per run before it. */
  lemma RunEdgeClosedForm(right: real, widths: seq<real>, gap: real, k: nat)
    requires k <= |widths|
    ensures RunEdges(right, widths, gap)[k] == right - Sum(widths[..k]) - (k as real) * gap
  {
    CursorClosedForm(right, RunSteps(widths, gap), k);
    RunStepsSum(widths, gap, k);
  }

  /** The first `k` left moves add up to the first `k` widths plus `k` gaps,
      negated. */
  lemma {:induction false} RunStepsSum(widths: seq<real>, gap: real, k: nat)
    requires k <= |widths|
    ensures Sum(RunSteps(widths, gap)[..k]) == -Sum(widths[..k]) - (k as real) * gap
    decreases k
  {
    if k > 0 {
      var steps := RunSteps(widths, gap);
      RunStepsSum(widths, gap, k - 1);
      assert steps[..k][..k - 1] == steps[..k - 1];
      assert widths[..k][..k - 1] == widths[..k - 1];
      assert Sum(steps[..k]) == Sum(steps[..k - 1]) + steps[k - 1];
      assert Sum(widths[..k]) == Sum(widths[..k - 1]) + widths[k - 1];
      assert ((k - 1) as real) * gap + gap == (k as real) * gap;
    }
  }

  /** Runs with non-negative widths separated by a positive gap are laid out
      strictly right to left. */
  lemma RunEdgesDecreasing(right: real, widths: seq<real>, gap: real, i: nat, j: nat)
    requires forall k :: 0 <= k < |widths| ==> widths[k] >= 0.0
    requires gap > 0.0
    requires i < j <= |widths|
    ensures RunEdges(right, widths, gap)[j] < RunEdges(right, widths, gap)[i]
  {
    CursorDecreasing(right, RunSteps(widths, gap), i, j);
  }
}
