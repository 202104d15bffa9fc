/** The measured content height: the layout system folds the values
    reported by the views that set the content-height preference into its
    default value, one `reduce` step per reported value. In this view exactly
    one view reports: the stack wrapping the content, with its own height. */
module ContentHeight {

  /** Value of the preference before any view has reported. */
  const DefaultValue: real := 0.0

  /** One reduction step: the accumulator grows by the next reported height. */
  function Reduce(value: real, nextValue: real): real
  {
    value + nextValue
  }

  /** The accumulator after folding `heights`, in order, into `value`. */
  function ReduceAll(value: real, heights: seq<real>): real
    decreases |heights|
  {
    if heights == [] then value else ReduceAll(Reduce(value, heights[0]), heights[1..])
  }

  /** The content height for reported values `heights`. */
  function Measured(heights: seq<real>): real
  {
    ReduceAll(DefaultValue, heights)
  }

  /** Reference definition: the plain sum of the heights. */
  function Sum(heights: seq<real>): real
    decreases |heights|
  {
    if heights == [] then 0.0 else Sum(heights[..|heights| - 1]) + heights[|heights| - 1]
  }

  lemma {:induction false} SumPrepend(x: real, heights: seq<real>)
    ensures Sum([x] + heights) == x + Sum(heights)
    decreases |heights|
  {
    if heights == [] {
      assert [x] + heights == [x];
      assert [x][..0] == [];
    } else {
      var last := |heights| - 1;
      assert ([x] + heights)[..|heights|] == [x] + heights[..last];
      SumPrepend(x, heights[..last]);
    }
  }

  lemma {:induction false} ReduceAllIsShiftedSum(value: real, heights: seq<real>)
    ensures ReduceAll(value, heights) == value + Sum(heights)
    decreases |heights|
  {
    if heights != [] {
      ReduceAllIsShiftedSum(Reduce(value, heights[0]), heights[1..]);
      assert heights == [heights[0]] + heights[1..];
      SumPrepend(heights[0], heights[1..]);
    }
  }

  /** The measured height is the sum of the reported values. */
  lemma MeasuredIsSum(heights: seq<real>)
    ensures Measured(heights) == Sum(heights)
  {
    ReduceAllIsShiftedSum(DefaultValue, heights);
  }

  /** A single reporting view, the case this view hits: the measured height
      is that view's own height. */
  lemma MeasuredSingle(height: real)
    ensures Measured([height]) == height
  {
    assert [height][1..] == [];
    assert ReduceAll(Reduce(DefaultValue, height), []) == height;
  }

  lemma {:induction false} SumAppend(a: seq<real>, b: seq<real>)
    ensures Sum(a + b) == Sum(a) + Sum(b)
    decreases |b|
  {
    if b == [] {
      assert a + b == a;
    } else {
      var last := |b| - 1;
      assert (a + b)[..|a + b| - 1] == a + b[..last];
      SumAppend(a, b[..last]);
    }
  }

  /** Folding two groups of reported values together gives the sum of
      folding each group. */
  lemma MeasuredAppend(a: seq<real>, b: seq<real>)
    ensures Measured(a + b) == Measured(a) + Measured(b)
  {
    MeasuredIsSum(a);
    MeasuredIsSum(b);
    MeasuredIsSum(a + b);
    SumAppend(a, b);
  }

  /** With non-negative reported values, each value lies within the
      measured height, and so the measured height is non-negative. */
  lemma {:induction false} MeasuredCoversEachChild(heights: seq<real>, i: nat)
    requires forall k :: 0 <= k < |heights| ==> heights[k] >= 0.0
    requires i < |heights|
    ensures 0.0 <= heights[i] <= Measured(heights)
    decreases |heights|
  {
    MeasuredIsSum(heights);
    var last := |heights| - 1;
    var init := heights[..last];
    SumNonNegative(init);
    if i < last {
      MeasuredCoversEachChild(init, i);
      MeasuredIsSum(init);
    }
  }

  lemma {:induction false} SumNonNegative(heights: seq<real>)
    requires forall k :: 0 <= k < |heights| ==> heights[k] >= 0.0
    ensures Sum(heights) >= 0.0
    decreases |heights|
  {
    if heights != [] {
      SumNonNegative(heights[..|heights| - 1]);
    }
  }
}
