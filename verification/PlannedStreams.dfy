/**
 From the plan to the streams: an operation that the planner made selects the same elements at
 both ends, and with the span sizes its parameter's layout has, both ends cut them alike.
 */
module PlannedStreams {
  import opened Basics
  import opened SequenceFacts
  import opened Sequences
  import opened ParamMeta
  import opened TensorLayout
  import opened LayoutFragments
  import opened SingleFragment
  import opened DeviceBatch
  import Plan = TransferPlan
  import Reshard = Resharding
  import Qwen3 = Qwen3Layouts

  // ---------------------------------------------------------------- the slices of an operation

  function IndexFor(i: Plan.Interval): Index { Slice(Some(i.start), Some(i.stop), None) }

  function Indices(slices: seq<Plan.Interval>): (r: seq<Index>)
    ensures |r| == |slices| && forall i | 0 <= i < |slices| :: r[i] == IndexFor(slices[i])
  {
    seq(|slices|, i requires 0 <= i < |slices| => IndexFor(slices[i]))
  }

  /** The part of an operation that both ends know, with the annotation it carries. */
  function PlanOpFor(op: Plan.Operation, spanNumels: seq<nat>): PlanOp {
    PlanOp(op.sendShard.info.shape, Indices(op.trainSlices), spanNumels)
  }

  /** The element count of an overlap. */
  function Volume(shape: seq<int>): nat {
    if shape == [] then 1 else if shape[0] < 0 then 0 else Times(shape[0], Volume(shape[1..]))
  }

  /** Slices of the given extents inside a shape. */
  ghost predicate Inside(slices: seq<Plan.Interval>, extents: seq<int>, shape: seq<nat>) {
    && |slices| == |extents| == |shape|
    && forall i | 0 <= i < |shape| ::
         0 <= slices[i].start < slices[i].stop <= shape[i] && slices[i].stop - slices[i].start == extents[i]
  }

  /** An operation the planner made takes its overlap from inside the training shard and into the inference shard. */
  lemma PlannedIsInside(op: Plan.Operation, inf: Plan.ShardOffset, train: Plan.ShardOffset, n: nat)
    requires Reshard.Moves(op, inf, train, n)
    requires |train.shard.info.shape| == |inf.shard.info.shape| == n
    requires train.end == Plan.AddSeq(train.start, train.shard.info.shape)
    requires inf.end == Plan.AddSeq(inf.start, inf.shard.info.shape)
    ensures Inside(op.trainSlices, op.overlapShape, op.sendShard.info.shape)
    ensures Inside(op.infSlices, op.overlapShape, op.recvShard.info.shape)
  {
    var start, end := Plan.OverlapStart(inf, train), Plan.OverlapEnd(inf, train);
    forall i | 0 <= i < n
      ensures start[i] < end[i] && train.start[i] <= start[i] && end[i] <= train.end[i]
      ensures inf.start[i] <= start[i] && end[i] <= inf.end[i]
    {
    }
  }

  /** The bounds of slices inside a shape. */
  function BoundsFrom(slices: seq<Plan.Interval>, shape: seq<nat>, k: nat): seq<Bound>
    requires |slices| == |shape| && k <= |shape|
    requires forall i | 0 <= i < |shape| :: 0 <= slices[i].start && 0 <= slices[i].stop
    decreases |shape| - k
  {
    if k == |shape| then []
    else
      [Bound(slices[k].start, slices[k].stop, slices[k].start == 0 && slices[k].stop == shape[k])]
      + BoundsFrom(slices, shape, k + 1)
  }

  lemma {:induction false} InsideNormalizes(slices: seq<Plan.Interval>, extents: seq<int>, shape: seq<nat>, k: nat)
    requires Inside(slices, extents, shape) && k <= |shape|
    ensures Normalize(shape, Indices(slices), k) == Box(BoundsFrom(slices, shape, k))
    decreases |shape| - k
  {
    if k < |shape| {
      InsideNormalizes(slices, extents, shape, k + 1);
      assert Along(shape[k], Indices(slices)[k])
          == Box([Bound(slices[k].start, slices[k].stop, slices[k].start == 0 && slices[k].stop == shape[k])]);
    }
  }

  lemma {:induction false} InsideCounts(slices: seq<Plan.Interval>, extents: seq<int>, shape: seq<nat>, k: nat)
    requires Inside(slices, extents, shape) && k <= |shape|
    ensures BoxSize(BoundsFrom(slices, shape, k)) == Volume(Range(extents, k, |shape|))
    decreases |shape| - k
  {
    if k < |shape| {
      InsideCounts(slices, extents, shape, k + 1);
      var b := Bound(slices[k].start, slices[k].stop, slices[k].start == 0 && slices[k].stop == shape[k]);
      ConsParts(b, BoundsFrom(slices, shape, k + 1));
      var all := Range(extents, k, |shape|);
      assert all[0] == extents[k] && all[1..] == Range(extents, k + 1, |shape|);
    }
  }

  // ---------------------------------------------------------------- cutting a planned slice

  /** Indices inside a shape select a box of as many elements as the overlap. */
  lemma PlannedBox(slices: seq<Plan.Interval>, extents: seq<int>, shape: seq<nat>) returns (box: seq<Bound>)
    requires Inside(slices, extents, shape)
    ensures Select(shape, Indices(slices)) == Box(box) && Fits(shape, box) && BoxSize(box) == Volume(extents)
  {
    box := BoundsFrom(slices, shape, 0);
    InsideNormalizes(slices, extents, shape, 0);
    InsideCounts(slices, extents, shape, 0);
    RangeAll(extents);
    SelectFits(shape, Indices(slices));
  }

  /** Cutting an operation's slice at any spans that cover the shard keeps every element. */
  lemma PlannedCut(slices: seq<Plan.Interval>, extents: seq<int>, shape: seq<nat>, numels: seq<nat>)
    requires Inside(slices, extents, shape) && SpansDefect(shape, numels).None?
    ensures SlicedFragments(shape, Indices(slices), numels).Ok?
    ensures Sum(Lengths(SlicedFragments(shape, Indices(slices), numels).value)) == Volume(extents)
  {
    var box := PlannedBox(slices, extents, shape);
    BoxCut(shape, box, numels);
  }

  // ---------------------------------------------------------------- both ends

  /** The receiver's view of an operation has the elements of the overlap. */
  ghost predicate TargetOf(op: Plan.Operation, target: Target) {
    target.numel == Volume(op.overlapShape)
  }

  /** A planned operation on a dense parameter: both ends accept it, as one piece of the overlap's elements. */
  lemma DenseOperationAgrees(op: Plan.Operation, source: Source, target: Target)
    requires source.Dense? && source.numel == Volume(op.overlapShape) && TargetOf(op, target)
    ensures var p := PlanOpFor(op, []);
      && Selects(p, source) == Some(target.numel)
      && SendNumels(p, source).Ok? && SendNumels(p, source) == RecvNumels(p, target)
  {
    assert [source.numel][..0] == [];
    assert Sum([source.numel]) == Sum([]) + source.numel;
  }

  /** A planned operation on a layout, annotated with the layout's spans: both ends accept it and cut it alike. */
  lemma LaidOperationAgrees(op: Plan.Operation, numels: seq<nat>, ptrs: seq<nat>, target: Target)
    requires Inside(op.trainSlices, op.overlapShape, op.sendShard.info.shape) && TargetOf(op, target)
    requires SpansDefect(op.sendShard.info.shape, numels).None? && numels != []
    ensures var p, source := PlanOpFor(op, numels), Laid(op.sendShard.info.shape, numels, ptrs);
      && Selects(p, source) == Some(target.numel)
      && SendNumels(p, source).Ok? && SendNumels(p, source) == RecvNumels(p, target)
  {
    PlannedCut(op.trainSlices, op.overlapShape, op.sendShard.info.shape, numels);
  }

  /**
   The annotation of the copy-only layouts: the span sizes computed from the shard's shape alone
   are those of the sender's layout, so every planned operation on the projection is cut alike.
   */
  lemma AnnotatedOperationAgrees<T>(
    op: Plan.Operation, p: Qwen3.Parameter<T>, a: Qwen3.Attention, which: Qwen3.Projection, ptrs: seq<nat>,
    target: Target)
    requires Qwen3.ValidParameter(p) && Qwen3.ValidAttention(a) && Qwen3.BuildLayout(p, a, which).Ok?
    requires Qwen3.BlockRows(a, which) > 0
    requires op.sendShard.info.shape == Qwen3.BuildLayout(p, a, which).value.shape
    requires Inside(op.trainSlices, op.overlapShape, op.sendShard.info.shape) && TargetOf(op, target)
    ensures var layout := Qwen3.BuildLayout(p, a, which).value;
      && Qwen3.SpanNumels(which, op.sendShard.info.shape, a) == Ok(Numels(layout.spans))
      && var planned, source := PlanOpFor(op, Numels(layout.spans)), Laid(layout.shape, Numels(layout.spans), ptrs);
      && Selects(planned, source) == Some(target.numel)
      && SendNumels(planned, source).Ok? && SendNumels(planned, source) == RecvNumels(planned, target)
  {
    var layout := Qwen3.BuildLayout(p, a, which).value;
    Qwen3.SpanSizesAgree(p, a, which);
    Qwen3.LayoutsCover(p, a, which);
    SpansAreSound(op.trainSlices, op.overlapShape, layout.shape, Qwen3.BlockRows(a, which), Numels(layout.spans));
    LaidOperationAgrees(op, Numels(layout.spans), ptrs, target);
  }

  /** Spans of whole blocks of rows are not empty when the shape they cover has elements. */
  lemma SpansAreSound(
    slices: seq<Plan.Interval>, extents: seq<int>, shape: seq<nat>, blockRows: nat, numels: seq<nat>)
    requires Inside(slices, extents, shape) && shape != [] && blockRows > 0
    requires Total(numels) == Numel(shape) && forall i | 0 <= i < |numels| :: numels[i] == Times(blockRows, Numel(shape[1..]))
    ensures SpansDefect(shape, numels).None? && numels != []
  {
    NumelPositive(shape);
    forall i | 0 <= i < |shape[1..]| ensures shape[1..][i] > 0 { assert shape[1..][i] == shape[i + 1]; }
    NumelPositive(shape[1..]);
    TimesIsProduct(blockRows, Numel(shape[1..]));
  }
}
