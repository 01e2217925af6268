/**
 Copy-only layouts of the fused Qwen3 QKV projection. The fused parameter holds one block
 of query, key and value rows per key-value group; the q, k and v tensors are assembled
 from row ranges of the blocks without copying.
 */
module Qwen3Layouts {
  import opened Basics
  import opened SequenceFacts
  import opened Sequences
  import opened PowersOfTwo
  import opened TensorLayout
  import opened LayoutFragments

  /** Attention geometry of the model and the attention tensor-parallel degree. */
  datatype Attention = Attention(numHeads: nat, numKvHeads: nat, headDim: nat, attnTp: nat)

  /** A contiguous row-major parameter: rows of tail-shaped elements. */
  datatype Parameter<T> = Parameter(rows: nat, tail: seq<nat>, data: seq<T>)

  datatype QkvError = HeadsNotDivisible | KvHeadsNotDivisible | UnexpectedRows | NoGroups | NotAligned

  ghost predicate ValidParameter<T>(p: Parameter<T>) {
    |p.data| == Times(p.rows, Numel(p.tail))
  }

  ghost predicate ValidAttention(a: Attention) {
    a.numKvHeads > 0 && a.headDim > 0 && a.attnTp > 0
  }

  function QueryRows(a: Attention): nat
    requires a.numKvHeads > 0
  {
    a.numHeads / a.numKvHeads * a.headDim
  }

  /** Rows first to first + count of a tensor whose rows have width elements. */
  function RowBlock<T>(data: seq<T>, width: nat, first: nat, count: nat): (r: seq<T>)
    requires Times(first + count, width) <= |data|
    ensures |r| == Times(count, width)
  {
    TimesAdd(first, count, width);
    Range(data, Times(first, width), Times(first + count, width))
  }

  lemma {:induction false} TimesMonotone(a: nat, b: nat, k: nat)
    requires a <= b
    ensures Times(a, k) <= Times(b, k)
  {
    if a < b { TimesMonotone(a, b - 1, k); }
  }

  /** Row range [lo, lo + count) of group g lies inside the parameter. */
  lemma GroupInside(groups: nat, groupRows: nat, width: nat, g: nat, lo: nat, count: nat, total: nat)
    requires g < groups && lo + count <= groupRows && total == Times(Times(groups, groupRows), width)
    ensures Times(Times(g, groupRows) + lo + count, width) <= total
  {
    TimesMonotone(g + 1, groups, groupRows);
    TimesMonotone(Times(g, groupRows) + lo + count, Times(groups, groupRows), width);
  }

  /** The views of one projection: count rows from lo in every group. */
  function GroupSpans<T>(data: seq<T>, groups: nat, groupRows: nat, width: nat, lo: nat, count: nat): (r: seq<seq<T>>)
    requires |data| == Times(Times(groups, groupRows), width) && lo + count <= groupRows
    ensures |r| == groups && forall g | 0 <= g < groups :: |r[g]| == Times(count, width)
  {
    seq(groups, g requires 0 <= g < groups =>
      GroupInside(groups, groupRows, width, g, lo, count, |data|);
      RowBlock(data, width, Times(g, groupRows) + lo, count))
  }

  function ProjectionLayout<T>(p: Parameter<T>, groups: nat, groupRows: nat, lo: nat, count: nat): StaticTensorLayout<T>
    requires ValidParameter(p) && p.rows == Times(groups, groupRows) && lo + count <= groupRows
  {
    StaticTensorLayout(
      [Times(groups, count)] + p.tail, GroupSpans(p.data, groups, groupRows, Numel(p.tail), lo, count))
  }

  /** The fused rows: groups of qRows query rows, headDim key rows and headDim value rows. */
  datatype Blocks = Blocks(groups: nat, qRows: nat, headDim: nat)

  function GroupRows(b: Blocks): nat {
    b.qRows + 2 * b.headDim
  }

  ghost predicate Tile(b: Blocks, rows: nat) {
    b.groups > 0 && b.headDim > 0 && rows == Times(b.groups, GroupRows(b))
  }

  /** The blocks that a copy-only layout finds in a parameter with this many rows. */
  function LayoutBlocks(rows: nat, a: Attention): (r: Result<Blocks, QkvError>)
    requires ValidAttention(a)
    ensures r.Ok? ==> Tile(r.value, rows)
  {
    var qRows, groupRows := QueryRows(a), QueryRows(a) + 2 * a.headDim;
    if a.numHeads % a.numKvHeads != 0 then Err(HeadsNotDivisible)
    else if rows % groupRows != 0 then Err(UnexpectedRows)
    else if rows / groupRows == 0 then Err(NoGroups)
    else
      TimesIsProduct(rows / groupRows, groupRows);
      Ok(Blocks(rows / groupRows, qRows, a.headDim))
  }

  datatype Projection = Query | Key | Value

  /** Where a projection's rows lie in a group. */
  function RowsOf(b: Blocks, which: Projection): (nat, nat) {
    match which
    case Query => (0, b.qRows)
    case Key => (b.qRows, b.headDim)
    case Value => (b.qRows + b.headDim, b.headDim)
  }

  /** The layout of one projection as views of the fused parameter, or why it has none. */
  function BuildLayout<T>(p: Parameter<T>, a: Attention, which: Projection): Result<StaticTensorLayout<T>, QkvError>
    requires ValidParameter(p) && ValidAttention(a)
  {
    match LayoutBlocks(p.rows, a)
    case Err(e) => Err(e)
    case Ok(b) => Ok(ProjectionLayout(p, b.groups, GroupRows(b), RowsOf(b, which).0, RowsOf(b, which).1))
  }

  // ---------------------------------------------------------------- the materialising splitter

  predicate Positive(shape: seq<nat>) {
    forall i | 0 <= i < |shape| :: shape[i] > 0
  }

  /** The box that takes every dimension whole. */
  function WholeBox(shape: seq<nat>): seq<Bound> {
    seq(|shape|, i requires 0 <= i < |shape| => Bound(0, shape[i], true))
  }

  /** The shape of a parameter viewed as blocks of rows. */
  function BlockShape(groups: nat, groupRows: nat, tail: seq<nat>): seq<nat> {
    [groups, groupRows] + tail
  }

  /** Rows lo to hi of every block, and everything in the dimensions behind. */
  function BlockBox(groups: nat, groupRows: nat, tail: seq<nat>, lo: nat, hi: nat): seq<Bound> {
    [Bound(0, groups, true), Bound(lo, hi, lo == 0 && hi == groupRows)] + WholeBox(tail)
  }

  lemma BlockBoxFits(groups: nat, groupRows: nat, tail: seq<nat>, lo: nat, hi: nat)
    requires groups > 0 && lo < hi <= groupRows && Positive(tail)
    ensures Fits(BlockShape(groups, groupRows, tail), BlockBox(groups, groupRows, tail, lo, hi))
    ensures Numel(BlockShape(groups, groupRows, tail)) == Times(groups, Times(groupRows, Numel(tail)))
  {
    var shape, box := BlockShape(groups, groupRows, tail), BlockBox(groups, groupRows, tail, lo, hi);
    forall i | 0 <= i < |shape|
      ensures box[i].start < box[i].stop <= shape[i]
      ensures box[i].full <==> box[i].start == 0 && box[i].stop == shape[i]
    {
    }
    assert shape[1..] == [groupRows] + tail && shape[1..][1..] == tail;
  }

  lemma {:induction false} TimesTimes(a: nat, b: nat, c: nat)
    ensures Times(Times(a, b), c) == Times(a, Times(b, c))
  {
    if a > 0 {
      TimesTimes(a - 1, b, c);
      TimesAdd(Times(a - 1, b), b, c);
    }
  }

  /** Reshape to blocks, slice the rows of every block, flatten. */
  function SlicedBlocks<T>(p: Parameter<T>, groups: nat, groupRows: nat, lo: nat, hi: nat): seq<T>
    requires ValidParameter(p) && p.rows == Times(groups, groupRows) && groups > 0 && lo <= hi <= groupRows
  {
    if !Positive(p.tail) || lo == hi then []
    else
      BlockBoxFits(groups, groupRows, p.tail, lo, hi);
      TimesTimes(groups, groupRows, Numel(p.tail));
      PlainSlice(p.data, BlockShape(groups, groupRows, p.tail), BlockBox(groups, groupRows, p.tail, lo, hi))
  }

  /** The blocks the materialising splitter expects. */
  function SplitBlocks(rows: nat, a: Attention): (r: Result<Blocks, QkvError>)
    requires ValidAttention(a)
  {
    if a.numKvHeads % a.attnTp != 0 then Err(KvHeadsNotDivisible)
    else if a.numHeads % a.numKvHeads != 0 then Err(HeadsNotDivisible)
    else
      var groups, qPerGroup := a.numKvHeads / a.attnTp, a.numHeads / a.numKvHeads;
      if rows != groups * ((qPerGroup + 2) * a.headDim) then Err(UnexpectedRows)
      else Ok(Blocks(groups, qPerGroup * a.headDim, a.headDim))
  }

  /** The splitter accepts only parameters that have a copy-only layout, with the same blocks. */
  lemma SplitBlocksAreLayoutBlocks(rows: nat, a: Attention)
    requires ValidAttention(a) && SplitBlocks(rows, a).Ok?
    ensures LayoutBlocks(rows, a) == SplitBlocks(rows, a)
  {
    var groups, q := a.numKvHeads / a.attnTp, a.numHeads / a.numKvHeads;
    assert (q + 2) * a.headDim == QueryRows(a) + 2 * a.headDim;
    Divides(a.numKvHeads, a.attnTp);
    RowsOfGroups(groups, QueryRows(a) + 2 * a.headDim);
  }

  lemma RowsOfGroups(groups: nat, groupRows: nat)
    requires groupRows > 0
    ensures groups * groupRows / groupRows == groups && groups * groupRows % groupRows == 0
  {
    DivUnique(groups * groupRows, groupRows, groups);
  }

  /** The tensor of one projection copied out of the fused parameter. */
  function SplitGqaQkv<T>(p: Parameter<T>, a: Attention, which: Projection): Result<seq<T>, QkvError>
    requires ValidParameter(p) && ValidAttention(a)
  {
    match SplitBlocks(p.rows, a)
    case Err(e) => Err(e)
    case Ok(b) =>
      SplitBlocksAreLayoutBlocks(p.rows, a);
      var (lo, count) := RowsOf(b, which);
      Ok(SlicedBlocks(p, b.groups, GroupRows(b), lo, lo + count))
  }

  // ---------------------------------------------------------------- assembling is slicing

  lemma {:induction false} WholeSlice<T>(data: seq<T>, shape: seq<nat>)
    requires Positive(shape) && |data| == Numel(shape)
    ensures Fits(shape, WholeBox(shape)) && PlainSlice(data, shape, WholeBox(shape)) == data
    decreases |shape|, 0
  {
    if shape != [] {
      assert WholeBox(shape)[1..] == WholeBox(shape[1..]);
      WholeRows(data, shape[1..], 0, shape[0]);
      RangeAll(data);
    }
  }

  /** Taking whole rows lo to hi takes one range. */
  lemma {:induction false} WholeRows<T>(data: seq<T>, rest: seq<nat>, lo: nat, hi: nat)
    requires Positive(rest) && Times(hi, Numel(rest)) <= |data| && lo <= hi
    ensures Fits(rest, WholeBox(rest)) && Times(lo, Numel(rest)) <= Times(hi, Numel(rest))
    ensures PlainRows(data, rest, WholeBox(rest), lo, hi) == Range(data, Times(lo, Numel(rest)), Times(hi, Numel(rest)))
    decreases |rest|, 1, hi
  {
    TimesMonotone(lo, hi, Numel(rest));
    if lo < hi {
      var at, end := Times(hi - 1, Numel(rest)), Times(hi, Numel(rest));
      WholeRows(data, rest, lo, hi - 1);
      WholeSlice(Range(data, at, end), rest);
      RangeConcat(data, Times(lo, Numel(rest)), at, end);
    }
  }

  /** Rows lo to lo + count of a block, and everything in the dimensions behind. */
  function RowsBox(groupRows: nat, tail: seq<nat>, lo: nat, count: nat): seq<Bound> {
    [Bound(lo, lo + count, lo == 0 && lo + count == groupRows)] + WholeBox(tail)
  }

  lemma RowsBoxFits(groupRows: nat, tail: seq<nat>, lo: nat, count: nat)
    requires count > 0 && lo + count <= groupRows && Positive(tail)
    ensures Fits([groupRows] + tail, RowsBox(groupRows, tail, lo, count))
    ensures Numel([groupRows] + tail) == Times(groupRows, Numel(tail))
  {
    var shape, box := [groupRows] + tail, RowsBox(groupRows, tail, lo, count);
    ConsParts(groupRows, tail);
    forall i | 0 <= i < |shape|
      ensures box[i].start < box[i].stop <= shape[i]
      ensures box[i].full <==> box[i].start == 0 && box[i].stop == shape[i]
    {
    }
  }

  /** Slicing the rows of one block takes one row block of it. */
  lemma BlockSlice<T>(block: seq<T>, groupRows: nat, tail: seq<nat>, lo: nat, count: nat)
    requires count > 0 && lo + count <= groupRows && Positive(tail) && |block| == Times(groupRows, Numel(tail))
    ensures Fits([groupRows] + tail, RowsBox(groupRows, tail, lo, count)) && Numel([groupRows] + tail) == |block|
    ensures Times(lo + count, Numel(tail)) <= |block|
    ensures PlainSlice(block, [groupRows] + tail, RowsBox(groupRows, tail, lo, count))
         == RowBlock(block, Numel(tail), lo, count)
  {
    RowsBoxFits(groupRows, tail, lo, count);
    ConsParts(groupRows, tail);
    ConsParts(Bound(lo, lo + count, lo == 0 && lo + count == groupRows), WholeBox(tail));
    TimesMonotone(lo + count, groupRows, Numel(tail));
    WholeRows(block, tail, lo, lo + count);
  }

  lemma BlockOfBlock<T>(data: seq<T>, width: nat, first: nat, rows: nat, lo: nat, count: nat)
    requires Times(first + rows, width) <= |data| && lo + count <= rows
    ensures Times(first + lo + count, width) <= |data| && Times(lo + count, width) <= |RowBlock(data, width, first, rows)|
    ensures RowBlock(RowBlock(data, width, first, rows), width, lo, count) == RowBlock(data, width, first + lo, count)
  {
    TimesAdd(first, rows, width);
    TimesAdd(first, lo, width);
    TimesAdd(first, lo + count, width);
    TimesAdd(first + lo, count, width);
    TimesAdd(lo, count, width);
    TimesMonotone(lo + count, rows, width);
    RangeOfRange(data, Times(first, width), Times(rows, width), Times(lo, width), Times(lo + count, width));
  }

  /** Group g of a parameter is one row block of it. */
  lemma GroupBlock<T>(data: seq<T>, groups: nat, groupRows: nat, width: nat, g: nat)
    requires g < groups && |data| == Times(Times(groups, groupRows), width)
    ensures var size := Times(groupRows, width);
      && Times(Times(g, groupRows) + groupRows, width) <= |data| && Times(g + 1, size) <= |data|
      && Range(data, Times(g, size), Times(g + 1, size)) == RowBlock(data, width, Times(g, groupRows), groupRows)
  {
    GroupInside(groups, groupRows, width, g, 0, groupRows, |data|);
    TimesTimes(g, groupRows, width);
    TimesTimes(g + 1, groupRows, width);
  }

  /** A slice of rows is the slices of the rows, one after the other. */
  lemma {:induction false} PlainRowsAreParts<T>(
    data: seq<T>, rest: seq<nat>, box: seq<Bound>, parts: seq<seq<T>>)
    requires Fits(rest, box) && Times(|parts|, Numel(rest)) <= |data|
    requires forall g: nat | g < |parts| :: PartIs(data, rest, box, parts[g], g)
    ensures PlainRows(data, rest, box, 0, |parts|) == Flatten(parts)
    decreases |parts|
  {
    if parts != [] {
      var g: nat := |parts| - 1;
      var init := parts[..g];
      assert forall h: nat | h < g :: init[h] == parts[h];
      PlainRowsAreParts(data, rest, box, init);
      assert PartIs(data, rest, box, parts[g], g);
    }
  }

  ghost predicate PartIs<T>(data: seq<T>, rest: seq<nat>, box: seq<Bound>, part: seq<T>, g: nat) {
    && Fits(rest, box) && Times(g + 1, Numel(rest)) <= |data|
    && part == PlainSlice(Range(data, Times(g, Numel(rest)), Times(g + 1, Numel(rest))), rest, box)
  }

  lemma SpanIsPart<T>(data: seq<T>, groups: nat, groupRows: nat, tail: seq<nat>, lo: nat, count: nat, g: nat)
    requires g < groups && count > 0 && lo + count <= groupRows && Positive(tail)
    requires |data| == Times(Times(groups, groupRows), Numel(tail))
    ensures PartIs(
      data, [groupRows] + tail, RowsBox(groupRows, tail, lo, count),
      GroupSpans(data, groups, groupRows, Numel(tail), lo, count)[g], g)
  {
    var width := Numel(tail);
    GroupBlock(data, groups, groupRows, width, g);
    var block := RowBlock(data, width, Times(g, groupRows), groupRows);
    BlockSlice(block, groupRows, tail, lo, count);
    BlockOfBlock(data, width, Times(g, groupRows), groupRows, lo, count);
  }

  lemma {:induction false} ZeroNumel(shape: seq<nat>)
    requires !Positive(shape)
    ensures Numel(shape) == 0
  {
    if Numel(shape[1..]) == 0 {
      ZeroTimes(shape[0]);
    } else {
      if !Positive(shape[1..]) { ZeroNumel(shape[1..]); }
      assert forall i | 0 < i < |shape| :: shape[i] == shape[1..][i - 1];
    }
  }

  lemma {:induction false} ZeroTimes(n: nat)
    ensures Times(n, 0) == 0
  {
    if n > 0 { ZeroTimes(n - 1); }
  }

  lemma SpansAreSliced<T>(data: seq<T>, groups: nat, groupRows: nat, tail: seq<nat>, lo: nat, count: nat)
    requires groups > 0 && count > 0 && lo + count <= groupRows && Positive(tail)
    requires |data| == Times(Times(groups, groupRows), Numel(tail))
    ensures Fits(BlockShape(groups, groupRows, tail), BlockBox(groups, groupRows, tail, lo, lo + count))
    ensures Numel(BlockShape(groups, groupRows, tail)) == |data|
    ensures Flatten(GroupSpans(data, groups, groupRows, Numel(tail), lo, count))
         == PlainSlice(data, BlockShape(groups, groupRows, tail), BlockBox(groups, groupRows, tail, lo, lo + count))
  {
    var rest, box := [groupRows] + tail, RowsBox(groupRows, tail, lo, count);
    var spans := GroupSpans(data, groups, groupRows, Numel(tail), lo, count);
    BlockBoxFits(groups, groupRows, tail, lo, lo + count);
    TimesTimes(groups, groupRows, Numel(tail));
    RowsBoxFits(groupRows, tail, lo, count);
    forall g: nat | g < groups ensures PartIs(data, rest, box, spans[g], g) {
      SpanIsPart(data, groups, groupRows, tail, lo, count, g);
    }
    PlainRowsAreParts(data, rest, box, spans);
    assert BlockShape(groups, groupRows, tail)[1..] == rest;
    assert BlockBox(groups, groupRows, tail, lo, lo + count)[1..] == box;
  }

  /** The tensor a projection layout stands for is what reshaping and slicing the parameter gives. */
  lemma AssembledIsSliced<T>(p: Parameter<T>, groups: nat, groupRows: nat, lo: nat, count: nat)
    requires ValidParameter(p) && p.rows == Times(groups, groupRows)
    requires groups > 0 && lo + count <= groupRows
    ensures Assembled(ProjectionLayout(p, groups, groupRows, lo, count)) == SlicedBlocks(p, groups, groupRows, lo, lo + count)
  {
    if Positive(p.tail) && count > 0 {
      SpansAreSliced(p.data, groups, groupRows, p.tail, lo, count);
    } else {
      if !Positive(p.tail) {
        ZeroNumel(p.tail);
        ZeroTimes(count);
      }
      var spans := GroupSpans(p.data, groups, groupRows, Numel(p.tail), lo, count);
      SpanSizes(p.data, groups, groupRows, Numel(p.tail), lo, count);
      SumOfEqual(Numels(spans), Times(count, Numel(p.tail)));
      ZeroTimes(groups);
      AssembledLength(spans);
    }
  }

  /**
   Whenever the materialising splitter accepts a parameter, the copy-only layouts exist
   and assemble to exactly the tensors it returns.
   */
  lemma LayoutsMatchSplit<T>(p: Parameter<T>, a: Attention, which: Projection)
    requires ValidParameter(p) && ValidAttention(a) && SplitGqaQkv(p, a, which).Ok?
    ensures BuildLayout(p, a, which).Ok?
    ensures Assembled(BuildLayout(p, a, which).value) == SplitGqaQkv(p, a, which).value
  {
    var b := SharedBlocks(p.rows, a);
    var (lo, count) := RowsOf(b, which);
    RowsInGroup(b, which);
    AssembledIsSliced(p, b.groups, GroupRows(b), lo, count);
    SplitIs(p, a, which, b, lo, count);
  }

  lemma SplitIs<T>(p: Parameter<T>, a: Attention, which: Projection, b: Blocks, lo: nat, count: nat)
    requires ValidParameter(p) && ValidAttention(a) && SplitBlocks(p.rows, a) == Ok(b) == LayoutBlocks(p.rows, a)
    requires RowsOf(b, which) == (lo, count) && lo + count <= GroupRows(b) && Tile(b, p.rows)
    ensures SplitGqaQkv(p, a, which) == Ok(SlicedBlocks(p, b.groups, GroupRows(b), lo, lo + count))
    ensures BuildLayout(p, a, which) == Ok(ProjectionLayout(p, b.groups, GroupRows(b), lo, count))
  {
  }

  lemma SharedBlocks(rows: nat, a: Attention) returns (b: Blocks)
    requires ValidAttention(a) && SplitBlocks(rows, a).Ok?
    ensures LayoutBlocks(rows, a) == Ok(b) == SplitBlocks(rows, a) && Tile(b, rows)
  {
    SplitBlocksAreLayoutBlocks(rows, a);
    b := SplitBlocks(rows, a).value;
  }

  lemma RowsInGroup(b: Blocks, which: Projection)
    ensures RowsOf(b, which).0 + RowsOf(b, which).1 <= GroupRows(b)
  {
  }

  // ---------------------------------------------------------------- what the receiver derives

  function BlockRows(a: Attention, which: Projection): nat
    requires a.numKvHeads > 0
  {
    if which == Query then QueryRows(a) else a.headDim
  }

  /** The span sizes of a q, k or v shard, from its shape alone. */
  function SpanNumels(which: Projection, shape: seq<nat>, a: Attention): Result<seq<nat>, QkvError>
    requires ValidAttention(a) && BlockRows(a, which) > 0
  {
    var blockRows := BlockRows(a, which);
    if shape == [] || shape[0] % blockRows != 0 then Err(NotAligned)
    else Ok(seq(shape[0] / blockRows, _ => Times(blockRows, Numel(shape[1..]))))
  }

  lemma ProjectionSpanSizes<T>(p: Parameter<T>, groups: nat, groupRows: nat, lo: nat, count: nat)
    requires ValidParameter(p) && p.rows == Times(groups, groupRows) && lo + count <= groupRows
    ensures Numels(ProjectionLayout(p, groups, groupRows, lo, count).spans)
         == seq(groups, _ => Times(count, Numel(p.tail)))
  {
    SpanSizes(p.data, groups, groupRows, Numel(p.tail), lo, count);
  }

  lemma SpanSizes<T>(data: seq<T>, groups: nat, groupRows: nat, width: nat, lo: nat, count: nat)
    requires |data| == Times(Times(groups, groupRows), width) && lo + count <= groupRows
    ensures Numels(GroupSpans(data, groups, groupRows, width, lo, count)) == seq(groups, _ => Times(count, width))
  {
  }

  lemma ProjectionSpans<T>(p: Parameter<T>, groups: nat, groupRows: nat, lo: nat, count: nat)
    requires ValidParameter(p) && p.rows == Times(groups, groupRows) && lo + count <= groupRows && count > 0
    ensures var layout := ProjectionLayout(p, groups, groupRows, lo, count);
      && layout.shape[0] % count == 0 && layout.shape[0] / count == groups
      && Numels(layout.spans) == seq(layout.shape[0] / count, _ => Times(count, Numel(layout.shape[1..])))
  {
    ProjectionSpanSizes(p, groups, groupRows, lo, count);
    TimesIsProduct(groups, count);
    RowsOfGroups(groups, count);
    ConsParts(Times(groups, count), p.tail);
  }

  /**
   The receiver's span sizes, from the shard's shape alone, are the sender's, so both ends
   cut the stream at the same places.
   */
  lemma SpanSizesAgree<T>(p: Parameter<T>, a: Attention, which: Projection)
    requires ValidParameter(p) && ValidAttention(a) && BuildLayout(p, a, which).Ok? && BlockRows(a, which) > 0
    ensures var layout := BuildLayout(p, a, which).value;
      SpanNumels(which, layout.shape, a) == Ok(Numels(layout.spans))
  {
    var b := LayoutBlocks(p.rows, a).value;
    ProjectionSpans(p, b.groups, GroupRows(b), RowsOf(b, which).0, RowsOf(b, which).1);
  }

  lemma {:induction false} SumOfEqual(numels: seq<nat>, n: nat)
    requires forall i | 0 <= i < |numels| :: numels[i] == n
    ensures Total(numels) == Times(|numels|, n)
  {
    if numels != [] {
      SumOfEqual(numels[..|numels| - 1], n);
      StartAgrees(numels, numels[..|numels| - 1], |numels| - 1);
    }
  }

  lemma ProjectionCovers<T>(p: Parameter<T>, groups: nat, groupRows: nat, lo: nat, count: nat)
    requires ValidParameter(p) && p.rows == Times(groups, groupRows) && lo + count <= groupRows && groups > 0
    ensures LayoutDefect(ProjectionLayout(p, groups, groupRows, lo, count)).None?
  {
    ProjectionSpanSizes(p, groups, groupRows, lo, count);
    SumOfEqual(Numels(ProjectionLayout(p, groups, groupRows, lo, count).spans), Times(count, Numel(p.tail)));
    TimesTimes(groups, count, Numel(p.tail));
    ConsParts(Times(groups, count), p.tail);
  }

  /** The layouts are well formed: their spans cover their logical shape. */
  lemma LayoutsCover<T>(p: Parameter<T>, a: Attention, which: Projection)
    requires ValidParameter(p) && ValidAttention(a) && BuildLayout(p, a, which).Ok?
    ensures LayoutDefect(BuildLayout(p, a, which).value).None?
  {
    var b := LayoutBlocks(p.rows, a).value;
    ProjectionCovers(p, b.groups, GroupRows(b), RowsOf(b, which).0, RowsOf(b, which).1);
  }
}
