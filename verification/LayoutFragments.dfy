/**
 Lowering a slice of a layout to fragments of its spans: one pass over the flat runs of
 the slice and the spans, both in ascending order.
 */
module LayoutFragments {
  import opened Basics
  import opened SequenceFacts
  import opened Sequences
  import opened TensorLayout

  // ---------------------------------------------------------------- the runs of a slice

  lemma {:induction false} NormalizeFits(shape: seq<nat>, indices: seq<Index>, k: nat)
    requires |indices| == |shape| && k <= |shape|
    ensures Normalize(shape, indices, k).Box? ==> Fits(Range(shape, k, |shape|), Normalize(shape, indices, k).bounds)
    decreases |shape| - k
  {
    if k < |shape| && Normalize(shape, indices, k).Box? {
      NormalizeFits(shape, indices, k + 1);
      var box := Normalize(shape, indices, k).bounds;
      var rest := Normalize(shape, indices, k + 1).bounds;
      var whole, tail := Range(shape, k, |shape|), Range(shape, k + 1, |shape|);
      forall i | 0 <= i < |whole|
        ensures box[i].start < box[i].stop <= whole[i]
        ensures box[i].full <==> box[i].start == 0 && box[i].stop == whole[i]
      {
        if i > 0 { assert box[i] == rest[i - 1] && whole[i] == tail[i - 1]; }
      }
    }
  }

  lemma SelectFits(shape: seq<nat>, indices: seq<Index>)
    ensures Select(shape, indices).Box? ==> Fits(shape, Select(shape, indices).bounds)
  {
    if |indices| == |shape| {
      NormalizeFits(shape, indices, 0);
      RangeAll(shape);
    }
  }

  function FlatRuns(shape: seq<nat>, indices: seq<Index>): Result<seq<Run>, LayoutError> {
    SelectFits(shape, indices);
    match Select(shape, indices)
    case Bad(e) => Err(e)
    case Nothing => Ok([])
    case Box(box) => Ok(BoxRuns(shape, box))
  }

  function Prepended(box: seq<Bound>, rest: Selection): Selection {
    match rest
    case Bad(e) => Bad(e)
    case Nothing => Nothing
    case Box(more) => Box(box + more)
  }

  lemma PrependedStep(box: seq<Bound>, b: Bound, rest: Selection)
    ensures Prepended(box, Prepended([b], rest)) == Prepended(box + [b], rest)
  {
    if rest.Box? { Associate(box, [b], rest.bounds); }
  }

  method NormalizeIndices(shape: seq<nat>, indices: seq<Index>) returns (selection: Selection)
    requires |indices| == |shape|
    ensures selection == Normalize(shape, indices, 0)
  {
    var normalized: seq<Bound> := [];
    if Normalize(shape, indices, 0).Box? { EmptyPrefix(Normalize(shape, indices, 0).bounds); }
    for k := 0 to |shape|
      invariant Normalize(shape, indices, 0) == Prepended(normalized, Normalize(shape, indices, k))
    {
      var dim, item := shape[k], indices[k];
      if item.Other? {
        return Bad(NotASlice);
      }
      var start, stop := Clamp(item.start, 0, dim), Clamp(item.stop, dim, dim);
      if item.step.Some? && item.step.value != 1 {
        return Bad(NotUnitStride);
      }
      if stop <= start {
        return Nothing;
      }
      var bound := Bound(start, stop, start == 0 && stop == dim);
      assert Normalize(shape, indices, k) == Prepended([bound], Normalize(shape, indices, k + 1));
      PrependedStep(normalized, bound, Normalize(shape, indices, k + 1));
      normalized := normalized + [bound];
    }
    EmptySuffix(normalized);
    return Box(normalized);
  }

  method FindLastPartial(box: seq<Bound>) returns (lastPartial: Option<nat>)
    ensures lastPartial == LastPartial(box)
  {
    lastPartial := None;
    for index := 0 to |box|
      invariant lastPartial == LastPartial(box[..index])
    {
      TakeInit(box, index);
      if !box[index].full {
        lastPartial := Some(index);
      }
    }
    TakeAll(box);
  }

  lemma StridesNext(shape: seq<nat>, k: nat)
    requires k < |shape|
    ensures Strides(Range(shape, k, |shape|))
         == [Numel(Range(shape, k + 1, |shape|))] + Strides(Range(shape, k + 1, |shape|))
    ensures Numel(Range(shape, k, |shape|)) == Times(shape[k], Numel(Range(shape, k + 1, |shape|)))
  {
    assert Range(shape, k, |shape|)[1..] == Range(shape, k + 1, |shape|);
  }

  /** Strides from the last dimension to the first. */
  method ComputeStrides(shape: seq<nat>) returns (strides: seq<nat>)
    ensures strides == Strides(shape)
  {
    strides := [];
    var stride := 1;
    for k := |shape| downto 0
      invariant stride == Numel(Range(shape, k, |shape|))
      invariant strides == Strides(Range(shape, k, |shape|))
    {
      StridesNext(shape, k);
      TimesIsProduct(shape[k], stride);
      strides := [stride] + strides;
      stride := stride * shape[k];
    }
    RangeAll(shape);
  }

  lemma {:induction false} OffsetNext(prefix: seq<nat>, strides: seq<nat>, d: nat)
    requires d < |prefix| <= |strides|
    ensures Offset(prefix[..d + 1], strides) == Offset(prefix[..d], strides) + Times(prefix[d], strides[d])
  {
    if d > 0 {
      OffsetNext(prefix[1..], strides[1..], d - 1);
      assert prefix[..d + 1][1..] == prefix[1..][..d] && prefix[..d][1..] == prefix[1..][..d - 1];
    }
  }

  method FlatStart(prefix: seq<nat>, strides: seq<nat>) returns (start: nat)
    requires |prefix| <= |strides|
    ensures start == Offset(prefix, strides)
  {
    start := 0;
    for dim := 0 to |prefix|
      invariant start == Offset(prefix[..dim], strides)
    {
      OffsetNext(prefix, strides, dim);
      TimesIsProduct(prefix[dim], strides[dim]);
      start := start + prefix[dim] * strides[dim];
    }
    TakeAll(prefix);
  }

  lemma {:induction false} ProductLengths(box: seq<Bound>)
    ensures forall i | 0 <= i < |Product(box)| :: |Product(box)[i]| == |box|
    decreases |box|, 0
  {
    if box != [] {
      ProductLengths(box[1..]);
      RowLengths(Product(box[1..]), |box| - 1, box[0].start, box[0].stop);
    }
  }

  lemma {:induction false} RowLengths(rest: seq<seq<nat>>, n: nat, lo: nat, hi: nat)
    requires forall i | 0 <= i < |rest| :: |rest[i]| == n
    ensures forall i | 0 <= i < |ProductRows(rest, lo, hi)| :: |ProductRows(rest, lo, hi)[i]| == n + 1
  {
    if lo < hi { RowLengths(rest, n, lo, hi - 1); }
  }

  method EnumerateRuns(prefix: seq<Bound>, strides: seq<nat>, start: nat, stop: nat, stride: nat)
    returns (runs: seq<Run>)
    requires start <= stop && |prefix| <= |strides|
    ensures runs == RunsFrom(prefix, strides, start, stop, stride)
  {
    TimesIsProduct(start, stride);
    TimesIsProduct(stop - start, stride);
    ProductLengths(prefix);
    var prefixes := Product(prefix);
    var runLength := (stop - start) * stride;
    runs := [];
    for i := 0 to |prefixes|
      invariant |runs| == i
      invariant forall j | 0 <= j < i :: runs[j] == Run(Offset(prefixes[j], strides) + Times(start, stride), runLength)
    {
      var flatStart := FlatStart(prefixes[i], strides);
      runs := runs + [Run(flatStart + start * stride, runLength)];
    }
  }

  /** Lowers a unit-stride rectangular slice to row-major flat runs. */
  method SelectedFlatRuns(shape: seq<nat>, indices: seq<Index>) returns (r: Result<seq<Run>, LayoutError>)
    ensures r == FlatRuns(shape, indices)
  {
    if |indices| != |shape| {
      return Err(WrongRank);
    }
    var selection := NormalizeIndices(shape, indices);
    SelectFits(shape, indices);
    match selection {
      case Bad(e) => return Err(e);
      case Nothing => return Ok([]);
      case Box(box) =>
        var lastPartial := FindLastPartial(box);
        if lastPartial.None? {
          return Ok([Run(0, Numel(shape))]);
        }
        var p := lastPartial.value;
        LastPartialInside(box);
        var strides := ComputeStrides(shape);
        var runs := EnumerateRuns(box[..p], strides, box[p].start, box[p].stop, strides[p]);
        return Ok(runs);
    }
  }

  // ---------------------------------------------------------------- spans and fragments

  /** A non-empty piece of one span. */
  datatype Fragment = Fragment(span: nat, offset: nat, length: nat)

  /** Where span i starts in the assembled tensor. */
  function Start(numels: seq<nat>, i: nat): nat
    requires i <= |numels|
    decreases i
  {
    if i == 0 then 0 else Start(numels, i - 1) + numels[i - 1]
  }

  function Total(numels: seq<nat>): nat {
    Start(numels, |numels|)
  }

  lemma {:induction false} StartAgrees(a: seq<nat>, b: seq<nat>, i: nat)
    requires i <= |a| && i <= |b| && forall j | 0 <= j < i :: a[j] == b[j]
    ensures Start(a, i) == Start(b, i)
  {
    if i > 0 { StartAgrees(a, b, i - 1); }
  }

  /** The positions in the assembled tensor that fragments cover, in order. */
  function Covered(numels: seq<nat>, fragments: seq<Fragment>): seq<nat>
    requires InSpans(numels, fragments)
  {
    if fragments == [] then []
    else
      var f := fragments[|fragments| - 1];
      Covered(numels, fragments[..|fragments| - 1]) + Iota(Start(numels, f.span) + f.offset, f.length)
  }

  /** No fragment is empty or crosses the end of its span. */
  ghost predicate InSpans(numels: seq<nat>, fragments: seq<Fragment>) {
    fragments == []
    || (InSpan(numels, fragments[|fragments| - 1]) && InSpans(numels, fragments[..|fragments| - 1]))
  }

  ghost predicate InSpan(numels: seq<nat>, f: Fragment) {
    f.span < |numels| && f.length > 0 && f.offset + f.length <= numels[f.span]
  }

  /** These fragments cover these positions. */
  ghost predicate Covers(numels: seq<nat>, fragments: seq<Fragment>, positions: seq<nat>) {
    InSpans(numels, fragments) && Covered(numels, fragments) == positions
  }

  lemma CoversSnoc(numels: seq<nat>, fragments: seq<Fragment>, positions: seq<nat>, f: Fragment)
    requires Covers(numels, fragments, positions) && InSpan(numels, f)
    ensures Covers(numels, fragments + [f], positions + Iota(Start(numels, f.span) + f.offset, f.length))
  {
    SnocParts(fragments, f);
  }

  method SpanBounds(numels: seq<nat>) returns (bounds: seq<(nat, nat)>)
    ensures AreBounds(numels, bounds)
  {
    bounds := [];
    var start: nat := 0;
    for i := 0 to |numels|
      invariant |bounds| == i && start == Start(numels, i)
      invariant forall j | 0 <= j < i :: bounds[j] == (Start(numels, j), Start(numels, j + 1))
    {
      var bound: (nat, nat) := (start, start + numels[i]);
      bounds := bounds + [bound];
      start := start + numels[i];
    }
  }

  /** These fragments and the part of [lo, hi) that falls on span i. */
  function WithPiece(before: seq<Fragment>, numels: seq<nat>, i: nat, lo: nat, hi: nat): seq<Fragment>
    requires i < |numels|
  {
    var start := Start(numels, i);
    var b, e := Max(lo, start), Min(hi, start + numels[i]);
    if b < e then before + [Fragment(i, b - start, e - b)] else before
  }

  /** The parts of [lo, hi) that fall on the spans below k, in span order. */
  function CutRange(numels: seq<nat>, k: nat, lo: nat, hi: nat): seq<Fragment>
    requires k <= |numels|
  {
    if k == 0 then [] else WithPiece(CutRange(numels, k - 1, lo, hi), numels, k - 1, lo, hi)
  }

  function CutAll(numels: seq<nat>, runs: seq<Run>): seq<Fragment> {
    if runs == [] then []
    else
      var last := runs[|runs| - 1];
      CutAll(numels, runs[..|runs| - 1]) + CutRange(numels, |numels|, last.start, last.start + last.length)
  }

  lemma {:induction false} StartMonotone(numels: seq<nat>, i: nat, j: nat)
    requires i <= j <= |numels|
    ensures Start(numels, i) <= Start(numels, j)
  {
    if i < j { StartMonotone(numels, i, j - 1); }
  }

  lemma {:induction false} NothingToCut(numels: seq<nat>, k: nat, lo: nat)
    requires k <= |numels|
    ensures CutRange(numels, k, lo, lo) == []
  {
    if k > 0 { NothingToCut(numels, k - 1, lo); }
  }

  /** Reaching further inside span at, from its start or from the start of the range, adds one fragment. */
  lemma {:induction false} RangeGrows(numels: seq<nat>, k: nat, lo: nat, cur: nat, end: nat, at: nat, f: Fragment)
    requires k <= |numels| && at < |numels| && lo <= cur < end <= Start(numels, at + 1)
    requires Start(numels, at) <= cur && (cur == lo || cur == Start(numels, at))
    requires f == Fragment(at, cur - Start(numels, at), end - cur)
    ensures CutRange(numels, k, lo, end)
         == if at < k then CutRange(numels, k, lo, cur) + [f] else CutRange(numels, k, lo, cur)
    decreases k
  {
    if k > 0 {
      RangeGrows(numels, k - 1, lo, cur, end, at, f);
      SpanGrows(CutRange(numels, k - 1, lo, cur), numels, k - 1, lo, cur, end, at, f);
      if at < k - 1 { SpanGrows(CutRange(numels, k - 1, lo, end), numels, k - 1, lo, cur, end, at, f); }
    }
  }

  lemma SpanGrows(
    before: seq<Fragment>, numels: seq<nat>, i: nat, lo: nat, cur: nat, end: nat, at: nat, f: Fragment)
    requires i < |numels| && at < |numels| && lo <= cur < end <= Start(numels, at + 1)
    requires Start(numels, at) <= cur && (cur == lo || cur == Start(numels, at))
    requires f == Fragment(at, cur - Start(numels, at), end - cur)
    ensures i == at ==> WithPiece(before, numels, i, lo, cur) == before && WithPiece(before, numels, i, lo, end) == before + [f]
    ensures i < at ==> WithPiece(before, numels, i, lo, end) == WithPiece(before, numels, i, lo, cur)
    ensures i > at ==> WithPiece(before, numels, i, lo, cur) == before && WithPiece(before, numels, i, lo, end) == before
  {
    if i < at { StartMonotone(numels, i + 1, at); }
    if i > at { StartMonotone(numels, at + 1, i); }
  }

  lemma {:induction false} CoversConcat(
    numels: seq<nat>, a: seq<Fragment>, p: seq<nat>, b: seq<Fragment>, q: seq<nat>)
    requires Covers(numels, a, p) && Covers(numels, b, q)
    ensures Covers(numels, a + b, p + q)
    decreases |b|
  {
    if b == [] {
      EmptySuffix(a);
      EmptySuffix(p);
    } else {
      var init, f := b[..|b| - 1], b[|b| - 1];
      CoversConcat(numels, a, p, init, Covered(numels, init));
      SnocOf(b);
      CoversMore(numels, a, p, init, Covered(numels, init), f, Iota(Start(numels, f.span) + f.offset, f.length));
    }
  }

  lemma CoversMore(
    numels: seq<nat>, a: seq<Fragment>, p: seq<nat>, b: seq<Fragment>, q: seq<nat>, f: Fragment, last: seq<nat>)
    requires Covers(numels, a + b, p + q) && InSpan(numels, f)
    requires last == Iota(Start(numels, f.span) + f.offset, f.length)
    ensures Covers(numels, a + (b + [f]), p + (q + last))
  {
    CoversSnoc(numels, a + b, p + q, f);
    Associate(a, b, [f]);
    Associate(p, q, last);
  }

  /** How far the part of [lo, hi) below at reaches. */
  function Reach(lo: nat, hi: nat, at: nat): nat {
    Max(lo, Min(hi, at))
  }

  /** What a span that meets the range adds to the cut. */
  lemma PieceOn(before: seq<Fragment>, numels: seq<nat>, i: nat, lo: nat, hi: nat, b: nat, e: nat) returns (f: Fragment)
    requires i < |numels| && b == Max(lo, Start(numels, i)) && e == Min(hi, Start(numels, i) + numels[i]) && b < e
    ensures WithPiece(before, numels, i, lo, hi) == before + [f] && InSpan(numels, f)
    ensures Start(numels, f.span) + f.offset == b && b + f.length == e
  {
    f := Fragment(i, b - Start(numels, i), e - b);
  }

  /** What the next span adds to the part of a range that is reached. */
  lemma ReachNext(lo: nat, hi: nat, at: nat, next: nat)
    requires at <= next
    ensures var b, e := Max(lo, at), Min(hi, next);
      if b < e then Reach(lo, hi, at) == b && Reach(lo, hi, next) == e else Reach(lo, hi, at) == Reach(lo, hi, next)
  {
  }

  /** Cutting a range at the spans below k covers the part of it below the start of span k. */
  lemma {:induction false} RangeCovers(numels: seq<nat>, k: nat, lo: nat, hi: nat)
    returns (cut: seq<Fragment>, positions: seq<nat>)
    requires k <= |numels|
    ensures cut == CutRange(numels, k, lo, hi) && positions == Iota(lo, Reach(lo, hi, Start(numels, k)) - lo)
    ensures Covers(numels, cut, positions)
  {
    cut, positions := [], [];
    if k > 0 {
      var before, reached := RangeCovers(numels, k - 1, lo, hi);
      cut, positions := NextCovers(numels, k - 1, lo, hi, before, reached, Start(numels, k - 1), Start(numels, k));
    }
  }

  lemma NextCovers(
    numels: seq<nat>, i: nat, lo: nat, hi: nat, before: seq<Fragment>, reached: seq<nat>, at: nat, next: nat)
    returns (cut: seq<Fragment>, positions: seq<nat>)
    requires i < |numels| && at == Start(numels, i) && next == at + numels[i]
    requires Covers(numels, before, reached) && reached == Iota(lo, Reach(lo, hi, at) - lo)
    ensures cut == WithPiece(before, numels, i, lo, hi) && positions == Iota(lo, Reach(lo, hi, next) - lo)
    ensures Covers(numels, cut, positions)
  {
    ReachNext(lo, hi, at, next);
    var b, e := Max(lo, at), Min(hi, next);
    if b < e {
      var f := PieceOn(before, numels, i, lo, hi, b, e);
      cut, positions := CoverOn(numels, before, reached, lo, b, e, f);
    } else {
      cut, positions := before, reached;
    }
  }

  lemma CoverOn(
    numels: seq<nat>, fragments: seq<Fragment>, reached: seq<nat>, lo: nat, mid: nat, end: nat, f: Fragment)
    returns (cut: seq<Fragment>, positions: seq<nat>)
    requires lo <= mid && Covers(numels, fragments, reached) && reached == Iota(lo, mid - lo)
    requires InSpan(numels, f) && Start(numels, f.span) + f.offset == mid && mid + f.length == end
    ensures cut == fragments + [f] && positions == Iota(lo, end - lo) && Covers(numels, cut, positions)
  {
    cut, positions := fragments + [f], Iota(lo, end - lo);
    CoversSnoc(numels, fragments, reached, f);
    IotaJoin(lo, mid - lo, mid, f.length, end - lo);
  }

  lemma RunCovers(numels: seq<nat>, run: Run) returns (cut: seq<Fragment>)
    requires run.length > 0 && run.start + run.length <= Total(numels)
    ensures cut == CutRange(numels, |numels|, run.start, run.start + run.length)
    ensures Covers(numels, cut, Iota(run.start, run.length))
  {
    var positions;
    cut, positions := RangeCovers(numels, |numels|, run.start, run.start + run.length);
  }

  /** Cutting ascending runs covers exactly their positions, in order. */
  lemma {:induction false} CutAllCovers(numels: seq<nat>, runs: seq<Run>, hi: nat)
    requires Ordered(runs, 0, hi) && hi <= Total(numels)
    ensures Covers(numels, CutAll(numels, runs), Expand(runs))
  {
    if runs != [] {
      var init, last := runs[..|runs| - 1], runs[|runs| - 1];
      CutAllCovers(numels, init, last.start);
      var cut := RunCovers(numels, last);
      CoversConcat(numels, CutAll(numels, init), Expand(init), cut, Iota(last.start, last.length));
    }
  }

  /** A span that ends inside the tensor has a next one, which is not empty. */
  lemma NextSpan(numels: seq<nat>, span: nat)
    requires span < |numels| && Start(numels, span + 1) < Total(numels)
    requires forall i | 0 <= i < |numels| :: numels[i] > 0
    ensures span + 1 < |numels| && Start(numels, span + 1) < Start(numels, span + 2)
  {
  }

  /** Each span's start and the start of the next. */
  ghost predicate AreBounds(numels: seq<nat>, bounds: seq<(nat, nat)>) {
    |bounds| == |numels| && forall i | 0 <= i < |numels| :: bounds[i] == (Start(numels, i), Start(numels, i + 1))
  }

  ghost predicate AllPositive(numels: seq<nat>) {
    forall i | 0 <= i < |numels| :: numels[i] > 0
  }

  /** A run cut up to a position: the pieces so far, and the span where the next piece starts. */
  ghost predicate Cutting(
    numels: seq<nat>, start: nat, runEnd: nat, current: nat, span: nat, at: nat, next: nat, pieces: seq<Fragment>) {
    && start <= current <= runEnd <= Total(numels) && span < |numels|
    && at == Start(numels, span) <= current && next == Start(numels, span + 1)
    && (current < runEnd ==> current < next && (current == start || current == at))
    && pieces == CutRange(numels, |numels|, start, current)
  }

  /** The next piece ends the run, and the span at hand stays, or ends its span, and the next one is at hand. */
  lemma CutStep(
    numels: seq<nat>, start: nat, runEnd: nat, current: nat, span: nat, at: nat, next: nat, pieces: seq<Fragment>,
    end: nat, more: seq<Fragment>)
    returns (after: nat, first: nat, last: nat)
    requires AllPositive(numels) && Cutting(numels, start, runEnd, current, span, at, next, pieces) && current < runEnd
    requires end == Min(runEnd, next) && more == pieces + [Fragment(span, current - at, end - current)]
    ensures after == (if end == next < runEnd then span + 1 else span) && after < |numels|
    ensures first == Start(numels, after) && last == Start(numels, after + 1) && current < end
    ensures Cutting(numels, start, runEnd, end, after, first, last, more)
  {
    RangeGrows(numels, |numels|, start, current, end, span, Fragment(span, current - at, end - current));
    if end == next < runEnd {
      NextSpan(numels, span);
      after, first, last := span + 1, next, Start(numels, span + 2);
    } else {
      after, first, last := span, at, next;
    }
  }

  /** The span that holds a position, looking from the span at hand. */
  method SkipSpans(numels: seq<nat>, bounds: seq<(nat, nat)>, position: nat, spanIndex: nat) returns (span: nat)
    requires AreBounds(numels, bounds)
    requires spanIndex < |numels| && Start(numels, spanIndex) <= position < Total(numels)
    ensures span < |numels| && Start(numels, span) <= position < Start(numels, span + 1)
  {
    span := spanIndex;
    while bounds[span].1 <= position
      invariant span < |numels| && Start(numels, span) <= position
      decreases |numels| - span
    {
      span := span + 1;
    }
  }

  /** Cuts one run at the span boundaries. */
  method CutRun(numels: seq<nat>, bounds: seq<(nat, nat)>, run: Run, spanIndex: nat)
    returns (pieces: seq<Fragment>, currentSpan: nat)
    requires AreBounds(numels, bounds) && AllPositive(numels)
    requires run.length > 0 && run.start + run.length <= Total(numels)
    requires spanIndex < |numels| && Start(numels, spanIndex) <= run.start
    ensures pieces == CutRange(numels, |numels|, run.start, run.start + run.length)
    ensures currentSpan < |numels| && Start(numels, currentSpan) <= run.start + run.length
  {
    currentSpan := SkipSpans(numels, bounds, run.start, spanIndex);
    var runEnd := run.start + run.length;
    var current := run.start;
    pieces := [];
    NothingToCut(numels, |numels|, run.start);
    ghost var at, next := Start(numels, currentSpan), Start(numels, currentSpan + 1);
    while current < runEnd
      invariant currentSpan < |bounds| && bounds[currentSpan] == (at, next)
      invariant Cutting(numels, run.start, runEnd, current, currentSpan, at, next, pieces)
      decreases runEnd - current
    {
      var (spanStart, spanEnd) := bounds[currentSpan];
      var fragmentEnd := Min(runEnd, spanEnd);
      var more := pieces + [Fragment(currentSpan, current - spanStart, fragmentEnd - current)];
      ghost var after, first, last := CutStep(
        numels, run.start, runEnd, current, currentSpan, spanStart, spanEnd, pieces, fragmentEnd, more);
      pieces, current := more, fragmentEnd;
      if current == spanEnd && current < runEnd {
        currentSpan := currentSpan + 1;
      }
      at, next := first, last;
      assert currentSpan == after;
    }
  }

  lemma {:induction false} OrderedPrefix(runs: seq<Run>, lo: nat, hi: nat, k: nat)
    requires Ordered(runs, lo, hi) && k < |runs|
    ensures Ordered(runs[..k], lo, runs[k].start)
    ensures runs[k].length > 0 && runs[k].start + runs[k].length <= hi
    decreases |runs|
  {
    var init, last := runs[..|runs| - 1], runs[|runs| - 1];
    if k < |runs| - 1 {
      OrderedPrefix(init, lo, last.start, k);
      assert init[..k] == runs[..k];
    }
  }

  /** The end of the k-th run, or 0 before the first. */
  function EndOf(runs: seq<Run>, k: nat): nat
    requires k <= |runs|
  {
    if k == 0 then 0 else runs[k - 1].start + runs[k - 1].length
  }

  lemma OrderedNext(runs: seq<Run>, hi: nat, k: nat)
    requires Ordered(runs, 0, hi) && k < |runs|
    ensures EndOf(runs, k) <= runs[k].start
  {
    OrderedPrefix(runs, 0, hi, k);
    if k > 0 { assert runs[..k][|runs[..k]| - 1] == runs[k - 1]; }
  }

  method CutRuns(numels: seq<nat>, runs: seq<Run>) returns (fragments: seq<Fragment>)
    requires numels != [] && forall i | 0 <= i < |numels| :: numels[i] > 0
    requires Ordered(runs, 0, Total(numels))
    ensures fragments == CutAll(numels, runs)
  {
    var bounds := SpanBounds(numels);
    fragments := [];
    var spanIndex: nat := 0;
    for k := 0 to |runs|
      invariant spanIndex < |numels| && Start(numels, spanIndex) <= EndOf(runs, k)
      invariant fragments == CutAll(numels, runs[..k])
    {
      OrderedPrefix(runs, 0, Total(numels), k);
      OrderedNext(runs, Total(numels), k);
      TakeInit(runs, k);
      var pieces, currentSpan := CutRun(numels, bounds, runs[k], spanIndex);
      fragments, spanIndex := fragments + pieces, currentSpan;
    }
    TakeAll(runs);
  }

  /** The defect of spans that cannot carry a layout of this shape, if any. */
  function SpansDefect(shape: seq<nat>, numels: seq<nat>): Option<LayoutError> {
    if exists i | 0 <= i < |numels| :: numels[i] == 0 then Some(EmptySpan)
    else if Total(numels) != Numel(shape) then Some(NotCovering)
    else None
  }

  /** The fragments of a slice, as a function of its arguments alone. */
  function SlicedFragments(shape: seq<nat>, indices: seq<Index>, numels: seq<nat>): Result<seq<Fragment>, LayoutError> {
    if SpansDefect(shape, numels).Some? then Err(SpansDefect(shape, numels).value)
    else
      match FlatRuns(shape, indices)
      case Err(e) => Err(e)
      case Ok(runs) => Ok(CutAll(numels, runs))
  }

  /** These fragments cover exactly the selected positions, in row-major order; bad indices are reported. */
  ghost predicate FragmentsOfSlice(
    shape: seq<nat>, indices: seq<Index>, numels: seq<nat>, r: Result<seq<Fragment>, LayoutError>) {
    match Select(shape, indices)
    case Bad(e) => r == Err(e)
    case Nothing => r == Ok([])
    case Box(box) => r.Ok? && |box| == |shape| && Covers(numels, r.value, Selected(shape, box, 0))
  }

  /** The fragments of a slice, or why there are none: bad spans first, then bad indices. */
  method SliceLayoutFragments(shape: seq<nat>, indices: seq<Index>, numels: seq<nat>)
    returns (r: Result<seq<Fragment>, LayoutError>)
    ensures r == SlicedFragments(shape, indices, numels)
    ensures SpansDefect(shape, numels).Some? ==> r == Err(SpansDefect(shape, numels).value)
    ensures SpansDefect(shape, numels).None? ==> FragmentsOfSlice(shape, indices, numels, r)
  {
    if SpansDefect(shape, numels).Some? {
      return Err(SpansDefect(shape, numels).value);
    }
    var runs := SelectedFlatRuns(shape, indices);
    if runs.Err? {
      return Err(runs.error);
    }
    SelectFits(shape, indices);
    if runs.value == [] {
      if Select(shape, indices).Box? {
        BoxRunsSelect(shape, Select(shape, indices).bounds);
      }
      return Ok([]);
    }
    var box := Select(shape, indices).bounds;
    BoxRunsSelect(shape, box);
    OrderedBelow(runs.value, Numel(shape));
    CutAllCovers(numels, runs.value, Numel(shape));
    var fragments := CutRuns(numels, runs.value);
    return Ok(fragments);
  }

  lemma OrderedBelow(runs: seq<Run>, hi: nat)
    requires Ordered(runs, 0, hi) && runs != []
    ensures hi > 0
  {
  }

  // ---------------------------------------------------------------- gathering the elements

  function Numels<T>(spans: seq<seq<T>>): seq<nat> {
    seq(|spans|, i requires 0 <= i < |spans| => |spans[i]|)
  }

  /** The pieces of the spans that fragments name. */
  function Pieces<T>(spans: seq<seq<T>>, fragments: seq<Fragment>): (r: seq<seq<T>>)
    requires InSpans(Numels(spans), fragments)
    ensures |r| == |fragments|
  {
    if fragments == [] then []
    else
      var f := fragments[|fragments| - 1];
      Pieces(spans, fragments[..|fragments| - 1]) + [Range(spans[f.span], f.offset, f.offset + f.length)]
  }

  lemma {:induction false} PiecesNonEmpty<T>(spans: seq<seq<T>>, fragments: seq<Fragment>)
    requires InSpans(Numels(spans), fragments)
    ensures forall i | 0 <= i < |fragments| :: Pieces(spans, fragments)[i] != []
  {
    if fragments != [] { PiecesNonEmpty(spans, fragments[..|fragments| - 1]); }
  }

  lemma {:induction false} AssembledLength<T>(spans: seq<seq<T>>)
    ensures |Flatten(spans)| == Total(Numels(spans))
  {
    if spans != [] {
      AssembledLength(spans[..|spans| - 1]);
      StartAgrees(Numels(spans), Numels(spans[..|spans| - 1]), |spans| - 1);
    }
  }

  lemma {:induction false} SpanInside<T>(spans: seq<seq<T>>, i: nat)
    requires i < |spans|
    ensures Start(Numels(spans), i) + |spans[i]| <= |Flatten(spans)|
    ensures Range(Flatten(spans), Start(Numels(spans), i), Start(Numels(spans), i) + |spans[i]|) == spans[i]
  {
    var init := spans[..|spans| - 1];
    AssembledLength(init);
    StartAgrees(Numels(spans), Numels(init), i);
    if i < |init| {
      SpanInside(init, i);
      RangeOfAppend(Flatten(init), spans[|init|], Start(Numels(init), i), |spans[i]|);
    } else {
      TailOfAppend(Flatten(init), spans[|init|]);
    }
  }

  lemma RangeOfAppend<T>(a: seq<T>, b: seq<T>, lo: nat, n: nat)
    requires lo + n <= |a|
    ensures Range(a + b, lo, lo + n) == Range(a, lo, lo + n)
  {
  }

  lemma TailOfAppend<T>(a: seq<T>, b: seq<T>)
    ensures Range(a + b, |a|, |a| + |b|) == b
  {
  }

  lemma PieceIsRange<T>(spans: seq<seq<T>>, f: Fragment)
    requires InSpan(Numels(spans), f)
    ensures var at := Start(Numels(spans), f.span) + f.offset;
      at + f.length <= |Flatten(spans)|
      && Range(spans[f.span], f.offset, f.offset + f.length) == Range(Flatten(spans), at, at + f.length)
  {
    SpanInside(spans, f.span);
    RangeOfRange(
      Flatten(spans), Start(Numels(spans), f.span), |spans[f.span]|, f.offset, f.offset + f.length);
  }

  lemma PickIota<T>(data: seq<T>, at: nat, n: nat)
    requires at + n <= |data|
    ensures forall p <- Iota(at, n) :: p < |data|
    ensures Pick(data, Iota(at, n)) == Range(data, at, at + n)
  {
  }

  /** The pieces of fragments, one after the other, are the elements at the positions they cover. */
  lemma {:induction false} PiecesArePicked<T>(spans: seq<seq<T>>, fragments: seq<Fragment>)
    requires InSpans(Numels(spans), fragments)
    ensures forall p <- Covered(Numels(spans), fragments) :: p < |Flatten(spans)|
    ensures Flatten(Pieces(spans, fragments)) == Pick(Flatten(spans), Covered(Numels(spans), fragments))
  {
    if fragments != [] {
      var init, f := fragments[..|fragments| - 1], fragments[|fragments| - 1];
      var numels, data := Numels(spans), Flatten(spans);
      PiecesArePicked(spans, init);
      PieceIsRange(spans, f);
      var at := Start(numels, f.span) + f.offset;
      PickIota(data, at, f.length);
      PickAppend(data, Covered(numels, init), Iota(at, f.length));
      FlattenSnoc(Pieces(spans, init), Range(spans[f.span], f.offset, f.offset + f.length));
    }
  }

  // ---------------------------------------------------------------- the layout object

  /** A logical row-major tensor assembled from contiguous source views. */
  datatype StaticTensorLayout<T> = StaticTensorLayout(shape: seq<nat>, spans: seq<seq<T>>)

  function LayoutDefect<T>(layout: StaticTensorLayout<T>): Option<LayoutError> {
    if layout.spans == [] then Some(NoSpans)
    else if Total(Numels(layout.spans)) != Numel(layout.shape) then Some(NotCovering)
    else None
  }

  /** The tensor that a layout stands for, flattened. */
  function Assembled<T>(layout: StaticTensorLayout<T>): seq<T> {
    Flatten(layout.spans)
  }

  lemma PiecesAreSlice<T>(layout: StaticTensorLayout<T>, box: seq<Bound>, fragments: seq<Fragment>)
    requires LayoutDefect(layout).None? && Fits(layout.shape, box)
    requires Covers(Numels(layout.spans), fragments, Selected(layout.shape, box, 0))
    ensures |Assembled(layout)| == Numel(layout.shape)
    ensures Flatten(Pieces(layout.spans, fragments)) == PlainSlice(Assembled(layout), layout.shape, box)
    ensures forall i | 0 <= i < |fragments| :: Pieces(layout.spans, fragments)[i] != []
  {
    AssembledLength(layout.spans);
    PiecesArePicked(layout.spans, fragments);
    RangeAll(Assembled(layout));
    PlainIsPicked(Assembled(layout), Assembled(layout), layout.shape, box, 0);
    PiecesNonEmpty(layout.spans, fragments);
  }

  /** These views, in order, are the plain slice of the assembled tensor; bad indices are reported. */
  ghost predicate ViewsOfSlice<T>(
    layout: StaticTensorLayout<T>, indices: seq<Index>, r: Result<seq<seq<T>>, LayoutError>) {
    match Select(layout.shape, indices)
    case Bad(e) => r == Err(e)
    case Nothing => r == Ok([])
    case Box(box) =>
      && r.Ok? && Fits(layout.shape, box) && |Assembled(layout)| == Numel(layout.shape)
      && Flatten(r.value) == PlainSlice(Assembled(layout), layout.shape, box)
      && forall i | 0 <= i < |r.value| :: r.value[i] != []
  }

  /**
   Slicing a layout: the returned views, in order, hold exactly the elements of the
   rectangular slice of the assembled tensor in row-major order.
   */
  method SliceLayout<T>(layout: StaticTensorLayout<T>, indices: seq<Index>) returns (r: Result<seq<seq<T>>, LayoutError>)
    requires LayoutDefect(layout).None?
    ensures (exists i | 0 <= i < |layout.spans| :: layout.spans[i] == []) ==> r == Err(EmptySpan)
    ensures (forall i | 0 <= i < |layout.spans| :: layout.spans[i] != []) ==> ViewsOfSlice(layout, indices, r)
  {
    var numels := Numels(layout.spans);
    assert forall i | 0 <= i < |numels| :: numels[i] == 0 <==> layout.spans[i] == [];
    var fragments := SliceLayoutFragments(layout.shape, indices, numels);
    if fragments.Err? {
      return Err(fragments.error);
    }
    if Select(layout.shape, indices).Box? {
      SelectFits(layout.shape, indices);
      PiecesAreSlice(layout, Select(layout.shape, indices).bounds, fragments.value);
    }
    return Ok(Pieces(layout.spans, fragments.value));
  }
}
