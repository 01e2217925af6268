/**
 Copy-only tensor layouts: a logical row-major tensor assembled from contiguous source
 spans, and the fragments of those spans that a rectangular slice of it selects.
 */
module TensorLayout {
  import opened Basics
  import opened SequenceFacts
  import opened Sequences

  // ---------------------------------------------------------------- slices

  /** An index expression along one dimension: a slice, or something else. */
  datatype Index = Slice(start: Option<int>, stop: Option<int>, step: Option<int>) | Other

  datatype LayoutError = WrongRank | NotASlice | NotUnitStride | EmptySpan | NotCovering | NoSpans

  /** One dimension of a box. */
  datatype Bound = Bound(start: nat, stop: nat, full: bool)

  /** The outcome of normalising slices: an error, an empty selection, or a non-empty box. */
  datatype Selection = Bad(error: LayoutError) | Nothing | Box(bounds: seq<Bound>)

  function Clamp(position: Option<int>, default: nat, dim: nat): nat
    requires default <= dim
  {
    match position
    case None => default
    case Some(p) => if p < 0 then (if p + dim < 0 then 0 else p + dim) else if p > dim then dim else p
  }

  /** The slice along one dimension of extent dim. */
  function Along(dim: nat, index: Index): Selection {
    if index.Other? then Bad(NotASlice)
    else if index.step.Some? && index.step.value != 1 then Bad(NotUnitStride)
    else
      var start, stop := Clamp(index.start, 0, dim), Clamp(index.stop, dim, dim);
      if stop <= start then Nothing else Box([Bound(start, stop, start == 0 && stop == dim)])
  }

  /** The dimensions from k on. An empty dimension ends the scan before later indices are looked at. */
  function Normalize(shape: seq<nat>, indices: seq<Index>, k: nat): Selection
    requires |indices| == |shape| && k <= |shape|
    decreases |shape| - k
  {
    if k == |shape| then Box([])
    else
      match Along(shape[k], indices[k])
      case Bad(e) => Bad(e)
      case Nothing => Nothing
      case Box(b) =>
        match Normalize(shape, indices, k + 1)
        case Bad(e) => Bad(e)
        case Nothing => Nothing
        case Box(rest) => Box(b + rest)
  }

  function Select(shape: seq<nat>, indices: seq<Index>): Selection {
    if |indices| != |shape| then Bad(WrongRank) else Normalize(shape, indices, 0)
  }

  ghost predicate Fits(shape: seq<nat>, box: seq<Bound>) {
    && |box| == |shape|
    && forall i | 0 <= i < |shape| ::
      box[i].start < box[i].stop <= shape[i] && (box[i].full <==> box[i].start == 0 && box[i].stop == shape[i])
  }

  /** n * k, one k at a time. */
  function Times(n: nat, k: nat): nat {
    if n == 0 then 0 else Times(n - 1, k) + k
  }

  lemma {:induction false} TimesIsProduct(n: nat, k: nat)
    ensures Times(n, k) == n * k
  {
    if n > 0 {
      TimesIsProduct(n - 1, k);
      assert n * k == (n - 1) * k + k;
    }
  }

  lemma {:induction false} TimesAdd(a: nat, b: nat, k: nat)
    ensures Times(a + b, k) == Times(a, k) + Times(b, k)
  {
    if b > 0 { TimesAdd(a, b - 1, k); }
  }

  function Numel(shape: seq<nat>): nat {
    if shape == [] then 1 else Times(shape[0], Numel(shape[1..]))
  }

  // ---------------------------------------------------------------- plain slicing

  /** Row-major flat positions base, base + 1, ..., base + count - 1. */
  function Iota(base: nat, count: nat): seq<nat> {
    seq(count, i requires 0 <= i < count => base + i)
  }

  /** The flat positions of a box in row-major order: the box of the rest, once for each index of the first dimension. */
  function Selected(shape: seq<nat>, box: seq<Bound>, base: nat): seq<nat>
    requires |box| == |shape|
    decreases |shape|, 0
  {
    if shape == [] then [base]
    else SelectedRows(shape[1..], box[1..], base, Numel(shape[1..]), box[0].start, box[0].stop)
  }

  function SelectedRows(rest: seq<nat>, box: seq<Bound>, base: nat, stride: nat, lo: nat, hi: nat): seq<nat>
    requires |box| == |rest|
    decreases |rest|, 1, hi - lo
  {
    if hi <= lo then []
    else SelectedRows(rest, box, base, stride, lo, hi - 1) + Selected(rest, box, base + Times(hi - 1, stride))
  }

  /** The elements of a flat tensor at the given positions. */
  function Pick<T>(data: seq<T>, positions: seq<nat>): seq<T>
    requires forall p <- positions :: p < |data|
  {
    seq(|positions|, i requires 0 <= i < |positions| => assert positions[i] in positions; data[positions[i]])
  }

  /**
   Plain slicing of a flat row-major tensor: the slices of the selected rows of the first
   dimension, one after the other.
   */
  function PlainSlice<T>(data: seq<T>, shape: seq<nat>, box: seq<Bound>): seq<T>
    requires Fits(shape, box) && |data| == Numel(shape)
    decreases |shape|, 0
  {
    if shape == [] then data
    else
      FitsTail(shape, box);
      TimesAdd(box[0].stop, shape[0] - box[0].stop, Numel(shape[1..]));
      PlainRows(data, shape[1..], box[1..], box[0].start, box[0].stop)
  }

  function PlainRows<T>(data: seq<T>, rest: seq<nat>, box: seq<Bound>, lo: nat, hi: nat): seq<T>
    requires Fits(rest, box) && Times(hi, Numel(rest)) <= |data|
    decreases |rest|, 1, hi
  {
    if hi <= lo then []
    else
      PlainRows(data, rest, box, lo, hi - 1)
      + PlainSlice(Range(data, Times(hi - 1, Numel(rest)), Times(hi, Numel(rest))), rest, box)
  }

  lemma {:induction false} PlainRowsArePicked<T>(
    whole: seq<T>, data: seq<T>, rest: seq<nat>, box: seq<Bound>, base: nat, lo: nat, hi: nat)
    requires Fits(rest, box) && Times(hi, Numel(rest)) <= |data| && base + |data| <= |whole|
    requires data == Range(whole, base, base + |data|)
    ensures var positions := SelectedRows(rest, box, base, Numel(rest), lo, hi);
      (forall p <- positions :: p < |whole|) && PlainRows(data, rest, box, lo, hi) == Pick(whole, positions)
    decreases |rest|, 1, hi
  {
    if lo < hi {
      var at, end := Times(hi - 1, Numel(rest)), Times(hi, Numel(rest));
      PlainRowsArePicked(whole, data, rest, box, base, lo, hi - 1);
      RangeOfRange(whole, base, |data|, at, end);
      PlainIsPicked(whole, Range(data, at, end), rest, box, base + at);
      PickAppend(whole, SelectedRows(rest, box, base, Numel(rest), lo, hi - 1), Selected(rest, box, base + at));
    }
  }

  lemma RangeOfRange<T>(whole: seq<T>, base: nat, n: nat, lo: nat, hi: nat)
    requires base + n <= |whole| && lo <= hi <= n
    ensures Range(Range(whole, base, base + n), lo, hi) == Range(whole, base + lo, base + lo + (hi - lo))
  {
  }

  lemma PickAppend<T>(data: seq<T>, a: seq<nat>, b: seq<nat>)
    requires (forall p <- a :: p < |data|) && (forall p <- b :: p < |data|)
    ensures forall p <- a + b :: p < |data|
    ensures Pick(data, a + b) == Pick(data, a) + Pick(data, b)
  {
  }

  /** Plain slicing picks exactly the selected positions, in row-major order. */
  lemma {:induction false} PlainIsPicked<T>(whole: seq<T>, data: seq<T>, shape: seq<nat>, box: seq<Bound>, base: nat)
    requires Fits(shape, box) && |data| == Numel(shape) && base + |data| <= |whole|
    requires data == Range(whole, base, base + |data|)
    ensures var positions := Selected(shape, box, base);
      (forall p <- positions :: p < |whole|) && PlainSlice(data, shape, box) == Pick(whole, positions)
    decreases |shape|, 0
  {
    if shape != [] {
      FitsTail(shape, box);
      TimesAdd(box[0].stop, shape[0] - box[0].stop, Numel(shape[1..]));
      PlainRowsArePicked(whole, data, shape[1..], box[1..], base, box[0].start, box[0].stop);
    }
  }

  // ---------------------------------------------------------------- flat runs

  /** A run of consecutive flat positions. */
  datatype Run = Run(start: nat, length: nat)

  function Expand(runs: seq<Run>): seq<nat> {
    if runs == [] then [] else Expand(runs[..|runs| - 1]) + Iota(runs[|runs| - 1].start, runs[|runs| - 1].length)
  }

  function Strides(shape: seq<nat>): (strides: seq<nat>)
    ensures |strides| == |shape|
  {
    if shape == [] then [] else [Numel(shape[1..])] + Strides(shape[1..])
  }

  /** All combinations of one index from each range, the last varying fastest. */
  function Product(box: seq<Bound>): seq<seq<nat>>
    decreases |box|, 0
  {
    if box == [] then [[]] else ProductRows(Product(box[1..]), box[0].start, box[0].stop)
  }

  function ProductRows(rest: seq<seq<nat>>, lo: nat, hi: nat): seq<seq<nat>> {
    if hi <= lo then [] else ProductRows(rest, lo, hi - 1) + Prefixed(hi - 1, rest)
  }

  function Prefixed(index: nat, rest: seq<seq<nat>>): seq<seq<nat>> {
    seq(|rest|, i requires 0 <= i < |rest| => [index] + rest[i])
  }

  /** The flat offset of a prefix of indices. */
  function Offset(prefix: seq<nat>, strides: seq<nat>): nat {
    if prefix == [] || strides == [] then 0 else Times(prefix[0], strides[0]) + Offset(prefix[1..], strides[1..])
  }

  function RunsAt(prefixes: seq<seq<nat>>, strides: seq<nat>, start: nat, length: nat): seq<Run> {
    seq(|prefixes|, i requires 0 <= i < |prefixes| => Run(Offset(prefixes[i], strides) + start, length))
  }

  /** The last dimension that is not taken whole, or none. */
  function LastPartial(box: seq<Bound>): Option<nat> {
    if box == [] then None
    else if !box[|box| - 1].full then Some(|box| - 1)
    else LastPartial(box[..|box| - 1])
  }

  function RunsFrom(prefix: seq<Bound>, strides: seq<nat>, start: nat, stop: nat, stride: nat): seq<Run>
    requires start <= stop
  {
    RunsAt(Product(prefix), strides, Times(start, stride), Times(stop - start, stride))
  }

  function BoxRuns(shape: seq<nat>, box: seq<Bound>): seq<Run>
    requires Fits(shape, box)
  {
    match LastPartial(box)
    case None => [Run(0, Numel(shape))]
    case Some(p) =>
      LastPartialInside(box);
      RunsFrom(box[..p], Strides(shape), box[p].start, box[p].stop, Strides(shape)[p])
  }

  lemma {:induction false} LastPartialInside(box: seq<Bound>)
    ensures LastPartial(box).Some? ==> LastPartial(box).value < |box|
  {
    if box != [] { LastPartialInside(box[..|box| - 1]); }
  }

  // ---------------------------------------------------------------- runs are the box

  lemma IotaConcat(base: nat, m: nat, n: nat)
    ensures Iota(base, m) + Iota(base + m, n) == Iota(base, m + n)
  {
  }

  lemma IotaJoin(a: nat, m: nat, b: nat, n: nat, total: nat)
    requires b == a + m && total == m + n
    ensures Iota(a, m) + Iota(b, n) == Iota(a, total)
  {
  }

  ghost predicate AllFull(box: seq<Bound>) {
    forall i | 0 <= i < |box| :: box[i].full
  }

  lemma FitsTail(shape: seq<nat>, box: seq<Bound>)
    requires Fits(shape, box) && shape != []
    ensures Fits(shape[1..], box[1..])
  {
  }

  lemma {:induction false} FullRows(rest: seq<nat>, box: seq<Bound>, base: nat, stride: nat, hi: nat)
    requires Fits(rest, box) && AllFull(box) && stride == Numel(rest)
    ensures SelectedRows(rest, box, base, stride, 0, hi) == Iota(base, Times(hi, stride))
    decreases |rest|, 1, hi
  {
    if hi > 0 {
      FullRows(rest, box, base, stride, hi - 1);
      FullBox(rest, box, base + Times(hi - 1, stride));
      IotaConcat(base, Times(hi - 1, stride), stride);
    }
  }

  /** A box that takes every dimension whole is one run. */
  lemma {:induction false} FullBox(shape: seq<nat>, box: seq<Bound>, base: nat)
    requires Fits(shape, box) && AllFull(box)
    ensures Selected(shape, box, base) == Iota(base, Numel(shape))
    decreases |shape|, 0
  {
    if shape != [] {
      assert box[0].full;
      FitsTail(shape, box);
      FullRows(shape[1..], box[1..], base, Numel(shape[1..]), shape[0]);
    }
  }

  lemma {:induction false} PartialRows(rest: seq<nat>, box: seq<Bound>, base: nat, stride: nat, lo: nat, hi: nat)
    requires Fits(rest, box) && AllFull(box) && stride == Numel(rest) && lo <= hi
    ensures SelectedRows(rest, box, base, stride, lo, hi) == Iota(base + Times(lo, stride), Times(hi - lo, stride))
    decreases hi
  {
    if lo < hi {
      PartialRows(rest, box, base, stride, lo, hi - 1);
      FullBox(rest, box, base + Times(hi - 1, stride));
      TimesAdd(lo, hi - 1 - lo, stride);
      IotaConcat(base + Times(lo, stride), Times(hi - 1 - lo, stride), stride);
    }
  }

  lemma {:induction false} ExpandConcat(a: seq<Run>, b: seq<Run>)
    ensures Expand(a + b) == Expand(a) + Expand(b)
  {
    if b == [] {
      EmptySuffix(a);
      EmptySuffix(Expand(a));
    } else {
      var init, last := b[..|b| - 1], b[|b| - 1];
      ExpandConcat(a, init);
      SnocOf(b);
      Associate(a, init, [last]);
      SnocParts(a + init, last);
      Associate(Expand(a), Expand(init), Iota(last.start, last.length));
    }
  }

  /** Non-empty runs in ascending order, none overlapping, all inside [lo, hi). */
  ghost predicate Ordered(runs: seq<Run>, lo: nat, hi: nat) {
    if runs == [] then lo <= hi
    else
      var last := runs[|runs| - 1];
      last.length > 0 && last.start + last.length <= hi && Ordered(runs[..|runs| - 1], lo, last.start)
  }

  lemma {:induction false} OrderedBounds(runs: seq<Run>, lo: nat, hi: nat)
    requires Ordered(runs, lo, hi)
    ensures lo <= hi
  {
    if runs != [] { OrderedBounds(runs[..|runs| - 1], lo, runs[|runs| - 1].start); }
  }

  lemma {:induction false} OrderedConcat(a: seq<Run>, b: seq<Run>, lo: nat, mid: nat, hi: nat)
    requires Ordered(a, lo, mid) && Ordered(b, mid, hi)
    ensures Ordered(a + b, lo, hi)
  {
    if b == [] {
      EmptySuffix(a);
      if a == [] { OrderedBounds(a, lo, mid); }
    } else {
      var init, last := b[..|b| - 1], b[|b| - 1];
      OrderedConcat(a, init, lo, mid, last.start);
      SnocOf(b);
      Associate(a, init, [last]);
      SnocParts(a + init, last);
    }
  }

  /** These runs are what a box selects, and they ascend inside its tensor. */
  ghost predicate RunsSelect(runs: seq<Run>, positions: seq<nat>, lo: nat, hi: nat) {
    Expand(runs) == positions && Ordered(runs, lo, hi)
  }

  lemma RunsSelectConcat(a: seq<Run>, b: seq<Run>, p: seq<nat>, q: seq<nat>, lo: nat, mid: nat, hi: nat)
    requires RunsSelect(a, p, lo, mid) && RunsSelect(b, q, mid, hi)
    ensures RunsSelect(a + b, p + q, lo, hi)
  {
    ExpandConcat(a, b);
    OrderedConcat(a, b, lo, mid, hi);
  }

  lemma RunsAtConcat(a: seq<seq<nat>>, b: seq<seq<nat>>, strides: seq<nat>, start: nat, length: nat)
    ensures RunsAt(a + b, strides, start, length) == RunsAt(a, strides, start, length) + RunsAt(b, strides, start, length)
  {
  }

  /** A fixed first index moves all runs by that many first strides. */
  lemma RunsAtPrefixed(index: nat, rest: seq<seq<nat>>, stride: nat, strides: seq<nat>, start: nat, length: nat)
    ensures RunsAt(Prefixed(index, rest), [stride] + strides, start, length)
         == RunsAt(rest, strides, start + Times(index, stride), length)
  {
    ConsParts(stride, strides);
    forall i | 0 <= i < |rest|
      ensures Offset([index] + rest[i], [stride] + strides) == Times(index, stride) + Offset(rest[i], strides)
    {
      ConsParts(index, rest[i]);
    }
  }

  /** One more first index adds its row of runs. */
  lemma AddRow(
    before: seq<seq<nat>>, prefixes: seq<seq<nat>>, index: nat, stride: nat, strides: seq<nat>, start: nat, shifted: nat,
    length: nat, positions: seq<nat>, row: seq<nat>, lo: nat, mid: nat, hi: nat)
    requires shifted == start + Times(index, stride)
    requires RunsSelect(RunsAt(before, [stride] + strides, start, length), positions, lo, mid)
    requires RunsSelect(RunsAt(prefixes, strides, shifted, length), row, mid, hi)
    ensures RunsSelect(
      RunsAt(before + Prefixed(index, prefixes), [stride] + strides, start, length), positions + row, lo, hi)
  {
    RunsAtConcat(before, Prefixed(index, prefixes), [stride] + strides, start, length);
    RunsAtPrefixed(index, prefixes, stride, strides, start, length);
    RunsSelectConcat(
      RunsAt(before, [stride] + strides, start, length), RunsAt(prefixes, strides, shifted, length), positions, row,
      lo, mid, hi);
  }

  /** The runs of one row, when every row starts index strides further on. */
  ghost predicate RowSelects(
    rest: seq<nat>, box: seq<Bound>, prefixes: seq<seq<nat>>, stride: nat, strides: seq<nat>, base: nat, start: nat,
    length: nat, index: nat)
    requires |box| == |rest|
  {
    RunsSelect(
      RunsAt(prefixes, strides, start + Times(index, stride), length), Selected(rest, box, base + Times(index, stride)),
      base + Times(index, stride), base + Times(index + 1, stride))
  }

  lemma NextRow(
    rest: seq<nat>, box: seq<Bound>, prefixes: seq<seq<nat>>, stride: nat, strides: seq<nat>, base: nat, start: nat,
    length: nat, i: nat, before: seq<seq<nat>>, positions: seq<nat>, lo: nat)
    requires |box| == |rest| && RowSelects(rest, box, prefixes, stride, strides, base, start, length, i)
    requires RunsSelect(RunsAt(before, [stride] + strides, start, length), positions, lo, base + Times(i, stride))
    ensures RunsSelect(
      RunsAt(before + Prefixed(i, prefixes), [stride] + strides, start, length),
      positions + Selected(rest, box, base + Times(i, stride)), lo, base + Times(i + 1, stride))
  {
    AddRow(
      before, prefixes, i, stride, strides, start, start + Times(i, stride), length, positions,
      Selected(rest, box, base + Times(i, stride)), lo, base + Times(i, stride), base + Times(i + 1, stride));
  }

  lemma {:induction false} PrefixRows(
    rest: seq<nat>, box: seq<Bound>, prefixes: seq<seq<nat>>, stride: nat, strides: seq<nat>, base: nat, start: nat,
    length: nat, lo: nat, hi: nat)
    requires |box| == |rest| && lo <= hi
    requires forall i: nat | lo <= i < hi :: RowSelects(rest, box, prefixes, stride, strides, base, start, length, i)
    ensures RunsSelect(
      RunsAt(ProductRows(prefixes, lo, hi), [stride] + strides, start, length),
      SelectedRows(rest, box, base, stride, lo, hi), base + Times(lo, stride), base + Times(hi, stride))
    decreases hi
  {
    if lo < hi {
      var i: nat := hi - 1;
      PrefixRows(rest, box, prefixes, stride, strides, base, start, length, lo, i);
      NextRow(
        rest, box, prefixes, stride, strides, base, start, length, i, ProductRows(prefixes, lo, i),
        SelectedRows(rest, box, base, stride, lo, i), base + Times(lo, stride));
    }
  }

  lemma {:induction false} NumelPositive(shape: seq<nat>)
    requires forall i | 0 <= i < |shape| :: shape[i] > 0
    ensures Numel(shape) > 0
  {
    if shape != [] {
      NumelPositive(shape[1..]);
    }
  }

  /** One run per prefix of the dimensions before p selects the box, when everything after p is taken whole. */
  lemma {:induction false} PrefixRuns(shape: seq<nat>, box: seq<Bound>, p: nat, base: nat, start: nat, length: nat)
    requires Fits(shape, box) && p < |shape| && forall i | p < i < |box| :: box[i].full
    requires start == base + Times(box[p].start, Strides(shape)[p])
    requires length == Times(box[p].stop - box[p].start, Strides(shape)[p])
    ensures RunsSelect(
      RunsAt(Product(box[..p]), Strides(shape), start, length), Selected(shape, box, base), base, base + Numel(shape))
    decreases |shape|
  {
    if p == 0 {
      OneRun(shape, box, base, start, length);
    } else {
      var rest, tail, stride := shape[1..], box[1..], Numel(shape[1..]);
      var prefixes := Product(tail[..p - 1]);
      FitsTail(shape, box);
      forall i: nat | box[0].start <= i < box[0].stop
        ensures RowSelects(rest, tail, prefixes, stride, Strides(rest), base, start, length, i)
      {
        PrefixRuns(rest, tail, p - 1, base + Times(i, stride), start + Times(i, stride), length);
      }
      assert box[..p][1..] == tail[..p - 1];
      PrefixRows(rest, tail, prefixes, stride, Strides(rest), base, start, length, box[0].start, box[0].stop);
      WidenRows(
        RunsAt(Product(box[..p]), Strides(shape), start, length), base, stride, box[0].start, box[0].stop, shape[0]);
    }
  }

  lemma WidenRows(runs: seq<Run>, base: nat, stride: nat, lo: nat, hi: nat, extent: nat)
    requires Ordered(runs, base + Times(lo, stride), base + Times(hi, stride)) && hi <= extent
    ensures Ordered(runs, base, base + Times(extent, stride))
  {
    TimesAdd(hi, extent - hi, stride);
    Weaken(runs, base + Times(lo, stride), base + Times(hi, stride), base, base + Times(extent, stride));
  }

  lemma {:induction false} Weaken(runs: seq<Run>, lo: nat, hi: nat, low: nat, high: nat)
    requires Ordered(runs, lo, hi) && low <= lo && hi <= high
    ensures Ordered(runs, low, high)
  {
    if runs != [] {
      var last := runs[|runs| - 1];
      Weaken(runs[..|runs| - 1], lo, last.start, low, last.start);
    }
  }

  lemma OneRunInside(lo: nat, hi: nat, extent: nat, stride: nat)
    requires lo < hi <= extent && stride > 0
    ensures Times(hi - lo, stride) > 0 && Times(lo, stride) + Times(hi - lo, stride) <= Times(extent, stride)
  {
    TimesAdd(lo, hi - lo, stride);
    TimesAdd(hi, extent - hi, stride);
  }

  lemma OneRun(shape: seq<nat>, box: seq<Bound>, base: nat, start: nat, length: nat)
    requires Fits(shape, box) && shape != [] && forall i | 0 < i < |box| :: box[i].full
    requires start == base + Times(box[0].start, Strides(shape)[0])
    requires length == Times(box[0].stop - box[0].start, Strides(shape)[0])
    ensures RunsSelect(
      RunsAt(Product(box[..0]), Strides(shape), start, length), Selected(shape, box, base), base, base + Numel(shape))
  {
    var rest, tail, stride := shape[1..], box[1..], Numel(shape[1..]);
    FitsTail(shape, box);
    PartialRows(rest, tail, base, stride, box[0].start, box[0].stop);
    NumelPositive(rest);
    OneRunInside(box[0].start, box[0].stop, shape[0], stride);
    SingleRun(Strides(shape), start, length, base, base + Numel(shape));
  }

  lemma SingleRun(strides: seq<nat>, start: nat, length: nat, lo: nat, hi: nat)
    requires lo <= start && length > 0 && start + length <= hi
    ensures RunsSelect(RunsAt(Product([]), strides, start, length), Iota(start, length), lo, hi)
  {
    var run := Run(start, length);
    assert RunsAt([[]], strides, start, length) == [run];
    SnocParts([], run);
    EmptyPrefix([run]);
    EmptyPrefix(Iota(start, length));
  }

  lemma {:induction false} LastPartialMeaning(box: seq<Bound>)
    ensures LastPartial(box).None? ==> AllFull(box)
    ensures LastPartial(box).Some? ==>
      LastPartial(box).value < |box| && forall i | LastPartial(box).value < i < |box| :: box[i].full
  {
    if box != [] && box[|box| - 1].full { LastPartialMeaning(box[..|box| - 1]); }
  }

  lemma FullRun(shape: seq<nat>, box: seq<Bound>)
    requires Fits(shape, box) && AllFull(box)
    ensures RunsSelect([Run(0, Numel(shape))], Selected(shape, box, 0), 0, Numel(shape))
  {
    var run := Run(0, Numel(shape));
    FullBox(shape, box, 0);
    NumelPositive(shape);
    SnocParts([], run);
    EmptyPrefix([run]);
    EmptyPrefix(Iota(0, Numel(shape)));
  }

  /** The flat runs of a box, one after the other, are its positions in row-major order, and they ascend. */
  lemma BoxRunsSelect(shape: seq<nat>, box: seq<Bound>)
    requires Fits(shape, box)
    ensures RunsSelect(BoxRuns(shape, box), Selected(shape, box, 0), 0, Numel(shape))
  {
    LastPartialMeaning(box);
    if LastPartial(box).None? {
      FullRun(shape, box);
    } else {
      var p := LastPartial(box).value;
      PrefixRuns(
        shape, box, p, 0, Times(box[p].start, Strides(shape)[p]), Times(box[p].stop - box[p].start, Strides(shape)[p]));
    }
  }
}
