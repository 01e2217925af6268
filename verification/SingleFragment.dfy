/** When a slice of a layout is a single fragment: one run of elements, inside one span. */
module SingleFragment {
  import opened Basics
  import opened LayoutFragments
  import opened SequenceFacts
  import opened Sequences
  import opened TensorLayout

  // ---------------------------------------------------------------- boxes that are one run

  predicate OneIndex(b: Bound) {
    b.stop == b.start + 1
  }

  /** Every dimension before the last partial one takes a single index. */
  predicate OneRun(box: seq<Bound>) {
    match LastPartial(box)
    case None => true
    case Some(p) => forall i | 0 <= i < |box| && i < p :: OneIndex(box[i])
  }

  ghost predicate NonEmpty(box: seq<Bound>) {
    forall i | 0 <= i < |box| :: box[i].start < box[i].stop
  }

  lemma {:induction false} RowsSize(rest: seq<seq<nat>>, lo: nat, hi: nat)
    requires lo < hi && rest != []
    ensures |ProductRows(rest, lo, hi)| >= |rest|
    ensures |ProductRows(rest, lo, hi)| == 1 <==> hi == lo + 1 && |rest| == 1
    decreases hi
  {
    if lo < hi - 1 {
      RowsSize(rest, lo, hi - 1);
    } else {
      assert ProductRows(rest, lo, lo) == [];
    }
  }

  lemma {:induction false} ProductSize(box: seq<Bound>)
    requires NonEmpty(box)
    ensures Product(box) != []
    ensures |Product(box)| == 1 <==> forall i | 0 <= i < |box| :: OneIndex(box[i])
    decreases |box|
  {
    if box != [] {
      var tail := box[1..];
      forall i | 0 <= i < |tail| ensures tail[i].start < tail[i].stop { assert tail[i] == box[i + 1]; }
      ProductSize(tail);
      RowsSize(Product(tail), box[0].start, box[0].stop);
      AllOneIndex(box);
    }
  }

  lemma AllOneIndex(box: seq<Bound>)
    requires box != []
    ensures (forall i | 0 <= i < |box| :: OneIndex(box[i]))
       <==> OneIndex(box[0]) && forall i | 0 <= i < |box[1..]| :: OneIndex(box[1..][i])
  {
    if OneIndex(box[0]) && forall i | 0 <= i < |box[1..]| :: OneIndex(box[1..][i]) {
      forall i | 0 <= i < |box| ensures OneIndex(box[i]) {
        if i > 0 { assert box[1..][i - 1] == box[i]; }
      }
    }
  }

  lemma BoxRunsCount(shape: seq<nat>, box: seq<Bound>)
    requires Fits(shape, box)
    ensures BoxRuns(shape, box) != [] && (|BoxRuns(shape, box)| == 1 <==> OneRun(box))
  {
    LastPartialInside(box);
    if LastPartial(box).Some? {
      var prefix := box[..LastPartial(box).value];
      ProductSize(prefix);
      assert forall i | 0 <= i < |prefix| :: prefix[i] == box[i];
    }
  }

  // ---------------------------------------------------------------- the first position and the count

  /** How many elements a box selects. */
  function BoxSize(box: seq<Bound>): nat {
    if box == [] then 1
    else if box[0].stop < box[0].start then 0
    else Times(box[0].stop - box[0].start, BoxSize(box[1..]))
  }

  /** The flat position of the first element a box selects. */
  function First(shape: seq<nat>, box: seq<Bound>): nat
    requires |box| == |shape|
  {
    if shape == [] then 0 else Times(box[0].start, Numel(shape[1..])) + First(shape[1..], box[1..])
  }

  lemma {:induction false} RowsSelect(rest: seq<nat>, box: seq<Bound>, base: nat, stride: nat, lo: nat, hi: nat)
    requires Fits(rest, box) && lo <= hi
    ensures |SelectedRows(rest, box, base, stride, lo, hi)| == Times(hi - lo, BoxSize(box))
    ensures lo < hi ==> |SelectedRows(rest, box, base, stride, lo, hi)| > 0
    ensures lo < hi ==>
      SelectedRows(rest, box, base, stride, lo, hi)[0] == base + Times(lo, stride) + First(rest, box)
    decreases |rest|, 1, hi
  {
    if lo < hi {
      RowsSelect(rest, box, base, stride, lo, hi - 1);
      BoxSelects(rest, box, base + Times(hi - 1, stride));
    }
  }

  lemma {:induction false} BoxSelects(shape: seq<nat>, box: seq<Bound>, base: nat)
    requires Fits(shape, box)
    ensures |Selected(shape, box, base)| == BoxSize(box) > 0
    ensures Selected(shape, box, base)[0] == base + First(shape, box)
    decreases |shape|, 0
  {
    if shape != [] {
      FitsTail(shape, box);
      RowsSelect(shape[1..], box[1..], base, Numel(shape[1..]), box[0].start, box[0].stop);
    }
  }

  /** A box that is one run is the run of its elements from its first position. */
  lemma OnlyRun(shape: seq<nat>, box: seq<Bound>)
    requires Fits(shape, box) && OneRun(box)
    ensures BoxRuns(shape, box) == [Run(First(shape, box), BoxSize(box))]
  {
    BoxRunsCount(shape, box);
    BoxRunsSelect(shape, box);
    BoxSelects(shape, box, 0);
    var run := BoxRuns(shape, box)[0];
    assert BoxRuns(shape, box) == [run];
    assert Expand([run]) == Iota(run.start, run.length) by {
      SnocParts([], run);
      EmptyPrefix([run]);
      EmptyPrefix(Iota(run.start, run.length));
    }
    assert Iota(run.start, run.length)[0] == run.start;
  }

  // ---------------------------------------------------------------- one fragment

  function Lengths(fragments: seq<Fragment>): seq<nat> {
    seq(|fragments|, i requires 0 <= i < |fragments| => fragments[i].length)
  }

  /** Some span holds the n positions from first on. */
  predicate InOneSpan(numels: seq<nat>, first: nat, n: nat) {
    exists i | 0 <= i < |numels| :: Start(numels, i) <= first && first + n <= Start(numels, i) + numels[i]
  }

  /** The slice takes n elements, one after the other, from a single span. */
  predicate OneFragment(shape: seq<nat>, indices: seq<Index>, numels: seq<nat>, n: nat) {
    SelectFits(shape, indices);
    match Select(shape, indices)
    case Box(box) => OneRun(box) && BoxSize(box) == n && InOneSpan(numels, First(shape, box), n)
    case _ => false
  }

  lemma CutNonEmpty(numels: seq<nat>, run: Run) returns (cut: seq<Fragment>)
    requires run.length > 0 && run.start + run.length <= Total(numels)
    ensures cut == CutRange(numels, |numels|, run.start, run.start + run.length) && |cut| > 0
  {
    cut := RunCovers(numels, run);
    assert |Iota(run.start, run.length)| == run.length;
  }

  lemma AtLeastOneMore<T>(a: seq<T>, b: seq<T>, n: nat)
    requires |a| >= n && |b| > 0
    ensures |a + b| >= n + 1
  {
  }

  lemma {:induction false} CutAtLeast(numels: seq<nat>, runs: seq<Run>, hi: nat)
    requires Ordered(runs, 0, hi) && hi <= Total(numels)
    ensures |CutAll(numels, runs)| >= |runs|
  {
    if runs != [] {
      var init, last := runs[..|runs| - 1], runs[|runs| - 1];
      CutAtLeast(numels, init, last.start);
      var cut := CutNonEmpty(numels, last);
      AtLeastOneMore(CutAll(numels, init), cut, |init|);
    }
  }

  lemma CutInOneSpan(numels: seq<nat>, i: nat, lo: nat, n: nat)
    requires i < |numels| && Start(numels, i) <= lo && lo + n <= Start(numels, i) + numels[i] && n > 0
    ensures CutRange(numels, |numels|, lo, lo + n) == [Fragment(i, lo - Start(numels, i), n)]
  {
    var f := Fragment(i, lo - Start(numels, i), n);
    NothingToCut(numels, |numels|, lo);
    RangeGrows(numels, |numels|, lo, lo, lo + n, i, f);
    EmptyPrefix([f]);
  }

  lemma CutOne(numels: seq<nat>, run: Run)
    ensures CutAll(numels, [run]) == CutRange(numels, |numels|, run.start, run.start + run.length)
  {
    assert [run][..0] == [];
    EmptyPrefix(CutRange(numels, |numels|, run.start, run.start + run.length));
  }

  /** One fragment for a run means that one span holds it. */
  lemma OneFragmentInSpan(numels: seq<nat>, run: Run, f: Fragment)
    requires Covers(numels, [f], Iota(run.start, run.length)) && run.length > 0
    ensures f.length == run.length && InOneSpan(numels, run.start, run.length)
  {
    var at := Start(numels, f.span) + f.offset;
    assert [f][..0] == [];
    assert Covered(numels, [f]) == Covered(numels, []) + Iota(at, f.length);
    EmptyPrefix(Iota(at, f.length));
    SameIota(at, f.length, run.start, run.length);
  }

  lemma SameIota(a: nat, m: nat, b: nat, n: nat)
    requires Iota(a, m) == Iota(b, n) && n > 0
    ensures a == b && m == n
  {
    assert |Iota(a, m)| == m && |Iota(b, n)| == n;
    assert Iota(a, m)[0] == a && Iota(b, n)[0] == b;
  }

  lemma OneLength(fragments: seq<Fragment>, n: nat)
    ensures Lengths(fragments) == [n] <==> |fragments| == 1 && fragments[0].length == n
  {
    if |fragments| == 1 { assert Lengths(fragments) == [fragments[0].length]; }
    assert |Lengths(fragments)| == |fragments|;
  }

  /** One run is one fragment exactly when one span holds it. */
  lemma RunIsOneFragment(numels: seq<nat>, run: Run, n: nat)
    requires run.length > 0 && run.start + run.length <= Total(numels)
    ensures Lengths(CutAll(numels, [run])) == [n] <==> run.length == n && InOneSpan(numels, run.start, n)
  {
    CutOne(numels, run);
    var cut := RunCovers(numels, run);
    OneLength(cut, n);
    if |cut| == 1 {
      assert cut == [cut[0]];
      OneFragmentInSpan(numels, run, cut[0]);
    }
    if run.length == n && InOneSpan(numels, run.start, n) {
      var i :| 0 <= i < |numels| && Start(numels, i) <= run.start && run.start + n <= Start(numels, i) + numels[i];
      CutInOneSpan(numels, i, run.start, n);
    }
  }

  lemma BoxIsOneFragment(shape: seq<nat>, box: seq<Bound>, numels: seq<nat>, n: nat)
    requires Fits(shape, box) && Total(numels) == Numel(shape)
    ensures Lengths(CutAll(numels, BoxRuns(shape, box))) == [n]
       <==> OneRun(box) && BoxSize(box) == n && InOneSpan(numels, First(shape, box), n)
  {
    var runs := BoxRuns(shape, box);
    BoxRunsCount(shape, box);
    BoxRunsSelect(shape, box);
    if OneRun(box) {
      BoxSelects(shape, box, 0);
      OnlyRun(shape, box);
      OrderedPrefix(runs, 0, Numel(shape), 0);
      RunIsOneFragment(numels, Run(First(shape, box), BoxSize(box)), n);
    } else {
      CutAtLeast(numels, runs, Numel(shape));
      OneLength(CutAll(numels, runs), n);
    }
  }

  /** A slice is cut into one fragment of n elements exactly when it takes n consecutive elements of one span. */
  lemma OneFragmentIff(shape: seq<nat>, indices: seq<Index>, numels: seq<nat>, n: nat)
    requires SlicedFragments(shape, indices, numels).Ok?
    ensures Lengths(SlicedFragments(shape, indices, numels).value) == [n] <==> OneFragment(shape, indices, numels, n)
  {
    SelectFits(shape, indices);
    if Select(shape, indices).Box? {
      BoxIsOneFragment(shape, Select(shape, indices).bounds, numels, n);
    }
  }

  // ---------------------------------------------------------------- how many elements the cut has

  lemma {:induction false} CoveredCounts(numels: seq<nat>, fragments: seq<Fragment>)
    requires InSpans(numels, fragments)
    ensures |Covered(numels, fragments)| == Sum(Lengths(fragments))
  {
    if fragments == [] {
      assert Lengths(fragments) == [];
    } else {
      var k := |fragments| - 1;
      CoveredCounts(numels, fragments[..k]);
      assert Lengths(fragments)[..k] == Lengths(fragments[..k]);
    }
  }

  /** Cutting a box of a shape at spans that cover the shape keeps every element of the box. */
  lemma BoxCut(shape: seq<nat>, box: seq<Bound>, numels: seq<nat>)
    requires Fits(shape, box) && Numel(shape) <= Total(numels)
    ensures Sum(Lengths(CutAll(numels, BoxRuns(shape, box)))) == BoxSize(box)
  {
    var runs := BoxRuns(shape, box);
    BoxRunsSelect(shape, box);
    BoxSelects(shape, box, 0);
    CutAllCovers(numels, runs, Numel(shape));
    CoveredCounts(numels, CutAll(numels, runs));
  }
}
