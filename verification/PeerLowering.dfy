/**
 Lowering of one peer's task list: the tasks form one virtual byte stream, every channel
 part of it is cut into works, and every work lists the fragments of the tasks it covers.
 */
module PeerLowering {
  import opened Basics
  import opened SequenceFacts
  import opened PowersOfTwo
  import opened StreamPartition

  const MAX_U32: nat := 0xFFFF_FFFF
  const MAX_U64: nat := 0xFFFF_FFFF_FFFF_FFFF

  datatype LoweringError =
    | InvalidRank | InvalidChannels | PeerTableMismatch | TransportTableMismatch | InvalidSteps | InvalidChunkBytes
    | InvalidStepTable | InvalidActivePeers | TaskPeerInactive | InvalidRowLayout | OrderNotDense
    | StreamOverflow | TooManyChunks | InvalidFragmentRange | NoProgress

  /** One physical tensor range of a peer's ordered task list. */
  datatype Task = Task(
    ptr: nat, nbytes: nat, offset: nat, rowBytes: nat, rowStride: nat, peer: nat, ordinal: nat)

  datatype Span = Span(task: Task, begin: nat, end: nat)

  datatype Fragment = Fragment(
    ptr: nat, nbytes: nat, offset: nat, rowBytes: nat, rowStride: nat, workOffset: nat)

  datatype Work = Work(
    peer: nat, fragmentBegin: nat, fragmentCount: nat, chunkOrdinal: nat, chunkCount: nat, isFinal: bool,
    stepBytes: nat, fifoDepth: nat, streamOffset: nat, nbytes: nat, stepBegin: nat)

  /** The part of a work that both ends of a connection must agree on. */
  datatype Skeleton = Skeleton(
    chunkOrdinal: nat, chunkCount: nat, isFinal: bool, stepBytes: nat, fifoDepth: nat, streamOffset: nat,
    nbytes: nat, stepBegin: nat)

  function SkeletonOf(w: Work): Skeleton {
    Skeleton(w.chunkOrdinal, w.chunkCount, w.isFinal, w.stepBytes, w.fifoDepth, w.streamOffset, w.nbytes, w.stepBegin)
  }

  function Skeletons(works: seq<Work>): seq<Skeleton> {
    seq(|works|, i requires 0 <= i < |works| => SkeletonOf(works[i]))
  }

  // ---------------------------------------------------------------- the byte stream

  /** Where one byte of the stream lives. */
  datatype ByteRef = ByteRef(ptr: nat, offset: nat, rowBytes: nat, rowStride: nat)

  function Bytes(ptr: nat, offset: nat, rowBytes: nat, rowStride: nat, nbytes: nat): seq<ByteRef> {
    seq(nbytes, j requires 0 <= j < nbytes => ByteRef(ptr, offset + j, rowBytes, rowStride))
  }

  function TaskBytes(t: Task): seq<ByteRef> {
    Bytes(t.ptr, t.offset, t.rowBytes, t.rowStride, t.nbytes)
  }

  /** All bytes of the tasks, in task order. */
  function Stream(tasks: seq<Task>): seq<ByteRef> {
    if tasks == [] then [] else Stream(tasks[..|tasks| - 1]) + TaskBytes(tasks[|tasks| - 1])
  }

  function StreamBytes(tasks: seq<Task>): nat {
    if tasks == [] then 0 else StreamBytes(tasks[..|tasks| - 1]) + tasks[|tasks| - 1].nbytes
  }

  /** The non-empty tasks with their place in the stream. */
  function SpansOf(tasks: seq<Task>): seq<Span> {
    if tasks == [] then []
    else
      var init := tasks[..|tasks| - 1];
      SpansOf(init) + SpanOf(tasks[|tasks| - 1], StreamBytes(init))
  }

  function SpanOf(t: Task, start: nat): seq<Span> {
    if t.nbytes == 0 then [] else [Span(t, start, start + t.nbytes)]
  }

  function FragmentOf(span: Span, workBegin: nat, workEnd: nat): seq<Fragment> {
    if span.end <= workBegin || workEnd <= span.begin then []
    else
      var begin, end := Max(span.begin, workBegin), Min(span.end, workEnd);
      var t := span.task;
      if begin > end then []
      else [Fragment(t.ptr, end - begin, t.offset + begin - span.begin, t.rowBytes, t.rowStride, begin - workBegin)]
  }

  function FragmentsFor(spans: seq<Span>, workBegin: nat, workEnd: nat): seq<Fragment> {
    if spans == [] then []
    else FragmentsFor(spans[..|spans| - 1], workBegin, workEnd) + FragmentOf(spans[|spans| - 1], workBegin, workEnd)
  }

  /** The bytes that fragments address, in order. */
  function Expand(fragments: seq<Fragment>): seq<ByteRef> {
    if fragments == [] then []
    else
      var f := fragments[|fragments| - 1];
      Expand(fragments[..|fragments| - 1]) + Bytes(f.ptr, f.offset, f.rowBytes, f.rowStride, f.nbytes)
  }

  /** Fragments are non-empty and laid end to end in their work. */
  ghost predicate EndToEnd(fragments: seq<Fragment>) {
    forall i | 0 <= i < |fragments| :: fragments[i].nbytes > 0 && fragments[i].workOffset == |Expand(fragments[..i])|
  }

  lemma {:induction false} StreamLength(tasks: seq<Task>)
    ensures |Stream(tasks)| == StreamBytes(tasks)
  {
    if tasks != [] { StreamLength(tasks[..|tasks| - 1]); }
  }

  lemma ExpandSnoc(fragments: seq<Fragment>, f: Fragment)
    ensures Expand(fragments + [f]) == Expand(fragments) + Expand([f])
  {
    SnocParts(fragments, f);
    SnocParts([], f);
    EmptyPrefix([f]);
    EmptyPrefix(Bytes(f.ptr, f.offset, f.rowBytes, f.rowStride, f.nbytes));
  }

  lemma EndToEndSnoc(fragments: seq<Fragment>, f: Fragment)
    requires EndToEnd(fragments) && f.nbytes > 0 && f.workOffset == |Expand(fragments)|
    ensures EndToEnd(fragments + [f])
  {
    SnocParts(fragments, f);
    forall i | 0 <= i < |fragments| ensures (fragments + [f])[..i] == fragments[..i] {
    }
  }

  lemma BytesSlice(ptr: nat, offset: nat, rowBytes: nat, rowStride: nat, n: nat, x: nat, y: nat)
    requires x <= y <= n
    ensures Range(Bytes(ptr, offset, rowBytes, rowStride, n), x, y) == Bytes(ptr, offset + x, rowBytes, rowStride, y - x)
  {
  }

  /** The part of the window [b, e) of a stream that is still in the stream. */
  function Window<T>(s: seq<T>, b: nat, e: nat): seq<T>
    requires b <= e
  {
    Range(s, Min(b, |s|), Min(e, |s|))
  }

  /** The part of the window [b, e) that falls on extra, which starts at m. */
  function Overlap<T>(extra: seq<T>, m: nat, b: nat, e: nat): seq<T>
    requires b < e
  {
    if e <= m || m + |extra| <= b then [] else Range(extra, Max(b, m) - m, Min(e, m + |extra|) - m)
  }

  lemma WindowConcat<T>(before: seq<T>, extra: seq<T>, b: nat, e: nat)
    requires b < e
    ensures Window(before + extra, b, e) == Window(before, b, e) + Overlap(extra, |before|, b, e)
  {
    var m := |before|;
    if e <= m {
      RangeInFront(before, extra, b, e);
    } else if m + |extra| <= b {
      EmptySuffix(Window(before, b, e));
    } else if b < m {
      RangeAcross(before, extra, b, Min(e, m + |extra|));
    } else {
      RangeBehind(before, extra, b, Min(e, m + |extra|));
    }
  }

  lemma RangeInFront<T>(before: seq<T>, extra: seq<T>, b: nat, e: nat)
    requires b <= e <= |before|
    ensures Range(before + extra, b, e) == Range(before, b, e) + []
  {
  }

  lemma RangeAcross<T>(before: seq<T>, extra: seq<T>, b: nat, e: nat)
    requires b <= |before| <= e <= |before| + |extra|
    ensures Range(before + extra, b, e) == Range(before, b, |before|) + Range(extra, 0, e - |before|)
  {
  }

  lemma RangeBehind<T>(before: seq<T>, extra: seq<T>, b: nat, e: nat)
    requires |before| <= b <= e <= |before| + |extra|
    ensures Range(before + extra, b, e) == Range(before, |before|, |before|) + Range(extra, b - |before|, e - |before|)
  {
  }

  lemma ExpandOne(f: Fragment)
    ensures Expand([f]) == Bytes(f.ptr, f.offset, f.rowBytes, f.rowStride, f.nbytes)
  {
    assert [f][..0] == [];
  }

  /** The fragment of one span addresses the overlap of the span and the window. */
  /** The part [lo, hi) of a task as a fragment addresses that part of its bytes. */
  lemma PartOfTask(t: Task, lo: nat, hi: nat, at: nat)
    requires lo <= hi <= t.nbytes
    ensures Expand([Fragment(t.ptr, hi - lo, t.offset + lo, t.rowBytes, t.rowStride, at)]) == Range(TaskBytes(t), lo, hi)
  {
    ExpandOne(Fragment(t.ptr, hi - lo, t.offset + lo, t.rowBytes, t.rowStride, at));
    BytesSlice(t.ptr, t.offset, t.rowBytes, t.rowStride, t.nbytes, lo, hi);
  }

  lemma FragmentIs(t: Task, m: nat, b: nat, e: nat, lo: nat, hi: nat)
    requires b < e && m < e && b < m + t.nbytes && lo == Max(b, m) - m && hi == Min(e, m + t.nbytes) - m
    ensures FragmentOf(Span(t, m, m + t.nbytes), b, e)
         == [Fragment(t.ptr, hi - lo, t.offset + lo, t.rowBytes, t.rowStride, m + lo - b)]
    ensures Overlap(TaskBytes(t), m, b, e) == Range(TaskBytes(t), lo, hi)
  {
  }

  lemma FragmentIsOverlap(t: Task, m: nat, b: nat, e: nat)
    requires b < e && t.nbytes > 0
    ensures var fragments := FragmentOf(Span(t, m, m + t.nbytes), b, e);
      Expand(fragments) == Overlap(TaskBytes(t), m, b, e)
  {
    if m < e && b < m + t.nbytes {
      var lo, hi := Max(b, m) - m, Min(e, m + t.nbytes) - m;
      FragmentIs(t, m, b, e, lo, hi);
      PartOfTask(t, lo, hi, m + lo - b);
    } else {
      assert FragmentOf(Span(t, m, m + t.nbytes), b, e) == [] && Overlap(TaskBytes(t), m, b, e) == [];
    }
  }

  function TaskFragments(t: Task, m: nat, b: nat, e: nat): seq<Fragment> {
    FragmentsFor(SpanOf(t, m), b, e)
  }

  lemma TaskFragmentsMeaning(t: Task, m: nat, b: nat, e: nat)
    requires t.nbytes > 0
    ensures TaskFragments(t, m, b, e) == FragmentOf(Span(t, m, m + t.nbytes), b, e)
  {
    FragmentsConcat([], [Span(t, m, m + t.nbytes)], b, e);
  }

  lemma FragmentPlacement(span: Span, b: nat, e: nat)
    requires b < e && span.begin < span.end
    ensures forall f <- FragmentOf(span, b, e) :: f.nbytes > 0 && f.workOffset == Min(e, span.begin) - Min(b, span.begin)
  {
  }

  lemma FragmentsConcat(spans: seq<Span>, more: seq<Span>, b: nat, e: nat)
    requires |more| <= 1
    ensures FragmentsFor(spans + more, b, e) == FragmentsFor(spans, b, e) + FragmentsFor(more, b, e)
    ensures more != [] ==> FragmentsFor(more, b, e) == FragmentOf(more[0], b, e)
  {
    if more == [] {
      assert spans + more == spans;
    } else {
      assert (spans + more)[..|spans|] == spans;
      assert more[..0] == [];
    }
  }

  /** The fragments of one task address the part of the window that falls on it. */
  lemma TaskWindow(t: Task, m: nat, b: nat, e: nat)
    requires b < e
    ensures Expand(TaskFragments(t, m, b, e)) == Overlap(TaskBytes(t), m, b, e)
  {
    if t.nbytes > 0 {
      FragmentIsOverlap(t, m, b, e);
      TaskFragmentsMeaning(t, m, b, e);
    }
  }

  /** What one more task adds to the window [b, e) of the stream. */
  lemma WindowSnoc(before: seq<ByteRef>, t: Task, b: nat, e: nat)
    requires b < e
    ensures Window(before + TaskBytes(t), b, e) == Window(before, b, e) + Expand(TaskFragments(t, |before|, b, e))
  {
    WindowConcat(before, TaskBytes(t), b, e);
    TaskWindow(t, |before|, b, e);
  }

  lemma FragmentsStep(fragments: seq<Fragment>, stream: seq<ByteRef>, t: Task, b: nat, e: nat)
    requires b < e && Expand(fragments) == Window(stream, b, e) && EndToEnd(fragments)
    ensures var more := TaskFragments(t, |stream|, b, e);
      Expand(fragments + more) == Window(stream + TaskBytes(t), b, e) && EndToEnd(fragments + more)
  {
    WindowSnoc(stream, t, b, e);
    if t.nbytes == 0 {
      assert fragments + [] == fragments;
    } else {
      TaskFragmentsMeaning(t, |stream|, b, e);
      FragmentPlacement(Span(t, |stream|, |stream| + t.nbytes), b, e);
      var more := TaskFragments(t, |stream|, b, e);
      if more == [] {
        EmptySuffix(fragments);
        EmptySuffix(Expand(fragments));
      } else {
        ExpandSnoc(fragments, more[0]);
        assert [more[0]] == more;
        EndToEndSnoc(fragments, more[0]);
      }
    }
  }

  /**
   Byte conservation of one work: its fragments, in order and end to end, address exactly
   the bytes [b, e) of the peer's stream, wherever its tasks begin and end.
   */
  lemma {:induction false} FragmentsAreWindow(tasks: seq<Task>, b: nat, e: nat)
    requires b < e
    ensures Expand(FragmentsFor(SpansOf(tasks), b, e)) == Window(Stream(tasks), b, e)
    ensures EndToEnd(FragmentsFor(SpansOf(tasks), b, e))
  {
    if tasks != [] {
      var init, last := tasks[..|tasks| - 1], tasks[|tasks| - 1];
      FragmentsAreWindow(init, b, e);
      StreamLength(init);
      FragmentsStep(FragmentsFor(SpansOf(init), b, e), Stream(init), last, b, e);
      FragmentsConcat(SpansOf(init), SpanOf(last, StreamBytes(init)), b, e);
    }
  }

  lemma {:induction false} FragmentCountBound(spans: seq<Span>, b: nat, e: nat)
    ensures |FragmentsFor(spans, b, e)| <= |spans|
  {
    if spans != [] { FragmentCountBound(spans[..|spans| - 1], b, e); }
  }

  // ---------------------------------------------------------------- the works of one channel part

  /** The works of the stream range [begin, hi), the first with this ordinal and first FIFO step. */
  function Works(
    begin: nat, hi: nat, chunkBytes: nat, stepBytes: nat, fifoDepth: nat, ordinal: nat, count: nat, step: nat)
    : seq<Skeleton>
    requires chunkBytes > 0 && stepBytes > 0
    decreases hi - begin
  {
    if hi <= begin then []
    else
      var end := Min(begin + chunkBytes, hi);
      [Skeleton(ordinal, count, end == hi, stepBytes, fifoDepth, begin, end - begin, step)]
      + Works(end, hi, chunkBytes, stepBytes, fifoDepth, ordinal + 1, count, step + DivUp(end - begin, stepBytes))
  }

  /** Works tile the stream range [lo, hi) without gap or overlap. */
  ghost predicate Tiles(works: seq<Skeleton>, lo: nat, hi: nat) {
    && (works == [] ==> lo >= hi)
    && (works != [] ==> works[0].streamOffset == lo && Ends(works[|works| - 1]) == hi)
    && forall i | 0 <= i < |works| ::
      works[i].nbytes > 0 && (i + 1 < |works| ==> works[i + 1].streamOffset == Ends(works[i]))
  }

  function Ends(w: Skeleton): nat {
    w.streamOffset + w.nbytes
  }

  /** Works occupy consecutive FIFO steps from first, up to but not including next. */
  ghost predicate ConsecutiveSteps(works: seq<Skeleton>, first: nat, next: nat) {
    && (works == [] ==> first == next)
    && (works != [] ==> works[0].stepBegin == first && NextStep(works[|works| - 1]) == next)
    && forall i | 0 <= i < |works| ::
      works[i].stepBytes > 0 && (i + 1 < |works| ==> works[i + 1].stepBegin == NextStep(works[i]))
  }

  function NextStep(w: Skeleton): nat {
    w.stepBegin + (if w.stepBytes == 0 then 0 else DivUp(w.nbytes, w.stepBytes))
  }

  /** Ordinals count from first, and exactly the last work is final. */
  ghost predicate Numbered(works: seq<Skeleton>, first: nat, count: nat) {
    forall i | 0 <= i < |works| ::
      works[i].chunkOrdinal == first + i && works[i].chunkCount == count && (works[i].isFinal <==> i == |works| - 1)
  }

  function FinalStep(works: seq<Skeleton>, first: nat): nat {
    if works == [] then first else NextStep(works[|works| - 1])
  }

  ghost predicate OneConnection(works: seq<Skeleton>, lo: nat, hi: nat, first: nat, ordinal: nat, count: nat) {
    && Tiles(works, lo, hi)
    && ConsecutiveSteps(works, first, FinalStep(works, first))
    && Numbered(works, ordinal, count)
  }

  lemma ConnectionCons(
    w: Skeleton, rest: seq<Skeleton>, hi: nat, count: nat)
    requires w.nbytes > 0 && w.stepBytes > 0 && w.chunkCount == count
    requires w.isFinal <==> Ends(w) == hi
    requires Ends(w) <= hi && (rest == [] ==> Ends(w) == hi) && (rest != [] ==> Ends(w) < hi)
    requires OneConnection(rest, Ends(w), hi, NextStep(w), w.chunkOrdinal + 1, count)
    ensures OneConnection([w] + rest, w.streamOffset, hi, w.stepBegin, w.chunkOrdinal, count)
  {
    var all := [w] + rest;
    assert forall i | 0 < i < |all| :: all[i] == rest[i - 1];
    assert rest != [] ==> all[|all| - 1] == rest[|rest| - 1];
  }

  lemma WorksCons(
    begin: nat, hi: nat, chunkBytes: nat, stepBytes: nat, fifoDepth: nat, ordinal: nat, count: nat, step: nat,
    w: Skeleton, rest: seq<Skeleton>)
    requires chunkBytes > 0 && stepBytes > 0 && begin < hi
    requires var end := Min(begin + chunkBytes, hi);
      && w == Skeleton(ordinal, count, end == hi, stepBytes, fifoDepth, begin, end - begin, step)
      && rest == Works(
           end, hi, chunkBytes, stepBytes, fifoDepth, ordinal + 1, count, step + DivUp(end - begin, stepBytes))
    ensures Works(begin, hi, chunkBytes, stepBytes, fifoDepth, ordinal, count, step) == [w] + rest
  {
  }

  /** One connection: its works tile the part, use consecutive FIFO steps, and end in the only final work. */
  lemma {:induction false} WorksAreStream(
    begin: nat, hi: nat, chunkBytes: nat, stepBytes: nat, fifoDepth: nat, ordinal: nat, count: nat, step: nat)
    requires chunkBytes > 0 && stepBytes > 0
    ensures begin <= hi ==>
      OneConnection(
        Works(begin, hi, chunkBytes, stepBytes, fifoDepth, ordinal, count, step), begin, hi, step, ordinal, count)
    ensures begin < hi <==> Works(begin, hi, chunkBytes, stepBytes, fifoDepth, ordinal, count, step) != []
    decreases hi - begin
  {
    if begin < hi {
      var end := Min(begin + chunkBytes, hi);
      var w := Skeleton(ordinal, count, end == hi, stepBytes, fifoDepth, begin, end - begin, step);
      var next := step + DivUp(end - begin, stepBytes);
      var rest := Works(end, hi, chunkBytes, stepBytes, fifoDepth, ordinal + 1, count, next);
      WorksAreStream(end, hi, chunkBytes, stepBytes, fifoDepth, ordinal + 1, count, next);
      WorksCons(begin, hi, chunkBytes, stepBytes, fifoDepth, ordinal, count, step, w, rest);
      ConnectionCons(w, rest, hi, count);
    }
  }

  /** The number of works is the chunk count the lowering computes beforehand. */
  lemma {:induction false} WorksLength(
    begin: nat, hi: nat, chunkBytes: nat, stepBytes: nat, fifoDepth: nat, ordinal: nat, count: nat, step: nat)
    requires chunkBytes > 0 && stepBytes > 0 && begin <= hi
    ensures |Works(begin, hi, chunkBytes, stepBytes, fifoDepth, ordinal, count, step)| == DivUp(hi - begin, chunkBytes)
    decreases hi - begin
  {
    if begin < hi {
      var end := Min(begin + chunkBytes, hi);
      WorksLength(
        end, hi, chunkBytes, stepBytes, fifoDepth, ordinal + 1, count, step + DivUp(end - begin, stepBytes));
      DivUpStep(hi - begin, chunkBytes);
    }
  }

  lemma DivUpStep(value: nat, divisor: nat)
    requires divisor > 0 && value > 0
    ensures DivUp(value, divisor) == 1 + DivUp(if value > divisor then value - divisor else 0, divisor)
  {
    if value > divisor {
      DivBounds(value - divisor - 1, divisor);
      var q := (value - divisor - 1) / divisor;
      assert (q + 1) * divisor == q * divisor + divisor;
      DivUnique(value - 1, divisor, q + 1);
    } else {
      DivUnique(value - 1, divisor, 0);
    }
  }
}
