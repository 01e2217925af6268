/**
 Both ends of a device transfer see the same per-peer stream: the same ordinals, offsets
 and lengths in chunked batches, and the same number of bytes in whole ones, which is what
 the v2 lowering needs.
 */
module DeviceStreams {
  import opened Basics
  import opened SequenceFacts
  import opened Sequences
  import opened TensorLayout
  import opened LayoutFragments
  import opened DeviceBatch
  import V2 = PeerLowering
  import Lower = Lowering
  import Schedule = LoweringSchedule
  import Theorems = LoweringTheorems

  // ---------------------------------------------------------------- the pieces of one operation

  function Scale(numels: seq<nat>, size: nat): seq<nat> {
    seq(|numels|, i requires 0 <= i < |numels| => Times(numels[i], size))
  }

  function SizesOf(pieces: seq<Piece>): seq<nat> {
    seq(|pieces|, i requires 0 <= i < |pieces| => pieces[i].nbytes)
  }

  /** Contiguous pieces of the spans that fragments name. */
  function SpanPieces(ptrs: seq<nat>, size: nat, fragments: seq<Fragment>): seq<Piece> {
    seq(|fragments|, i requires 0 <= i < |fragments| =>
      var f, bytes := fragments[i], Times(fragments[i].length, size);
      var at := if f.span < |ptrs| then ptrs[f.span] else 0;
      Piece(View(at + Times(f.offset, size), true, size, bytes, bytes), 0, bytes))
  }

  /** Consecutive pieces of one view. */
  function ViewPieces(view: View, sizes: seq<nat>): seq<Piece> {
    seq(|sizes|, i requires 0 <= i < |sizes| => Piece(view, Start(sizes, i), sizes[i]))
  }

  /** What the sender puts on the wire for one operation; size is the element size of its parameter. */
  function SendPieces(op: PlanOp, source: Source, size: nat): Result<seq<Piece>, DeviceError> {
    match SendNumels(op, source)
    case Err(e) => Err(e)
    case Ok(numels) =>
      match source
      case Dense(_, view) => Ok(ViewPieces(view, Scale(numels, size)))
      case Laid(shape, spans, ptrs) =>
        Ok(SpanPieces(ptrs, size, SlicedFragments(shape, op.trainSlices, spans).value))
  }

  function RecvPieces(op: PlanOp, target: Target, size: nat): Result<seq<Piece>, DeviceError> {
    match RecvNumels(op, target)
    case Err(e) => Err(e)
    case Ok(numels) => Ok(ViewPieces(target.view, Scale(numels, size)))
  }

  lemma SendSizes(op: PlanOp, source: Source, size: nat)
    requires SendPieces(op, source, size).Ok?
    ensures SendNumels(op, source).Ok?
    ensures SizesOf(SendPieces(op, source, size).value) == Scale(SendNumels(op, source).value, size)
  {
  }

  lemma RecvSizes(op: PlanOp, target: Target, size: nat)
    requires RecvPieces(op, target, size).Ok?
    ensures RecvNumels(op, target).Ok?
    ensures SizesOf(RecvPieces(op, target, size).value) == Scale(RecvNumels(op, target).value, size)
  {
  }

  // ---------------------------------------------------------------- the operations of one peer

  /** A planned operation with what the sender, or the receiver, has for it. */
  datatype SendOp = SendOp(op: PlanOp, source: Source, elementSize: nat)

  datatype RecvOp = RecvOp(op: PlanOp, target: Target, elementSize: nat)

  function SendAll(ops: seq<SendOp>): Result<seq<Piece>, DeviceError> {
    if ops == [] then Ok([])
    else
      var last := ops[|ops| - 1];
      match SendAll(ops[..|ops| - 1])
      case Err(e) => Err(e)
      case Ok(before) =>
        match SendPieces(last.op, last.source, last.elementSize)
        case Err(e) => Err(e)
        case Ok(pieces) => Ok(before + pieces)
  }

  function RecvAll(ops: seq<RecvOp>): Result<seq<Piece>, DeviceError> {
    if ops == [] then Ok([])
    else
      var last := ops[|ops| - 1];
      match RecvAll(ops[..|ops| - 1])
      case Err(e) => Err(e)
      case Ok(before) =>
        match RecvPieces(last.op, last.target, last.elementSize)
        case Err(e) => Err(e)
        case Ok(pieces) => Ok(before + pieces)
  }

  /** The two ends list the same operations, with the same element sizes. */
  ghost predicate SameOps(sends: seq<SendOp>, recvs: seq<RecvOp>) {
    && |sends| == |recvs|
    && forall i | 0 <= i < |sends| :: sends[i].op == recvs[i].op && sends[i].elementSize == recvs[i].elementSize
  }

  lemma SizesConcat(a: seq<Piece>, b: seq<Piece>)
    ensures SizesOf(a + b) == SizesOf(a) + SizesOf(b)
  {
  }

  /** With every operation annotated, both ends cut the peer's stream at the same places. */
  lemma {:induction false} SizesAgree(sends: seq<SendOp>, recvs: seq<RecvOp>)
    requires SameOps(sends, recvs) && SendAll(sends).Ok? && RecvAll(recvs).Ok?
    requires forall i | 0 <= i < |sends| :: Annotated(sends[i].op, sends[i].source, recvs[i].target)
    ensures SizesOf(SendAll(sends).value) == SizesOf(RecvAll(recvs).value)
  {
    if sends != [] {
      var k := |sends| - 1;
      var s, r := sends[k], recvs[k];
      SizesAgree(sends[..k], recvs[..k]);
      SendSizes(s.op, s.source, s.elementSize);
      RecvSizes(r.op, r.target, r.elementSize);
      PiecesAgree(s.op, s.source, r.target);
      SizesConcat(SendAll(sends[..k]).value, SendPieces(s.op, s.source, s.elementSize).value);
      SizesConcat(RecvAll(recvs[..k]).value, RecvPieces(r.op, r.target, r.elementSize).value);
    }
  }

  lemma {:induction false} ScaledSum(numels: seq<nat>, size: nat)
    ensures Sum(Scale(numels, size)) == Times(Sum(numels), size)
  {
    if numels != [] {
      var init := numels[..|numels| - 1];
      ScaledSum(init, size);
      assert Scale(numels, size)[..|init|] == Scale(init, size);
      TimesAdd(Sum(init), numels[|init|], size);
    }
  }

  lemma {:induction false} BytesAreSum(pieces: seq<Piece>)
    ensures PieceBytes(pieces) == Sum(SizesOf(pieces))
  {
    if pieces != [] {
      BytesAreSum(pieces[..|pieces| - 1]);
      assert SizesOf(pieces)[..|pieces| - 1] == SizesOf(pieces[..|pieces| - 1]);
    }
  }

  lemma {:induction false} BytesConcat(a: seq<Piece>, b: seq<Piece>)
    ensures PieceBytes(a + b) == PieceBytes(a) + PieceBytes(b)
  {
    if b == [] {
      EmptySuffix(a);
    } else {
      var init, last := b[..|b| - 1], b[|b| - 1];
      BytesConcat(a, init);
      SnocOf(b);
      Associate(a, init, [last]);
      SnocParts(a + init, last);
    }
  }

  lemma OneOpBytes(s: SendOp, r: RecvOp)
    requires s.op == r.op && s.elementSize == r.elementSize && Selects(s.op, s.source) == Some(r.target.numel)
    requires SendPieces(s.op, s.source, s.elementSize).Ok? && RecvPieces(r.op, r.target, r.elementSize).Ok?
    ensures PieceBytes(SendPieces(s.op, s.source, s.elementSize).value)
         == PieceBytes(RecvPieces(r.op, r.target, r.elementSize).value)
  {
    SendSizes(s.op, s.source, s.elementSize);
    RecvSizes(r.op, r.target, r.elementSize);
    TotalsAgree(s.op, s.source, r.target);
    BytesAreSum(SendPieces(s.op, s.source, s.elementSize).value);
    BytesAreSum(RecvPieces(r.op, r.target, r.elementSize).value);
    ScaledSum(SendNumels(s.op, s.source).value, s.elementSize);
    ScaledSum(RecvNumels(r.op, r.target).value, r.elementSize);
  }

  /** Annotated or not, both ends count the same bytes for the peer's stream. */
  lemma {:induction false} StreamBytesAgree(sends: seq<SendOp>, recvs: seq<RecvOp>)
    requires SameOps(sends, recvs) && SendAll(sends).Ok? && RecvAll(recvs).Ok?
    requires forall i | 0 <= i < |sends| :: Selects(sends[i].op, sends[i].source) == Some(recvs[i].target.numel)
    ensures PieceBytes(SendAll(sends).value) == PieceBytes(RecvAll(recvs).value)
  {
    if sends != [] {
      var k := |sends| - 1;
      var s, r := sends[k], recvs[k];
      StreamBytesAgree(sends[..k], recvs[..k]);
      OneOpBytes(s, r);
      BytesConcat(SendAll(sends[..k]).value, SendPieces(s.op, s.source, s.elementSize).value);
      BytesConcat(RecvAll(recvs[..k]).value, RecvPieces(r.op, r.target, r.elementSize).value);
    }
  }

  // ---------------------------------------------------------------- task shapes

  /** The part of a task that both ends must agree on. */
  datatype Shape = Shape(ordinal: nat, offset: nat, length: nat)

  function ShapesOf(entries: seq<Entry>): seq<Shape> {
    seq(|entries|, i requires 0 <= i < |entries| => Shape(entries[i].ordinal, entries[i].offset, entries[i].length))
  }

  function RangeShapes(chunks: seq<Chunk>, offset: nat, ordinal: nat): seq<Shape> {
    seq(|chunks|, i requires 0 <= i < |chunks| => Shape(ordinal + i, offset + chunks[i].byteOffset, chunks[i].nbytes))
  }

  /** The shapes of a peer's tasks, from the sizes of its ranges alone. */
  function PeerShapes(mode: Mode, sizes: seq<nat>): seq<Shape> {
    if sizes == [] then []
    else
      var before := PeerShapes(mode, sizes[..|sizes| - 1]);
      before + RangeShapes(Cut(mode, sizes[|sizes| - 1]), Sum(sizes[..|sizes| - 1]), |before|)
  }

  lemma {:induction false} ShapesOfRange(
    mode: Mode, p: Piece, chunks: seq<Chunk>, peer: nat, region: nat, peerOffset: nat, ordinal: nat)
    ensures ShapesOf(RangeEntries(mode, p, chunks, peer, region, peerOffset, ordinal))
         == RangeShapes(chunks, peerOffset, ordinal)
  {
    if chunks != [] {
      var k := |chunks| - 1;
      var e := EntryFor(mode, p, chunks[k], peer, region, peerOffset, ordinal + k);
      ShapesOfRange(mode, p, chunks[..k], peer, region, peerOffset, ordinal);
      RangeLength(mode, p, chunks[..k], peer, region, peerOffset, ordinal);
      ShapesConcat(RangeEntries(mode, p, chunks[..k], peer, region, peerOffset, ordinal), [e]);
      assert ShapesOf([e]) == [Shape(e.ordinal, e.offset, e.length)];
      assert RangeShapes(chunks, peerOffset, ordinal)
          == RangeShapes(chunks[..k], peerOffset, ordinal) + [Shape(e.ordinal, e.offset, e.length)];
    }
  }

  lemma ShapesConcat(a: seq<Entry>, b: seq<Entry>)
    ensures ShapesOf(a + b) == ShapesOf(a) + ShapesOf(b)
  {
  }

  /** A peer's tasks have the same shapes at both ends whenever its ranges have the same sizes. */
  lemma {:induction false} ShapesOfPeer(mode: Mode, pieces: seq<Piece>, peer: nat, region: nat)
    ensures ShapesOf(PeerEntries(mode, pieces, peer, region)) == PeerShapes(mode, SizesOf(pieces))
  {
    if pieces != [] {
      var init, p := pieces[..|pieces| - 1], pieces[|pieces| - 1];
      var before := PeerEntries(mode, init, peer, region);
      ShapesOfPeer(mode, init, peer, region);
      ShapesOfRange(mode, p, Cut(mode, p.nbytes), peer, region, PieceBytes(init), |before|);
      ShapesConcat(before, RangeEntries(mode, p, Cut(mode, p.nbytes), peer, region, PieceBytes(init), |before|));
      BytesAreSum(init);
      assert SizesOf(pieces)[..|init|] == SizesOf(init);
    }
  }

  /** Ordinals count from zero, ranges lie end to end from zero, and the last ends the stream. */
  ghost predicate DenseStream(shapes: seq<Shape>, total: nat) {
    if shapes == [] then total == 0
    else
      var last := shapes[|shapes| - 1];
      last.ordinal == |shapes| - 1 && last.offset + last.length == total
      && DenseStream(shapes[..|shapes| - 1], last.offset)
  }

  lemma {:induction false} TilesAppend(before: seq<Shape>, at: nat, chunks: seq<Chunk>, lo: nat, hi: nat)
    requires DenseStream(before, at + lo) && TileBytes(chunks, lo, hi)
    ensures DenseStream(before + RangeShapes(chunks, at, |before|), at + hi)
    decreases |chunks|
  {
    if chunks == [] {
      EmptySuffix(before);
    } else {
      var first := Shape(|before|, at + lo, chunks[0].nbytes);
      SnocParts(before, first);
      TilesAppend(before + [first], at, chunks[1..], lo + chunks[0].nbytes, hi);
      Associate(before, [first], RangeShapes(chunks[1..], at, |before| + 1));
      assert RangeShapes(chunks, at, |before|) == [first] + RangeShapes(chunks[1..], at, |before| + 1);
    }
  }

  /** A peer's stream is dense and contiguous from zero, whatever the mode. */
  lemma {:induction false} PeerStreamIsDense(mode: Mode, sizes: seq<nat>)
    ensures DenseStream(PeerShapes(mode, sizes), Sum(sizes))
  {
    if sizes != [] {
      var init, last := sizes[..|sizes| - 1], sizes[|sizes| - 1];
      var before := PeerShapes(mode, init);
      PeerStreamIsDense(mode, init);
      match mode {
        case Chunked(chunkBytes) =>
          ChunksTile(last, chunkBytes);
          TilesAppend(before, Sum(init), Cut(mode, last), 0, last);
        case Whole =>
          var only := Shape(|before|, Sum(init), last);
          assert RangeShapes(Cut(mode, last), Sum(init), |before|) == [only];
          SnocParts(before, only);
      }
    }
  }

  // ---------------------------------------------------------------- one peer of a batch

  function ForPeer(peer: nat): Entry -> bool { (e: Entry) => e.peer == peer }

  ghost predicate DistinctPeers(groups: seq<Group>) {
    forall i, j | 0 <= i < j < |groups| :: groups[i].peer != groups[j].peer
  }

  lemma {:induction false} RangePeers(
    mode: Mode, p: Piece, chunks: seq<Chunk>, peer: nat, region: nat, peerOffset: nat, ordinal: nat)
    ensures forall e <- RangeEntries(mode, p, chunks, peer, region, peerOffset, ordinal) :: e.peer == peer && e.region == region
  {
    if chunks != [] { RangePeers(mode, p, chunks[..|chunks| - 1], peer, region, peerOffset, ordinal); }
  }

  lemma {:induction false} EntriesPeers(mode: Mode, pieces: seq<Piece>, peer: nat, region: nat)
    ensures forall e <- PeerEntries(mode, pieces, peer, region) :: e.peer == peer && e.region == region
  {
    if pieces != [] {
      var init, p := pieces[..|pieces| - 1], pieces[|pieces| - 1];
      EntriesPeers(mode, init, peer, region);
      RangePeers(
        mode, p, Cut(mode, p.nbytes), peer, region, PieceBytes(init), |PeerEntries(mode, init, peer, region)|);
    }
  }

  lemma {:induction false} NoEntries(mode: Mode, groups: seq<Group>, peer: nat)
    requires forall i | 0 <= i < |groups| :: groups[i].peer != peer
    ensures Filter(ForPeer(peer), BatchEntries(mode, groups)) == []
  {
    if groups != [] {
      var init, g := groups[..|groups| - 1], groups[|groups| - 1];
      NoEntries(mode, init, peer);
      EntriesPeers(mode, g.pieces, g.peer, g.region);
      FilterNone(ForPeer(peer), PeerEntries(mode, g.pieces, g.peer, g.region));
      FilterConcat(ForPeer(peer), BatchEntries(mode, init), PeerEntries(mode, g.pieces, g.peer, g.region));
    }
  }

  /** The tasks of a batch for one peer are exactly the tasks of its group. */
  lemma {:induction false} BatchByPeer(mode: Mode, groups: seq<Group>, k: nat)
    requires DistinctPeers(groups) && k < |groups|
    ensures Filter(ForPeer(groups[k].peer), BatchEntries(mode, groups))
         == PeerEntries(mode, groups[k].pieces, groups[k].peer, groups[k].region)
  {
    var init, g, peer := groups[..|groups| - 1], groups[|groups| - 1], groups[k].peer;
    var last := PeerEntries(mode, g.pieces, g.peer, g.region);
    EntriesPeers(mode, g.pieces, g.peer, g.region);
    FilterConcat(ForPeer(peer), BatchEntries(mode, init), last);
    if k < |init| {
      BatchByPeer(mode, init, k);
      FilterNone(ForPeer(peer), last);
      EmptySuffix(PeerEntries(mode, groups[k].pieces, peer, groups[k].region));
    } else {
      NoEntries(mode, init, peer);
      FilterAll(ForPeer(peer), last);
      EmptyPrefix(last);
    }
  }

  /**
   Chunked agreement: when the two ends list the same annotated operations for each other,
   their batches hold the same stream of (ordinal, offset, length) for each other, dense
   and contiguous from zero.
   */
  lemma BatchStreamsAgree(
    mode: Mode, sendGroups: seq<Group>, i: nat, sends: seq<SendOp>, recvGroups: seq<Group>, j: nat, recvs: seq<RecvOp>)
    requires DistinctPeers(sendGroups) && i < |sendGroups| && DistinctPeers(recvGroups) && j < |recvGroups|
    requires SendAll(sends) == Ok(sendGroups[i].pieces) && RecvAll(recvs) == Ok(recvGroups[j].pieces)
    requires SameOps(sends, recvs)
    requires forall k | 0 <= k < |sends| :: Annotated(sends[k].op, sends[k].source, recvs[k].target)
    ensures var sent := ShapesOf(Filter(ForPeer(sendGroups[i].peer), BatchEntries(mode, sendGroups)));
      var received := ShapesOf(Filter(ForPeer(recvGroups[j].peer), BatchEntries(mode, recvGroups)));
      sent == received && DenseStream(sent, PieceBytes(sendGroups[i].pieces))
  {
    var sizes := SizesOf(sendGroups[i].pieces);
    BatchByPeer(mode, sendGroups, i);
    BatchByPeer(mode, recvGroups, j);
    ShapesOfPeer(mode, sendGroups[i].pieces, sendGroups[i].peer, sendGroups[i].region);
    ShapesOfPeer(mode, recvGroups[j].pieces, recvGroups[j].peer, recvGroups[j].region);
    SizesAgree(sends, recvs);
    PeerStreamIsDense(mode, sizes);
    BytesAreSum(sendGroups[i].pieces);
  }

  // ---------------------------------------------------------------- regions of the symmetric window

  /** Every region holds the largest request of any rank, as a maximum over all ranks gives it. */
  ghost predicate Allocated(regionSizes: seq<nat>, requested: seq<nat>) {
    |regionSizes| == |requested| && forall r | 0 <= r < |requested| :: requested[r] <= regionSizes[r]
  }

  /** Lays the regions end to end and returns where each starts, and the total. */
  method PlaceRegions(regionSizes: seq<nat>) returns (offsets: seq<nat>, total: nat)
    ensures |offsets| == |regionSizes| && total == Total(regionSizes)
    ensures forall r | 0 <= r < |regionSizes| :: offsets[r] == Start(regionSizes, r)
  {
    offsets, total := [], 0;
    for r := 0 to |regionSizes|
      invariant |offsets| == r && total == Start(regionSizes, r)
      invariant forall i | 0 <= i < r :: offsets[i] == Start(regionSizes, i)
    {
      offsets := offsets + [total];
      total := total + regionSizes[r];
    }
  }

  function Absolute(regionSizes: seq<nat>, e: Entry): nat
    requires e.region < |regionSizes|
  {
    Start(regionSizes, e.region) + e.offset
  }

  lemma {:induction false} RangeInside(
    mode: Mode, p: Piece, chunks: seq<Chunk>, peer: nat, region: nat, peerOffset: nat, ordinal: nat, limit: nat)
    requires forall c <- chunks :: c.byteOffset + c.nbytes <= limit
    ensures forall e <- RangeEntries(mode, p, chunks, peer, region, peerOffset, ordinal) ::
      e.offset + e.length <= peerOffset + limit
  {
    if chunks != [] {
      var k := |chunks| - 1;
      assert chunks[k] in chunks && forall c <- chunks[..k] :: c in chunks;
      RangeInside(mode, p, chunks[..k], peer, region, peerOffset, ordinal, limit);
    }
  }

  lemma {:induction false} TilesInside(chunks: seq<Chunk>, lo: nat, hi: nat)
    requires TileBytes(chunks, lo, hi)
    ensures lo <= hi && forall c <- chunks :: c.byteOffset + c.nbytes <= hi
    decreases |chunks|
  {
    if chunks != [] {
      TilesInside(chunks[1..], lo + chunks[0].nbytes, hi);
      ConsOf(chunks);
    }
  }

  lemma {:induction false} EntriesInside(mode: Mode, pieces: seq<Piece>, peer: nat, region: nat)
    ensures forall e <- PeerEntries(mode, pieces, peer, region) :: e.offset + e.length <= PieceBytes(pieces)
  {
    if pieces != [] {
      var init, p := pieces[..|pieces| - 1], pieces[|pieces| - 1];
      EntriesInside(mode, init, peer, region);
      if mode.Chunked? {
        ChunksTile(p.nbytes, mode.chunkBytes);
        TilesInside(Cut(mode, p.nbytes), 0, p.nbytes);
      }
      RangeInside(
        mode, p, Cut(mode, p.nbytes), peer, region, PieceBytes(init), |PeerEntries(mode, init, peer, region)|, p.nbytes);
    }
  }

  lemma {:induction false} EntryInRegion(mode: Mode, groups: seq<Group>, e: Entry)
    requires e in BatchEntries(mode, groups)
    ensures e.offset + e.length <= RegionBytes(groups, e.region)
  {
    var init, g := groups[..|groups| - 1], groups[|groups| - 1];
    if e in BatchEntries(mode, init) {
      EntryInRegion(mode, init, e);
    } else {
      assert e in PeerEntries(mode, g.pieces, g.peer, g.region);
      EntriesInside(mode, g.pieces, g.peer, g.region);
      EntriesPeers(mode, g.pieces, g.peer, g.region);
    }
  }

  /**
   Tasks of different regions, that is of different senders, never overlap in the window,
   and the two ends of one task address the same bytes of it.
   */
  lemma RegionsAreDisjoint(
    mode: Mode, groups: seq<Group>, others: seq<Group>, regionSizes: seq<nat>, requested: seq<nat>, wanted: seq<nat>,
    e: Entry, f: Entry)
    requires e in BatchEntries(mode, groups) && f in BatchEntries(mode, others)
    requires Allocated(regionSizes, requested) && Allocated(regionSizes, wanted)
    requires forall r: nat | r < |requested| :: requested[r] == RegionBytes(groups, r)
    requires forall r: nat | r < |wanted| :: wanted[r] == RegionBytes(others, r)
    requires e.region < |regionSizes| && f.region < |regionSizes|
    ensures Absolute(regionSizes, e) + e.length <= Total(regionSizes)
    ensures e.region < f.region ==> Absolute(regionSizes, e) + e.length <= Absolute(regionSizes, f)
    ensures e.region > f.region ==> Absolute(regionSizes, f) + f.length <= Absolute(regionSizes, e)
    ensures e.region == f.region && e.offset == f.offset ==> Absolute(regionSizes, e) == Absolute(regionSizes, f)
  {
    EntryInRegion(mode, groups, e);
    EntryInRegion(mode, others, f);
    RegionEnds(regionSizes, e, |regionSizes|);
    if e.region < f.region { RegionEnds(regionSizes, e, f.region); }
    if f.region < e.region { RegionEnds(regionSizes, f, e.region); }
  }

  /** What lies inside its region lies before every later one. */
  lemma RegionEnds(regionSizes: seq<nat>, e: Entry, later: nat)
    requires e.region < later <= |regionSizes| && e.offset + e.length <= regionSizes[e.region]
    ensures Absolute(regionSizes, e) + e.length <= Start(regionSizes, later)
  {
    StartMonotone(regionSizes, e.region + 1, later);
  }

  // ---------------------------------------------------------------- the v2 lowering of a batch

  function TaskOf(e: Entry): V2.Task {
    V2.Task(e.ptr, e.length, e.tensorOffset, e.rowBytes, e.rowStride, e.peer, e.ordinal)
  }

  function TasksFor(entries: seq<Entry>): seq<V2.Task> {
    if entries == [] then [] else TasksFor(entries[..|entries| - 1]) + [TaskOf(entries[|entries| - 1])]
  }

  lemma {:induction false} TasksConcat(a: seq<Entry>, b: seq<Entry>)
    ensures TasksFor(a + b) == TasksFor(a) + TasksFor(b)
  {
    if b == [] {
      EmptySuffix(a);
      EmptySuffix(TasksFor(a));
    } else {
      var init, last := b[..|b| - 1], b[|b| - 1];
      TasksConcat(a, init);
      SnocOf(b);
      Associate(a, init, [last]);
      SnocParts(a + init, last);
      Associate(TasksFor(a), TasksFor(init), [TaskOf(last)]);
    }
  }

  lemma {:induction false} TasksByPeer(entries: seq<Entry>, peer: nat)
    ensures Schedule.TasksOf(TasksFor(entries), peer) == TasksFor(Filter(ForPeer(peer), entries))
  {
    if entries != [] {
      var init, e := entries[..|entries| - 1], entries[|entries| - 1];
      TasksByPeer(init, peer);
      SnocOf(entries);
      FilterConcat(ForPeer(peer), init, [e]);
      FilterOne(ForPeer(peer), e);
      FilterConcat(Schedule.OfPeer(peer), TasksFor(init), [TaskOf(e)]);
      FilterOne(Schedule.OfPeer(peer), TaskOf(e));
      if e.peer == peer {
        SnocParts(Filter(ForPeer(peer), init), e);
      } else {
        EmptySuffix(Filter(ForPeer(peer), init));
        EmptySuffix(TasksFor(Filter(ForPeer(peer), init)));
      }
    }
  }

  lemma WholeEntry(p: Piece, peer: nat, region: nat, peerOffset: nat, ordinal: nat) returns (e: Entry)
    ensures RangeEntries(Whole, p, Cut(Whole, p.nbytes), peer, region, peerOffset, ordinal) == [e]
    ensures e.length == p.nbytes && e.peer == peer && e.ordinal == ordinal
    ensures e.rowBytes == p.view.rowBytes && e.rowStride == p.view.rowStride
  {
    var c := Chunk(0, p.nbytes);
    e := EntryFor(Whole, p, c, peer, region, peerOffset, ordinal);
    assert [c][..0] == [];
    EmptyPrefix([e]);
  }

  /** The v2 stream of a peer has exactly the bytes of its ranges. */
  lemma {:induction false} WholeStreamBytes(pieces: seq<Piece>, peer: nat, region: nat)
    ensures V2.StreamBytes(TasksFor(PeerEntries(Whole, pieces, peer, region))) == PieceBytes(pieces)
    ensures |PeerEntries(Whole, pieces, peer, region)| == |pieces|
  {
    if pieces != [] {
      var init, p := pieces[..|pieces| - 1], pieces[|pieces| - 1];
      var before := PeerEntries(Whole, init, peer, region);
      WholeStreamBytes(init, peer, region);
      var e := WholeEntry(p, peer, region, PieceBytes(init), |before|);
      SnocParts(before, e);
      SnocParts(TasksFor(before), TaskOf(e));
    }
  }

  lemma BatchStreamBytes(groups: seq<Group>, k: nat)
    requires DistinctPeers(groups) && k < |groups|
    ensures V2.StreamBytes(Schedule.TasksOf(TasksFor(BatchEntries(Whole, groups)), groups[k].peer))
         == PieceBytes(groups[k].pieces)
  {
    TasksByPeer(BatchEntries(Whole, groups), groups[k].peer);
    BatchByPeer(Whole, groups, k);
    WholeStreamBytes(groups[k].pieces, groups[k].peer, groups[k].region);
  }

  predicate RowsSound(pieces: seq<Piece>) {
    forall i | 0 <= i < |pieces| :: 0 < pieces[i].view.rowBytes <= pieces[i].view.rowStride
  }

  lemma DefectSnoc(c: Lower.Config, active: seq<nat>, tasks: seq<V2.Task>, t: V2.Task)
    requires Schedule.TasksDefect(c, active, tasks).None?
    ensures Schedule.TasksDefect(c, active, tasks + [t]).None? <==>
      t.peer < c.worldSize && t.peer in active && 0 < t.rowBytes <= t.rowStride
      && t.ordinal == |Schedule.TasksOf(tasks, t.peer)|
  {
    SnocParts(tasks, t);
  }

  lemma {:induction false} DefectStays(c: Lower.Config, active: seq<nat>, tasks: seq<V2.Task>, more: seq<V2.Task>)
    requires Schedule.TasksDefect(c, active, tasks).Some?
    ensures Schedule.TasksDefect(c, active, tasks + more).Some?
  {
    if more == [] {
      EmptySuffix(tasks);
    } else {
      var init, last := more[..|more| - 1], more[|more| - 1];
      DefectStays(c, active, tasks, init);
      SnocOf(more);
      Associate(tasks, init, [last]);
      SnocParts(tasks + init, last);
    }
  }

  /** One more task with the next ordinal passes when the tasks before it do and its row is sound. */
  lemma OnePasses(c: Lower.Config, active: seq<nat>, tasks: seq<V2.Task>, sound: bool, t: V2.Task)
    requires Schedule.TasksDefect(c, active, tasks).None? <==> sound
    requires t.peer < c.worldSize && t.peer in active && t.ordinal == |Schedule.TasksOf(tasks, t.peer)|
    ensures Schedule.TasksDefect(c, active, tasks + [t]).None? <==> sound && 0 < t.rowBytes <= t.rowStride
    ensures |Schedule.TasksOf(tasks + [t], t.peer)| == |Schedule.TasksOf(tasks, t.peer)| + 1
  {
    FilterConcat(Schedule.OfPeer(t.peer), tasks, [t]);
    FilterOne(Schedule.OfPeer(t.peer), t);
    if sound { DefectSnoc(c, active, tasks, t); } else { DefectStays(c, active, tasks, [t]); }
  }

  lemma RowsSoundNext(pieces: seq<Piece>)
    requires pieces != []
    ensures var last := pieces[|pieces| - 1];
      RowsSound(pieces) <==> RowsSound(pieces[..|pieces| - 1]) && 0 < last.view.rowBytes <= last.view.rowStride
  {
    assert forall i | 0 <= i < |pieces| - 1 :: pieces[..|pieces| - 1][i] == pieces[i];
  }

  /** Adding one peer's tasks to tasks of other peers passes the checks exactly when its rows are sound. */
  lemma {:induction false} GroupPasses(
    c: Lower.Config, active: seq<nat>, before: seq<V2.Task>, pieces: seq<Piece>, peer: nat, region: nat)
    requires Schedule.TasksDefect(c, active, before).None? && Schedule.TasksOf(before, peer) == []
    requires peer < c.worldSize && peer in active
    ensures Schedule.TasksDefect(c, active, before + TasksFor(PeerEntries(Whole, pieces, peer, region))).None?
       <==> RowsSound(pieces)
    ensures |Schedule.TasksOf(before + TasksFor(PeerEntries(Whole, pieces, peer, region)), peer)| == |pieces|
  {
    if pieces == [] {
      EmptySuffix(before);
    } else {
      var init, p := pieces[..|pieces| - 1], pieces[|pieces| - 1];
      var done := PeerEntries(Whole, init, peer, region);
      GroupPasses(c, active, before, init, peer, region);
      WholeStreamBytes(init, peer, region);
      var e := WholeEntry(p, peer, region, PieceBytes(init), |done|);
      SnocParts(done, e);
      Associate(before, TasksFor(done), [TaskOf(e)]);
      OnePasses(c, active, before + TasksFor(done), RowsSound(init), TaskOf(e));
      RowsSoundNext(pieces);
    }
  }

  lemma {:induction false} NoTasks(groups: seq<Group>, peer: nat)
    requires forall i | 0 <= i < |groups| :: groups[i].peer != peer
    ensures Schedule.TasksOf(TasksFor(BatchEntries(Whole, groups)), peer) == []
  {
    TasksByPeer(BatchEntries(Whole, groups), peer);
    NoEntries(Whole, groups, peer);
  }

  /**
   A whole batch passes the lowering's task checks exactly when every range has sound rows;
   an empty contiguous tensor, whose row is empty, is the one thing they refuse.
   */
  lemma {:induction false} BatchPassesChecks(c: Lower.Config, active: seq<nat>, groups: seq<Group>)
    requires DistinctPeers(groups)
    requires forall i | 0 <= i < |groups| :: groups[i].peer < c.worldSize && groups[i].peer in active
    ensures Schedule.TasksDefect(c, active, TasksFor(BatchEntries(Whole, groups))).None?
       <==> forall i | 0 <= i < |groups| :: RowsSound(groups[i].pieces)
  {
    if groups != [] {
      var init, g := groups[..|groups| - 1], groups[|groups| - 1];
      var mine := PeerEntries(Whole, g.pieces, g.peer, g.region);
      assert forall i | 0 <= i < |init| :: init[i] == groups[i];
      BatchPassesChecks(c, active, init);
      TasksConcat(BatchEntries(Whole, init), mine);
      if forall i | 0 <= i < |init| :: RowsSound(init[i].pieces) {
        NoTasks(init, g.peer);
        GroupPasses(c, active, TasksFor(BatchEntries(Whole, init)), g.pieces, g.peer, g.region);
      } else {
        DefectStays(c, active, TasksFor(BatchEntries(Whole, init)), TasksFor(mine));
      }
    }
  }

  /**
   The two ends of a v2 transfer, from their own operation lists to their channels: with
   the same operations and the same element counts, whatever the tensors and spans behind
   them, both execute the same works on every channel and end on the same FIFO steps.
   */
  lemma DeviceEndsAgree(
    a: Lower.Config, sends: seq<SendOp>, sendGroups: seq<Group>, i: nat, activeA: seq<nat>,
    sA: Schedule.Schedule, tableA: seq<Lower.PeerResult>,
    b: Lower.Config, recvs: seq<RecvOp>, recvGroups: seq<Group>, j: nat, activeB: seq<nat>,
    sB: Schedule.Schedule, tableB: seq<Lower.PeerResult>, channel: nat)
    requires Lower.PairAgrees(a, b) && channel < a.totalChannels
    requires DistinctPeers(sendGroups) && i < |sendGroups| && sendGroups[i].peer == b.localRank
    requires DistinctPeers(recvGroups) && j < |recvGroups| && recvGroups[j].peer == a.localRank
    requires SendAll(sends) == Ok(sendGroups[i].pieces) && RecvAll(recvs) == Ok(recvGroups[j].pieces)
    requires SameOps(sends, recvs)
    requires forall k | 0 <= k < |sends| :: Selects(sends[k].op, sends[k].source) == Some(recvs[k].target.numel)
    requires Schedule.Lowered(a, activeA, TasksFor(BatchEntries(Whole, sendGroups)), sA, tableA)
    requires Schedule.Lowered(b, activeB, TasksFor(BatchEntries(Whole, recvGroups)), sB, tableB)
    requires b.localRank in activeA && a.localRank in activeB
    ensures V2.Skeletons(Theorems.PeerWorksOn(tableA, activeA, a.totalChannels, channel, b.localRank))
         == V2.Skeletons(Theorems.PeerWorksOn(tableB, activeB, b.totalChannels, channel, a.localRank))
    ensures |sA.nextSteps[b.localRank]| == |sB.nextSteps[a.localRank]| == a.totalChannels
    ensures sA.nextSteps[b.localRank][channel] == sB.nextSteps[a.localRank][channel]
  {
    StreamBytesAgree(sends, recvs);
    BatchStreamBytes(sendGroups, i);
    BatchStreamBytes(recvGroups, j);
    Theorems.EndsAgree(
      a, activeA, TasksFor(BatchEntries(Whole, sendGroups)), sA, tableA,
      b, activeB, TasksFor(BatchEntries(Whole, recvGroups)), sB, tableB, channel);
  }
}
