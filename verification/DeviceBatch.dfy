/**
 Device batches: how the two ends of a transfer turn their operation lists into per-peer
 task streams. The chunked form cuts every tensor range into fixed-size tasks; the whole
 form keeps one task per range and leaves the cutting to the v2 lowering.
 */
module DeviceBatch {
  import opened Basics
  import opened SequenceFacts
  import opened Sequences
  import opened TensorLayout
  import opened LayoutFragments
  import opened SingleFragment

  datatype DeviceError =
    InvalidPeer | SelfTransfer | LayoutMismatch | TargetMismatch | Misaligned | BadLayout(layout: LayoutError)

  // ---------------------------------------------------------------- transfer chunks

  /** A contiguous byte range of one tensor range. */
  datatype Chunk = Chunk(byteOffset: nat, nbytes: nat)

  function ChunksFrom(at: nat, total: nat, chunkBytes: nat): seq<Chunk>
    requires chunkBytes > 0
    decreases total - at
  {
    if at >= total then []
    else [Chunk(at, Min(chunkBytes, total - at))] + ChunksFrom(at + chunkBytes, total, chunkBytes)
  }

  function TransferChunks(total: nat, chunkBytes: int): seq<Chunk> {
    if total == 0 then []
    else if chunkBytes <= 0 then [Chunk(0, total)]
    else ChunksFrom(0, total, chunkBytes)
  }

  method BuildTransferChunks(total: nat, chunkBytes: int) returns (chunks: seq<Chunk>)
    ensures chunks == TransferChunks(total, chunkBytes)
  {
    if total == 0 {
      return [];
    }
    if chunkBytes <= 0 {
      return [Chunk(0, total)];
    }
    chunks := [];
    var at: nat := 0;
    EmptyPrefix(ChunksFrom(0, total, chunkBytes));
    while at < total
      invariant chunks + ChunksFrom(at, total, chunkBytes) == ChunksFrom(0, total, chunkBytes)
      decreases total - at
    {
      Associate(chunks, [Chunk(at, Min(chunkBytes, total - at))], ChunksFrom(at + chunkBytes, total, chunkBytes));
      chunks := chunks + [Chunk(at, Min(chunkBytes, total - at))];
      at := at + chunkBytes;
    }
    EmptySuffix(chunks);
  }

  /** Non-empty chunks end to end from lo to hi. */
  ghost predicate TileBytes(chunks: seq<Chunk>, lo: nat, hi: nat) {
    if chunks == [] then lo == hi
    else chunks[0].byteOffset == lo && chunks[0].nbytes > 0 && TileBytes(chunks[1..], lo + chunks[0].nbytes, hi)
  }

  lemma {:induction false} ChunksFromTile(at: nat, total: nat, chunkBytes: nat)
    requires chunkBytes > 0 && at <= total
    ensures TileBytes(ChunksFrom(at, total, chunkBytes), at, total)
    decreases total - at
  {
    if at < total {
      var head := Chunk(at, Min(chunkBytes, total - at));
      if at + chunkBytes <= total {
        ChunksFromTile(at + chunkBytes, total, chunkBytes);
      } else {
        assert ChunksFrom(at + chunkBytes, total, chunkBytes) == [];
      }
      ConsParts(head, ChunksFrom(at + chunkBytes, total, chunkBytes));
    }
  }

  /** The chunks of a transfer tile its bytes, whatever the chunk size. */
  lemma ChunksTile(total: nat, chunkBytes: int)
    ensures TileBytes(TransferChunks(total, chunkBytes), 0, total)
  {
    if total > 0 && chunkBytes > 0 { ChunksFromTile(0, total, chunkBytes); }
  }

  // ---------------------------------------------------------------- what each end sends or expects for one operation

  /** The part of a planned operation that both ends know. */
  datatype PlanOp = PlanOp(sendShape: seq<nat>, trainSlices: seq<Index>, spanNumels: seq<nat>)

  /** A tensor view: its address, whether it is contiguous, its element size and its row pitch. */
  datatype View = View(ptr: nat, contiguous: bool, elementSize: nat, rowBytes: nat, rowStride: nat)

  /** The sender's parameter: a dense view of the selected elements, or a layout of spans. */
  datatype Source = Dense(numel: nat, view: View) | Laid(shape: seq<nat>, numels: seq<nat>, ptrs: seq<nat>)

  /** The receiver's view of the selected elements. */
  datatype Target = Target(numel: nat, view: View)

  /** The element counts of the pieces the sender cuts an operation into. */
  function SendNumels(op: PlanOp, source: Source): Result<seq<nat>, DeviceError> {
    match source
    case Dense(numel, _) => Ok([numel])
    case Laid(shape, numels, _) =>
      if op.spanNumels != [] && numels != op.spanNumels then Err(LayoutMismatch)
      else
        match SlicedFragments(shape, op.trainSlices, numels)
        case Err(e) => Err(BadLayout(e))
        case Ok(fragments) => Ok(Lengths(fragments))
  }

  /** The element counts of the pieces the receiver cuts an operation into. */
  function RecvNumels(op: PlanOp, target: Target): Result<seq<nat>, DeviceError> {
    if op.spanNumels == [] then Ok([target.numel])
    else
      match SlicedFragments(op.sendShape, op.trainSlices, op.spanNumels)
      case Err(e) => Err(BadLayout(e))
      case Ok(fragments) =>
        if Sum(Lengths(fragments)) != target.numel then Err(TargetMismatch) else Ok(Lengths(fragments))
  }

  /**
   The sender's parameter is what its metadata says, and an operation is annotated with
   span sizes exactly when the sender serves it from a layout.
   */
  predicate Annotated(op: PlanOp, source: Source, target: Target) {
    match source
    case Dense(numel, _) => op.spanNumels == [] && numel == target.numel
    case Laid(shape, _, _) => op.spanNumels != [] && shape == op.sendShape
  }

  /** Annotated operations are cut alike at both ends. */
  lemma PiecesAgree(op: PlanOp, source: Source, target: Target)
    requires Annotated(op, source, target) && SendNumels(op, source).Ok? && RecvNumels(op, target).Ok?
    ensures SendNumels(op, source) == RecvNumels(op, target)
  {
  }

  /** The elements an operation moves, as the sender counts them. */
  function Selects(op: PlanOp, source: Source): Option<nat> {
    match SendNumels(op, source) case Ok(numels) => Some(Sum(numels)) case Err(_) => None
  }

  /** Without the annotation the pieces may differ, but never how many elements they add up to. */
  lemma TotalsAgree(op: PlanOp, source: Source, target: Target)
    requires SendNumels(op, source).Ok? && RecvNumels(op, target).Ok?
    requires Selects(op, source) == Some(target.numel)
    ensures Sum(SendNumels(op, source).value) == Sum(RecvNumels(op, target).value)
  {
    if op.spanNumels == [] {
      assert [target.numel][..0] == [];
    }
  }

  /** The sender's layout has the shape that the operation's metadata gives for it. */
  predicate ShapeAsPlanned(op: PlanOp, source: Source) {
    source.Laid? && op.spanNumels != [] ==> source.shape == op.sendShape
  }

  /**
   What it takes for the two ends to cut an operation alike. A layout without an annotation,
   and an annotation without a layout, take a slice of consecutive elements of a single span.
   */
  predicate CutAlike(op: PlanOp, source: Source, target: Target) {
    match source
    case Dense(numel, _) =>
      if op.spanNumels == [] then numel == target.numel
      else OneFragment(op.sendShape, op.trainSlices, op.spanNumels, numel)
    case Laid(shape, numels, _) =>
      op.spanNumels == [] ==> OneFragment(shape, op.trainSlices, numels, target.numel)
  }

  /** Whenever both ends accept an operation, they cut it alike exactly under CutAlike. */
  lemma PiecesAgreeIff(op: PlanOp, source: Source, target: Target)
    requires SendNumels(op, source).Ok? && RecvNumels(op, target).Ok? && ShapeAsPlanned(op, source)
    ensures SendNumels(op, source) == RecvNumels(op, target) <==> CutAlike(op, source, target)
  {
    match source {
      case Dense(numel, _) =>
        if op.spanNumels != [] { OneFragmentIff(op.sendShape, op.trainSlices, op.spanNumels, numel); }
      case Laid(shape, numels, _) =>
        if op.spanNumels == [] { OneFragmentIff(shape, op.trainSlices, numels, target.numel); }
    }
  }

  /** A slice that the receiver accepts with the annotation it has. */
  lemma ReceiverAccepts(op: PlanOp, target: Target, box: seq<Bound>)
    requires op.spanNumels != [] && SpansDefect(op.sendShape, op.spanNumels).None?
    requires Select(op.sendShape, op.trainSlices) == Box(box) && BoxSize(box) == target.numel
    ensures RecvNumels(op, target).Ok?
  {
    SelectFits(op.sendShape, op.trainSlices);
    BoxCut(op.sendShape, box, op.spanNumels);
  }

  /** Rows zero and one of a square of two, first column only: two elements that are not consecutive. */
  lemma ColumnOfSquare(indices: seq<Index>)
    requires indices == [Slice(Some(0), Some(2), None), Slice(Some(0), Some(1), None)]
    ensures SpansDefect([2, 2], [4]) == None
    ensures Select([2, 2], indices) == Box([Bound(0, 2, true), Bound(0, 1, false)])
    ensures !OneFragment([2, 2], indices, [4], 2)
  {
    var box := [Bound(0, 2, true), Bound(0, 1, false)];
    SquareSize();
    assert Along(2, indices[1]) == Box([box[1]]) && Normalize([2, 2], indices, 2) == Box([]);
    EmptySuffix([box[1]]);
    assert Normalize([2, 2], indices, 1) == Box([box[1]]);
    assert Along(2, indices[0]) == Box([box[0]]);
    assert LastPartial(box) == Some(1);
    assert !OneIndex(box[0]);
  }

  /** The first two elements of a column of four are consecutive. */
  lemma TopOfColumn(indices: seq<Index>)
    requires indices == [Slice(Some(0), Some(2), None), Slice(Some(0), Some(1), None)]
    ensures SpansDefect([4, 1], [4]) == None
    ensures Select([4, 1], indices) == Box([Bound(0, 2, false), Bound(0, 1, true)])
    ensures BoxSize([Bound(0, 2, false), Bound(0, 1, true)]) == 2
    ensures OneFragment([4, 1], indices, [4], 2)
  {
    var box := [Bound(0, 2, false), Bound(0, 1, true)];
    SquareSize();
    assert Along(1, indices[1]) == Box([box[1]]) && Normalize([4, 1], indices, 2) == Box([]);
    EmptySuffix([box[1]]);
    assert Normalize([4, 1], indices, 1) == Box([box[1]]);
    assert Along(4, indices[0]) == Box([box[0]]);
    assert box[..1] == [box[0]];
    assert LastPartial([box[0]]) == Some(0);
    assert LastPartial(box) == Some(0);
    assert box[1..] == [box[1]] && [box[1]][1..] == [];
    assert BoxSize([box[1]]) == Times(1, BoxSize([]));
    assert BoxSize(box) == Times(2, 1);
    assert First([4, 1], box) == 0;
    assert Start([4], 0) <= 0 && 0 + 2 <= Start([4], 0) + [4][0];
  }

  lemma SquareSize()
    ensures Numel([2, 2]) == 4 && Numel([4, 1]) == 4 && Total([4]) == 4
  {
  }

  /** An annotated layout of another shape than planned: both ends accept, and cut differently. */
  lemma OtherShapeDiffers(op: PlanOp, source: Source, target: Target)
    requires op == PlanOp([4, 1], [Slice(Some(0), Some(2), None), Slice(Some(0), Some(1), None)], [4])
    requires source == Laid([2, 2], [4], [0]) && target.numel == 2
    ensures SendNumels(op, source).Ok? && RecvNumels(op, target).Ok?
    ensures SendNumels(op, source) != RecvNumels(op, target)
  {
    ColumnOfSquare(op.trainSlices);
    TopOfColumn(op.trainSlices);
    ReceiverAccepts(op, target, [Bound(0, 2, false), Bound(0, 1, true)]);
    OneFragmentIff([2, 2], op.trainSlices, [4], 2);
    OneFragmentIff([4, 1], op.trainSlices, [4], 2);
  }

  /** The whole of a two-element vector is one run of two elements, and no span of one element holds it. */
  lemma PairIsNotOneFragment(op: PlanOp)
    requires op.trainSlices == [Slice(None, None, None)]
    ensures SpansDefect([2], [1, 1]) == None && Select([2], op.trainSlices) == Box([Bound(0, 2, true)])
    ensures BoxSize([Bound(0, 2, true)]) == 2 && !OneFragment([2], op.trainSlices, [1, 1], 2)
  {
    var box := [Bound(0, 2, true)];
    EmptySuffix(box);
    assert Along(2, op.trainSlices[0]) == Box(box);
    assert Normalize([2], op.trainSlices, 1) == Box([]);
    assert Start([1, 1], 1) == 1 && Start([1, 1], 2) == 2;
    assert [2][1..] == [];
    TimesIsProduct(2, 1);
  }

  /** A layout of two spans of one element without an annotation: both ends accept, and cut differently. */
  lemma UnannotatedLayoutDiffers(op: PlanOp, source: Source, target: Target)
    requires op == PlanOp([2], [Slice(None, None, None)], [])
    requires source == Laid([2], [1, 1], [0, 1]) && target.numel == 2
    ensures SendNumels(op, source).Ok? && RecvNumels(op, target).Ok?
    ensures SendNumels(op, source) != RecvNumels(op, target)
  {
    PairIsNotOneFragment(op);
    PiecesAgreeIff(op, source, target);
  }

  /** An annotated operation served from a dense tensor: both ends accept, and cut differently. */
  lemma DenseAnnotatedDiffers(op: PlanOp, source: Source, target: Target)
    requires op == PlanOp([2], [Slice(None, None, None)], [1, 1])
    requires source.Dense? && source.numel == 2 && target.numel == 2
    ensures SendNumels(op, source).Ok? && RecvNumels(op, target).Ok?
    ensures SendNumels(op, source) != RecvNumels(op, target)
  {
    PairIsNotOneFragment(op);
    ReceiverAccepts(op, target, [Bound(0, 2, true)]);
    PiecesAgreeIff(op, source, target);
  }

  // ---------------------------------------------------------------- tensor ranges

  /** Chunked batches cut ranges into tasks; whole batches keep one task per range. */
  datatype Mode = Chunked(chunkBytes: int) | Whole

  /** One range of a tensor view. */
  datatype Piece = Piece(view: View, offset: nat, nbytes: nat)

  /** One row of a batch's parallel lists. */
  datatype Entry = Entry(
    ptr: nat, tensorOffset: nat, rowBytes: nat, rowStride: nat, offset: nat, length: nat, peer: nat, ordinal: nat,
    region: nat)

  function Cut(mode: Mode, nbytes: nat): seq<Chunk> {
    match mode
    case Chunked(chunkBytes) => TransferChunks(nbytes, chunkBytes)
    case Whole => [Chunk(0, nbytes)]
  }

  /** A contiguous view is narrowed to the chunk; any other is addressed by its logical offset. */
  function EntryFor(mode: Mode, p: Piece, c: Chunk, peer: nat, region: nat, peerOffset: nat, ordinal: nat): Entry {
    if mode.Chunked? && p.view.contiguous then
      Entry(
        p.view.ptr + p.offset + c.byteOffset, 0, c.nbytes, c.nbytes, peerOffset + c.byteOffset, c.nbytes, peer, ordinal,
        region)
    else
      Entry(
        p.view.ptr, p.offset + c.byteOffset, p.view.rowBytes, p.view.rowStride, peerOffset + c.byteOffset, c.nbytes,
        peer, ordinal, region)
  }

  /** A narrowed chunk starts and ends on an element. */
  predicate ChunkAligned(mode: Mode, p: Piece, c: Chunk) {
    mode.Chunked? && p.view.contiguous && p.view.elementSize > 0 ==>
      (p.offset + c.byteOffset) % p.view.elementSize == 0 && c.nbytes % p.view.elementSize == 0
  }

  predicate PieceAligned(mode: Mode, p: Piece) {
    forall i | 0 <= i < |Cut(mode, p.nbytes)| :: ChunkAligned(mode, p, Cut(mode, p.nbytes)[i])
  }

  /** All pieces are aligned, up to and including the last. */
  predicate AllAligned(mode: Mode, pieces: seq<Piece>) {
    pieces == [] || (AllAligned(mode, pieces[..|pieces| - 1]) && PieceAligned(mode, pieces[|pieces| - 1]))
  }

  lemma {:induction false} AlignedPrefix(mode: Mode, pieces: seq<Piece>, k: nat)
    requires k <= |pieces| && AllAligned(mode, pieces)
    ensures AllAligned(mode, pieces[..k])
    decreases |pieces|
  {
    if k < |pieces| {
      var init := pieces[..|pieces| - 1];
      AlignedPrefix(mode, init, k);
      assert init[..k] == pieces[..k];
    } else {
      TakeAll(pieces);
    }
  }

  lemma MisalignedStops(mode: Mode, pieces: seq<Piece>, i: nat)
    requires i < |pieces| && !PieceAligned(mode, pieces[i])
    ensures !AllAligned(mode, pieces)
  {
    if AllAligned(mode, pieces) {
      AlignedPrefix(mode, pieces, i + 1);
      TakeInit(pieces, i);
    }
  }

  function RangeEntries(
    mode: Mode, p: Piece, chunks: seq<Chunk>, peer: nat, region: nat, peerOffset: nat, ordinal: nat): seq<Entry>
  {
    if chunks == [] then []
    else
      var k := |chunks| - 1;
      RangeEntries(mode, p, chunks[..k], peer, region, peerOffset, ordinal)
      + [EntryFor(mode, p, chunks[k], peer, region, peerOffset, ordinal + k)]
  }

  function PieceBytes(pieces: seq<Piece>): nat {
    if pieces == [] then 0 else PieceBytes(pieces[..|pieces| - 1]) + pieces[|pieces| - 1].nbytes
  }

  /** The tasks for one peer: ranges end to end, ordinals counting on. */
  function PeerEntries(mode: Mode, pieces: seq<Piece>, peer: nat, region: nat): seq<Entry> {
    if pieces == [] then []
    else
      var init, p := pieces[..|pieces| - 1], pieces[|pieces| - 1];
      var before := PeerEntries(mode, init, peer, region);
      before + RangeEntries(mode, p, Cut(mode, p.nbytes), peer, region, PieceBytes(init), |before|)
  }

  /** One peer's share of a batch. */
  datatype Group = Group(peer: nat, region: nat, pieces: seq<Piece>)

  function BatchEntries(mode: Mode, groups: seq<Group>): seq<Entry> {
    if groups == [] then []
    else
      var g := groups[|groups| - 1];
      BatchEntries(mode, groups[..|groups| - 1]) + PeerEntries(mode, g.pieces, g.peer, g.region)
  }

  /** The largest stream in each region. */
  function RegionBytes(groups: seq<Group>, region: nat): nat {
    if groups == [] then 0
    else
      var g := groups[|groups| - 1];
      var before := RegionBytes(groups[..|groups| - 1], region);
      if g.region == region then Max(before, PieceBytes(g.pieces)) else before
  }

  /** The task count of the last group for a peer. */
  function ExpectedCount(mode: Mode, groups: seq<Group>, peer: nat): nat {
    if groups == [] then 0
    else
      var g := groups[|groups| - 1];
      if g.peer == peer then |PeerEntries(mode, g.pieces, g.peer, g.region)|
      else ExpectedCount(mode, groups[..|groups| - 1], peer)
  }

  /** A batch under construction. */
  class DeviceBatch {
    var tasks: seq<Entry>
    var regionBytes: seq<nat>
    var expectedCounts: seq<nat>

    constructor (world: nat)
      ensures tasks == [] && |regionBytes| == |expectedCounts| == world
      ensures forall r | 0 <= r < world :: regionBytes[r] == 0 && expectedCounts[r] == 0
    {
      tasks := [];
      regionBytes := seq(world, _ => 0);
      expectedCounts := seq(world, _ => 0);
    }

    /** Appends the tasks of one tensor range and returns the next ordinal. */
    method AppendTensorRange(mode: Mode, p: Piece, peer: nat, region: nat, peerOffset: nat, ordinal: nat)
      returns (r: Result<nat, DeviceError>)
      modifies this`tasks
      ensures r.Ok? <==> PieceAligned(mode, p)
      ensures r.Err? ==> r.error == Misaligned
      ensures r.Ok? ==>
        tasks == old(tasks) + RangeEntries(mode, p, Cut(mode, p.nbytes), peer, region, peerOffset, ordinal)
        && r.value == ordinal + |Cut(mode, p.nbytes)|
    {
      var chunks: seq<Chunk> := Cut(mode, p.nbytes);
      var next := ordinal;
      EmptySuffix(tasks);
      for i := 0 to |chunks|
        invariant next == ordinal + i
        invariant forall j | 0 <= j < i :: ChunkAligned(mode, p, chunks[j])
        invariant tasks == old(tasks) + RangeEntries(mode, p, chunks[..i], peer, region, peerOffset, ordinal)
      {
        if !ChunkAligned(mode, p, chunks[i]) {
          return Err(Misaligned);
        }
        TakeInit(chunks, i);
        Associate(
          old(tasks), RangeEntries(mode, p, chunks[..i], peer, region, peerOffset, ordinal),
          [EntryFor(mode, p, chunks[i], peer, region, peerOffset, next)]);
        tasks := tasks + [EntryFor(mode, p, chunks[i], peer, region, peerOffset, next)];
        next := next + 1;
      }
      TakeAll(chunks);
      return Ok(next);
    }

    /** Appends one peer's ranges and returns their task count and byte count. */
    method AppendPieces(mode: Mode, pieces: seq<Piece>, peer: nat, region: nat)
      returns (r: Result<nat, DeviceError>, peerOffset: nat)
      modifies this`tasks
      ensures r.Ok? <==> AllAligned(mode, pieces)
      ensures r.Err? ==> r.error == Misaligned
      ensures r.Ok? ==>
        && tasks == old(tasks) + PeerEntries(mode, pieces, peer, region)
        && r.value == |PeerEntries(mode, pieces, peer, region)| && peerOffset == PieceBytes(pieces)
    {
      var ordinal: nat := 0;
      peerOffset := 0;
      EmptySuffix(tasks);
      for i := 0 to |pieces|
        invariant peerOffset == PieceBytes(pieces[..i])
        invariant ordinal == |PeerEntries(mode, pieces[..i], peer, region)|
        invariant AllAligned(mode, pieces[..i])
        invariant tasks == old(tasks) + PeerEntries(mode, pieces[..i], peer, region)
      {
        PeerStep(old(tasks), mode, pieces, i, peer, region);
        TakeInit(pieces, i);
        var next := AppendTensorRange(mode, pieces[i], peer, region, peerOffset, ordinal);
        if next.Err? {
          MisalignedStops(mode, pieces, i);
          return Err(next.error), peerOffset;
        }
        ordinal := next.value;
        peerOffset := peerOffset + pieces[i].nbytes;
      }
      TakeAll(pieces);
      return Ok(ordinal), peerOffset;
    }

    /** Appends one peer's ranges and records its task count and region size. */
    method AppendPeer(mode: Mode, g: Group) returns (r: Result<(), DeviceError>)
      requires g.peer < |expectedCounts| && g.region < |regionBytes|
      modifies this
      ensures r.Ok? <==> AllAligned(mode, g.pieces)
      ensures r.Err? ==> r.error == Misaligned
      ensures r.Ok? ==>
        && tasks == old(tasks) + PeerEntries(mode, g.pieces, g.peer, g.region)
        && expectedCounts == old(expectedCounts)[g.peer := |PeerEntries(mode, g.pieces, g.peer, g.region)|]
        && regionBytes == old(regionBytes)[g.region := Max(old(regionBytes)[g.region], PieceBytes(g.pieces))]
    {
      var count, peerOffset := AppendPieces(mode, g.pieces, g.peer, g.region);
      if count.Err? {
        return Err(count.error);
      }
      expectedCounts := expectedCounts[g.peer := count.value];
      regionBytes := regionBytes[g.region := Max(regionBytes[g.region], peerOffset)];
      return Ok(());
    }

    /** Fills an empty batch with the peers of a plan. */
    method AppendPeers(mode: Mode, groups: seq<Group>, world: nat) returns (r: Result<(), DeviceError>)
      requires forall k | 0 <= k < |groups| :: groups[k].peer < world && groups[k].region < world
      requires IsBatch(mode, [], world, tasks, regionBytes, expectedCounts)
      modifies this
      ensures r.Ok? <==> GroupsAligned(mode, groups)
      ensures r.Err? ==> r.error == Misaligned
      ensures r.Ok? ==> IsBatch(mode, groups, world, tasks, regionBytes, expectedCounts)
    {
      EmptyIsAligned(mode, groups);
      for k := 0 to |groups|
        invariant GroupsAligned(mode, groups[..k])
        invariant IsBatch(mode, groups[..k], world, tasks, regionBytes, expectedCounts)
      {
        BatchNext(mode, groups, k, world, tasks, regionBytes, expectedCounts);
        AlignedNext(mode, groups, k);
        var done := AppendPeer(mode, groups[k]);
        if done.Err? {
          return Err(done.error);
        }
      }
      TakeAll(groups);
      return Ok(());
    }
  }

  /** The tasks of one more range come after those of the ranges before it. */
  lemma PeerStep(before: seq<Entry>, mode: Mode, pieces: seq<Piece>, i: nat, peer: nat, region: nat)
    requires i < |pieces|
    ensures var done, p := PeerEntries(mode, pieces[..i], peer, region), pieces[i];
      var more := RangeEntries(mode, p, Cut(mode, p.nbytes), peer, region, PieceBytes(pieces[..i]), |done|);
      && before + done + more == before + PeerEntries(mode, pieces[..i + 1], peer, region)
      && |done| + |Cut(mode, p.nbytes)| == |PeerEntries(mode, pieces[..i + 1], peer, region)|
      && PieceBytes(pieces[..i + 1]) == PieceBytes(pieces[..i]) + p.nbytes
  {
    var done, p := PeerEntries(mode, pieces[..i], peer, region), pieces[i];
    TakeInit(pieces, i);
    RangeLength(mode, p, Cut(mode, p.nbytes), peer, region, PieceBytes(pieces[..i]), |done|);
    Associate(
      before, done, RangeEntries(mode, p, Cut(mode, p.nbytes), peer, region, PieceBytes(pieces[..i]), |done|));
  }

  lemma {:induction false} RangeLength(
    mode: Mode, p: Piece, chunks: seq<Chunk>, peer: nat, region: nat, peerOffset: nat, ordinal: nat)
    ensures |RangeEntries(mode, p, chunks, peer, region, peerOffset, ordinal)| == |chunks|
  {
    if chunks != [] { RangeLength(mode, p, chunks[..|chunks| - 1], peer, region, peerOffset, ordinal); }
  }

  ghost predicate GroupsAligned(mode: Mode, groups: seq<Group>) {
    forall k | 0 <= k < |groups| :: AllAligned(mode, groups[k].pieces)
  }

  /** The lists of a batch over these groups. */
  ghost predicate IsBatch(
    mode: Mode, groups: seq<Group>, world: nat, tasks: seq<Entry>, regionBytes: seq<nat>, expectedCounts: seq<nat>)
  {
    && tasks == BatchEntries(mode, groups)
    && |regionBytes| == |expectedCounts| == world
    && forall n: nat | n < world ::
         regionBytes[n] == RegionBytes(groups, n) && expectedCounts[n] == ExpectedCount(mode, groups, n)
  }

  lemma EmptyIsAligned(mode: Mode, groups: seq<Group>)
    ensures groups[..0] == [] && GroupsAligned(mode, groups[..0])
  {
  }

  lemma AlignedNext(mode: Mode, groups: seq<Group>, k: nat)
    requires k < |groups| && GroupsAligned(mode, groups[..k])
    ensures AllAligned(mode, groups[k].pieces) ==> GroupsAligned(mode, groups[..k + 1])
    ensures !AllAligned(mode, groups[k].pieces) ==> !GroupsAligned(mode, groups)
  {
    forall j | 0 <= j < k ensures groups[..k + 1][j] == groups[..k][j] {}
  }

  lemma BatchNext(
    mode: Mode, groups: seq<Group>, k: nat, world: nat, tasks: seq<Entry>, regionBytes: seq<nat>,
    expectedCounts: seq<nat>)
    requires k < |groups| && groups[k].peer < world && groups[k].region < world
    requires IsBatch(mode, groups[..k], world, tasks, regionBytes, expectedCounts)
    ensures var g := groups[k];
      var mine := PeerEntries(mode, g.pieces, g.peer, g.region);
      IsBatch(
        mode, groups[..k + 1], world, tasks + mine,
        regionBytes[g.region := Max(regionBytes[g.region], PieceBytes(g.pieces))], expectedCounts[g.peer := |mine|])
  {
    TakeNext(groups, k);
    BatchSnoc(mode, groups[..k], groups[k], world, tasks, regionBytes, expectedCounts);
  }

  lemma BatchSnoc(
    mode: Mode, groups: seq<Group>, g: Group, world: nat, tasks: seq<Entry>, regionBytes: seq<nat>,
    expectedCounts: seq<nat>)
    requires g.peer < world && g.region < world && IsBatch(mode, groups, world, tasks, regionBytes, expectedCounts)
    ensures var mine := PeerEntries(mode, g.pieces, g.peer, g.region);
      IsBatch(
        mode, groups + [g], world, tasks + mine,
        regionBytes[g.region := Max(regionBytes[g.region], PieceBytes(g.pieces))], expectedCounts[g.peer := |mine|])
  {
    SnocParts(groups, g);
    forall n: nat | n < world
      ensures RegionBytes(groups + [g], n)
           == if g.region == n then Max(RegionBytes(groups, n), PieceBytes(g.pieces)) else RegionBytes(groups, n)
      ensures ExpectedCount(mode, groups + [g], n)
           == if g.peer == n then |PeerEntries(mode, g.pieces, g.peer, g.region)| else ExpectedCount(mode, groups, n)
    {
    }
  }

  /** A batch over all peers of a plan, in peer order. */
  method BuildBatch(mode: Mode, groups: seq<Group>, world: nat) returns (batch: DeviceBatch, r: Result<(), DeviceError>)
    requires forall g <- groups :: g.peer < world && g.region < world
    ensures fresh(batch)
    ensures r.Ok? <==> GroupsAligned(mode, groups)
    ensures r.Err? ==> r.error == Misaligned
    ensures r.Ok? ==> IsBatch(mode, groups, world, batch.tasks, batch.regionBytes, batch.expectedCounts)
  {
    batch := new DeviceBatch(world);
    r := batch.AppendPeers(mode, groups, world);
  }
}
