/**
 The chunked exchange: every rank cuts each peer's operation list into slices of one
 shared step and runs the recursive-partition exchange once per slice, with nothing
 but the collectives that fix the step and the chunk count to keep ranks together.
 */
module ChunkedExchange {
  import opened Basics
  import opened PowersOfTwo
  import opened Rendezvous
  import opened RecursivePartition
  import opened SequenceFacts
  import opened Sequences

  // ---------------------------------------------------------------- slicing

  /** ops[start:end] with both bounds clamped to the list. */
  function Slice<Op>(ops: seq<Op>, start: nat, end: nat): seq<Op>
    requires start <= end
  {
    var lo, hi := Min(start, |ops|), Min(end, |ops|);
    seq(hi - lo, i requires 0 <= i < hi - lo => ops[lo + i])
  }

  function ChunkTable<Op>(table: OpTable<Op>, start: nat, end: nat): OpTable<Op>
    requires start <= end
  {
    map peer | peer in table && Slice(table[peer], start, end) != [] :: Slice(table[peer], start, end)
  }

  function ChunkTables<Op>(tables: seq<OpTable<Op>>, start: nat, end: nat): seq<OpTable<Op>>
    requires start <= end
  {
    seq(|tables|, r requires 0 <= r < |tables| => ChunkTable(tables[r], start, end))
  }

  /** The non-empty slices of ops on count consecutive steps from start. */
  function Chunks<Op>(ops: seq<Op>, step: nat, start: nat, count: nat): seq<seq<Op>>
    decreases count
  {
    if count == 0 then []
    else if Slice(ops, start, start + step) == [] then Chunks(ops, step, start + step, count - 1)
    else [Slice(ops, start, start + step)] + Chunks(ops, step, start + step, count - 1)
  }

  lemma ChunksEnd(step: nat, start: nat, count: nat) returns (next: nat, last: nat)
    requires count > 0
    ensures next == start + step && last == start + count * step == next + (count - 1) * step && next <= last
  {
    next, last := start + step, start + count * step;
    assert count * step == (count - 1) * step + step;
  }

  /** No operation is lost or repeated. */
  lemma {:induction false} ChunksConcat<Op>(ops: seq<Op>, step: nat, start: nat, count: nat)
    ensures Flatten(Chunks(ops, step, start, count)) == Slice(ops, start, start + count * step)
    decreases count
  {
    if count > 0 {
      var next, last := ChunksEnd(step, start, count);
      ChunksConcat(ops, step, next, count - 1);
      ChunksCons(ops, step, start, count);
      JoinEntry(Slice(ops, start, next), Chunks(ops, step, next, count - 1));
      SliceConcat(ops, start, next, last);
    }
  }

  lemma SliceConcat<Op>(ops: seq<Op>, a: nat, b: nat, c: nat)
    requires a <= b <= c
    ensures Slice(ops, a, b) + Slice(ops, b, c) == Slice(ops, a, c)
  {
  }

  lemma JoinEntry<Op>(part: seq<Op>, rest: seq<seq<Op>>)
    ensures Flatten(Entry(part) + rest) == part + Flatten(rest)
  {
    FlattenConcat(Entry(part), rest);
    FlattenSnoc([], part);
    EmptyPrefix([part]);
    EmptyPrefix(part);
  }

  lemma ChunksCons<Op>(ops: seq<Op>, step: nat, start: nat, count: nat)
    requires count > 0
    ensures Chunks(ops, step, start, count)
         == Entry(Slice(ops, start, start + step)) + Chunks(ops, step, start + step, count - 1)
  {
    EmptyPrefix(Chunks(ops, step, start + step, count - 1));
  }

  lemma ChunkTableLookup<Op>(table: OpTable<Op>, start: nat, end: nat, peer: nat)
    requires start <= end
    ensures OpsFor(ChunkTable(table, start, end), peer) == Slice(OpsFor(table, peer), start, end)
  {
  }

  // ---------------------------------------------------------------- chunk sizing

  function SumBytes<Op>(wire: Op -> nat, ops: seq<Op>): nat {
    if ops == [] then 0 else SumBytes(wire, ops[..|ops| - 1]) + wire(ops[|ops| - 1])
  }

  /** Wire bytes of the operations at one index, over all peer lists. */
  function Aggregate<Op>(wire: Op -> nat, lists: seq<seq<Op>>, index: nat): nat {
    if lists == [] then 0
    else
      Aggregate(wire, lists[..|lists| - 1], index)
      + (var ops := lists[|lists| - 1]; if index < |ops| then wire(ops[index]) else 0)
  }

  function MaxAggregate<Op>(wire: Op -> nat, lists: seq<seq<Op>>, upto: nat): nat {
    if upto == 0 then 0 else Max(MaxAggregate(wire, lists, upto - 1), Aggregate(wire, lists, upto - 1))
  }

  /** Wire bytes one rank handles while running the slice [start, end) of every peer list. */
  function ChunkBytes<Op>(wire: Op -> nat, lists: seq<seq<Op>>, start: nat, end: nat): nat
    requires start <= end
  {
    if lists == [] then 0
    else ChunkBytes(wire, lists[..|lists| - 1], start, end) + SumBytes(wire, Slice(lists[|lists| - 1], start, end))
  }

  function LocalStep<Op>(wire: Op -> nat, lists: seq<seq<Op>>, chunkBytes: nat): nat {
    var largest := MaxAggregate(wire, lists, MaxLength(lists));
    if largest == 0 then 1 else Max(1, chunkBytes / largest)
  }

  function LocalChunks<Op>(lists: seq<seq<Op>>, step: nat): nat
    requires step > 0
  {
    Max(1, (MaxLength(lists) + step - 1) / step)
  }

  lemma {:induction false} OneMoreIndex<Op>(wire: Op -> nat, lists: seq<seq<Op>>, start: nat, end: nat)
    requires start <= end
    ensures ChunkBytes(wire, lists, start, end + 1) == ChunkBytes(wire, lists, start, end) + Aggregate(wire, lists, end)
  {
    if lists != [] {
      var ops := lists[|lists| - 1];
      OneMoreIndex(wire, lists[..|lists| - 1], start, end);
      if end < |ops| {
        var longer := Slice(ops, start, end + 1);
        assert longer[..|longer| - 1] == Slice(ops, start, end) && longer[|longer| - 1] == ops[end];
      }
    }
  }

  lemma {:induction false} EmptyChunk<Op>(wire: Op -> nat, lists: seq<seq<Op>>, start: nat)
    ensures ChunkBytes(wire, lists, start, start) == 0
  {
    if lists != [] { EmptyChunk(wire, lists[..|lists| - 1], start); }
  }

  lemma {:induction false} AggregateBound<Op>(wire: Op -> nat, lists: seq<seq<Op>>, upto: nat, index: nat)
    requires index < upto || (upto == MaxLength(lists) <= index)
    ensures Aggregate(wire, lists, index) <= MaxAggregate(wire, lists, upto)
    decreases upto
  {
    if index < upto - 1 {
      AggregateBound(wire, lists, upto - 1, index);
    } else if upto <= index {
      NothingBeyond(wire, lists, index);
    }
  }

  lemma {:induction false} NothingBeyond<Op>(wire: Op -> nat, lists: seq<seq<Op>>, index: nat)
    requires MaxLength(lists) <= index
    ensures Aggregate(wire, lists, index) == 0
  {
    if lists != [] { NothingBeyond(wire, lists[..|lists| - 1], index); }
  }

  lemma {:induction false} ChunkBytesBound<Op>(wire: Op -> nat, lists: seq<seq<Op>>, start: nat, step: nat)
    ensures ChunkBytes(wire, lists, start, start + step) <= step * MaxAggregate(wire, lists, MaxLength(lists))
  {
    var largest := MaxAggregate(wire, lists, MaxLength(lists));
    if step == 0 {
      EmptyChunk(wire, lists, start);
    } else {
      ChunkBytesBound(wire, lists, start, step - 1);
      OneMoreIndex(wire, lists, start, start + step - 1);
      AggregateBound(wire, lists, MaxLength(lists), start + step - 1);
      assert step * largest == (step - 1) * largest + largest;
    }
  }

  /**
   The byte budget: with any positive step no larger than the rank's own, one chunk
   carries at most the budget, or the largest single index if that alone exceeds it.
   */
  lemma ChunkWithinBudget<Op>(wire: Op -> nat, lists: seq<seq<Op>>, chunkBytes: nat, start: nat, step: nat)
    requires 0 < step <= LocalStep(wire, lists, chunkBytes)
    ensures ChunkBytes(wire, lists, start, start + step)
         <= Max(chunkBytes, MaxAggregate(wire, lists, MaxLength(lists)))
  {
    var largest := MaxAggregate(wire, lists, MaxLength(lists));
    ChunkBytesBound(wire, lists, start, step);
    if step > 1 {
      MulMonotone(step, chunkBytes / largest, largest);
      DivBounds(chunkBytes, largest);
    }
  }

  /** No chunk of this step carries more than the budget, or than the largest single index. */
  ghost predicate WithinBudget<Op>(wire: Op -> nat, lists: seq<seq<Op>>, chunkBytes: nat, step: nat) {
    forall start: nat, end: nat | end == start + step ::
      ChunkBytes(wire, lists, start, end) <= Max(chunkBytes, MaxAggregate(wire, lists, MaxLength(lists)))
  }

  lemma StepWithinBudget<Op>(wire: Op -> nat, lists: seq<seq<Op>>, chunkBytes: nat, step: nat)
    requires 0 < step <= LocalStep(wire, lists, chunkBytes)
    ensures WithinBudget(wire, lists, chunkBytes, step)
  {
    forall start: nat, end: nat | end == start + step
      ensures ChunkBytes(wire, lists, start, end) <= Max(chunkBytes, MaxAggregate(wire, lists, MaxLength(lists)))
    {
      ChunkWithinBudget(wire, lists, chunkBytes, start, step);
    }
  }

  // ---------------------------------------------------------------- the loops

  /** The largest aggregate per-index wire bytes over all peer lists, and the step it allows. */
  method ComputeLocalStep<Op>(wire: Op -> nat, lists: seq<seq<Op>>, chunkBytes: nat) returns (step: nat)
    ensures step == LocalStep(wire, lists, chunkBytes)
    ensures step > 0
  {
    var maxLength := LongestList(lists);
    var maxIndexBytes := 0;
    for index := 0 to maxLength
      invariant maxIndexBytes == MaxAggregate(wire, lists, index)
    {
      var aggregate := 0;
      for i := 0 to |lists|
        invariant aggregate == Aggregate(wire, lists[..i], index)
      {
        if index < |lists[i]| {
          aggregate := aggregate + wire(lists[i][index]);
        }
        TakeInit(lists, i);
      }
      TakeAll(lists);
      maxIndexBytes := Max(maxIndexBytes, aggregate);
    }
    step := if maxIndexBytes == 0 then 1 else Max(1, chunkBytes / maxIndexBytes);
  }

  method LongestList<Op>(lists: seq<seq<Op>>) returns (longest: nat)
    ensures longest == MaxLength(lists)
  {
    longest := 0;
    for i := 0 to |lists|
      invariant longest == MaxLength(lists[..i])
    {
      longest := Max(longest, |lists[i]|);
      TakeInit(lists, i);
    }
    TakeAll(lists);
  }

  /** The work of one rank on count consecutive chunks from start, one exchange per chunk. */
  function ChunkedProgram<Op>(
    rank: nat, bits: nat, sends: OpTable<Op>, recvs: OpTable<Op>, step: nat, start: nat, count: nat)
    : seq<Action<seq<Op>>>
    decreases count
  {
    if count == 0 then []
    else
      RankProgram(rank, bits, ChunkTable(sends, start, start + step), ChunkTable(recvs, start, start + step))
      + ChunkedProgram(rank, bits, sends, recvs, step, start + step, count - 1)
  }

  /** Executing the first of the remaining chunks leaves the rest. */
  lemma ProgramStep<Op>(
    issued: seq<Action<seq<Op>>>, rank: nat, bits: nat, sends: OpTable<Op>, recvs: OpTable<Op>, step: nat, chunk: nat,
    count: nat)
    requires count > 0
    ensures chunk * step >= 0
    ensures issued + ChunkedProgram(rank, bits, sends, recvs, step, chunk * step, count)
         == issued
            + RankProgram(
                rank, bits, ChunkTable(sends, chunk * step, chunk * step + step),
                ChunkTable(recvs, chunk * step, chunk * step + step))
            + ChunkedProgram(rank, bits, sends, recvs, step, (chunk + 1) * step, count - 1)
  {
    var start := chunk * step;
    assert (chunk + 1) * step == start + step;
    Associate(
      issued, RankProgram(rank, bits, ChunkTable(sends, start, start + step), ChunkTable(recvs, start, start + step)),
      ChunkedProgram(rank, bits, sends, recvs, step, start + step, count - 1));
  }

  ghost predicate ChunksRemain<Op>(
    first: seq<Action<seq<Op>>>, issued: seq<Action<seq<Op>>>, rank: nat, bits: nat, sends: OpTable<Op>,
    recvs: OpTable<Op>, step: nat, chunk: nat, count: nat)
  {
    issued + ChunkedProgram(rank, bits, sends, recvs, step, chunk * step, count)
    == first + ChunkedProgram(rank, bits, sends, recvs, step, 0, chunk + count)
  }

  method RunChunks<Op>(
    transport: StreamBatchTransport<Op>, sends: OpTable<Op>, recvs: OpTable<Op>, step: nat, chunkCount: nat,
    ghost bits: nat)
    requires transport.worldSize == Pow2(bits) && transport.transferRank < transport.worldSize
    modifies transport`issued
    ensures transport.issued
         == old(transport.issued) + ChunkedProgram(transport.transferRank, bits, sends, recvs, step, 0, chunkCount)
  {
    ghost var rank := transport.transferRank;
    for chunk := 0 to chunkCount
      invariant ChunksRemain(
        old(transport.issued), transport.issued, rank, bits, sends, recvs, step, chunk, chunkCount - chunk)
    {
      ProgramStep(transport.issued, rank, bits, sends, recvs, step, chunk, chunkCount - chunk);
      var start := chunk * step;
      var end := start + step;
      transport.ExecuteRecursivePartition(ChunkTable(sends, start, end), ChunkTable(recvs, start, end), bits);
    }
    EmptySuffix(transport.issued);
  }

  /** The peer lists of one rank, sends first. */
  function PeerLists<Op>(sends: OpTable<Op>, recvs: OpTable<Op>, world: nat): seq<seq<Op>> {
    seq(world, peer requires 0 <= peer => OpsFor(sends, peer)) + seq(world, peer requires 0 <= peer => OpsFor(recvs, peer))
  }

  // ---------------------------------------------------------------- the collectives

  /** The result of a minimum over all ranks. */
  function MinOf(values: seq<nat>): nat
    requires values != []
  {
    if |values| == 1 then values[0] else Min(MinOf(values[..|values| - 1]), values[|values| - 1])
  }

  /** The result of a maximum over all ranks. */
  function MaxOf(values: seq<nat>): nat {
    if values == [] then 0 else Max(MaxOf(values[..|values| - 1]), values[|values| - 1])
  }

  lemma {:induction false} MinBounds(values: seq<nat>, i: nat)
    requires i < |values|
    ensures MinOf(values) <= values[i]
  {
    if i < |values| - 1 { MinBounds(values[..|values| - 1], i); }
  }

  lemma {:induction false} MaxBounds(values: seq<nat>, i: nat)
    requires i < |values|
    ensures values[i] <= MaxOf(values)
  {
    if i < |values| - 1 { MaxBounds(values[..|values| - 1], i); }
  }

  /** The step in use: a forced one, or the reduced one, and at least one. */
  function StepFor(forcedOps: Option<int>, reducedStep: nat): (step: nat)
    ensures step > 0
  {
    match forcedOps
    case Some(n) => if n > 1 then n else 1
    case None => Max(1, reducedStep)
  }

  /**
   One rank's chunked transfer. steps and counts are what the ranks contribute to the two
   collectives, this rank's own step and chunk count among them; the collectives return their
   minimum and their maximum.
   */
  method RunChunked<Op>(
    transport: StreamBatchTransport<Op>, wire: Op -> nat, sends: OpTable<Op>, recvs: OpTable<Op>, chunkBytes: nat,
    forcedOps: Option<int>, reducedStep: nat, reducedChunks: nat, ghost steps: seq<nat>, ghost counts: seq<nat>,
    ghost bits: nat)
    returns (step: nat)
    requires transport.worldSize == Pow2(bits) && transport.transferRank < transport.worldSize == |steps| == |counts|
    requires steps[transport.transferRank]
          == LocalStep(wire, PeerLists(sends, recvs, transport.worldSize), chunkBytes)
    requires counts[transport.transferRank]
          == LocalChunks(PeerLists(sends, recvs, transport.worldSize), StepFor(forcedOps, reducedStep))
    requires reducedStep == MinOf(steps) && reducedChunks == MaxOf(counts)
    modifies transport`issued
    ensures step == StepFor(forcedOps, MinOf(steps))
    ensures transport.issued
         == old(transport.issued) + ChunkedProgram(transport.transferRank, bits, sends, recvs, step, 0, MaxOf(counts))
    ensures forall i | 0 <= i < |PeerLists(sends, recvs, transport.worldSize)| ::
      |PeerLists(sends, recvs, transport.worldSize)[i]| <= MaxOf(counts) * step
    ensures forcedOps.None? ==> WithinBudget(wire, PeerLists(sends, recvs, transport.worldSize), chunkBytes, step)
  {
    var lists := PeerLists(sends, recvs, transport.worldSize);
    var localStep := ComputeLocalStep(wire, lists, chunkBytes);
    match forcedOps {
      case Some(n) => step := if n > 1 then n else 1;
      case None => step := Max(1, reducedStep);
    }
    MinBounds(steps, transport.transferRank);
    MaxBounds(counts, transport.transferRank);
    forall i | 0 <= i < |lists| ensures |lists[i]| <= reducedChunks * step {
      AgreedChunksSuffice(lists, step, reducedChunks, i);
    }
    RunChunks(transport, sends, recvs, step, reducedChunks, bits);
    if forcedOps.None? {
      StepWithinBudget(wire, lists, chunkBytes, step);
    }
  }

  /** What each rank contributes to the minimum. */
  function StepsOf<Op>(wire: Op -> nat, sends: seq<OpTable<Op>>, recvs: seq<OpTable<Op>>, chunkBytes: nat): seq<nat>
    requires |sends| == |recvs|
  {
    seq(|sends|, r requires 0 <= r < |sends| => LocalStep(wire, PeerLists(sends[r], recvs[r], |sends|), chunkBytes))
  }

  /** What each rank contributes to the maximum. */
  function CountsOf<Op>(sends: seq<OpTable<Op>>, recvs: seq<OpTable<Op>>, step: nat): seq<nat>
    requires |sends| == |recvs| && step > 0
  {
    seq(|sends|, r requires 0 <= r < |sends| => LocalChunks(PeerLists(sends[r], recvs[r], |sends|), step))
  }

  // ---------------------------------------------------------------- the whole world

  /** One exchange for each of count starts, step apart. */
  function Exchanges<T>(exchange: nat -> seq<Event<T>>, step: nat, start: nat, count: nat): seq<Event<T>>
    decreases count
  {
    if count == 0 then [] else exchange(start) + Exchanges(exchange, step, start + step, count - 1)
  }

  function ChunkAt<Op>(sends: seq<OpTable<Op>>, bits: nat, step: nat): nat -> seq<Event<seq<Op>>> {
    (start: nat) => WorldEvents(ChunkTables(sends, start, start + step), bits)
  }

  function ChunkedEvents<Op>(sends: seq<OpTable<Op>>, bits: nat, step: nat, start: nat, count: nat)
    : seq<Event<seq<Op>>>
  {
    Exchanges(ChunkAt(sends, bits, step), step, start, count)
  }

  function ChunkedInitial<Op>(
    sends: seq<OpTable<Op>>, recvs: seq<OpTable<Op>>, bits: nat, step: nat, start: nat, count: nat)
    : Residue<seq<Op>>
    requires |sends| == |recvs|
  {
    seq(|sends|, r requires 0 <= r < |sends| => ChunkedProgram(r, bits, sends[r], recvs[r], step, start, count))
  }

  lemma ChunkTablesMatch<Op>(sends: seq<OpTable<Op>>, recvs: seq<OpTable<Op>>, start: nat, end: nat)
    requires Matched(sends, recvs) && start <= end
    ensures Matched(ChunkTables(sends, start, end), ChunkTables(recvs, start, end))
  {
    forall s: nat, d: nat | s < |sends| && d < |sends| && s != d
      ensures OpsFor(ChunkTables(sends, start, end)[s], d) == OpsFor(ChunkTables(recvs, start, end)[d], s)
    {
      ChunkTableLookup(sends[s], start, end, d);
      ChunkTableLookup(recvs[d], start, end, s);
    }
  }

  lemma {:induction false} ChunkedPrograms<Op>(
    sends: seq<OpTable<Op>>, recvs: seq<OpTable<Op>>, bits: nat, step: nat, start: nat, count: nat)
    requires Matched(sends, recvs) && |sends| == Pow2(bits)
    ensures Programs(ChunkedEvents(sends, bits, step, start, count),
                     ChunkedInitial(sends, recvs, bits, step, start, count))
    decreases count
  {
    if count > 0 {
      var chunkSends, chunkRecvs := ChunkTables(sends, start, start + step), ChunkTables(recvs, start, start + step);
      ChunkTablesMatch(sends, recvs, start, start + step);
      ProgramsOfWorld(chunkSends, chunkRecvs, bits);
      ChunkedPrograms(sends, recvs, bits, step, start + step, count - 1);
      ChunkedInitialStep(sends, recvs, bits, step, start, count);
      ProgramsConcat(
        ChunkAt(sends, bits, step)(start), InitialState(chunkSends, chunkRecvs, bits),
        ChunkedEvents(sends, bits, step, start + step, count - 1),
        ChunkedInitial(sends, recvs, bits, step, start + step, count - 1),
        ChunkedInitial(sends, recvs, bits, step, start, count));
    }
  }

  lemma ChunkedInitialStep<Op>(
    sends: seq<OpTable<Op>>, recvs: seq<OpTable<Op>>, bits: nat, step: nat, start: nat, count: nat)
    requires |sends| == |recvs| && count > 0
    ensures var now := InitialState(ChunkTables(sends, start, start + step), ChunkTables(recvs, start, start + step), bits);
      var later := ChunkedInitial(sends, recvs, bits, step, start + step, count - 1);
      var all := ChunkedInitial(sends, recvs, bits, step, start, count);
      |all| == |now| == |later| && forall r | 0 <= r < |all| :: all[r] == now[r] + later[r]
  {
  }

  lemma ProgramsConcat<T>(e1: seq<Event<T>>, st1: Residue<T>, e2: seq<Event<T>>, st2: Residue<T>, st: Residue<T>)
    requires Programs(e1, st1) && Programs(e2, st2) && |st| == |st1| == |st2|
    requires forall r | 0 <= r < |st| :: st[r] == st1[r] + st2[r]
    ensures Programs(e1 + e2, st)
  {
    forall r | 0 <= r < |st|
      ensures st[r] == Project(e1 + e2, r)
    {
      ProjectConcat(e1, e2, r);
    }
  }

  /** What one chunk exchanges between two ranks. */
  lemma ChunkBetween<Op>(sends: seq<OpTable<Op>>, bits: nat, start: nat, end: nat, s: nat, d: nat)
    requires |sends| == Pow2(bits) && start <= end && s < |sends| && d < |sends| && s != d
    ensures Between(WorldEvents(ChunkTables(sends, start, end), bits), s, d)
         == Entry(Slice(OpsFor(sends[s], d), start, end))
  {
    WorldBetween(ChunkTables(sends, start, end), bits, s, d);
    ChunkTableLookup(sends[s], start, end, d);
  }

  lemma {:induction false} ExchangesBetween<Op>(
    exchange: nat -> seq<Event<seq<Op>>>, ops: seq<Op>, step: nat, start: nat, count: nat, s: nat, d: nat)
    requires forall at: nat :: Between(exchange(at), s, d) == Entry(Slice(ops, at, at + step))
    ensures Between(Exchanges(exchange, step, start, count), s, d) == Chunks(ops, step, start, count)
    decreases count
  {
    if count > 0 {
      ExchangesBetween(exchange, ops, step, start + step, count - 1, s, d);
      BetweenConcat(exchange(start), Exchanges(exchange, step, start + step, count - 1), s, d);
      ChunksCons(ops, step, start, count);
    }
  }

  lemma ChunkAtIs<Op>(sends: seq<OpTable<Op>>, bits: nat, step: nat, at: nat) returns (events: seq<Event<seq<Op>>>)
    ensures ChunkAt(sends, bits, step)(at) == events == WorldEvents(ChunkTables(sends, at, at + step), bits)
  {
    events := WorldEvents(ChunkTables(sends, at, at + step), bits);
  }

  lemma ChunkAtBetween<Op>(sends: seq<OpTable<Op>>, bits: nat, step: nat, at: nat, end: nat, s: nat, d: nat)
    returns (events: seq<Event<seq<Op>>>)
    requires |sends| == Pow2(bits) && s < |sends| && d < |sends| && s != d && end == at + step
    ensures events == ChunkAt(sends, bits, step)(at)
    ensures Between(events, s, d) == Entry(Slice(OpsFor(sends[s], d), at, end))
  {
    events := ChunkAtIs(sends, bits, step, at);
    ChunkBetween(sends, bits, at, end, s, d);
  }

  lemma ChunkedBetween<Op>(
    sends: seq<OpTable<Op>>, bits: nat, step: nat, start: nat, count: nat, s: nat, d: nat)
    requires |sends| == Pow2(bits) && s < |sends| && d < |sends| && s != d
    ensures Between(ChunkedEvents(sends, bits, step, start, count), s, d)
         == Chunks(OpsFor(sends[s], d), step, start, count)
  {
    forall at: nat
      ensures Between(ChunkAt(sends, bits, step)(at), s, d) == Entry(Slice(OpsFor(sends[s], d), at, at + step))
    {
      var events := ChunkAtBetween(sends, bits, step, at, at + step, s, d);
    }
    ExchangesBetween(ChunkAt(sends, bits, step), OpsFor(sends[s], d), step, start, count, s, d);
  }

  /** A chunk count that is at least a rank's own covers every list of that rank. */
  lemma {:induction false} AgreedChunksSuffice<Op>(lists: seq<seq<Op>>, step: nat, count: nat, i: nat)
    requires step > 0 && LocalChunks(lists, step) <= count && i < |lists|
    ensures |lists[i]| <= count * step
  {
    LongestBounds(lists, i);
    var longest := MaxLength(lists);
    DivBounds(longest + step - 1, step);
    MulMonotone((longest + step - 1) / step, count, step);
  }

  /**
   The chunked exchange with a shared positive step and a chunk count no rank exceeds:
   no interleaving deadlocks, chunk k of a sender only ever meets chunk k of its
   receiver, and when a run cannot continue each ordered pair has exchanged its whole
   list, in order, nothing twice.
   */
  lemma ChunkedExchangeCompletes<Op>(
    sends: seq<OpTable<Op>>, recvs: seq<OpTable<Op>>, bits: nat, step: nat, count: nat,
    trace: seq<Event<seq<Op>>>, end: Residue<seq<Op>>)
    requires Matched(sends, recvs) && |sends| == Pow2(bits) && step > 0
    requires forall r: nat | r < |sends| :: LocalChunks(PeerLists(sends[r], recvs[r], |sends|), step) <= count
    requires Run(ChunkedInitial(sends, recvs, bits, step, 0, count), trace, end)
    ensures !Finished(end) ==> exists src: nat, dst: nat :: Enabled(end, src, dst)
    ensures forall src: nat, dst: nat | Enabled(end, src, dst) :: end[src][0].load == end[dst][0].load
    ensures forall s: nat, d: nat | s < |sends| && d < |sends| && s != d ::
      && Between(trace, s, d) <= Chunks(OpsFor(sends[s], d), step, 0, count)
      && (Finished(end) ==> Flatten(Between(trace, s, d)) == OpsFor(sends[s], d))
  {
    var events := ChunkedEvents(sends, bits, step, 0, count);
    ChunkedPrograms(sends, recvs, bits, step, 0, count);
    DeadlockFree(events, ChunkedInitial(sends, recvs, bits, step, 0, count), trace, end);
    forall s: nat, d: nat | s < |sends| && d < |sends| && s != d
      ensures Between(events, s, d) == Chunks(OpsFor(sends[s], d), step, 0, count)
      ensures Flatten(Between(events, s, d)) == OpsFor(sends[s], d)
    {
      ChunkedBetween(sends, bits, step, 0, count, s, d);
      ChunksCoverList(PeerLists(sends[s], recvs[s], |sends|), OpsFor(sends[s], d), step, count, d);
    }
  }

  lemma ChunksCoverList<Op>(lists: seq<seq<Op>>, ops: seq<Op>, step: nat, count: nat, i: nat)
    requires step > 0 && LocalChunks(lists, step) <= count && i < |lists| && lists[i] == ops
    ensures Flatten(Chunks(ops, step, 0, count)) == ops
  {
    AgreedChunksSuffice(lists, step, count, i);
    ChunksConcat(ops, step, 0, count);
    WholeSlice(ops, count * step);
  }

  lemma WholeSlice<Op>(ops: seq<Op>, end: nat)
    requires |ops| <= end
    ensures Slice(ops, 0, end) == ops
  {
  }
}
