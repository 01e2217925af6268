/**
 The recursive-partition exchange of the colocated stream-batch transport.

 In round k the world splits into partitions of world / 2^k ranks. Phase 1 sends from
 the first half of every partition to its second half, phase 2 the other way round.
 Each rank walks the other half in ascending order and issues one blocking batch per
 peer that has operations. There is no barrier between phases or rounds.
 */
module RecursivePartition {
  import opened PowersOfTwo
  import opened Rendezvous
  import opened SequenceFacts

  type OpTable<Op> = map<nat, seq<Op>>

  // ---------------------------------------------------------------- the schedule of one rank

  /** Which half of its partition a rank is in, and the range of ranks of the other half. */
  datatype Half = Half(first: bool, otherStart: nat, otherEnd: nat)

  /** The first rank of the partition that rank is in. */
  function PartitionBase(rank: nat, size: nat): (base: nat)
    requires size > 0
    ensures base <= rank < base + size
  {
    if rank < size then 0 else size + PartitionBase(rank - size, size)
  }

  lemma {:induction false} PartitionBaseIsProduct(rank: nat, size: nat)
    requires size > 0
    ensures PartitionBase(rank, size) == rank / size * size
  {
    if rank < size {
      DivUnique(rank, size, 0);
    } else {
      PartitionBaseIsProduct(rank - size, size);
      QuotientLess(rank, size);
    }
  }

  lemma QuotientLess(rank: nat, size: nat)
    requires size > 0 && rank >= size
    ensures rank / size * size == (rank - size) / size * size + size
  {
    var q := (rank - size) / size;
    DivBounds(rank - size, size);
    assert (q + 1) * size == q * size + size;
    DivUnique(rank, size, q + 1);
  }

  function HalfOf(rank: nat, size: nat): Half
    requires size > 0
  {
    var base := PartitionBase(rank, size);
    if rank - base < size / 2 then Half(true, base + size / 2, base + size) else Half(false, base, base + size / 2)
  }

  function OpsFor<Op>(table: OpTable<Op>, peer: nat): seq<Op> {
    if peer in table then table[peer] else []
  }

  function Batch<Op>(table: OpTable<Op>, peer: nat, sending: bool): seq<Action<seq<Op>>> {
    var ops := OpsFor(table, peer);
    if ops == [] then [] else if sending then [Send(peer, ops)] else [Recv(peer, ops)]
  }

  /** One batch for each peer of the range that has operations, in ascending order. */
  function Batches<Op>(table: OpTable<Op>, lo: nat, hi: nat, sending: bool): seq<Action<seq<Op>>>
    decreases hi
  {
    if hi <= lo then [] else Batches(table, lo, hi - 1, sending) + Batch(table, hi - 1, sending)
  }

  function PhaseProgram<Op>(half: Half, firstSends: bool, sends: OpTable<Op>, recvs: OpTable<Op>)
    : seq<Action<seq<Op>>>
  {
    var sending := half.first == firstSends;
    Batches(if sending then sends else recvs, half.otherStart, half.otherEnd, sending)
  }

  function RoundProgram<Op>(half: Half, sends: OpTable<Op>, recvs: OpTable<Op>): seq<Action<seq<Op>>> {
    PhaseProgram(half, true, sends, recvs) + PhaseProgram(half, false, sends, recvs)
  }

  /** Rounds on partitions of 2^bits, 2^(bits-1), ..., 2 ranks. */
  function RankProgram<Op>(rank: nat, bits: nat, sends: OpTable<Op>, recvs: OpTable<Op>): seq<Action<seq<Op>>> {
    if bits == 0 then []
    else RoundProgram(HalfOf(rank, Pow2(bits)), sends, recvs) + RankProgram(rank, bits - 1, sends, recvs)
  }

  /** The transport object of one rank; issued records the batches it has executed, in order. */
  class StreamBatchTransport<Op> {
    const transferRank: nat
    const worldSize: nat
    var issued: seq<Action<seq<Op>>>

    constructor (transferRank: nat, worldSize: nat)
      ensures this.transferRank == transferRank && this.worldSize == worldSize && issued == []
    {
      this.transferRank := transferRank;
      this.worldSize := worldSize;
      issued := [];
    }

    method ExecuteOpsConcurrent(table: OpTable<Op>, lo: nat, hi: nat, sending: bool) returns (total: nat)
      requires lo <= hi
      modifies this`issued
      ensures issued == old(issued) + Batches(table, lo, hi, sending)
    {
      total := 0;
      for peer := lo to hi
        invariant issued == old(issued) + Batches(table, lo, peer, sending)
      {
        var ops := if peer in table then table[peer] else [];
        if |ops| != 0 {
          issued := issued + [if sending then Send(peer, ops) else Recv(peer, ops)];
          total := total + |ops|;
        }
      }
    }

    /** Locates this rank in its partition: its half, and the rank range of the other half. */
    method LocateHalf(size: nat) returns (inFirstHalf: bool, otherStart: nat, otherEnd: nat)
      requires size > 0
      ensures HalfOf(transferRank, size) == Half(inFirstHalf, otherStart, otherEnd)
      ensures otherStart <= otherEnd
    {
      PartitionBaseIsProduct(transferRank, size);
      var half := size / 2;
      var partitionBase := transferRank / size * size;
      inFirstHalf := transferRank - partitionBase < half;
      if inFirstHalf {
        otherStart, otherEnd := partitionBase + half, partitionBase + size;
      } else {
        otherStart, otherEnd := partitionBase, partitionBase + half;
      }
    }

    /** Phase 1: the first half sends. Phase 2: the second half sends. */
    method ExecutePhases(
      inFirstHalf: bool, otherStart: nat, otherEnd: nat, sends: OpTable<Op>, recvs: OpTable<Op>)
      requires otherStart <= otherEnd
      modifies this`issued
      ensures issued == old(issued) + RoundProgram(Half(inFirstHalf, otherStart, otherEnd), sends, recvs)
    {
      ghost var half := Half(inFirstHalf, otherStart, otherEnd);
      if inFirstHalf {
        var _ := ExecuteOpsConcurrent(sends, otherStart, otherEnd, true);
        var _ := ExecuteOpsConcurrent(recvs, otherStart, otherEnd, false);
      } else {
        var _ := ExecuteOpsConcurrent(recvs, otherStart, otherEnd, false);
        var _ := ExecuteOpsConcurrent(sends, otherStart, otherEnd, true);
      }
      Associate(old(issued), PhaseProgram(half, true, sends, recvs), PhaseProgram(half, false, sends, recvs));
    }

    method ExecuteRound(size: nat, sends: OpTable<Op>, recvs: OpTable<Op>)
      requires size > 0
      modifies this`issued
      ensures issued == old(issued) + RoundProgram(HalfOf(transferRank, size), sends, recvs)
    {
      var inFirstHalf, otherStart, otherEnd := LocateHalf(size);
      ExecutePhases(inFirstHalf, otherStart, otherEnd, sends, recvs);
    }

    method ExecuteRecursivePartition(sends: OpTable<Op>, recvs: OpTable<Op>, ghost bits: nat)
      requires worldSize == Pow2(bits) && transferRank < worldSize
      modifies this`issued
      ensures issued == old(issued) + RankProgram(transferRank, bits, sends, recvs)
    {
      Log2OfPow2(bits);
      var numRounds := Log2(worldSize);
      var divisor := 1;
      for round := 0 to numRounds
        invariant divisor == Pow2(round)
        invariant issued + RankProgram(transferRank, bits - round, sends, recvs)
               == old(issued) + RankProgram(transferRank, bits, sends, recvs)
      {
        DivPow2(bits, round);
        Associate(
          issued, RoundProgram(HalfOf(transferRank, Pow2(bits - round)), sends, recvs),
          RankProgram(transferRank, bits - round - 1, sends, recvs));
        ExecuteRound(worldSize / divisor, sends, recvs);
        divisor := divisor * 2;
      }
    }
  }

  // ---------------------------------------------------------------- geometry of a round

  predicate Addresses(half: Half, peer: nat) {
    half.otherStart <= peer < half.otherEnd
  }

  function Halves(world: nat, size: nat): seq<Half>
    requires size > 0
  {
    seq(world, r requires 0 <= r < world => HalfOf(r, size))
  }

  /** Ranks address each other symmetrically, only across halves, and only inside the world. */
  ghost predicate Bipartite(halves: seq<Half>) {
    && (forall a: nat | a < |halves| :: halves[a].otherStart <= halves[a].otherEnd <= |halves|)
    && forall a: nat, b: nat | a < |halves| && b < |halves| ::
      && (Addresses(halves[a], b) <==> Addresses(halves[b], a))
      && (Addresses(halves[a], b) ==> halves[a].first != halves[b].first)
  }

  lemma HalfFacts(a: nat, half: nat)
    requires half > 0
    ensures a / half == 2 * (a / (2 * half)) + (if HalfOf(a, 2 * half).first then 0 else 1)
  {
    PartitionBaseIsProduct(a, 2 * half);
    DivByHalf(a, half);
    DivBounds(a, 2 * half);
  }

  /** Being in the other half is the same as sharing the partition but not its half. */
  lemma AddressesMeaning(a: nat, b: nat, half: nat)
    requires half > 0
    ensures Addresses(HalfOf(a, 2 * half), b)
       <==> (a / (2 * half) == b / (2 * half) && HalfOf(a, 2 * half).first != HalfOf(b, 2 * half).first)
    ensures Addresses(HalfOf(a, 2 * half), b) <==> (a / (2 * half) == b / (2 * half) && a / half != b / half)
  {
    var size := 2 * half;
    PartitionBaseIsProduct(a, size);
    PartitionBaseIsProduct(b, size);
    DivBounds(b, size);
    if Addresses(HalfOf(a, size), b) {
      DivUnique(b, size, a / size);
    }
    HalfFacts(a, half);
    HalfFacts(b, half);
  }

  /** The same, for the round on partitions of 2^k ranks. */
  lemma AddressesInRound(a: nat, b: nat, k: nat)
    requires k > 0
    ensures Addresses(HalfOf(a, Pow2(k)), b)
       <==> (PartIndex(a, k) == PartIndex(b, k) && PartIndex(a, k - 1) != PartIndex(b, k - 1))
  {
    AddressesMeaning(a, b, Pow2(k - 1));
    PartIndexIsQuotient(a, k);
    PartIndexIsQuotient(b, k);
    PartIndexIsQuotient(a, k - 1);
    PartIndexIsQuotient(b, k - 1);
  }

  lemma PartitionInWorld(rank: nat, parts: nat, size: nat)
    requires size > 0 && rank < parts * size
    ensures PartitionBase(rank, size) + size <= parts * size
  {
    PartitionBaseIsProduct(rank, size);
    DivBounds(rank, size);
    if rank / size >= parts {
      MulMonotone(parts, rank / size, size);
    }
    MulMonotone(rank / size + 1, parts, size);
  }

  lemma RoundIsBipartite(bits: nat, k: nat)
    requires 0 < k <= bits
    ensures Bipartite(Halves(Pow2(bits), Pow2(k)))
  {
    var world, size := Pow2(bits), Pow2(k);
    var halves := Halves(world, size);
    Pow2Add(bits - k, k);
    forall a: nat | a < world
      ensures halves[a].otherStart <= halves[a].otherEnd <= |halves|
    {
      PartitionInWorld(a, Pow2(bits - k), size);
    }
    forall a: nat, b: nat | a < world && b < world
      ensures Addresses(halves[a], b) <==> Addresses(halves[b], a)
      ensures Addresses(halves[a], b) ==> halves[a].first != halves[b].first
    {
      AddressingIsSymmetric(a, b, k);
    }
  }

  lemma AddressingIsSymmetric(a: nat, b: nat, k: nat)
    requires k > 0
    ensures Addresses(HalfOf(a, Pow2(k)), b) <==> Addresses(HalfOf(b, Pow2(k)), a)
    ensures Addresses(HalfOf(a, Pow2(k)), b) ==> HalfOf(a, Pow2(k)).first != HalfOf(b, Pow2(k)).first
  {
    AddressesMeaning(a, b, Pow2(k - 1));
    AddressesMeaning(b, a, Pow2(k - 1));
  }

  // ---------------------------------------------------------------- the schedule of the world

  function RowEntry<Op>(src: nat, table: OpTable<Op>, peer: nat): seq<Event<seq<Op>>> {
    if OpsFor(table, peer) == [] then [] else [Event(src, peer, OpsFor(table, peer))]
  }

  function RowEvents<Op>(src: nat, table: OpTable<Op>, lo: nat, hi: nat): seq<Event<seq<Op>>>
    decreases hi
  {
    if hi <= lo then []
    else
      RowEvents(src, table, lo, hi - 1) + RowEntry(src, table, hi - 1)
  }

  /** The batches sent by src in one phase. */
  function SenderEvents<Op>(src: nat, table: OpTable<Op>, half: Half, firstSends: bool): seq<Event<seq<Op>>> {
    if half.first == firstSends then RowEvents(src, table, half.otherStart, half.otherEnd) else []
  }

  /** All batches of one phase whose sender is below upto, ordered by sender and then receiver. */
  function PhaseEvents<Op>(sends: seq<OpTable<Op>>, halves: seq<Half>, firstSends: bool, upto: nat)
    : seq<Event<seq<Op>>>
    requires upto <= |sends| == |halves|
  {
    if upto == 0 then []
    else
      PhaseEvents(sends, halves, firstSends, upto - 1)
      + SenderEvents(upto - 1, sends[upto - 1], halves[upto - 1], firstSends)
  }

  function RoundEvents<Op>(sends: seq<OpTable<Op>>, halves: seq<Half>): seq<Event<seq<Op>>>
    requires |sends| == |halves|
  {
    PhaseEvents(sends, halves, true, |sends|) + PhaseEvents(sends, halves, false, |sends|)
  }

  /** The round on partitions of 2^k ranks. */
  function RoundOf<Op>(sends: seq<OpTable<Op>>, k: nat): seq<Event<seq<Op>>> {
    RoundEvents(sends, Halves(|sends|, Pow2(k)))
  }

  function RoundsOf<Op>(sends: seq<OpTable<Op>>): nat -> seq<Event<seq<Op>>> {
    (k: nat) => RoundOf(sends, k)
  }

  /** Rounds k, k - 1, ..., 1 in order. */
  function Rounds<T>(round: nat -> seq<Event<T>>, k: nat): seq<Event<T>> {
    if k == 0 then [] else round(k) + Rounds(round, k - 1)
  }

  function WorldEvents<Op>(sends: seq<OpTable<Op>>, bits: nat): seq<Event<seq<Op>>> {
    Rounds(RoundsOf(sends), bits)
  }

  /** What dst expects from src is exactly what src sends to dst. */
  ghost predicate Matched<Op>(sends: seq<OpTable<Op>>, recvs: seq<OpTable<Op>>) {
    && |sends| == |recvs|
    && forall s: nat, d: nat | s < |sends| && d < |sends| && s != d :: OpsFor(sends[s], d) == OpsFor(recvs[d], s)
  }

  function InitialState<Op>(sends: seq<OpTable<Op>>, recvs: seq<OpTable<Op>>, bits: nat): Residue<seq<Op>>
    requires |sends| == |recvs|
  {
    seq(|sends|, r requires 0 <= r < |sends| => RankProgram(r, bits, sends[r], recvs[r]))
  }

  // ---------------------------------------------------------------- projections

  lemma RowEntryProjects<Op>(src: nat, table: OpTable<Op>, peer: nat, rank: nat)
    ensures rank == src ==> Project(RowEntry(src, table, peer), rank) == Batch(table, peer, true)
    ensures rank != src && rank == peer ==> Project(RowEntry(src, table, peer), rank) == RecvEntry(src, table, rank)
    ensures rank != src && rank != peer ==> Project(RowEntry(src, table, peer), rank) == []
  {
    var e := Event(src, peer, OpsFor(table, peer));
    ProjectCons(e, [], rank);
    EmptySuffix([e]);
    EmptySuffix(View(e, rank));
  }

  function RecvEntry<Op>(src: nat, table: OpTable<Op>, rank: nat): seq<Action<seq<Op>>> {
    if OpsFor(table, rank) == [] then [] else [Recv(src, OpsFor(table, rank))]
  }

  lemma {:induction false} RowOfSender<Op>(src: nat, table: OpTable<Op>, lo: nat, hi: nat)
    requires lo <= hi
    ensures Project(RowEvents(src, table, lo, hi), src) == Batches(table, lo, hi, true)
    decreases hi
  {
    if lo < hi {
      RowOfSender(src, table, lo, hi - 1);
      RowEntryProjects(src, table, hi - 1, src);
      ProjectConcat(RowEvents(src, table, lo, hi - 1), RowEntry(src, table, hi - 1), src);
    }
  }

  /** When only one of two parts involves rank, that part is what rank sees of both. */
  lemma JoinProjections<T>(
    all: seq<Event<T>>, a: seq<Event<T>>, b: seq<Event<T>>, rank: nat, share: seq<Action<T>>, first: bool)
    requires all == a + b
    requires if first then Project(a, rank) == share && Project(b, rank) == []
             else Project(a, rank) == [] && Project(b, rank) == share
    ensures Project(all, rank) == share
  {
    ProjectConcat(a, b, rank);
    EmptyPrefix(share);
    EmptySuffix(share);
  }

  lemma {:induction false} RowOfOther<Op>(src: nat, table: OpTable<Op>, lo: nat, hi: nat, rank: nat)
    requires rank != src
    ensures Project(RowEvents(src, table, lo, hi), rank)
         == if lo <= rank < hi then RecvEntry(src, table, rank) else []
    decreases hi
  {
    if lo < hi {
      RowOfOther(src, table, lo, hi - 1, rank);
      RowEntryProjects(src, table, hi - 1, rank);
      var all, before, last := RowEvents(src, table, lo, hi), RowEvents(src, table, lo, hi - 1), RowEntry(src, table, hi - 1);
      if rank == hi - 1 {
        JoinProjections(all, before, last, rank, RecvEntry(src, table, rank), false);
      } else {
        JoinProjections(all, before, last, rank, Project(before, rank), true);
      }
    }
  }

  /** What one sender's row means for rank. */
  lemma SenderProjection<Op>(
    sends: seq<OpTable<Op>>, recvs: seq<OpTable<Op>>, halves: seq<Half>, firstSends: bool, src: nat, rank: nat)
    requires Matched(sends, recvs) && |halves| == |sends| && Bipartite(halves)
    requires src < |sends| && rank < |sends|
    ensures
      Project(SenderEvents(src, sends[src], halves[src], firstSends), rank)
      == if halves[rank].first == firstSends
         then (if rank == src then Batches(sends[rank], halves[rank].otherStart, halves[rank].otherEnd, true) else [])
         else (if Addresses(halves[rank], src) then Batch(recvs[rank], src, false) else [])
  {
    var half := halves[src];
    assert Addresses(half, rank) <==> Addresses(halves[rank], src);
    if half.first == firstSends {
      if src == rank {
        RowOfSender(src, sends[src], half.otherStart, half.otherEnd);
      } else {
        RowOfOther(src, sends[src], half.otherStart, half.otherEnd, rank);
      }
    }
  }

  /** A phase projects on a sender to its row, on a receiver to one batch for each sender of the other half. */
  lemma {:induction false} PhaseProjection<Op>(
    sends: seq<OpTable<Op>>, recvs: seq<OpTable<Op>>, halves: seq<Half>, firstSends: bool, upto: nat, rank: nat)
    requires Matched(sends, recvs) && |halves| == |sends| && Bipartite(halves)
    requires upto <= |sends| && rank < |sends|
    ensures
      var half := halves[rank];
      Project(PhaseEvents(sends, halves, firstSends, upto), rank)
      == if half.first == firstSends
         then (if rank < upto then Batches(sends[rank], half.otherStart, half.otherEnd, true) else [])
         else Batches(recvs[rank], half.otherStart, if upto < half.otherEnd then upto else half.otherEnd, false)
  {
    if upto > 0 {
      var src := upto - 1;
      PhaseProjection(sends, recvs, halves, firstSends, src, rank);
      SenderProjection(sends, recvs, halves, firstSends, src, rank);
      ProjectConcat(
        PhaseEvents(sends, halves, firstSends, src), SenderEvents(src, sends[src], halves[src], firstSends), rank);
    }
  }

  lemma RoundProjection<Op>(sends: seq<OpTable<Op>>, recvs: seq<OpTable<Op>>, halves: seq<Half>, rank: nat)
    requires Matched(sends, recvs) && |halves| == |sends| && Bipartite(halves) && rank < |sends|
    ensures Project(RoundEvents(sends, halves), rank) == RoundProgram(halves[rank], sends[rank], recvs[rank])
  {
    PhaseProjection(sends, recvs, halves, true, |sends|, rank);
    PhaseProjection(sends, recvs, halves, false, |sends|, rank);
    ProjectConcat(PhaseEvents(sends, halves, true, |sends|), PhaseEvents(sends, halves, false, |sends|), rank);
  }

  lemma {:induction false} WorldProjection<Op>(
    sends: seq<OpTable<Op>>, recvs: seq<OpTable<Op>>, bits: nat, k: nat, rank: nat)
    requires Matched(sends, recvs) && |sends| == Pow2(bits) && k <= bits && rank < |sends|
    ensures Project(WorldEvents(sends, k), rank) == RankProgram(rank, k, sends[rank], recvs[rank])
    decreases k
  {
    if k > 0 {
      WorldProjection(sends, recvs, bits, k - 1, rank);
      RoundIsBipartite(bits, k);
      RoundProjection(sends, recvs, Halves(|sends|, Pow2(k)), rank);
      ProjectConcat(RoundOf(sends, k), WorldEvents(sends, k - 1), rank);
    }
  }

  // ---------------------------------------------------------------- every pair meets exactly once

  /** Distinct ranks address each other in exactly one round, the one of their top differing bit. */
  lemma {:induction false} MeetOnce(a: nat, b: nat, bits: nat) returns (k: nat)
    requires a < Pow2(bits) && b < Pow2(bits) && a != b
    ensures 0 < k <= bits && Addresses(HalfOf(a, Pow2(k)), b)
    ensures forall j: nat | 0 < j <= bits && j != k :: !Addresses(HalfOf(a, Pow2(j)), b)
  {
    PartIndexOfSmall(a, bits);
    PartIndexOfSmall(b, bits);
    k := 0;
    while PartIndex(a, k) != PartIndex(b, k)
      invariant k <= bits
      invariant forall j: nat | j < k :: PartIndex(a, j) != PartIndex(b, j)
      decreases bits - k
    {
      k := k + 1;
    }
    AddressesInRound(a, b, k);
    forall j: nat | 0 < j <= bits && j != k
      ensures !Addresses(HalfOf(a, Pow2(j)), b)
    {
      AddressesInRound(a, b, j);
      if j > k { SameFineSameCoarse(a, b, k, j - 1); }
    }
  }

  function Entry<Op>(ops: seq<Op>): seq<seq<Op>> {
    if ops == [] then [] else [ops]
  }

  lemma EntryBetween<Op>(src: nat, table: OpTable<Op>, peer: nat, s: nat, d: nat)
    ensures Between(RowEntry(src, table, peer), s, d) == if s == src && d == peer then Entry(OpsFor(table, d)) else []
  {
    var e := Event(src, peer, OpsFor(table, peer));
    BetweenCons(e, [], s, d);
    EmptySuffix([e]);
    EmptySuffix(Carried(e, s, d));
  }

  /** When only one of two parts exchanges anything from s to d, that part is what both exchange. */
  lemma JoinShares<T>(
    all: seq<Event<T>>, a: seq<Event<T>>, b: seq<Event<T>>, s: nat, d: nat, share: seq<T>, first: bool)
    requires all == a + b
    requires if first then Between(a, s, d) == share && Between(b, s, d) == []
             else Between(a, s, d) == [] && Between(b, s, d) == share
    ensures Between(all, s, d) == share
  {
    BetweenConcat(a, b, s, d);
    EmptyPrefix(share);
    EmptySuffix(share);
  }

  lemma {:induction false} RowBetween<Op>(src: nat, table: OpTable<Op>, lo: nat, hi: nat, s: nat, d: nat)
    ensures Between(RowEvents(src, table, lo, hi), s, d)
         == if s == src && lo <= d < hi then Entry(OpsFor(table, d)) else []
    decreases hi
  {
    if lo < hi {
      RowBetween(src, table, lo, hi - 1, s, d);
      EntryBetween(src, table, hi - 1, s, d);
      var share := if s == src && lo <= d < hi then Entry(OpsFor(table, d)) else [];
      JoinShares(
        RowEvents(src, table, lo, hi), RowEvents(src, table, lo, hi - 1), RowEntry(src, table, hi - 1), s, d, share,
        d != hi - 1);
    }
  }

  lemma SenderBetween<Op>(src: nat, table: OpTable<Op>, half: Half, firstSends: bool, s: nat, d: nat)
    ensures Between(SenderEvents(src, table, half, firstSends), s, d)
         == if s == src && half.first == firstSends && Addresses(half, d) then Entry(OpsFor(table, d)) else []
  {
    RowBetween(src, table, half.otherStart, half.otherEnd, s, d);
  }

  /** What s hands to d in the part of a phase whose senders are below upto. */
  function PhaseShare<Op>(table: OpTable<Op>, half: Half, firstSends: bool, upto: nat, s: nat, d: nat): seq<seq<Op>> {
    if s < upto && half.first == firstSends && Addresses(half, d) then Entry(OpsFor(table, d)) else []
  }

  lemma {:induction false} PhaseBetween<Op>(
    sends: seq<OpTable<Op>>, halves: seq<Half>, firstSends: bool, upto: nat, s: nat, d: nat)
    requires |halves| == |sends| && upto <= |sends| && s < |sends|
    ensures Between(PhaseEvents(sends, halves, firstSends, upto), s, d)
         == PhaseShare(sends[s], halves[s], firstSends, upto, s, d)
    decreases upto
  {
    if upto > 0 {
      var src := upto - 1;
      PhaseBetween(sends, halves, firstSends, src, s, d);
      SenderBetween(src, sends[src], halves[src], firstSends, s, d);
      JoinShares(
        PhaseEvents(sends, halves, firstSends, upto),
        PhaseEvents(sends, halves, firstSends, src), SenderEvents(src, sends[src], halves[src], firstSends), s, d,
        PhaseShare(sends[s], halves[s], firstSends, upto, s, d), s != src);
    }
  }

  lemma RoundBetween<Op>(sends: seq<OpTable<Op>>, halves: seq<Half>, s: nat, d: nat)
    requires |halves| == |sends| && s < |sends|
    ensures Between(RoundEvents(sends, halves), s, d)
         == if Addresses(halves[s], d) then Entry(OpsFor(sends[s], d)) else []
  {
    PhaseBetween(sends, halves, true, |sends|, s, d);
    PhaseBetween(sends, halves, false, |sends|, s, d);
    JoinShares(
      RoundEvents(sends, halves), PhaseEvents(sends, halves, true, |sends|), PhaseEvents(sends, halves, false, |sends|), s, d,
      if Addresses(halves[s], d) then Entry(OpsFor(sends[s], d)) else [], halves[s].first);
  }

  /** A pair that meets in one round only exchanges what it exchanges there. */
  lemma {:induction false} RoundsBetween<T>(round: nat -> seq<Event<T>>, k: nat, s: nat, d: nat, at: nat, share: seq<T>)
    requires forall j: nat | 0 < j <= k :: Between(round(j), s, d) == if j == at then share else []
    ensures Between(Rounds(round, k), s, d) == if 0 < at <= k then share else []
    decreases k
  {
    if k > 0 {
      RoundsBetween(round, k - 1, s, d, at, share);
      BetweenConcat(round(k), Rounds(round, k - 1), s, d);
      EmptyPrefix(if 0 < at <= k - 1 then share else []);
      EmptySuffix(share);
    }
  }

  /** The whole exchange serves every ordered pair of distinct ranks, in one batch. */
  lemma WorldBetween<Op>(sends: seq<OpTable<Op>>, bits: nat, s: nat, d: nat)
    requires |sends| == Pow2(bits) && s < |sends| && d < |sends| && s != d
    ensures Between(WorldEvents(sends, bits), s, d) == Entry(OpsFor(sends[s], d))
  {
    var at := MeetOnce(s, d, bits);
    var share := Entry(OpsFor(sends[s], d));
    forall j: nat | 0 < j <= bits
      ensures Between(RoundsOf(sends)(j), s, d) == if j == at then share else []
    {
      RoundBetween(sends, Halves(|sends|, Pow2(j)), s, d);
    }
    RoundsBetween(RoundsOf(sends), bits, s, d, at, share);
  }

  lemma {:induction false} RowWellFormed<Op>(src: nat, table: OpTable<Op>, lo: nat, hi: nat, world: nat)
    requires src < world && hi <= world && !(lo <= src < hi)
    ensures WellFormed(RowEvents(src, table, lo, hi), world)
    decreases hi
  {
    if lo < hi { RowWellFormed(src, table, lo, hi - 1, world); }
  }

  lemma {:induction false} PhaseWellFormed<Op>(sends: seq<OpTable<Op>>, halves: seq<Half>, firstSends: bool, upto: nat)
    requires |halves| == |sends| && upto <= |sends| && Bipartite(halves)
    ensures WellFormed(PhaseEvents(sends, halves, firstSends, upto), |sends|)
  {
    if upto > 0 {
      var src := upto - 1;
      PhaseWellFormed(sends, halves, firstSends, src);
      assert !Addresses(halves[src], src);
      RowWellFormed(src, sends[src], halves[src].otherStart, halves[src].otherEnd, |sends|);
    }
  }

  lemma RoundWellFormed<Op>(sends: seq<OpTable<Op>>, halves: seq<Half>)
    requires |halves| == |sends| && Bipartite(halves)
    ensures WellFormed(RoundEvents(sends, halves), |sends|)
  {
    PhaseWellFormed(sends, halves, true, |sends|);
    PhaseWellFormed(sends, halves, false, |sends|);
  }

  lemma {:induction false} RoundsWellFormed<T>(round: nat -> seq<Event<T>>, k: nat, world: nat)
    requires forall j: nat | 0 < j <= k :: WellFormed(round(j), world)
    ensures WellFormed(Rounds(round, k), world)
  {
    if k > 0 { RoundsWellFormed(round, k - 1, world); }
  }

  lemma WorldWellFormed<Op>(sends: seq<OpTable<Op>>, bits: nat)
    requires |sends| == Pow2(bits)
    ensures WellFormed(WorldEvents(sends, bits), |sends|)
  {
    forall j: nat | 0 < j <= bits
      ensures WellFormed(RoundsOf(sends)(j), |sends|)
    {
      RoundIsBipartite(bits, j);
      RoundWellFormed(sends, Halves(|sends|, Pow2(j)));
    }
    RoundsWellFormed(RoundsOf(sends), bits, |sends|);
  }

  lemma ProgramsOfWorld<Op>(sends: seq<OpTable<Op>>, recvs: seq<OpTable<Op>>, bits: nat)
    requires Matched(sends, recvs) && |sends| == Pow2(bits)
    ensures Programs(WorldEvents(sends, bits), InitialState(sends, recvs, bits))
  {
    WorldWellFormed(sends, bits);
    forall r: nat | r < |sends|
      ensures InitialState(sends, recvs, bits)[r] == Project(WorldEvents(sends, bits), r)
    {
      WorldProjection(sends, recvs, bits, bits, r);
    }
  }

  /**
   The exchange on a power-of-two world with matching tables: no interleaving deadlocks,
   a rendezvous always joins equal operation lists, and when a run cannot continue every
   ordered pair of distinct ranks has exchanged exactly its operations, in one batch.
   */
  lemma ExchangeCompletes<Op>(
    sends: seq<OpTable<Op>>, recvs: seq<OpTable<Op>>, bits: nat, trace: seq<Event<seq<Op>>>, end: Residue<seq<Op>>)
    requires Matched(sends, recvs) && |sends| == Pow2(bits)
    requires Run(InitialState(sends, recvs, bits), trace, end)
    ensures !Finished(end) ==> exists src: nat, dst: nat :: Enabled(end, src, dst)
    ensures forall src: nat, dst: nat | Enabled(end, src, dst) :: end[src][0].load == end[dst][0].load
    ensures |trace| <= |WorldEvents(sends, bits)|
    ensures Finished(end) ==> forall s: nat, d: nat | s < |sends| && d < |sends| && s != d ::
      Between(trace, s, d) == Entry(OpsFor(sends[s], d))
  {
    var events := WorldEvents(sends, bits);
    ProgramsOfWorld(sends, recvs, bits);
    DeadlockFree(events, InitialState(sends, recvs, bits), trace, end);
    forall s: nat, d: nat | s < |sends| && d < |sends| && s != d
      ensures Between(events, s, d) == Entry(OpsFor(sends[s], d))
    {
      WorldBetween(sends, bits, s, d);
    }
  }
}
