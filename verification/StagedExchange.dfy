/**
 The staged colocated transport: stage by stage, each rank sends to the rank stage places
 ahead and receives from the rank stage places behind, first phase or second phase by its
 colour, with a barrier of all ranks after each phase. When every hop joins opposite colours
 no interleaving of the ranks can get stuck, with the barriers or without them.
 */
module StagedExchange {
  import opened PowersOfTwo
  import opened SequenceFacts
  import opened Rendezvous
  import opened Barriers
  import opened TwoPhase
  import Exchange = RecursivePartition

  type OpTable<Op> = Exchange.OpTable<Op>

  // ---------------------------------------------------------------- the program of one rank

  function SendAction<Op>(rank: nat, stage: nat, world: nat, sends: OpTable<Op>): seq<Action<seq<Op>>>
    requires rank < world && stage < world
  {
    Exchange.Batch(sends, SendTo(rank, stage, world), true)
  }

  function RecvAction<Op>(rank: nat, stage: nat, world: nat, recvs: OpTable<Op>): seq<Action<seq<Op>>>
    requires rank < world && stage < world
  {
    Exchange.Batch(recvs, RecvFrom(rank, stage, world), false)
  }

  /** What a rank whose sending phase is colour does in one phase of a stage. */
  function PhaseAction<Op>(
    rank: nat, stage: nat, world: nat, colour: nat, phase: nat, sends: OpTable<Op>, recvs: OpTable<Op>)
    : seq<Action<seq<Op>>>
    requires rank < world && stage < world
  {
    if colour == phase then SendAction(rank, stage, world, sends)
    else RecvAction(rank, stage, world, recvs)
  }

  function StageProgram<Op>(
    rank: nat, stage: nat, world: nat, colour: nat, sends: OpTable<Op>, recvs: OpTable<Op>): seq<Action<seq<Op>>>
    requires rank < world && stage < world
  {
    PhaseAction(rank, stage, world, colour, 1, sends, recvs) + PhaseAction(rank, stage, world, colour, 2, sends, recvs)
  }

  /** The stages below upto; stage 0 exchanges nothing. */
  function StagesProgram<Op>(rank: nat, world: nat, sends: OpTable<Op>, recvs: OpTable<Op>, upto: nat)
    : seq<Action<seq<Op>>>
    requires rank < world && upto <= world
  {
    if upto <= 1 then []
    else
      StagesProgram(rank, world, sends, recvs, upto - 1)
      + StageProgram(rank, upto - 1, world, SendPhase(rank, upto - 1, world), sends, recvs)
  }

  /** A stage with its barriers, one after each phase. */
  function StageItems<Op>(
    rank: nat, stage: nat, world: nat, colour: nat, sends: OpTable<Op>, recvs: OpTable<Op>): seq<Item<seq<Op>>>
    requires rank < world && stage < world
  {
    PhaseItems(rank, stage, world, colour, 1, sends, recvs) + PhaseItems(rank, stage, world, colour, 2, sends, recvs)
  }

  function PhaseItems<Op>(
    rank: nat, stage: nat, world: nat, colour: nat, phase: nat, sends: OpTable<Op>, recvs: OpTable<Op>)
    : seq<Item<seq<Op>>>
    requires rank < world && stage < world
  {
    Dos(PhaseAction(rank, stage, world, colour, phase, sends, recvs)) + [Wait]
  }

  /** The stages below upto, with their barriers. */
  function StagesItems<Op>(rank: nat, world: nat, sends: OpTable<Op>, recvs: OpTable<Op>, upto: nat)
    : seq<Item<seq<Op>>>
    requires rank < world && upto <= world
  {
    if upto <= 1 then []
    else
      StagesItems(rank, world, sends, recvs, upto - 1)
      + StageItems(rank, upto - 1, world, SendPhase(rank, upto - 1, world), sends, recvs)
  }

  class NcclColocateTransport<Op> {
    const transferRank: nat
    const worldSize: nat
    var issued: seq<Item<seq<Op>>>

    constructor (transferRank: nat, worldSize: nat)
      ensures this.transferRank == transferRank && this.worldSize == worldSize && issued == []
    {
      this.transferRank := transferRank;
      this.worldSize := worldSize;
      issued := [];
    }

    /** A batch of sends or of receives, or nothing when there is none for the peer. */
    method ExecuteBatch(ops: OpTable<Op>, peer: nat, sending: bool)
      modifies this`issued
      ensures issued == old(issued) + Dos(Exchange.Batch(ops, peer, sending))
    {
      if peer in ops && ops[peer] != [] {
        var action := if sending then Send(peer, ops[peer]) else Recv(peer, ops[peer]);
        assert Dos(Exchange.Batch(ops, peer, sending)) == [Do(action)];
        issued := issued + [Do(action)];
      } else {
        assert Dos(Exchange.Batch(ops, peer, sending)) == [];
        EmptySuffix(issued);
      }
    }

    method Barrier()
      modifies this`issued
      ensures issued == old(issued) + [Wait]
    {
      issued := issued + [Wait];
    }

    /** Runs one phase, in which partition 0 sends first and partition 1 receives first, and its barrier. */
    method ExecutePhase(partition: nat, stage: nat, phase: nat, sends: OpTable<Op>, recvs: OpTable<Op>)
      requires transferRank < worldSize && 0 < stage < worldSize && partition <= 1 && 1 <= phase <= 2
      modifies this`issued
      ensures issued
        == old(issued) + PhaseItems(transferRank, stage, worldSize, partition + 1, phase, sends, recvs)
    {
      if partition + 1 == phase {
        ExecuteBatch(sends, SendTo(transferRank, stage, worldSize), true);
      } else {
        ExecuteBatch(recvs, RecvFrom(transferRank, stage, worldSize), false);
      }
      Associate(
        old(issued), Dos(PhaseAction(transferRank, stage, worldSize, partition + 1, phase, sends, recvs)), [Wait]);
      Barrier();
    }

    method ExecuteStage(stage: nat, sends: OpTable<Op>, recvs: OpTable<Op>)
      requires transferRank < worldSize && 0 < stage < worldSize
      modifies this`issued
      ensures issued == old(issued)
        + StageItems(transferRank, stage, worldSize, SendPhase(transferRank, stage, worldSize), sends, recvs)
    {
      var partition := TwoPhasePartition(transferRank, stage, worldSize);
      ExecutePhase(partition, stage, 1, sends, recvs);
      ExecutePhase(partition, stage, 2, sends, recvs);
      Associate(
        old(issued), PhaseItems(transferRank, stage, worldSize, partition + 1, 1, sends, recvs),
        PhaseItems(transferRank, stage, worldSize, partition + 1, 2, sends, recvs));
    }

    method ExecuteStages(sends: OpTable<Op>, recvs: OpTable<Op>)
      requires transferRank < worldSize
      modifies this`issued
      ensures issued == old(issued) + StagesItems(transferRank, worldSize, sends, recvs, worldSize)
    {
      EmptySuffix(issued);
      for stage := 1 to worldSize
        invariant issued == old(issued) + StagesItems(transferRank, worldSize, sends, recvs, stage)
      {
        Associate(
          old(issued), StagesItems(transferRank, worldSize, sends, recvs, stage),
          StageItems(transferRank, stage, worldSize, SendPhase(transferRank, stage, worldSize), sends, recvs));
        ExecuteStage(stage, sends, recvs);
      }
    }
  }

  // ---------------------------------------------------------------- the events of the world

  /** The sending phase of every rank. */
  function Colours(stage: nat, world: nat): seq<nat>
    requires stage < world
  {
    seq(world, r requires 0 <= r < world => SendPhase(r, stage, world))
  }

  /** The event of one sender in one phase, if it sends then and has something to send. */
  function HopEvents<Op>(sends: seq<OpTable<Op>>, colours: seq<nat>, src: nat, stage: nat, phase: nat): seq<Event<seq<Op>>>
    requires src < |sends| == |colours| && stage < |sends|
  {
    if colours[src] != phase then [] else Exchange.RowEntry(src, sends[src], SendTo(src, stage, |sends|))
  }

  function PhaseEvents<Op>(sends: seq<OpTable<Op>>, colours: seq<nat>, stage: nat, phase: nat, upto: nat)
    : seq<Event<seq<Op>>>
    requires upto <= |sends| == |colours| && stage < |sends|
  {
    if upto == 0 then []
    else PhaseEvents(sends, colours, stage, phase, upto - 1) + HopEvents(sends, colours, upto - 1, stage, phase)
  }

  function StageEvents<Op>(sends: seq<OpTable<Op>>, colours: seq<nat>, stage: nat): seq<Event<seq<Op>>>
    requires |sends| == |colours| && stage < |sends|
  {
    PhaseEvents(sends, colours, stage, 1, |sends|) + PhaseEvents(sends, colours, stage, 2, |sends|)
  }

  function StageAt<Op>(sends: seq<OpTable<Op>>): nat -> seq<Event<seq<Op>>> {
    (stage: nat) => if stage < |sends| then StageEvents(sends, Colours(stage, |sends|), stage) else []
  }

  /** Stages 1 to upto - 1 in order. */
  function Stages<T>(stage: nat -> seq<Event<T>>, upto: nat): seq<Event<T>> {
    if upto <= 1 then [] else Stages(stage, upto - 1) + stage(upto - 1)
  }

  function StagesEvents<Op>(sends: seq<OpTable<Op>>): seq<Event<seq<Op>>> {
    Stages(StageAt(sends), |sends|)
  }

  /** Every hop of the stage joins opposite colours. */
  ghost predicate HopsMeet(colours: seq<nat>, stage: nat)
    requires stage < |colours|
  {
    forall s: nat | s < |colours| :: 1 <= colours[s] <= 2 && colours[s] + colours[SendTo(s, stage, |colours|)] == 3
  }

  /** The sender that a rank takes part with in a phase: itself, or the one behind it. */
  function Partner(rank: nat, stage: nat, world: nat, colour: nat, phase: nat): nat
    requires rank < world && stage < world
  {
    if colour == phase then rank else RecvFrom(rank, stage, world)
  }

  lemma HopProjects<Op>(
    sends: seq<OpTable<Op>>, recvs: seq<OpTable<Op>>, colours: seq<nat>, stage: nat, phase: nat, src: nat, rank: nat)
    requires Exchange.Matched(sends, recvs) && 0 < stage < |sends| == |colours| && src < |sends| && rank < |sends|
    requires HopsMeet(colours, stage) && 1 <= phase <= 2
    ensures Project(HopEvents(sends, colours, src, stage, phase), rank)
         == if src == Partner(rank, stage, |sends|, colours[rank], phase)
            then PhaseAction(rank, stage, |sends|, colours[rank], phase, sends[rank], recvs[rank]) else []
  {
    var world := |sends|;
    var dst := SendTo(src, stage, world);
    assert colours[src] + colours[dst] == 3;
    if colours[src] == phase {
      Exchange.RowEntryProjects(src, sends[src], dst, rank);
    }
  }

  lemma RecvThenSend(rank: nat, stage: nat, world: nat)
    requires rank < world && 0 < stage < world
    ensures RecvFrom(rank, stage, world) < world && SendTo(RecvFrom(rank, stage, world), stage, world) == rank
    ensures RecvFrom(rank, stage, world) != rank
  {
  }

  lemma JoinHop<T>(
    all: seq<Event<T>>, before: seq<Event<T>>, hop: seq<Event<T>>, rank: nat, action: seq<Action<T>>, partner: nat,
    upto: nat)
    requires upto > 0 && all == before + hop
    requires Project(before, rank) == if partner < upto - 1 then action else []
    requires Project(hop, rank) == if partner == upto - 1 then action else []
    ensures Project(all, rank) == if partner < upto then action else []
  {
    Exchange.JoinProjections(
      all, before, hop, rank, if partner < upto then action else [], partner != upto - 1);
  }

  /** A phase projects on each rank to that rank's one action. */
  lemma {:induction false} PhaseProjects<Op>(
    sends: seq<OpTable<Op>>, recvs: seq<OpTable<Op>>, colours: seq<nat>, stage: nat, phase: nat, upto: nat, rank: nat)
    requires Exchange.Matched(sends, recvs) && 0 < stage < |sends| == |colours| && upto <= |sends| && rank < |sends|
    requires HopsMeet(colours, stage) && 1 <= phase <= 2
    ensures Project(PhaseEvents(sends, colours, stage, phase, upto), rank)
         == if Partner(rank, stage, |sends|, colours[rank], phase) < upto
            then PhaseAction(rank, stage, |sends|, colours[rank], phase, sends[rank], recvs[rank]) else []
  {
    if upto > 0 {
      PhaseProjects(sends, recvs, colours, stage, phase, upto - 1, rank);
      HopProjects(sends, recvs, colours, stage, phase, upto - 1, rank);
      JoinHop(
        PhaseEvents(sends, colours, stage, phase, upto), PhaseEvents(sends, colours, stage, phase, upto - 1),
        HopEvents(sends, colours, upto - 1, stage, phase), rank,
        PhaseAction(rank, stage, |sends|, colours[rank], phase, sends[rank], recvs[rank]),
        Partner(rank, stage, |sends|, colours[rank], phase), upto);
    }
  }

  lemma StageProjects<Op>(sends: seq<OpTable<Op>>, recvs: seq<OpTable<Op>>, colours: seq<nat>, stage: nat, rank: nat)
    requires Exchange.Matched(sends, recvs) && 0 < stage < |sends| == |colours| && rank < |sends|
    requires HopsMeet(colours, stage)
    ensures Project(StageEvents(sends, colours, stage), rank)
         == StageProgram(rank, stage, |sends|, colours[rank], sends[rank], recvs[rank])
  {
    RecvThenSend(rank, stage, |sends|);
    PhaseProjects(sends, recvs, colours, stage, 1, |sends|, rank);
    PhaseProjects(sends, recvs, colours, stage, 2, |sends|, rank);
    ProjectConcat(
      PhaseEvents(sends, colours, stage, 1, |sends|), PhaseEvents(sends, colours, stage, 2, |sends|), rank);
  }

  ghost predicate AllHopsMeet(world: nat) {
    forall stage: nat | 0 < stage < world :: HopsMeet(Colours(stage, world), stage)
  }

  lemma {:induction false} StagesProject<Op>(sends: seq<OpTable<Op>>, recvs: seq<OpTable<Op>>, upto: nat, rank: nat)
    requires Exchange.Matched(sends, recvs) && upto <= |sends| && rank < |sends| && AllHopsMeet(|sends|)
    ensures Project(Stages(StageAt(sends), upto), rank) == StagesProgram(rank, |sends|, sends[rank], recvs[rank], upto)
  {
    if upto > 1 {
      StagesProject(sends, recvs, upto - 1, rank);
      StageProjects(sends, recvs, Colours(upto - 1, |sends|), upto - 1, rank);
      ProjectConcat(Stages(StageAt(sends), upto - 1), StageAt(sends)(upto - 1), rank);
    }
  }

  lemma {:induction false} PhaseWellFormed<Op>(
    sends: seq<OpTable<Op>>, colours: seq<nat>, stage: nat, phase: nat, upto: nat)
    requires 0 < stage < |sends| == |colours| && upto <= |sends|
    ensures WellFormed(PhaseEvents(sends, colours, stage, phase, upto), |sends|)
  {
    if upto > 0 { PhaseWellFormed(sends, colours, stage, phase, upto - 1); }
  }

  lemma StageWellFormed<Op>(sends: seq<OpTable<Op>>, colours: seq<nat>, stage: nat)
    requires 0 < stage < |sends| == |colours|
    ensures WellFormed(StageEvents(sends, colours, stage), |sends|)
  {
    PhaseWellFormed(sends, colours, stage, 1, |sends|);
    PhaseWellFormed(sends, colours, stage, 2, |sends|);
  }

  lemma {:induction false} StagesWellFormed<Op>(sends: seq<OpTable<Op>>, upto: nat)
    requires upto <= |sends|
    ensures WellFormed(Stages(StageAt(sends), upto), |sends|)
  {
    if upto > 1 {
      StagesWellFormed(sends, upto - 1);
      StageWellFormed(sends, Colours(upto - 1, |sends|), upto - 1);
    }
  }

  // ---------------------------------------------------------------- every pair in exactly one stage

  /** The stage in which s sends to d. */
  function StageOf(s: nat, d: nat, world: nat): nat
    requires s < world && d < world
  {
    if d >= s then d - s else d + world - s
  }

  /** What s hands to d when they meet. */
  function Share<Op>(sends: seq<OpTable<Op>>, s: nat, d: nat, meet: bool): seq<seq<Op>>
    requires s < |sends|
  {
    if meet then Exchange.Entry(Exchange.OpsFor(sends[s], d)) else []
  }

  lemma {:induction false} PhaseBetween<Op>(
    sends: seq<OpTable<Op>>, colours: seq<nat>, stage: nat, phase: nat, upto: nat, s: nat, d: nat)
    requires 0 < stage < |sends| == |colours| && upto <= |sends| && s < |sends| && d < |sends|
    ensures Between(PhaseEvents(sends, colours, stage, phase, upto), s, d)
         == Share(sends, s, d, s < upto && stage == StageOf(s, d, |sends|) && colours[s] == phase)
  {
    if upto > 0 {
      var src := upto - 1;
      PhaseBetween(sends, colours, stage, phase, src, s, d);
      Exchange.EntryBetween(src, sends[src], SendTo(src, stage, |sends|), s, d);
      Exchange.JoinShares(
        PhaseEvents(sends, colours, stage, phase, upto), PhaseEvents(sends, colours, stage, phase, src),
        HopEvents(sends, colours, src, stage, phase), s, d,
        Share(sends, s, d, s < upto && stage == StageOf(s, d, |sends|) && colours[s] == phase), s != src);
    }
  }

  lemma StageBetween<Op>(sends: seq<OpTable<Op>>, colours: seq<nat>, stage: nat, s: nat, d: nat)
    requires 0 < stage < |sends| == |colours| && s < |sends| && d < |sends| && 1 <= colours[s] <= 2
    ensures Between(StageEvents(sends, colours, stage), s, d) == Share(sends, s, d, stage == StageOf(s, d, |sends|))
  {
    PhaseBetween(sends, colours, stage, 1, |sends|, s, d);
    PhaseBetween(sends, colours, stage, 2, |sends|, s, d);
    Exchange.JoinShares(
      StageEvents(sends, colours, stage), PhaseEvents(sends, colours, stage, 1, |sends|),
      PhaseEvents(sends, colours, stage, 2, |sends|), s, d, Share(sends, s, d, stage == StageOf(s, d, |sends|)),
      colours[s] == 1);
  }

  lemma ColourRange(stage: nat, world: nat, s: nat)
    requires stage < world && s < world
    ensures 1 <= Colours(stage, world)[s] <= 2
  {
  }

  /** A pair that meets in one stage only exchanges what it exchanges there. */
  lemma {:induction false} OneStage<T>(stage: nat -> seq<Event<T>>, upto: nat, s: nat, d: nat, at: nat, share: seq<T>)
    requires at > 0
    requires forall k: nat | 0 < k < upto :: Between(stage(k), s, d) == if k == at then share else []
    ensures Between(Stages(stage, upto), s, d) == if at < upto then share else []
  {
    if upto > 1 {
      OneStage(stage, upto - 1, s, d, at, share);
      BetweenConcat(Stages(stage, upto - 1), stage(upto - 1), s, d);
      EmptyPrefix(share);
      EmptySuffix(if at < upto - 1 then share else []);
    }
  }

  /** Every ordered pair of distinct ranks is served in exactly one stage, with its whole list. */
  lemma StagesBetween<Op>(sends: seq<OpTable<Op>>, s: nat, d: nat)
    requires s < |sends| && d < |sends| && s != d
    ensures Between(StagesEvents(sends), s, d) == Exchange.Entry(Exchange.OpsFor(sends[s], d))
  {
    var at, share := StageOf(s, d, |sends|), Exchange.Entry(Exchange.OpsFor(sends[s], d));
    forall k: nat | 0 < k < |sends|
      ensures Between(StageAt(sends)(k), s, d) == if k == at then share else []
    {
      ColourRange(k, |sends|, s);
      StageBetween(sends, Colours(k, |sends|), k, s, d);
    }
    OneStage(StageAt(sends), |sends|, s, d, at, share);
  }

  function StagedInitial<Op>(sends: seq<OpTable<Op>>, recvs: seq<OpTable<Op>>): Residue<seq<Op>>
    requires |sends| == |recvs|
  {
    seq(|sends|, r requires 0 <= r < |sends| => StagesProgram(r, |sends|, sends[r], recvs[r], |sends|))
  }

  lemma ColoursMeet(stage: nat, m: nat)
    requires 0 < stage < Pow2(m)
    ensures HopsMeet(Colours(stage, Pow2(m)), stage)
  {
    forall s: nat | s < Pow2(m)
      ensures SendPhase(s, stage, Pow2(m)) + SendPhase(SendTo(s, stage, Pow2(m)), stage, Pow2(m)) == 3
    {
      PowerOfTwoMeets(s, stage, m);
    }
  }

  /**
   On a power-of-two world with matching tables the staged exchange cannot get stuck in any
   interleaving, joins equal operation lists, and ends with every ordered pair of distinct
   ranks having exchanged exactly its operations, in one batch.
   */
  lemma StagedExchangeCompletes<Op>(
    sends: seq<OpTable<Op>>, recvs: seq<OpTable<Op>>, m: nat, trace: seq<Event<seq<Op>>>, end: Residue<seq<Op>>)
    requires Exchange.Matched(sends, recvs) && |sends| == Pow2(m)
    requires Run(StagedInitial(sends, recvs), trace, end)
    ensures !Finished(end) ==> exists src: nat, dst: nat :: Enabled(end, src, dst)
    ensures forall src: nat, dst: nat | Enabled(end, src, dst) :: end[src][0].load == end[dst][0].load
    ensures |trace| <= |StagesEvents(sends)|
    ensures Finished(end) ==> forall s: nat, d: nat | s < |sends| && d < |sends| && s != d ::
      Between(trace, s, d) == Exchange.Entry(Exchange.OpsFor(sends[s], d))
  {
    forall stage: nat | 0 < stage < |sends| ensures HopsMeet(Colours(stage, |sends|), stage) {
      ColoursMeet(stage, m);
    }
    StagesWellFormed(sends, |sends|);
    forall r: nat | r < |sends|
      ensures StagedInitial(sends, recvs)[r] == Project(StagesEvents(sends), r)
    {
      StagesProject(sends, recvs, |sends|, r);
    }
    DeadlockFree(StagesEvents(sends), StagedInitial(sends, recvs), trace, end);
    forall s: nat, d: nat | s < |sends| && d < |sends| && s != d
      ensures Between(StagesEvents(sends), s, d) == Exchange.Entry(Exchange.OpsFor(sends[s], d))
    {
      StagesBetween(sends, s, d);
    }
  }

  // ---------------------------------------------------------------- with the barriers

  /** The two phases of each stage, as the segments between barriers. */
  function Segments<Op>(sends: seq<OpTable<Op>>, upto: nat): seq<seq<Event<seq<Op>>>>
    requires upto <= |sends|
  {
    if upto <= 1 then []
    else Segments(sends, upto - 1) + StageSegments(sends, Colours(upto - 1, |sends|), upto - 1)
  }

  function StageSegments<Op>(sends: seq<OpTable<Op>>, colours: seq<nat>, stage: nat): seq<seq<Event<seq<Op>>>>
    requires |sends| == |colours| && stage < |sends|
  {
    [PhaseEvents(sends, colours, stage, 1, |sends|), PhaseEvents(sends, colours, stage, 2, |sends|)]
  }

  lemma {:induction false} ProgramConcat<T>(a: seq<seq<Event<T>>>, b: seq<seq<Event<T>>>, rank: nat)
    ensures Program(a + b, rank) == Program(a, rank) + Program(b, rank)
  {
    if a == [] {
      EmptyPrefix(b);
      EmptyPrefix(Program(b, rank));
    } else {
      ProgramConcat(a[1..], b, rank);
      assert (a + b)[0] == a[0] && (a + b)[1..] == a[1..] + b;
      var head, tail := Dos(Project(a[0], rank)), Program(a[1..], rank);
      Associate(head, [Wait] + tail, Program(b, rank));
      Associate([Wait], tail, Program(b, rank));
    }
  }

  lemma {:induction false} AllEventsConcat<T>(a: seq<seq<Event<T>>>, b: seq<seq<Event<T>>>)
    ensures AllEvents(a + b) == AllEvents(a) + AllEvents(b)
  {
    if a == [] {
      EmptyPrefix(b);
      EmptyPrefix(AllEvents(b));
    } else {
      AllEventsConcat(a[1..], b);
      assert (a + b)[0] == a[0] && (a + b)[1..] == a[1..] + b;
      Associate(a[0], AllEvents(a[1..]), AllEvents(b));
    }
  }

  lemma OneSegment<T>(y: seq<Event<T>>, rank: nat)
    ensures Program([y], rank) == Dos(Project(y, rank)) + [Wait] && AllEvents([y]) == y
  {
    assert [y][1..] == [];
    assert Program<T>([], rank) == [] && AllEvents<T>([]) == [];
    EmptySuffix([Item<T>.Wait]);
    EmptySuffix(y);
  }

  lemma PairOfSegments<T>(x: seq<Event<T>>, y: seq<Event<T>>, rank: nat)
    ensures Program([x, y], rank) == (Dos(Project(x, rank)) + [Wait]) + (Dos(Project(y, rank)) + [Wait])
    ensures AllEvents([x, y]) == x + y
  {
    assert [x, y][1..] == [y];
    OneSegment(y, rank);
    Associate(Dos(Project(x, rank)), [Wait], Dos(Project(y, rank)) + [Wait]);
  }

  lemma StageIsItems<Op>(sends: seq<OpTable<Op>>, recvs: seq<OpTable<Op>>, colours: seq<nat>, stage: nat, rank: nat)
    requires Exchange.Matched(sends, recvs) && 0 < stage < |sends| == |colours| && rank < |sends|
    requires HopsMeet(colours, stage)
    ensures Program(StageSegments(sends, colours, stage), rank)
         == StageItems(rank, stage, |sends|, colours[rank], sends[rank], recvs[rank])
  {
    RecvThenSend(rank, stage, |sends|);
    PhaseProjects(sends, recvs, colours, stage, 1, |sends|, rank);
    PhaseProjects(sends, recvs, colours, stage, 2, |sends|, rank);
    PairOfSegments(
      PhaseEvents(sends, colours, stage, 1, |sends|), PhaseEvents(sends, colours, stage, 2, |sends|), rank);
  }

  lemma {:induction false} StagesAreItems<Op>(sends: seq<OpTable<Op>>, recvs: seq<OpTable<Op>>, upto: nat, rank: nat)
    requires Exchange.Matched(sends, recvs) && upto <= |sends| && rank < |sends| && AllHopsMeet(|sends|)
    ensures Program(Segments(sends, upto), rank) == StagesItems(rank, |sends|, sends[rank], recvs[rank], upto)
  {
    if upto > 1 {
      StagesAreItems(sends, recvs, upto - 1, rank);
      StageIsItems(sends, recvs, Colours(upto - 1, |sends|), upto - 1, rank);
      ProgramConcat(Segments(sends, upto - 1), StageSegments(sends, Colours(upto - 1, |sends|), upto - 1), rank);
    }
  }

  lemma {:induction false} SegmentEvents<Op>(sends: seq<OpTable<Op>>, upto: nat)
    requires upto <= |sends|
    ensures AllEvents(Segments(sends, upto)) == Stages(StageAt(sends), upto)
    ensures forall k | 0 <= k < |Segments(sends, upto)| :: WellFormed(Segments(sends, upto)[k], |sends|)
  {
    if upto > 1 {
      var colours := Colours(upto - 1, |sends|);
      SegmentEvents(sends, upto - 1);
      AllEventsConcat(Segments(sends, upto - 1), StageSegments(sends, colours, upto - 1));
      PairOfSegments(
        PhaseEvents(sends, colours, upto - 1, 1, |sends|), PhaseEvents(sends, colours, upto - 1, 2, |sends|), 0);
      PhaseWellFormed(sends, colours, upto - 1, 1, |sends|);
      PhaseWellFormed(sends, colours, upto - 1, 2, |sends|);
    }
  }

  function BarrierInitial<Op>(sends: seq<OpTable<Op>>, recvs: seq<OpTable<Op>>): Waiting<seq<Op>>
    requires |sends| == |recvs|
  {
    seq(|sends|, r requires 0 <= r < |sends| => StagesItems(r, |sends|, sends[r], recvs[r], |sends|))
  }

  /**
   The same with the barriers in place: on a power-of-two world with matching tables no
   interleaving of batches and barriers gets stuck, and a finished run has exchanged exactly
   the operations of every ordered pair of distinct ranks, in one batch.
   */
  lemma BarrierExchangeCompletes<Op>(
    sends: seq<OpTable<Op>>, recvs: seq<OpTable<Op>>, m: nat, trace: seq<Step<seq<Op>>>, end: Waiting<seq<Op>>)
    requires Exchange.Matched(sends, recvs) && |sends| == Pow2(m)
    requires BarrierRun(BarrierInitial(sends, recvs), trace, end)
    ensures Done(end) || CanPass(end) || exists src: nat, dst: nat :: CanMeet(end, src, dst)
    ensures forall src: nat, dst: nat | CanMeet(end, src, dst) :: end[src][0].action.load == end[dst][0].action.load
    ensures |trace| <= |StagesEvents(sends)| + |Segments(sends, |sends|)|
    ensures Done(end) ==> forall s: nat, d: nat | s < |sends| && d < |sends| && s != d ::
      Between(Meets(trace), s, d) == Exchange.Entry(Exchange.OpsFor(sends[s], d))
  {
    forall stage: nat | 0 < stage < |sends| ensures HopsMeet(Colours(stage, |sends|), stage) {
      ColoursMeet(stage, m);
    }
    SegmentEvents(sends, |sends|);
    forall r: nat | r < |sends|
      ensures BarrierInitial(sends, recvs)[r] == Program(Segments(sends, |sends|), r)
    {
      StagesAreItems(sends, recvs, |sends|, r);
    }
    RunKeepsWorld(BarrierInitial(sends, recvs), trace, end);
    BarrierDeadlockFree(Segments(sends, |sends|), BarrierInitial(sends, recvs), trace, end);
    forall s: nat, d: nat | s < |sends| && d < |sends| && s != d
      ensures Between(StagesEvents(sends), s, d) == Exchange.Entry(Exchange.OpsFor(sends[s], d))
    {
      StagesBetween(sends, s, d);
    }
  }
}
