/**
 The colocated weight update as a whole. Every device hosts one inference rank and one
 training rank; each inference rank runs the exchange with the local send plan of its
 training rank and its own local receive plan, and copies locally what it has for itself.
 Planning, exchange and resharding meet here: the tables match, so no interleaving
 deadlocks, and a run that cannot continue has filled every inference shard.
 */
module Colocated {
  import opened Basics
  import opened SequenceFacts
  import opened Sequences
  import opened PowersOfTwo
  import opened ParamMeta
  import opened TransferPlan
  import opened Resharding
  import opened ModelResharding
  import Agreement = PlanAgreement
  import Net = Rendezvous
  import Exchange = RecursivePartition
  import Chunked = ChunkedExchange
  import Staged = StagedExchange
  import Barriers

  type Load = seq<Operation>

  /** trainOf maps each inference rank to the training rank on the same device. */
  ghost predicate DeviceMapping(w: World, trainOf: seq<nat>) {
    && |trainOf| == w.inferWorldSize
    && (forall a | 0 <= a < |trainOf| :: trainOf[a] >= w.inferWorldSize)
    && Distinct(trainOf)
  }

  function SendTable(w: World, plan: seq<Operation>, trainOf: seq<nat>, rank: nat): Exchange.OpTable<Operation>
    requires rank < |trainOf|
  {
    var mine := LocalPlan(w, plan, trainOf[rank]);
    map peer | peer in mine && peer != rank :: mine[peer]
  }

  function RecvTable(w: World, plan: seq<Operation>, trainOf: seq<nat>, rank: nat): Exchange.OpTable<Operation> {
    var mine := LocalPlan(w, plan, rank);
    map from: nat | 0 <= from < |trainOf| && from != rank && trainOf[from] in mine :: mine[trainOf[from]]
  }

  function SendTables(w: World, plan: seq<Operation>, trainOf: seq<nat>): seq<Exchange.OpTable<Operation>> {
    seq(|trainOf|, r requires 0 <= r < |trainOf| => SendTable(w, plan, trainOf, r))
  }

  function RecvTables(w: World, plan: seq<Operation>, trainOf: seq<nat>): seq<Exchange.OpTable<Operation>> {
    seq(|trainOf|, r requires 0 <= r < |trainOf| => RecvTable(w, plan, trainOf, r))
  }

  lemma TableEntry(w: World, plan: seq<Operation>, trainOf: seq<nat>, s: nat, d: nat)
    requires DeviceMapping(w, trainOf) && s < |trainOf| && d < |trainOf| && s != d
    ensures Exchange.OpsFor(SendTable(w, plan, trainOf, s), d) == OpsWith(LocalPlan(w, plan, d), trainOf[s])
    ensures Exchange.OpsFor(RecvTable(w, plan, trainOf, d), s) == OpsWith(LocalPlan(w, plan, d), trainOf[s])
  {
    Agreement.LocalPlanMeaning(w, plan, trainOf[s], d);
  }

  /** Plan agreement is exactly what the exchange needs of its tables. */
  lemma TablesMatch(w: World, plan: seq<Operation>, trainOf: seq<nat>)
    requires DeviceMapping(w, trainOf)
    ensures Exchange.Matched(SendTables(w, plan, trainOf), RecvTables(w, plan, trainOf))
  {
    forall s: nat, d: nat | s < |trainOf| && d < |trainOf| && s != d
      ensures Exchange.OpsFor(SendTables(w, plan, trainOf)[s], d)
           == Exchange.OpsFor(RecvTables(w, plan, trainOf)[d], s)
    {
      TableEntry(w, plan, trainOf, s, d);
    }
  }

  /** What rank performs on behalf of one sender: the received lists, or its own copies. */
  function PerformedFrom(
    w: World, plan: seq<Operation>, trainOf: seq<nat>, trace: seq<Net.Event<Load>>, rank: nat, from: nat): seq<Operation>
    requires from < |trainOf|
  {
    if from == rank then OpsWith(LocalPlan(w, plan, rank), trainOf[from])
    else Flatten(Net.Between(trace, from, rank))
  }

  /** What rank has performed: the lists received from ranks below upto, and its own copies. */
  function Performed(
    w: World, plan: seq<Operation>, trainOf: seq<nat>, trace: seq<Net.Event<Load>>, rank: nat, upto: nat): seq<Operation>
    requires upto <= |trainOf|
  {
    if upto == 0 then []
    else
      Performed(w, plan, trainOf, trace, rank, upto - 1)
      + PerformedFrom(w, plan, trainOf, trace, rank, upto - 1)
  }

  /** Every pair has exchanged the sender's whole list, in order. */
  ghost predicate AllExchanged(w: World, plan: seq<Operation>, trainOf: seq<nat>, trace: seq<Net.Event<Load>>) {
    forall s: nat, d: nat | s < |trainOf| && d < |trainOf| && s != d ::
      Flatten(Net.Between(trace, s, d)) == Exchange.OpsFor(SendTable(w, plan, trainOf, s), d)
  }

  lemma PerformedIsGroup(
    w: World, plan: seq<Operation>, trainOf: seq<nat>, trace: seq<Net.Event<Load>>, rank: nat, from: nat)
    requires DeviceMapping(w, trainOf) && AllExchanged(w, plan, trainOf, trace)
    requires rank < |trainOf| && from < |trainOf|
    ensures multiset(PerformedFrom(w, plan, trainOf, trace, rank, from))
         == multiset(Group(Filter(RecvsAt(rank), plan), PeerKey(false), trainOf[from]))
  {
    if from != rank {
      TableEntry(w, plan, trainOf, from, rank);
    }
    assert PerformedFrom(w, plan, trainOf, trace, rank, from) == OpsWith(LocalPlan(w, plan, rank), trainOf[from]);
    LocalGroup(w, plan, rank, trainOf[from]);
  }

  lemma LocalGroup(w: World, plan: seq<Operation>, rank: nat, peer: nat)
    requires rank < w.inferWorldSize
    ensures multiset(OpsWith(LocalPlan(w, plan, rank), peer))
         == multiset(Group(Filter(RecvsAt(rank), plan), PeerKey(false), peer))
  {
    Agreement.OpsWithIsSortedGroup(Filter(RecvsAt(rank), plan), false, peer);
    SortPermutes(OperationLe(), Group(Filter(RecvsAt(rank), plan), PeerKey(false), peer));
  }

  lemma {:induction false} PerformedIsGroups(
    w: World, plan: seq<Operation>, trainOf: seq<nat>, trace: seq<Net.Event<Load>>, rank: nat, upto: nat)
    requires DeviceMapping(w, trainOf) && AllExchanged(w, plan, trainOf, trace)
    requires rank < |trainOf| && upto <= |trainOf|
    ensures multiset(Performed(w, plan, trainOf, trace, rank, upto))
         == multiset(Flatten(Groups(Filter(RecvsAt(rank), plan), PeerKey(false), trainOf[..upto])))
    decreases upto
  {
    if upto > 0 {
      PerformedIsGroups(w, plan, trainOf, trace, rank, upto - 1);
      PerformedIsGroup(w, plan, trainOf, trace, rank, upto - 1);
      GroupsSnoc(Filter(RecvsAt(rank), plan), trainOf, upto);
    }
  }

  lemma GroupsSnoc(ops: seq<Operation>, keys: seq<nat>, upto: nat)
    requires 0 < upto <= |keys|
    ensures Flatten(Groups(ops, PeerKey(false), keys[..upto]))
         == Flatten(Groups(ops, PeerKey(false), keys[..upto - 1])) + Group(ops, PeerKey(false), keys[upto - 1])
  {
    assert keys[..upto][..upto - 1] == keys[..upto - 1];
    FlattenSnoc(Groups(ops, PeerKey(false), keys[..upto - 1]), Group(ops, PeerKey(false), keys[upto - 1]));
  }

  /** What a rank has performed permutes what the plan addresses to it. */
  lemma PerformedIsPlan(
    w: World, plan: seq<Operation>, trainOf: seq<nat>, trace: seq<Net.Event<Load>>, rank: nat)
    requires DeviceMapping(w, trainOf) && AllExchanged(w, plan, trainOf, trace) && rank < |trainOf|
    requires forall op <- plan :: op.sendRank in trainOf
    ensures multiset(Filter(RecvsAt(rank), Performed(w, plan, trainOf, trace, rank, |trainOf|)))
         == multiset(Filter(RecvsAt(rank), plan))
  {
    var mine, done := Filter(RecvsAt(rank), plan), Performed(w, plan, trainOf, trace, rank, |trainOf|);
    PerformedIsGroups(w, plan, trainOf, trace, rank, |trainOf|);
    TakeAll(trainOf);
    GroupsPartition(mine, PeerKey(false), trainOf);
    FilterMembers(RecvsAt(rank), plan);
    FilterAll(HasKeyIn(PeerKey(false), trainOf), mine);
    forall op <- done ensures RecvsAt(rank)(op) {
      assert op in multiset(mine);
    }
    FilterAll(RecvsAt(rank), done);
  }

  /** Every training shard of a listed parameter lives on a mapped device. */
  ghost predicate SendersMapped(w: World, train: Dict, names: seq<string>, trainOf: seq<nat>) {
    forall name, r, k | name in names && name in train && 0 <= r < |train[name].replicas|
                        && 0 <= k < |train[name].replicas[r]| ::
      TransferRank(w, train[name].replicas[r][k], 0, false) in trainOf
  }

  lemma PlanSendersMapped(
    w: World, infer: Dict, train: Dict, names: seq<string>, layout: Layout, dims: string -> nat, trainOf: seq<nat>)
    requires ModelReady(w, infer, train, names, layout, dims) && SendersMapped(w, train, names, trainOf)
    requires NamesPlan(w, infer, train, names, None, dims).Ok?
    ensures forall op <- NamesPlan(w, infer, train, names, None, dims).value :: op.sendRank in trainOf
  {
    forall op <- NamesPlan(w, infer, train, names, None, dims).value
      ensures op.sendRank in trainOf
    {
      var name := NamesSound(w, infer, train, names, layout, dims, op);
      var o, source :| o in AllReceivers(w, infer[name]) && IsTrainShard(w, train[name].replicas, source)
                       && Moves(op, o, source, dims(name));
      var r, k :| 0 <= r < |train[name].replicas| && 0 <= k < |train[name].replicas[r]|
                  && ShardDefect(train[name].replicas[r][k]).None?
                  && source == Placed(w, train[name].replicas[r][k], 0, false);
    }
  }

  /** Whatever exchange delivered all lists: the inference side holds the global tensors. */
  lemma ExchangedIsResharded<V(!new)>(
    w: World, infer: Dict, train: Dict, names: seq<string>, layout: Layout, dims: string -> nat, trainOf: seq<nat>,
    trace: seq<Net.Event<Load>>, trainMemory: Memory<V>, inferMemory: Memory<V>, global: (string, Coord) -> V,
    name: string, o: ShardOffset, c: Coord)
    requires ModelReady(w, infer, train, names, layout, dims) && Distinct(names)
    requires DeviceMapping(w, trainOf) && SendersMapped(w, train, names, trainOf)
    requires TrainHolds(w, train, names, trainMemory, global)
    requires name in names && o in AllReceivers(w, infer[name]) && LocalTo(c, o) && o.rank < w.inferWorldSize
    requires NamesPlan(w, infer, train, names, None, dims).Ok?
    requires AllExchanged(w, NamesPlan(w, infer, train, names, None, dims).value, trainOf, trace)
    ensures var plan := NamesPlan(w, infer, train, names, None, dims).value;
      Execute(Performed(w, plan, trainOf, trace, o.rank, |trainOf|), trainMemory, inferMemory)(o.rank, name, c)
      == global(name, Shift(c, o.start))
  {
    var plan := NamesPlan(w, infer, train, names, None, dims).value;
    ReceiverNames(w, infer[name], layout.infDim(name), o);
    PlanSendersMapped(w, infer, train, names, layout, dims, trainOf);
    PerformedIsPlan(w, plan, trainOf, trace, o.rank);
    ModelResharded(
      w, infer, train, names, layout, dims, Performed(w, plan, trainOf, trace, o.rank, |trainOf|),
      trainMemory, inferMemory, global, name, o, c);
  }

  /** The one-shot exchange of a plan: it never deadlocks, and a run that stops has exchanged everything. */
  lemma OneShotExchanges(
    w: World, plan: seq<Operation>, trainOf: seq<nat>, bits: nat, trace: seq<Net.Event<Load>>, end: Net.Residue<Load>)
    requires DeviceMapping(w, trainOf) && w.inferWorldSize == Pow2(bits)
    requires Net.Run(
      Exchange.InitialState(SendTables(w, plan, trainOf), RecvTables(w, plan, trainOf), bits), trace, end)
    requires forall src: nat, dst: nat :: !Net.Enabled(end, src, dst)
    ensures AllExchanged(w, plan, trainOf, trace)
  {
    var sends, recvs := SendTables(w, plan, trainOf), RecvTables(w, plan, trainOf);
    TablesMatch(w, plan, trainOf);
    Exchange.ExchangeCompletes(sends, recvs, bits, trace, end);
    forall s: nat, d: nat | s < |trainOf| && d < |trainOf| && s != d
      ensures Flatten(Net.Between(trace, s, d)) == Exchange.OpsFor(SendTable(w, plan, trainOf, s), d)
    {
      assert sends[s] == SendTable(w, plan, trainOf, s);
      FlatEntry(Exchange.OpsFor(sends[s], d));
    }
  }

  /** The chunked exchange of a plan, with the step and chunk count all ranks agreed on. */
  lemma ChunkedExchanges(
    w: World, plan: seq<Operation>, trainOf: seq<nat>, bits: nat, step: nat, count: nat,
    trace: seq<Net.Event<Load>>, end: Net.Residue<Load>)
    requires DeviceMapping(w, trainOf) && w.inferWorldSize == Pow2(bits) && step > 0
    requires forall r: nat | r < |trainOf| ::
      Chunked.LocalChunks(
        Chunked.PeerLists(SendTable(w, plan, trainOf, r), RecvTable(w, plan, trainOf, r), |trainOf|), step) <= count
    requires Net.Run(
      Chunked.ChunkedInitial(SendTables(w, plan, trainOf), RecvTables(w, plan, trainOf), bits, step, 0, count),
      trace, end)
    requires forall src: nat, dst: nat :: !Net.Enabled(end, src, dst)
    ensures AllExchanged(w, plan, trainOf, trace)
  {
    var sends, recvs := SendTables(w, plan, trainOf), RecvTables(w, plan, trainOf);
    TablesMatch(w, plan, trainOf);
    Chunked.ChunkedExchangeCompletes(sends, recvs, bits, step, count, trace, end);
  }

  /**
   The colocated update is correct: start every rank on its own program, let blocking
   batches complete in any order until nothing can, and every element of every inference
   shard of every common parameter equals the global tensor at its global coordinate.
   */
  lemma ColocatedUpdate<V(!new)>(
    w: World, infer: Dict, train: Dict, names: seq<string>, layout: Layout, dims: string -> nat, trainOf: seq<nat>,
    bits: nat, trace: seq<Net.Event<Load>>, end: Net.Residue<Load>,
    trainMemory: Memory<V>, inferMemory: Memory<V>, global: (string, Coord) -> V,
    name: string, o: ShardOffset, c: Coord)
    requires ModelReady(w, infer, train, names, layout, dims) && Distinct(names)
    requires NamesPlan(w, infer, train, names, None, dims).Ok?
    requires DeviceMapping(w, trainOf) && SendersMapped(w, train, names, trainOf) && w.inferWorldSize == Pow2(bits)
    requires TrainHolds(w, train, names, trainMemory, global)
    requires name in names && o in AllReceivers(w, infer[name]) && LocalTo(c, o) && o.rank < w.inferWorldSize
    requires var plan := NamesPlan(w, infer, train, names, None, dims).value;
      Net.Run(Exchange.InitialState(SendTables(w, plan, trainOf), RecvTables(w, plan, trainOf), bits), trace, end)
    requires forall src: nat, dst: nat :: !Net.Enabled(end, src, dst)
    ensures var plan := NamesPlan(w, infer, train, names, None, dims).value;
      Execute(Performed(w, plan, trainOf, trace, o.rank, |trainOf|), trainMemory, inferMemory)(o.rank, name, c)
      == global(name, Shift(c, o.start))
  {
    var plan := NamesPlan(w, infer, train, names, None, dims).value;
    OneShotExchanges(w, plan, trainOf, bits, trace, end);
    ExchangedIsResharded(
      w, infer, train, names, layout, dims, trainOf, trace, trainMemory, inferMemory, global, name, o, c);
  }

  /**
   The chunked update is just as correct, with the step and the chunk count that the two
   collectives give every rank, whatever the wire sizes, the chunk budget and a forced step.
   */
  lemma ColocatedChunkedUpdate<V(!new)>(
    w: World, infer: Dict, train: Dict, names: seq<string>, layout: Layout, dims: string -> nat, trainOf: seq<nat>,
    bits: nat, wire: Operation -> nat, chunkBytes: nat, forcedOps: Option<int>, step: nat, count: nat,
    trace: seq<Net.Event<Load>>, end: Net.Residue<Load>,
    trainMemory: Memory<V>, inferMemory: Memory<V>, global: (string, Coord) -> V,
    name: string, o: ShardOffset, c: Coord)
    requires ModelReady(w, infer, train, names, layout, dims) && Distinct(names)
    requires NamesPlan(w, infer, train, names, None, dims).Ok?
    requires DeviceMapping(w, trainOf) && SendersMapped(w, train, names, trainOf) && w.inferWorldSize == Pow2(bits)
    requires TrainHolds(w, train, names, trainMemory, global)
    requires name in names && o in AllReceivers(w, infer[name]) && LocalTo(c, o) && o.rank < w.inferWorldSize
    requires var plan := NamesPlan(w, infer, train, names, None, dims).value;
      var sends, recvs := SendTables(w, plan, trainOf), RecvTables(w, plan, trainOf);
      && step == Chunked.StepFor(forcedOps, Chunked.MinOf(Chunked.StepsOf(wire, sends, recvs, chunkBytes)))
      && count == Chunked.MaxOf(Chunked.CountsOf(sends, recvs, step))
      && Net.Run(Chunked.ChunkedInitial(sends, recvs, bits, step, 0, count), trace, end)
    requires forall src: nat, dst: nat :: !Net.Enabled(end, src, dst)
    ensures var plan := NamesPlan(w, infer, train, names, None, dims).value;
      Execute(Performed(w, plan, trainOf, trace, o.rank, |trainOf|), trainMemory, inferMemory)(o.rank, name, c)
      == global(name, Shift(c, o.start))
  {
    var plan := NamesPlan(w, infer, train, names, None, dims).value;
    CollectivesSuffice(w, plan, trainOf, step, count);
    ChunkedExchanges(w, plan, trainOf, bits, step, count, trace, end);
    ExchangedIsResharded(
      w, infer, train, names, layout, dims, trainOf, trace, trainMemory, inferMemory, global, name, o, c);
  }

  /** The staged exchange of a plan, barriers included. */
  lemma StagedExchanges(
    w: World, plan: seq<Operation>, trainOf: seq<nat>, bits: nat, trace: seq<Barriers.Step<Load>>,
    end: Barriers.Waiting<Load>)
    requires DeviceMapping(w, trainOf) && w.inferWorldSize == Pow2(bits)
    requires Barriers.BarrierRun(
      Staged.BarrierInitial(SendTables(w, plan, trainOf), RecvTables(w, plan, trainOf)), trace, end)
    requires !Barriers.CanPass(end) && forall src: nat, dst: nat :: !Barriers.CanMeet(end, src, dst)
    ensures AllExchanged(w, plan, trainOf, Barriers.Meets(trace))
  {
    var sends, recvs := SendTables(w, plan, trainOf), RecvTables(w, plan, trainOf);
    TablesMatch(w, plan, trainOf);
    Staged.BarrierExchangeCompletes(sends, recvs, bits, trace, end);
    forall s: nat, d: nat | s < |trainOf| && d < |trainOf| && s != d
      ensures Flatten(Net.Between(Barriers.Meets(trace), s, d)) == Exchange.OpsFor(SendTable(w, plan, trainOf, s), d)
    {
      assert sends[s] == SendTable(w, plan, trainOf, s);
      FlatEntry(Exchange.OpsFor(sends[s], d));
    }
  }

  lemma FlatEntry(ops: seq<Operation>)
    ensures Flatten(Exchange.Entry(ops)) == ops
  {
    Chunked.JoinEntry(ops, []);
    EmptySuffix(Exchange.Entry(ops));
  }

  /**
   The older staged update is correct too: every rank on its own staged program, batches and
   barriers completing in any order until nothing can.
   */
  lemma ColocatedStagedUpdate<V(!new)>(
    w: World, infer: Dict, train: Dict, names: seq<string>, layout: Layout, dims: string -> nat, trainOf: seq<nat>,
    bits: nat, trace: seq<Barriers.Step<Load>>, end: Barriers.Waiting<Load>,
    trainMemory: Memory<V>, inferMemory: Memory<V>, global: (string, Coord) -> V,
    name: string, o: ShardOffset, c: Coord)
    requires ModelReady(w, infer, train, names, layout, dims) && Distinct(names)
    requires NamesPlan(w, infer, train, names, None, dims).Ok?
    requires DeviceMapping(w, trainOf) && SendersMapped(w, train, names, trainOf) && w.inferWorldSize == Pow2(bits)
    requires TrainHolds(w, train, names, trainMemory, global)
    requires name in names && o in AllReceivers(w, infer[name]) && LocalTo(c, o) && o.rank < w.inferWorldSize
    requires var plan := NamesPlan(w, infer, train, names, None, dims).value;
      Barriers.BarrierRun(
        Staged.BarrierInitial(SendTables(w, plan, trainOf), RecvTables(w, plan, trainOf)), trace, end)
    requires !Barriers.CanPass(end) && forall src: nat, dst: nat :: !Barriers.CanMeet(end, src, dst)
    ensures var plan := NamesPlan(w, infer, train, names, None, dims).value;
      Execute(
        Performed(w, plan, trainOf, Barriers.Meets(trace), o.rank, |trainOf|), trainMemory, inferMemory)(o.rank, name, c)
      == global(name, Shift(c, o.start))
  {
    var plan := NamesPlan(w, infer, train, names, None, dims).value;
    StagedExchanges(w, plan, trainOf, bits, trace, end);
    ExchangedIsResharded(
      w, infer, train, names, layout, dims, trainOf, Barriers.Meets(trace), trainMemory, inferMemory, global, name, o, c);
  }

  lemma CollectivesSuffice(w: World, plan: seq<Operation>, trainOf: seq<nat>, step: nat, count: nat)
    requires step > 0
    requires count == Chunked.MaxOf(Chunked.CountsOf(SendTables(w, plan, trainOf), RecvTables(w, plan, trainOf), step))
    ensures forall r: nat | r < |trainOf| ::
      Chunked.LocalChunks(
        Chunked.PeerLists(SendTable(w, plan, trainOf, r), RecvTable(w, plan, trainOf, r), |trainOf|), step) <= count
  {
    var counts := Chunked.CountsOf(SendTables(w, plan, trainOf), RecvTables(w, plan, trainOf), step);
    forall r: nat | r < |trainOf|
      ensures Chunked.LocalChunks(
        Chunked.PeerLists(SendTable(w, plan, trainOf, r), RecvTable(w, plan, trainOf, r), |trainOf|), step) <= count
    {
      Chunked.MaxBounds(counts, r);
    }
  }
}
