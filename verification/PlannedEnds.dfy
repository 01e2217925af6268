/**
 From the metadata to the two lowered schedules: a training rank and an inference rank that plan
 apart, serve their planned operations from dense tensors or annotated layouts, and lower the
 resulting batches apart, end with the same works for each other.
 */
module PlannedEnds {
  import opened Basics
  import opened SequenceFacts
  import opened Sequences
  import opened ParamMeta
  import opened LayoutFragments
  import opened DeviceBatch
  import opened DeviceStreams
  import opened PlannedStreams
  import Plan = TransferPlan
  import Reshard = Resharding
  import Model = ModelResharding
  import Agreement = PlanAgreement
  import V2 = PeerLowering
  import Lower = Lowering
  import Schedule = LoweringSchedule
  import Theorems = LoweringTheorems
  import Gin = GinAgreement
  import opened GinChannels

  // ---------------------------------------------------------------- planned operations stay inside their shards

  lemma PlacedReceiver(w: Plan.World, inf: ParameterMeta, o: Plan.ShardOffset, n: nat)
    requires o in Reshard.AllReceivers(w, inf) && |o.start| == n
    ensures |o.shard.info.shape| == n && o.end == Plan.AddSeq(o.start, o.shard.info.shape)
  {
    var infs := Plan.EngineReplicas(inf.replicas, w.numInferEngines);
    var i, k := Model.ReceiverAt(w, infs, |infs|, o);
  }

  /** Whatever a model's plan has one rank send to another lies inside the sender's shard. */
  lemma PlannedInside(
    w: Plan.World, infer: Model.Dict, train: Model.Dict, names: seq<string>, layout: Model.Layout, dims: string -> nat,
    op: Plan.Operation)
    requires Model.ModelReady(w, infer, train, names, layout, dims)
    requires Plan.NamesPlan(w, infer, train, names, None, dims).Ok?
    requires op in Plan.NamesPlan(w, infer, train, names, None, dims).value
    ensures Inside(op.trainSlices, op.overlapShape, op.sendShard.info.shape)
  {
    var name := Model.NamesSound(w, infer, train, names, layout, dims, op);
    var inf, src :| inf in Reshard.AllReceivers(w, infer[name]) && Reshard.IsTrainShard(w, train[name].replicas, src)
                    && Reshard.Moves(op, inf, src, dims(name));
    PlacedReceiver(w, infer[name], inf, dims(name));
    PlannedIsInside(op, inf, src, dims(name));
  }

  // ---------------------------------------------------------------- what the two ranks have for an operation

  /** What both ends derive from an operation alone: the span sizes they annotate it with and its element size. */
  datatype Annotation = Annotation(spanNumels: Plan.Operation -> seq<nat>, elementSize: Plan.Operation -> nat)

  /** The sender serves the overlap from a dense tensor, unannotated, or from a layout with the annotated spans. */
  ghost predicate SenderHas(op: Plan.Operation, how: Annotation, send: SendOp) {
    && send.op == PlanOpFor(op, how.spanNumels(op)) && send.elementSize == how.elementSize(op)
    && match send.source
       case Dense(numel, _) => numel == Volume(op.overlapShape) && how.spanNumels(op) == []
       case Laid(shape, numels, _) =>
         shape == op.sendShard.info.shape && numels == how.spanNumels(op) != [] && SpansDefect(shape, numels).None?
  }

  /** The receiver has a view of the overlap. */
  ghost predicate ReceiverHas(op: Plan.Operation, how: Annotation, recv: RecvOp) {
    && recv.op == PlanOpFor(op, how.spanNumels(op)) && recv.elementSize == how.elementSize(op)
    && TargetOf(op, recv.target)
  }

  ghost predicate SenderServes(ops: seq<Plan.Operation>, how: Annotation, sends: seq<SendOp>) {
    |sends| == |ops| && forall i | 0 <= i < |ops| :: SenderHas(ops[i], how, sends[i])
  }

  ghost predicate ReceiverTakes(ops: seq<Plan.Operation>, how: Annotation, recvs: seq<RecvOp>) {
    |recvs| == |ops| && forall i | 0 <= i < |ops| :: ReceiverHas(ops[i], how, recvs[i])
  }

  ghost predicate AllInside(ops: seq<Plan.Operation>) {
    forall i | 0 <= i < |ops| :: Inside(ops[i].trainSlices, ops[i].overlapShape, ops[i].sendShard.info.shape)
  }

  /** Both ends accept a served operation, annotate it alike and count the same elements. */
  lemma OneServed(op: Plan.Operation, how: Annotation, send: SendOp, recv: RecvOp)
    requires Inside(op.trainSlices, op.overlapShape, op.sendShard.info.shape)
    requires SenderHas(op, how, send) && ReceiverHas(op, how, recv)
    ensures Annotated(send.op, send.source, recv.target)
    ensures Selects(send.op, send.source) == Some(recv.target.numel)
    ensures SendPieces(send.op, send.source, send.elementSize).Ok?
    ensures RecvPieces(recv.op, recv.target, recv.elementSize).Ok?
  {
    match send.source {
      case Dense(_, _) => DenseOperationAgrees(op, send.source, recv.target);
      case Laid(_, numels, ptrs) => LaidOperationAgrees(op, numels, ptrs, recv.target);
    }
  }

  lemma {:induction false} SendsAccepted(
    ops: seq<Plan.Operation>, how: Annotation, sends: seq<SendOp>, recvs: seq<RecvOp>)
    requires AllInside(ops) && SenderServes(ops, how, sends) && ReceiverTakes(ops, how, recvs)
    ensures SendAll(sends).Ok? && RecvAll(recvs).Ok?
  {
    if ops != [] {
      var k := |ops| - 1;
      SendsAccepted(ops[..k], how, sends[..k], recvs[..k]);
      OneServed(ops[k], how, sends[k], recvs[k]);
    }
  }

  /** Operations served alike give one stream, cut at the same places at both ends. */
  lemma ServedStreamsAgree(ops: seq<Plan.Operation>, how: Annotation, sends: seq<SendOp>, recvs: seq<RecvOp>)
    requires AllInside(ops) && SenderServes(ops, how, sends) && ReceiverTakes(ops, how, recvs)
    ensures SendAll(sends).Ok? && RecvAll(recvs).Ok? && SameOps(sends, recvs)
    ensures SizesOf(SendAll(sends).value) == SizesOf(RecvAll(recvs).value)
    ensures forall k | 0 <= k < |sends| :: Selects(sends[k].op, sends[k].source) == Some(recvs[k].target.numel)
  {
    SendsAccepted(ops, how, sends, recvs);
    forall k | 0 <= k < |sends|
      ensures Annotated(sends[k].op, sends[k].source, recvs[k].target)
      ensures Selects(sends[k].op, sends[k].source) == Some(recvs[k].target.numel)
    {
      OneServed(ops[k], how, sends[k], recvs[k]);
    }
    SizesAgree(sends, recvs);
  }

  // ---------------------------------------------------------------- two ranks that plan apart

  /** What a rank plans with a peer, pruned for itself or not; no operations if planning fails. */
  function PlannedWith(
    w: Plan.World, infer: seq<ParameterMeta>, train: seq<ParameterMeta>, strict: bool, dims: string -> nat, rank: nat,
    pruned: bool, peer: nat): seq<Plan.Operation>
    requires Plan.UniformModel(Plan.MetaDict(infer), Plan.MetaDict(train), dims)
  {
    var only := if pruned then Some(rank) else None;
    match Plan.LocalResult(w, Plan.ModelPlan(w, infer, train, strict, only, dims), rank)
    case Err(_) => []
    case Ok(local) => Plan.OpsWith(local, peer)
  }

  /** What a sender plans with a receiver is in the plan of the whole model. */
  lemma PlannedFromModel(
    w: Plan.World, infer: seq<ParameterMeta>, train: seq<ParameterMeta>, strict: bool, dims: string -> nat, send: nat,
    pruned: bool, recv: nat, op: Plan.Operation)
    requires Plan.UniformModel(Plan.MetaDict(infer), Plan.MetaDict(train), dims) && recv < w.inferWorldSize <= send
    requires op in PlannedWith(w, infer, train, strict, dims, send, pruned, recv)
    ensures var global := Plan.ModelPlan(w, infer, train, strict, None, dims);
      global.Ok? && op in global.value
  {
    Agreement.PruningIsInvisible(w, infer, train, strict, send, dims);
    var global := Plan.ModelPlan(w, infer, train, strict, None, dims);
    if global.Ok? {
      Agreement.LocalPlanMeaning(w, global.value, send, recv);
      PlannedMembers(global.value, send, recv);
    }
  }

  /** Two ranks plan the same operations with each other. */
  lemma PlannedAlike(
    w: Plan.World, infer: seq<ParameterMeta>, train: seq<ParameterMeta>, strict: bool, dims: string -> nat,
    send: nat, sendPruned: bool, recv: nat, recvPruned: bool)
    requires Plan.UniformModel(Plan.MetaDict(infer), Plan.MetaDict(train), dims) && recv < w.inferWorldSize <= send
    ensures PlannedWith(w, infer, train, strict, dims, send, sendPruned, recv)
         == PlannedWith(w, infer, train, strict, dims, recv, recvPruned, send)
  {
    Agreement.BothEndsAgree(
      w, infer, train, strict, dims, send, if sendPruned then Some(send) else None, recv,
      if recvPruned then Some(recv) else None);
  }

  /** Everything a sender plans with a receiver lies inside the sender's shards. */
  lemma PlannedAllInside(
    w: Plan.World, infer: seq<ParameterMeta>, train: seq<ParameterMeta>, strict: bool, layout: Model.Layout,
    dims: string -> nat, send: nat, pruned: bool, recv: nat)
    requires Plan.UniformModel(Plan.MetaDict(infer), Plan.MetaDict(train), dims) && recv < w.inferWorldSize <= send
    requires Model.ModelReady(
               w, Plan.MetaDict(infer), Plan.MetaDict(train), Plan.CommonNames(infer, train), layout, dims)
    ensures AllInside(PlannedWith(w, infer, train, strict, dims, send, pruned, recv))
  {
    var ops := PlannedWith(w, infer, train, strict, dims, send, pruned, recv);
    forall i | 0 <= i < |ops|
      ensures Inside(ops[i].trainSlices, ops[i].overlapShape, ops[i].sendShard.info.shape)
    {
      PlannedFromModel(w, infer, train, strict, dims, send, pruned, recv, ops[i]);
      PlannedInside(
        w, Plan.MetaDict(infer), Plan.MetaDict(train), Plan.CommonNames(infer, train), layout, dims, ops[i]);
    }
  }

  lemma PlannedMembers(plan: seq<Plan.Operation>, send: nat, recv: nat)
    ensures forall op <- Sort(Plan.OperationLe(), Filter(Agreement.Between(send, recv), plan)) :: op in plan
  {
    Plan.SortMembers(Plan.OperationLe(), Filter(Agreement.Between(send, recv), plan));
    FilterMembers(Agreement.Between(send, recv), plan);
  }

  /** One end's lowered batch, in which the group at this index is its stream with one peer. */
  datatype LoweredEnd = LoweredEnd(
    config: Lower.Config, groups: seq<Group>, at: nat, active: seq<nat>, schedule: Schedule.Schedule,
    table: seq<Lower.PeerResult>)

  ghost predicate LowersStream(end: LoweredEnd, peer: nat, pieces: Result<seq<Piece>, DeviceError>) {
    && peer in end.active
    && DistinctPeers(end.groups) && end.at < |end.groups|
    && end.groups[end.at].peer == peer && Ok(end.groups[end.at].pieces) == pieces
    && Schedule.Lowered(
         end.config, end.active, TasksFor(BatchEntries(Whole, end.groups)), end.schedule, end.table)
  }

  /** Both ends schedule the same works for each other on a channel and continue from the same step. */
  ghost predicate SameSchedule(a: LoweredEnd, b: LoweredEnd, channel: nat) {
    var ra, rb := a.config.localRank, b.config.localRank;
    && channel < a.config.totalChannels == b.config.totalChannels
    && Schedule.TableShaped(a.table, a.active, a.config.totalChannels)
    && Schedule.TableShaped(b.table, b.active, b.config.totalChannels)
    && V2.Skeletons(Theorems.PeerWorksOn(a.table, a.active, a.config.totalChannels, channel, rb))
       == V2.Skeletons(Theorems.PeerWorksOn(b.table, b.active, b.config.totalChannels, channel, ra))
    && rb < |a.schedule.nextSteps| && ra < |b.schedule.nextSteps|
    && |a.schedule.nextSteps[rb]| == |b.schedule.nextSteps[ra]| == a.config.totalChannels
    && a.schedule.nextSteps[rb][channel] == b.schedule.nextSteps[ra][channel]
  }

  /** What two ranks plan from: the metadata, and whether either prunes. */
  datatype Planning = Planning(
    world: Plan.World, infer: seq<ParameterMeta>, train: seq<ParameterMeta>, strict: bool, layout: Model.Layout,
    dims: string -> nat, send: nat, sendPruned: bool, recv: nat, recvPruned: bool)

  ghost predicate ReadyToPlan(p: Planning) {
    && Plan.UniformModel(Plan.MetaDict(p.infer), Plan.MetaDict(p.train), p.dims)
    && Model.ModelReady(
         p.world, Plan.MetaDict(p.infer), Plan.MetaDict(p.train), Plan.CommonNames(p.infer, p.train), p.layout, p.dims)
    && p.recv < p.world.inferWorldSize <= p.send
  }

  function PlannedSends(p: Planning): seq<Plan.Operation>
    requires Plan.UniformModel(Plan.MetaDict(p.infer), Plan.MetaDict(p.train), p.dims)
  {
    PlannedWith(p.world, p.infer, p.train, p.strict, p.dims, p.send, p.sendPruned, p.recv)
  }

  function PlannedRecvs(p: Planning): seq<Plan.Operation>
    requires Plan.UniformModel(Plan.MetaDict(p.infer), Plan.MetaDict(p.train), p.dims)
  {
    PlannedWith(p.world, p.infer, p.train, p.strict, p.dims, p.recv, p.recvPruned, p.send)
  }

  /** One transfer between the two ranks: what each has for its operations, and its lowered batch. */
  datatype Round = Round(sends: seq<SendOp>, recvs: seq<RecvOp>, a: LoweredEnd, b: LoweredEnd)

  ghost predicate RoundOf(p: Planning, how: Annotation, r: Round)
    requires ReadyToPlan(p)
  {
    && SenderServes(PlannedSends(p), how, r.sends) && ReceiverTakes(PlannedRecvs(p), how, r.recvs)
    && LowersStream(r.a, r.b.config.localRank, SendAll(r.sends))
    && LowersStream(r.b, r.a.config.localRank, RecvAll(r.recvs))
  }

  function TasksOfEnd(end: LoweredEnd): seq<V2.Task> { TasksFor(BatchEntries(Whole, end.groups)) }

  /** Both ranks accept their operations and count the same bytes for their stream. */
  lemma RoundStreams(p: Planning, how: Annotation, r: Round)
    requires ReadyToPlan(p) && RoundOf(p, how, r)
    ensures SendAll(r.sends).Ok? && RecvAll(r.recvs).Ok? && SameOps(r.sends, r.recvs)
    ensures forall k | 0 <= k < |r.sends| :: Selects(r.sends[k].op, r.sends[k].source) == Some(r.recvs[k].target.numel)
    ensures V2.StreamBytes(Schedule.TasksOf(TasksOfEnd(r.a), r.b.config.localRank))
         == V2.StreamBytes(Schedule.TasksOf(TasksOfEnd(r.b), r.a.config.localRank))
  {
    PlannedAlike(p.world, p.infer, p.train, p.strict, p.dims, p.send, p.sendPruned, p.recv, p.recvPruned);
    PlannedAllInside(p.world, p.infer, p.train, p.strict, p.layout, p.dims, p.send, p.sendPruned, p.recv);
    ServedStreamsAgree(PlannedSends(p), how, r.sends, r.recvs);
    StreamBytesAgree(r.sends, r.recvs);
    BatchStreamBytes(r.a.groups, r.a.at);
    BatchStreamBytes(r.b.groups, r.b.at);
  }

  /**
   Planned apart, served apart, lowered apart: for the stream they share, both ranks schedule the
   same works on every channel and continue from the same next step.
   */
  lemma PlannedEndsAgree(p: Planning, how: Annotation, r: Round, channel: nat)
    requires ReadyToPlan(p) && RoundOf(p, how, r)
    requires Lower.PairAgrees(r.a.config, r.b.config) && channel < r.a.config.totalChannels
    ensures SameSchedule(r.a, r.b, channel)
  {
    RoundStreams(p, how, r);
    Theorems.EndsAgree(
      r.a.config, r.a.active, TasksOfEnd(r.a), r.a.schedule, r.a.table,
      r.b.config, r.b.active, TasksOfEnd(r.b), r.b.schedule, r.b.table, channel);
  }

  /**
   For a network pair nothing about the channel counts is assumed: with each rank's counts from
   its own budget, the two agree as a pair if and only if their budgets match, and then they
   schedule the same works for each other.
   */
  lemma PlannedNetworkEndsAgree(
    p: Planning, how: Annotation, r: Round, connections: nat, tableA: seq<nat>, tableB: seq<nat>, channel: nat)
    requires ReadyToPlan(p) && RoundOf(p, how, r)
    requires Lower.SameSettings(r.a.config, r.b.config) && channel < r.a.config.totalChannels
    requires r.a.config.peerIsGin[r.b.config.localRank]
    requires Gin.Budgeted(r.a.config, connections, r.a.active, TasksOfEnd(r.a), tableA)
    requires Gin.Budgeted(r.b.config, connections, r.b.active, TasksOfEnd(r.b), tableB)
    ensures r.b.config.localRank in NetworkPeers(r.a.config.peerIsGin, r.a.active)
    ensures r.a.config.localRank in NetworkPeers(r.b.config.peerIsGin, r.b.active)
    ensures var matched := Gin.BudgetsMatch(
              r.a.config, r.a.active, TasksOfEnd(r.a), r.b.config, r.b.active, TasksOfEnd(r.b), connections);
      (Lower.PairAgrees(r.a.config, r.b.config) <==> matched) && (matched ==> SameSchedule(r.a, r.b, channel))
  {
    RoundStreams(p, how, r);
    Gin.BudgetedPairAgrees(
      r.a.config, r.a.active, TasksOfEnd(r.a), tableA, r.b.config, r.b.active, TasksOfEnd(r.b), tableB, connections);
    if Lower.PairAgrees(r.a.config, r.b.config) { PlannedEndsAgree(p, how, r, channel); }
  }

  /** The steps a round ends with are the steps the next one starts with, at both ends. */
  ghost predicate Continues(r: Round, next: Round) {
    && next.a.config == r.a.config.(initialSteps := r.a.schedule.nextSteps)
    && next.b.config == r.b.config.(initialSteps := r.b.schedule.nextSteps)
  }

  /** Transfers one after the other, each from the steps the one before ended with. */
  ghost predicate RoundsOf(p: Planning, how: Annotation, rounds: seq<Round>)
    requires ReadyToPlan(p)
  {
    rounds == []
    || (var k := |rounds| - 1;
        RoundOf(p, how, rounds[k]) && RoundsOf(p, how, rounds[..k]) && (k > 0 ==> Continues(rounds[k - 1], rounds[k])))
  }

  /** Ranks that agree as a pair and schedule the same works for each other on every channel. */
  ghost predicate RoundAgrees(r: Round) {
    && Lower.PairAgrees(r.a.config, r.b.config)
    && forall channel: nat | channel < r.a.config.totalChannels :: SameSchedule(r.a, r.b, channel)
  }

  lemma AgreedRound(p: Planning, how: Annotation, r: Round)
    requires ReadyToPlan(p) && RoundOf(p, how, r) && Lower.PairAgrees(r.a.config, r.b.config)
    ensures RoundAgrees(r)
  {
    forall channel: nat | channel < r.a.config.totalChannels ensures SameSchedule(r.a, r.b, channel) {
      PlannedEndsAgree(p, how, r, channel);
    }
  }

  /** Once the two ranks agree as a pair, they schedule the same works for each other in the last of any rounds. */
  lemma {:induction false} PlannedRoundsAgree(p: Planning, how: Annotation, rounds: seq<Round>)
    requires ReadyToPlan(p) && rounds != [] && RoundsOf(p, how, rounds)
    requires Lower.PairAgrees(rounds[0].a.config, rounds[0].b.config)
    ensures RoundAgrees(rounds[|rounds| - 1])
  {
    var k := |rounds| - 1;
    if k > 0 {
      PlannedRoundsAgree(p, how, rounds[..k]);
      RoundLasts(p, how, rounds[k - 1], rounds[k]);
    }
    AgreedRound(p, how, rounds[k]);
  }

  lemma RoundLasts(p: Planning, how: Annotation, r: Round, next: Round)
    requires ReadyToPlan(p) && RoundOf(p, how, r) && RoundAgrees(r) && Continues(r, next)
    ensures Lower.PairAgrees(next.a.config, next.b.config)
  {
    RoundStreams(p, how, r);
    Theorems.AgreementLasts(
      r.a.config, r.a.active, TasksOfEnd(r.a), r.a.schedule, r.a.table,
      r.b.config, r.b.active, TasksOfEnd(r.b), r.b.schedule, r.b.table, next.a.config, next.b.config);
  }
}
