/**
 The whole lowering: validation, every active peer, every channel, and what the schedule
 guarantees: byte conservation, FIFO step streams, per-peer order, and agreement of the
 two ends of every connection.
 */
module LoweringSchedule {
  import opened Basics
  import opened SequenceFacts
  import opened Sequences
  import opened PowersOfTwo
  import opened StreamPartition
  import opened PeerLowering
  import opened Lowering
  import Scheduler = BatchScheduler

  /** A channel and its range of batches. */
  datatype OwnedQueue = OwnedQueue(channel: nat, queue: ChannelQueue)

  datatype ChannelQueue = ChannelQueue(firstBatch: nat, batchCount: nat)

  datatype Schedule = Schedule(
    works: seq<Work>, fragments: seq<Fragment>, batches: seq<Scheduler.Batch>, channels: seq<ChannelQueue>,
    channelIds: seq<nat>, peerChannelCounts: seq<nat>, nextSteps: seq<seq<nat>>)

  // ---------------------------------------------------------------- validation

  function OfPeer(peer: nat): Task -> bool {
    (t: Task) => t.peer == peer
  }

  function TasksOf(tasks: seq<Task>, peer: nat): seq<Task> {
    Filter(OfPeer(peer), tasks)
  }

  ghost predicate ActiveValid(c: Config, active: seq<nat>) {
    && (forall i | 0 <= i < |active| :: active[i] < c.worldSize && active[i] != c.localRank)
    && forall i, j | 0 <= i < j < |active| :: active[i] != active[j]
  }

  /** The first defect in a list of tasks; ordinals must count each peer's tasks from zero. */
  function TasksDefect(c: Config, active: seq<nat>, tasks: seq<Task>): Option<LoweringError> {
    if tasks == [] then None
    else
      var init, t := tasks[..|tasks| - 1], tasks[|tasks| - 1];
      match TasksDefect(c, active, init)
      case Some(e) => Some(e)
      case None =>
        if t.peer >= c.worldSize || t.peer !in active then Some(TaskPeerInactive)
        else if t.rowBytes == 0 || t.rowStride < t.rowBytes then Some(InvalidRowLayout)
        else if t.ordinal != |TasksOf(init, t.peer)| then Some(OrderNotDense)
        else None
  }

  /** A list passes the density check exactly when every peer's ordinals are 0, 1, 2, ... */
  lemma {:induction false} DenseMeaning(c: Config, active: seq<nat>, tasks: seq<Task>)
    ensures TasksDefect(c, active, tasks).None? <==>
      forall i | 0 <= i < |tasks| ::
        && tasks[i].peer < c.worldSize && tasks[i].peer in active
        && 0 < tasks[i].rowBytes <= tasks[i].rowStride
        && tasks[i].ordinal == |TasksOf(tasks[..i], tasks[i].peer)|
  {
    if tasks != [] {
      var init := tasks[..|tasks| - 1];
      DenseMeaning(c, active, init);
      assert forall i | 0 <= i < |init| :: init[i] == tasks[i] && init[..i] == tasks[..i];
    }
  }

  lemma {:induction false} DefectOfPrefix(c: Config, active: seq<nat>, tasks: seq<Task>, k: nat)
    requires k <= |tasks| && TasksDefect(c, active, tasks[..k]).Some?
    ensures TasksDefect(c, active, tasks) == TasksDefect(c, active, tasks[..k])
    decreases |tasks|
  {
    if k < |tasks| {
      assert tasks[..|tasks| - 1][..k] == tasks[..k];
      DefectOfPrefix(c, active, tasks[..|tasks| - 1], k);
    } else {
      assert tasks[..k] == tasks;
    }
  }

  method CheckActive(c: Config, active: seq<nat>) returns (valid: bool)
    ensures valid <==> ActiveValid(c, active)
  {
    var seen := seq(c.worldSize, _ => false);
    for i := 0 to |active|
      invariant |seen| == c.worldSize && ActiveValid(c, active[..i])
      invariant forall p: nat | p < c.worldSize :: seen[p] <==> p in active[..i]
    {
      var peer := active[i];
      if peer >= c.worldSize || peer == c.localRank || seen[peer] {
        return false;
      }
      seen := seen[peer := true];
      assert active[..i + 1] == active[..i] + [peer];
    }
    TakeAll(active);
    return true;
  }

  /** Splits the tasks by peer, checking each against the tasks before it. */
  method SplitTasks(c: Config, active: seq<nat>, tasks: seq<Task>) returns (r: Result<seq<seq<Task>>, LoweringError>)
    ensures TasksDefect(c, active, tasks).Some? ==> r == Err(TasksDefect(c, active, tasks).value)
    ensures TasksDefect(c, active, tasks).None? ==>
      r.Ok? && |r.value| == c.worldSize && forall p: nat | p < c.worldSize :: r.value[p] == TasksOf(tasks, p)
  {
    var peerTasks: seq<seq<Task>> := seq(c.worldSize, _ => []);
    for i := 0 to |tasks|
      invariant |peerTasks| == c.worldSize && TasksDefect(c, active, tasks[..i]).None?
      invariant forall p: nat | p < c.worldSize :: peerTasks[p] == TasksOf(tasks[..i], p)
    {
      var t := tasks[i];
      TakeInit(tasks, i);
      TakeNext(tasks, i);
      if t.peer >= c.worldSize || t.peer !in active {
        DefectOfPrefix(c, active, tasks, i + 1);
        return Err(TaskPeerInactive);
      }
      if t.rowBytes == 0 || t.rowStride < t.rowBytes {
        DefectOfPrefix(c, active, tasks, i + 1);
        return Err(InvalidRowLayout);
      }
      if t.ordinal != |peerTasks[t.peer]| {
        DefectOfPrefix(c, active, tasks, i + 1);
        return Err(OrderNotDense);
      }
      peerTasks := peerTasks[t.peer := peerTasks[t.peer] + [t]];
      forall p: nat | p < c.worldSize ensures peerTasks[p] == TasksOf(tasks[..i + 1], p) {
        FilterConcat(OfPeer(p), tasks[..i], [t]);
      }
    }
    TakeAll(tasks);
    return Ok(peerTasks);
  }

  // ---------------------------------------------------------------- channels

  ghost predicate TableShaped(table: seq<PeerResult>, active: seq<nat>, total: nat) {
    forall i | 0 <= i < |active| :: active[i] < |table| && |table[active[i]].queues| == total
  }

  function QueuesOn(table: seq<PeerResult>, active: seq<nat>, total: nat, channel: nat): seq<seq<Work>>
    requires TableShaped(table, active, total) && channel < total
  {
    seq(|active|, i requires 0 <= i < |active| => table[active[i]].queues[channel])
  }

  /** The works of one channel in batch order. */
  function ChannelWorks(queues: seq<seq<Work>>): seq<Work> {
    if Scheduler.Total(queues) == 0 then [] else Scheduler.Emitted(Scheduler.State(queues, 0), MAX_WORKS_PER_BATCH)
  }

  function ChannelBatches(queues: seq<seq<Work>>): seq<seq<nat>> {
    if Scheduler.Total(queues) == 0 then [] else Scheduler.Batches(Scheduler.State(queues, 0), MAX_WORKS_PER_BATCH)
  }

  /** The works of the channels below upto, channel by channel. */
  function WorksBelow(table: seq<PeerResult>, active: seq<nat>, total: nat, upto: nat): seq<Work>
    requires TableShaped(table, active, total) && upto <= total
  {
    if upto == 0 then []
    else WorksBelow(table, active, total, upto - 1) + ChannelWorks(QueuesOn(table, active, total, upto - 1))
  }

  function BatchesBelow(table: seq<PeerResult>, active: seq<nat>, total: nat, upto: nat): seq<Scheduler.Batch>
    requires TableShaped(table, active, total) && upto <= total
  {
    if upto == 0 then []
    else
      BatchesBelow(table, active, total, upto - 1)
      + Scheduler.Layout(
          ChannelBatches(QueuesOn(table, active, total, upto - 1)), |WorksBelow(table, active, total, upto - 1)|)
  }

  /** The channels below upto that carry anything, each with its range of batches. */
  function QueuesBelow(table: seq<PeerResult>, active: seq<nat>, total: nat, upto: nat): seq<OwnedQueue>
    requires TableShaped(table, active, total) && upto <= total
  {
    if upto == 0 then []
    else
      var queues := QueuesOn(table, active, total, upto - 1);
      QueuesBelow(table, active, total, upto - 1)
      + (if Scheduler.Total(queues) == 0 then []
         else [OwnedQueue(upto - 1, ChannelQueue(|BatchesBelow(table, active, total, upto - 1)|, |ChannelBatches(queues)|))])
  }

  lemma {:induction false} LayoutLength(batches: seq<seq<nat>>, offset: nat)
    ensures |Scheduler.Layout(batches, offset)| == |batches|
    decreases |batches|
  {
    if batches != [] { LayoutLength(batches[1..], offset + |batches[0]|); }
  }

  /** What a successful lowering produced. */
  ghost predicate Lowered(c: Config, active: seq<nat>, tasks: seq<Task>, s: Schedule, table: seq<PeerResult>) {
    && ConfigDefect(c).None? && ActiveValid(c, active) && TasksDefect(c, active, tasks).None?
    && |table| == |s.nextSteps| == |s.peerChannelCounts| == c.worldSize
    && TableShaped(table, active, c.totalChannels)
    && (forall p | p in active :: p < c.worldSize && PeerLowered(c, p, TasksOf(tasks, p), s.fragments, table[p]))
    && (forall p: nat | p < c.worldSize :: s.nextSteps[p] == table[p].steps && s.peerChannelCounts[p] == table[p].channelCount)
    && (forall p: nat, channel: nat | p < c.worldSize && p !in active && channel < c.totalChannels ::
          |table[p].steps| == c.totalChannels && table[p].steps[channel] == InitialStep(c, p, channel))
    && s.works == WorksBelow(table, active, c.totalChannels, c.totalChannels)
    && s.batches == BatchesBelow(table, active, c.totalChannels, c.totalChannels)
    && |s.channelIds| == |s.channels| == |QueuesBelow(table, active, c.totalChannels, c.totalChannels)|
    && forall i | 0 <= i < |s.channels| ::
         OwnedQueue(s.channelIds[i], s.channels[i]) == QueuesBelow(table, active, c.totalChannels, c.totalChannels)[i]
  }

  method ScheduleChannels(table: seq<PeerResult>, active: seq<nat>, total: nat)
    returns (works: seq<Work>, batches: seq<Scheduler.Batch>, queues: seq<OwnedQueue>)
    requires TableShaped(table, active, total)
    ensures works == WorksBelow(table, active, total, total)
    ensures batches == BatchesBelow(table, active, total, total)
    ensures queues == QueuesBelow(table, active, total, total)
  {
    works, batches, queues := [], [], [];
    for channel := 0 to total
      invariant works == WorksBelow(table, active, total, channel)
      invariant batches == BatchesBelow(table, active, total, channel)
      invariant queues == QueuesBelow(table, active, total, channel)
    {
      var pending := QueuesOn(table, active, total, channel);
      var channelWorks, channelBatches := ScheduleOne(pending, |works|);
      if Scheduler.Total(pending) != 0 {
        queues := queues + [OwnedQueue(channel, ChannelQueue(|batches|, |channelBatches|))];
      }
      works, batches := works + channelWorks, batches + channelBatches;
    }
  }

  method ScheduleOne(pending: seq<seq<Work>>, firstWork: nat) returns (works: seq<Work>, batches: seq<Scheduler.Batch>)
    ensures works == ChannelWorks(pending)
    ensures batches == Scheduler.Layout(ChannelBatches(pending), firstWork)
    ensures |batches| == |ChannelBatches(pending)|
  {
    LayoutLength(ChannelBatches(pending), firstWork);
    if Scheduler.Total(pending) == 0 {
      return [], [];
    }
    works, batches := Scheduler.ScheduleChannel(pending, MAX_WORKS_PER_BATCH, firstWork);
  }

  method LowerPeers(c: Config, active: seq<nat>, peerTasks: seq<seq<Task>>, ghost tasks: seq<Task>)
    returns (r: Result<(seq<PeerResult>, seq<Fragment>), LoweringError>)
    requires ConfigDefect(c).None? && ActiveValid(c, active) && |peerTasks| == c.worldSize
    requires forall p: nat | p < c.worldSize :: peerTasks[p] == TasksOf(tasks, p)
    ensures r.Err? ==> exists p | p in active :: p < c.worldSize && PeerTooLarge(c, p, TasksOf(tasks, p))
    ensures r.Ok? ==>
      var table, fragments := r.value.0, r.value.1;
      && |table| == c.worldSize
      && (forall p | p in active :: p < c.worldSize && PeerLowered(c, p, TasksOf(tasks, p), fragments, table[p]))
      && (forall p: nat | p < c.worldSize && p !in active :: table[p] == Untouched(c, p))
  {
    var table: seq<PeerResult> := seq(c.worldSize, p requires 0 <= p < c.worldSize => Untouched(c, p));
    var state := new LoweringState();
    for i := 0 to |active|
      invariant |table| == c.worldSize && fresh(state)
      invariant forall j | 0 <= j < i :: PeerLowered(c, active[j], TasksOf(tasks, active[j]), state.fragments, table[active[j]])
      invariant forall p: nat | p < c.worldSize && p !in active[..i] :: table[p] == Untouched(c, p)
    {
      var peer := active[i];
      ghost var before := state.fragments;
      assert peer in active;
      var result := state.LowerPeer(c, peer, peerTasks[peer]);
      if result.Err? {
        return Err(result.error);
      }
      forall j | 0 <= j < i
        ensures PeerLowered(c, active[j], TasksOf(tasks, active[j]), state.fragments, table[active[j]])
      {
        PeerStaysLowered(c, active[j], TasksOf(tasks, active[j]), before, state.fragments, table[active[j]]);
      }
      table := table[peer := result.value];
      assert active[..i + 1] == active[..i] + [peer];
    }
    TakeAll(active);
    return Ok((table, state.fragments));
  }

  function Untouched(c: Config, peer: nat): PeerResult
    requires ConfigDefect(c).None? && peer < c.worldSize
  {
    PeerResult(
      seq(c.totalChannels, _ => []),
      seq(c.totalChannels, channel requires 0 <= channel < c.totalChannels => InitialStep(c, peer, channel)), 0)
  }

  lemma PeerStaysLowered(
    c: Config, peer: nat, tasks: seq<Task>, before: seq<Fragment>, after: seq<Fragment>, pr: PeerResult)
    requires ConfigDefect(c).None? && peer < c.worldSize && before <= after
    requires PeerLowered(c, peer, tasks, before, pr)
    ensures PeerLowered(c, peer, tasks, after, pr)
  {
    forall channel: nat | channel < c.totalChannels && StreamBytes(tasks) > 0
      ensures WorksSound(after, SpansOf(tasks), peer, pr.queues[channel])
    {
      SoundnessIsStable(before, after, SpansOf(tasks), peer, pr.queues[channel]);
    }
  }

  /**
   The lowering of a rank's tasks. Every defect of its input is reported, in the order of
   the checks; with sound input it succeeds unless some peer's stream is too large.
   */
  method LowerFixedTasks(c: Config, active: seq<nat>, tasks: seq<Task>)
    returns (r: Result<Schedule, LoweringError>, ghost table: seq<PeerResult>)
    ensures ConfigDefect(c).Some? ==> r == Err(ConfigDefect(c).value)
    ensures ConfigDefect(c).None? && !ActiveValid(c, active) ==> r == Err(InvalidActivePeers)
    ensures ConfigDefect(c).None? && ActiveValid(c, active) && TasksDefect(c, active, tasks).Some? ==>
      r == Err(TasksDefect(c, active, tasks).value)
    ensures ConfigDefect(c).None? && ActiveValid(c, active) && TasksDefect(c, active, tasks).None? && r.Err? ==>
      exists p | p in active :: p < c.worldSize && PeerTooLarge(c, p, TasksOf(tasks, p))
    ensures r.Ok? ==> Lowered(c, active, tasks, r.value, table)
  {
    table := [];
    if ConfigDefect(c).Some? {
      return Err(ConfigDefect(c).value), table;
    }
    var valid := CheckActive(c, active);
    if !valid {
      return Err(InvalidActivePeers), table;
    }
    var split := SplitTasks(c, active, tasks);
    if split.Err? {
      return Err(split.error), table;
    }
    var lowered := LowerPeers(c, active, split.value, tasks);
    if lowered.Err? {
      return Err(lowered.error), table;
    }
    var peers, fragments := lowered.value.0, lowered.value.1;
    table := peers;
    var works, batches, queues := ScheduleChannels(peers, active, c.totalChannels);
    var schedule := Assemble(peers, fragments, works, batches, queues);
    AssembledIsLowered(c, active, tasks, peers, fragments, works, batches, queues);
    return Ok(schedule), table;
  }

  function Assemble(
    table: seq<PeerResult>, fragments: seq<Fragment>, works: seq<Work>, batches: seq<Scheduler.Batch>,
    queues: seq<OwnedQueue>): Schedule
  {
    Schedule(
      works, fragments, batches,
      seq(|queues|, i requires 0 <= i < |queues| => queues[i].queue),
      seq(|queues|, i requires 0 <= i < |queues| => queues[i].channel),
      seq(|table|, p requires 0 <= p < |table| => table[p].channelCount),
      seq(|table|, p requires 0 <= p < |table| => table[p].steps))
  }

  lemma AssembledIsLowered(
    c: Config, active: seq<nat>, tasks: seq<Task>, table: seq<PeerResult>, fragments: seq<Fragment>, works: seq<Work>,
    batches: seq<Scheduler.Batch>, queues: seq<OwnedQueue>)
    requires ConfigDefect(c).None? && ActiveValid(c, active) && TasksDefect(c, active, tasks).None?
    requires |table| == c.worldSize && TableShaped(table, active, c.totalChannels)
    requires forall p | p in active :: p < c.worldSize && PeerLowered(c, p, TasksOf(tasks, p), fragments, table[p])
    requires forall p: nat | p < c.worldSize && p !in active :: table[p] == Untouched(c, p)
    requires works == WorksBelow(table, active, c.totalChannels, c.totalChannels)
    requires batches == BatchesBelow(table, active, c.totalChannels, c.totalChannels)
    requires queues == QueuesBelow(table, active, c.totalChannels, c.totalChannels)
    ensures Lowered(c, active, tasks, Assemble(table, fragments, works, batches, queues), table)
  {
  }
}
