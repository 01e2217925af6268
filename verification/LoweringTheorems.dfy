/** What every successful lowering guarantees, over all configurations and task lists. */
module LoweringTheorems {
  import opened Basics
  import opened SequenceFacts
  import opened Sequences
  import opened PowersOfTwo
  import opened StreamPartition
  import opened PeerLowering
  import opened Lowering
  import opened LoweringSchedule
  import Scheduler = BatchScheduler

  // ---------------------------------------------------------------- order on a channel

  function PeerOf(): Work -> nat { (w: Work) => w.peer }

  /** The works of one channel for one peer, in the order in which they are executed. */
  function PeerWorksOn(table: seq<PeerResult>, active: seq<nat>, total: nat, channel: nat, peer: nat): seq<Work>
    requires TableShaped(table, active, total) && channel < total
  {
    Filter(Scheduler.HasTag(PeerOf(), peer), ChannelWorks(QueuesOn(table, active, total, channel)))
  }

  lemma QueuesAreTagged(c: Config, active: seq<nat>, tasks: seq<Task>, s: Schedule, table: seq<PeerResult>, channel: nat)
    requires Lowered(c, active, tasks, s, table) && channel < c.totalChannels
    ensures Scheduler.Tagged(QueuesOn(table, active, c.totalChannels, channel), PeerOf(), active)
  {
    forall i | 0 <= i < |active|
      ensures forall k | 0 <= k < |table[active[i]].queues[channel]| :: table[active[i]].queues[channel][k].peer == active[i]
    {
      var p := active[i];
      assert p in active;
      assert PeerLowered(c, p, TasksOf(tasks, p), s.fragments, table[p]);
      if StreamBytes(TasksOf(tasks, p)) > 0 {
        var g := GeometryFor(c, p, StreamBytes(TasksOf(tasks, p)));
        assert WorksSound(s.fragments, SpansOf(TasksOf(tasks, p)), p, table[p].queues[channel]);
      }
    }
  }

  lemma ChannelByPeer(queues: seq<seq<Work>>, active: seq<nat>, i: nat)
    requires i < |active| && Scheduler.Tagged(queues, PeerOf(), active)
    ensures Filter(Scheduler.HasTag(PeerOf(), active[i]), ChannelWorks(queues)) == queues[i]
  {
    Scheduler.TotalZero(queues);
    if Scheduler.Total(queues) > 0 {
      Scheduler.EmittedByPeer(Scheduler.State(queues, 0), MAX_WORKS_PER_BATCH, PeerOf(), active, i);
    }
  }

  /** The batches of a channel execute every peer's queue exactly once and in queue order. */
  lemma ChannelKeepsQueues(
    c: Config, active: seq<nat>, tasks: seq<Task>, s: Schedule, table: seq<PeerResult>, channel: nat, peer: nat)
    requires Lowered(c, active, tasks, s, table)
    requires channel < c.totalChannels && peer in active
    ensures PeerWorksOn(table, active, c.totalChannels, channel, peer) == table[peer].queues[channel]
  {
    var i :| 0 <= i < |active| && active[i] == peer;
    QueuesAreTagged(c, active, tasks, s, table, channel);
    ChannelByPeer(QueuesOn(table, active, c.totalChannels, channel), active, i);
  }

  // ---------------------------------------------------------------- byte conservation

  function WorkBytes(fragments: seq<Fragment>, w: Work): seq<ByteRef> {
    if w.fragmentBegin + w.fragmentCount <= |fragments| then
      Expand(Range(fragments, w.fragmentBegin, w.fragmentBegin + w.fragmentCount))
    else []
  }

  function QueueBytes(fragments: seq<Fragment>, queue: seq<Work>): seq<ByteRef> {
    if queue == [] then []
    else QueueBytes(fragments, queue[..|queue| - 1]) + WorkBytes(fragments, queue[|queue| - 1])
  }

  lemma WorkBytesAreWindow(fragments: seq<Fragment>, tasks: seq<Task>, w: Work, end: nat)
    requires WorkSound(fragments, SpansOf(tasks), w) && w.nbytes > 0
    requires end == w.streamOffset + w.nbytes <= |Stream(tasks)|
    ensures WorkBytes(fragments, w) == Range(Stream(tasks), w.streamOffset, end)
  {
    FragmentsAreWindow(tasks, w.streamOffset, end);
    WorkBytesAre(fragments, SpansOf(tasks), w, end);
    InsideWindow(Stream(tasks), w.streamOffset, end);
  }

  lemma WorkBytesAre(fragments: seq<Fragment>, spans: seq<Span>, w: Work, end: nat)
    requires WorkSound(fragments, spans, w) && end == w.streamOffset + w.nbytes
    ensures WorkBytes(fragments, w) == Expand(FragmentsFor(spans, w.streamOffset, end))
  {
  }

  lemma InsideWindow<T>(s: seq<T>, b: nat, e: nat)
    requires b <= e <= |s|
    ensures Window(s, b, e) == Range(s, b, e)
  {
  }

  /** The works of a queue lie end to end from lo. */
  ghost predicate EndToEnd(queue: seq<Work>, lo: nat, hi: nat) {
    if queue == [] then lo == hi
    else
      var w := queue[|queue| - 1];
      w.nbytes > 0 && lo <= w.streamOffset && w.streamOffset + w.nbytes == hi
      && EndToEnd(queue[..|queue| - 1], lo, w.streamOffset)
  }

  /** The works of a queue, in order, address the stream range that the queue tiles. */
  lemma {:induction false} QueueBytesAreWindow(
    fragments: seq<Fragment>, tasks: seq<Task>, peer: nat, queue: seq<Work>, lo: nat, hi: nat)
    requires WorksSound(fragments, SpansOf(tasks), peer, queue)
    requires EndToEnd(queue, lo, hi) && lo <= hi <= |Stream(tasks)|
    ensures QueueBytes(fragments, queue) == Range(Stream(tasks), lo, hi)
  {
    if queue != [] {
      var w := queue[|queue| - 1];
      QueueBytesAreWindow(fragments, tasks, peer, queue[..|queue| - 1], lo, w.streamOffset);
      WorkBytesAreWindow(fragments, tasks, w, hi);
      RangeConcat(Stream(tasks), lo, w.streamOffset, hi);
    }
  }

  lemma {:induction false} TilesInside(works: seq<Skeleton>, lo: nat, hi: nat, i: nat)
    requires Tiles(works, lo, hi) && i < |works|
    ensures Ends(works[i]) <= hi && works[i].streamOffset == (if i == 0 then lo else Ends(works[i - 1]))
    decreases |works| - i
  {
    if i + 1 < |works| { TilesInside(works, lo, hi, i + 1); }
  }

  /** The bytes on the channel of each part. */
  function PartBytesOf(fragments: seq<Fragment>, g: Geometry, pr: PeerResult): seq<seq<ByteRef>>
    requires ValidGeometry(g) && |pr.queues| == g.total
  {
    seq(g.channels, part requires 0 <= part < g.channels =>
      QueueBytes(fragments, pr.queues[ChannelOf(g.base, part, g.total)]))
  }

  /** One connection carries its part of the stream in consecutive steps, with one final work at the end. */
  lemma ConnectionShape(
    g: Geometry, bytes: nat, spans: seq<Span>, fragments: seq<Fragment>, peer: nat, queue: seq<Work>, part: nat,
    first: nat, next: nat)
    requires ValidGeometry(g) && part < g.channels
    requires ConnectionLowered(PartWorks(g, bytes, part, first), fragments, spans, peer, queue, first, next)
    ensures PartLow(g.channels, part, bytes) <= PartHigh(g.channels, part, bytes) <= bytes
    ensures Tiles(Skeletons(queue), PartLow(g.channels, part, bytes), PartHigh(g.channels, part, bytes))
    ensures ConsecutiveSteps(Skeletons(queue), first, next)
    ensures Numbered(Skeletons(queue), 0, |queue|)
  {
    PartsTile(g.channels, bytes);
    var lo, hi := PartLow(g.channels, part, bytes), PartHigh(g.channels, part, bytes);
    if lo < hi {
      var chunk := if g.chunkBytes == 0 then hi - lo else g.chunkBytes;
      WorksAreStream(lo, hi, chunk, g.stepBytes, g.fifoDepth, 0, DivUp(hi - lo, chunk), first);
      WorksLength(lo, hi, chunk, g.stepBytes, g.fifoDepth, 0, DivUp(hi - lo, chunk), first);
    }
    assert |Skeletons(queue)| == |queue|;
  }

  lemma {:induction false} TiledIsEndToEnd(queue: seq<Work>, n: nat, lo: nat, hi: nat)
    requires Tiles(Skeletons(queue), lo, hi) && n <= |queue|
    ensures var end := if n == 0 then lo else queue[n - 1].streamOffset + queue[n - 1].nbytes;
      lo <= end && EndToEnd(queue[..n], lo, end)
  {
    if n > 0 {
      TiledIsEndToEnd(queue, n - 1, lo, hi);
      TilesInside(Skeletons(queue), lo, hi, n - 1);
      assert queue[..n][..n - 1] == queue[..n - 1];
    }
  }

  lemma TiledQueueBytes(
    fragments: seq<Fragment>, tasks: seq<Task>, peer: nat, queue: seq<Work>, lo: nat, hi: nat)
    requires WorksSound(fragments, SpansOf(tasks), peer, queue) && Tiles(Skeletons(queue), lo, hi)
    requires lo <= hi <= |Stream(tasks)|
    ensures QueueBytes(fragments, queue) == Range(Stream(tasks), lo, hi)
  {
    TiledIsEndToEnd(queue, |queue|, lo, hi);
    TakeAll(queue);
    QueueBytesAreWindow(fragments, tasks, peer, queue, lo, hi);
  }

  lemma PartConserves(
    c: Config, peer: nat, tasks: seq<Task>, fragments: seq<Fragment>, pr: PeerResult, g: Geometry, part: nat)
    requires ConfigDefect(c).None? && peer < c.worldSize && PeerLowered(c, peer, tasks, fragments, pr)
    requires StreamBytes(tasks) > 0 && g == GeometryFor(c, peer, StreamBytes(tasks))
    requires ValidGeometry(g) && part < g.channels
    ensures var lo, hi := PartLow(g.channels, part, StreamBytes(tasks)), PartHigh(g.channels, part, StreamBytes(tasks));
      lo <= hi <= |Stream(tasks)| && ChannelOf(g.base, part, g.total) < |pr.queues|
      && QueueBytes(fragments, pr.queues[ChannelOf(g.base, part, g.total)]) == Range(Stream(tasks), lo, hi)
  {
    var bytes := StreamBytes(tasks);
    PartsOnDistinctChannels(g.base, g.total);
    var channel := ChannelOf(g.base, part, g.total);
    StreamLength(tasks);
    ConnectionShape(
      g, bytes, SpansOf(tasks), fragments, peer, pr.queues[channel], part, InitialStep(c, peer, channel), pr.steps[channel]);
    TiledQueueBytes(
      fragments, tasks, peer, pr.queues[channel], PartLow(g.channels, part, bytes), PartHigh(g.channels, part, bytes));
  }

  ghost predicate PieceAt<T>(s: seq<T>, piece: seq<T>, bounds: seq<nat>, k: nat) {
    k + 1 < |bounds| && bounds[k] <= bounds[k + 1] <= |s| && piece == Range(s, bounds[k], bounds[k + 1])
  }

  /** Pieces cut at ascending bounds join to the prefix they cover. */
  lemma {:induction false} JoinPieces<T>(s: seq<T>, pieces: seq<seq<T>>, bounds: seq<nat>)
    requires |bounds| == |pieces| + 1 && bounds[0] == 0
    requires forall k: nat | k < |pieces| :: PieceAt(s, pieces[k], bounds, k)
    ensures bounds[|pieces|] <= |s| && Flatten(pieces) == Range(s, 0, bounds[|pieces|])
  {
    if pieces != [] {
      var n := |pieces| - 1;
      forall k: nat | k < n ensures PieceAt(s, pieces[..n][k], bounds[..n + 1], k) {
        assert PieceAt(s, pieces[k], bounds, k);
      }
      JoinPieces(s, pieces[..n], bounds[..n + 1]);
      assert PieceAt(s, pieces[n], bounds, n);
      RangeConcat(s, 0, bounds[n], bounds[n + 1]);
    }
  }

  function PartBounds(parts: nat, bytes: nat): seq<nat>
    requires parts > 0
  {
    seq(parts + 1, k requires 0 <= k <= parts => PartLow(parts, k, bytes))
  }

  /**
   Byte conservation: reading the channels of a peer in part order, work by work and
   fragment by fragment, gives the bytes of its tasks in task order, each exactly once.
   */
  lemma PeerBytesConserved(
    c: Config, active: seq<nat>, tasks: seq<Task>, s: Schedule, table: seq<PeerResult>, peer: nat)
    requires Lowered(c, active, tasks, s, table) && peer in active
    requires StreamBytes(TasksOf(tasks, peer)) > 0
    ensures var g := GeometryFor(c, peer, StreamBytes(TasksOf(tasks, peer)));
      ValidGeometry(g) && |table[peer].queues| == g.total
      && Flatten(PartBytesOf(s.fragments, g, table[peer])) == Stream(TasksOf(tasks, peer))
  {
    assert PeerLowered(c, peer, TasksOf(tasks, peer), s.fragments, table[peer]);
    PartsConserve(c, peer, TasksOf(tasks, peer), s.fragments, table[peer]);
  }

  lemma PartsConserve(c: Config, peer: nat, tasks: seq<Task>, fragments: seq<Fragment>, pr: PeerResult)
    requires ConfigDefect(c).None? && peer < c.worldSize && PeerLowered(c, peer, tasks, fragments, pr)
    requires StreamBytes(tasks) > 0
    ensures var g := GeometryFor(c, peer, StreamBytes(tasks));
      && ValidGeometry(g) && |pr.queues| == g.total && Flatten(PartBytesOf(fragments, g, pr)) == Stream(tasks)
  {
    var g := GeometryFor(c, peer, StreamBytes(tasks));
    var bounds, pieces := PartBounds(g.channels, StreamBytes(tasks)), PartBytesOf(fragments, g, pr);
    StreamLength(tasks);
    BoundsSpan(g.channels, StreamBytes(tasks));
    forall k: nat | k < g.channels ensures PieceAt(Stream(tasks), pieces[k], bounds, k) {
      PartConserves(c, peer, tasks, fragments, pr, g, k);
      PartEnds(g.channels, k, StreamBytes(tasks));
    }
    JoinPieces(Stream(tasks), pieces, bounds);
    RangeAll(Stream(tasks));
  }

  lemma BoundsSpan(parts: nat, bytes: nat)
    requires parts > 0
    ensures PartBounds(parts, bytes)[0] == 0 && PartBounds(parts, bytes)[parts] == bytes
  {
    PartsTile(parts, bytes);
  }

  lemma PartEnds(parts: nat, k: nat, bytes: nat)
    requires k < parts
    ensures PartHigh(parts, k, bytes) == PartLow(parts, k + 1, bytes)
  {
    PartsTile(parts, bytes);
  }

  /** Channels that carry no part of a peer's stream carry none of its works. */
  lemma NoStrayWorks(
    c: Config, active: seq<nat>, tasks: seq<Task>, s: Schedule, table: seq<PeerResult>, peer: nat, channel: nat)
    requires Lowered(c, active, tasks, s, table) && peer in active
    requires channel < c.totalChannels
    ensures var bytes := StreamBytes(TasksOf(tasks, peer));
      (bytes == 0 || PartOn(GeometryFor(c, peer, bytes).base, channel, c.totalChannels) >= GeometryFor(c, peer, bytes).channels)
      ==> table[peer].queues[channel] == [] && s.nextSteps[peer][channel] == InitialStep(c, peer, channel)
  {
    assert PeerLowered(c, peer, TasksOf(tasks, peer), s.fragments, table[peer]);
    if StreamBytes(TasksOf(tasks, peer)) > 0 {
      assert |Skeletons(table[peer].queues[channel])| == |table[peer].queues[channel]|;
    }
  }

  /**
   FIFO step streams: on every connection the works of a peer, in execution order, occupy
   consecutive steps from the initial step to the next one recorded, are numbered from
   zero, and the last one alone is final.
   */
  lemma StepsAreFifo(
    c: Config, active: seq<nat>, tasks: seq<Task>, s: Schedule, table: seq<PeerResult>, peer: nat, channel: nat)
    requires Lowered(c, active, tasks, s, table) && peer in active
    requires channel < c.totalChannels
    ensures var works := Skeletons(PeerWorksOn(table, active, c.totalChannels, channel, peer));
      && ConsecutiveSteps(works, InitialStep(c, peer, channel), s.nextSteps[peer][channel])
      && Numbered(works, 0, |works|)
  {
    var mine, bytes := TasksOf(tasks, peer), StreamBytes(TasksOf(tasks, peer));
    var queue := table[peer].queues[channel];
    ChannelKeepsQueues(c, active, tasks, s, table, channel, peer);
    assert PeerLowered(c, peer, mine, s.fragments, table[peer]);
    if bytes > 0 {
      var g := GeometryFor(c, peer, bytes);
      var part := PartOn(g.base, channel, g.total);
      if part < g.channels {
        ConnectionShape(
          g, bytes, SpansOf(mine), s.fragments, peer, queue, part, InitialStep(c, peer, channel),
          s.nextSteps[peer][channel]);
      } else {
        NoStrayWorks(c, active, tasks, s, table, peer, channel);
      }
    }
  }

  // ---------------------------------------------------------------- two ends

  /**
   Two-ended agreement: two ranks that agree on their pair's parameters and on the length
   of the stream between them, but not on the tasks it is made of, execute for each other
   the same sequence of works on every channel and end on the same FIFO steps.
   */
  lemma EndsAgree(
    a: Config, activeA: seq<nat>, tasksA: seq<Task>, sA: Schedule, tableA: seq<PeerResult>,
    b: Config, activeB: seq<nat>, tasksB: seq<Task>, sB: Schedule, tableB: seq<PeerResult>, channel: nat)
    requires PairAgrees(a, b) && Lowered(a, activeA, tasksA, sA, tableA) && Lowered(b, activeB, tasksB, sB, tableB)
    requires b.localRank in activeA && a.localRank in activeB && channel < a.totalChannels
    requires StreamBytes(TasksOf(tasksA, b.localRank)) == StreamBytes(TasksOf(tasksB, a.localRank))
    ensures Skeletons(PeerWorksOn(tableA, activeA, a.totalChannels, channel, b.localRank))
         == Skeletons(PeerWorksOn(tableB, activeB, b.totalChannels, channel, a.localRank))
    ensures |sA.nextSteps[b.localRank]| == |sB.nextSteps[a.localRank]| == a.totalChannels
    ensures sA.nextSteps[b.localRank][channel] == sB.nextSteps[a.localRank][channel]
  {
    var ra, rb := a.localRank, b.localRank;
    var bytes := StreamBytes(TasksOf(tasksA, rb));
    ChannelKeepsQueues(a, activeA, tasksA, sA, tableA, channel, rb);
    ChannelKeepsQueues(b, activeB, tasksB, sB, tableB, channel, ra);
    assert PeerLowered(a, rb, TasksOf(tasksA, rb), sA.fragments, tableA[rb]);
    assert PeerLowered(b, ra, TasksOf(tasksB, ra), sB.fragments, tableB[ra]);
    if bytes > 0 {
      GeometryAgrees(a, b, bytes);
    }
  }

  lemma StepsOfPeer(c: Config, active: seq<nat>, tasks: seq<Task>, s: Schedule, table: seq<PeerResult>, p: nat)
    requires Lowered(c, active, tasks, s, table) && p < c.worldSize
    ensures |s.nextSteps| == c.worldSize && |s.nextSteps[p]| == c.totalChannels
  {
    assert s.nextSteps[p] == table[p].steps;
    if p in active {
      assert PeerLowered(c, p, TasksOf(tasks, p), s.fragments, table[p]);
    } else {
      assert InitialStep(c, p, 0) >= 0;
    }
  }

  /** The next steps of a lowering are a sound table of initial steps for the next. */
  lemma NextStepsAreSound(c: Config, active: seq<nat>, tasks: seq<Task>, s: Schedule, table: seq<PeerResult>)
    requires Lowered(c, active, tasks, s, table)
    ensures ConfigDefect(c.(initialSteps := s.nextSteps)).None?
  {
    forall p: nat | p < c.worldSize ensures |s.nextSteps| == c.worldSize && |s.nextSteps[p]| == c.totalChannels {
      StepsOfPeer(c, active, tasks, s, table, p);
    }
    StepTableIsSound(c, s.nextSteps);
  }

  lemma StepTableIsSound(c: Config, steps: seq<seq<nat>>)
    requires ConfigDefect(c).None? && |steps| == c.worldSize && forall p | 0 <= p < |steps| :: |steps[p]| == c.totalChannels
    ensures ConfigDefect(c.(initialSteps := steps)).None?
  {
  }

  /** One round's next steps are the next round's initial steps, so agreement lasts over any number of rounds. */
  lemma AgreementLasts(
    a: Config, activeA: seq<nat>, tasksA: seq<Task>, sA: Schedule, tableA: seq<PeerResult>,
    b: Config, activeB: seq<nat>, tasksB: seq<Task>, sB: Schedule, tableB: seq<PeerResult>, nextA: Config, nextB: Config)
    requires PairAgrees(a, b) && Lowered(a, activeA, tasksA, sA, tableA) && Lowered(b, activeB, tasksB, sB, tableB)
    requires b.localRank in activeA && a.localRank in activeB
    requires StreamBytes(TasksOf(tasksA, b.localRank)) == StreamBytes(TasksOf(tasksB, a.localRank))
    requires nextA == a.(initialSteps := sA.nextSteps) && nextB == b.(initialSteps := sB.nextSteps)
    ensures PairAgrees(nextA, nextB)
  {
    NextStepsAreSound(a, activeA, tasksA, sA, tableA);
    NextStepsAreSound(b, activeB, tasksB, sB, tableB);
    forall channel: nat | channel < a.totalChannels
      ensures InitialStep(nextA, b.localRank, channel) == InitialStep(nextB, a.localRank, channel)
    {
      EndsAgree(a, activeA, tasksA, sA, tableA, b, activeB, tasksB, sB, tableB, channel);
    }
  }
}
