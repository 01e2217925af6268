/**
 The device v2 lowering: from a rank's ordered task list to channel works, FIFO steps,
 fragments and batches.
 */
module Lowering {
  import opened Basics
  import opened SequenceFacts
  import opened PowersOfTwo
  import opened StreamPartition
  import opened PeerLowering
  import Sequences
  import Scheduler = BatchScheduler

  const MAX_WORLD: nat := 256
  const MAX_WORKS_PER_BATCH: nat := 8

  /** One rank's view of the transport; the per-peer tables are indexed by rank. */
  datatype Config = Config(
    localRank: nat, worldSize: nat, totalChannels: nat,
    fifoDepth: nat, chunkBytes: nat, stepBytes: nat,
    ginFifoDepth: nat, ginChunkBytes: nat, networkStepBytes: nat,
    peerChannels: seq<nat>, peerIsGin: seq<bool>, initialSteps: seq<seq<nat>>)

  /** The configuration checks, in the order in which they are made. */
  function ConfigDefect(c: Config): Option<LoweringError> {
    if c.worldSize == 0 || c.worldSize > MAX_WORLD || c.localRank >= c.worldSize then Some(InvalidRank)
    else if c.totalChannels == 0 || c.totalChannels > MAX_CHANNELS || !IsPowerOfTwo(c.totalChannels) then Some(InvalidChannels)
    else if |c.peerChannels| != c.worldSize then Some(PeerTableMismatch)
    else if |c.peerIsGin| != c.worldSize then Some(TransportTableMismatch)
    else if c.fifoDepth == 0 || c.ginFifoDepth == 0 || c.stepBytes == 0 || c.networkStepBytes == 0
            || c.stepBytes > MAX_U32 || c.networkStepBytes > MAX_U32 then Some(InvalidSteps)
    else if (c.chunkBytes != 0 && c.chunkBytes < c.stepBytes)
            || (c.ginChunkBytes != 0 && c.ginChunkBytes < c.networkStepBytes) then Some(InvalidChunkBytes)
    else if c.initialSteps != []
            && (|c.initialSteps| != c.worldSize
                || exists p | 0 <= p < |c.initialSteps| :: |c.initialSteps[p]| != c.totalChannels) then Some(InvalidStepTable)
    else None
  }

  function InitialStep(c: Config, peer: nat, channel: nat): nat
    requires ConfigDefect(c).None? && peer < c.worldSize && channel < c.totalChannels
  {
    if c.initialSteps == [] then 1 else c.initialSteps[peer][channel]
  }

  // ---------------------------------------------------------------- the geometry of one connection

  /** Everything about a peer's stream that does not depend on task boundaries. */
  datatype Geometry = Geometry(
    channels: nat, base: nat, total: nat, chunkBytes: nat, stepBytes: nat, fifoDepth: nat)

  /** Halves the channel minimum until the world fits the channel total. */
  function HalveToFit(channels: nat, world: nat, total: nat): nat {
    if channels * world > total && channels > 1 then HalveToFit(channels / 2, world, total) else channels
  }

  lemma {:induction false} HalveToFitBounds(channels: nat, world: nat, total: nat)
    requires channels > 0
    ensures 0 < HalveToFit(channels, world, total) <= channels
  {
    if channels * world > total && channels > 1 { HalveToFitBounds(channels / 2, world, total); }
  }

  function GeometryFor(c: Config, peer: nat, bytes: nat): Geometry
    requires ConfigDefect(c).None? && peer < c.worldSize && bytes > 0
  {
    var network := c.peerIsGin[peer];
    var planningStep := if network then c.networkStepBytes else c.stepBytes;
    var maxChannels := Max(1, Min(c.peerChannels[peer], c.totalChannels));
    var minChannels := HalveToFit(maxChannels, c.worldSize, c.totalChannels);
    var channels := ChannelsFor(bytes, minChannels, maxChannels, planningStep, network);
    HalveToFitBounds(maxChannels, c.worldSize, c.totalChannels);
    ChannelsForMeaning(bytes, minChannels, maxChannels, planningStep, network);
    Geometry(
      channels,
      if network then GinBase(c.localRank, peer, c.totalChannels, channels)
      else LsaBase(c.localRank, peer, c.worldSize, Log2(c.totalChannels)),
      c.totalChannels,
      if network then c.ginChunkBytes else c.chunkBytes,
      TransferStep(bytes, planningStep, network),
      if network then c.ginFifoDepth else c.fifoDepth)
  }

  ghost predicate ValidGeometry(g: Geometry) {
    1 <= g.channels <= g.total && g.base < g.total && g.stepBytes > 0
  }

  lemma GeometryIsValid(c: Config, peer: nat, bytes: nat)
    requires ConfigDefect(c).None? && peer < c.worldSize && bytes > 0
    ensures ValidGeometry(GeometryFor(c, peer, bytes))
    ensures GeometryFor(c, peer, bytes).total == c.totalChannels
    ensures GeometryFor(c, peer, bytes).stepBytes <= MAX_U32
  {
    var g := GeometryFor(c, peer, bytes);
    var maxChannels := Max(1, Min(c.peerChannels[peer], c.totalChannels));
    HalveToFitBounds(maxChannels, c.worldSize, c.totalChannels);
    var network := c.peerIsGin[peer];
    ChannelsForMeaning(
      bytes, HalveToFit(maxChannels, c.worldSize, c.totalChannels), maxChannels,
      if network then c.networkStepBytes else c.stepBytes, network);
    BasesAgree(c.localRank, peer, c.worldSize, Log2(c.totalChannels), g.channels);
  }

  /** The works of one part of the stream. */
  function PartWorks(g: Geometry, bytes: nat, part: nat, step: nat): seq<Skeleton>
    requires ValidGeometry(g) && part < g.channels
  {
    var lo, hi := PartLow(g.channels, part, bytes), PartHigh(g.channels, part, bytes);
    if hi <= lo then []
    else
      var chunk := if g.chunkBytes == 0 then hi - lo else g.chunkBytes;
      Works(lo, hi, chunk, g.stepBytes, g.fifoDepth, 0, DivUp(hi - lo, chunk), step)
  }

  /** The works on one channel of a peer whose stream has this many bytes. */
  function ConnectionWorks(g: Geometry, bytes: nat, channel: nat, step: nat): seq<Skeleton>
    requires ValidGeometry(g) && channel < g.total
  {
    var part := PartOn(g.base, channel, g.total);
    if part < g.channels then PartWorks(g, bytes, part, step) else []
  }

  /** The two ends have the same settings and the same FIFO steps for each other. */
  ghost predicate SameSettings(a: Config, b: Config) {
    && ConfigDefect(a).None? && ConfigDefect(b).None?
    && a.worldSize == b.worldSize && a.totalChannels == b.totalChannels
    && a.peerIsGin[b.localRank] == b.peerIsGin[a.localRank]
    && a.fifoDepth == b.fifoDepth && a.chunkBytes == b.chunkBytes && a.stepBytes == b.stepBytes
    && a.ginFifoDepth == b.ginFifoDepth && a.ginChunkBytes == b.ginChunkBytes && a.networkStepBytes == b.networkStepBytes
    && forall channel: nat | channel < a.totalChannels ::
         InitialStep(a, b.localRank, channel) == InitialStep(b, a.localRank, channel)
  }

  /** The two ends agree on everything that shapes their connection, the channel count included. */
  ghost predicate PairAgrees(a: Config, b: Config) {
    SameSettings(a, b) && a.peerChannels[b.localRank] == b.peerChannels[a.localRank]
  }

  /** Both ends cut a stream of the same length alike, whatever tasks it is made of. */
  lemma GeometryAgrees(a: Config, b: Config, bytes: nat)
    requires PairAgrees(a, b) && bytes > 0
    ensures GeometryFor(a, b.localRank, bytes) == GeometryFor(b, a.localRank, bytes)
  {
    GeometryIsValid(a, b.localRank, bytes);
    var g := GeometryFor(a, b.localRank, bytes);
    BasesAgree(a.localRank, b.localRank, a.worldSize, Log2(a.totalChannels), g.channels);
  }

  // ---------------------------------------------------------------- the state of a lowering

  /** The fragments a work refers to. */
  ghost predicate WorkSound(fragments: seq<Fragment>, spans: seq<Span>, w: Work) {
    && w.fragmentBegin + w.fragmentCount <= |fragments|
    && Range(fragments, w.fragmentBegin, w.fragmentBegin + w.fragmentCount)
       == FragmentsFor(spans, w.streamOffset, w.streamOffset + w.nbytes)
  }

  ghost predicate WorksSound(fragments: seq<Fragment>, spans: seq<Span>, peer: nat, works: seq<Work>) {
    forall i | 0 <= i < |works| :: works[i].peer == peer && WorkSound(fragments, spans, works[i])
  }

  lemma SoundnessIsStable(fragments: seq<Fragment>, more: seq<Fragment>, spans: seq<Span>, peer: nat, works: seq<Work>)
    requires WorksSound(fragments, spans, peer, works) && fragments <= more
    ensures WorksSound(more, spans, peer, works)
  {
    forall i | 0 <= i < |works| ensures WorkSound(more, spans, works[i]) {
      var w := works[i];
      assert WorkSound(fragments, spans, w);
      assert Range(more, w.fragmentBegin, w.fragmentBegin + w.fragmentCount)
          == Range(fragments, w.fragmentBegin, w.fragmentBegin + w.fragmentCount);
    }
  }

  function Unfinal(s: Skeleton): Skeleton { s.(isFinal := false) }

  function UnfinalAll(works: seq<Skeleton>): seq<Skeleton> {
    seq(|works|, i requires 0 <= i < |works| => Unfinal(works[i]))
  }

  class LoweringState {
    var fragments: seq<Fragment>
    var chunkCount: nat

    constructor ()
      ensures fragments == [] && chunkCount == 0
    {
      fragments := [];
      chunkCount := 0;
    }

    /** Appends the fragments of the stream range [b, e) and returns where they are. */
    method AppendFragments(spans: seq<Span>, b: nat, e: nat) returns (r: Result<(nat, nat), LoweringError>)
      requires b < e && forall i | 0 <= i < |spans| :: spans[i].begin < spans[i].end
      modifies this`fragments
      ensures fragments == old(fragments) + FragmentsFor(spans, b, e)
      ensures r == if 0 < |FragmentsFor(spans, b, e)| <= MAX_U32
                   then Ok((|old(fragments)|, |FragmentsFor(spans, b, e)|)) else Err(InvalidFragmentRange)
    {
      var fragmentBegin := |fragments|;
      for i := 0 to |spans|
        invariant fragments == old(fragments) + FragmentsFor(spans[..i], b, e)
      {
        TakeInit(spans, i);
        var span := spans[i];
        if span.end <= b || e <= span.begin {
          continue;
        }
        var begin := Max(span.begin, b);
        var end := Min(span.end, e);
        var t := span.task;
        fragments := fragments
          + [Fragment(t.ptr, end - begin, t.offset + begin - span.begin, t.rowBytes, t.rowStride, begin - b)];
      }
      TakeAll(spans);
      var fragmentCount := |fragments| - fragmentBegin;
      if fragmentCount == 0 || fragmentCount > MAX_U32 {
        return Err(InvalidFragmentRange);
      }
      return Ok((fragmentBegin, fragmentCount));
    }

    /** Emits the work of one chunk, without knowing yet whether it is the last. */
    method LowerChunk(
      peer: nat, spans: seq<Span>, ghost tasks: seq<Task>, p: PartPlan, count: nat, c: nat, begin: nat, end: nat,
      step: nat)
      returns (r: Result<Work, LoweringError>)
      requires spans == SpansOf(tasks) && begin < end <= StreamBytes(tasks)
      modifies this
      ensures old(fragments) <= fragments
      ensures r.Err? ==> |spans| > MAX_U32
      ensures r.Ok? ==>
        && r.value.peer == peer && WorkSound(fragments, spans, r.value)
        && SkeletonOf(r.value) == Skeleton(c, count, false, p.stepBytes, p.fifoDepth, begin, end - begin, step)
        && chunkCount == old(chunkCount) + 1
    {
      ChunkHasFragments(tasks, spans, begin, end);
      var range := AppendFragments(spans, begin, end);
      if range.Err? {
        return Err(range.error);
      }
      chunkCount := chunkCount + 1;
      return Ok(Work(
        peer, range.value.0, range.value.1, c, count, false, p.stepBytes, p.fifoDepth, begin, end - begin, step));
    }

    /** Cuts one part of the stream into works on one channel. */
    method LowerPart(peer: nat, spans: seq<Span>, ghost tasks: seq<Task>, p: PartPlan)
      returns (r: Result<seq<Work>, LoweringError>, nextStep: nat)
      requires spans == SpansOf(tasks) && p.lo < p.hi <= StreamBytes(tasks) && p.chunk > 0 && p.stepBytes > 0
      modifies this
      ensures old(fragments) <= fragments
      ensures r.Err? ==> |spans| > MAX_U32 || DivUp(p.hi - p.lo, p.chunk) > MAX_U32
      ensures r.Ok? ==> ConnectionLowered(Planned(p), fragments, spans, peer, r.value, p.firstStep, nextStep)
      ensures r.Ok? ==> chunkCount == old(chunkCount) + |r.value|
    {
      nextStep := p.firstStep;
      var count := DivUp(p.hi - p.lo, p.chunk);
      if count > MAX_U32 {
        return Err(TooManyChunks), nextStep;
      }
      var queue: seq<Work> := [];
      PartStart(p);
      for c := 0 to count
        invariant PartSoFar(p, queue, c, nextStep)
        invariant old(fragments) <= fragments && WorksSound(fragments, spans, peer, queue)
        invariant chunkCount == old(chunkCount) + |queue|
      {
        ChunkInside(p, c);
        var chunkBegin := p.lo + c * p.chunk;
        var chunkEnd := Min(chunkBegin + p.chunk, p.hi);
        ghost var before := fragments;
        var work := LowerChunk(peer, spans, tasks, p, count, c, chunkBegin, chunkEnd, nextStep);
        if work.Err? {
          return Err(work.error), nextStep;
        }
        PartStep(p, queue, c, nextStep, work.value);
        SoundnessIsStable(before, fragments, spans, peer, queue);
        nextStep := nextStep + DivUp(work.value.nbytes, p.stepBytes);
        queue := queue + [work.value];
      }
      PartEnd(p, fragments, spans, peer, queue, count, nextStep);
      return Ok(queue[|queue| - 1 := queue[|queue| - 1].(isFinal := true)]), nextStep;
    }

    /** Concatenates a peer's tasks into one stream, refusing a total that does not fit 64 bits. */
    method BuildSpans(tasks: seq<Task>) returns (r: Result<(seq<Span>, nat), LoweringError>)
      ensures r == if StreamBytes(tasks) > MAX_U64 then Err(StreamOverflow) else Ok((SpansOf(tasks), StreamBytes(tasks)))
    {
      var spans: seq<Span> := [];
      var streamBytes: nat := 0;
      for i := 0 to |tasks|
        invariant streamBytes == StreamBytes(tasks[..i]) <= MAX_U64
        invariant spans == SpansOf(tasks[..i])
      {
        TakeInit(tasks, i);
        if tasks[i].nbytes > MAX_U64 - streamBytes {
          StreamBytesMonotone(tasks, i + 1);
          return Err(StreamOverflow);
        }
        if tasks[i].nbytes != 0 {
          spans := spans + [Span(tasks[i], streamBytes, streamBytes + tasks[i].nbytes)];
        }
        streamBytes := streamBytes + tasks[i].nbytes;
      }
      TakeAll(tasks);
      return Ok((spans, streamBytes));
    }

    method PickChannel(base: nat, part: nat, total: nat) returns (channel: nat)
      requires base < total && part < total
      ensures channel == ChannelOf(base, part, total) < total && PartOn(base, channel, total) == part
    {
      ChannelIsModulo(base, part, total);
      channel := (base + part) % total;
    }

    /** The range of a part and how it is cut. */
    method PlanPart(g: Geometry, bytes: nat, part: nat, firstStep: nat) returns (plan: PartPlan)
      requires ValidGeometry(g) && part < g.channels
      ensures plan.firstStep == firstStep && plan.stepBytes > 0 && plan.lo <= plan.hi <= bytes
      ensures plan.lo == plan.hi ==> PartWorks(g, bytes, part, firstStep) == []
      ensures plan.lo < plan.hi ==> plan.chunk > 0 && PartWorks(g, bytes, part, firstStep) == Planned(plan)
      ensures plan.lo < plan.hi && DivUp(plan.hi - plan.lo, plan.chunk) > MAX_U32 ==> TooManyChunksIn(g, bytes)
    {
      var lo, hi := PartLow(g.channels, part, bytes), PartHigh(g.channels, part, bytes);
      PartInside(g.channels, part, bytes);
      var chunk := if g.chunkBytes == 0 then hi - lo else g.chunkBytes;
      plan := PartPlan(lo, hi, chunk, g.stepBytes, g.fifoDepth, firstStep);
      PlanMeaning(g, bytes, part, lo, hi, plan);
    }

    /** Lowers one part of the peer's stream onto its channel, if the part is not empty. */
    method LowerPartOnChannel(
      g: Geometry, peer: nat, spans: seq<Span>, ghost tasks: seq<Task>, bytes: nat, part: nat, before: PeerResult,
      ghost init: seq<nat>)
      returns (r: Result<PeerResult, LoweringError>)
      requires ValidGeometry(g) && part < g.channels && spans == SpansOf(tasks) && bytes == StreamBytes(tasks)
      requires PartsLowered(g, peer, spans, bytes, fragments, before, init, part)
      modifies this
      ensures old(fragments) <= fragments
      ensures r.Err? ==> |spans| > MAX_U32 || TooManyChunksIn(g, bytes)
      ensures r.Ok? ==> PartsLowered(g, peer, spans, bytes, fragments, r.value, init, part + 1)
    {
      var channel := PickChannel(g.base, part, g.total);
      var plan := PlanPart(g, bytes, part, before.steps[channel]);
      if plan.lo == plan.hi {
        PartLands(g, peer, spans, bytes, fragments, fragments, before, before, init, part, channel);
        return Ok(before);
      }
      ghost var known := fragments;
      var works, next := LowerPart(peer, spans, tasks, plan);
      if works.Err? {
        return Err(works.error);
      }
      var after := PeerResult(
        before.queues[channel := works.value], before.steps[channel := next], before.channelCount);
      PartLands(g, peer, spans, bytes, known, fragments, before, after, init, part, channel);
      return Ok(after);
    }

    method LowerPeer(c: Config, peer: nat, tasks: seq<Task>) returns (r: Result<PeerResult, LoweringError>)
      requires ConfigDefect(c).None? && peer < c.worldSize
      modifies this
      ensures old(fragments) <= fragments
      ensures r.Err? ==> PeerTooLarge(c, peer, tasks)
      ensures r.Ok? ==> PeerLowered(c, peer, tasks, fragments, r.value)
    {
      var stream := BuildSpans(tasks);
      if stream.Err? {
        return Err(stream.error);
      }
      var spans, bytes := stream.value.0, stream.value.1;
      var init := seq(c.totalChannels, channel requires 0 <= channel < c.totalChannels => InitialStep(c, peer, channel));
      var result := PeerResult(seq(c.totalChannels, _ => []), init, 0);
      if bytes == 0 {
        return Ok(result);
      }
      var g := GeometryFor(c, peer, bytes);
      GeometryIsValid(c, peer, bytes);
      SpansNonEmpty(tasks);
      result := result.(channelCount := g.channels);
      for part := 0 to g.channels
        invariant old(fragments) <= fragments
        invariant PartsLowered(g, peer, spans, bytes, fragments, result, init, part)
      {
        var next := LowerPartOnChannel(g, peer, spans, tasks, bytes, part, result, init);
        if next.Err? {
          return Err(next.error);
        }
        result := next.value;
      }
      return Ok(result);
    }
  }

  // ---------------------------------------------------------------- one peer

  /** One peer's works and next FIFO steps by channel, and the number of channels it was given. */
  datatype PeerResult = PeerResult(queues: seq<seq<Work>>, steps: seq<nat>, channelCount: nat)

  ghost predicate ConnectionLowered(
    works: seq<Skeleton>, fragments: seq<Fragment>, spans: seq<Span>, peer: nat, queue: seq<Work>, first: nat, next: nat)
  {
    && Skeletons(queue) == works
    && next == FinalStep(works, first)
    && WorksSound(fragments, spans, peer, queue)
  }

  /** The parts below done are on their channels; the other channels are untouched. */
  ghost predicate PartsLowered(
    g: Geometry, peer: nat, spans: seq<Span>, bytes: nat, fragments: seq<Fragment>, pr: PeerResult, init: seq<nat>,
    done: nat)
    requires ValidGeometry(g)
  {
    && |pr.queues| == |pr.steps| == |init| == g.total && pr.channelCount == g.channels && done <= g.channels
    && forall channel: nat | channel < g.total ::
      ConnectionLowered(
        if PartOn(g.base, channel, g.total) < done then ConnectionWorks(g, bytes, channel, init[channel]) else [],
        fragments, spans, peer, pr.queues[channel], init[channel], pr.steps[channel])
  }

  ghost predicate TooManyChunksIn(g: Geometry, bytes: nat)
    requires ValidGeometry(g)
  {
    exists part: nat | part < g.channels ::
      var lo, hi := PartLow(g.channels, part, bytes), PartHigh(g.channels, part, bytes);
      lo < hi && DivUp(hi - lo, if g.chunkBytes == 0 then hi - lo else g.chunkBytes) > MAX_U32
  }

  /** The only reasons for a valid configuration to refuse a peer's tasks. */
  ghost predicate PeerTooLarge(c: Config, peer: nat, tasks: seq<Task>)
    requires ConfigDefect(c).None? && peer < c.worldSize
  {
    var bytes := StreamBytes(tasks);
    || bytes > MAX_U64
    || |tasks| > MAX_U32
    || (bytes > 0 && ValidGeometry(GeometryFor(c, peer, bytes)) && TooManyChunksIn(GeometryFor(c, peer, bytes), bytes))
  }

  /** Every connection of the peer carries exactly its planned works, with sound fragments. */
  ghost predicate PeerLowered(c: Config, peer: nat, tasks: seq<Task>, fragments: seq<Fragment>, pr: PeerResult)
    requires ConfigDefect(c).None? && peer < c.worldSize
  {
    && |pr.queues| == |pr.steps| == c.totalChannels
    && (StreamBytes(tasks) == 0 ==>
          pr.channelCount == 0 && forall channel: nat | channel < c.totalChannels ::
            pr.queues[channel] == [] && pr.steps[channel] == InitialStep(c, peer, channel))
    && (StreamBytes(tasks) > 0 ==>
          var g := GeometryFor(c, peer, StreamBytes(tasks));
          && ValidGeometry(g) && g.total == c.totalChannels && pr.channelCount == g.channels
          && forall channel: nat | channel < c.totalChannels ::
            ConnectionLowered(
              ConnectionWorks(g, StreamBytes(tasks), channel, InitialStep(c, peer, channel)),
              fragments, SpansOf(tasks), peer, pr.queues[channel], InitialStep(c, peer, channel), pr.steps[channel]))
  }

  lemma {:induction false} StreamBytesMonotone(tasks: seq<Task>, i: nat)
    requires i <= |tasks|
    ensures StreamBytes(tasks[..i]) <= StreamBytes(tasks)
  {
    if i < |tasks| {
      StreamBytesMonotone(tasks[..|tasks| - 1], i);
      assert tasks[..|tasks| - 1][..i] == tasks[..i];
    } else {
      assert tasks[..i] == tasks;
    }
  }

  lemma PartLands(
    g: Geometry, peer: nat, spans: seq<Span>, bytes: nat, known: seq<Fragment>, fragments: seq<Fragment>,
    before: PeerResult, after: PeerResult, init: seq<nat>, part: nat, channel: nat)
    requires ValidGeometry(g) && part < g.channels && known <= fragments
    requires PartsLowered(g, peer, spans, bytes, known, before, init, part)
    requires channel == ChannelOf(g.base, part, g.total)
    requires after.channelCount == before.channelCount && |after.queues| == |after.steps| == g.total
    requires forall ch: nat | ch < g.total && ch != channel ::
      after.queues[ch] == before.queues[ch] && after.steps[ch] == before.steps[ch]
    requires ConnectionLowered(
      PartWorks(g, bytes, part, init[channel]), fragments, spans, peer, after.queues[channel], init[channel],
      after.steps[channel])
    ensures PartsLowered(g, peer, spans, bytes, fragments, after, init, part + 1)
  {
    PartsOnDistinctChannels(g.base, g.total);
    forall ch: nat | ch < g.total
      ensures ConnectionLowered(
        if PartOn(g.base, ch, g.total) < part + 1 then ConnectionWorks(g, bytes, ch, init[ch]) else [],
        fragments, spans, peer, after.queues[ch], init[ch], after.steps[ch])
    {
      if ch != channel {
        SoundnessIsStable(known, fragments, spans, peer, before.queues[ch]);
      }
    }
  }

  // ---------------------------------------------------------------- one part

  datatype PartPlan = PartPlan(lo: nat, hi: nat, chunk: nat, stepBytes: nat, fifoDepth: nat, firstStep: nat)

  /** The works of a part. */
  function Planned(p: PartPlan): seq<Skeleton>
    requires p.chunk > 0 && p.stepBytes > 0 && p.lo <= p.hi
  {
    Works(p.lo, p.hi, p.chunk, p.stepBytes, p.fifoDepth, 0, DivUp(p.hi - p.lo, p.chunk), p.firstStep)
  }

  /** The works of a part from chunk c on. */
  function PlannedFrom(p: PartPlan, c: nat, step: nat): seq<Skeleton>
    requires p.chunk > 0 && p.stepBytes > 0 && p.lo <= p.hi
  {
    Works(
      Min(p.lo + c * p.chunk, p.hi), p.hi, p.chunk, p.stepBytes, p.fifoDepth, c, DivUp(p.hi - p.lo, p.chunk), step)
  }

  /** The first c works are queued, none marked final yet. */
  ghost predicate PartSoFar(p: PartPlan, queue: seq<Work>, c: nat, step: nat)
    requires p.chunk > 0 && p.stepBytes > 0 && p.lo <= p.hi
  {
    && |queue| == c
    && Skeletons(queue) + UnfinalAll(PlannedFrom(p, c, step)) == UnfinalAll(Planned(p))
    && step == FinalStep(Skeletons(queue), p.firstStep)
  }

  lemma PartStart(p: PartPlan)
    requires p.chunk > 0 && p.stepBytes > 0 && p.lo <= p.hi
    ensures PartSoFar(p, [], 0, p.firstStep)
  {
    assert p.lo + 0 * p.chunk == p.lo;
    assert Skeletons([]) == [];
  }

  lemma ChunkInside(p: PartPlan, c: nat)
    requires p.chunk > 0 && p.lo < p.hi && c < DivUp(p.hi - p.lo, p.chunk)
    ensures p.lo + c * p.chunk < p.hi
    ensures Min(p.lo + (c + 1) * p.chunk, p.hi) == Min(p.lo + c * p.chunk + p.chunk, p.hi)
  {
    DivUpIsLeastCover(p.hi - p.lo, p.chunk, c);
    assert (c + 1) * p.chunk == c * p.chunk + p.chunk;
  }

  lemma PartStep(p: PartPlan, queue: seq<Work>, c: nat, step: nat, work: Work)
    requires p.chunk > 0 && p.stepBytes > 0 && p.lo < p.hi && c < DivUp(p.hi - p.lo, p.chunk)
    requires PartSoFar(p, queue, c, step) && p.lo + c * p.chunk < p.hi
    requires var begin := p.lo + c * p.chunk;
      SkeletonOf(work)
      == Skeleton(
           c, DivUp(p.hi - p.lo, p.chunk), false, p.stepBytes, p.fifoDepth, begin, Min(begin + p.chunk, p.hi) - begin, step)
    ensures PartSoFar(p, queue + [work], c + 1, step + DivUp(work.nbytes, p.stepBytes))
  {
    ChunkInside(p, c);
    var begin := p.lo + c * p.chunk;
    QueueGrows(
      queue, work, begin, p.hi, p.chunk, p.stepBytes, p.fifoDepth, c, DivUp(p.hi - p.lo, p.chunk), step, Planned(p));
  }

  lemma PartInside(parts: nat, part: nat, bytes: nat)
    requires part < parts
    ensures PartLow(parts, part, bytes) <= PartHigh(parts, part, bytes) <= bytes
  {
    PartsTile(parts, bytes);
  }

  /** The plan of a part gives its works, and asks for too many chunks only if the part does. */
  lemma PlanMeaning(g: Geometry, bytes: nat, part: nat, lo: nat, hi: nat, plan: PartPlan)
    requires ValidGeometry(g) && part < g.channels && lo <= hi
    requires lo == PartLow(g.channels, part, bytes) && hi == PartHigh(g.channels, part, bytes)
    requires plan.lo == lo && plan.hi == hi && plan.stepBytes == g.stepBytes > 0 && plan.fifoDepth == g.fifoDepth
    requires plan.chunk == if g.chunkBytes == 0 then hi - lo else g.chunkBytes
    ensures lo == hi ==> PartWorks(g, bytes, part, plan.firstStep) == []
    ensures lo < hi ==> plan.chunk > 0 && PartWorks(g, bytes, part, plan.firstStep) == Planned(plan)
    ensures lo < hi && DivUp(hi - lo, plan.chunk) > MAX_U32 ==> TooManyChunksIn(g, bytes)
  {
  }

  lemma FinalSkeletons(queue: seq<Work>, all: seq<Skeleton>)
    requires queue != [] && Skeletons(queue) == UnfinalAll(all) && all[|all| - 1].isFinal
    requires forall i | 0 <= i < |all| - 1 :: !all[i].isFinal
    ensures Skeletons(queue[|queue| - 1 := queue[|queue| - 1].(isFinal := true)]) == all
  {
    var done := queue[|queue| - 1 := queue[|queue| - 1].(isFinal := true)];
    assert |all| == |UnfinalAll(all)| == |queue|;
    forall i | 0 <= i < |queue| ensures Skeletons(done)[i] == all[i] {
      assert Skeletons(queue)[i] == Unfinal(all[i]);
    }
  }

  /** With all chunks cut, the queue holds the part's works but for the final mark. */
  lemma PartQueued(p: PartPlan, queue: seq<Work>, count: nat, step: nat) returns (all: seq<Skeleton>)
    requires p.chunk > 0 && p.stepBytes > 0 && p.lo < p.hi && count == DivUp(p.hi - p.lo, p.chunk)
    requires PartSoFar(p, queue, count, step)
    ensures all == Planned(p) && all != [] && Skeletons(queue) == UnfinalAll(all)
    ensures all[|all| - 1].isFinal && forall i | 0 <= i < |all| - 1 :: !all[i].isFinal
    ensures step == FinalStep(Skeletons(queue), p.firstStep)
  {
    all := Planned(p);
    DivUpCovers(p.hi - p.lo, p.chunk);
    assert PlannedFrom(p, count, step) == [];
    assert Skeletons(queue) == UnfinalAll(all);
    WorksAreStream(p.lo, p.hi, p.chunk, p.stepBytes, p.fifoDepth, 0, count, p.firstStep);
  }

  /** Marking the last queued work final completes the part. */
  lemma PartEnd(
    p: PartPlan, fragments: seq<Fragment>, spans: seq<Span>, peer: nat, queue: seq<Work>, count: nat, step: nat)
    requires p.chunk > 0 && p.stepBytes > 0 && p.lo < p.hi && count == DivUp(p.hi - p.lo, p.chunk)
    requires PartSoFar(p, queue, count, step) && WorksSound(fragments, spans, peer, queue)
    ensures queue != []
    ensures ConnectionLowered(
      Planned(p), fragments, spans, peer, queue[|queue| - 1 := queue[|queue| - 1].(isFinal := true)], p.firstStep, step)
  {
    var all := PartQueued(p, queue, count, step);
    assert |queue| == |Skeletons(queue)| == |all|;
    FinalSkeletons(queue, all);
    assert Skeletons(queue)[|queue| - 1] == Unfinal(all[|all| - 1]);
  }

  lemma {:induction false} SpansNonEmpty(tasks: seq<Task>)
    ensures forall i | 0 <= i < |SpansOf(tasks)| :: SpansOf(tasks)[i].begin < SpansOf(tasks)[i].end
    ensures |SpansOf(tasks)| <= |tasks|
  {
    if tasks != [] { SpansNonEmpty(tasks[..|tasks| - 1]); }
  }

  lemma ChunkHasFragments(tasks: seq<Task>, spans: seq<Span>, b: nat, e: nat)
    requires spans == SpansOf(tasks) && b < e <= StreamBytes(tasks)
    ensures 0 < |FragmentsFor(spans, b, e)| <= |spans|
    ensures forall i | 0 <= i < |spans| :: spans[i].begin < spans[i].end
  {
    SpansNonEmpty(tasks);
    WindowHasFragments(tasks, b, e);
    FragmentCountBound(spans, b, e);
  }

  /** A work inside the stream always has a fragment, so the range error cannot be about an empty one. */
  lemma WindowHasFragments(tasks: seq<Task>, b: nat, e: nat)
    requires b < e <= StreamBytes(tasks)
    ensures FragmentsFor(SpansOf(tasks), b, e) != []
  {
    FragmentsAreWindow(tasks, b, e);
    StreamLength(tasks);
    assert |Window(Stream(tasks), b, e)| == e - b;
  }

  lemma QueueGrows(
    queue: seq<Work>, work: Work, at: nat, hi: nat, chunk: nat, stepBytes: nat, fifoDepth: nat, c: nat, count: nat,
    step: nat, all: seq<Skeleton>)
    requires chunk > 0 && stepBytes > 0 && at < hi
    requires Skeletons(queue) + UnfinalAll(Works(at, hi, chunk, stepBytes, fifoDepth, c, count, step)) == UnfinalAll(all)
    requires var end := Min(at + chunk, hi);
      SkeletonOf(work) == Skeleton(c, count, false, stepBytes, fifoDepth, at, end - at, step)
    ensures var end := Min(at + chunk, hi);
      Skeletons(queue + [work])
      + UnfinalAll(Works(end, hi, chunk, stepBytes, fifoDepth, c + 1, count, step + DivUp(end - at, stepBytes)))
      == UnfinalAll(all)
  {
    var end := Min(at + chunk, hi);
    var rest := Works(end, hi, chunk, stepBytes, fifoDepth, c + 1, count, step + DivUp(end - at, stepBytes));
    var head := Skeleton(c, count, end == hi, stepBytes, fifoDepth, at, end - at, step);
    assert Works(at, hi, chunk, stepBytes, fifoDepth, c, count, step) == [head] + rest;
    assert UnfinalAll([head] + rest) == [Unfinal(head)] + UnfinalAll(rest);
    assert Skeletons(queue + [work]) == Skeletons(queue) + [SkeletonOf(work)];
  }
}
