/**
 Fairness of a channel's batches, as they stand in the finished schedule: no batch serves a peer
 twice, and a peer that still has works is served again before long.
 */
module BatchFairness {
  import opened Basics
  import opened BatchScheduler
  import opened LoweringSchedule
  import opened SequenceFacts
  import opened Sequences
  import L = Lowering
  import P = PeerLowering

  /** How many of the batches serve the peer at this index. */
  function Served(batches: seq<seq<nat>>, index: nat): nat {
    if batches == [] then 0 else (if index in batches[0] then 1 else 0) + Served(batches[1..], index)
  }

  /** The batches it takes to serve every peer once. */
  function Turns(peers: nat, room: nat): nat
    requires peers > 0 && room > 0
  {
    (peers - 1) / room + 1
  }

  lemma StillPending<T>(st: State<T>, room: nat, index: nat)
    requires Ready(st) && room > 0 && index < |st.pending| && st.pending[index] != []
    ensures Total(st.pending) > 0
  {
    TotalZero(st.pending);
  }

  lemma {:induction false} FindsBatch<T>(st: State<T>, room: nat, index: nat, n: nat) returns (k: nat)
    requires Ready(st) && room > 0 && index < |st.pending| && st.pending[index] != []
    requires ServedWithin(st, room, index, n)
    ensures k < n && k < |Batches(st, room)| && index in Batches(st, room)[k]
    decreases n
  {
    StillPending(st, room, index);
    AfterShrinks(st, room);
    if index in BatchOf(st, room) {
      k := 0;
    } else {
      PassedOver(st, room, index);
      var later := FindsBatch(After(st, room), room, index, n - 1);
      k := later + 1;
    }
  }

  lemma AfterCounts<T>(st: State<T>, room: nat, index: nat)
    requires Ready(st) && index < |st.pending|
    ensures |After(st, room).pending[index]|
         == |st.pending[index]| - (if index in BatchOf(st, room) then 1 else 0)
  {
    BatchServesDistinctPeers(st, room);
    if index in BatchOf(st, room) {
      var j :| 0 <= j < |BatchOf(st, room)| && BatchOf(st, room)[j] == index;
    }
  }

  /** The first batch, the batches after it, and what they serve. */
  lemma ServedNext(batches: seq<seq<nat>>, rest: seq<seq<nat>>, first: seq<nat>, index: nat, j: nat)
    requires 0 < j <= |batches| && batches == [first] + rest
    ensures Served(batches[..j], index) == (if index in first then 1 else 0) + Served(rest[..j - 1], index)
  {
    assert batches[..j][0] == first && batches[..j][1..] == rest[..j - 1];
  }

  /** After any j batches, a peer with works left is served within the next turns. */
  lemma {:induction false} FairAfter<T>(st: State<T>, room: nat, index: nat, j: nat) returns (k: nat)
    requires Ready(st) && room > 0 && index < |st.pending| && j <= |Batches(st, room)|
    requires Served(Batches(st, room)[..j], index) < |st.pending[index]|
    ensures j <= k < j + Turns(|st.pending|, room) && k < |Batches(st, room)| && index in Batches(st, room)[k]
    decreases j
  {
    if j == 0 {
      SchedulerIsFair(st, room, index);
      k := FindsBatch(st, room, index, Turns(|st.pending|, room));
    } else {
      AfterShrinks(st, room);
      ServedNext(Batches(st, room), Batches(After(st, room), room), BatchOf(st, room), index, j);
      AfterCounts(st, room, index);
      var later := FairAfter(After(st, room), room, index, j - 1);
      k := later + 1;
    }
  }

  ghost predicate DistinctBatch(batch: seq<nat>, room: nat) {
    |batch| <= room && Distinct(batch)
  }

  lemma {:induction false} BatchesAreDistinct<T>(st: State<T>, room: nat, j: nat)
    requires Ready(st) && room > 0 && j < |Batches(st, room)|
    ensures DistinctBatch(Batches(st, room)[j], room)
    decreases j
  {
    AfterShrinks(st, room);
    if j == 0 {
      BatchServesDistinctPeers(st, room);
    } else {
      BatchesAreDistinct(After(st, room), room, j - 1);
    }
  }

  /**
   In a finished lowering, every batch of a channel serves at most eight peers and none twice;
   and a peer with works left on the channel after j of its batches appears in one of the
   next ceil(active / 8).
   */
  lemma LoweredIsFair(
    c: L.Config, active: seq<nat>, tasks: seq<P.Task>, s: Schedule, table: seq<L.PeerResult>, channel: nat, i: nat,
    j: nat)
    requires Lowered(c, active, tasks, s, table)
    requires channel < c.totalChannels && i < |active|
    requires j <= |ChannelBatches(QueuesOn(table, active, c.totalChannels, channel))|
    ensures forall b <- ChannelBatches(QueuesOn(table, active, c.totalChannels, channel)) ::
      DistinctBatch(b, L.MAX_WORKS_PER_BATCH)
    ensures var batches := ChannelBatches(QueuesOn(table, active, c.totalChannels, channel));
      Served(batches[..j], i) < |table[active[i]].queues[channel]| ==>
        exists k :: j <= k < j + Turns(|active|, L.MAX_WORKS_PER_BATCH) && k < |batches| && i in batches[k]
  {
    var queues := QueuesOn(table, active, c.totalChannels, channel);
    var batches, st := ChannelBatches(queues), State(queues, 0);
    forall b | b in batches ensures DistinctBatch(b, L.MAX_WORKS_PER_BATCH) {
      var k :| 0 <= k < |batches| && batches[k] == b;
      BatchesAreDistinct(st, L.MAX_WORKS_PER_BATCH, k);
    }
    if Served(batches[..j], i) < |queues[i]| {
      StillPending(st, L.MAX_WORKS_PER_BATCH, i);
      var k := FairAfter(st, L.MAX_WORKS_PER_BATCH, i, j);
    }
  }
}
