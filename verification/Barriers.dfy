/**
 Blocking pairwise communication with barriers. A rank's program is a list of batches and
 barriers; a barrier lets every rank pass at once, when all of them stand at one. If the global
 events come in segments, and every rank runs its part of each segment and then a barrier, no
 interleaving can get stuck, whatever the segments are.
 */
module Barriers {
  import opened Rendezvous
  import opened SequenceFacts

  /** A step of one rank: a batch towards a peer, or a barrier. */
  datatype Item<T> = Do(action: Action<T>) | Wait

  /** A step of the whole system: two ranks meet, or all of them pass a barrier. */
  datatype Step<T> = Meet(event: Event<T>) | Pass

  type Waiting<T> = seq<seq<Item<T>>>

  function Dos<T>(actions: seq<Action<T>>): (r: seq<Item<T>>)
    ensures |r| == |actions| && forall i | 0 <= i < |r| :: r[i] == Do(actions[i])
  {
    seq(|actions|, i requires 0 <= i < |actions| => Do(actions[i]))
  }

  /** One rank's part of each segment, each followed by a barrier. */
  function Program<T>(segments: seq<seq<Event<T>>>, rank: nat): seq<Item<T>> {
    if segments == [] then [] else Dos(Project(segments[0], rank)) + ([Wait] + Program(segments[1..], rank))
  }

  function AllEvents<T>(segments: seq<seq<Event<T>>>): seq<Event<T>> {
    if segments == [] then [] else segments[0] + AllEvents(segments[1..])
  }

  ghost predicate SegmentPrograms<T>(segments: seq<seq<Event<T>>>, st: Waiting<T>) {
    && (forall k | 0 <= k < |segments| :: WellFormed(segments[k], |st|))
    && forall r | 0 <= r < |st| :: st[r] == Program(segments, r)
  }

  predicate Done<T>(st: Waiting<T>) {
    forall r | 0 <= r < |st| :: |st[r]| == 0
  }

  /** src is blocked sending to dst and dst is blocked receiving from src. */
  predicate CanMeet<T>(st: Waiting<T>, src: nat, dst: nat) {
    && src < |st| && dst < |st| && src != dst
    && |st[src]| > 0 && st[src][0].Do? && st[src][0].action.Send? && st[src][0].action.peer == dst
    && |st[dst]| > 0 && st[dst][0].Do? && st[dst][0].action.Recv? && st[dst][0].action.peer == src
  }

  /** Every rank stands at a barrier. */
  predicate CanPass<T>(st: Waiting<T>) {
    |st| > 0 && forall r | 0 <= r < |st| :: |st[r]| > 0 && st[r][0].Wait?
  }

  function AfterMeet<T>(st: Waiting<T>, src: nat, dst: nat): Waiting<T>
    requires CanMeet(st, src, dst)
  {
    st[src := st[src][1..]][dst := st[dst][1..]]
  }

  function AfterPass<T>(st: Waiting<T>): (r: Waiting<T>)
    requires CanPass(st)
    ensures |r| == |st| && forall i | 0 <= i < |st| :: r[i] == st[i][1..]
  {
    seq(|st|, i requires 0 <= i < |st| => st[i][1..])
  }

  /** trace is a run from st to end. */
  ghost predicate BarrierRun<T>(st: Waiting<T>, trace: seq<Step<T>>, end: Waiting<T>)
    decreases |trace|
  {
    if trace == [] then end == st
    else
      match trace[0]
      case Pass => CanPass(st) && BarrierRun(AfterPass(st), trace[1..], end)
      case Meet(e) =>
        && CanMeet(st, e.src, e.dst) && e.load == st[e.src][0].action.load
        && BarrierRun(AfterMeet(st, e.src, e.dst), trace[1..], end)
  }

  /** The events of a trace. */
  function Meets<T>(trace: seq<Step<T>>): seq<Event<T>> {
    if trace == [] then []
    else if trace[0].Pass? then Meets(trace[1..])
    else [trace[0].event] + Meets(trace[1..])
  }

  // ---------------------------------------------------------------- one segment at a time

  /** What each rank still has to do in the first segment. */
  function Current<T>(events: seq<Event<T>>, world: nat): (r: Residue<T>)
    ensures |r| == world && forall i | 0 <= i < world :: r[i] == Project(events, i)
  {
    seq(world, i requires 0 <= i < world => Project(events, i))
  }

  lemma ProgramHead<T>(segments: seq<seq<Event<T>>>, rank: nat)
    requires segments != []
    ensures var p := Project(segments[0], rank);
      && Program(segments, rank) != []
      && (p == [] ==> Program(segments, rank)[0] == Wait && Program(segments, rank)[1..] == Program(segments[1..], rank))
      && (p != [] ==> Program(segments, rank)[0] == Do(p[0]))
  {
    var p := Project(segments[0], rank);
    var rest := Program(segments[1..], rank);
    if p == [] {
      assert Dos(p) == [];
      EmptyPrefix([Wait] + rest);
      ConsParts(Wait, rest);
    }
  }

  /** Taking out an event replaces the first segment and nothing else. */
  lemma ProgramRest<T>(first: seq<Event<T>>, less: seq<Event<T>>, later: seq<seq<Event<T>>>, rank: nat)
    requires Project(first, rank) != [] && Project(less, rank) == Project(first, rank)[1..]
    ensures Program([first] + later, rank)[1..] == Program([less] + later, rank)
  {
    ConsParts(first, later);
    ConsParts(less, later);
    var p := Project(first, rank);
    assert Dos(p)[1..] == Dos(p[1..]);
    TailOfConcat(Dos(p), [Wait] + Program(later, rank));
  }

  lemma TailOfConcat<T>(a: seq<T>, b: seq<T>)
    requires a != []
    ensures (a + b)[1..] == a[1..] + b
  {
  }

  lemma ProgramSame<T>(first: seq<Event<T>>, less: seq<Event<T>>, later: seq<seq<Event<T>>>, rank: nat)
    requires Project(less, rank) == Project(first, rank)
    ensures Program([first] + later, rank) == Program([less] + later, rank)
  {
    ConsParts(first, later);
    ConsParts(less, later);
  }

  lemma CurrentPrograms<T>(segments: seq<seq<Event<T>>>, st: Waiting<T>)
    requires SegmentPrograms(segments, st) && segments != []
    ensures Programs(segments[0], Current(segments[0], |st|))
  {
  }

  /** Two ranks that can meet are at the same event of the first segment. */
  lemma MeetIsEnabled<T>(segments: seq<seq<Event<T>>>, st: Waiting<T>, src: nat, dst: nat)
    requires SegmentPrograms(segments, st) && CanMeet(st, src, dst)
    ensures segments != [] && Enabled(Current(segments[0], |st|), src, dst)
    ensures Current(segments[0], |st|)[src][0] == st[src][0].action
    ensures Current(segments[0], |st|)[dst][0] == st[dst][0].action
  {
    ProgramHead(segments, src);
    ProgramHead(segments, dst);
  }

  lemma MeetKeepsPrograms<T>(segments: seq<seq<Event<T>>>, st: Waiting<T>, src: nat, dst: nat)
    returns (less: seq<Event<T>>, e: Event<T>)
    requires SegmentPrograms(segments, st) && CanMeet(st, src, dst)
    ensures segments != [] && e == Event(src, dst, st[src][0].action.load)
    ensures st[src][0].action.load == st[dst][0].action.load
    ensures SegmentPrograms([less] + segments[1..], AfterMeet(st, src, dst))
    ensures |segments[0]| == |less| + 1
    ensures forall s: nat, d: nat :: Between(segments[0], s, d) == Carried(e, s, d) + Between(less, s, d)
  {
    MeetIsEnabled(segments, st, src, dst);
    CurrentPrograms(segments, st);
    var current := Current(segments[0], |st|);
    var i := FireKeepsPrograms(segments[0], current, src, dst);
    less, e := Without(segments[0], i), segments[0][i];
    var next := AfterMeet(st, src, dst);
    ConsOf(segments);
    forall r | 0 <= r < |next| ensures next[r] == Program([less] + segments[1..], r) {
      assert Project(less, r) == Fire(current, src, dst)[r];
      if r == src || r == dst {
        ProgramRest(segments[0], less, segments[1..], r);
      } else {
        ProgramSame(segments[0], less, segments[1..], r);
      }
    }
  }

  lemma PassKeepsPrograms<T>(segments: seq<seq<Event<T>>>, st: Waiting<T>)
    requires SegmentPrograms(segments, st) && CanPass(st)
    ensures segments != [] && segments[0] == [] && SegmentPrograms(segments[1..], AfterPass(st))
  {
    forall r | 0 <= r < |st| ensures segments != [] && Project(segments[0], r) == [] {
      if segments != [] { ProgramHead(segments, r); }
    }
    assert st[0] == Program(segments, 0);
    CurrentPrograms(segments, st);
    Progress(segments[0], Current(segments[0], |st|));
    forall r | 0 <= r < |st| ensures AfterPass(st)[r] == Program(segments[1..], r) {
      ProgramHead(segments, r);
    }
  }

  lemma SegmentProgress<T>(segments: seq<seq<Event<T>>>, st: Waiting<T>)
    requires SegmentPrograms(segments, st)
    ensures Done(st) || CanPass(st) || exists src: nat, dst: nat :: CanMeet(st, src, dst)
    ensures Done(st) && |st| > 0 ==> segments == []
  {
    if segments != [] && |st| > 0 {
      forall r | 0 <= r < |st| ensures st[r] == Program(segments, r) != [] { ProgramHead(segments, r); }
      assert |st[0]| > 0;
      if segments[0] == [] {
        assert CanPass(st);
      } else {
        var e := segments[0][0];
        assert e in segments[0];
        ProgramHead(segments, e.src);
        ProgramHead(segments, e.dst);
        assert CanMeet(st, e.src, e.dst);
      }
    } else {
      assert Done(st) by { forall r | 0 <= r < |st| ensures st[r] == [] { assert st[r] == Program(segments, r); } }
    }
  }

  // ---------------------------------------------------------------- whole runs

  /** What holds between the segments of a state, a trace from it and the segments that remain. */
  ghost predicate Counts<T>(segments: seq<seq<Event<T>>>, trace: seq<Step<T>>, rest: seq<seq<Event<T>>>) {
    && |AllEvents(segments)| + |segments| == |trace| + |AllEvents(rest)| + |rest|
    && forall s: nat, d: nat ::
         Between(AllEvents(segments), s, d) == Between(Meets(trace), s, d) + Between(AllEvents(rest), s, d)
  }

  lemma CountsMeet<T>(
    first: seq<Event<T>>, later: seq<seq<Event<T>>>, less: seq<Event<T>>, e: Event<T>, tail: seq<Step<T>>,
    rest: seq<seq<Event<T>>>)
    requires |first| == |less| + 1 && Counts([less] + later, tail, rest)
    requires forall s: nat, d: nat :: Between(first, s, d) == Carried(e, s, d) + Between(less, s, d)
    ensures Counts([first] + later, [Meet(e)] + tail, rest)
  {
    ConsParts(first, later);
    ConsParts(less, later);
    ConsParts(Meet(e), tail);
    forall s: nat, d: nat
      ensures Between(AllEvents([first] + later), s, d)
           == Between(Meets([Meet(e)] + tail), s, d) + Between(AllEvents(rest), s, d)
    {
      BetweenConcat(first, AllEvents(later), s, d);
      BetweenConcat(less, AllEvents(later), s, d);
      BetweenCons(e, Meets(tail), s, d);
      Associate(Carried(e, s, d), Between(less, s, d), Between(AllEvents(later), s, d));
      Associate(Carried(e, s, d), Between(Meets(tail), s, d), Between(AllEvents(rest), s, d));
    }
  }

  lemma CountsPass<T>(later: seq<seq<Event<T>>>, tail: seq<Step<T>>, rest: seq<seq<Event<T>>>)
    requires Counts(later, tail, rest)
    ensures Counts([[]] + later, [Pass] + tail, rest)
  {
    var none: seq<Event<T>> := [];
    ConsParts(none, later);
    ConsParts(Step<T>.Pass, tail);
    EmptyPrefix(AllEvents(later));
  }

  lemma {:induction false} BarrierInvariant<T>(
    segments: seq<seq<Event<T>>>, st: Waiting<T>, trace: seq<Step<T>>, end: Waiting<T>)
    returns (rest: seq<seq<Event<T>>>)
    requires SegmentPrograms(segments, st) && BarrierRun(st, trace, end)
    ensures SegmentPrograms(rest, end) && Counts(segments, trace, rest)
    decreases |trace|
  {
    if trace == [] {
      rest := segments;
      NothingYet(segments);
    } else {
      ConsOf(trace);
      match trace[0] {
        case Pass =>
          PassKeepsPrograms(segments, st);
          rest := BarrierInvariant(segments[1..], AfterPass(st), trace[1..], end);
          CountsPass(segments[1..], trace[1..], rest);
          ConsOf(segments);
        case Meet(e) =>
          var less, same := MeetKeepsPrograms(segments, st, e.src, e.dst);
          rest := BarrierInvariant([less] + segments[1..], AfterMeet(st, e.src, e.dst), trace[1..], end);
          CountsMeet(segments[0], segments[1..], less, e, trace[1..], rest);
          ConsOf(segments);
      }
    }
  }

  lemma {:induction false} RunKeepsWorld<T>(st: Waiting<T>, trace: seq<Step<T>>, end: Waiting<T>)
    requires BarrierRun(st, trace, end)
    ensures |end| == |st|
    decreases |trace|
  {
    if trace != [] {
      match trace[0]
      case Pass => RunKeepsWorld(AfterPass(st), trace[1..], end);
      case Meet(e) => RunKeepsWorld(AfterMeet(st, e.src, e.dst), trace[1..], end);
    }
  }

  lemma NothingYet<T>(segments: seq<seq<Event<T>>>)
    ensures Counts(segments, [], segments)
  {
    forall s: nat, d: nat
      ensures Between(AllEvents(segments), s, d)
           == Between(Meets<T>([]), s, d) + Between(AllEvents(segments), s, d)
    {
      EmptyPrefix(Between(AllEvents(segments), s, d));
    }
  }

  /**
   Over all interleavings of batches and barriers: a state that is not finished can make a
   step, two ranks that meet hold the same load, no run is longer than the events and barriers
   together, and in a finished run every pair has exchanged exactly its loads, in order.
   */
  lemma BarrierDeadlockFree<T>(
    segments: seq<seq<Event<T>>>, st: Waiting<T>, trace: seq<Step<T>>, end: Waiting<T>)
    requires SegmentPrograms(segments, st) && BarrierRun(st, trace, end)
    ensures Done(end) || CanPass(end) || exists src: nat, dst: nat :: CanMeet(end, src, dst)
    ensures forall src: nat, dst: nat | CanMeet(end, src, dst) :: end[src][0].action.load == end[dst][0].action.load
    ensures |trace| <= |AllEvents(segments)| + |segments|
    ensures forall s: nat, d: nat :: Between(Meets(trace), s, d) <= Between(AllEvents(segments), s, d)
    ensures Done(end) && |end| > 0 ==>
      forall s: nat, d: nat :: Between(Meets(trace), s, d) == Between(AllEvents(segments), s, d)
  {
    var rest := BarrierInvariant(segments, st, trace, end);
    SegmentProgress(rest, end);
    forall src: nat, dst: nat | CanMeet(end, src, dst)
      ensures end[src][0].action.load == end[dst][0].action.load
    {
      var less, e := MeetKeepsPrograms(rest, end, src, dst);
    }
  }
}
