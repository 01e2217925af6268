/**
 Blocking pairwise communication as a transition system.

 Every rank runs a straight-line program of batches. A batch towards a peer blocks
 until that peer has posted the opposite batch, so one step of the system is one
 rendezvous between a sender and a receiver. Ranks advance in any interleaving and
 there is no barrier.

 The central fact: when one global list of events exists whose projection on every
 rank is that rank's program, no interleaving can get stuck, every run performs each
 event exactly once, and the two batches that meet always belong to the same event.
 */
module Rendezvous {
  import opened SequenceFacts

  /** One point-to-point batch of the whole system. */
  datatype Event<T> = Event(src: nat, dst: nat, load: T)

  /** The same batch as seen by one of its two ends. */
  datatype Action<T> = Send(peer: nat, load: T) | Recv(peer: nat, load: T)

  /** What each rank still has to execute, in program order. */
  type Residue<T> = seq<seq<Action<T>>>

  function View<T>(e: Event<T>, rank: nat): seq<Action<T>> {
    if e.src == rank then [Send(e.dst, e.load)]
    else if e.dst == rank then [Recv(e.src, e.load)]
    else []
  }

  /** The part of the global list that rank takes part in. */
  function Project<T>(events: seq<Event<T>>, rank: nat): seq<Action<T>> {
    if events == [] then []
    else if View(events[0], rank) == [] then Project(events[1..], rank)
    else [View(events[0], rank)[0]] + Project(events[1..], rank)
  }

  /** What src sends to dst, in order. */
  function Between<T>(events: seq<Event<T>>, src: nat, dst: nat): seq<T> {
    if events == [] then []
    else if events[0].src == src && events[0].dst == dst then [events[0].load] + Between(events[1..], src, dst)
    else Between(events[1..], src, dst)
  }

  function Carried<T>(e: Event<T>, src: nat, dst: nat): seq<T> {
    if e.src == src && e.dst == dst then [e.load] else []
  }

  ghost predicate WellFormed<T>(events: seq<Event<T>>, world: nat) {
    forall e <- events :: e.src != e.dst && e.src < world && e.dst < world
  }

  ghost predicate Programs<T>(events: seq<Event<T>>, st: Residue<T>) {
    && WellFormed(events, |st|)
    && forall r | 0 <= r < |st| :: st[r] == Project(events, r)
  }

  ghost predicate Finished<T>(st: Residue<T>) {
    forall r | 0 <= r < |st| :: st[r] == []
  }

  /** src is blocked sending to dst and dst is blocked receiving from src. */
  predicate Enabled<T>(st: Residue<T>, src: nat, dst: nat) {
    && src < |st| && dst < |st| && src != dst
    && st[src] != [] && st[src][0].Send? && st[src][0].peer == dst
    && st[dst] != [] && st[dst][0].Recv? && st[dst][0].peer == src
  }

  /** Both ends of an enabled rendezvous advance. */
  function Fire<T>(st: Residue<T>, src: nat, dst: nat): Residue<T>
    requires Enabled(st, src, dst)
  {
    st[src := st[src][1..]][dst := st[dst][1..]]
  }

  /** trace is a run from st to end; each entry carries what the sender put on the wire. */
  ghost predicate Run<T>(st: Residue<T>, trace: seq<Event<T>>, end: Residue<T>)
    decreases |trace|
  {
    if trace == [] then end == st
    else
      && Enabled(st, trace[0].src, trace[0].dst)
      && trace[0].load == st[trace[0].src][0].load
      && Run(Fire(st, trace[0].src, trace[0].dst), trace[1..], end)
  }

  lemma ProjectCons<T>(e: Event<T>, rest: seq<Event<T>>, rank: nat)
    ensures Project([e] + rest, rank) == View(e, rank) + Project(rest, rank)
  {
    ConsParts(e, rest);
    EmptyPrefix(Project(rest, rank));
  }

  lemma BetweenCons<T>(e: Event<T>, rest: seq<Event<T>>, src: nat, dst: nat)
    ensures Between([e] + rest, src, dst) == Carried(e, src, dst) + Between(rest, src, dst)
  {
    ConsParts(e, rest);
    EmptyPrefix(Between(rest, src, dst));
  }

  lemma {:induction false} ProjectConcat<T>(a: seq<Event<T>>, b: seq<Event<T>>, rank: nat)
    ensures Project(a + b, rank) == Project(a, rank) + Project(b, rank)
  {
    if a == [] {
      assert a + b == b;
    } else {
      ProjectConcat(a[1..], b, rank);
      assert a + b == [a[0]] + (a[1..] + b);
      ConsOf(a);
      ProjectCons(a[0], a[1..], rank);
      ProjectCons(a[0], a[1..] + b, rank);
      Associate(View(a[0], rank), Project(a[1..], rank), Project(b, rank));
    }
  }

  lemma {:induction false} BetweenConcat<T>(a: seq<Event<T>>, b: seq<Event<T>>, src: nat, dst: nat)
    ensures Between(a + b, src, dst) == Between(a, src, dst) + Between(b, src, dst)
  {
    if a == [] {
      assert a + b == b;
    } else {
      BetweenConcat(a[1..], b, src, dst);
      assert a + b == [a[0]] + (a[1..] + b);
      ConsOf(a);
      BetweenCons(a[0], a[1..], src, dst);
      BetweenCons(a[0], a[1..] + b, src, dst);
      Associate(Carried(a[0], src, dst), Between(a[1..], src, dst), Between(b, src, dst));
    }
  }

  /** The first event that involves rank, and the fact that nothing before it does. */
  lemma {:induction false} FirstFor<T>(events: seq<Event<T>>, rank: nat) returns (i: nat)
    requires Project(events, rank) != []
    ensures i < |events|
    ensures View(events[i], rank) != []
    ensures Project(events[..i], rank) == []
    ensures Project(events, rank)[0] == View(events[i], rank)[0]
    ensures Project(events[i + 1..], rank) == Project(events, rank)[1..]
  {
    var tail := events[1..];
    assert events == [events[0]] + tail;
    ProjectCons(events[0], tail, rank);
    if View(events[0], rank) != [] {
      i := 0;
      ConsParts(View(events[0], rank)[0], Project(tail, rank));
    } else {
      EmptyPrefix(Project(tail, rank));
      var j := FirstFor(tail, rank);
      i := j + 1;
      TailSlices(events, j);
      ProjectCons(events[0], tail[..j], rank);
    }
  }

  /** No event of a rank lies in a prefix that the rank takes no part in. */
  lemma {:induction false} SilentPrefix<T>(events: seq<Event<T>>, rank: nat, i: nat, j: nat)
    requires j <= |events| && i < |events| && Project(events[..j], rank) == [] && View(events[i], rank) != []
    ensures j <= i
  {
    if j > 0 {
      var tail := events[1..];
      assert events[..j][0] == events[0] && events[..j][1..] == tail[..j - 1];
      if i > 0 { SilentPrefix(tail, rank, i - 1, j - 1); }
    }
  }

  /** A rendezvous in a consistent state is the first event of both of its ranks. */
  lemma SameEvent<T>(events: seq<Event<T>>, st: Residue<T>, src: nat, dst: nat) returns (i: nat)
    requires Programs(events, st) && Enabled(st, src, dst)
    ensures i < |events|
    ensures events[i].src == src && events[i].dst == dst
    ensures st[src][0] == Send(dst, events[i].load) && st[dst][0] == Recv(src, events[i].load)
    ensures Project(events[..i], src) == [] && Project(events[..i], dst) == []
    ensures Project(events[i + 1..], src) == st[src][1..]
    ensures Project(events[i + 1..], dst) == st[dst][1..]
  {
    i := FirstFor(events, src);
    var j := FirstFor(events, dst);
    SendsTo(events[i], src, dst);
    ReceivesFrom(events[j], src, dst);
    SilentPrefix(events, dst, i, j);
    SilentPrefix(events, src, j, i);
  }

  lemma SendsTo<T>(e: Event<T>, rank: nat, peer: nat)
    requires View(e, rank) != [] && View(e, rank)[0].Send? && View(e, rank)[0].peer == peer
    ensures e.src == rank && e.dst == peer && View(e, peer) != []
  {
  }

  lemma ReceivesFrom<T>(e: Event<T>, peer: nat, rank: nat)
    requires View(e, rank) != [] && View(e, rank)[0].Recv? && View(e, rank)[0].peer == peer
    ensures e.src == peer && e.dst == rank && View(e, peer) != []
  {
  }

  function Without<T>(events: seq<Event<T>>, i: nat): seq<Event<T>>
    requires i < |events|
  {
    events[..i] + events[i + 1..]
  }

  lemma ProjectWithout<T>(events: seq<Event<T>>, i: nat, rank: nat)
    requires i < |events|
    ensures Project(Without(events, i), rank) == Project(events[..i], rank) + Project(events[i + 1..], rank)
    ensures Project(events, rank)
         == Project(events[..i], rank) + (View(events[i], rank) + Project(events[i + 1..], rank))
  {
    var before, e, after := events[..i], events[i], events[i + 1..];
    SplitAt(events, i);
    ProjectConcat(before, after, rank);
    ProjectConcat(before, [e] + after, rank);
    ProjectCons(e, after, rank);
  }

  /** Taking out the first event of a pair takes out the first thing that pair exchanges. */
  lemma BetweenWithout<T>(events: seq<Event<T>>, i: nat, src: nat, dst: nat)
    requires i < |events| && Project(events[..i], events[i].src) == []
    ensures Between(events, src, dst) == Carried(events[i], src, dst) + Between(Without(events, i), src, dst)
  {
    var before, e, after := events[..i], events[i], events[i + 1..];
    SplitAt(events, i);
    BetweenConcat(before, after, src, dst);
    BetweenConcat(before, [e] + after, src, dst);
    BetweenCons(e, after, src, dst);
    EmptyPrefix(Between(after, src, dst));
    if e.src == src {
      SilentBetween(before, src, dst);
      EmptyPrefix(Carried(e, src, dst) + Between(after, src, dst));
    } else {
      EmptyPrefix(Between(before, src, dst) + Between(after, src, dst));
    }
  }

  lemma {:induction false} SilentBetween<T>(events: seq<Event<T>>, src: nat, dst: nat)
    requires Project(events, src) == []
    ensures Between(events, src, dst) == []
  {
    if events != [] { SilentBetween(events[1..], src, dst); }
  }

  lemma MultisetWithout<T>(events: seq<T>, i: nat)
    requires i < |events|
    ensures multiset(events) == multiset(events[..i] + events[i + 1..]) + multiset{events[i]}
  {
    assert events == events[..i] + ([events[i]] + events[i + 1..]);
  }

  /** Taking out an event that comes first for its ranks drops the first action of those ranks alone. */
  lemma FireProject<T>(events: seq<Event<T>>, i: nat, program: seq<Action<T>>, rank: nat)
    requires i < |events| && program == Project(events, rank)
    requires View(events[i], rank) != [] ==> Project(events[..i], rank) == []
    ensures View(events[i], rank) == [] ==> Project(Without(events, i), rank) == program
    ensures View(events[i], rank) != [] ==> program != [] && Project(Without(events, i), rank) == program[1..]
  {
    ProjectWithout(events, i, rank);
    var after := Project(events[i + 1..], rank);
    EmptyPrefix(after);
    if View(events[i], rank) != [] {
      EmptyPrefix(View(events[i], rank) + after);
      ConsParts(View(events[i], rank)[0], after);
    }
  }

  /** Firing a rendezvous leaves the projections of the remaining events. */
  lemma FireKeepsPrograms<T>(events: seq<Event<T>>, st: Residue<T>, src: nat, dst: nat) returns (i: nat)
    requires Programs(events, st) && Enabled(st, src, dst)
    ensures i < |events|
    ensures events[i] == Event(src, dst, st[src][0].load)
    ensures st[src][0].load == st[dst][0].load
    ensures Programs(Without(events, i), Fire(st, src, dst))
    ensures multiset(events) == multiset(Without(events, i)) + multiset{events[i]}
    ensures forall s: nat, d: nat ::
      Between(events, s, d) == Carried(events[i], s, d) + Between(Without(events, i), s, d)
  {
    i := SameEvent(events, st, src, dst);
    MultisetWithout(events, i);
    var rest, next := Without(events, i), Fire(st, src, dst);
    forall r | 0 <= r < |next|
      ensures next[r] == Project(rest, r)
    {
      FireProject(events, i, st[r], r);
    }
    assert WellFormed(rest, |next|) by { assert forall e <- rest :: e in events; }
    forall s: nat, d: nat
      ensures Between(events, s, d) == Carried(events[i], s, d) + Between(rest, s, d)
    {
      BetweenWithout(events, i, s, d);
    }
  }

  /** Progress: a consistent state is finished or has an enabled rendezvous. */
  lemma Progress<T>(events: seq<Event<T>>, st: Residue<T>)
    requires Programs(events, st)
    ensures !Finished(st) ==> exists src: nat, dst: nat :: Enabled(st, src, dst)
    ensures Finished(st) <==> events == []
  {
    if events != [] {
      var e := events[0];
      assert e in events;
      assert st[e.src] == Project(events, e.src) && st[e.dst] == Project(events, e.dst);
      assert Enabled(st, e.src, e.dst);
    }
  }

  /** What holds between the events of a state, a trace from it and the events that remain. */
  ghost predicate Accounts<T>(events: seq<Event<T>>, trace: seq<Event<T>>, rest: seq<Event<T>>) {
    && multiset(events) == multiset(trace) + multiset(rest)
    && forall s: nat, d: nat :: Between(events, s, d) == Between(trace, s, d) + Between(rest, s, d)
  }

  lemma AccountsStep<T>(events: seq<Event<T>>, less: seq<Event<T>>, e: Event<T>, tail: seq<Event<T>>, rest: seq<Event<T>>)
    requires multiset(events) == multiset(less) + multiset{e}
    requires forall s: nat, d: nat :: Between(events, s, d) == Carried(e, s, d) + Between(less, s, d)
    requires Accounts(less, tail, rest)
    ensures Accounts(events, [e] + tail, rest)
  {
    ConsParts(e, tail);
    forall s: nat, d: nat
      ensures Between(events, s, d) == Between([e] + tail, s, d) + Between(rest, s, d)
    {
      BetweenCons(e, tail, s, d);
      Associate(Carried(e, s, d), Between(tail, s, d), Between(rest, s, d));
    }
  }

  /** Every reachable state is consistent with the events not yet performed. */
  lemma {:induction false} RunInvariant<T>(events: seq<Event<T>>, st: Residue<T>, trace: seq<Event<T>>, end: Residue<T>)
    returns (rest: seq<Event<T>>)
    requires Programs(events, st) && Run(st, trace, end)
    ensures Programs(rest, end) && Accounts(events, trace, rest)
    decreases |trace|
  {
    if trace == [] {
      rest := events;
    } else {
      var i := FireKeepsPrograms(events, st, trace[0].src, trace[0].dst);
      rest := RunInvariant(Without(events, i), Fire(st, trace[0].src, trace[0].dst), trace[1..], end);
      AccountsStep(events, Without(events, i), trace[0], trace[1..], rest);
      assert trace == [trace[0]] + trace[1..];
    }
  }

  lemma RunCounts<T>(events: seq<T>, trace: seq<T>, rest: seq<T>)
    requires multiset(events) == multiset(trace) + multiset(rest)
    ensures |events| == |trace| + |rest|
    ensures multiset(trace) <= multiset(events)
    ensures rest == [] <==> multiset(trace) == multiset(events)
  {
    assert |multiset(events)| == |multiset(trace)| + |multiset(rest)|;
  }

  /**
   Deadlock freedom, over all interleavings: from any reachable state that is not
   finished some rendezvous can fire, whatever fires joins the two halves of one event,
   no run is longer than the event list, every pair exchanges a prefix of its list in
   order, and a finished run performed each event exactly as often as it is listed.
   */
  lemma DeadlockFree<T>(events: seq<Event<T>>, st: Residue<T>, trace: seq<Event<T>>, end: Residue<T>)
    requires Programs(events, st) && Run(st, trace, end)
    ensures !Finished(end) ==> exists src: nat, dst: nat :: Enabled(end, src, dst)
    ensures forall src: nat, dst: nat | Enabled(end, src, dst) :: end[src][0].load == end[dst][0].load
    ensures |trace| <= |events|
    ensures multiset(trace) <= multiset(events)
    ensures Finished(end) <==> multiset(trace) == multiset(events)
    ensures Finished(end) <==> |trace| == |events|
    ensures forall s: nat, d: nat :: Between(trace, s, d) <= Between(events, s, d)
    ensures Finished(end) ==> forall s: nat, d: nat :: Between(trace, s, d) == Between(events, s, d)
  {
    var rest := RunInvariant(events, st, trace, end);
    Progress(rest, end);
    RunCounts(events, trace, rest);
    forall src: nat, dst: nat | Enabled(end, src, dst)
      ensures end[src][0].load == end[dst][0].load
    {
      var i := SameEvent(rest, end, src, dst);
    }
  }
}
