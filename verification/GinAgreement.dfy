/**
 When the two ends of a network pair get the same channel count. Each end budgets alone, from
 its own peers, and nothing reconciles the results; the condition under which they are equal is
 exact, and there are ends that meet every other requirement and still disagree.
 */
module GinAgreement {
  import opened Basics
  import opened PowersOfTwo
  import opened SequenceFacts
  import opened Sequences
  import opened GinChannels
  import L = Lowering
  import P = PeerLowering
  import S = LoweringSchedule
  import T = LoweringTheorems
  import Partition = StreamPartition

  // ---------------------------------------------------------------- growth in closed form

  /** Doubles while the result stays within the limit. */
  function Doublings(channels: nat, limit: nat): (r: nat)
    requires channels > 0
    ensures r >= channels
    decreases limit - channels
  {
    if 2 * channels <= limit then Doublings(2 * channels, limit) else channels
  }

  /** What a peer can reach: the room it finds on top of its own channels, its share, the total. */
  function Reach(channels: nat, room: nat, demand: nat, total: nat): nat {
    Min(room + channels, Min(demand, total))
  }

  lemma {:induction false} GrowIsDoublings(channels: nat, room: nat, demand: nat, total: nat)
    requires channels > 0
    ensures Grow(channels, room, demand, total).channels == Doublings(channels, Reach(channels, room, demand, total))
    decreases room
  {
    if CanDouble(channels, room, demand, total) {
      GrowIsDoublings(2 * channels, room - channels, demand, total);
      assert Reach(2 * channels, room - channels, demand, total) == Reach(channels, room, demand, total);
    }
  }

  /** The greatest doubling within the limit, or the start when none is. */
  lemma {:induction false} DoublingsIs(channels: nat, limit: nat, r: nat)
    requires channels > 0 && PowerOfTwo(channels) && PowerOfTwo(r)
    ensures Doublings(channels, limit) == r <==> (r == channels || channels < r <= limit) && limit < 2 * r
    decreases limit - channels
  {
    if channels < r { DoubleBelow(channels, r); }
    if 2 * channels <= limit {
      Doubled(channels);
      DoublingsIs(2 * channels, limit, r);
    }
  }

  lemma {:induction false} DoublingsArePowers(channels: nat, limit: nat)
    requires channels > 0 && PowerOfTwo(channels)
    ensures PowerOfTwo(Doublings(channels, limit))
    decreases limit - channels
  {
    if 2 * channels <= limit {
      Doubled(channels);
      DoublingsArePowers(2 * channels, limit);
    }
  }

  /** Some doubling of channels is within one limit but not within the other. */
  ghost predicate Separates(channels: nat, x: nat, y: nat) {
    exists r: nat :: PowerOfTwo(r) && channels < r && Min(x, y) < r <= Max(x, y)
  }

  /** Two limits allow the same count exactly when no doubling lies between them. */
  lemma SameDoublings(channels: nat, x: nat, y: nat)
    requires channels > 0 && PowerOfTwo(channels)
    ensures Doublings(channels, x) == Doublings(channels, y) <==> !Separates(channels, x, y)
  {
    var dx, dy := Doublings(channels, x), Doublings(channels, y);
    DoublingsArePowers(channels, x);
    DoublingsArePowers(channels, y);
    DoublingsIs(channels, x, dx);
    DoublingsIs(channels, y, dy);
    if dx != dy {
      var most := Max(dx, dy);
      assert PowerOfTwo(most) && channels < most;
      if dx < dy { DoubleBelow(dx, dy); } else { DoubleBelow(dy, dx); }
      assert Min(x, y) < most <= Max(x, y);
    }
    if r: nat :| PowerOfTwo(r) && channels < r && Min(x, y) < r <= Max(x, y) {
      if dx == dy {
        if r <= dx { assert false; } else { DoubleBelow(dx, r); }
      }
    }
  }

  // ---------------------------------------------------------------- the count of one peer

  /** The budget left when the peer's turn comes, after every heavier peer has grown. */
  function RoomAt(b: Budget, peers: seq<nat>, i: nat): nat
    requires b.Valid() && InTable(peers, |b.payload|) && i <= |ByPayload(b, peers)|
  {
    OrderIsPlaced(b, peers);
    SecondPass(b, ByPayload(b, peers), i, StartOf(b, peers), Total(b.payload, peers)).remaining
  }

  /** The windows of the peers, and the budget they leave. */
  function StartOf(b: Budget, peers: seq<nat>): (r: Pass)
    requires b.Valid() && InTable(peers, |b.payload|)
    ensures |r.table| == |b.payload|
    ensures forall p <- peers :: p < |b.payload| && r.table[p] == WindowChannels(b, p)
  {
    var first := FirstPass(b, peers, |peers|, b.payload);
    Pass(first, Left(b, Total(first, peers)))
  }

  lemma OrderIsPlaced(b: Budget, peers: seq<nat>)
    requires b.Valid() && InTable(peers, |b.payload|)
    ensures Placed(ByPayload(b, peers), StartOf(b, peers).table)
    ensures InTable(ByPayload(b, peers), |b.payload|)
  {
    OrderPlaced(b, peers, StartOf(b, peers).table);
  }

  /** Only the peers' entries of the table matter to the second pass. */
  ghost predicate SameOn(peers: seq<nat>, t: seq<nat>, u: seq<nat>) {
    |t| == |u| && forall i | 0 <= i < |peers| :: peers[i] < |t| && t[peers[i]] == u[peers[i]]
  }

  lemma {:induction false} TotalOn(peers: seq<nat>, t: seq<nat>, u: seq<nat>)
    requires SameOn(peers, t, u)
    ensures Total(t, peers) == Total(u, peers)
  {
    if peers != [] { TotalOn(peers[..|peers| - 1], t, u); }
  }

  lemma {:induction false} SecondPassOn(b: Budget, order: seq<nat>, k: nat, s: Pass, t: Pass, totalBytes: nat)
    requires |s.table| == |b.payload| && Placed(order, s.table) && k <= |order|
    requires SameOn(order, s.table, t.table) && s.remaining == t.remaining
    ensures Placed(order, t.table)
    ensures var x, y := SecondPass(b, order, k, s, totalBytes), SecondPass(b, order, k, t, totalBytes);
      SameOn(order, x.table, y.table) && x.remaining == y.remaining
  {
    if k > 0 { SecondPassOn(b, order, k - 1, s, t, totalBytes); }
  }

  /** A peer keeps its channels until its turn, and keeps what it grew to after it. */
  lemma {:induction false} TurnDecides(b: Budget, order: seq<nat>, k: nat, i: nat, start: Pass, totalBytes: nat)
    requires |start.table| == |b.payload| && Placed(order, start.table) && Distinct(order) && i < |order| && k <= |order|
    ensures SecondPass(b, order, k, start, totalBytes).table[order[i]]
         == if k <= i then start.table[order[i]]
            else SecondPass(b, order, i + 1, start, totalBytes).table[order[i]]
    decreases k
  {
    if k > 0 && k != i + 1 { TurnDecides(b, order, k - 1, i, start, totalBytes); }
  }

  /** The most channels peer p can have at this end. */
  function Limit(b: Budget, peers: seq<nat>, i: nat): nat
    requires b.Valid() && InTable(peers, |b.payload|) && i < |ByPayload(b, peers)|
  {
    OrderIsPlaced(b, peers);
    var p := ByPayload(b, peers)[i];
    Reach(WindowChannels(b, p), RoomAt(b, peers, i), WeightedDemand(b, p, Total(b.payload, peers)), b.total)
  }

  lemma TurnGrows(b: Budget, order: seq<nat>, i: nat, start: Pass, totalBytes: nat)
    requires |start.table| == |b.payload| && Placed(order, start.table) && Distinct(order) && i < |order|
    ensures SecondPass(b, order, |order|, start, totalBytes).table[order[i]]
         == Doublings(start.table[order[i]], Reach(start.table[order[i]],
              SecondPass(b, order, i, start, totalBytes).remaining, WeightedDemand(b, order[i], totalBytes), b.total))
  {
    var before := SecondPass(b, order, i, start, totalBytes);
    TurnDecides(b, order, |order|, i, start, totalBytes);
    TurnDecides(b, order, i, i, start, totalBytes);
    GrowIsDoublings(before.table[order[i]], before.remaining, WeightedDemand(b, order[i], totalBytes), b.total);
  }

  /** With several network peers, the i-th heaviest has the greatest doubling of its windows within its limit. */
  lemma SharedCount(b: Budget, peers: seq<nat>, table: seq<nat>, i: nat)
    requires b.Valid() && |table| == |b.payload| && InTable(peers, |table|) && Distinct(peers) && |peers| > 1
    requires i < |ByPayload(b, peers)|
    ensures var p := ByPayload(b, peers)[i];
      && p in peers && p < |table|
      && Configured(b, peers, table)[p] == Doublings(WindowChannels(b, p), Limit(b, peers, i))
  {
    var order, bytes := ByPayload(b, peers), Total(b.payload, peers);
    OrderKeeps(b, peers);
    OrderIsPlaced(b, peers);
    assert order[i] in order;
    var first := FirstPass(b, peers, |peers|, table);
    var start, given := StartOf(b, peers), Pass(first, Left(b, Total(first, peers)));
    FirstPassOn(b, peers, table);
    SecondPassOn(b, order, |order|, start, given, bytes);
    TurnGrows(b, order, i, start, bytes);
  }

  lemma FirstPassOn(b: Budget, peers: seq<nat>, table: seq<nat>)
    requires b.Valid() && |table| == |b.payload| && InTable(peers, |table|)
    ensures SameOn(ByPayload(b, peers), StartOf(b, peers).table, FirstPass(b, peers, |peers|, table))
    ensures Total(StartOf(b, peers).table, peers) == Total(FirstPass(b, peers, |peers|, table), peers)
  {
    var order := ByPayload(b, peers);
    var s, t := StartOf(b, peers).table, FirstPass(b, peers, |peers|, table);
    OrderKeeps(b, peers);
    TotalOn(peers, s, t);
    forall i | 0 <= i < |order| ensures order[i] < |s| && s[order[i]] == t[order[i]] {
      assert order[i] in order;
      var j := FindPeer(peers, order[i]);
    }
  }

  // ---------------------------------------------------------------- when the two ends agree

  function IndexOf(s: seq<nat>, p: nat): (i: nat)
    requires p in s
    ensures i < |s| && s[i] == p
  {
    if s[0] == p then 0 else 1 + IndexOf(s[1..], p)
  }

  /** The most channels peer p can have at this end, once the heavier peers have grown. */
  function LimitOf(b: Budget, peers: seq<nat>, p: nat): nat
    requires b.Valid() && InTable(peers, |b.payload|) && p in peers
  {
    OrderKeeps(b, peers);
    Limit(b, peers, IndexOf(ByPayload(b, peers), p))
  }

  lemma CountOf(b: Budget, peers: seq<nat>, table: seq<nat>, p: nat)
    requires b.Valid() && |table| == |b.payload| && InTable(peers, |table|) && Distinct(peers) && |peers| > 1
    requires p in peers
    ensures p < |table|
    ensures Configured(b, peers, table)[p] == Doublings(WindowChannels(b, p), LimitOf(b, peers, p))
  {
    OrderKeeps(b, peers);
    SharedCount(b, peers, table, IndexOf(ByPayload(b, peers), p));
  }

  /** The count of an only network peer. */
  function SingleCount(b: Budget): nat { Min(b.total, PowerOfTwoUp(b.Channels())) }

  /** An only peer gets at least the whole budget. */
  lemma SingleCoversBudget(b: Budget)
    requires b.WellSized() && b.connections > 0
    ensures PowerOfTwo(SingleCount(b)) && b.Channels() <= SingleCount(b) <= b.total
  {
    PowerOfTwoUpFacts(b.Channels());
  }

  /** The windows of one peer reach an only peer's count just when they fill the total. */
  lemma WindowsReachSingle(b: Budget, p: nat)
    requires b.WellSized() && b.connections > 0 && p < |b.payload|
    ensures WindowChannels(b, p) == SingleCount(b) <==> WindowChannels(b, p) == b.total
  {
    WindowChannelsSound(b, p);
    SingleCoversBudget(b);
    PowerOfTwoUpFacts(2 * b.connections);
    if 6 * b.connections < b.total {
      PowerOfTwoUpFacts(6 * b.connections);
    }
  }

  lemma {:induction false} OthersTakeSome(table: seq<nat>, peers: seq<nat>, p: nat)
    requires Placed(peers, table) && Distinct(peers) && p in peers && |peers| > 1
    ensures p < |table| && Total(table, peers) > table[p]
  {
    var init, last := peers[..|peers| - 1], peers[|peers| - 1];
    if p == last {
      TotalPositive(table, init);
    } else {
      SnocOf(peers);
      assert p in init;
      assert Placed(init, table) && Distinct(init);
      if |init| > 1 { OthersTakeSome(table, init, p); } else { assert init[..0] == []; }
    }
  }

  lemma TotalPositive(table: seq<nat>, peers: seq<nat>)
    requires Placed(peers, table) && peers != []
    ensures Total(table, peers) > 0
  {
    assert table[peers[|peers| - 1]] > 0;
  }

  /** Among several peers, growth never reaches the whole budget. */
  lemma RoomIsShort(b: Budget, peers: seq<nat>, p: nat)
    requires b.WellSized() && InTable(peers, |b.payload|) && Distinct(peers) && |peers| > 1 && p in peers
    ensures LimitOf(b, peers, p) < b.Channels() || LimitOf(b, peers, p) <= WindowChannels(b, p)
  {
    var order, start, bytes := ByPayload(b, peers), StartOf(b, peers), Total(b.payload, peers);
    OrderKeeps(b, peers);
    OrderIsPlaced(b, peers);
    var i := IndexOf(order, p);
    RoomShrinks(b, order, i, start, bytes);
    assert Placed(peers, start.table) by {
      forall j | 0 <= j < |peers| ensures start.table[peers[j]] > 0 { assert peers[j] in peers; }
    }
    OthersTakeSome(start.table, peers, p);
  }

  lemma {:induction false} RoomShrinks(b: Budget, order: seq<nat>, k: nat, start: Pass, totalBytes: nat)
    requires |start.table| == |b.payload| && Placed(order, start.table) && k <= |order|
    ensures SecondPass(b, order, k, start, totalBytes).remaining <= start.remaining
  {
    if k > 0 {
      RoomShrinks(b, order, k - 1, start, totalBytes);
      var before := SecondPass(b, order, k - 1, start, totalBytes);
      GrowSpends(before.table[order[k - 1]], before.remaining, WeightedDemand(b, order[k - 1], totalBytes), b.total);
    }
  }

  lemma {:induction false} GrowSpends(channels: nat, room: nat, demand: nat, total: nat)
    requires channels > 0
    ensures Grow(channels, room, demand, total).remaining <= room
    decreases room
  {
    if CanDouble(channels, room, demand, total) { GrowSpends(2 * channels, room - channels, demand, total); }
  }

  /** An end with one network peer and an end with several agree just when the windows fill the total. */
  lemma SingleMeetsShared(b: Budget, peers: seq<nat>, table: seq<nat>, p: nat)
    requires b.WellSized() && b.connections > 0 && |table| == |b.payload|
    requires InTable(peers, |table|) && Distinct(peers) && |peers| > 1 && p in peers
    ensures p < |table|
    ensures Configured(b, peers, table)[p] == SingleCount(b) <==> WindowChannels(b, p) == b.total
  {
    CountOf(b, peers, table, p);
    WindowChannelsSound(b, p);
    SingleCoversBudget(b);
    WindowsReachSingle(b, p);
    RoomIsShort(b, peers, p);
    DoublingsIs(WindowChannels(b, p), LimitOf(b, peers, p), SingleCount(b));
    assert LimitOf(b, peers, p) <= b.total;
  }

  /** The two budgets of a pair: the same settings, and the same bytes for each other. */
  predicate PairBudgets(b: Budget, p: nat, c: Budget, q: nat) {
    && b.connections == c.connections > 0 && b.total == c.total && b.windowBytes == c.windowBytes
    && p < |b.payload| && q < |c.payload| && b.payload[p] == c.payload[q]
  }

  /** What decides whether the two ends of a pair get the same count, from what each end knows. */
  ghost predicate CountsMatch(b: Budget, peers: seq<nat>, p: nat, c: Budget, others: seq<nat>, q: nat)
    requires b.Valid() && InTable(peers, |b.payload|) && p in peers
    requires c.Valid() && InTable(others, |c.payload|) && q in others && p < |b.payload|
  {
    if |peers| == 1 && |others| == 1 then true
    else if |peers| == 1 || |others| == 1 then WindowChannels(b, p) == b.total
    else !Separates(WindowChannels(b, p), LimitOf(b, peers, p), LimitOf(c, others, q))
  }

  /**
   The two ends of a pair get the same channel count if and only if each has the other as its
   only network peer, or one has and the windows alone fill the channel total, or neither has
   and no doubling of the windows lies between the most either end can reach.
   */
  lemma CountsAgree(
    b: Budget, peers: seq<nat>, tableB: seq<nat>, p: nat, c: Budget, others: seq<nat>, tableC: seq<nat>, q: nat)
    requires PairBudgets(b, p, c, q) && b.WellSized() && c.WellSized()
    requires |tableB| == |b.payload| && InTable(peers, |tableB|) && Distinct(peers) && p in peers
    requires |tableC| == |c.payload| && InTable(others, |tableC|) && Distinct(others) && q in others
    ensures Configured(b, peers, tableB)[p] == Configured(c, others, tableC)[q]
       <==> CountsMatch(b, peers, p, c, others, q)
  {
    SameWindows(b, p, c, q);
    if |peers| > 1 && |others| > 1 {
      CountOf(b, peers, tableB, p);
      CountOf(c, others, tableC, q);
      WindowChannelsSound(b, p);
      SameDoublings(WindowChannels(b, p), LimitOf(b, peers, p), LimitOf(c, others, q));
    } else if |peers| > 1 {
      SingleMeetsShared(b, peers, tableB, p);
      assert others == [q];
    } else if |others| > 1 {
      SingleMeetsShared(c, others, tableC, q);
      assert peers == [p];
    } else {
      assert peers == [p] && others == [q];
    }
  }

  lemma SameWindows(b: Budget, p: nat, c: Budget, q: nat)
    requires PairBudgets(b, p, c, q) && b.Valid()
    ensures WindowChannels(b, p) == WindowChannels(c, q)
    ensures SingleCount(b) == SingleCount(c)
  {
  }

  /** Ends whose windows use up their budgets agree. */
  lemma SpentBudgetsAgree(b: Budget, peers: seq<nat>, p: nat, c: Budget, others: seq<nat>, q: nat)
    requires PairBudgets(b, p, c, q) && b.WellSized() && c.WellSized()
    requires InTable(peers, |b.payload|) && Distinct(peers) && p in peers && |peers| > 1
    requires InTable(others, |c.payload|) && Distinct(others) && q in others && |others| > 1
    requires Total(StartOf(b, peers).table, peers) >= b.Channels()
    requires Total(StartOf(c, others).table, others) >= c.Channels()
    ensures CountsMatch(b, peers, p, c, others, q)
  {
    SameWindows(b, p, c, q);
    NoRoom(b, peers, p);
    NoRoom(c, others, q);
  }

  lemma NoRoom(b: Budget, peers: seq<nat>, p: nat)
    requires b.Valid() && InTable(peers, |b.payload|) && p in peers
    requires Total(StartOf(b, peers).table, peers) >= b.Channels()
    ensures LimitOf(b, peers, p) <= WindowChannels(b, p)
  {
    OrderKeeps(b, peers);
    OrderIsPlaced(b, peers);
    var order := ByPayload(b, peers);
    RoomShrinks(b, order, IndexOf(order, p), StartOf(b, peers), Total(b.payload, peers));
  }

  // ---------------------------------------------------------------- budgets and lowerings

  /** The bytes each rank is sent or sends. */
  function PayloadOf(tasks: seq<P.Task>, world: nat): (r: seq<nat>)
    ensures |r| == world && forall p | 0 <= p < world :: r[p] == P.StreamBytes(S.TasksOf(tasks, p))
  {
    if world == 0 then [] else PayloadOf(tasks, world - 1) + [P.StreamBytes(S.TasksOf(tasks, world - 1))]
  }

  function BudgetFor(c: L.Config, connections: nat, tasks: seq<P.Task>): Budget {
    Budget(connections, c.totalChannels, c.networkStepBytes * c.ginFifoDepth, PayloadOf(tasks, c.worldSize))
  }

  /** The peer table of the configuration is what the channel budget makes of some earlier table. */
  ghost predicate Budgeted(c: L.Config, connections: nat, active: seq<nat>, tasks: seq<P.Task>, table: seq<nat>) {
    && L.ConfigDefect(c).None? && connections > 0
    && |table| == c.worldSize && InTable(active, c.worldSize) && Distinct(active)
    && BudgetFor(c, connections, tasks).Valid() && InTable(NetworkPeers(c.peerIsGin, active), c.worldSize)
    && c.peerChannels == Configured(BudgetFor(c, connections, tasks), NetworkPeers(c.peerIsGin, active), table)
  }

  lemma BudgetedIsSized(c: L.Config, connections: nat, active: seq<nat>, tasks: seq<P.Task>, table: seq<nat>)
    requires Budgeted(c, connections, active, tasks, table)
    ensures BudgetFor(c, connections, tasks).WellSized() && Distinct(NetworkPeers(c.peerIsGin, active))
  {
    PowerIsChecked(c.totalChannels);
    NetworkPeersDistinct(c.peerIsGin, active);
  }

  lemma NetworkMember(isGin: seq<bool>, active: seq<nat>, p: nat)
    requires p in active && IsNetwork(isGin, p)
    ensures p in NetworkPeers(isGin, active)
  {
    Sequences.FilterMembers((p: nat) => IsNetwork(isGin, p), active);
  }

  /** The condition of CountsMatch for two budgeted configurations. */
  ghost predicate BudgetsMatch(
    a: L.Config, activeA: seq<nat>, tasksA: seq<P.Task>, b: L.Config, activeB: seq<nat>, tasksB: seq<P.Task>,
    connections: nat)
    requires a.localRank < b.worldSize && b.localRank < a.worldSize
    requires BudgetFor(a, connections, tasksA).Valid() && InTable(NetworkPeers(a.peerIsGin, activeA), a.worldSize)
    requires BudgetFor(b, connections, tasksB).Valid() && InTable(NetworkPeers(b.peerIsGin, activeB), b.worldSize)
    requires b.localRank in NetworkPeers(a.peerIsGin, activeA) && a.localRank in NetworkPeers(b.peerIsGin, activeB)
  {
    CountsMatch(
      BudgetFor(a, connections, tasksA), NetworkPeers(a.peerIsGin, activeA), b.localRank,
      BudgetFor(b, connections, tasksB), NetworkPeers(b.peerIsGin, activeB), a.localRank)
  }

  /** Two network ends that budget alone agree as a pair exactly when their budgets match. */
  lemma BudgetedPairAgrees(
    a: L.Config, activeA: seq<nat>, tasksA: seq<P.Task>, tableA: seq<nat>,
    b: L.Config, activeB: seq<nat>, tasksB: seq<P.Task>, tableB: seq<nat>, connections: nat)
    requires L.SameSettings(a, b) && a.peerIsGin[b.localRank]
    requires Budgeted(a, connections, activeA, tasksA, tableA) && Budgeted(b, connections, activeB, tasksB, tableB)
    requires b.localRank in activeA && a.localRank in activeB
    requires P.StreamBytes(S.TasksOf(tasksA, b.localRank)) == P.StreamBytes(S.TasksOf(tasksB, a.localRank))
    ensures b.localRank in NetworkPeers(a.peerIsGin, activeA) && a.localRank in NetworkPeers(b.peerIsGin, activeB)
    ensures L.PairAgrees(a, b) <==> BudgetsMatch(a, activeA, tasksA, b, activeB, tasksB, connections)
  {
    NetworkMember(a.peerIsGin, activeA, b.localRank);
    NetworkMember(b.peerIsGin, activeB, a.localRank);
    BudgetedIsSized(a, connections, activeA, tasksA, tableA);
    BudgetedIsSized(b, connections, activeB, tasksB, tableB);
    CountsAgree(
      BudgetFor(a, connections, tasksA), NetworkPeers(a.peerIsGin, activeA), tableA, b.localRank,
      BudgetFor(b, connections, tasksB), NetworkPeers(b.peerIsGin, activeB), tableB, a.localRank);
  }

  /** Two network ends whose budgets match execute the same works for each other on every channel. */
  lemma NetworkEndsAgree(
    a: L.Config, activeA: seq<nat>, tasksA: seq<P.Task>, tableA: seq<nat>, sA: S.Schedule, peersA: seq<L.PeerResult>,
    b: L.Config, activeB: seq<nat>, tasksB: seq<P.Task>, tableB: seq<nat>, sB: S.Schedule, peersB: seq<L.PeerResult>,
    connections: nat, channel: nat)
    requires L.SameSettings(a, b) && a.peerIsGin[b.localRank] && channel < a.totalChannels
    requires Budgeted(a, connections, activeA, tasksA, tableA) && Budgeted(b, connections, activeB, tasksB, tableB)
    requires S.Lowered(a, activeA, tasksA, sA, peersA) && S.Lowered(b, activeB, tasksB, sB, peersB)
    requires b.localRank in activeA && a.localRank in activeB
    requires P.StreamBytes(S.TasksOf(tasksA, b.localRank)) == P.StreamBytes(S.TasksOf(tasksB, a.localRank))
    requires b.localRank in NetworkPeers(a.peerIsGin, activeA) && a.localRank in NetworkPeers(b.peerIsGin, activeB)
    requires BudgetsMatch(a, activeA, tasksA, b, activeB, tasksB, connections)
    ensures P.Skeletons(T.PeerWorksOn(peersA, activeA, a.totalChannels, channel, b.localRank))
         == P.Skeletons(T.PeerWorksOn(peersB, activeB, b.totalChannels, channel, a.localRank))
    ensures |sA.nextSteps[b.localRank]| == |sB.nextSteps[a.localRank]| == a.totalChannels
    ensures sA.nextSteps[b.localRank][channel] == sB.nextSteps[a.localRank][channel]
  {
    BudgetedPairAgrees(a, activeA, tasksA, tableA, b, activeB, tasksB, tableB, connections);
    T.EndsAgree(a, activeA, tasksA, sA, peersA, b, activeB, tasksB, sB, peersB, channel);
  }

  // ---------------------------------------------------------------- ends that disagree

  const STREAM: nat := 32768
  const STEP: nat := 4096

  /** The budget of rank 0, whose only network peer is rank 1. */
  function NearBudget(): Budget { Budget(1, 64, STEP, [0, STREAM, 0]) }

  /** The budget of rank 1, whose network peers are ranks 0 and 2, with as many bytes for each. */
  function FarBudget(): Budget { Budget(1, 64, STEP, [STREAM, 0, STREAM]) }

  function NearTable(): seq<nat> { Configured(NearBudget(), [1], [1, 1, 1]) }

  function FarTable(): seq<nat> { Configured(FarBudget(), [0, 2], [1, 1, 1]) }

  /** One of three ranks that differ only in their rank and channel table. */
  function Rank(rank: nat, counts: seq<nat>): L.Config {
    L.Config(rank, 3, 64, 4, 0, STEP, 1, 0, STEP, counts, [true, true, true], [])
  }

  lemma SixtyFour()
    ensures PowerOfTwo(64) && IsPowerOfTwo(64)
  {
    assert Pow2(3) == 8;
    assert Pow2(6) == 64;
    PowerIsChecked(64);
  }

  lemma NearCount()
    ensures NearTable()[1] == 8
  {
    assert RaisedFrom(8, 6) == RaisedFrom(2, 6) == PowerOfTwoUp(6) == 8;
  }

  /** Rank 1's first pass gives the pair two channels, and its share of the budget is three. */
  lemma FarShare(far: Budget)
    requires far == FarBudget()
    ensures far.Valid() && InTable([0, 2], |far.payload|) && far.total == 64
    ensures WindowChannels(far, 0) == 2 && WeightedDemand(far, 0, Total(far.payload, [0, 2])) == 3
  {
    SixtyFour();
    assert far.Base() == 2;
    assert WindowChannels(far, 0) == PowerOfTwoUp(2) == 2;
    TotalSnoc(far.payload, [0], 2);
    TotalSnoc(far.payload, [], 0);
  }

  lemma FarCount()
    ensures FarTable()[0] == 2
  {
    var far := FarBudget();
    FarShare(far);
    assert [0, 2][0] == 0;
    CountOf(far, [0, 2], [1, 1, 1], 0);
    OrderKeeps(far, [0, 2]);
    assert LimitOf(far, [0, 2], 0) <= 3;
  }

  /** Rank 0 gives the pair eight channels and rank 1 gives it two. */
  lemma CountsDisagree()
    ensures NearTable()[1] == 8 && FarTable()[0] == 2
  {
    NearCount();
    FarCount();
  }

  /** The two ranks have the same settings and do not agree as a pair. */
  lemma SettingsAgreeCountsDoNot()
    ensures L.SameSettings(Rank(0, NearTable()), Rank(1, FarTable()))
    ensures !L.PairAgrees(Rank(0, NearTable()), Rank(1, FarTable()))
  {
    SixtyFour();
    CountsDisagree();
  }

  lemma EightChannels()
    ensures Partition.ChannelsFor(STREAM, 8, 8, STEP, true) == 8 && L.HalveToFit(8, 3, 64) == 8
    ensures Partition.PartLow(8, 0, STREAM) == 0 && Partition.PartHigh(8, 0, STREAM) == STEP
    ensures Partition.GinBase(0, 1, 64, 8) == 8 && Partition.PartOn(8, 8, 64) == 0
  {
    assert Partition.DivUp(STREAM, 2048) == 16 && Partition.DivUp(STREAM, 8) == STEP;
    assert Partition.PartBytes(8, STREAM) == STEP;
  }

  lemma TwoChannels()
    ensures Partition.ChannelsFor(STREAM, 2, 2, STEP, true) == 2 && L.HalveToFit(2, 3, 64) == 2
    ensures Partition.GinBase(1, 0, 64, 2) == 2 && Partition.PartOn(2, 8, 64) == 6
  {
    assert Partition.DivUp(STREAM, 2048) == 16;
  }

  /** Rank 0 has works for the pair's stream on channel 8. */
  lemma NearHasWorks(a: L.Config)
    requires a == Rank(0, a.peerChannels) && |a.peerChannels| == 3 && a.peerChannels[1] == 8
    requires L.ConfigDefect(a).None?
    ensures var g := L.GeometryFor(a, 1, STREAM);
      L.ValidGeometry(g) && g.total == 64 && L.ConnectionWorks(g, STREAM, 8, 1) != []
  {
    L.GeometryIsValid(a, 1, STREAM);
    EightChannels();
    var g := L.GeometryFor(a, 1, STREAM);
    assert g.channels == 8 && g.base == 8;
  }

  /** Rank 1 has none there. */
  lemma FarHasNone(b: L.Config)
    requires b == Rank(1, b.peerChannels) && |b.peerChannels| == 3 && b.peerChannels[0] == 2
    requires L.ConfigDefect(b).None?
    ensures var g := L.GeometryFor(b, 0, STREAM);
      L.ValidGeometry(g) && g.total == 64 && L.ConnectionWorks(g, STREAM, 8, 1) == []
  {
    L.GeometryIsValid(b, 0, STREAM);
    TwoChannels();
    var g := L.GeometryFor(b, 0, STREAM);
    assert g.channels == 2 && g.base == 2;
  }

  /**
   So two lowerings of one stream, under the same settings, execute different works for it,
   because each end budgeted its channels alone.
   */
  lemma EndsMayDisagree(
    tasksA: seq<P.Task>, sA: S.Schedule, peersA: seq<L.PeerResult>,
    tasksB: seq<P.Task>, sB: S.Schedule, peersB: seq<L.PeerResult>)
    requires S.Lowered(Rank(0, NearTable()), [1], tasksA, sA, peersA)
    requires S.Lowered(Rank(1, FarTable()), [0, 2], tasksB, sB, peersB)
    requires P.StreamBytes(S.TasksOf(tasksA, 1)) == P.StreamBytes(S.TasksOf(tasksB, 0)) == STREAM
    ensures P.Skeletons(T.PeerWorksOn(peersA, [1], 64, 8, 1)) != P.Skeletons(T.PeerWorksOn(peersB, [0, 2], 64, 8, 0))
  {
    var a, b := Rank(0, NearTable()), Rank(1, FarTable());
    CountsDisagree();
    NearHasWorks(a);
    FarHasNone(b);
    assert [1][0] == 1 && [0, 2][0] == 0;
    T.ChannelKeepsQueues(a, [1], tasksA, sA, peersA, 8, 1);
    T.ChannelKeepsQueues(b, [0, 2], tasksB, sB, peersB, 8, 0);
    assert L.PeerLowered(a, 1, S.TasksOf(tasksA, 1), sA.fragments, peersA[1]);
    assert L.PeerLowered(b, 0, S.TasksOf(tasksB, 0), sB.fragments, peersB[0]);
  }
}
