/**
 The staged exchange: in stage k every rank sends k ranks ahead and receives from k ranks
 behind, in two phases separated by a barrier. A two-colouring of the ranks decides who
 sends first; it works out exactly where the cycles of the stage have even length.
 */
module TwoPhase {
  import opened Basics
  import opened PowersOfTwo

  // ---------------------------------------------------------------- arithmetic

  function Gcd(a: nat, b: nat): nat
    decreases b
  {
    if b == 0 then a else Gcd(b, a % b)
  }

  /** The least i from low on with s * i = 1 modulo w. */
  function FindInverse(s: nat, w: nat, low: nat): Option<nat>
    requires w > 0
    decreases w - low
  {
    if low >= w then None else if s * low % w == 1 % w then Some(low) else FindInverse(s, w, low + 1)
  }

  /** Both arguments are multiples of their greatest common divisor. */
  lemma {:induction false} GcdDivides(a: nat, b: nat) returns (p: nat, q: nat)
    ensures a == Gcd(a, b) * p && b == Gcd(a, b) * q
    decreases b
  {
    if b == 0 {
      p, q := 1, 0;
    } else {
      var r, t := GcdDivides(b, a % b);
      var g, k := Gcd(a, b), a / b;
      assert a == b * k + a % b;
      assert b * k == g * (r * k) by { Regroup(g, r, k); }
      assert g * (r * k) + g * t == g * (r * k + t);
      p, q := r * k + t, r;
    }
  }

  lemma Regroup(a: nat, b: nat, c: nat)
    ensures a * b * c == a * (b * c)
  {
  }

  /** The greatest common divisor is an integer combination of its arguments. */
  lemma {:induction false} Bezout(a: nat, b: nat) returns (x: int, y: int)
    ensures a * x + b * y == Gcd(a, b)
    decreases b
  {
    if b == 0 {
      x, y := 1, 0;
    } else {
      var u, v := Bezout(b, a % b);
      var k := a / b;
      x, y := v, u - k * v;
      BezoutStep(a, b, a % b, k, u, v, Gcd(a, b));
    }
  }

  lemma BezoutStep(a: int, b: int, r: int, k: int, u: int, v: int, g: int)
    requires b * u + r * v == g && a == b * k + r
    ensures a * v + b * (u - k * v) == g
  {
    assert a * v == b * k * v + r * v;
    assert b * (u - k * v) == b * u - b * k * v by {
      assert b * (k * v) == b * k * v;
    }
  }

  lemma ModUnique(x: int, n: int, q: int, r: int)
    requires n > 0 && x == q * n + r && 0 <= r < n
    ensures x % n == r && x / n == q
  {
    DivUnique(x, n, q);
  }

  lemma ModShift(x: int, n: int, k: int)
    requires n > 0
    ensures (x + k * n) % n == x % n
  {
    var q, r := x / n, x % n;
    assert x == q * n + r;
    assert x + k * n == (q + k) * n + r;
    ModUnique(x + k * n, n, q + k, r);
  }

  /** Reducing a factor first does not change a product modulo n. */
  lemma ModProduct(x: int, y: int, n: int)
    requires n > 0
    ensures x % n * y % n == x * y % n
  {
    var q, r := x / n, x % n;
    assert x == q * n + r;
    assert x * y == r * y + q * y * n by {
      assert (q * n + r) * y == q * n * y + r * y;
      assert q * n * y == q * y * n;
    }
    ModShift(r * y, n, q * y);
  }

  /** Adding something that is 1 modulo n moves one step on modulo n. */
  lemma ModSuccessor(x: int, one: int, n: int)
    requires n > 1 && one % n == 1 % n
    ensures (x + one) % n == if x % n == n - 1 then 0 else x % n + 1
  {
    var q, r := x / n, x % n;
    var k := one / n;
    ModUnique(1, n, 0, 1);
    assert x == q * n + r && one == k * n + 1;
    Distribute(q, k, n);
    if r == n - 1 {
      Distribute(q + k, 1, n);
      ModUnique(x + one, n, q + k + 1, 0);
    } else {
      ModUnique(x + one, n, q + k, r + 1);
    }
  }

  lemma Distribute(a: int, b: int, n: int)
    ensures (a + b) * n == a * n + b * n
  {
  }

  lemma {:induction false} FindsInverse(s: nat, w: nat, low: nat, i: nat)
    requires w > 0 && low <= i < w && s * i % w == 1 % w
    ensures FindInverse(s, w, low).Some?
    decreases w - low
  {
    if low < i { FindsInverse(s, w, low + 1, i); }
  }

  lemma {:induction false} FoundIsInverse(s: nat, w: nat, low: nat)
    requires w > 0 && FindInverse(s, w, low).Some?
    ensures FindInverse(s, w, low).value < w && s * FindInverse(s, w, low).value % w == 1 % w
    decreases w - low
  {
    if s * low % w != 1 % w { FoundIsInverse(s, w, low + 1); }
  }

  // ---------------------------------------------------------------- the colouring

  /** The cycles of a stage: how many there are, how long each is, and the step within one. */
  datatype Cycles = Cycles(count: nat, length: nat, step: nat)

  predicate ValidCycles(c: Cycles) {
    c.count > 0 && c.length > 1 && FindInverse(c.step, c.length, 0).Some?
  }

  ghost predicate Fit(c: Cycles, stage: nat, world: nat) {
    ValidCycles(c) && world == c.count * c.length && stage == c.count * c.step
  }

  lemma GcdPositive(stage: nat, world: nat)
    requires 0 < stage && 0 < world
    ensures Gcd(world, stage) > 0
  {
    var p, q := GcdDivides(world, stage);
  }

  function CyclesOf(stage: nat, world: nat): Cycles
    requires 0 < stage && 0 < world
  {
    GcdPositive(stage, world);
    var g := Gcd(world, stage);
    Cycles(g, world / g, stage / g)
  }

  /** A combination of p and q that is one gives q an inverse modulo p. */
  lemma InverseExists(p: nat, q: nat, x: int, y: int)
    requires p > 0 && p * x + q * y == 1
    ensures FindInverse(q, p, 0).Some?
  {
    var i := y % p;
    assert q * y + (0 - 0) == 1 + (-x) * p;
    ModShift(1, p, -x);
    ModProduct(y, q, p);
    assert i * q == q * i && y * q == q * y;
    FindsInverse(q, p, 0, i);
  }

  lemma Cancel(g: int, a: int, b: int)
    requires g > 0 && g * a == g * b
    ensures a == b
  {
    ModUnique(g * a, g, a, 0);
    ModUnique(g * b, g, b, 0);
  }

  lemma ReducedBezout(g: nat, p: nat, q: nat, x: int, y: int)
    requires g > 0 && g * p * x + g * q * y == g
    ensures p * x + q * y == 1
  {
    assert g * p * x == g * (p * x) && g * q * y == g * (q * y);
    assert g * (p * x + q * y) == g * 1;
    Cancel(g, p * x + q * y, 1);
  }

  lemma LongerThanOne(g: nat, p: nat, q: nat)
    requires 0 < g * q < g * p
    ensures p > 1
  {
    if p <= q { MulMonotone(p, q, g); }
    if q == 0 { assert false; }
  }

  lemma CyclesFit(stage: nat, world: nat)
    requires 0 < stage < world
    ensures Fit(CyclesOf(stage, world), stage, world)
  {
    GcdPositive(stage, world);
    var g := Gcd(world, stage);
    var p, q := GcdDivides(world, stage);
    ModUnique(world, g, p, 0);
    ModUnique(stage, g, q, 0);
    LongerThanOne(g, p, q);
    var x, y := Bezout(world, stage);
    ReducedBezout(g, p, q, x, y);
    InverseExists(p, q, x, y);
  }

  /** The position of a rank in its cycle. */
  function Position(rank: nat, c: Cycles): (pos: nat)
    requires ValidCycles(c)
    ensures pos < c.length
  {
    var cycleBase := rank % c.count;
    IndexOf(rank, c.count);
    var cycleIndex := (rank - cycleBase) / c.count;
    FoundIsInverse(c.step, c.length, 0);
    cycleIndex * FindInverse(c.step, c.length, 0).value % c.length
  }

  /** 0 sends first, 1 receives first. */
  function TwoPhasePartition(rank: nat, stage: nat, world: nat): nat
    requires stage < world
  {
    if stage == 0 then 0
    else
      CyclesFit(stage, world);
      Position(rank, CyclesOf(stage, world)) % 2
  }

  lemma IndexOf(rank: nat, count: nat)
    requires count > 0
    ensures (rank - rank % count) / count == rank / count
    ensures rank == count * (rank / count) + rank % count
  {
    var q, r := rank / count, rank % count;
    assert rank == q * count + r;
    ModUnique(rank - r, count, q, 0);
  }

  /** Where the rank after a hop lies: same cycle, index j, when the index before was i. */
  lemma HopLands(g: nat, w: nat, s: nat, b: nat, i: nat, k: nat, j: nat)
    requires b < g && j < w && i + s == k * w + j
    ensures (g * i + b + g * s) % (g * w) == g * j + b
    ensures (g * j + b) % g == b && (g * j + b) / g == j
  {
    var peer := g * j + b;
    assert g * i + g * s == g * (i + s);
    assert g * (k * w + j) == k * (g * w) + g * j by { assert g * (k * w) == k * (g * w); }
    MulMonotone(j, w - 1, g);
    assert (w - 1) * g + g == g * w;
    ModUnique(g * i + b + g * s, g * w, k, peer);
    assert j * g + b == peer;
    ModUnique(peer, g, j, b);
  }

  /** One hop moves a rank's index by the step, modulo the cycle length, and stays in the cycle. */
  lemma HopIndex(rank: nat, stage: nat, world: nat, c: Cycles)
    requires 0 < world && c.count > 0 && c.length > 0 && world == c.count * c.length && stage == c.count * c.step
    ensures var peer := (rank + stage) % world;
      peer % c.count == rank % c.count && peer / c.count == (rank / c.count + c.step) % c.length
  {
    var i, b := rank / c.count, rank % c.count;
    IndexOf(rank, c.count);
    var k, j := Quotient(i + c.step, c.length);
    HopLands(c.count, c.length, c.step, b, i, k, j);
  }

  lemma Quotient(x: nat, n: nat) returns (k: nat, j: nat)
    requires n > 0
    ensures x == k * n + j && j < n && j == x % n
  {
    k, j := x / n, x % n;
  }

  function Next(pos: nat, length: nat): nat {
    if pos + 1 == length then 0 else pos + 1
  }

  /** One hop moves a rank one position on in its cycle. */
  lemma HopPosition(rank: nat, stage: nat, world: nat)
    requires 0 < stage < world
    ensures Fit(CyclesOf(stage, world), stage, world)
    ensures var c := CyclesOf(stage, world); Position((rank + stage) % world, c) == Next(Position(rank, c), c.length)
  {
    CyclesFit(stage, world);
    var c := CyclesOf(stage, world);
    HopIndex(rank, stage, world, c);
    PositionMoves(rank, (rank + stage) % world, c);
  }

  lemma PositionIs(rank: nat, c: Cycles, inv: nat, i: nat)
    requires ValidCycles(c) && inv == FindInverse(c.step, c.length, 0).value && i == rank / c.count
    ensures Position(rank, c) == i * inv % c.length
  {
    IndexOf(rank, c.count);
  }

  /** Multiplying by the inverse turns a hop of the step into one of one. */
  lemma HopTimesInverse(i: nat, step: nat, inv: nat, length: nat)
    requires length > 1 && step * inv % length == 1 % length
    ensures (i + step) % length * inv % length == Next(i * inv % length, length)
  {
    ModProduct(i + step, inv, length);
    Distribute(i, step, inv);
    ModSuccessor(i * inv, step * inv, length);
  }

  lemma PositionMoves(rank: nat, peer: nat, c: Cycles)
    requires ValidCycles(c) && peer / c.count == (rank / c.count + c.step) % c.length
    ensures Position(peer, c) == Next(Position(rank, c), c.length)
  {
    var inv, i := FindInverse(c.step, c.length, 0).value, rank / c.count;
    FoundIsInverse(c.step, c.length, 0);
    PositionIs(rank, c, inv, i);
    PositionIs(peer, c, inv, peer / c.count);
    HopTimesInverse(i, c.step, inv, c.length);
  }

  /**
   Neighbours in a stage get opposite colours, except across the one edge that closes a
   cycle of odd length.
   */
  lemma OppositeUnlessOddWrap(rank: nat, stage: nat, world: nat)
    requires 0 < stage < world
    ensures ValidCycles(CyclesOf(stage, world))
    ensures var c := CyclesOf(stage, world);
      TwoPhasePartition(rank, stage, world) != TwoPhasePartition((rank + stage) % world, stage, world)
      <==> !(c.length % 2 == 1 && Position(rank, c) == c.length - 1)
  {
    HopPosition(rank, stage, world);
  }

  // ---------------------------------------------------------------- the one odd edge of each cycle

  /** The rank of cycle base at a position. */
  function RankAt(base: nat, pos: nat, c: Cycles): nat
    requires c.length > 0
  {
    base + c.count * (pos * c.step % c.length)
  }

  /** Positions and indices determine each other, so each cycle visits each position once. */
  lemma PositionIsIndex(index: nat, pos: nat, c: Cycles)
    requires ValidCycles(c) && index < c.length && pos < c.length
    ensures var inv := FindInverse(c.step, c.length, 0).value;
      index * inv % c.length == pos <==> pos * c.step % c.length == index
  {
    var inv, n := FindInverse(c.step, c.length, 0).value, c.length;
    FoundIsInverse(c.step, n, 0);
    UndoFactor(index, inv, c.step, n);
    UndoFactor(pos, c.step, inv, n);
    assert c.step * inv == inv * c.step;
  }

  /** Multiplying by a number and then by its inverse gives the residue back. */
  lemma UndoFactor(x: nat, a: nat, b: nat, n: nat)
    requires n > 1 && x < n && a * b % n == 1 % n
    ensures x * a % n * b % n == x
  {
    var k := a * b / n;
    ModProduct(x * a, b, n);
    ModUnique(1, n, 0, 1);
    assert a * b == k * n + 1;
    assert x * a * b == x * (a * b);
    assert x * (k * n + 1) == x + x * k * n;
    ModShift(x, n, x * k);
    ModUnique(x, n, 0, x);
  }

  /** Every cycle has exactly one rank at each position, in particular one whose hop closes it. */
  lemma OneRankPerPosition(base: nat, pos: nat, rank: nat, stage: nat, world: nat)
    requires 0 < stage < world && rank < world
    ensures ValidCycles(CyclesOf(stage, world))
    ensures var c := CyclesOf(stage, world);
      base < c.count && pos < c.length ==>
        (rank % c.count == base && Position(rank, c) == pos <==> rank == RankAt(base, pos, c))
  {
    CyclesFit(stage, world);
    var c := CyclesOf(stage, world);
    if base < c.count && pos < c.length {
      RankOfPosition(base, pos, rank, c);
    }
  }

  lemma RankOfPosition(base: nat, pos: nat, rank: nat, c: Cycles)
    requires ValidCycles(c) && base < c.count && pos < c.length && rank < c.count * c.length
    ensures rank % c.count == base && Position(rank, c) == pos <==> rank == RankAt(base, pos, c)
  {
    var index, at := rank / c.count, pos * c.step % c.length;
    IndexOf(rank, c.count);
    IndexBelow(rank, c.count, c.length);
    PositionIsIndex(index, pos, c);
    assert at * c.count + base == base + c.count * at;
    ModUnique(base + c.count * at, c.count, at, base);
  }

  lemma IndexBelow(rank: nat, count: nat, length: nat)
    requires count > 0 && rank < count * length
    ensures rank / count < length
  {
    IndexOf(rank, count);
    if rank / count >= length {
      MulMonotone(length, rank / count, count);
      assert false;
    }
  }

  // ---------------------------------------------------------------- power-of-two worlds

  lemma UnitFactor(p: nat, g: nat)
    requires p * g == 1
    ensures p == 1
  {
    if g == 0 { assert false; }
    MulMonotone(1, g, p);
  }

  /** An odd factor of an even product leaves the evenness to the other factor. */
  lemma OtherIsEven(p: nat, g: nat, half: nat)
    requires p % 2 == 1 && p * g == 2 * half
    ensures g % 2 == 0 && p * (g / 2) == half
  {
    if g % 2 == 1 { OddTimesOdd(p, g); }
    var h := g / 2;
    assert p * (2 * h) == 2 * (p * h);
  }

  lemma {:induction false} OddDivisor(p: nat, g: nat, m: nat)
    requires p % 2 == 1 && p * g == Pow2(m)
    ensures p == 1
    decreases m
  {
    if m == 0 {
      UnitFactor(p, g);
    } else {
      OtherIsEven(p, g, Pow2(m - 1));
      OddDivisor(p, g / 2, m - 1);
    }
  }

  lemma OddTimesOdd(a: nat, b: nat)
    requires a % 2 == 1 && b % 2 == 1
    ensures a * b % 2 == 1
  {
    var x, y := a / 2, b / 2;
    assert a == 2 * x + 1 && b == 2 * y + 1;
    assert a * b == 2 * (x * b) + b;
  }

  /** On a power-of-two world all cycles have even length, so every hop joins opposite colours. */
  lemma PowerOfTwoOpposite(rank: nat, stage: nat, m: nat)
    requires 0 < stage < Pow2(m)
    ensures TwoPhasePartition(rank, stage, Pow2(m)) != TwoPhasePartition((rank + stage) % Pow2(m), stage, Pow2(m))
  {
    var world := Pow2(m);
    OppositeUnlessOddWrap(rank, stage, world);
    CyclesFit(stage, world);
    var c := CyclesOf(stage, world);
    if c.length % 2 == 1 {
      assert c.length * c.count == world;
      OddDivisor(c.length, c.count, m);
    }
  }

  // ---------------------------------------------------------------- the phases of a stage

  function SendTo(rank: nat, stage: nat, world: nat): nat
    requires rank < world && stage < world
  {
    if rank + stage >= world then rank + stage - world else rank + stage
  }

  function RecvFrom(rank: nat, stage: nat, world: nat): nat
    requires rank < world && stage < world
  {
    if rank < stage then rank + world - stage else rank - stage
  }

  function SendPhase(rank: nat, stage: nat, world: nat): nat
    requires stage < world
  {
    if TwoPhasePartition(rank, stage, world) == 0 then 1 else 2
  }

  function RecvPhase(rank: nat, stage: nat, world: nat): nat
    requires stage < world
  {
    if TwoPhasePartition(rank, stage, world) == 0 then 2 else 1
  }

  lemma SendToIsModulo(rank: nat, stage: nat, world: nat)
    requires rank < world && stage < world
    ensures SendTo(rank, stage, world) == (rank + stage) % world < world
    ensures RecvFrom(SendTo(rank, stage, world), stage, world) == rank
  {
    if rank + stage >= world { ModUnique(rank + stage, world, 1, rank + stage - world); }
    else { ModUnique(rank + stage, world, 0, rank + stage); }
  }

  /**
   A send meets its receive in the same phase, with a barrier on both sides of it, exactly
   when the edge does not close a cycle of odd length.
   */
  lemma SendMeetsReceive(rank: nat, stage: nat, world: nat)
    requires 0 < stage < world && rank < world
    ensures ValidCycles(CyclesOf(stage, world))
    ensures var c := CyclesOf(stage, world);
      SendPhase(rank, stage, world) == RecvPhase(SendTo(rank, stage, world), stage, world)
      <==> !(c.length % 2 == 1 && Position(rank, c) == c.length - 1)
  {
    SendToIsModulo(rank, stage, world);
    OppositeUnlessOddWrap(rank, stage, world);
  }

  /** On a power-of-two world every send of every stage meets its receive in the same phase. */
  lemma PowerOfTwoMeets(rank: nat, stage: nat, m: nat)
    requires 0 < stage < Pow2(m) && rank < Pow2(m)
    ensures SendPhase(rank, stage, Pow2(m)) == RecvPhase(SendTo(rank, stage, Pow2(m)), stage, Pow2(m))
  {
    SendToIsModulo(rank, stage, Pow2(m));
    PowerOfTwoOpposite(rank, stage, m);
  }

  /** Three ranks, one step: the edge from rank 2 back to rank 0 joins two ranks that send first. */
  lemma OddCycleCollides()
    ensures TwoPhasePartition(2, 1, 3) == TwoPhasePartition(0, 1, 3)
  {
    assert Gcd(3, 1) == Gcd(1, 0) == 1;
    assert FindInverse(1, 3, 0) == FindInverse(1, 3, 1) == Some(1);
    var c := CyclesOf(1, 3);
    assert c == Cycles(1, 3, 1);
    OppositeUnlessOddWrap(2, 1, 3);
  }
}
