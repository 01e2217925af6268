/**
 Pipeline layer numbering. The training metadata numbers every stage's local layers on from the
 stages before it, virtual stage by virtual stage; the converter computes one stage's global ids
 from the configured layer counts. Both must give the same numbers.
 */
module PipelineLayers {
  import opened Basics
  import opened SequenceFacts
  import opened Sequences

  /** One parameter's layer id, when its name has one, and virtual stage. */
  datatype ParamLayer = ParamLayer(layer: Option<nat>, vpStage: nat)

  datatype RankLayers = RankLayers(ppRank: nat, ppSize: nat, params: seq<ParamLayer>)

  datatype Stage = Stage(ppRank: nat, vpStage: nat)

  // ---------------------------------------------------------------- ascending lists of a set

  predicate Ascends(s: seq<nat>) {
    forall i, j | 0 <= i < j < |s| :: s[i] < s[j]
  }

  lemma {:induction false} HasGreatest(ids: set<nat>)
    requires ids != {}
    ensures exists m :: m in ids && forall x <- ids :: x <= m
  {
    var x :| x in ids;
    if ids == {x} {
      assert forall y <- ids :: y <= x;
    } else {
      var rest := ids - {x};
      HasGreatest(rest);
      var m :| m in rest && forall y <- rest :: y <= m;
      var top := Max(m, x);
      forall y | y in ids ensures y <= top {
        if y != x { assert y in rest; }
      }
      assert top in ids;
    }
  }

  function Greatest(ids: set<nat>): (m: nat)
    requires ids != {}
    ensures m in ids && forall x <- ids :: x <= m
  {
    HasGreatest(ids);
    var m :| m in ids && forall x <- ids :: x <= m;
    m
  }

  /** The ids in ascending order. */
  function Ascending(ids: set<nat>): (r: seq<nat>)
    ensures |r| == |ids| && Ascends(r) && forall x :: x in r <==> x in ids
    decreases |ids|
  {
    if ids == {} then []
    else
      var m := Greatest(ids);
      Ascending(ids - {m}) + [m]
  }

  function UpTo(n: nat): (r: set<nat>)
    ensures |r| == n && forall x: nat :: x in r <==> x < n
  {
    if n == 0 then {} else UpTo(n - 1) + {n - 1}
  }

  lemma {:induction false} AscendsApart(s: seq<nat>, i: nat, j: nat)
    requires Ascends(s) && i <= j < |s|
    ensures s[j] - s[i] >= j - i
  {
    if i < j { AscendsApart(s, i, j - 1); }
  }

  lemma AscendingUpTo(n: nat, i: nat)
    requires i < n
    ensures Ascending(UpTo(n))[i] == i
  {
    var r := Ascending(UpTo(n));
    AscendsApart(r, 0, i);
    AscendsApart(r, i, n - 1);
    assert r[n - 1] in UpTo(n);
  }

  // ---------------------------------------------------------------- local ids of a stage

  function IdsInParams(params: seq<ParamLayer>, vpStage: nat): set<nat> {
    if params == [] then {}
    else
      var before, last := IdsInParams(params[..|params| - 1], vpStage), params[|params| - 1];
      if last.layer.Some? && last.vpStage == vpStage then before + {last.layer.value} else before
  }

  /** The local layer ids any rank reports for the stage. */
  function IdsOf(metas: seq<RankLayers>, stage: Stage): set<nat> {
    if metas == [] then {}
    else
      var before, last := IdsOf(metas[..|metas| - 1], stage), metas[|metas| - 1];
      if last.ppRank == stage.ppRank then before + IdsInParams(last.params, stage.vpStage) else before
  }

  /** The stages with local ids, and those ids. */
  ghost predicate Collected(ids: map<Stage, set<nat>>, metas: seq<RankLayers>) {
    && (forall s :: s in ids <==> IdsOf(metas, s) != {})
    && forall s <- ids :: ids[s] == IdsOf(metas, s)
  }

  function Lookup(ids: map<Stage, set<nat>>, s: Stage): set<nat> {
    if s in ids then ids[s] else {}
  }

  /** The ids of a stage with those of one rank's first k parameters added. */
  function WithParams(ids: set<nat>, meta: RankLayers, k: nat, s: Stage): set<nat>
    requires k <= |meta.params|
  {
    if s.ppRank == meta.ppRank then ids + IdsInParams(meta.params[..k], s.vpStage) else ids
  }

  method CollectRank(meta: RankLayers, ids: map<Stage, set<nat>>) returns (ids': map<Stage, set<nat>>)
    requires forall s <- ids :: ids[s] != {}
    ensures forall s <- ids' :: ids'[s] != {}
    ensures forall s :: Lookup(ids', s) == WithParams(Lookup(ids, s), meta, |meta.params|, s)
  {
    ids' := ids;
    for i := 0 to |meta.params|
      invariant forall s <- ids' :: ids'[s] != {}
      invariant forall s :: Lookup(ids', s) == WithParams(Lookup(ids, s), meta, i, s)
    {
      TakeInit(meta.params, i);
      var param := meta.params[i];
      if param.layer.Some? {
        var key := Stage(meta.ppRank, param.vpStage);
        ids' := ids'[key := Lookup(ids', key) + {param.layer.value}];
      }
    }
  }

  method Collect(metas: seq<RankLayers>) returns (ids: map<Stage, set<nat>>)
    ensures Collected(ids, metas)
  {
    ids := map[];
    for i := 0 to |metas|
      invariant forall s <- ids :: ids[s] != {}
      invariant forall s :: Lookup(ids, s) == IdsOf(metas[..i], s)
    {
      TakeInit(metas, i);
      TakeAll(metas[i].params);
      ids := CollectRank(metas[i], ids);
    }
    TakeAll(metas);
    forall s ensures s in ids <==> IdsOf(metas, s) != {} { assert Lookup(ids, s) == IdsOf(metas, s); }
    forall s | s in ids ensures ids[s] == IdsOf(metas, s) { assert Lookup(ids, s) == IdsOf(metas, s); }
  }

  // ---------------------------------------------------------------- counting the stages before one

  /** Layers of one virtual stage on the first p pipeline ranks. */
  function RowCount(count: Stage -> nat, v: nat, p: nat): nat {
    if p == 0 then 0 else RowCount(count, v, p - 1) + count(Stage(p - 1, v))
  }

  /** Layers of the first v virtual stages. */
  function RowsCount(count: Stage -> nat, ppSize: nat, v: nat): nat {
    if v == 0 then 0 else RowsCount(count, ppSize, v - 1) + RowCount(count, v - 1, ppSize)
  }

  /** Layers of all stages before the given one, virtual stages first. */
  function StartOf(count: Stage -> nat, ppSize: nat, s: Stage): nat {
    RowsCount(count, ppSize, s.vpStage) + RowCount(count, s.vpStage, s.ppRank)
  }

  function Sizes(ids: map<Stage, set<nat>>): Stage -> nat {
    (s: Stage) => |Lookup(ids, s)|
  }

  /** Consecutive global numbers for the ascending local ids. */
  function Numbered(ids: set<nat>, start: nat): (m: map<nat, nat>)
    ensures m.Keys == ids
    ensures forall o | 0 <= o < |ids| :: m[Ascending(ids)[o]] == start + o
    decreases |ids|
  {
    if ids == {} then map[]
    else
      var top := Greatest(ids);
      Numbered(ids - {top}, start)[top := start + |ids| - 1]
  }

  predicate Before(s: Stage, v: nat, p: nat) {
    s.vpStage < v || (s.vpStage == v && s.ppRank < p)
  }

  ghost predicate HasNumbers(m: map<Stage, map<nat, nat>>, ids: map<Stage, set<nat>>, ppSize: nat, s: Stage)
    requires s in ids
  {
    s in m && m[s] == Numbered(ids[s], StartOf(Sizes(ids), ppSize, s))
  }

  /** Once its turn has come, a stage with layers on a known rank has its numbers. */
  ghost predicate NumbersStage(
    m: map<Stage, map<nat, nat>>, ids: map<Stage, set<nat>>, ppSize: nat, s: Stage, v: nat, p: nat)
  {
    if s in ids && s.ppRank < ppSize && Before(s, v, p) then HasNumbers(m, ids, ppSize, s) else s !in m
  }

  /** The numbering of the stages before pipeline rank p of virtual stage v. */
  ghost predicate NumbersBefore(
    m: map<Stage, map<nat, nat>>, ids: map<Stage, set<nat>>, ppSize: nat, v: nat, p: nat)
  {
    forall s :: NumbersStage(m, ids, ppSize, s, v, p)
  }

  ghost predicate Numbers(m: map<Stage, map<nat, nat>>, ids: map<Stage, set<nat>>, ppSize: nat, s: Stage) {
    if s in ids && s.ppRank < ppSize then HasNumbers(m, ids, ppSize, s) else s !in m
  }

  /** The numbering of all stages. */
  ghost predicate NumbersAll(m: map<Stage, map<nat, nat>>, ids: map<Stage, set<nat>>, ppSize: nat) {
    forall s :: Numbers(m, ids, ppSize, s)
  }

  lemma {:induction false} EmptyRow(ids: map<Stage, set<nat>>, v: nat, p: nat)
    requires forall s <- ids :: s.vpStage != v
    ensures RowCount(Sizes(ids), v, p) == 0
  {
    if p > 0 { EmptyRow(ids, v, p - 1); }
  }

  lemma {:induction false} SkippedRows(ids: map<Stage, set<nat>>, ppSize: nat, v: nat, w: nat)
    requires v <= w && forall s <- ids :: !(v <= s.vpStage < w)
    ensures RowsCount(Sizes(ids), ppSize, w) == RowsCount(Sizes(ids), ppSize, v)
    decreases w
  {
    if v < w {
      SkippedRows(ids, ppSize, v, w - 1);
      EmptyRow(ids, w - 1, ppSize);
    }
  }

  lemma NumbersNext(m: map<Stage, map<nat, nat>>, ids: map<Stage, set<nat>>, ppSize: nat, v: nat, p: nat, q: nat, start: nat)
    requires p < ppSize && q == p + 1 && NumbersBefore(m, ids, ppSize, v, p) && start == StartOf(Sizes(ids), ppSize, Stage(p, v))
    ensures var key := Stage(p, v);
      NumbersBefore(if key in ids then m[key := Numbered(ids[key], start)] else m, ids, ppSize, v, q)
  {
    var key := Stage(p, v);
    var m' := if key in ids then m[key := Numbered(ids[key], start)] else m;
    forall s ensures NumbersStage(m', ids, ppSize, s, v, q) {
      assert NumbersStage(m, ids, ppSize, s, v, p);
      if s != key { assert Before(s, v, q) == Before(s, v, p); }
    }
  }

  lemma RowEnds(m: map<Stage, map<nat, nat>>, ids: map<Stage, set<nat>>, ppSize: nat, v: nat, w: nat)
    requires w == v + 1 && NumbersBefore(m, ids, ppSize, v, ppSize)
    ensures NumbersBefore(m, ids, ppSize, w, 0)
  {
    forall s ensures NumbersStage(m, ids, ppSize, s, w, 0) {
      assert NumbersStage(m, ids, ppSize, s, v, ppSize);
    }
  }

  method NumberStage(
    ids: map<Stage, set<nat>>, ppSize: nat, v: nat, p: nat, next: nat, m: map<Stage, map<nat, nat>>)
    returns (next': nat, m': map<Stage, map<nat, nat>>)
    requires p < ppSize && next == StartOf(Sizes(ids), ppSize, Stage(p, v)) && NumbersBefore(m, ids, ppSize, v, p)
    ensures next' == StartOf(Sizes(ids), ppSize, Stage(p + 1, v)) && NumbersBefore(m', ids, ppSize, v, p + 1)
  {
    var key := Stage(p, v);
    next', m' := next, m;
    NumbersNext(m, ids, ppSize, v, p, p + 1, next);
    if key in ids {
      m' := m[key := Numbered(ids[key], next)];
      next' := next + |ids[key]|;
    }
  }

  method NumberRow(ids: map<Stage, set<nat>>, ppSize: nat, v: nat, next: nat, m: map<Stage, map<nat, nat>>)
    returns (next': nat, m': map<Stage, map<nat, nat>>)
    requires next == RowsCount(Sizes(ids), ppSize, v) && NumbersBefore(m, ids, ppSize, v, 0)
    ensures next' == RowsCount(Sizes(ids), ppSize, v + 1) && NumbersBefore(m', ids, ppSize, v + 1, 0)
  {
    next', m' := next, m;
    for p := 0 to ppSize
      invariant next' == StartOf(Sizes(ids), ppSize, Stage(p, v))
      invariant NumbersBefore(m', ids, ppSize, v, p)
    {
      next', m' := NumberStage(ids, ppSize, v, p, next', m');
    }
    RowEnds(m', ids, ppSize, v, v + 1);
  }

  lemma SkipStages(m: map<Stage, map<nat, nat>>, ids: map<Stage, set<nat>>, ppSize: nat, v: nat, w: nat)
    requires v <= w && (forall s <- ids :: !(v <= s.vpStage < w)) && NumbersBefore(m, ids, ppSize, v, 0)
    ensures NumbersBefore(m, ids, ppSize, w, 0)
  {
    forall s ensures NumbersStage(m, ids, ppSize, s, w, 0) {
      assert NumbersStage(m, ids, ppSize, s, v, 0);
    }
  }

  function VpStages(ids: map<Stage, set<nat>>): (r: seq<nat>)
    ensures Ascends(r) && forall s <- ids :: s.vpStage in r
  {
    var stages := ids.Keys;
    var vps: set<nat> := set s <- stages :: s.vpStage;
    Ascending(vps)
  }

  lemma NothingBetween(vps: seq<nat>, i: nat, v: nat, x: nat)
    requires Ascends(vps) && i < |vps| && x in vps && forall j | 0 <= j < i :: vps[j] < v
    ensures !(v <= x < vps[i])
  {
    var j :| 0 <= j < |vps| && vps[j] == x;
    if i < j { assert vps[i] < vps[j]; }
  }

  lemma GapBefore(ids: map<Stage, set<nat>>, vps: seq<nat>, i: nat, v: nat)
    requires vps == VpStages(ids) && i < |vps| && forall j | 0 <= j < i :: vps[j] < v
    ensures forall s <- ids :: !(v <= s.vpStage < vps[i])
  {
    forall s | s in ids ensures !(v <= s.vpStage < vps[i]) {
      NothingBetween(vps, i, v, s.vpStage);
    }
  }

  lemma AllNumbered(m: map<Stage, map<nat, nat>>, ids: map<Stage, set<nat>>, ppSize: nat, v: nat)
    requires NumbersBefore(m, ids, ppSize, v, 0) && forall x <- VpStages(ids) :: x < v
    ensures NumbersAll(m, ids, ppSize)
  {
    forall s ensures Numbers(m, ids, ppSize, s) {
      assert NumbersStage(m, ids, ppSize, s, v, 0);
      if s in ids { assert s.vpStage in VpStages(ids); }
    }
  }

  /** Numbers virtual stage w, when every stage since v is without layers. */
  method NumberVirtualStage(
    ids: map<Stage, set<nat>>, ppSize: nat, ghost v: nat, w: nat, next: nat, m: map<Stage, map<nat, nat>>)
    returns (next': nat, m': map<Stage, map<nat, nat>>)
    requires v <= w && forall s <- ids :: !(v <= s.vpStage < w)
    requires next == RowsCount(Sizes(ids), ppSize, v) && NumbersBefore(m, ids, ppSize, v, 0)
    ensures next' == RowsCount(Sizes(ids), ppSize, w + 1) && NumbersBefore(m', ids, ppSize, w + 1, 0)
  {
    SkippedRows(ids, ppSize, v, w);
    SkipStages(m, ids, ppSize, v, w);
    next', m' := NumberRow(ids, ppSize, w, next, m);
  }

  lemma NothingYet(ids: map<Stage, set<nat>>, ppSize: nat)
    ensures NumbersBefore(map[], ids, ppSize, 0, 0)
  {
  }

  method NumberStages(ids: map<Stage, set<nat>>, ppSize: nat) returns (m: map<Stage, map<nat, nat>>)
    ensures NumbersAll(m, ids, ppSize)
  {
    m := map[];
    var vps := VpStages(ids);
    var next := 0;
    ghost var v: nat := 0;
    NothingYet(ids, ppSize);
    for i := 0 to |vps|
      invariant (forall j | 0 <= j < i :: vps[j] < v) && (i < |vps| ==> v <= vps[i])
      invariant next == RowsCount(Sizes(ids), ppSize, v) && NumbersBefore(m, ids, ppSize, v, 0)
    {
      GapBefore(ids, vps, i, v);
      next, m := NumberVirtualStage(ids, ppSize, v, vps[i], next, m);
      v := vps[i] + 1;
    }
    AllNumbered(m, ids, ppSize, v);
  }

  /** The stage map of the metadata: virtual stages in order, pipeline ranks within each. */
  method BuildStageMap(metas: seq<RankLayers>)
    returns (ids: map<Stage, set<nat>>, m: map<Stage, map<nat, nat>>)
    ensures Collected(ids, metas)
    ensures if metas == [] then m == map[] else NumbersAll(m, ids, metas[0].ppSize)
  {
    ids := Collect(metas);
    if |ids| == 0 {
      assert forall s :: s !in ids;
      return ids, map[];
    }
    ghost var some :| some in ids;
    assert metas != [];
    m := NumberStages(ids, metas[0].ppSize);
  }

  // ---------------------------------------------------------------- an order-preserving bijection

  lemma {:induction false} RowGrows(count: Stage -> nat, v: nat, p: nat, q: nat)
    requires p < q
    ensures RowCount(count, v, p) + count(Stage(p, v)) <= RowCount(count, v, q)
    decreases q
  {
    if p < q - 1 { RowGrows(count, v, p, q - 1); }
  }

  lemma {:induction false} RowsGrow(count: Stage -> nat, ppSize: nat, v: nat, w: nat)
    requires v < w
    ensures RowsCount(count, ppSize, v) + RowCount(count, v, ppSize) <= RowsCount(count, ppSize, w)
    decreases w
  {
    if v < w - 1 { RowsGrow(count, ppSize, v, w - 1); }
  }

  /** A stage's numbers end before those of any later stage begin. */
  lemma StageEnds(count: Stage -> nat, ppSize: nat, s: Stage, t: Stage)
    requires s.ppRank < ppSize && Before(s, t.vpStage, t.ppRank)
    ensures StartOf(count, ppSize, s) + count(s) <= StartOf(count, ppSize, t)
  {
    assert s == Stage(s.ppRank, s.vpStage);
    if s.vpStage < t.vpStage {
      RowGrows(count, s.vpStage, s.ppRank, ppSize);
      RowsGrow(count, ppSize, s.vpStage, t.vpStage);
    } else {
      RowGrows(count, s.vpStage, s.ppRank, t.ppRank);
    }
  }

  lemma {:induction false} FindInRow(count: Stage -> nat, v: nat, p: nat, g: nat) returns (q: nat)
    requires g < RowCount(count, v, p)
    ensures q < p && RowCount(count, v, q) <= g < RowCount(count, v, q) + count(Stage(q, v))
  {
    if g < RowCount(count, v, p - 1) { q := FindInRow(count, v, p - 1, g); } else { q := p - 1; }
  }

  lemma {:induction false} FindStage(count: Stage -> nat, ppSize: nat, v: nat, g: nat) returns (s: Stage)
    requires g < RowsCount(count, ppSize, v)
    ensures s.ppRank < ppSize && s.vpStage < v
    ensures StartOf(count, ppSize, s) <= g < StartOf(count, ppSize, s) + count(s)
  {
    if g < RowsCount(count, ppSize, v - 1) {
      s := FindStage(count, ppSize, v - 1, g);
    } else {
      var q := FindInRow(count, v - 1, ppSize, g - RowsCount(count, ppSize, v - 1));
      s := Stage(q, v - 1);
    }
  }

  /** The number of a local layer, as its place among the stage's own. */
  lemma NumberAt(m: map<Stage, map<nat, nat>>, ids: map<Stage, set<nat>>, ppSize: nat, s: Stage, l: nat)
    returns (o: nat)
    requires NumbersAll(m, ids, ppSize) && s in ids && s.ppRank < ppSize && l in ids[s]
    ensures o < |ids[s]| && Ascending(ids[s])[o] == l
    ensures s in m && l in m[s] && m[s][l] == StartOf(Sizes(ids), ppSize, s) + o
  {
    assert Numbers(m, ids, ppSize, s);
    assert l in Ascending(ids[s]);
    o :| 0 <= o < |Ascending(ids[s])| && Ascending(ids[s])[o] == l;
  }

  /** Layer l of stage s comes before layer k of stage t. */
  predicate Earlier(s: Stage, l: nat, t: Stage, k: nat) {
    Before(s, t.vpStage, t.ppRank) || (s == t && l < k)
  }

  /** Global numbers follow the order of the stages and of the local ids within a stage. */
  lemma NumbersAreOrdered(
    m: map<Stage, map<nat, nat>>, ids: map<Stage, set<nat>>, ppSize: nat, s: Stage, l: nat, t: Stage, k: nat)
    requires NumbersAll(m, ids, ppSize) && s in ids && t in ids && s.ppRank < ppSize && t.ppRank < ppSize
    requires l in ids[s] && k in ids[t]
    ensures s in m && t in m && l in m[s] && k in m[t] && (m[s][l] < m[t][k] <==> Earlier(s, l, t, k))
  {
    var o := NumberAt(m, ids, ppSize, s, l);
    var q := NumberAt(m, ids, ppSize, t, k);
    if s == t {
      PlacesAscend(Ascending(ids[s]), o, q);
    } else {
      StagesApart(Sizes(ids), ppSize, s, t);
    }
  }

  lemma PlacesAscend(r: seq<nat>, o: nat, q: nat)
    requires Ascends(r) && o < |r| && q < |r|
    ensures o < q <==> r[o] < r[q]
  {
    if q < o { assert r[q] < r[o]; }
  }

  lemma StagesApart(count: Stage -> nat, ppSize: nat, s: Stage, t: Stage)
    requires s != t && s.ppRank < ppSize && t.ppRank < ppSize
    ensures if Before(s, t.vpStage, t.ppRank) then StartOf(count, ppSize, s) + count(s) <= StartOf(count, ppSize, t)
      else StartOf(count, ppSize, t) + count(t) <= StartOf(count, ppSize, s)
  {
    if Before(s, t.vpStage, t.ppRank) { StageEnds(count, ppSize, s, t); } else { StageEnds(count, ppSize, t, s); }
  }

  ghost predicate IsNumber(m: map<Stage, map<nat, nat>>, s: Stage, l: nat, g: nat) {
    s in m && l in m[s] && m[s][l] == g
  }

  /** The numbers are exactly those below the layer total. */
  lemma NumbersAreOnto(m: map<Stage, map<nat, nat>>, ids: map<Stage, set<nat>>, ppSize: nat, vpSize: nat, g: nat)
    requires NumbersAll(m, ids, ppSize) && forall s <- ids :: s.vpStage < vpSize
    ensures g < RowsCount(Sizes(ids), ppSize, vpSize) <==> exists s, l :: IsNumber(m, s, l, g)
  {
    if g < RowsCount(Sizes(ids), ppSize, vpSize) {
      var s := FindStage(Sizes(ids), ppSize, vpSize, g);
      assert Numbers(m, ids, ppSize, s);
      var l := Ascending(ids[s])[g - StartOf(Sizes(ids), ppSize, s)];
      assert l in Ascending(ids[s]);
      assert IsNumber(m, s, l, g);
    }
    if s, l :| IsNumber(m, s, l, g) {
      assert Numbers(m, ids, ppSize, s);
      var o := NumberAt(m, ids, ppSize, s, l);
      StageEnds(Sizes(ids), ppSize, s, Stage(0, vpSize));
    }
  }

  // ---------------------------------------------------------------- the converter's numbers

  datatype ResolveError = InvalidRank | InvalidStage | CountMismatch

  predicate Rectangular(counts: seq<seq<nat>>, vpSize: nat) {
    counts != [] && forall p | 0 <= p < |counts| :: |counts[p]| == vpSize
  }

  /** The configured layer count of a stage; none outside the table. */
  function CountIn(counts: seq<seq<nat>>, s: Stage): nat {
    if s.ppRank < |counts| && s.vpStage < |counts[s.ppRank]| then counts[s.ppRank][s.vpStage] else 0
  }

  function Counts(counts: seq<seq<nat>>): Stage -> nat {
    (s: Stage) => CountIn(counts, s)
  }

  function SumTable(counts: seq<seq<nat>>): nat {
    if counts == [] then 0 else SumTable(counts[..|counts| - 1]) + Sum(counts[|counts| - 1])
  }

  function From(start: nat, n: nat): (r: seq<nat>)
    ensures |r| == n && forall i | 0 <= i < n :: r[i] == start + i
  {
    if n == 0 then [] else From(start, n - 1) + [start + n - 1]
  }

  function Resolved(numLayers: nat, counts: seq<seq<nat>>, ppRank: int, vpStage: int): Result<seq<nat>, ResolveError>
    requires counts != []
  {
    if ppRank < 0 || ppRank >= |counts| then Err(InvalidRank)
    else if vpStage < 0 || vpStage >= |counts[0]| then Err(InvalidStage)
    else if SumTable(counts) != numLayers then Err(CountMismatch)
    else
      var s := Stage(ppRank, vpStage);
      Ok(From(StartOf(Counts(counts), |counts|, s), CountIn(counts, s)))
  }

  /** Adds up the stages before the given one, stopping at it. */
  method StartOffset(counts: seq<seq<nat>>, vpSize: nat, s: Stage) returns (start: nat)
    requires Rectangular(counts, vpSize) && s.ppRank < |counts| && s.vpStage < vpSize
    ensures start == StartOf(Counts(counts), |counts|, s)
  {
    start := 0;
    for v := 0 to vpSize
      invariant v <= s.vpStage && start == RowsCount(Counts(counts), |counts|, v)
    {
      for p := 0 to |counts|
        invariant v == s.vpStage ==> p <= s.ppRank
        invariant start == StartOf(Counts(counts), |counts|, Stage(p, v))
      {
        if p == s.ppRank && v == s.vpStage { return; }
        start := start + counts[p][v];
      }
    }
  }

  method ResolveLayerIds(numLayers: nat, counts: seq<seq<nat>>, ppRank: int, vpStage: int)
    returns (r: Result<seq<nat>, ResolveError>)
    requires counts != [] && Rectangular(counts, |counts[0]|)
    ensures r == Resolved(numLayers, counts, ppRank, vpStage)
  {
    if ppRank < 0 || ppRank >= |counts| { return Err(InvalidRank); }
    if vpStage < 0 || vpStage >= |counts[0]| { return Err(InvalidStage); }
    var s := Stage(ppRank, vpStage);
    var start := StartOffset(counts, |counts[0]|, s);
    if SumTable(counts) != numLayers { return Err(CountMismatch); }
    r := Ok(From(start, counts[ppRank][vpStage]));
  }

  // ---------------------------------------------------------------- both numberings agree

  lemma {:induction false} SameRow(f: Stage -> nat, g: Stage -> nat, v: nat, p: nat)
    requires forall s :: f(s) == g(s)
    ensures RowCount(f, v, p) == RowCount(g, v, p)
  {
    if p > 0 { SameRow(f, g, v, p - 1); }
  }

  lemma {:induction false} SameRows(f: Stage -> nat, g: Stage -> nat, ppSize: nat, v: nat)
    requires forall s :: f(s) == g(s)
    ensures RowsCount(f, ppSize, v) == RowsCount(g, ppSize, v)
  {
    if v > 0 {
      SameRows(f, g, ppSize, v - 1);
      SameRow(f, g, v - 1, ppSize);
    }
  }

  /** The metadata reports, for each stage, the ids from zero up to its configured count. */
  ghost predicate Reports(ids: map<Stage, set<nat>>, counts: seq<seq<nat>>) {
    forall s :: Lookup(ids, s) == UpTo(CountIn(counts, s))
  }

  /**
   When every stage reports the ids 0..count-1, the stage map and the converter number each
   layer alike.
   */
  lemma NumberingsAgree(
    m: map<Stage, map<nat, nat>>, ids: map<Stage, set<nat>>, numLayers: nat, counts: seq<seq<nat>>, s: Stage, l: nat)
    requires counts != [] && NumbersAll(m, ids, |counts|) && Reports(ids, counts)
    requires Resolved(numLayers, counts, s.ppRank, s.vpStage).Ok? && l < CountIn(counts, s)
    ensures var r := Resolved(numLayers, counts, s.ppRank, s.vpStage).value;
      |r| == CountIn(counts, s) && s in m && l in m[s] && m[s][l] == r[l]
  {
    assert s.ppRank < |counts|;
    NumberOf(m, ids, |counts|, CountIn(counts, s), s, l);
    StartsAgree(ids, counts, s);
  }

  /** Where a stage has the ids below n, its l-th number is l past its start. */
  lemma NumberOf(m: map<Stage, map<nat, nat>>, ids: map<Stage, set<nat>>, ppSize: nat, n: nat, s: Stage, l: nat)
    requires Numbers(m, ids, ppSize, s) && Lookup(ids, s) == UpTo(n) && l < n && s.ppRank < ppSize
    ensures s in m && l in m[s] && m[s][l] == StartOf(Sizes(ids), ppSize, s) + l
  {
    assert l in Lookup(ids, s);
    AscendingUpTo(n, l);
    assert m[s][Ascending(ids[s])[l]] == StartOf(Sizes(ids), ppSize, s) + l;
  }

  lemma StartsAgree(ids: map<Stage, set<nat>>, counts: seq<seq<nat>>, s: Stage)
    requires Reports(ids, counts)
    ensures StartOf(Sizes(ids), |counts|, s) == StartOf(Counts(counts), |counts|, s)
  {
    forall t ensures Sizes(ids)(t) == Counts(counts)(t) {
      assert Lookup(ids, t) == UpTo(CountIn(counts, t));
    }
    SameRow(Sizes(ids), Counts(counts), s.vpStage, s.ppRank);
    SameRows(Sizes(ids), Counts(counts), |counts|, s.vpStage);
  }
}
