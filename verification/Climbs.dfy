/** Where the search of an input split goes: the starting points, the climb from
    each of them, and which end point is taken. Everything here is a function of
    the flow and the settings; the solver is proved to compute it. */
module Climbs {
  import opened Common
  import opened Allocations
  import opened Flows
  import opened Ranking

  datatype Settings = Settings(maxSweeps: int, maxStarts: int, neighborhood: int, exhaustiveLimit: int)

  predicate ValidSettings(s: Settings) {
    && 1 <= s.maxSweeps <= 1024
    && 1 <= s.maxStarts <= 128
    && 1 <= s.neighborhood <= 4096
    && 1 <= s.exhaustiveLimit <= 10_000_000
  }

  /** Few enough allocations to look at all of them. */
  ghost predicate Affordable(o: Objective, total: nat, settings: Settings) {
    Arity(o) == 1 || (Arity(o) > 1 && Visits(Arity(o), total) <= settings.exhaustiveLimit)
  }

  // ---------- starting points ----------

  /** Everything on one curve. */
  function Single(count: nat, index: nat, total: nat): (a: seq<nat>)
    requires index < count
    ensures |a| == count && a[index] == total && forall k :: 0 <= k < count && k != index ==> a[k] == 0
  {
    Zeros(count)[index := total]
  }

  lemma SingleSplits(count: nat, index: nat, total: nat)
    requires index < count
    ensures IsSplit(Single(count, index, total), count, total)
  {
    SumZeros(count);
    SumChanged(Zeros(count), Single(count, index, total), index);
  }

  /** The total in equal shares, the first curves taking what is left over. */
  function Equal(count: nat, total: nat): (a: seq<nat>)
    requires count >= 1
    ensures |a| == count && forall i :: 0 <= i < count ==> a[i] == total / count + if i < total % count then 1 else 0
  {
    seq(count, i requires 0 <= i < count => total / count + if i < total % count then 1 else 0)
  }

  /** Half of the total on each of two curves, an odd unit on the right one. */
  function Halves(count: nat, left: nat, right: nat, total: nat): (a: seq<nat>)
    requires left < right < count
    ensures |a| == count && a[left] == total / 2 && a[right] == total - total / 2
    ensures forall k :: 0 <= k < count && k != left && k != right ==> a[k] == 0
  {
    Exchange(Single(count, right, total), left, right, total, total / 2)
  }

  /** A curve alone, the equal split, or two curves with a half each. */
  ghost predicate IsStart(s: seq<nat>, count: nat, total: nat) {
    && count >= 1 && IsSplit(s, count, total)
    && (s == Equal(count, total)
        || (exists i :: 0 <= i < count && s == Single(count, i, total))
        || (exists l, r :: 0 <= l < r < count && s == Halves(count, l, r, total)))
  }

  ghost predicate Distinct(starts: seq<seq<nat>>) {
    forall i, j :: 0 <= i < j < |starts| ==> starts[i] != starts[j]
  }

  // ---------- the climb ----------

  /** True of everything. A definition that stands behind it is unfolded only
      where a proof looks at it. */
  ghost predicate Looked(k: int) { true }

  /** The least of the best shares from low to high. */
  ghost function LeastBestIn(line: seq<int>, low: nat, high: nat): (share: nat)
    requires low <= high < |line|
    ensures low <= share <= high
  {
    if low == high then low
    else
      var best := LeastBestIn(line, low, high - 1);
      if line[high] > line[best] then high else best
  }

  lemma {:induction false} LeastBestCovers(line: seq<int>, low: nat, high: nat, x: nat)
    requires low <= x <= high < |line|
    ensures var share := LeastBestIn(line, low, high); line[x] <= line[share] && (line[x] == line[share] ==> share <= x)
    decreases high
  {
    if low < high {
      LeastBestCovers(line, low, high - 1, if x < high then x else high - 1);
    }
  }

  /** The share that a search of the line ends with. */
  ghost function SearchedShare(line: seq<int>, distance: nat): (share: nat)
    requires |line| > 0
    ensures share < |line|
  {
    var center := Middle(line);
    LeastBestIn(line, if center < distance then 0 else center - distance,
                if center + distance > |line| - 1 then |line| - 1 else center + distance)
  }

  /** It is the least of the best shares near the end of bisection. */
  lemma SearchedIsScanned(line: seq<int>, distance: nat)
    requires |line| > 0
    ensures Scanned(line, Middle(line), distance, SearchedShare(line, distance))
  {
    var center, share := Middle(line), SearchedShare(line, distance);
    var low := if center < distance then 0 else center - distance;
    var high := if center + distance > |line| - 1 then |line| - 1 else center + distance;
    forall x | 0 <= x < |line| && Near(x, center, distance) ensures line[x] <= line[share] && (line[x] == line[share] ==> share <= x) {
      LeastBestCovers(line, low, high, x);
    }
  }

  /** The searched exchange between left and right, where it improves. */
  ghost function BestExchange(o: Objective, a: seq<nat>, left: nat, right: nat, distance: nat): (b: seq<nat>)
    requires |a| == Arity(o) && left < right < |a|
    ensures |b| == |a| && Sum(b) == Sum(a)
  {
    var line := PairLine(o, a, left, right);
    var share := SearchedShare(line, distance);
    SumChanged2(a, Exchange(a, left, right, a[left] + a[right], share), left, right);
    if line[share] > Value(o, a) then Exchange(a, left, right, a[left] + a[right], share) else a
  }

  /** The same, unfolded only where a proof looks at the pair. */
  ghost function PairStep(o: Objective, a: seq<nat>, left: nat, right: nat, distance: nat): (b: seq<nat>)
    requires |a| == Arity(o) && left < right < |a|
    ensures |b| == |a| && Sum(b) == Sum(a)
  {
    assert IsPairStep(o, a, left, right, distance, BestExchange(o, a, left, right, distance));
    var b :| IsPairStep(o, a, left, right, distance, b);
    assert PairLooked(0);
    b
  }

  ghost predicate PairLooked(k: int) { true }

  ghost predicate IsPairStep(o: Objective, a: seq<nat>, left: nat, right: nat, distance: nat, b: seq<nat>)
    requires |a| == Arity(o) && left < right < |a|
  {
    forall k {:trigger PairLooked(k)} :: PairLooked(k) ==> b == BestExchange(o, a, left, right, distance)
  }

  lemma PairStepIs(o: Objective, a: seq<nat>, left: nat, right: nat, distance: nat)
    requires |a| == Arity(o) && left < right < |a|
    ensures PairStep(o, a, left, right, distance) == BestExchange(o, a, left, right, distance)
  {
    assert IsPairStep(o, a, left, right, distance, BestExchange(o, a, left, right, distance));
    assert PairLooked(0);
  }

  /** The exchanges between left and the later amounts below bound. */
  ghost function RowStep(o: Objective, a: seq<nat>, left: nat, bound: nat, distance: nat): (b: seq<nat>)
    requires |a| == Arity(o) && left < bound <= |a|
    ensures |b| == |a| && Sum(b) == Sum(a)
    decreases bound
  {
    if bound == left + 1 then a else PairStep(o, RowStep(o, a, left, bound - 1, distance), left, bound - 1, distance)
  }

  /** The exchanges of all pairs whose first amount is below bound. */
  ghost function SweepStep(o: Objective, a: seq<nat>, bound: nat, distance: nat): (b: seq<nat>)
    requires |a| == Arity(o) && bound <= |a|
    ensures |b| == |a| && Sum(b) == Sum(a)
    decreases bound
  {
    if bound == 0 then a else RowStep(o, SweepStep(o, a, bound - 1, distance), bound - 1, |a|, distance)
  }

  /** Where the climb from a ends, if it does within so many sweeps. */
  ghost function ClimbEnd(o: Objective, a: seq<nat>, sweeps: nat, distance: nat): (end: Option<seq<nat>>)
    requires |a| == Arity(o)
    ensures end.Some? ==> |end.value| == |a| && Sum(end.value) == Sum(a)
    decreases sweeps
  {
    if sweeps == 0 then None
    else
      var b := SweepStep(o, a, |a|, distance);
      if b == a then Some(a) else ClimbEnd(o, b, sweeps - 1, distance)
  }

  /** How the searched share decides. */
  lemma PairStepBy(o: Objective, a: seq<nat>, left: nat, right: nat, distance: nat, share: nat, value: int, now: int)
    requires |a| == Arity(o) && left < right < |a| && now == Value(o, a) && share == SearchedShare(PairLine(o, a, left, right), distance)
    requires value == PairLine(o, a, left, right)[share] && share <= a[left] + a[right]
    ensures PairStep(o, a, left, right, distance) == if value > now then Exchange(a, left, right, a[left] + a[right], share) else a
  {
    PairStepIs(o, a, left, right, distance);
  }

  /** An exchange that is made improves; one that is not has nothing near. */
  lemma PairRises(o: Objective, a: seq<nat>, left: nat, right: nat, distance: nat)
    requires |a| == Arity(o) && left < right < |a|
    ensures var b := PairStep(o, a, left, right, distance);
            if b == a then NothingNear(o, a, left, right, distance) else Value(o, a) < Value(o, b)
  {
    PairStepIs(o, a, left, right, distance);
    var line := PairLine(o, a, left, right);
    SearchedIsScanned(line, distance);
    if line[SearchedShare(line, distance)] <= Value(o, a) {
      NoGainNear(o, a, left, right, distance, SearchedShare(line, distance));
    }
  }

  lemma RowSweptOn(o: Objective, a: seq<nat>, left: nat, right: nat, distance: nat)
    requires |a| == Arity(o) && left < right < |a| && RowSwept(o, a, left, right, distance) && NothingNear(o, a, left, right, distance)
    ensures RowSwept(o, a, left, right + 1, distance)
  {
    if !RowSwept(o, a, left, right + 1, distance) {
      var r :| left < r < right + 1 && r < |a| && !NothingNear(o, a, left, r, distance);
      assert false;
    }
  }

  lemma {:induction false} RowRises(o: Objective, a: seq<nat>, left: nat, bound: nat, distance: nat)
    requires |a| == Arity(o) && left < bound <= |a|
    ensures var b := RowStep(o, a, left, bound, distance);
            if b == a then RowSwept(o, a, left, bound, distance) else Value(o, a) < Value(o, b)
    decreases bound
  {
    if bound > left + 1 {
      var b := RowStep(o, a, left, bound - 1, distance);
      RowRises(o, a, left, bound - 1, distance);
      PairRises(o, b, left, bound - 1, distance);
      if b == a && PairStep(o, a, left, bound - 1, distance) == a { RowSweptOn(o, a, left, bound - 1, distance); }
    } else {
      assert RowStep(o, a, left, bound, distance) == a;
    }
  }

  lemma {:induction false} SweepRises(o: Objective, a: seq<nat>, bound: nat, distance: nat)
    requires |a| == Arity(o) && bound <= |a|
    ensures var b := SweepStep(o, a, bound, distance);
            if b == a then RowsSwept(o, a, bound, distance) else Value(o, a) < Value(o, b)
    decreases bound
  {
    if bound > 0 {
      var b := SweepStep(o, a, bound - 1, distance);
      SweepRises(o, a, bound - 1, distance);
      RowRises(o, b, bound - 1, |a|, distance);
    }
  }

  /** So a climb ends swept, and no lower than it started. */
  lemma {:induction false} ClimbEndsSwept(o: Objective, a: seq<nat>, sweeps: nat, distance: nat)
    requires |a| == Arity(o) && ClimbEnd(o, a, sweeps, distance).Some?
    ensures var end := ClimbEnd(o, a, sweeps, distance).value; Swept(o, end, distance) && Value(o, a) <= Value(o, end)
    decreases sweeps
  {
    SweepRises(o, a, |a|, distance);
    if SweepStep(o, a, |a|, distance) != a { ClimbEndsSwept(o, SweepStep(o, a, |a|, distance), sweeps - 1, distance); }
  }

  // ---------- all climbs ----------

  /** An allocation with its worth. */
  ghost function Rated(o: Objective, a: seq<nat>): Candidate
    requires |a| == Arity(o)
  {
    Candidate(a, Value(o, a))
  }

  ghost predicate AllSized(o: Objective, list: seq<seq<nat>>) { forall i {:trigger list[i]} :: 0 <= i < |list| ==> |list[i]| == Arity(o) }

  /** Best first, ties by key. */
  ghost predicate RatedInOrder(o: Objective, list: seq<seq<nat>>)
    requires AllSized(o, list)
  {
    forall i, j :: 0 <= i < j < |list| ==> !Beats(Rated(o, list[j]), Rated(o, list[i]))
  }

  /** All starting points, best first. */
  ghost predicate RankedStarts(o: Objective, total: nat, starts: seq<seq<nat>>) {
    && Arity(o) >= 1 && AllSized(o, starts) && Distinct(starts) && RatedInOrder(o, starts)
    && forall s: seq<nat> {:trigger IsStart(s, Arity(o), total)} :: s in starts <==> IsStart(s, Arity(o), total)
  }

  /** Only the first few are climbed from. */
  ghost function Chosen(starts: seq<seq<nat>>, limit: nat): seq<seq<nat>> { if |starts| > limit then starts[..limit] else starts }

  ghost predicate AllEnd(o: Objective, starts: seq<seq<nat>>, sweeps: nat, distance: nat)
    requires AllSized(o, starts)
  {
    forall i {:trigger starts[i]} :: 0 <= i < |starts| ==> ClimbEnd(o, starts[i], sweeps, distance).Some?
  }

  /** best is the end of one of these climbs, and no other end beats it. */
  ghost predicate BestEnd(o: Objective, starts: seq<seq<nat>>, sweeps: nat, distance: nat, best: seq<nat>)
    requires AllSized(o, starts) && AllEnd(o, starts, sweeps, distance)
  {
    && |best| == Arity(o)
    && (exists i {:trigger starts[i]} :: 0 <= i < |starts| && ClimbEnd(o, starts[i], sweeps, distance).value == best)
    && forall i {:trigger starts[i]} :: 0 <= i < |starts| ==> !Beats(Rated(o, ClimbEnd(o, starts[i], sweeps, distance).value), Rated(o, best))
  }

  /** Every climb from the first starts ends in time. */
  ghost predicate ClimbsEnd(o: Objective, total: nat, s: Settings)
    requires ValidSettings(s)
  {
    exists starts {:trigger RankedStarts(o, total, starts)} ::
      RankedStarts(o, total, starts) && AllSized(o, Chosen(starts, s.maxStarts))
      && AllEnd(o, Chosen(starts, s.maxStarts), s.maxSweeps, s.neighborhood)
  }

  /** And best is the best of their ends. */
  ghost predicate Climbed(o: Objective, total: nat, s: Settings, best: seq<nat>)
    requires ValidSettings(s)
  {
    exists starts {:trigger RankedStarts(o, total, starts)} ::
      RankedStarts(o, total, starts) && AllSized(o, Chosen(starts, s.maxStarts))
      && AllEnd(o, Chosen(starts, s.maxStarts), s.maxSweeps, s.neighborhood)
      && BestEnd(o, Chosen(starts, s.maxStarts), s.maxSweeps, s.neighborhood, best)
  }

  /** The climbs from the first starts ended there. */
  ghost predicate EndsAre(o: Objective, starts: seq<seq<nat>>, ends: seq<seq<nat>>, s: Settings) {
    match s
    case Settings(sweeps, _, near, _) =>
      && ValidSettings(s) && |ends| <= |starts| && AllSized(o, starts) && AllSized(o, ends)
      && forall i {:trigger ends[i]} :: 0 <= i < |ends| ==> ClimbEnd(o, starts[i], sweeps, near) == Some(ends[i])
  }

  /** Of these ends none beats best, which is one of them. */
  ghost predicate BestIs(o: Objective, ends: seq<seq<nat>>, best: Option<Candidate>) {
    match best
    case None => ends == []
    case Some(c) =>
      && AllSized(o, ends) && c.allocation in ends && |c.allocation| == Arity(o) && c == Rated(o, c.allocation)
      && forall i {:trigger ends[i]} :: 0 <= i < |ends| ==> !Beats(Rated(o, ends[i]), c)
  }

  lemma EndsNext(o: Objective, starts: seq<seq<nat>>, ends: seq<seq<nat>>, s: Settings, end: seq<nat>)
    requires ValidSettings(s) && EndsAre(o, starts, ends, s) && |ends| < |starts|
    requires |starts[|ends|]| == |end| == Arity(o) && ClimbEnd(o, starts[|ends|], s.maxSweeps, s.neighborhood) == Some(end)
    ensures EndsAre(o, starts, ends + [end], s)
  {
    var all := ends + [end];
    forall i | 0 <= i < |all| ensures |all[i]| == Arity(o) && ClimbEnd(o, starts[i], s.maxSweeps, s.neighborhood) == Some(all[i]) {
      if i < |ends| { assert all[i] == ends[i]; }
    }
  }

  lemma BestNext(o: Objective, ends: seq<seq<nat>>, previous: Option<Candidate>, end: Candidate)
    requires BestIs(o, ends, previous) && |end.allocation| == Arity(o) && end == Rated(o, end.allocation)
    ensures BestIs(o, ends + [end.allocation], if previous.None? || Beats(end, previous.value) then Some(end) else previous)
  {
    var all := ends + [end.allocation];
    BeatsIrreflexive(end);
    assert all[|ends|] == end.allocation;
    if previous.Some? {
      assert previous.value.allocation in all by {
        var k :| 0 <= k < |ends| && ends[k] == previous.value.allocation;
        assert all[k] == ends[k];
      }
      forall i | 0 <= i < |ends| ensures !Beats(Rated(o, all[i]), previous.value) && (Beats(end, previous.value) ==> !Beats(Rated(o, all[i]), end)) {
        assert all[i] == ends[i];
        if Beats(end, previous.value) { BeatenBy(Rated(o, ends[i]), previous.value, end); }
      }
      forall i | 0 <= i < |all| ensures |all[i]| == Arity(o) { if i < |ends| { assert all[i] == ends[i]; } }
    }
  }

  /** What comes of all climbs. */
  ghost predicate ClimbsCome(o: Objective, total: nat, s: Settings, best: Option<Candidate>)
    requires ValidSettings(s)
  {
    match best
    case None => !ClimbsEnd(o, total, s)
    case Some(c) =>
      && ClimbsEnd(o, total, s) && Climbed(o, total, s, c.allocation)
      && |c.allocation| == Arity(o) && Swept(o, c.allocation, s.neighborhood)
  }

  lemma ClimbedAll(o: Objective, total: nat, s: Settings, starts: seq<seq<nat>>, ends: seq<seq<nat>>, best: Candidate)
    requires ValidSettings(s) && RankedStarts(o, total, starts) && EndsAre(o, Chosen(starts, s.maxStarts), ends, s)
    requires |ends| == |Chosen(starts, s.maxStarts)| && BestIs(o, ends, Some(best))
    ensures ClimbsCome(o, total, s, Some(best))
  {
    var tops := Chosen(starts, s.maxStarts);
    forall i | 0 <= i < |tops| ensures ClimbEnd(o, tops[i], s.maxSweeps, s.neighborhood) == Some(ends[i]) { assert ends[i] == ends[i]; }
    var k :| 0 <= k < |ends| && ends[k] == best.allocation;
    assert ClimbEnd(o, tops[k], s.maxSweeps, s.neighborhood).value == best.allocation;
    assert AllEnd(o, tops, s.maxSweeps, s.neighborhood) && BestEnd(o, tops, s.maxSweeps, s.neighborhood, best.allocation);
    ClimbEndsSwept(o, tops[k], s.maxSweeps, s.neighborhood);
  }

  /** The best end is swept. */
  lemma ClimbedIsSwept(o: Objective, total: nat, s: Settings, a: seq<nat>)
    requires ValidSettings(s) && Climbed(o, total, s, a)
    ensures |a| == Arity(o) && Swept(o, a, s.neighborhood)
  {
    var starts :| RankedStarts(o, total, starts) && AllSized(o, Chosen(starts, s.maxStarts))
      && AllEnd(o, Chosen(starts, s.maxStarts), s.maxSweeps, s.neighborhood)
      && BestEnd(o, Chosen(starts, s.maxStarts), s.maxSweeps, s.neighborhood, a);
    var tops := Chosen(starts, s.maxStarts);
    var i :| 0 <= i < |tops| && ClimbEnd(o, tops[i], s.maxSweeps, s.neighborhood).value == a;
    ClimbEndsSwept(o, tops[i], s.maxSweeps, s.neighborhood);
  }

  lemma OneDoesNotEnd(o: Objective, total: nat, s: Settings, starts: seq<seq<nat>>, index: nat)
    requires ValidSettings(s) && RankedStarts(o, total, starts) && index < |Chosen(starts, s.maxStarts)|
    requires |Chosen(starts, s.maxStarts)[index]| == Arity(o)
    requires ClimbEnd(o, Chosen(starts, s.maxStarts)[index], s.maxSweeps, s.neighborhood) == None
    ensures ClimbsCome(o, total, s, None)
  {
    forall other | RankedStarts(o, total, other) ensures other == starts { RankedStartsUnique(o, total, other, starts); }
  }

  /** A distinct list in order is determined by what it holds. */
  lemma {:induction false} OrderUnique(o: Objective, x: seq<seq<nat>>, y: seq<seq<nat>>)
    requires AllSized(o, x) && AllSized(o, y) && Distinct(x) && Distinct(y) && RatedInOrder(o, x) && RatedInOrder(o, y)
    requires forall s {:trigger s in x} {:trigger s in y} :: s in x <==> s in y
    ensures x == y
  {
    BothEmpty(x, y);
    if |x| > 0 {
      FirstAgrees(o, x, y);
      forall s | s in x[1..] ensures s in y[1..] { TailHas(x, y, s); }
      forall s | s in y[1..] ensures s in x[1..] { TailHas(y, x, s); }
      OrderUnique(o, x[1..], y[1..]);
    }
  }

  lemma BothEmpty(x: seq<seq<nat>>, y: seq<seq<nat>>)
    requires forall s {:trigger s in x} {:trigger s in y} :: s in x <==> s in y
    ensures |x| == 0 <==> |y| == 0
  {
    assert |x| > 0 ==> x[0] in x;
    assert |y| > 0 ==> y[0] in y;
  }

  lemma TailHas(x: seq<seq<nat>>, y: seq<seq<nat>>, s: seq<nat>)
    requires |x| > 0 && |y| > 0 && x[0] == y[0] && Distinct(x) && s in x[1..] && (forall t :: t in x ==> t in y)
    ensures s in y[1..]
  {
    var i :| 0 <= i < |x| - 1 && x[1..][i] == s;
    assert x[i + 1] == s && s in y;
    var k :| 0 <= k < |y| && y[k] == s;
    assert y[1..][k - 1] == s;
  }

  lemma FirstAgrees(o: Objective, x: seq<seq<nat>>, y: seq<seq<nat>>)
    requires AllSized(o, x) && AllSized(o, y) && RatedInOrder(o, x) && RatedInOrder(o, y) && |x| > 0 && |y| > 0
    requires forall s {:trigger s in x} {:trigger s in y} :: s in x <==> s in y
    ensures x[0] == y[0]
  {
    assert x[0] in x && y[0] in y;
    var k :| 0 <= k < |y| && y[k] == x[0];
    var m :| 0 <= m < |x| && x[m] == y[0];
    if x[0] != y[0] {
      assert !Beats(Rated(o, y[k]), Rated(o, y[0])) && !Beats(Rated(o, x[m]), Rated(o, x[0]));
      BeatsTotal(Rated(o, x[0]), Rated(o, y[0]));
    }
  }

  lemma RankedStartsUnique(o: Objective, total: nat, x: seq<seq<nat>>, y: seq<seq<nat>>)
    requires RankedStarts(o, total, x) && RankedStarts(o, total, y)
    ensures x == y
  {
    forall s: seq<nat> ensures s in x <==> s in y { assert s in x <==> IsStart(s, Arity(o), total); }
    OrderUnique(o, x, y);
  }

  lemma ClimbedUnique(o: Objective, total: nat, s: Settings, a: seq<nat>, b: seq<nat>)
    requires ValidSettings(s) && Climbed(o, total, s, a) && Climbed(o, total, s, b)
    ensures a == b
  {
    var x :| RankedStarts(o, total, x) && AllSized(o, Chosen(x, s.maxStarts))
      && AllEnd(o, Chosen(x, s.maxStarts), s.maxSweeps, s.neighborhood) && BestEnd(o, Chosen(x, s.maxStarts), s.maxSweeps, s.neighborhood, a);
    var y :| RankedStarts(o, total, y) && AllSized(o, Chosen(y, s.maxStarts))
      && AllEnd(o, Chosen(y, s.maxStarts), s.maxSweeps, s.neighborhood) && BestEnd(o, Chosen(y, s.maxStarts), s.maxSweeps, s.neighborhood, b);
    RankedStartsUnique(o, total, x, y);
    if a != b { BeatsTotal(Rated(o, a), Rated(o, b)); }
  }

  // ---------- the answer of a search ----------

  /** The line of two amounts that share the whole input. */
  ghost function WholeLine(o: Objective, total: nat): (line: seq<int>)
    requires Arity(o) == 2
    ensures |line| == total + 1
  {
    PairLine(o, Single(2, 1, total), 0, 1)
  }

  /** a is what a search of that line ends with. */
  ghost predicate OnLine(o: Objective, total: nat, distance: int, a: seq<nat>)
    requires Arity(o) == 2
  {
    |a| == 2 && a[0] + a[1] == total && Scanned(WholeLine(o, total), Middle(WholeLine(o, total)), distance, a[0])
  }

  /** No allocation beats a. */
  ghost predicate Unbeaten(o: Objective, total: nat, a: seq<nat>)
    requires |a| == Arity(o)
  {
    forall b: seq<nat> {:trigger Value(o, b)} :: IsSplit(b, Arity(o), total) ==> !Beats(Rated(o, b), Rated(o, a))
  }

  /** Few enough allocations, one line of them, or climbs that end in time. */
  ghost predicate SearchEnds(o: Objective, total: nat, s: Settings)
    requires ValidSettings(s)
  {
    Affordable(o, total, s) || Arity(o) == 2 || (Arity(o) > 2 && ClimbsEnd(o, total, s))
  }

  /** a is the answer of the search. */
  ghost predicate Found(o: Objective, total: nat, s: Settings, a: seq<nat>)
    requires ValidSettings(s)
  {
    forall k {:trigger Looked(k)} :: Looked(k) ==> IsAnswer(o, total, s, a)
  }

  /** Of all allocations the best with the least key; on one line the least best
      share near the end of bisection; otherwise the best end of the climbs. */
  ghost predicate IsAnswer(o: Objective, total: nat, s: Settings, a: seq<nat>)
    requires ValidSettings(s)
  {
    && Arity(o) >= 1 && IsSplit(a, Arity(o), total)
    && if Affordable(o, total, s) then Unbeaten(o, total, a)
       else if Arity(o) == 2 then OnLine(o, total, s.neighborhood, a)
       else Climbed(o, total, s, a)
  }

  lemma FoundSays(o: Objective, total: nat, s: Settings, a: seq<nat>)
    requires ValidSettings(s)
    ensures Found(o, total, s, a) <==> IsAnswer(o, total, s, a)
  {
    assert Looked(0);
  }

  /** There is one answer. */
  lemma FoundUnique(o: Objective, total: nat, s: Settings, a: seq<nat>, b: seq<nat>)
    requires ValidSettings(s) && Found(o, total, s, a) && Found(o, total, s, b)
    ensures a == b
  {
    FoundSays(o, total, s, a);
    FoundSays(o, total, s, b);
    if Affordable(o, total, s) {
      if a != b {
        assert Value(o, a) == Value(o, a) && Value(o, b) == Value(o, b);
        BeatsTotal(Rated(o, a), Rated(o, b));
      }
    } else if Arity(o) == 2 {
      ScannedUnique(WholeLine(o, total), Middle(WholeLine(o, total)), s.neighborhood, a[0], b[0]);
    } else {
      ClimbedUnique(o, total, s, a, b);
    }
  }

  // ---------- the search as a function ----------

  /** Every split, listed. */
  lemma {:induction false} ListSplits(count: nat, total: nat) returns (list: seq<seq<nat>>)
    ensures forall a: seq<nat> {:trigger a in list} {:trigger IsSplit(a, count, total)} :: a in list <==> IsSplit(a, count, total)
    decreases count, total + 2
  {
    if count == 0 {
      list := if total == 0 then [[]] else [];
    } else {
      list := ListBelow(count, total, total + 1);
      forall a: seq<nat> | IsSplit(a, count, total) ensures a[count - 1] < total + 1 { SumAtLeast(a, count - 1); }
    }
  }

  lemma {:induction false} ListBelow(count: nat, total: nat, bound: nat) returns (list: seq<seq<nat>>)
    requires count >= 1 && bound <= total + 1
    ensures forall a: seq<nat> {:trigger a in list} {:trigger IsSplit(a, count, total)} ::
              a in list <==> IsSplit(a, count, total) && a[count - 1] < bound
    decreases count, bound
  {
    if bound == 0 { return []; }
    var rest := ListBelow(count, total, bound - 1);
    var inner := ListSplits(count - 1, total - (bound - 1));
    var ends: seq<seq<nat>> := seq(|inner|, i requires 0 <= i < |inner| => inner[i] + [bound - 1]);
    list := rest + ends;
    forall a: seq<nat> ensures a in list <==> IsSplit(a, count, total) && a[count - 1] < bound {
      if a in ends {
        var i :| 0 <= i < |ends| && ends[i] == a;
        assert inner[i] in inner && a[..count - 1] == inner[i];
      }
      if IsSplit(a, count, total) && a[count - 1] == bound - 1 {
        assert a[..count - 1] in inner;
        var i :| 0 <= i < |inner| && inner[i] == a[..count - 1];
        assert ends[i] == a;
      }
    }
  }

  lemma {:induction false} BestListed(o: Objective, list: seq<seq<nat>>) returns (best: seq<nat>)
    requires |list| > 0 && AllSized(o, list)
    ensures best in list && forall i {:trigger list[i]} :: 0 <= i < |list| ==> !Beats(Rated(o, list[i]), Rated(o, best))
  {
    var n := |list| - 1;
    BeatsIrreflexive(Rated(o, list[n]));
    if n == 0 { return list[0]; }
    assert AllSized(o, list[..n]) by { forall i | 0 <= i < n ensures |list[..n][i]| == Arity(o) { assert list[..n][i] == list[i]; } }
    var before := BestListed(o, list[..n]);
    best := if Beats(Rated(o, list[n]), Rated(o, before)) then list[n] else before;
    forall i | 0 <= i < |list| ensures !Beats(Rated(o, list[i]), Rated(o, best)) {
      if i < n {
        assert list[..n][i] == list[i];
        if best != before { BeatenBy(Rated(o, list[i]), Rated(o, before), Rated(o, best)); }
      }
    }
  }

  /** What does not beat y does not beat what does. */
  lemma BeatenBy(x: Candidate, y: Candidate, z: Candidate)
    requires !Beats(x, y) && Beats(z, y)
    ensures !Beats(x, z)
  {
    if Beats(x, z) { BeatsTransitive(x, z, y); }
  }

  /** Some allocation is unbeaten. */
  lemma UnbeatenExists(o: Objective, total: nat) returns (a: seq<nat>)
    requires Arity(o) >= 1
    ensures IsSplit(a, Arity(o), total) && Unbeaten(o, total, a)
  {
    var list := ListSplits(Arity(o), total);
    SingleSplits(Arity(o), 0, total);
    assert Single(Arity(o), 0, total) in list;
    assert forall i :: 0 <= i < |list| ==> list[i] in list;
    a := BestListed(o, list);
    forall b: seq<nat> | IsSplit(b, Arity(o), total) ensures !Beats(Rated(o, b), Rated(o, a)) {
      assert b in list;
      var i :| 0 <= i < |list| && list[i] == b;
    }
  }

  lemma EndExists(o: Objective, starts: seq<seq<nat>>, sweeps: nat, distance: nat) returns (a: seq<nat>)
    requires |starts| > 0 && AllSized(o, starts) && AllEnd(o, starts, sweeps, distance)
    ensures BestEnd(o, starts, sweeps, distance, a)
  {
    var ends: seq<seq<nat>> := seq(|starts|, i requires 0 <= i < |starts| => ClimbEnd(o, starts[i], sweeps, distance).value);
    assert forall i :: 0 <= i < |starts| ==> |ends[i]| == |starts[i]|;
    a := BestListed(o, ends);
    var k :| 0 <= k < |ends| && ends[k] == a;
    assert ClimbEnd(o, starts[k], sweeps, distance).value == a;
    assert forall i :: 0 <= i < |starts| ==> ends[i] == ClimbEnd(o, starts[i], sweeps, distance).value;
  }

  /** A search that ends has an answer, and only such a search. */
  lemma AnswerIff(o: Objective, total: nat, s: Settings)
    requires ValidSettings(s) && Arity(o) >= 1
    ensures SearchEnds(o, total, s) <==> exists a :: Found(o, total, s, a)
  {
    if SearchEnds(o, total, s) {
      var a := AnswerExists(o, total, s);
      FoundSays(o, total, s, a);
    }
    if a :| Found(o, total, s, a) { FoundSays(o, total, s, a); }
  }

  lemma AnswerExists(o: Objective, total: nat, s: Settings) returns (a: seq<nat>)
    requires ValidSettings(s) && Arity(o) >= 1 && SearchEnds(o, total, s)
    ensures IsAnswer(o, total, s, a)
  {
    if Affordable(o, total, s) {
      a := UnbeatenExists(o, total);
    } else if Arity(o) == 2 {
      var share := SearchedShare(WholeLine(o, total), s.neighborhood);
      SearchedIsScanned(WholeLine(o, total), s.neighborhood);
      a := [share, total - share];
      SumOfTwo(a);
    } else {
      a := ClimbedExists(o, total, s);
    }
  }

  lemma ClimbedExists(o: Objective, total: nat, s: Settings) returns (a: seq<nat>)
    requires ValidSettings(s) && Arity(o) > 2 && ClimbsEnd(o, total, s)
    ensures IsSplit(a, Arity(o), total) && Climbed(o, total, s, a)
  {
    var starts :| RankedStarts(o, total, starts) && AllSized(o, Chosen(starts, s.maxStarts))
      && AllEnd(o, Chosen(starts, s.maxStarts), s.maxSweeps, s.neighborhood);
    StartsSplit(o, total, starts);
    var tops := Chosen(starts, s.maxStarts);
    a := EndExists(o, tops, s.maxSweeps, s.neighborhood);
    BestEndSplits(o, tops, s.maxSweeps, s.neighborhood, total, a);
  }

  lemma StartsSplit(o: Objective, total: nat, starts: seq<seq<nat>>)
    requires RankedStarts(o, total, starts)
    ensures |starts| > 0 && forall i {:trigger starts[i]} :: 0 <= i < |starts| ==> Sum(starts[i]) == total
  {
    SingleSplits(Arity(o), 0, total);
    assert IsStart(Single(Arity(o), 0, total), Arity(o), total);
    assert Single(Arity(o), 0, total) in starts;
    forall i | 0 <= i < |starts| ensures Sum(starts[i]) == total {
      assert starts[i] in starts;
      assert IsStart(starts[i], Arity(o), total);
    }
  }

  lemma BestEndSplits(o: Objective, starts: seq<seq<nat>>, sweeps: nat, distance: nat, total: nat, a: seq<nat>)
    requires AllSized(o, starts) && AllEnd(o, starts, sweeps, distance) && BestEnd(o, starts, sweeps, distance, a)
    requires forall i {:trigger starts[i]} :: 0 <= i < |starts| ==> Sum(starts[i]) == total
    ensures IsSplit(a, Arity(o), total)
  {
    var i :| 0 <= i < |starts| && ClimbEnd(o, starts[i], sweeps, distance).value == a;
    assert ClimbEnd(o, starts[i], sweeps, distance).Some?;
  }

  /** The answer of the search, if it has one. */
  ghost function Search(o: Objective, total: nat, s: Settings): Option<seq<nat>>
    requires ValidSettings(s)
  {
    if a: seq<nat> :| Found(o, total, s, a) then Some(a) else None
  }

  lemma SearchIs(o: Objective, total: nat, s: Settings, a: seq<nat>)
    requires ValidSettings(s)
    ensures Search(o, total, s) == Some(a) <==> Found(o, total, s, a)
  {
    if Found(o, total, s, a) {
      forall b: seq<nat> | Found(o, total, s, b) ensures b == a { FoundUnique(o, total, s, a, b); }
    }
  }

  lemma SearchIff(o: Objective, total: nat, s: Settings)
    requires ValidSettings(s) && Arity(o) >= 1
    ensures Search(o, total, s).Some? <==> SearchEnds(o, total, s)
  {
    AnswerIff(o, total, s);
  }

  lemma FoundExhaustively(o: Objective, total: nat, s: Settings, a: seq<nat>)
    requires ValidSettings(s) && IsSplit(a, Arity(o), total) && Affordable(o, total, s) && Unbeaten(o, total, a)
    ensures Search(o, total, s) == Some(a)
  {
    FoundSays(o, total, s, a);
    SearchIs(o, total, s, a);
  }

  lemma FoundOnLine(o: Objective, total: nat, s: Settings, a: seq<nat>)
    requires ValidSettings(s) && Arity(o) == 2 && IsSplit(a, 2, total) && !Affordable(o, total, s) && OnLine(o, total, s.neighborhood, a)
    ensures Search(o, total, s) == Some(a)
  {
    FoundSays(o, total, s, a);
    SearchIs(o, total, s, a);
  }

  lemma FoundByClimbs(o: Objective, total: nat, s: Settings, a: seq<nat>)
    requires ValidSettings(s) && Arity(o) > 2 && IsSplit(a, Arity(o), total) && !Affordable(o, total, s) && Climbed(o, total, s, a)
    ensures Search(o, total, s) == Some(a)
  {
    FoundSays(o, total, s, a);
    SearchIs(o, total, s, a);
  }

  lemma NothingFound(o: Objective, total: nat, s: Settings)
    requires ValidSettings(s) && (Arity(o) == 0 || !SearchEnds(o, total, s))
    ensures Search(o, total, s) == None
  {
    if Arity(o) > 0 { SearchIff(o, total, s); }
    if Search(o, total, s).Some? {
      SearchIs(o, total, s, Search(o, total, s).value);
      FoundSays(o, total, s, Search(o, total, s).value);
    }
  }
}
