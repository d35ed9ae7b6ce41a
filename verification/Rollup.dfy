/** The daily rollup of an officer's activity: aggregate, score against the officer's own past, raise alerts. */
module Rollup {
  import opened Prelude

  const BASELINE := 14
  const MIN_ACTIVITY := 5

  datatype Officer = Officer(tenant: string, id: nat)

  /** Primary key of officer_daily_stats; a day is a number of days. */
  datatype Key = Key(officer: Officer, day: int)

  datatype Fine = Fine(key: Key, amount: int, cancelled: bool, plate: string)

  /** deviation / sqrt(spread), kept exact. */
  datatype Score = Score(deviation: int, spread: int)

  datatype Stat = Stat(issued: nat, cancelled: nat, total: int, plates: nat, score: Option<Score>)

  type Stats = map<Key, Stat>

  datatype AlertKey = HighZ(key: Key) | HighCancelRate(key: Key)

  /** What an alert recorded when it was raised. */
  datatype Detail = Z(score: Score, issued: nat) | Rate(issued: nat, cancelled: nat)

  /** The open alerts, at most one for each key by the partial unique index. */
  type Alerts = map<AlertKey, Detail>

  // ─── Aggregate ───────────────────────────────────────────────────────────────

  function Issued(fines: seq<Fine>, key: Key): nat {
    if fines == [] then 0 else (if fines[0].key == key then 1 else 0) + Issued(fines[1..], key)
  }

  function Cancelled(fines: seq<Fine>, key: Key): nat {
    if fines == [] then 0
    else (if fines[0].key == key && fines[0].cancelled then 1 else 0) + Cancelled(fines[1..], key)
  }

  function Total(fines: seq<Fine>, key: Key): int {
    if fines == [] then 0
    else (if fines[0].key == key && !fines[0].cancelled then fines[0].amount else 0) + Total(fines[1..], key)
  }

  function Plates(fines: seq<Fine>, key: Key): set<string> {
    set f | f in fines && f.key == key :: f.plate
  }

  function Groups(fines: seq<Fine>, from: int): set<Key> {
    set f | f in fines && f.key.day >= from :: f.key
  }

  function Counted(fines: seq<Fine>, key: Key, score: Option<Score>): Stat {
    Stat(Issued(fines, key), Cancelled(fines, key), Total(fines, key), |Plates(fines, key)|, score)
  }

  /** The upsert: a day without fines keeps its row, and an existing row its score. */
  function Aggregated(stats: Stats, fines: seq<Fine>, from: int): Stats {
    map k | k in stats.Keys + Groups(fines, from) ::
      if k in Groups(fines, from) then Counted(fines, k, if k in stats then stats[k].score else None) else stats[k]
  }

  /** A group has a fine, and neither cancellations nor plates outnumber the fines. */
  lemma {:induction false} CountsFit(fines: seq<Fine>, from: int, key: Key)
    ensures Cancelled(fines, key) <= Issued(fines, key) && |Plates(fines, key)| <= Issued(fines, key)
    ensures key.day >= from ==> (key in Groups(fines, from) <==> Issued(fines, key) > 0)
  {
    if fines != [] {
      var f, rest := fines[0], fines[1..];
      CountsFit(rest, from, key);
      assert fines == [f] + rest;
      assert Plates(fines, key) == Plates(rest, key) + (if f.key == key then {f.plate} else {});
    }
  }

  /** One more fine, wherever it stands in the table, counts for its own key and no other. */
  lemma {:induction false} CountsOneMore(a: seq<Fine>, f: Fine, b: seq<Fine>, key: Key)
    ensures var all, rest, own := a + [f] + b, a + b, f.key == key;
      && Issued(all, key) == Issued(rest, key) + (if own then 1 else 0)
      && Cancelled(all, key) == Cancelled(rest, key) + (if own && f.cancelled then 1 else 0)
      && Total(all, key) == Total(rest, key) + (if own && !f.cancelled then f.amount else 0)
  {
    var all, rest := a + [f] + b, a + b;
    if a == [] {
      assert all[1..] == b && rest == b;
    } else {
      CountsOneMore(a[1..], f, b, key);
      assert all[1..] == a[1..] + [f] + b && rest[1..] == a[1..] + b;
    }
  }

  lemma PlatesOneMore(a: seq<Fine>, f: Fine, b: seq<Fine>, key: Key)
    ensures Plates(a + [f] + b, key) == Plates(a + b, key) + (if f.key == key then {f.plate} else {})
  {
    assert forall g :: g in a + [f] + b <==> g in a + b || g == f;
    var own := if f.key == key then {f.plate} else {};
    forall p ensures p in Plates(a + [f] + b, key) <==> p in Plates(a + b, key) + own {
      if p in Plates(a + b, key) {
        var g :| g in a + b && g.key == key && g.plate == p;
        assert g in a + [f] + b;
      }
    }
  }

  lemma {:induction false} NothingCounted(fines: seq<Fine>, key: Key)
    requires forall g :: g in fines ==> g.key != key
    ensures Issued(fines, key) == 0 && Cancelled(fines, key) == 0 && Total(fines, key) == 0 && Plates(fines, key) == {}
  {
    if fines != [] { NothingCounted(fines[1..], key); }
  }

  predicate HasFine(fines: seq<Fine>, key: Key) {
    exists g :: g in fines && g.key == key
  }

  lemma OtherRowsStay(stats: Stats, a: seq<Fine>, f: Fine, b: seq<Fine>, from: int, k: Key)
    requires k != f.key || k.day < from
    ensures var before, after := Aggregated(stats, a + b, from), Aggregated(stats, a + [f] + b, from);
      (k in after <==> k in before) && (k in after && k in before ==> after[k] == before[k])
  {
    CountsOneMore(a, f, b, k);
    PlatesOneMore(a, f, b, k);
    assert forall g :: g in a + [f] + b <==> g in a + b || g == f;
    assert k in Groups(a + [f] + b, from) <==> k in Groups(a + b, from);
  }

  lemma OwnRowCounts(stats: Stats, a: seq<Fine>, f: Fine, b: seq<Fine>, from: int)
    requires f.key.day >= from && HasFine(a + b, f.key)
    ensures var before, after := Aggregated(stats, a + b, from), Aggregated(stats, a + [f] + b, from);
      && f.key in before && f.key in after
      && var r, q := before[f.key], after[f.key];
      && q.issued == r.issued + 1 && q.cancelled == r.cancelled + (if f.cancelled then 1 else 0)
      && q.total == r.total + (if f.cancelled then 0 else f.amount) && q.score == r.score
      && q.plates == r.plates + (if exists g :: g in a + b && g.key == f.key && g.plate == f.plate then 0 else 1)
  {
    CountsOneMore(a, f, b, f.key);
    PlatesOneMore(a, f, b, f.key);
    assert f in a + [f] + b;
    assert f.key in Groups(a + b, from) && f.key in Groups(a + [f] + b, from);
    var plates := Plates(a + b, f.key);
    if f.plate in plates { assert plates + {f.plate} == plates; }
  }

  lemma FirstFineCounts(stats: Stats, a: seq<Fine>, f: Fine, b: seq<Fine>, from: int)
    requires f.key.day >= from && !HasFine(a + b, f.key)
    ensures var after := Aggregated(stats, a + [f] + b, from);
      && f.key in after
      && after[f.key] == Stat(1, if f.cancelled then 1 else 0, if f.cancelled then 0 else f.amount, 1,
                              if f.key in stats then stats[f.key].score else None)
  {
    CountsOneMore(a, f, b, f.key);
    PlatesOneMore(a, f, b, f.key);
    NothingCounted(a + b, f.key);
    assert f in a + [f] + b;
    assert f.key in Groups(a + [f] + b, from);
    assert Plates(a + [f] + b, f.key) == {f.plate};
  }

  /** What the aggregation writes, fine by fine and in any order: without fines nothing changes; one more fine of the window
      counts once in its own row, among the cancelled or in the total, and with its plate if that is new; every other row,
      and every row for a fine before the window, is as without it. */
  lemma AggregateCounts(stats: Stats, a: seq<Fine>, f: Fine, b: seq<Fine>, from: int, k: Key)
    ensures Aggregated(stats, [], from) == stats
    ensures var before, after := Aggregated(stats, a + b, from), Aggregated(stats, a + [f] + b, from);
      if k != f.key || k.day < from
      then (k in after <==> k in before) && (k in after && k in before ==> after[k] == before[k])
      else
        && k in after
        && (HasFine(a + b, k) ==>
              && k in before
              && after[k].issued == before[k].issued + 1
              && after[k].cancelled == before[k].cancelled + (if f.cancelled then 1 else 0)
              && after[k].total == before[k].total + (if f.cancelled then 0 else f.amount)
              && after[k].plates ==
                   before[k].plates + (if exists g :: g in a + b && g.key == k && g.plate == f.plate then 0 else 1)
              && after[k].score == before[k].score)
        && (!HasFine(a + b, k) ==>
              after[k] == Stat(1, if f.cancelled then 1 else 0, if f.cancelled then 0 else f.amount, 1,
                               if k in stats then stats[k].score else None))
  {
    assert Groups([], from) == {};
    if k != f.key || k.day < from {
      OtherRowsStay(stats, a, f, b, from, k);
    } else if HasFine(a + b, k) {
      OwnRowCounts(stats, a, f, b, from);
    } else {
      FirstFineCounts(stats, a, f, b, from);
    }
  }

  // ─── Score ───────────────────────────────────────────────────────────────────

  /** The counts of up to `room` earlier active days of the officer, newest first, no earlier than `oldest`. */
  function Prior(stats: Stats, officer: Officer, day: int, oldest: int, room: nat): (xs: seq<int>)
    ensures |xs| <= room
    decreases day - oldest
  {
    if day <= oldest || room == 0 then []
    else if Key(officer, day - 1) in stats
    then [stats[Key(officer, day - 1)].issued] + Prior(stats, officer, day - 1, oldest, room - 1)
    else Prior(stats, officer, day - 1, oldest, room)
  }

  /** The officer's newest active days in [oldest, day), newest first: all of them, or `room` of them with none in between
      left out. */
  ghost predicate NewestDays(stats: Stats, officer: Officer, day: int, oldest: int, room: nat, ds: seq<int>) {
    && |ds| <= room
    && (forall i :: 0 <= i < |ds| ==> oldest <= ds[i] < day && Key(officer, ds[i]) in stats)
    && (forall i, j :: 0 <= i < j < |ds| ==> ds[j] < ds[i])
    && (forall e :: oldest <= e < day && Key(officer, e) in stats && e !in ds ==>
          |ds| == room && forall i :: 0 <= i < |ds| ==> e < ds[i])
  }

  /** `xs` are the fines issued on the days `ds`. */
  ghost predicate IssuedOn(stats: Stats, officer: Officer, ds: seq<int>, xs: seq<int>) {
    && |xs| == |ds|
    && forall i :: 0 <= i < |ds| ==> Key(officer, ds[i]) in stats && xs[i] == stats[Key(officer, ds[i])].issued
  }

  lemma OneDayOlder(stats: Stats, officer: Officer, day: int, oldest: int, room: nat, rest: seq<int>)
    requires day > oldest && room > 0 && Key(officer, day - 1) in stats
    requires NewestDays(stats, officer, day - 1, oldest, room - 1, rest)
    ensures NewestDays(stats, officer, day, oldest, room, [day - 1] + rest)
  {
    var ds := [day - 1] + rest;
    forall e | oldest <= e < day && Key(officer, e) in stats && e !in ds
      ensures |ds| == room && forall i :: 0 <= i < |ds| ==> e < ds[i]
    {
      assert e != ds[0];
      assert e !in rest;
    }
  }

  lemma IssuedOneMore(stats: Stats, officer: Officer, d: int, ds: seq<int>, xs: seq<int>)
    requires Key(officer, d) in stats && IssuedOn(stats, officer, ds, xs)
    ensures IssuedOn(stats, officer, [d] + ds, [stats[Key(officer, d)].issued] + xs)
  {
  }

  lemma SkippedDay(stats: Stats, officer: Officer, day: int, oldest: int, room: nat, ds: seq<int>)
    requires day > oldest && room > 0 && Key(officer, day - 1) !in stats
    requires NewestDays(stats, officer, day - 1, oldest, room, ds)
    ensures NewestDays(stats, officer, day, oldest, room, ds)
  {
    forall e | oldest <= e < day && Key(officer, e) in stats && e !in ds
      ensures |ds| == room && forall i :: 0 <= i < |ds| ==> e < ds[i]
    {
      assert e != day - 1;
    }
  }

  /** The baseline holds the fines issued on the officer's newest active days. */
  lemma {:induction false} PriorMeans(stats: Stats, officer: Officer, day: int, oldest: int, room: nat) returns (ds: seq<int>)
    ensures NewestDays(stats, officer, day, oldest, room, ds)
    ensures IssuedOn(stats, officer, ds, Prior(stats, officer, day, oldest, room))
    decreases day - oldest
  {
    if day <= oldest || room == 0 {
      ds := [];
    } else if Key(officer, day - 1) in stats {
      var rest := PriorMeans(stats, officer, day - 1, oldest, room - 1);
      ds := [day - 1] + rest;
      OneDayOlder(stats, officer, day, oldest, room, rest);
      IssuedOneMore(stats, officer, day - 1, rest, Prior(stats, officer, day - 1, oldest, room - 1));
    } else {
      ds := PriorMeans(stats, officer, day - 1, oldest, room);
      SkippedDay(stats, officer, day, oldest, room, ds);
    }
  }

  function Sum(xs: seq<int>): int {
    if xs == [] then 0 else xs[0] + Sum(xs[1..])
  }

  function SumOfSquares(xs: seq<int>): int {
    if xs == [] then 0 else xs[0] * xs[0] + SumOfSquares(xs[1..])
  }

  function Deviation(xs: seq<int>, x: int): int {
    |xs| * x - Sum(xs)
  }

  function Spread(xs: seq<int>): int {
    |xs| * SumOfSquares(xs) - Sum(xs) * Sum(xs)
  }

  function ScoreAgainst(xs: seq<int>, x: int): Option<Score> {
    if |xs| < 3 || Spread(xs) == 0 then None else Some(Score(Deviation(xs, x), Spread(xs)))
  }

  function ScoreOf(stats: Stats, k: Key, from: int): Option<Score>
    requires k in stats
  {
    ScoreAgainst(Prior(stats, k.officer, k.day, from - BASELINE, BASELINE), stats[k].issued)
  }

  function Scored(stats: Stats, from: int): Stats {
    map k | k in stats :: if k.day >= from then stats[k].(score := ScoreOf(stats, k, from)) else stats[k]
  }

  // ─── Alerts ──────────────────────────────────────────────────────────────────

  /** z above 2.0 */
  predicate Outlying(z: Score) {
    z.deviation > 0 && z.deviation * z.deviation > 4 * z.spread
  }

  predicate RaisesZ(s: Stat) {
    s.score.Some? && Outlying(s.score.value)
  }

  /** At least five fines, more than three in ten of them cancelled. */
  predicate RaisesRate(s: Stat) {
    s.issued >= MIN_ACTIVITY && 10 * s.cancelled > 3 * s.issued
  }

  predicate Raises(stats: Stats, from: int, a: AlertKey) {
    a.key in stats && a.key.day >= from && (if a.HighZ? then RaisesZ(stats[a.key]) else RaisesRate(stats[a.key]))
  }

  /** The rows one detector selects, as alerts. */
  function Outliers(stats: Stats, from: int): Alerts {
    map k | k in stats && k.day >= from && RaisesZ(stats[k]) ::
      HighZ(k) := Z(stats[k].score.value, stats[k].issued)
  }

  function HighRates(stats: Stats, from: int): Alerts {
    map k | k in stats && k.day >= from && RaisesRate(stats[k]) ::
      HighCancelRate(k) := Rate(stats[k].issued, stats[k].cancelled)
  }

  /** ON CONFLICT DO NOTHING: an open alert is left as it is. */
  function Inserted(open: Alerts, rows: Alerts): Alerts {
    rows + open
  }

  function Detected(stats: Stats, open: Alerts, from: int): Alerts {
    Inserted(Inserted(open, Outliers(stats, from)), HighRates(stats, from))
  }

  /** What an alert raised now records. */
  function DetailOf(s: Stat, a: AlertKey): Detail
    requires a.HighZ? ==> s.score.Some?
  {
    if a.HighZ? then Z(s.score.value, s.issued) else Rate(s.issued, s.cancelled)
  }

  /** Open afterwards: what was open, as it was, and what the window raises, with its present figures. */
  predicate OpensAt(stats: Stats, open: Alerts, after: Alerts, from: int, a: AlertKey) {
    && (a in after <==> a in open || Raises(stats, from, a))
    && (a in open && a in after ==> after[a] == open[a])
    && (a in after && a !in open && Raises(stats, from, a) ==> after[a] == DetailOf(stats[a.key], a))
  }

  ghost predicate Opens(stats: Stats, open: Alerts, after: Alerts, from: int) {
    forall a :: OpensAt(stats, open, after, from, a)
  }

  lemma DetectorRows(stats: Stats, from: int, a: AlertKey)
    ensures a in Outliers(stats, from) <==> a.HighZ? && Raises(stats, from, a)
    ensures a in HighRates(stats, from) <==> a.HighCancelRate? && Raises(stats, from, a)
    ensures a in Outliers(stats, from) ==> Outliers(stats, from)[a] == DetailOf(stats[a.key], a)
    ensures a in HighRates(stats, from) ==> HighRates(stats, from)[a] == DetailOf(stats[a.key], a)
  {
    match a
    case HighZ(k) => assert Raises(stats, from, a) ==> k in stats && k.day >= from && RaisesZ(stats[k]);
    case HighCancelRate(k) => assert Raises(stats, from, a) ==> k in stats && k.day >= from && RaisesRate(stats[k]);
  }

  lemma DetectedAt(stats: Stats, open: Alerts, from: int, a: AlertKey)
    ensures OpensAt(stats, open, Detected(stats, open, from), from, a)
  {
    DetectorRows(stats, from, a);
  }

  /** Inserting both detectors' rows beside the open alerts does exactly that. */
  lemma DetectionMeans(stats: Stats, open: Alerts, after: Alerts, from: int)
    ensures after == Detected(stats, open, from) <==> Opens(stats, open, after, from)
  {
    var d := Detected(stats, open, from);
    forall a ensures OpensAt(stats, open, d, from, a) { DetectedAt(stats, open, from, a); }
    if Opens(stats, open, after, from) {
      OneOutcome(stats, open, after, d, from);
    }
  }

  lemma OneOutcome(stats: Stats, open: Alerts, x: Alerts, y: Alerts, from: int)
    requires Opens(stats, open, x, from) && Opens(stats, open, y, from)
    ensures x == y
  {
    forall a ensures (a in x <==> a in y) && (a in x && a in y ==> x[a] == y[a]) {
      assert OpensAt(stats, open, x, from, a) && OpensAt(stats, open, y, from, a);
    }
    SameAlerts(x, y);
  }

  lemma SameAlerts(a: Alerts, b: Alerts)
    requires forall k :: k in a <==> k in b
    requires forall k :: k in a && k in b ==> a[k] == b[k]
    ensures a == b
  {
    assert a.Keys == b.Keys;
  }

  class Job {
    var stats: Stats
    var open: Alerts

    constructor ()
      ensures stats == map[] && open == map[]
    {
      stats, open := map[], map[];
    }

    method Aggregate(fines: seq<Fine>, from: int)
      modifies this
      ensures stats == Aggregated(old(stats), fines, from) && open == old(open)
    {
      var groups := Groups(fines, from);
      stats := stats + map k | k in groups :: Counted(fines, k, if k in stats then stats[k].score else None);
    }

    method Score(from: int)
      modifies this
      ensures stats == Scored(old(stats), from) && open == old(open)
    {
      var scores := map k | k in stats && k.day >= from :: ScoreOf(stats, k, from);
      stats := stats + map k | k in scores :: stats[k].(score := scores[k]);
    }

    method DetectAnomalies(from: int)
      modifies this
      ensures stats == old(stats) && Opens(stats, old(open), open, from)
    {
      open := Inserted(open, Outliers(stats, from));
      open := Inserted(open, HighRates(stats, from));
      DetectionMeans(stats, old(open), open, from);
    }

    method RunOnce(fines: seq<Fine>, from: int)
      modifies this
      ensures stats == Scored(Aggregated(old(stats), fines, from), from)
      ensures Opens(stats, old(open), open, from)
    {
      Aggregate(fines, from);
      Score(from);
      DetectAnomalies(from);
    }
  }

  // ─── The decision in integers ────────────────────────────────────────────────

  /** Sum of squared distances from `m`. */
  function Distances(xs: seq<int>, m: real): (d: real)
    ensures d >= 0.0
  {
    if xs == [] then 0.0
    else
      var gap := xs[0] as real - m;
      gap * gap + Distances(xs[1..], m)
  }

  lemma RealProduct(x: int, y: int)
    ensures (x * y) as real == x as real * y as real
  {
  }

  /** What the squared distances of n values with sum s and sum of squares q come to. */
  ghost predicate Expands(d: real, m: real, n: int, s: int, q: int) {
    d == q as real - 2.0 * (m * s as real) + n as real * (m * m)
  }

  lemma ExpandOnce(x: int, m: real, g: real, d: real, n: int, s: int, q: int, d1: real, n1: int, s1: int, q1: int)
    requires Expands(d1, m, n1, s1, q1) && g == x as real - m
    requires d == g * g + d1 && n == 1 + n1 && s == x + s1 && q == x * x + q1
    ensures Expands(d, m, n, s, q)
  {
    var y := x as real;
    RealProduct(x, x);
    assert g * g == y * y - 2.0 * (m * y) + m * m;
    assert m * s as real == m * y + m * s1 as real;
    assert n as real * (m * m) == m * m + n1 as real * (m * m);
  }

  lemma ExpandStep(xs: seq<int>, m: real, d: real, n: int, s: int, q: int, d1: real, s1: int, q1: int)
    requires xs != [] && d == Distances(xs, m) && n == |xs| && s == Sum(xs) && q == SumOfSquares(xs)
    requires d1 == Distances(xs[1..], m) && s1 == Sum(xs[1..]) && q1 == SumOfSquares(xs[1..])
    requires Expands(d1, m, n - 1, s1, q1)
    ensures Expands(d, m, n, s, q)
  {
    var x := xs[0];
    var g := x as real - m;
    assert d == g * g + d1;
    assert q == x * x + q1;
    ExpandOnce(x, m, g, d, n, s, q, d1, n - 1, s1, q1);
  }

  lemma {:induction false} DistancesExpand(xs: seq<int>, m: real)
    ensures Expands(Distances(xs, m), m, |xs|, Sum(xs), SumOfSquares(xs))
  {
    if xs == [] {
      NoValues(m);
    } else {
      DistancesExpand(xs[1..], m);
      ExpandStep(xs, m, Distances(xs, m), |xs|, Sum(xs), SumOfSquares(xs),
                 Distances(xs[1..], m), Sum(xs[1..]), SumOfSquares(xs[1..]));
    }
  }

  lemma NoValues(m: real)
    ensures Expands(0.0, m, 0, 0, 0)
  {
    assert m * 0.0 == 0.0 && 0.0 * (m * m) == 0.0;
  }

  predicate AllAt(xs: seq<int>, m: real) {
    forall i :: 0 <= i < |xs| ==> xs[i] as real == m
  }

  predicate AllEqual(xs: seq<int>) {
    forall i, j :: 0 <= i < |xs| && 0 <= j < |xs| ==> xs[i] == xs[j]
  }

  lemma PositiveProduct(a: real, b: real, p: real)
    requires a > 0.0 && b > 0.0 && p == a * b
    ensures p > 0.0
  {
  }

  lemma SquareOfNegative(d: real, f: real, e: real)
    requires f == -d && e == d * d
    ensures e == f * f
  {
  }

  lemma Square(d: real, e: real)
    requires e == d * d
    ensures d == 0.0 ==> e == 0.0
    ensures d != 0.0 ==> e > 0.0
  {
    if d > 0.0 {
      PositiveProduct(d, d, e);
    } else if d < 0.0 {
      var f := -d;
      SquareOfNegative(d, f, e);
      PositiveProduct(f, f, e);
    }
  }

  lemma {:induction false} NoDistance(xs: seq<int>, m: real)
    ensures Distances(xs, m) == 0.0 <==> AllAt(xs, m)
  {
    if xs != [] {
      NoDistance(xs[1..], m);
      var d := xs[0] as real - m;
      var e := d * d;
      Square(d, e);
      assert Distances(xs, m) == e + Distances(xs[1..], m);
      assert AllAt(xs, m) <==> d == 0.0 && AllAt(xs[1..], m) by {
        assert xs == [xs[0]] + xs[1..];
      }
    }
  }

  lemma {:induction false} SumAt(xs: seq<int>, m: int)
    requires forall i :: 0 <= i < |xs| ==> xs[i] == m
    ensures Sum(xs) == |xs| * m
  {
    if xs != [] { SumAt(xs[1..], m); }
  }

  lemma SpreadProduct(xs: seq<int>, mu: real, n: real, d: real)
    requires n == |xs| as real && mu * n == Sum(xs) as real && d == Distances(xs, mu)
    ensures Spread(xs) as real == n * d
  {
    DistancesExpand(xs, mu);
    SpreadAlgebra(|xs|, Sum(xs), SumOfSquares(xs), mu, n, d, Spread(xs));
  }

  lemma ProductSign(w: int, n: real, d: real)
    requires n > 0.0 && d >= 0.0 && w as real == n * d
    ensures w >= 0 && (w == 0 <==> d == 0.0)
  {
    ZeroProduct(n, d);
  }

  /** The spread is n times the squared distances from the mean, and vanishes exactly for a constant baseline. */
  lemma SpreadMeans(xs: seq<int>, mu: real, n: real, d: real)
    requires xs != [] && n == |xs| as real && mu * n == Sum(xs) as real && d == Distances(xs, mu)
    ensures Spread(xs) as real == n * d
    ensures Spread(xs) >= 0 && (Spread(xs) == 0 <==> AllEqual(xs))
  {
    SpreadProduct(xs, mu, n, d);
    ProductSign(Spread(xs), n, d);
    NoDistance(xs, mu);
    ConstantAtMean(xs, mu, n);
  }

  lemma ZeroProduct(n: real, d: real)
    requires n > 0.0 && d >= 0.0
    ensures n * d >= 0.0 && (n * d == 0.0 <==> d == 0.0)
  {
    if d > 0.0 { Scale(d, 0.0, n); } else { assert n * d == n * 0.0; }
  }

  lemma ConstantAtMean(xs: seq<int>, mu: real, n: real)
    requires xs != [] && n == |xs| as real && mu * n == Sum(xs) as real
    ensures AllAt(xs, mu) <==> AllEqual(xs)
  {
    if AllEqual(xs) {
      SumAt(xs, xs[0]);
      MeanOfConstant(|xs|, n, mu, xs[0], Sum(xs));
    }
  }

  lemma SpreadAlgebra(n: int, s: int, q: int, mu: real, u: real, d: real, w: int)
    requires u == n as real && mu * u == s as real && Expands(d, mu, n, s, q) && w == n * q - s * s
    ensures w as real == u * d
  {
    var v := s as real;
    RealProduct(n, q);
    RealProduct(s, s);
    assert u * (mu * v) == v * v;
    assert u * (u * (mu * mu)) == v * v;
  }

  lemma MeanOfConstant(k: int, n: real, mu: real, x: int, s: int)
    requires n == k as real > 0.0 && s == k * x && mu * n == s as real
    ensures x as real == mu
  {
    RealProduct(k, x);
    assert (mu - x as real) * n == 0.0;
  }

  lemma Scale(a: real, b: real, n: real)
    requires n > 0.0
    ensures a > b <==> a * n > b * n
  {
  }

  lemma SquareOrder(u: real, v: real)
    requires u >= 0.0 && v >= 0.0
    ensures u > v <==> u * u > v * v
  {
    assert u * u - v * v == (u - v) * (u + v);
    if u > v {
      Scale(u - v, 0.0, u + v);
    } else if u < v {
      Scale(v - u, 0.0, u + v);
      assert (v - u) * (u + v) == -((u - v) * (u + v));
    }
  }

  lemma TwiceOver(d: real, t: real)
    requires t >= 0.0
    ensures d > 2.0 * t <==> d > 0.0 && d * d > 4.0 * (t * t)
  {
    assert (2.0 * t) * (2.0 * t) == 4.0 * (t * t);
    if d >= 0.0 { SquareOrder(d, 2.0 * t); }
  }

  lemma Quotient(a: real, sigma: real, z: real)
    requires sigma > 0.0 && z == a / sigma
    ensures z * sigma == a && (z > 2.0 <==> a > 2.0 * sigma) && (z < 0.0 <==> a < 0.0)
  {
    Scale(z, 2.0, sigma);
    Scale(0.0, z, sigma);
  }

  /** In reals: d = (x - mu) * n and t = sigma * n. */
  lemma ScoreAlgebra(e: real, sigma: real, n: real, t: real, d: real, z: real)
    requires sigma > 0.0 && n > 0.0 && z == e / sigma && t == sigma * n && d == e * n
    ensures z > 2.0 <==> d > 0.0 && d * d > 4.0 * (t * t)
    ensures z < 0.0 <==> d < 0.0
    ensures z * z * (t * t) == d * d && t > 0.0
  {
    Quotient(e, sigma, z);
    Scale(sigma, 0.0, n);
    Scale(0.0, e, n);
    Scale(e, 2.0 * sigma, n);
    assert 2.0 * sigma * n == 2.0 * t;
    TwiceOver(d, t);
    assert z * t == d by { assert z * (sigma * n) == (z * sigma) * n; }
    assert z * z * (t * t) == (z * t) * (z * t);
  }

  /** The same with the integer deviation `v` and spread `w`. */
  lemma ScoreInIntegers(z: real, t: real, d: real, v: int, w: int)
    requires z > 2.0 <==> d > 0.0 && d * d > 4.0 * (t * t)
    requires z < 0.0 <==> d < 0.0
    requires z * z * (t * t) == d * d && t > 0.0 && d == v as real && w as real == t * t
    ensures (z > 2.0 <==> Outlying(Score(v, w))) && (z < 0.0 <==> v < 0)
    ensures w > 0 && z * z * w as real == (v * v) as real
  {
    RealProduct(v, v);
    Square(t, w as real);
  }

  lemma ScoreNull(xs: seq<int>, x: int, n: real, d: real, mu: real, sigma: real)
    requires xs != [] && n == |xs| as real && d == Distances(xs, mu)
    requires mu * n == Sum(xs) as real && sigma >= 0.0 && sigma * sigma * n == d
    ensures Spread(xs) == 0 <==> sigma == 0.0
    ensures sigma == 0.0 <==> AllEqual(xs)
  {
    VarianceAlgebra(n, sigma, sigma * n, d);
    SpreadMeans(xs, mu, n, d);
  }

  lemma ScoreValue(xs: seq<int>, x: int, n: real, d: real, mu: real, sigma: real, z: real, v: int, w: int)
    requires xs != [] && n == |xs| as real && d == Distances(xs, mu)
    requires mu * n == Sum(xs) as real && sigma > 0.0 && sigma * sigma * n == d
    requires v == Deviation(xs, x) && w == Spread(xs) && z == (x as real - mu) / sigma
    ensures (z > 2.0 <==> Outlying(Score(v, w))) && (z < 0.0 <==> v < 0)
    ensures w > 0 && z * z * w as real == (v * v) as real
  {
    var t, e := sigma * n, x as real - mu;
    var f := e * n;
    assert w as real == t * t by {
      VarianceAlgebra(n, sigma, t, d);
      SpreadProduct(xs, mu, n, d);
    }
    assert f == v as real by { DeviationAlgebra(|xs|, n, x, Sum(xs), mu, e, f, v); }
    ScoreAlgebra(e, sigma, n, t, f, z);
    ScoreInIntegers(z, t, f, v, w);
  }

  /** The z-score of the source, with mu the mean and sigma the population standard deviation of the baseline: NULL
      exactly as in the integer form, above 2.0 exactly when the integer form says so, and with its sign and its square. */
  lemma ScoreMeans(xs: seq<int>, x: int, n: real, d: real, mu: real, sigma: real)
    requires xs != [] && n == |xs| as real && d == Distances(xs, mu)
    requires mu * n == Sum(xs) as real && sigma >= 0.0 && sigma * sigma * n == d
    ensures ScoreAgainst(xs, x).None? <==> |xs| < 3 || sigma == 0.0
    ensures sigma == 0.0 <==> AllEqual(xs)
    ensures ScoreAgainst(xs, x).Some? ==>
      var z, r := (x as real - mu) / sigma, ScoreAgainst(xs, x).value;
      && (z > 2.0 <==> Outlying(r)) && (z < 0.0 <==> r.deviation < 0)
      && r.spread > 0 && z * z * r.spread as real == (r.deviation * r.deviation) as real
  {
    ScoreNull(xs, x, n, d, mu, sigma);
    assert ScoreAgainst(xs, x).Some? ==> ScoreAgainst(xs, x).value == Score(Deviation(xs, x), Spread(xs));
    if sigma > 0.0 {
      var z := (x as real - mu) / sigma;
      ScoreValue(xs, x, n, d, mu, sigma, z, Deviation(xs, x), Spread(xs));
    }
  }

  lemma VarianceAlgebra(n: real, sigma: real, t: real, d: real)
    requires n > 0.0 && sigma >= 0.0 && t == sigma * n && sigma * sigma * n == d
    ensures n * d == t * t && t >= 0.0 && (n * d == 0.0 <==> sigma == 0.0)
  {
    assert n * (sigma * sigma * n) == (sigma * n) * (sigma * n);
    ZeroProduct(n, sigma);
    Square(t, t * t);
  }

  lemma DeviationAlgebra(k: int, n: real, x: int, s: int, mu: real, e: real, f: real, v: int)
    requires n == k as real && mu * n == s as real && e == x as real - mu && f == e * n && v == k * x - s
    ensures f == v as real
  {
    RealProduct(k, x);
  }

  lemma RateInReals(c: real, n: real, q: real)
    requires n > 0.0 && q == c / n
    ensures q > 0.3 <==> 10.0 * c > 3.0 * n
  {
    assert q * n == c;
    Scale(q, 0.3, n);
  }

  /** fines_cancelled / fines_issued > 0.30 */
  lemma RateMeans(s: Stat)
    ensures RaisesRate(s) <==> s.issued >= 5 && s.cancelled as real / s.issued as real > 0.3
  {
    if s.issued >= 5 {
      RateInReals(s.cancelled as real, s.issued as real, s.cancelled as real / s.issued as real);
    }
  }

  /** Mean and population standard deviation of the counts, if there are any. */
  ghost predicate MeanDeviation(xs: seq<int>, mu: real, sigma: real) {
    xs != [] ==> sigma >= 0.0 && mu * |xs| as real == Sum(xs) as real && sigma * sigma * |xs| as real == Distances(xs, mu)
  }

  lemma OutlierMeans(xs: seq<int>, x: int, mu: real, sigma: real)
    requires |xs| >= 3 && MeanDeviation(xs, mu, sigma)
    ensures ScoreAgainst(xs, x).Some? && Outlying(ScoreAgainst(xs, x).value)
       <==> sigma > 0.0 && (x as real - mu) / sigma > 2.0
  {
    ScoreMeans(xs, x, |xs| as real, Distances(xs, mu), mu, sigma);
  }

  /** NULL, or the z-score of `x` by its sign and its square. */
  ghost predicate ScoresAs(score: Option<Score>, xs: seq<int>, x: int, mu: real, sigma: real) {
    && (score.None? <==> |xs| < 3 || sigma == 0.0)
    && (score.Some? ==>
          sigma != 0.0
          && var z, r := (x as real - mu) / sigma, score.value;
             && (z < 0.0 <==> r.deviation < 0)
             && r.spread > 0 && z * z * r.spread as real == (r.deviation * r.deviation) as real)
  }

  lemma ScoreAgainstMeans(xs: seq<int>, x: int, mu: real, sigma: real)
    requires MeanDeviation(xs, mu, sigma)
    ensures ScoresAs(ScoreAgainst(xs, x), xs, x, mu, sigma)
  {
    if xs != [] { ScoreMeans(xs, x, |xs| as real, Distances(xs, mu), mu, sigma); }
  }

  /** What scoring leaves in a row: its counts, and in the window the z-score of its fines against those issued on the
      officer's up to fourteen newest active days since fourteen days before the window. */
  lemma RowScored(stats: Stats, from: int, k: Key) returns (ds: seq<int>, xs: seq<int>)
    requires k in stats
    ensures NewestDays(stats, k.officer, k.day, from - 14, 14, ds) && IssuedOn(stats, k.officer, ds, xs)
    ensures k in Scored(stats, from) && Scored(stats, from)[k].(score := None) == stats[k].(score := None)
    ensures k.day < from ==> Scored(stats, from)[k] == stats[k]
    ensures k.day >= from ==> forall mu: real, sigma: real :: MeanDeviation(xs, mu, sigma) ==>
      ScoresAs(Scored(stats, from)[k].score, xs, stats[k].issued, mu, sigma)
  {
    ds := PriorMeans(stats, k.officer, k.day, from - 14, 14);
    xs := Prior(stats, k.officer, k.day, from - 14, 14);
    if k.day >= from {
      assert Scored(stats, from)[k].score == ScoreAgainst(xs, stats[k].issued);
      forall mu: real, sigma: real | MeanDeviation(xs, mu, sigma)
        ensures ScoresAs(Scored(stats, from)[k].score, xs, stats[k].issued, mu, sigma)
      {
        ScoreAgainstMeans(xs, stats[k].issued, mu, sigma);
      }
    }
  }

  lemma ZOpened(stats: Stats, open: Alerts, from: int, k: Key)
    ensures var after := Detected(stats, open, from);
      && (HighZ(k) in after <==> HighZ(k) in open || (k in stats && k.day >= from && RaisesZ(stats[k])))
      && (HighZ(k) in after && HighZ(k) !in open ==>
            k in stats && stats[k].score.Some? && after[HighZ(k)] == Z(stats[k].score.value, stats[k].issued))
  {
    DetectedAt(stats, open, from, HighZ(k));
  }

  lemma ScoredRow(stats: Stats, from: int, k: Key)
    requires k in stats && k.day >= from
    ensures k in Scored(stats, from) && Scored(stats, from)[k].issued == stats[k].issued
    ensures Scored(stats, from)[k].score == ScoreAgainst(Prior(stats, k.officer, k.day, from - 14, 14), stats[k].issued)
  {
  }

  lemma ZThreshold(after: bool, before: bool, score: Option<Score>, xs: seq<int>, x: int)
    requires score == ScoreAgainst(xs, x) && (after <==> before || (score.Some? && Outlying(score.value)))
    ensures forall mu: real, sigma: real :: MeanDeviation(xs, mu, sigma) ==>
      (after <==> before || (|xs| >= 3 && sigma > 0.0 && (x as real - mu) / sigma > 2.0))
  {
    forall mu: real, sigma: real | MeanDeviation(xs, mu, sigma)
      ensures after <==> before || (|xs| >= 3 && sigma > 0.0 && (x as real - mu) / sigma > 2.0)
    {
      if |xs| >= 3 { OutlierMeans(xs, x, mu, sigma); }
    }
  }

  lemma ZFromBaseline(stats: Stats, open: Alerts, from: int, k: Key, xs: seq<int>, after: Alerts)
    requires xs == Prior(stats, k.officer, k.day, from - 14, 14) && after == Detected(Scored(stats, from), open, from)
    requires k in stats && k.day >= from
    ensures forall mu: real, sigma: real :: MeanDeviation(xs, mu, sigma) ==>
      (HighZ(k) in after <==>
        HighZ(k) in open || (|xs| >= 3 && sigma > 0.0 && (stats[k].issued as real - mu) / sigma > 2.0))
    ensures HighZ(k) in after && HighZ(k) !in open ==>
      after[HighZ(k)] == Z(Score(Deviation(xs, stats[k].issued), Spread(xs)), stats[k].issued)
  {
    ZOpened(Scored(stats, from), open, from, k);
    ScoredRow(stats, from, k);
    ZThreshold(HighZ(k) in after, HighZ(k) in open, Scored(stats, from)[k].score, xs, stats[k].issued);
  }

  /** Which alerts are open after scoring and detecting. The first kind: those open before, and for a row of the window
      those where the fines issued on the officer's up to fourteen newest active days since fourteen days before the
      window, at least three, deviate and leave the row's own above two standard deviations over their mean. */
  lemma ZAlertMeans(stats: Stats, open: Alerts, from: int, k: Key, after: Alerts) returns (ds: seq<int>, xs: seq<int>)
    requires after == Detected(Scored(stats, from), open, from)
    ensures NewestDays(stats, k.officer, k.day, from - 14, 14, ds) && IssuedOn(stats, k.officer, ds, xs)
    ensures k !in stats || k.day < from ==> (HighZ(k) in after <==> HighZ(k) in open)
    ensures k in stats && k.day >= from ==> forall mu: real, sigma: real :: MeanDeviation(xs, mu, sigma) ==>
      (HighZ(k) in after <==>
        HighZ(k) in open || (|xs| >= 3 && sigma > 0.0 && (stats[k].issued as real - mu) / sigma > 2.0))
    ensures HighZ(k) in after && HighZ(k) !in open ==>
      k in stats && after[HighZ(k)] == Z(Score(Deviation(xs, stats[k].issued), Spread(xs)), stats[k].issued)
  {
    ds := PriorMeans(stats, k.officer, k.day, from - 14, 14);
    xs := Prior(stats, k.officer, k.day, from - 14, 14);
    if k in stats && k.day >= from {
      ZFromBaseline(stats, open, from, k, xs, after);
    } else {
      ZOpened(Scored(stats, from), open, from, k);
    }
  }

  /** The second kind: those open before, and those of a row of the window with at least five fines, more than three in
      ten of them cancelled. */
  lemma RateAlertMeans(stats: Stats, open: Alerts, from: int, k: Key)
    ensures var after := Detected(stats, open, from);
      && (HighCancelRate(k) in after <==>
            HighCancelRate(k) in open ||
            (k in stats && k.day >= from && stats[k].issued >= 5
             && stats[k].cancelled as real / stats[k].issued as real > 0.3))
      && (HighCancelRate(k) in after && HighCancelRate(k) !in open ==>
            k in stats && after[HighCancelRate(k)] == Rate(stats[k].issued, stats[k].cancelled))
  {
    DetectedAt(stats, open, from, HighCancelRate(k));
    if k in stats { RateMeans(stats[k]); }
  }

  // ─── Repeated sweeps ─────────────────────────────────────────────────────────

  predicate SameCounts(a: Stats, b: Stats) {
    a.Keys == b.Keys && forall k :: k in a ==> a[k].(score := None) == b[k].(score := None)
  }

  lemma {:induction false} PriorSame(a: Stats, b: Stats, officer: Officer, day: int, oldest: int, room: nat)
    requires SameCounts(a, b)
    ensures Prior(a, officer, day, oldest, room) == Prior(b, officer, day, oldest, room)
    decreases day - oldest
  {
    if day > oldest && room > 0 {
      var k := Key(officer, day - 1);
      assert k in a <==> k in b;
      if k in a {
        assert a[k].(score := None) == b[k].(score := None);
        PriorSame(a, b, officer, day - 1, oldest, room - 1);
      } else {
        PriorSame(a, b, officer, day - 1, oldest, room);
      }
    }
  }

  lemma ScoredSame(a: Stats, b: Stats, from: int)
    requires SameCounts(a, b) && forall k :: k in a && k.day < from ==> a[k] == b[k]
    ensures Scored(a, from) == Scored(b, from)
  {
    forall k | k in a ensures k in b && Scored(a, from)[k] == Scored(b, from)[k] {
      assert a[k].(score := None) == b[k].(score := None);
      PriorSame(a, b, k.officer, k.day, from - BASELINE, BASELINE);
    }
    assert Scored(a, from).Keys == a.Keys && Scored(b, from).Keys == b.Keys;
  }

  lemma ScoredKeepsCounts(stats: Stats, from: int)
    ensures SameCounts(stats, Scored(stats, from))
    ensures forall k :: k in stats && k.day < from ==> Scored(stats, from)[k] == stats[k]
  {
  }

  /** The phases of concurrent sweeps over the same fines; alerts are also resolved in between. */
  datatype Phase = AggregatePhase | ScorePhase | DetectPhase | Resolve(alert: AlertKey)

  datatype Tables = Tables(stats: Stats, open: Alerts)

  function Next(t: Tables, phase: Phase, fines: seq<Fine>, from: int): Tables {
    match phase
    case AggregatePhase => t.(stats := Aggregated(t.stats, fines, from))
    case ScorePhase => t.(stats := Scored(t.stats, from))
    case DetectPhase => t.(open := Detected(t.stats, t.open, from))
    case Resolve(a) => t.(open := t.open - {a})
  }

  function RunPhases(t: Tables, phases: seq<Phase>, fines: seq<Fine>, from: int): Tables {
    if phases == [] then t
    else Next(RunPhases(t, phases[..|phases| - 1], fines, from), phases[|phases| - 1], fines, from)
  }

  function Swept(stats: Stats, fines: seq<Fine>, from: int): Stats {
    Scored(Aggregated(stats, fines, from), from)
  }

  /** The counts of the window are those of the fines. */
  predicate Fresh(stats: Stats, fines: seq<Fine>, from: int) {
    forall k :: k in Groups(fines, from) ==> k in stats && stats[k] == Counted(fines, k, stats[k].score)
  }

  lemma FreshIsAggregated(stats: Stats, fines: seq<Fine>, from: int)
    requires Fresh(stats, fines, from)
    ensures Aggregated(stats, fines, from) == stats
  {
    assert stats.Keys + Groups(fines, from) == stats.Keys;
  }

  lemma AggregatedAfterScore(stats: Stats, fines: seq<Fine>, from: int)
    ensures Swept(Scored(stats, from), fines, from) == Swept(stats, fines, from)
  {
    var a, b := Aggregated(Scored(stats, from), fines, from), Aggregated(stats, fines, from);
    ScoredKeepsCounts(stats, from);
    assert Scored(stats, from).Keys == stats.Keys;
    forall k | k in a ensures a[k].(score := None) == b[k].(score := None) && (k.day < from ==> a[k] == b[k]) {
      if k in stats { assert stats[k].(score := None) == Scored(stats, from)[k].(score := None); }
    }
    ScoredSame(a, b, from);
  }

  lemma AggregateFreshens(stats: Stats, fines: seq<Fine>, from: int)
    ensures Fresh(Aggregated(stats, fines, from), fines, from)
  {
  }

  lemma ScoreTwice(stats: Stats, from: int)
    ensures Scored(Scored(stats, from), from) == Scored(stats, from)
  {
    ScoredKeepsCounts(stats, from);
    ScoredSame(Scored(stats, from), stats, from);
  }

  /** One more phase does not change what a full sweep would make of the statistics. */
  lemma PhaseAbsorbed(t: Tables, phase: Phase, fines: seq<Fine>, from: int)
    ensures Swept(Next(t, phase, fines, from).stats, fines, from) == Swept(t.stats, fines, from)
  {
    match phase
    case AggregatePhase =>
      AggregateFreshens(t.stats, fines, from);
      FreshIsAggregated(Aggregated(t.stats, fines, from), fines, from);
    case ScorePhase => AggregatedAfterScore(t.stats, fines, from);
    case _ =>
  }

  lemma {:induction false} PhasesAbsorbed(t: Tables, phases: seq<Phase>, fines: seq<Fine>, from: int)
    ensures Swept(RunPhases(t, phases, fines, from).stats, fines, from) == Swept(t.stats, fines, from)
  {
    if phases != [] {
      var u := RunPhases(t, phases[..|phases| - 1], fines, from);
      PhasesAbsorbed(t, phases[..|phases| - 1], fines, from);
      PhaseAbsorbed(u, phases[|phases| - 1], fines, from);
    }
  }

  predicate Aggregates(phases: seq<Phase>) {
    AggregatePhase in phases
  }

  /** Some aggregation is followed by a scoring. */
  predicate Completes(phases: seq<Phase>) {
    if phases == [] then false
    else
      var before, last := phases[..|phases| - 1], phases[|phases| - 1];
      Completes(before) || (last.ScorePhase? && Aggregates(before))
  }

  lemma ScoredStaysFresh(stats: Stats, fines: seq<Fine>, from: int)
    requires Fresh(stats, fines, from)
    ensures Fresh(Scored(stats, from), fines, from)
  {
    ScoredKeepsCounts(stats, from);
  }

  lemma {:induction false} FreshFromThen(t: Tables, phases: seq<Phase>, fines: seq<Fine>, from: int)
    requires Aggregates(phases)
    ensures Fresh(RunPhases(t, phases, fines, from).stats, fines, from)
  {
    var before, last := phases[..|phases| - 1], phases[|phases| - 1];
    assert phases == before + [last];
    var u := RunPhases(t, before, fines, from);
    if last.AggregatePhase? {
      AggregateFreshens(u.stats, fines, from);
    } else {
      FreshFromThen(t, before, fines, from);
      ScoredStaysFresh(u.stats, fines, from);
    }
  }

  /** Any number of replicas over the same fines, their phases interleaved in any way: once some aggregation was
      followed by a scoring, the statistics are those of one single sweep, and stay so. */
  lemma {:induction false} ReplicasAgree(t: Tables, phases: seq<Phase>, fines: seq<Fine>, from: int)
    requires Completes(phases)
    ensures RunPhases(t, phases, fines, from).stats == Swept(t.stats, fines, from)
  {
    var before, last := phases[..|phases| - 1], phases[|phases| - 1];
    var u := RunPhases(t, before, fines, from);
    if Completes(before) {
      ReplicasAgree(t, before, fines, from);
      AggregateFreshens(t.stats, fines, from);
      ScoredStaysFresh(Aggregated(t.stats, fines, from), fines, from);
      FreshIsAggregated(u.stats, fines, from);
      ScoreTwice(Aggregated(t.stats, fines, from), from);
    } else {
      PhasesAbsorbed(t, before, fines, from);
      FreshFromThen(t, before, fines, from);
      FreshIsAggregated(u.stats, fines, from);
    }
  }

  lemma SweepAgain(stats: Stats, fines: seq<Fine>, from: int)
    ensures Swept(Swept(stats, fines, from), fines, from) == Swept(stats, fines, from)
  {
    var a := Aggregated(stats, fines, from);
    AggregateFreshens(stats, fines, from);
    ScoredStaysFresh(a, fines, from);
    FreshIsAggregated(Scored(a, from), fines, from);
    ScoreTwice(a, from);
  }

  lemma DetectTwice(stats: Stats, open: Alerts, from: int)
    ensures var after := Detected(stats, open, from); Detected(stats, after, from) == after
  {
    var after := Detected(stats, open, from);
    DetectionMeans(stats, open, after, from);
    forall a ensures OpensAt(stats, after, after, from, a) { assert OpensAt(stats, open, after, from, a); }
    DetectionMeans(stats, after, after, from);
  }

  /** A second sweep over the same fines changes nothing, and a resolved alert comes back exactly if its row still
      raises it. */
  lemma SweepTwice(stats: Stats, open: Alerts, fines: seq<Fine>, from: int, resolved: AlertKey)
    ensures var s := Swept(stats, fines, from);
      var after := Detected(s, open, from);
      && Swept(s, fines, from) == s && Detected(s, after, from) == after
      && (resolved in Detected(s, after - {resolved}, from) <==> Raises(s, from, resolved))
  {
    var s := Swept(stats, fines, from);
    var after := Detected(s, open, from);
    SweepAgain(stats, fines, from);
    DetectTwice(s, open, from);
    DetectedAt(s, after - {resolved}, from, resolved);
  }
}
