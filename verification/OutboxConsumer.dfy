/** The offset consumer: batches of the outbox in id order, filtered, dispatched, then one offset update.

    One live replica per consumer name, and rows become visible in id order. A tick can be
    cut off after any number of dispatches; the offset is then not written and the
    batch is replayed. */
module OutboxConsumer {
  import opened Prelude

  const BATCH: nat := 100

  /** `kind` is the event type, or None when the envelope does not parse. */
  datatype Row = Row(id: nat, kind: Option<string>)

  type Filter = set<string>

  predicate Increasing(log: seq<Row>) {
    && (forall i :: 0 <= i < |log| ==> log[i].id > 0)
    && (forall i, j :: 0 <= i < j < |log| ==> log[i].id < log[j].id)
  }

  predicate Passes(types: Filter, r: Row) {
    r.kind.Some? && (types == {} || r.kind.value in types)
  }

  /** Ids of the rows that reach the dispatcher, in order. */
  function Dispatches(types: Filter, rows: seq<Row>): seq<nat> {
    if rows == [] then []
    else
      var n := |rows| - 1;
      Dispatches(types, rows[..n]) + (if Passes(types, rows[n]) then [rows[n].id] else [])
  }

  function After(log: seq<Row>, offset: nat): (rows: seq<Row>)
    ensures |rows| <= |log|
  {
    if log == [] then []
    else if log[0].id > offset then [log[0]] + After(log[1..], offset)
    else After(log[1..], offset)
  }

  /** SELECT … WHERE id > offset ORDER BY id LIMIT n, on a log kept in id order. */
  function NextBatch(log: seq<Row>, offset: nat, n: nat): seq<Row> {
    var rows := After(log, offset);
    if |rows| <= n then rows else rows[..n]
  }

  /** How many rows of the log are at or below the offset. */
  function Position(log: seq<Row>, offset: nat): nat {
    |log| - |After(log, offset)|
  }

  datatype State = State(log: seq<Row>, offset: nat, dispatched: seq<nat>)

  datatype Step = Append(row: Row) | Tick(stop: Option<nat>)

  function Cut(stop: Option<nat>, rows: seq<Row>): seq<Row> {
    if stop.Some? && stop.value < |rows| then rows[..stop.value] else rows
  }

  /** `stop` is the number of batch rows handled before a crash, None when the tick completes. */
  function AfterTick(types: Filter, s: State, n: nat, stop: Option<nat>): State {
    var batch := NextBatch(s.log, s.offset, n);
    var sent := s.dispatched + Dispatches(types, Cut(stop, batch));
    if batch == [] || stop.Some? then s.(dispatched := sent)
    else s.(dispatched := sent, offset := batch[|batch| - 1].id)
  }

  class Consumer {
    var types: Filter
    var offset: nat
    var dispatched: seq<nat>

    constructor ()
      ensures types == {} && offset == 0 && dispatched == []
    {
      types, offset, dispatched := {}, 0, [];
    }

    method OnlyTypes(names: seq<string>)
      modifies this`types
      ensures types == old(types) + set t | t in names
    {
      var i := 0;
      while i < |names|
        invariant i <= |names|
        invariant types == old(types) + set t | t in names[..i]
      {
        assert names[..i + 1] == names[..i] + [names[i]];
        types := types + {names[i]};
        i := i + 1;
      }
      assert names[..i] == names;
    }

    method Tick(log: seq<Row>, stop: Option<nat>)
      modifies this`offset, this`dispatched
      ensures State(log, offset, dispatched) ==
              AfterTick(types, State(log, old(offset), old(dispatched)), BATCH, stop)
    {
      var batch := NextBatch(log, offset, BATCH);
      if |batch| == 0 {
        return;
      }
      var i := 0;
      while i < |batch|
        invariant i <= |batch|
        invariant stop.Some? ==> i <= stop.value
        invariant dispatched == old(dispatched) + Dispatches(types, batch[..i])
        invariant offset == old(offset)
      {
        if stop == Some(i) {
          return;
        }
        assert batch[..i + 1][..i] == batch[..i];
        var p := batch[i];
        if p.kind.Some? && (|types| == 0 || p.kind.value in types) {
          dispatched := dispatched + [p.id];
        }
        i := i + 1;
      }
      assert batch[..i] == batch;
      if stop.Some? {
        return;
      }
      offset := batch[|batch| - 1].id;
    }
  }

  // ─── Runs ────────────────────────────────────────────────────────────────────

  predicate Allowed(s: State, step: Step) {
    step.Append? ==> step.row.id > 0 && forall i :: 0 <= i < |s.log| ==> s.log[i].id < step.row.id
  }

  function Apply(types: Filter, s: State, n: nat, step: Step): State {
    match step
    case Append(row) => s.(log := s.log + [row])
    case Tick(stop) => AfterTick(types, s, n, stop)
  }

  const START := State([], 0, [])

  function Run(types: Filter, n: nat, steps: seq<Step>): State {
    if steps == [] then START else Apply(types, Run(types, n, steps[..|steps| - 1]), n, steps[|steps| - 1])
  }

  predicate Legal(types: Filter, n: nat, steps: seq<Step>) {
    steps == [] || (Legal(types, n, steps[..|steps| - 1])
                    && Allowed(Run(types, n, steps[..|steps| - 1]), steps[|steps| - 1]))
  }

  function Crashes(steps: seq<Step>): nat {
    if steps == [] then 0
    else Crashes(steps[..|steps| - 1]) + (if steps[|steps| - 1].Tick? && steps[|steps| - 1].stop.Some? then 1 else 0)
  }

  function Times(s: seq<nat>, id: nat): nat {
    multiset(s)[id]
  }

  // ─── Facts about batches ─────────────────────────────────────────────────────

  lemma {:induction false} AfterIsSuffix(log: seq<Row>, offset: nat)
    requires Increasing(log)
    ensures |After(log, offset)| <= |log|
    ensures After(log, offset) == log[Position(log, offset)..]
    ensures forall i :: 0 <= i < |log| ==> (log[i].id <= offset <==> i < Position(log, offset))
  {
    if log != [] {
      var rest := log[1..];
      assert forall i :: 0 <= i < |rest| ==> rest[i] == log[i + 1];
      AfterIsSuffix(rest, offset);
      if log[0].id > offset {
        assert rest != [] ==> rest[0].id > offset;
        assert After(log, offset) == log;
      } else {
        var p := Position(rest, offset);
        assert After(log, offset) == rest[p..] == log[p + 1..];
        forall i | 0 <= i < |log| ensures log[i].id <= offset <==> i < p + 1 {
          if i > 0 { assert rest[i - 1] == log[i]; }
        }
      }
    }
  }

  lemma {:induction false} DispatchesConcat(types: Filter, a: seq<Row>, b: seq<Row>)
    ensures Dispatches(types, a + b) == Dispatches(types, a) + Dispatches(types, b)
  {
    if b == [] {
      assert a + b == a;
    } else {
      var n := |b| - 1;
      assert (a + b)[..|a| + n] == a + b[..n];
      DispatchesConcat(types, a, b[..n]);
    }
  }

  /** What is dispatched, and how much of it. */
  lemma {:induction false} DispatchesIds(types: Filter, rows: seq<Row>)
    ensures |Dispatches(types, rows)| <= |rows|
    ensures forall id :: id in Dispatches(types, rows) <==>
      exists i :: 0 <= i < |rows| && Passes(types, rows[i]) && rows[i].id == id
  {
    if rows != [] {
      var n := |rows| - 1;
      DispatchesIds(types, rows[..n]);
      assert forall i :: 0 <= i < n ==> rows[..n][i] == rows[i];
    }
  }

  lemma {:induction false} DispatchesOnce(types: Filter, rows: seq<Row>, id: nat)
    requires forall i, j :: 0 <= i < j < |rows| ==> rows[i].id < rows[j].id
    ensures Times(Dispatches(types, rows), id) <= 1
  {
    if rows != [] {
      var n := |rows| - 1;
      var prior := Dispatches(types, rows[..n]);
      DispatchesOnce(types, rows[..n], id);
      DispatchesIds(types, rows[..n]);
      assert rows[n].id !in prior;
      assert Times(prior + [rows[n].id], id) == Times(prior, id) + (if id == rows[n].id then 1 else 0);
    }
  }

  /** The batch is the piece of the log that follows the offset, and a completed tick moves the position to its end. */
  lemma TickMoves(types: Filter, s: State, n: nat, stop: Option<nat>)
    requires Increasing(s.log)
    ensures var p, q := Position(s.log, s.offset), Position(s.log, AfterTick(types, s, n, stop).offset);
      && NextBatch(s.log, s.offset, n) == s.log[p..p + |NextBatch(s.log, s.offset, n)|]
      && |NextBatch(s.log, s.offset, n)| == (if |s.log| - p <= n then |s.log| - p else n)
      && q == (if stop.Some? then p else p + |NextBatch(s.log, s.offset, n)|)
      && AfterTick(types, s, n, stop).offset >= s.offset
  {
    var p, batch := Position(s.log, s.offset), NextBatch(s.log, s.offset, n);
    AfterIsSuffix(s.log, s.offset);
    assert batch == s.log[p..p + |batch|];
    if batch != [] && stop.None? {
      var last := p + |batch| - 1;
      assert batch[|batch| - 1] == s.log[last];
      AfterIsSuffix(s.log, s.log[last].id);
      var q := Position(s.log, s.log[last].id);
      assert last < q;
      assert last + 1 < |s.log| ==> s.log[last + 1].id > s.log[last].id;
    }
  }

  // ─── The consumer on every run ───────────────────────────────────────────────

  /** The offset is 0 or the id of the row at its position. */
  predicate Placed(log: seq<Row>, offset: nat, p: nat) {
    Increasing(log) && p <= |log| && p == Position(log, offset) && offset == (if p == 0 then 0 else log[p - 1].id)
  }

  /** At least once: no row at or below the offset that passes the filter was missed. */
  predicate Covered(types: Filter, log: seq<Row>, p: nat, dispatched: seq<nat>)
    requires p <= |log|
  {
    forall i :: 0 <= i < p && Passes(types, log[i]) ==> log[i].id in dispatched
  }

  /** Nothing but rows of the log that pass the filter. */
  predicate Genuine(types: Filter, log: seq<Row>, dispatched: seq<nat>) {
    forall id :: id in dispatched ==> exists i :: 0 <= i < |log| && log[i].id == id && Passes(types, log[i])
  }

  /** Each crash costs at most one replay of each row. */
  predicate Replays(log: seq<Row>, p: nat, dispatched: seq<nat>, k: nat) {
    forall i :: 0 <= i < |log| ==> Times(dispatched, log[i].id) <= k + (if i < p then 1 else 0)
  }

  /** Without a crash exactly the rows up to the offset, in their order. */
  predicate InOrder(types: Filter, log: seq<Row>, p: nat, dispatched: seq<nat>, k: nat)
    requires p <= |log|
  {
    k == 0 ==> dispatched == Dispatches(types, log[..p])
  }

  /** What has been dispatched at position `p` after `k` interrupted ticks with batch size `n`. */
  predicate Accounts(types: Filter, n: nat, log: seq<Row>, p: nat, dispatched: seq<nat>, k: nat)
    requires p <= |log|
  {
    && Covered(types, log, p, dispatched)
    && Genuine(types, log, dispatched)
    && Replays(log, p, dispatched, k)
    && |dispatched| <= p + k * n
    && InOrder(types, log, p, dispatched, k)
  }

  /** What every reachable state satisfies after `k` interrupted ticks with batch size `n`. */
  predicate Inv(types: Filter, n: nat, s: State, k: nat) {
    var p := Position(s.log, s.offset);
    Placed(s.log, s.offset, p) && Accounts(types, n, s.log, p, s.dispatched, k)
  }

  lemma AppendPlaced(s: State, row: Row)
    requires Placed(s.log, s.offset, Position(s.log, s.offset)) && Allowed(s, Append(row))
    ensures Position(s.log + [row], s.offset) == Position(s.log, s.offset)
    ensures Placed(s.log + [row], s.offset, Position(s.log, s.offset))
  {
    var log, p := s.log + [row], Position(s.log, s.offset);
    AfterIsSuffix(s.log, s.offset);
    AfterIsSuffix(log, s.offset);
    assert log[p].id > s.offset;
    var q := Position(log, s.offset);
    assert q < |log| ==> log[q].id > s.offset;
    assert p > 0 ==> log[p - 1].id <= s.offset;
  }

  lemma AppendKeeps(types: Filter, n: nat, s: State, k: nat, row: Row)
    requires Inv(types, n, s, k) && Allowed(s, Append(row))
    ensures Inv(types, n, s.(log := s.log + [row]), k)
  {
    var log, p := s.log + [row], Position(s.log, s.offset);
    AppendPlaced(s, row);
    assert log[..p] == s.log[..p];
    assert Genuine(types, log, s.dispatched) by {
      forall id | id in s.dispatched
        ensures exists i :: 0 <= i < |log| && log[i].id == id && Passes(types, log[i])
      {
        var i :| 0 <= i < |s.log| && s.log[i].id == id && Passes(types, s.log[i]);
        assert log[i] == s.log[i];
      }
    }
    assert row.id !in s.dispatched;
  }

  lemma TakeOfSlice<T>(a: seq<T>, p: nat, m: nat, c: nat)
    requires c <= m && p + m <= |a|
    ensures a[p..p + m][..c] == a[p..p + c]
  {
  }

  /** The rows a tick hands on: the first `c` rows after the position, the whole batch when it completes. */
  lemma TickSends(types: Filter, s: State, n: nat, stop: Option<nat>) returns (c: nat)
    requires Increasing(s.log)
    ensures var p, s' := Position(s.log, s.offset), AfterTick(types, s, n, stop);
      && p + c <= |s.log| && c <= n
      && s'.log == s.log
      && s'.dispatched == s.dispatched + Dispatches(types, s.log[p..p + c])
      && Position(s.log, s'.offset) == (if stop.Some? then p else p + c)
      && s'.offset == (if stop.Some? || c == 0 then s.offset else s.log[p + c - 1].id)
    ensures c == |Cut(stop, NextBatch(s.log, s.offset, n))|
  {
    var p, batch := Position(s.log, s.offset), NextBatch(s.log, s.offset, n);
    TickMoves(types, s, n, stop);
    c := |Cut(stop, batch)|;
    TakeOfSlice(s.log, p, |batch|, c);
  }

  /** What one tick hands on: of the rows behind the offset, at most a batch and only as many as were handled before the
      crash, exactly those that parse and are wanted, each once and in order. */
  lemma TickHandsOn(types: Filter, s: State, n: nat, stop: Option<nat>, p: nat, t: State) returns (c: nat, more: seq<nat>)
    requires Increasing(s.log) && p == Position(s.log, s.offset) && t == AfterTick(types, s, n, stop)
    ensures p + c <= |s.log|
    ensures var batch := if |s.log| - p <= n then |s.log| - p else n;
      c == if stop.Some? && stop.value < batch then stop.value else batch
    ensures t.dispatched == s.dispatched + more
    ensures forall j, k :: 0 <= j < k < |more| ==> more[j] < more[k]
    ensures forall id :: id in more <==>
      exists i :: p <= i < p + c && s.log[i].id == id && s.log[i].kind.Some? && (types == {} || s.log[i].kind.value in types)
  {
    c, more := TickCut(types, s, n, stop, p, t);
    SliceIds(types, s.log, p, c, more);
  }

  lemma TickCut(types: Filter, s: State, n: nat, stop: Option<nat>, p: nat, t: State) returns (c: nat, more: seq<nat>)
    requires Increasing(s.log) && p == Position(s.log, s.offset) && t == AfterTick(types, s, n, stop)
    ensures p + c <= |s.log| && more == Dispatches(types, s.log[p..p + c])
    ensures var batch := if |s.log| - p <= n then |s.log| - p else n;
      c == if stop.Some? && stop.value < batch then stop.value else batch
    ensures t.dispatched == s.dispatched + more
  {
    c := TickSends(types, s, n, stop);
    more := Dispatches(types, s.log[p..p + c]);
    CutCount(s.log, s.offset, n, stop);
  }

  lemma CutCount(log: seq<Row>, offset: nat, n: nat, stop: Option<nat>)
    ensures var left := |log| - Position(log, offset);
      var batch := if left <= n then left else n;
      |Cut(stop, NextBatch(log, offset, n))| == if stop.Some? && stop.value < batch then stop.value else batch
  {
  }

  lemma SliceIds(types: Filter, log: seq<Row>, p: nat, c: nat, more: seq<nat>)
    requires Increasing(log) && p + c <= |log| && more == Dispatches(types, log[p..p + c])
    ensures forall j, k :: 0 <= j < k < |more| ==> more[j] < more[k]
    ensures forall id :: id in more <==>
      exists i :: p <= i < p + c && log[i].id == id && log[i].kind.Some? && (types == {} || log[i].kind.value in types)
  {
    SlicePasses(types, log, p, c);
    DispatchesAscend(types, log[p..p + c]);
  }

  lemma {:induction false} DispatchesAscend(types: Filter, rows: seq<Row>)
    requires forall i, j :: 0 <= i < j < |rows| ==> rows[i].id < rows[j].id
    ensures var more := Dispatches(types, rows); forall j, k :: 0 <= j < k < |more| ==> more[j] < more[k]
  {
    if rows != [] {
      var n := |rows| - 1;
      var more := Dispatches(types, rows[..n]);
      DispatchesAscend(types, rows[..n]);
      DispatchesIds(types, rows[..n]);
      forall j | 0 <= j < |more| ensures more[j] < rows[n].id { assert more[j] in more; }
    }
  }

  lemma SlicePasses(types: Filter, log: seq<Row>, p: nat, c: nat)
    requires Increasing(log) && p + c <= |log|
    ensures var sent := Dispatches(types, log[p..p + c]);
      && |sent| <= c
      && (forall i :: p <= i < p + c && Passes(types, log[i]) ==> log[i].id in sent)
      && (forall id :: id in sent ==> exists i :: p <= i < p + c && log[i].id == id && Passes(types, log[i]))
      && (forall i :: 0 <= i < |log| ==> Times(sent, log[i].id) <= (if p <= i < p + c then 1 else 0))
  {
    var rows := log[p..p + c];
    var sent := Dispatches(types, rows);
    assert forall i :: 0 <= i < c ==> rows[i] == log[p + i];
    DispatchesIds(types, rows);
    forall i | p <= i < p + c && Passes(types, log[i]) ensures log[i].id in sent {
      assert rows[i - p] == log[i];
    }
    forall id | id in sent ensures exists i :: p <= i < p + c && log[i].id == id && Passes(types, log[i]) {
      var i :| 0 <= i < c && Passes(types, rows[i]) && rows[i].id == id;
      assert log[p + i].id == id;
    }
    forall i | 0 <= i < |log| ensures Times(sent, log[i].id) <= (if p <= i < p + c then 1 else 0) {
      DispatchesOnce(types, rows, log[i].id);
      if log[i].id in sent {
        var j :| p <= j < p + c && log[j].id == log[i].id;
        assert j == i;
      }
    }
  }

  lemma SliceReplays(types: Filter, log: seq<Row>, p: nat, c: nat, dispatched: seq<nat>, k: nat)
    requires Increasing(log) && p + c <= |log| && Replays(log, p, dispatched, k)
    ensures var all := dispatched + Dispatches(types, log[p..p + c]);
      Replays(log, p + c, all, k) && Replays(log, p, all, k + 1)
  {
    var sent := Dispatches(types, log[p..p + c]);
    SlicePasses(types, log, p, c);
    forall i | 0 <= i < |log|
      ensures Times(dispatched + sent, log[i].id) <= k + (if i < p + c then 1 else 0)
      ensures Times(dispatched + sent, log[i].id) <= k + 1 + (if i < p then 1 else 0)
    {
      assert Times(dispatched + sent, log[i].id) == Times(dispatched, log[i].id) + Times(sent, log[i].id);
    }
  }

  lemma SliceCovers(types: Filter, log: seq<Row>, p: nat, c: nat, dispatched: seq<nat>)
    requires Increasing(log) && p + c <= |log|
    requires Covered(types, log, p, dispatched) && Genuine(types, log, dispatched)
    ensures var all := dispatched + Dispatches(types, log[p..p + c]);
      Covered(types, log, p + c, all) && Genuine(types, log, all) && |all| <= |dispatched| + c
  {
    SlicePasses(types, log, p, c);
  }

  lemma SliceOrder(types: Filter, log: seq<Row>, p: nat, c: nat, dispatched: seq<nat>, k: nat)
    requires p + c <= |log| && InOrder(types, log, p, dispatched, k)
    ensures InOrder(types, log, p + c, dispatched + Dispatches(types, log[p..p + c]), k)
  {
    assert log[..p + c] == log[..p] + log[p..p + c];
    DispatchesConcat(types, log[..p], log[p..p + c]);
  }

  lemma TickPlaced(types: Filter, s: State, n: nat, stop: Option<nat>)
    requires Placed(s.log, s.offset, Position(s.log, s.offset))
    ensures var s' := AfterTick(types, s, n, stop); Placed(s'.log, s'.offset, Position(s'.log, s'.offset))
  {
    var c := TickSends(types, s, n, stop);
  }

  /** A tick that completed sent the next `c` rows and moved behind them. */
  lemma SentKeeps(types: Filter, n: nat, log: seq<Row>, p: nat, c: nat, dispatched: seq<nat>, k: nat)
    requires Increasing(log) && p + c <= |log| && Accounts(types, n, log, p, dispatched, k)
    ensures Accounts(types, n, log, p + c, dispatched + Dispatches(types, log[p..p + c]), k)
  {
    SliceCovers(types, log, p, c, dispatched);
    SliceReplays(types, log, p, c, dispatched, k);
    SliceOrder(types, log, p, c, dispatched, k);
  }

  /** A tick that crashed sent some rows and did not move. */
  lemma CutKeeps(types: Filter, n: nat, log: seq<Row>, p: nat, c: nat, dispatched: seq<nat>, k: nat)
    requires Increasing(log) && p + c <= |log| && c <= n && Accounts(types, n, log, p, dispatched, k)
    ensures Accounts(types, n, log, p, dispatched + Dispatches(types, log[p..p + c]), k + 1)
  {
    SliceCovers(types, log, p, c, dispatched);
    SliceReplays(types, log, p, c, dispatched, k);
    assert (k + 1) * n == k * n + n;
  }

  lemma EffectKeeps(types: Filter, n: nat, s: State, t: State, p: nat, c: nat, cut: bool, k: nat, l: nat)
    requires Inv(types, n, s, k) && p == Position(s.log, s.offset) && p + c <= |s.log| && c <= n
    requires t.log == s.log && t.dispatched == s.dispatched + Dispatches(types, s.log[p..p + c])
    requires Placed(t.log, t.offset, if cut then p else p + c) && l == if cut then k + 1 else k
    ensures Inv(types, n, t, l)
  {
    if cut {
      CutKeeps(types, n, s.log, p, c, s.dispatched, k);
    } else {
      SentKeeps(types, n, s.log, p, c, s.dispatched, k);
    }
  }

  lemma TickEffect(types: Filter, s: State, n: nat, stop: Option<nat>, p: nat, t: State) returns (c: nat)
    requires p == Position(s.log, s.offset) && Placed(s.log, s.offset, p) && t == AfterTick(types, s, n, stop)
    ensures p + c <= |s.log| && c <= n
    ensures t.log == s.log && t.dispatched == s.dispatched + Dispatches(types, s.log[p..p + c])
    ensures Placed(t.log, t.offset, if stop.Some? then p else p + c)
  {
    c := TickSends(types, s, n, stop);
    TickPlaced(types, s, n, stop);
  }

  lemma TickKeeps(types: Filter, n: nat, s: State, k: nat, stop: Option<nat>, t: State, l: nat)
    requires Inv(types, n, s, k) && t == AfterTick(types, s, n, stop) && l == if stop.Some? then k + 1 else k
    ensures Inv(types, n, t, l)
  {
    var p := Position(s.log, s.offset);
    var c := TickEffect(types, s, n, stop, p, t);
    EffectKeeps(types, n, s, t, p, c, stop.Some?, k, l);
  }

  lemma StepKeeps(types: Filter, n: nat, s: State, k: nat, step: Step, t: State, l: nat)
    requires Inv(types, n, s, k) && Allowed(s, step) && t == Apply(types, s, n, step)
    requires l == if step.Tick? && step.stop.Some? then k + 1 else k
    ensures Inv(types, n, t, l)
  {
    match step
    case Append(row) => AppendKeeps(types, n, s, k, row);
    case Tick(stop) => TickKeeps(types, n, s, k, stop, t, l);
  }

  lemma {:induction false} RunKeeps(types: Filter, n: nat, steps: seq<Step>, s: State, k: nat)
    requires Legal(types, n, steps) && s == Run(types, n, steps) && k == Crashes(steps)
    ensures Inv(types, n, s, k)
  {
    if steps != [] {
      var before, last := steps[..|steps| - 1], steps[|steps| - 1];
      var u, j := Run(types, n, before), Crashes(before);
      RunKeeps(types, n, before, u, j);
      StepKeeps(types, n, u, j, last, s, k);
    }
  }

  /** Any appends, ticks and crashes, in any order. */
  lemma ConsumerRefinesLog(types: Filter, n: nat, steps: seq<Step>)
    requires Legal(types, n, steps)
    ensures Inv(types, n, Run(types, n, steps), Crashes(steps))
  {
    RunKeeps(types, n, steps, Run(types, n, steps), Crashes(steps));
  }

  /** On every run, of the rows at or below the offset an unfiltered consumer has dispatched exactly those whose envelope
      parses, and a filtered one exactly those that also have one of its types; nothing else was ever dispatched. */
  lemma DispatchedExactly(types: Filter, n: nat, steps: seq<Step>, i: nat)
    requires Legal(types, n, steps) && i < |Run(types, n, steps).log|
    ensures var s := Run(types, n, steps);
      && (s.log[i].id <= s.offset && types == {} ==> (s.log[i].id in s.dispatched <==> s.log[i].kind.Some?))
      && (s.log[i].id <= s.offset && types != {} ==>
            (s.log[i].id in s.dispatched <==> s.log[i].kind.Some? && s.log[i].kind.value in types))
      && (s.log[i].id in s.dispatched ==> s.log[i].kind.Some? && (types == {} || s.log[i].kind.value in types))
      && forall id :: id in s.dispatched ==> exists j :: 0 <= j < |s.log| && s.log[j].id == id
  {
    ConsumerRefinesLog(types, n, steps);
    var s := Run(types, n, steps);
    AfterIsSuffix(s.log, s.offset);
    var p := Position(s.log, s.offset);
    assert s.log[i].id <= s.offset ==> i < p;
    assert forall j :: 0 <= j < |s.log| && s.log[j].id == s.log[i].id ==> j == i;
  }

  lemma {:induction false} OffsetNeverFalls(types: Filter, n: nat, steps: seq<Step>, m: nat)
    requires Legal(types, n, steps) && m <= |steps|
    ensures Run(types, n, steps[..m]).offset <= Run(types, n, steps).offset
  {
    if m == |steps| {
      assert steps[..m] == steps;
    } else {
      var prior := steps[..|steps| - 1];
      assert prior[..m] == steps[..m];
      OffsetNeverFalls(types, n, prior, m);
      ConsumerRefinesLog(types, n, prior);
      if steps[|steps| - 1].Tick? { TickMoves(types, Run(types, n, prior), n, steps[|steps| - 1].stop); }
    }
  }

  function Ticks(types: Filter, s: State, n: nat, m: nat): State {
    if m == 0 then s else AfterTick(types, Ticks(types, s, n, m - 1), n, None)
  }

  lemma TickDrains(types: Filter, s: State, n: nat)
    requires Increasing(s.log)
    ensures var t, pending := AfterTick(types, s, n, None), |After(s.log, s.offset)|;
      t.log == s.log && |After(s.log, t.offset)| == (if pending <= n then 0 else pending - n)
  {
    AfterIsSuffix(s.log, s.offset);
    AfterIsSuffix(s.log, AfterTick(types, s, n, None).offset);
    TickMoves(types, s, n, None);
  }

  lemma {:induction false} TicksDrain(types: Filter, s: State, n: nat, m: nat, u: State, all: nat)
    requires Increasing(s.log) && u == Ticks(types, s, n, m) && all == m * n
    ensures u.log == s.log
    ensures |After(s.log, u.offset)| == (if |After(s.log, s.offset)| <= all then 0 else |After(s.log, s.offset)| - all)
    decreases m
  {
    if m > 0 {
      var t := Ticks(types, s, n, m - 1);
      assert (m - 1) * n == all - n;
      TicksDrain(types, s, n, m - 1, t, all - n);
      TickDrains(types, t, n);
    }
  }

  /** Pending rows fall by a full batch per completed tick, so ceil(pending / n) ticks drain the log and fewer do not. */
  lemma DrainTime(types: Filter, s: State, n: nat, m: nat)
    requires Increasing(s.log)
    ensures var pending := |After(s.log, s.offset)|;
      && Ticks(types, s, n, m).log == s.log
      && |After(s.log, Ticks(types, s, n, m).offset)| == (if pending <= m * n then 0 else pending - m * n)
  {
    TicksDrain(types, s, n, m, Ticks(types, s, n, m), m * n);
  }
}
