/** The outbox relay: replicas lock disjoint batches, publish row by row, and commit or abort.

    Publishing leaves the database at once; marking a row delivered takes effect only when
    the tick commits. Rows are kept in created_at order and named by their position. */
module OutboxRelay {
  import opened Prelude

  const BATCH: nat := 100

  /** `good` says that the stored envelope parses. */
  datatype Row = Row(good: bool, delivered: bool, attempts: nat)

  /** An open transaction: the rows it locked, how many it has handled, and which of those it published. */
  datatype Lease = Lease(batch: seq<nat>, next: nat, sent: set<nat>)

  type Live = map<nat, Lease>

  /** `published` is what the bus has seen; `aborted` lists what each rolled-back tick had published. */
  datatype State = State(rows: seq<Row>, live: Live, published: seq<nat>, aborted: seq<set<nat>>)

  datatype Step = Insert(good: bool) | Begin(r: nat) | Handle(r: nat, ok: bool) | Commit(r: nat) | Abort(r: nat)

  predicate Locked(live: Live, id: nat) {
    exists r :: r in live && id in live[r].batch
  }

  /** SELECT … WHERE delivered_at IS NULL ORDER BY created_at FOR UPDATE SKIP LOCKED LIMIT n, from position i on. */
  function FreeRows(rows: seq<Row>, live: Live, i: nat, n: nat): (batch: seq<nat>)
    ensures |batch| <= n
    ensures forall k :: 0 <= k < |batch| ==>
      i <= batch[k] < |rows| && !rows[batch[k]].delivered && !Locked(live, batch[k])
    ensures forall j, k :: 0 <= j < k < |batch| ==> batch[j] < batch[k]
    ensures forall id :: i <= id < |rows| && !rows[id].delivered && !Locked(live, id) && id !in batch ==>
      |batch| == n && forall k :: 0 <= k < |batch| ==> batch[k] < id
    decreases |rows| - i
  {
    if i >= |rows| || n == 0 then []
    else if rows[i].delivered || Locked(live, i) then FreeRows(rows, live, i + 1, n)
    else [i] + FreeRows(rows, live, i + 1, n - 1)
  }

  function Settle(rows: seq<Row>, t: Lease): seq<Row> {
    seq(|rows|, i requires 0 <= i < |rows| =>
      if i in t.sent then rows[i].(delivered := true)
      else if i in t.batch then rows[i].(attempts := rows[i].attempts + 1)
      else rows[i])
  }

  predicate Allowed(s: State, step: Step) {
    match step
    case Insert(_) => true
    case Begin(r) => r !in s.live
    case Handle(r, _) => r in s.live && s.live[r].next < |s.live[r].batch| && s.live[r].batch[s.live[r].next] < |s.rows|
    case Commit(r) => r in s.live && s.live[r].next == |s.live[r].batch|
    case Abort(r) => r in s.live
  }

  function Apply(s: State, n: nat, step: Step): State
    requires Allowed(s, step)
  {
    match step
    case Insert(good) => s.(rows := s.rows + [Row(good, false, 0)])
    case Begin(r) => s.(live := s.live[r := Lease(FreeRows(s.rows, s.live, 0, n), 0, {})])
    case Handle(r, ok) =>
      var t := s.live[r];
      var id := t.batch[t.next];
      if s.rows[id].good && ok
      then s.(live := s.live[r := t.(next := t.next + 1, sent := t.sent + {id})], published := s.published + [id])
      else s.(live := s.live[r := t.(next := t.next + 1)])
    case Commit(r) => s.(live := s.live - {r}, rows := Settle(s.rows, s.live[r]))
    case Abort(r) => s.(live := s.live - {r}, aborted := s.aborted + [s.live[r].sent])
  }

  // ─── Every run ───────────────────────────────────────────────────────────────

  function Aborts(aborted: seq<set<nat>>, id: nat): nat {
    if aborted == [] then 0
    else Aborts(aborted[..|aborted| - 1], id) + (if id in aborted[|aborted| - 1] then 1 else 0)
  }

  function Publishes(s: State, id: nat): nat {
    multiset(s.published)[id]
  }

  predicate InFlight(live: Live, id: nat) {
    exists r :: r in live && id in live[r].sent
  }

  predicate TickOk(rows: seq<Row>, t: Lease) {
    && t.next <= |t.batch|
    && (forall k :: 0 <= k < |t.batch| ==> t.batch[k] < |rows| && !rows[t.batch[k]].delivered)
    && (forall j, k :: 0 <= j < k < |t.batch| ==> t.batch[j] != t.batch[k])
    && (forall id :: id in t.sent ==> id in t.batch[..t.next])
  }

  predicate Disjoint(live: Live) {
    forall r, q :: r in live && q in live && r != q ==> forall id :: id in live[r].batch ==> id !in live[q].batch
  }

  /** Each publish of a row is accounted for: it was delivered, or an aborted tick or a live one published it. */
  ghost predicate Accounted(s: State) {
    forall id: nat :: Publishes(s, id) ==
      (if id < |s.rows| && s.rows[id].delivered then 1 else 0)
      + Aborts(s.aborted, id) + (if InFlight(s.live, id) then 1 else 0)
  }

  ghost predicate Inv(s: State) {
    && (forall r :: r in s.live ==> TickOk(s.rows, s.live[r]))
    && Disjoint(s.live)
    && Accounted(s)
  }

  lemma InsertKeeps(s: State, n: nat, good: bool)
    requires Inv(s)
    ensures Inv(Apply(s, n, Insert(good)))
  {
    var s' := Apply(s, n, Insert(good));
    assert forall i :: 0 <= i < |s.rows| ==> s'.rows[i] == s.rows[i];
  }

  lemma BeginDisjoint(s: State, n: nat, r: nat)
    requires Inv(s) && Allowed(s, Begin(r))
    ensures Disjoint(Apply(s, n, Begin(r)).live)
  {
    var batch := FreeRows(s.rows, s.live, 0, n);
    forall q, id | q in s.live && id in s.live[q].batch ensures id !in batch {
      assert Locked(s.live, id);
    }
  }

  lemma BeginFlight(live: Live, r: nat, t: Lease, id: nat)
    requires r !in live && t.sent == {}
    ensures InFlight(live[r := t], id) <==> InFlight(live, id)
  {
    if InFlight(live, id) {
      var q :| q in live && id in live[q].sent;
      assert live[r := t][q] == live[q];
    }
  }

  lemma BeginKeeps(s: State, n: nat, r: nat)
    requires Inv(s) && Allowed(s, Begin(r))
    ensures Inv(Apply(s, n, Begin(r)))
  {
    var s' := Apply(s, n, Begin(r));
    BeginDisjoint(s, n, r);
    forall id ensures InFlight(s'.live, id) <==> InFlight(s.live, id) { BeginFlight(s.live, r, s'.live[r], id); }
  }

  /** The row being handled was not in flight: no other replica holds it and this tick has not reached it before. */
  lemma HandleFlight(s: State, n: nat, r: nat, ok: bool)
    requires Inv(s) && Allowed(s, Handle(r, ok))
    ensures var t, s' := s.live[r], Apply(s, n, Handle(r, ok));
      var id := t.batch[t.next];
      && !InFlight(s.live, id)
      && forall x :: InFlight(s'.live, x) <==> InFlight(s.live, x) || (x == id && s.rows[id].good && ok)
  {
    var t, s' := s.live[r], Apply(s, n, Handle(r, ok));
    var id := t.batch[t.next];
    forall q | q in s.live ensures id !in s.live[q].sent {
      assert id in t.batch;
      assert TickOk(s.rows, s.live[q]);
      assert id in s.live[q].batch ==> q == r;
    }
    forall x ensures InFlight(s'.live, x) <==> InFlight(s.live, x) || (x == id && s.rows[id].good && ok) {
      if InFlight(s.live, x) {
        var q :| q in s.live && x in s.live[q].sent;
        assert x in s'.live[q].sent;
      }
      if x == id && s.rows[id].good && ok { assert x in s'.live[r].sent; }
    }
  }

  lemma HandleAccounts(s: State, n: nat, r: nat, ok: bool)
    requires Inv(s) && Allowed(s, Handle(r, ok))
    ensures Accounted(Apply(s, n, Handle(r, ok)))
  {
    HandleFlight(s, n, r, ok);
  }

  lemma HandleLease(s: State, n: nat, r: nat, ok: bool)
    requires Inv(s) && Allowed(s, Handle(r, ok))
    ensures TickOk(s.rows, Apply(s, n, Handle(r, ok)).live[r])
  {
    var t := s.live[r];
    assert TickOk(s.rows, t);
    assert t.batch[..t.next + 1] == t.batch[..t.next] + [t.batch[t.next]];
  }

  lemma HandleKeeps(s: State, n: nat, r: nat, ok: bool)
    requires Inv(s) && Allowed(s, Handle(r, ok))
    ensures Inv(Apply(s, n, Handle(r, ok)))
  {
    HandleLease(s, n, r, ok);
    HandleAccounts(s, n, r, ok);
    var s' := Apply(s, n, Handle(r, ok));
    assert forall q :: q in s'.live ==> q in s.live && s'.live[q].batch == s.live[q].batch;
  }

  lemma SentApart(s: State, r: nat, q: nat, x: nat)
    requires Disjoint(s.live) && r in s.live && q in s.live && r != q
    requires TickOk(s.rows, s.live[r]) && TickOk(s.rows, s.live[q]) && x in s.live[q].sent
    ensures x !in s.live[r].sent
  {
    assert x in s.live[q].batch;
    var t := s.live[r];
    assert x in t.sent ==> x in t.batch;
  }

  lemma EndFlightOf(s: State, r: nat, x: nat)
    requires Disjoint(s.live) && r in s.live && forall q :: q in s.live ==> TickOk(s.rows, s.live[q])
    ensures InFlight(s.live - {r}, x) <==> InFlight(s.live, x) && x !in s.live[r].sent
  {
    var live' := s.live - {r};
    if InFlight(live', x) {
      var q :| q in live' && x in live'[q].sent;
      assert q in s.live && live'[q] == s.live[q];
      SentApart(s, r, q, x);
    }
    if InFlight(s.live, x) && x !in s.live[r].sent {
      var q :| q in s.live && x in s.live[q].sent;
      assert q in live' && live'[q] == s.live[q];
    }
  }

  /** When a tick ends, exactly its own publishes stop being in flight. */
  lemma EndFlight(s: State, r: nat)
    requires Inv(s) && r in s.live
    ensures forall x :: InFlight(s.live - {r}, x) <==> InFlight(s.live, x) && x !in s.live[r].sent
  {
    forall x ensures InFlight(s.live - {r}, x) <==> InFlight(s.live, x) && x !in s.live[r].sent {
      EndFlightOf(s, r, x);
    }
  }

  lemma AbortKeeps(s: State, n: nat, r: nat)
    requires Inv(s) && Allowed(s, Abort(r))
    ensures Inv(Apply(s, n, Abort(r)))
  {
    var s' := Apply(s, n, Abort(r));
    EndFlight(s, r);
    assert s'.aborted[..|s.aborted|] == s.aborted;
    forall x | x in s.live[r].sent ensures InFlight(s.live, x) {}
  }

  lemma CommitLease(s: State, n: nat, r: nat, q: nat)
    requires Disjoint(s.live) && Allowed(s, Commit(r)) && q in s.live && q != r
    requires TickOk(s.rows, s.live[q]) && TickOk(s.rows, s.live[r])
    ensures TickOk(Apply(s, n, Commit(r)).rows, s.live[q])
  {
    forall k | 0 <= k < |s.live[q].batch| ensures !Apply(s, n, Commit(r)).rows[s.live[q].batch[k]].delivered {
      assert s.live[q].batch[k] in s.live[q].batch && s.live[q].batch[k] !in s.live[r].batch;
    }
  }

  lemma SentIsPending(s: State, r: nat, x: nat)
    requires r in s.live && TickOk(s.rows, s.live[r]) && x in s.live[r].sent
    ensures InFlight(s.live, x) && x < |s.rows| && !s.rows[x].delivered
  {
    assert x in s.live[r].batch;
  }

  lemma CommitAccounts(s: State, n: nat, r: nat)
    requires Inv(s) && Allowed(s, Commit(r))
    ensures Accounted(Apply(s, n, Commit(r)))
  {
    var s', t := Apply(s, n, Commit(r)), s.live[r];
    EndFlight(s, r);
    forall x: nat | x in t.sent ensures InFlight(s.live, x) && x < |s.rows| && !s.rows[x].delivered {
      SentIsPending(s, r, x);
    }
    forall id: nat ensures Publishes(s', id) == (if id < |s'.rows| && s'.rows[id].delivered then 1 else 0)
      + Aborts(s'.aborted, id) + (if InFlight(s'.live, id) then 1 else 0)
    {
      assert Publishes(s', id) == Publishes(s, id);
    }
  }

  lemma CommitKeeps(s: State, n: nat, r: nat)
    requires Inv(s) && Allowed(s, Commit(r))
    ensures Inv(Apply(s, n, Commit(r)))
  {
    var s' := Apply(s, n, Commit(r));
    CommitAccounts(s, n, r);
    forall q | q in s'.live ensures TickOk(s'.rows, s'.live[q]) {
      assert q in s.live && s'.live[q] == s.live[q];
      CommitLease(s, n, r, q);
    }
  }

  lemma StepKeeps(s: State, n: nat, step: Step)
    requires Inv(s) && Allowed(s, step)
    ensures Inv(Apply(s, n, step))
  {
    match step
    case Insert(good) => InsertKeeps(s, n, good);
    case Begin(r) => BeginKeeps(s, n, r);
    case Handle(r, ok) => HandleKeeps(s, n, r, ok);
    case Commit(r) => CommitKeeps(s, n, r);
    case Abort(r) => AbortKeeps(s, n, r);
  }

  const START := State([], map[], [], [])

  /** A run from `s`, and where it ends. */
  predicate Legal(s: State, n: nat, steps: seq<Step>)
    decreases |steps|
  {
    steps == [] || (Allowed(s, steps[0]) && Legal(Apply(s, n, steps[0]), n, steps[1..]))
  }

  function Run(s: State, n: nat, steps: seq<Step>): State
    requires Legal(s, n, steps)
    decreases |steps|
  {
    if steps == [] then s else Run(Apply(s, n, steps[0]), n, steps[1..])
  }

  lemma {:induction false} RunKeeps(s: State, n: nat, steps: seq<Step>)
    requires Inv(s) && Legal(s, n, steps)
    ensures Inv(Run(s, n, steps))
    decreases |steps|
  {
    if steps != [] {
      StepKeeps(s, n, steps[0]);
      RunKeeps(Apply(s, n, steps[0]), n, steps[1..]);
    }
  }

  lemma StartInv()
    ensures Inv(START)
  {
  }

  /** Any replicas, any interleaving, any aborts: locked batches are disjoint, a delivered row was published,
      and a row is published at most once more than ticks that published it were rolled back. */
  lemma RelaySafety(n: nat, steps: seq<Step>, id: nat)
    requires Legal(START, n, steps)
    ensures var s := Run(START, n, steps);
      && Disjoint(s.live)
      && (id < |s.rows| && s.rows[id].delivered ==> Publishes(s, id) >= 1)
      && Aborts(s.aborted, id) <= Publishes(s, id) <= 1 + Aborts(s.aborted, id)
  {
    StartInv();
    RunKeeps(START, n, steps);
    var s := Run(START, n, steps);
    forall r | r in s.live && id in s.live[r].sent
      ensures id < |s.rows| && !s.rows[id].delivered
    {
      assert TickOk(s.rows, s.live[r]);
    }
  }

  /** Once a tick that published a row has committed, the row is never published again. */
  lemma {:induction false} DeliveredIsFinal(s: State, n: nat, steps: seq<Step>, id: nat)
    requires Inv(s) && Legal(s, n, steps) && id < |s.rows| && s.rows[id].delivered
    ensures var t := Run(s, n, steps); id < |t.rows| && t.rows[id].delivered && Publishes(t, id) == Publishes(s, id)
    decreases |steps|
  {
    if steps != [] {
      var s' := Apply(s, n, steps[0]);
      StepKeeps(s, n, steps[0]);
      if steps[0].Handle? {
        var t := s.live[steps[0].r];
        assert TickOk(s.rows, t) && t.batch[t.next] != id;
      }
      assert Publishes(s', id) == Publishes(s, id);
      DeliveredIsFinal(s', n, steps[1..], id);
    }
  }

  /** Which step changes a stored row: only the commit of a tick that holds it, to delivered if that tick published it and
      to one more attempt if not. */
  lemma RowChanges(s: State, n: nat, step: Step, id: nat)
    requires Inv(s) && Allowed(s, step) && id < |s.rows|
    ensures var t, row := Apply(s, n, step).rows, s.rows[id];
      && id < |t|
      && t[id] ==
           if step.Commit? && id in s.live[step.r].batch
           then (if id in s.live[step.r].sent then row.(delivered := true) else row.(attempts := row.attempts + 1))
           else row
  {
    if step.Commit? { assert TickOk(s.rows, s.live[step.r]); }
  }

  /** What the bus has seen: it grows only when a tick hands over its next row, and only if that row parses and is taken. */
  lemma PublishMeans(s: State, n: nat, step: Step)
    requires Allowed(s, step)
    ensures var t := Apply(s, n, step);
      t.published == s.published ||
      (step.Handle? && step.ok && var id := s.live[step.r].batch[s.live[step.r].next];
         s.rows[id].good && t.published == s.published + [id] && id in t.live[step.r].sent)
    ensures step.Handle? && step.ok && s.rows[s.live[step.r].batch[s.live[step.r].next]].good ==>
      |Apply(s, n, step).published| == |s.published| + 1
  {
  }

  lemma GoodStays(s: State, n: nat, step: Step)
    requires Allowed(s, step)
    ensures var t := Apply(s, n, step).rows;
      |s.rows| <= |t| && forall id :: 0 <= id < |s.rows| ==> t[id].good == s.rows[id].good
  {
  }

  predicate AllParse(s: State) {
    forall id :: id in s.published ==> id < |s.rows| && s.rows[id].good
  }

  lemma StepParses(s: State, n: nat, step: Step)
    requires Allowed(s, step) && AllParse(s)
    ensures AllParse(Apply(s, n, step))
  {
    PublishMeans(s, n, step);
    GoodStays(s, n, step);
  }

  /** On every run only rows whose envelope parses reach the bus. */
  lemma {:induction false} PublishedParses(s: State, n: nat, steps: seq<Step>)
    requires Legal(s, n, steps) && AllParse(s)
    ensures AllParse(Run(s, n, steps))
    decreases |steps|
  {
    if steps != [] {
      StepParses(s, n, steps[0]);
      PublishedParses(Apply(s, n, steps[0]), n, steps[1..]);
    }
  }

  // ─── One tick of one replica ─────────────────────────────────────────────────

  /** `bus(id)` says whether the bus accepts the row; `stop` is the number of rows handled before the tick fails. */
  predicate Going(s: State, r: nat, stop: Option<nat>) {
    && r in s.live
    && s.live[r].next < |s.live[r].batch| && s.live[r].batch[s.live[r].next] < |s.rows|
    && stop != Some(s.live[r].next)
  }

  function NextHandle(s: State, r: nat, bus: nat -> bool): Step
    requires r in s.live && s.live[r].next < |s.live[r].batch|
  {
    Handle(r, bus(s.live[r].batch[s.live[r].next]))
  }

  function HandleAll(s: State, n: nat, r: nat, bus: nat -> bool, stop: Option<nat>): (t: State)
    requires r in s.live
    ensures r in t.live && !Going(t, r, stop)
    decreases |s.live[r].batch| - s.live[r].next
  {
    if !Going(s, r, stop) then s else HandleAll(Apply(s, n, NextHandle(s, r, bus)), n, r, bus, stop)
  }

  /** Commit when every row was handled, otherwise the deferred rollback. */
  function End(s: State, r: nat): Step
    requires r in s.live
  {
    if s.live[r].next == |s.live[r].batch| then Commit(r) else Abort(r)
  }

  function AfterTick(s: State, n: nat, r: nat, bus: nat -> bool, stop: Option<nat>): State
    requires r !in s.live
  {
    var t := HandleAll(Apply(s, n, Begin(r)), n, r, bus, stop);
    Apply(t, n, End(t, r))
  }

  class Relay {
    var rows: seq<Row>
    var live: Live
    var published: seq<nat>
    var aborted: seq<set<nat>>

    function Now(): State
      reads this
    {
      State(rows, live, published, aborted)
    }

    constructor ()
      ensures Now() == START && Inv(Now())
    {
      rows, live, published, aborted := [], map[], [], [];
    }

    method WriteOutbox(good: bool)
      modifies this
      ensures Now() == Apply(old(Now()), BATCH, Insert(good))
    {
      rows := rows + [Row(good, false, 0)];
    }

    /** One row of the loop: parse, publish, mark. */
    method Attempt(r: nat, ok: bool)
      requires Allowed(Now(), Handle(r, ok))
      modifies this
      ensures Now() == Apply(old(Now()), BATCH, Handle(r, ok))
    {
      var t := live[r];
      var id := t.batch[t.next];
      var sent := t.sent;
      if rows[id].good && ok {
        published := published + [id];
        sent := sent + {id};
      }
      live := live[r := Lease(t.batch, t.next + 1, sent)];
    }

    /** Commit, or the deferred rollback. */
    method Finish(r: nat)
      requires r in live
      modifies this
      ensures Now() == Apply(old(Now()), BATCH, End(old(Now()), r))
    {
      if live[r].next == |live[r].batch| {
        rows := Settle(rows, live[r]);
      } else {
        aborted := aborted + [live[r].sent];
      }
      live := live - {r};
    }

    method Tick(r: nat, bus: nat -> bool, stop: Option<nat>)
      requires r !in live
      modifies this
      ensures Now() == AfterTick(old(Now()), BATCH, r, bus, stop)
    {
      var batch := FreeRows(rows, live, 0, BATCH);
      live := live[r := Lease(batch, 0, {})];
      ghost var begun := Now();
      var i := 0;
      while i < |batch| && stop != Some(i)
        invariant i <= |batch|
        invariant rows == begun.rows && r in live && live[r].batch == batch && live[r].next == i
        invariant HandleAll(Now(), BATCH, r, bus, stop) == HandleAll(begun, BATCH, r, bus, stop)
      {
        Attempt(r, bus(batch[i]));
        i := i + 1;
      }
      Finish(r);
    }
  }

  /** A tick is a legal run of the protocol, so every theorem about runs speaks about it. */
  lemma TickIsRun(s: State, n: nat, r: nat, bus: nat -> bool, stop: Option<nat>) returns (steps: seq<Step>)
    requires r !in s.live
    ensures Legal(s, n, steps) && Run(s, n, steps) == AfterTick(s, n, r, bus, stop)
  {
    var rest := HandlesAreRun(Apply(s, n, Begin(r)), n, r, bus, stop);
    steps := [Begin(r)] + rest;
    assert steps[1..] == rest;
  }

  lemma {:induction false} HandlesAreRun(s: State, n: nat, r: nat, bus: nat -> bool, stop: Option<nat>)
    returns (steps: seq<Step>)
    requires r in s.live
    ensures var t := HandleAll(s, n, r, bus, stop); Legal(s, n, steps) && Run(s, n, steps) == Apply(t, n, End(t, r))
    decreases |s.live[r].batch| - s.live[r].next
  {
    if !Going(s, r, stop) {
      steps := [End(s, r)];
      assert steps[1..] == [];
    } else {
      var step := NextHandle(s, r, bus);
      var rest := HandlesAreRun(Apply(s, n, step), n, r, bus, stop);
      steps := [step] + rest;
      assert steps[1..] == rest;
    }
  }

  // ─── Progress of a single relay ──────────────────────────────────────────────

  predicate Healthy(rows: seq<Row>, bus: nat -> bool, id: nat) {
    id < |rows| && rows[id].good && bus(id)
  }

  /** Undelivered rows that parse and that the bus accepts. */
  function Waiting(rows: seq<Row>, bus: nat -> bool): set<nat> {
    set id | 0 <= id < |rows| && !rows[id].delivered && Healthy(rows, bus, id)
  }

  /** Undelivered rows that fail however often they are tried. */
  function Failing(rows: seq<Row>, bus: nat -> bool): set<nat> {
    set id | 0 <= id < |rows| && !rows[id].delivered && !Healthy(rows, bus, id)
  }

  lemma NextSends(s: State, n: nat, r: nat, bus: nat -> bool)
    requires r in s.live && Going(s, r, None)
    ensures var t, s' := s.live[r], Apply(s, n, NextHandle(s, r, bus));
      && s'.rows == s.rows && s'.live - {r} == s.live - {r} && r in s'.live
      && s'.live[r].batch == t.batch && s'.live[r].next == t.next + 1
      && s'.live[r].sent == (if Healthy(s.rows, bus, t.batch[t.next]) then t.sent + {t.batch[t.next]} else t.sent)
  {
    var s' := Apply(s, n, NextHandle(s, r, bus));
    assert s'.live - {r} == s.live - {r};
  }

  lemma TailMembers(batch: seq<nat>, k: nat, id: nat)
    requires k < |batch|
    ensures id in batch[k..] <==> id == batch[k] || id in batch[k + 1..]
  {
    assert batch[k..] == [batch[k]] + batch[k + 1..];
  }

  /** A tick that is not stopped publishes exactly the healthy rows it has not handled yet. */
  lemma {:induction false} HandleAllSends(s: State, n: nat, r: nat, bus: nat -> bool, u: State, id: nat)
    requires r in s.live && forall k :: 0 <= k < |s.live[r].batch| ==> s.live[r].batch[k] < |s.rows|
    requires s.live[r].next <= |s.live[r].batch| && u == HandleAll(s, n, r, bus, None)
    ensures var t := s.live[r];
      && u.rows == s.rows && u.live[r].batch == t.batch && u.live[r].next == |t.batch|
      && u.live - {r} == s.live - {r}
      && (id in u.live[r].sent <==> id in t.sent || (id in t.batch[t.next..] && Healthy(s.rows, bus, id)))
    decreases |s.live[r].batch| - s.live[r].next
  {
    if Going(s, r, None) {
      NextSends(s, n, r, bus);
      HandleAllSends(Apply(s, n, NextHandle(s, r, bus)), n, r, bus, u, id);
      TailMembers(s.live[r].batch, s.live[r].next, id);
    }
  }

  /** With no other replica, a committed tick delivers exactly the rows among the first `n` undelivered ones that parse and
      that the bus accepts, counts an attempt on the others, and leaves every other row. */
  lemma SoleTick(s: State, n: nat, r: nat, bus: nat -> bool)
    requires s.live == map[]
    ensures var t, batch := AfterTick(s, n, r, bus, None), FreeRows(s.rows, map[], 0, n);
      && t.live == map[] && |t.rows| == |s.rows|
      && forall id :: 0 <= id < |s.rows| ==>
           t.rows[id] == (if id !in batch then s.rows[id]
                          else if s.rows[id].good && bus(id) then s.rows[id].(delivered := true)
                          else s.rows[id].(attempts := s.rows[id].attempts + 1))
  {
    var batch := FreeRows(s.rows, map[], 0, n);
    var begun := Apply(s, n, Begin(r));
    HandleAllSends(begun, n, r, bus, HandleAll(begun, n, r, bus, None), 0);
    forall id | 0 <= id < |s.rows|
      ensures id in HandleAll(begun, n, r, bus, None).live[r].sent <==> id in batch && Healthy(s.rows, bus, id)
    {
      HandleAllSends(begun, n, r, bus, HandleAll(begun, n, r, bus, None), id);
      assert begun.live[r].batch[0..] == batch;
    }
    assert batch[0..] == batch;
  }

  lemma {:induction false} DistinctWithin(batch: seq<nat>, ids: set<nat>)
    requires forall k :: 0 <= k < |batch| ==> batch[k] in ids
    requires forall j, k :: 0 <= j < k < |batch| ==> batch[j] != batch[k]
    ensures |batch| <= |ids|
  {
    if batch != [] {
      DistinctWithin(batch[1..], ids - {batch[0]});
    }
  }

  lemma SoleTickWaiting(s: State, n: nat, r: nat, bus: nat -> bool)
    requires s.live == map[]
    ensures Waiting(AfterTick(s, n, r, bus, None).rows, bus)
         == Waiting(s.rows, bus) - set id | id in FreeRows(s.rows, map[], 0, n)
  {
    SoleTick(s, n, r, bus);
  }

  /** Fewer than `n` failing rows cannot hold back every healthy one. */
  lemma SomeHealthyInBatch(rows: seq<Row>, n: nat, bus: nat -> bool)
    requires Waiting(rows, bus) != {} && |Failing(rows, bus)| < n
    ensures exists id :: id in Waiting(rows, bus) && id in FreeRows(rows, map[], 0, n)
  {
    var batch := FreeRows(rows, map[], 0, n);
    var id :| id in Waiting(rows, bus);
    assert !Locked(map[], id);
    if forall k :: 0 <= k < |batch| ==> batch[k] in Failing(rows, bus) {
      DistinctWithin(batch, Failing(rows, bus));
      assert id in batch;
    } else {
      var k :| 0 <= k < |batch| && batch[k] !in Failing(rows, bus);
      assert batch[k] in Waiting(rows, bus);
    }
  }

  /** Progress: a tick shrinks the waiting rows exactly when one of them is among the first `n` undelivered,
      which fewer than `n` permanently failing rows guarantee. */
  lemma SoleRelayProgress(s: State, n: nat, r: nat, bus: nat -> bool)
    requires s.live == map[]
    ensures var w, w' := Waiting(s.rows, bus), Waiting(AfterTick(s, n, r, bus, None).rows, bus);
      && w' <= w
      && (|w'| < |w| <==> exists id :: id in w && id in FreeRows(s.rows, map[], 0, n))
      && (w != {} && |Failing(s.rows, bus)| < n ==> |w'| < |w|)
  {
    var w, w' := Waiting(s.rows, bus), Waiting(AfterTick(s, n, r, bus, None).rows, bus);
    SoleTickWaiting(s, n, r, bus);
    if w' == w {
      assert forall id :: id in w ==> id in w';
    } else {
      SubsetSmaller(w', w);
      var id :| id in w && id !in w';
    }
    if w != {} && |Failing(s.rows, bus)| < n { SomeHealthyInBatch(s.rows, n, bus); }
  }

  lemma SubsetSmaller(a: set<nat>, b: set<nat>)
    requires a < b
    ensures |a| < |b|
  {
    assert b == a + (b - a);
  }
}
