/** The evidence reaper: delete the stored object, then seal the row, one transaction per row.

    Replicas work from candidate lists that may be stale, and can crash anywhere. Objects are
    never uploaded again. Times are in seconds. */
module EvidenceReaper {
  import opened Prelude
  import opened FineRecords

  const DAY := 86_400

  datatype Policy = Policy(defaultDays: int, paidDays: int, cancelledDays: int, courtDays: Option<int>, hold: bool)

  /** Schema defaults of a tenant without a policy row. */
  const NO_POLICY := Policy(1825, 1825, 365, None, false)

  /** None is 'infinity'. */
  function Deadline(f: Fine, p: Policy): Option<int> {
    if f.status == Paid && f.paidAt.Some? then Some(f.paidAt.value + p.paidDays * DAY)
    else if f.status == Cancelled then Some(f.issuedAt + p.cancelledDays * DAY)
    else if f.status == Court then
      (match p.courtDays case None => None case Some(days) => Some(f.issuedAt + days * DAY))
    else Some(f.issuedAt + p.defaultDays * DAY)
  }

  predicate Due(f: Fine, p: Policy, now: int) {
    !p.hold && Deadline(f, p).Some? && now > Deadline(f, p).value
  }

  datatype Evidence = Evidence(fine: nat, key: string, sealedAt: Option<int>)

  datatype Candidate = Candidate(evidence: nat, key: string)

  datatype State = State(
    evidence: seq<Evidence>, fines: seq<Fine>, policies: map<string, Policy>,
    store: set<string>, custody: seq<nat>, now: int)

  function PolicyOf(s: State, f: Fine): Policy {
    if f.tenant in s.policies then s.policies[f.tenant] else NO_POLICY
  }

  /** The row exists and its deadline has passed, under the current fine and policy. */
  predicate DueNow(s: State, i: nat) {
    && i < |s.evidence| && s.evidence[i].fine < |s.fines|
    && Due(s.fines[s.evidence[i].fine], PolicyOf(s, s.fines[s.evidence[i].fine]), s.now)
  }

  predicate IsCandidate(s: State, i: nat) {
    DueNow(s, i) && s.evidence[i].sealedAt.None?
  }

  /** The candidate query, from evidence row `i` on. */
  function Candidates(s: State, i: nat): (batch: seq<Candidate>)
    decreases |s.evidence| - i
  {
    if i >= |s.evidence| then []
    else if !IsCandidate(s, i) then Candidates(s, i + 1)
    else [Candidate(i, s.evidence[i].key)] + Candidates(s, i + 1)
  }

  /** "Not found" from the store counts as deleted. */
  function Deleted(s: State, c: Candidate): State {
    s.(store := s.store - {c.key})
  }

  /** The transaction: re-check sealed_at under lock, seal, append the custody row. */
  function SealedBy(s: State, c: Candidate): State {
    if c.evidence >= |s.evidence| || s.evidence[c.evidence].sealedAt.Some? then s
    else s.(evidence := s.evidence[c.evidence := s.evidence[c.evidence].(sealedAt := Some(s.now))],
            custody := s.custody + [c.evidence])
  }

  /** For row `i`, `down(i)` says that the store refuses the deletion and `broken(i)` that the transaction fails. */
  datatype Faults = Faults(down: nat -> bool, broken: nat -> bool)

  predicate Succeeds(c: Candidate, f: Faults) {
    !f.down(c.evidence) && !f.broken(c.evidence)
  }

  function SealOne(s: State, c: Candidate, f: Faults): State {
    if f.down(c.evidence) then s
    else if f.broken(c.evidence) then Deleted(s, c)
    else SealedBy(Deleted(s, c), c)
  }

  function SealAll(s: State, batch: seq<Candidate>, f: Faults): State
    decreases |batch|
  {
    if batch == [] then s else SealAll(SealOne(s, batch[0], f), batch[1..], f)
  }

  class Job {
    var evidence: seq<Evidence>
    var fines: seq<Fine>
    var policies: map<string, Policy>
    var store: set<string>
    var custody: seq<nat>

    ghost function At(now: int): State
      reads this
    {
      State(evidence, fines, policies, store, custody, now)
    }

    constructor (s: State)
      ensures At(s.now) == s
    {
      evidence, fines, policies, store, custody := s.evidence, s.fines, s.policies, s.store, s.custody;
    }

    method Seal(c: Candidate, f: Faults, now: int) returns (ok: bool)
      requires c.evidence < |evidence|
      modifies this
      ensures At(now) == SealOne(old(At(now)), c, f) && ok == Succeeds(c, f)
    {
      if f.down(c.evidence) {
        return false;
      }
      store := store - {c.key};
      if f.broken(c.evidence) {
        return false;
      }
      ok := true;
      var alreadySealed := evidence[c.evidence].sealedAt.Some?;
      if alreadySealed {
        return;
      }
      evidence := evidence[c.evidence := evidence[c.evidence].(sealedAt := Some(now))];
      custody := custody + [c.evidence];
    }

    /** Without interference, the result is the number of rows this sweep sealed. */
    method RunOnce(f: Faults, now: int) returns (sealed: nat)
      modifies this
      ensures At(now) == SealAll(old(At(now)), Candidates(old(At(now)), 0), f)
      ensures |custody| == |old(custody)| + sealed
    {
      var batch := Candidates(State(evidence, fines, policies, store, custody, now), 0);
      CandidatesFit(At(now), 0, batch);
      ghost var after := SealAll(At(now), batch, f);
      sealed := 0;
      var k := 0;
      while k < |batch|
        invariant k <= |batch| && |evidence| == |old(evidence)|
        invariant SealAll(At(now), batch[k..], f) == after
        invariant forall j :: k <= j < |batch| ==> evidence[batch[j].evidence].sealedAt.None?
        invariant |custody| == |old(custody)| + sealed
      {
        assert batch[k..][1..] == batch[k + 1..];
        var ok := Seal(batch[k], f, now);
        if ok {
          sealed := sealed + 1;
        }
        k := k + 1;
      }
    }
  }

  /** The query lists each row once, in order, with its key, and only candidates. */
  lemma {:induction false} CandidatesFit(s: State, i: nat, batch: seq<Candidate>)
    requires batch == Candidates(s, i)
    ensures forall k :: 0 <= k < |batch| ==>
      i <= batch[k].evidence && IsCandidate(s, batch[k].evidence) && batch[k].key == s.evidence[batch[k].evidence].key
    ensures forall j, k :: 0 <= j < k < |batch| ==> batch[j].evidence < batch[k].evidence
    decreases |s.evidence| - i
  {
    if i < |s.evidence| { CandidatesFit(s, i + 1, Candidates(s, i + 1)); }
  }

  // ─── One undisturbed sweep ───────────────────────────────────────────────────

  /** Candidates for other rows leave row `j` alone. */
  lemma {:induction false} OthersLeaveAlone(s: State, batch: seq<Candidate>, f: Faults, j: nat)
    requires j < |s.evidence| && forall k :: 0 <= k < |batch| ==> batch[k].evidence != j
    ensures |SealAll(s, batch, f).evidence| == |s.evidence| && SealAll(s, batch, f).evidence[j] == s.evidence[j]
    decreases |batch|
  {
    if batch != [] { OthersLeaveAlone(SealOne(s, batch[0], f), batch[1..], f, j); }
  }

  lemma SweepUnfolds(snapshot: State, s: State, f: Faults, i: nat)
    requires i < |snapshot.evidence|
    ensures SealAll(s, Candidates(snapshot, i), f)
         == SealAll(if IsCandidate(snapshot, i) then SealOne(s, Candidate(i, snapshot.evidence[i].key), f) else s,
                    Candidates(snapshot, i + 1), f)
  {
    if IsCandidate(snapshot, i) {
      assert Candidates(snapshot, i)[1..] == Candidates(snapshot, i + 1);
    }
  }

  /** The candidates of rows `i` and up, applied to tables that still agree with the snapshot there, seen at row `j`. */
  lemma {:induction false} SweepFrom(snapshot: State, s: State, f: Faults, i: nat, j: nat)
    requires i <= j < |snapshot.evidence| == |s.evidence| && s.now == snapshot.now
    requires forall k :: i <= k < |s.evidence| ==> s.evidence[k] == snapshot.evidence[k]
    ensures var t := SealAll(s, Candidates(snapshot, i), f);
      && |t.evidence| == |s.evidence|
      && t.evidence[j] == (if IsCandidate(snapshot, j) && Succeeds(Candidate(j, snapshot.evidence[j].key), f)
                           then snapshot.evidence[j].(sealedAt := Some(snapshot.now)) else snapshot.evidence[j])
    decreases |s.evidence| - i
  {
    var rest := Candidates(snapshot, i + 1);
    var s' := if IsCandidate(snapshot, i) then SealOne(s, Candidate(i, snapshot.evidence[i].key), f) else s;
    SweepUnfolds(snapshot, s, f, i);
    if i == j {
      CandidatesFit(snapshot, i + 1, rest);
      OthersLeaveAlone(s', rest, f, j);
    } else {
      SweepFrom(snapshot, s', f, i + 1, j);
    }
  }

  /** Without interference a sweep seals exactly the due rows whose deletion and transaction went through, at its own time,
      and changes nothing else in any row. */
  lemma SweepSealsDueRows(s: State, f: Faults, j: nat)
    requires j < |s.evidence|
    ensures var t := SealAll(s, Candidates(s, 0), f);
      && |t.evidence| == |s.evidence|
      && t.evidence[j] ==
           if IsCandidate(s, j) && !f.down(j) && !f.broken(j) then s.evidence[j].(sealedAt := Some(s.now)) else s.evidence[j]
  {
    SweepFrom(s, s, f, 0, j);
  }

  // ─── Replicas ────────────────────────────────────────────────────────────────

  /** A sweep at work: what is left of its list, whether the first one's object is already gone, and its counter. */
  datatype Work = Work(batch: seq<Candidate>, deleted: bool, sealed: nat)

  /** `work` has a place for every replica; `returned` is the sum of the counts that sweeps returned. */
  datatype System = System(tables: State, work: seq<Option<Work>>, returned: nat)

  datatype Step =
    | Query(r: nat)
    | Delete(r: nat, ok: bool)
    | Commit(r: nat, ok: bool)
    | Return(r: nat)
    | Crash(r: nat)
    | Touch(fine: nat, status: Status, paidAt: Option<int>)
    | SetPolicy(tenant: string, policy: Policy)
    | Wait(seconds: nat)

  predicate AtWork(m: System, r: nat) {
    r < |m.work| && m.work[r].Some?
  }

  predicate Allowed(m: System, step: Step) {
    match step
    case Query(r) => r < |m.work| && m.work[r].None?
    case Delete(r, _) => AtWork(m, r) && m.work[r].value.batch != [] && !m.work[r].value.deleted
    case Commit(r, _) =>
      && AtWork(m, r) && m.work[r].value.batch != [] && m.work[r].value.deleted
      && m.work[r].value.batch[0].evidence < |m.tables.evidence|
    case Return(r) => AtWork(m, r) && m.work[r].value.batch == []
    case Crash(r) => AtWork(m, r)
    case Touch(i, _, _) => i < |m.tables.fines|
    case _ => true
  }

  function Put(m: System, r: nat, w: Option<Work>): System
    requires r < |m.work|
  {
    m.(work := m.work[r := w])
  }

  /** A step that is not possible changes nothing. */
  function Apply(m: System, step: Step): System {
    if !Allowed(m, step) then m
    else
      match step
      case Query(r) => Put(m, r, Some(Work(Candidates(m.tables, 0), false, 0)))
      case Delete(r, ok) =>
        var w := m.work[r].value;
        if ok then Put(m.(tables := Deleted(m.tables, w.batch[0])), r, Some(w.(deleted := true)))
        else Put(m, r, Some(w.(batch := w.batch[1..])))
      case Commit(r, ok) =>
        var w := m.work[r].value;
        if ok
        then Put(m.(tables := SealedBy(m.tables, w.batch[0])), r, Some(Work(w.batch[1..], false, w.sealed + 1)))
        else Put(m, r, Some(Work(w.batch[1..], false, w.sealed)))
      case Return(r) => Put(m.(returned := m.returned + m.work[r].value.sealed), r, None)
      case Crash(r) => Put(m, r, None)
      case Touch(i, st, paidAt) =>
        m.(tables := m.tables.(fines := m.tables.fines[i := m.tables.fines[i].(status := st, paidAt := paidAt)]))
      case SetPolicy(t, p) => m.(tables := m.tables.(policies := m.tables.policies[t := p]))
      case Wait(seconds) => m.(tables := m.tables.(now := m.tables.now + seconds))
  }

  function Run(m: System, steps: seq<Step>): System {
    if steps == [] then m else Apply(Run(m, steps[..|steps| - 1]), steps[|steps| - 1])
  }

  lemma RunOneMore(m: System, steps: seq<Step>, step: Step)
    ensures Run(m, steps + [step]) == Apply(Run(m, steps), step)
  {
    assert (steps + [step])[..|steps|] == steps;
  }

  /** All objects stored under distinct keys, nothing sealed, no replica at work. */
  predicate Initial(m: System) {
    && (forall i, j :: 0 <= i < j < |m.tables.evidence| ==> m.tables.evidence[i].key != m.tables.evidence[j].key)
    && (forall i :: 0 <= i < |m.tables.evidence| ==>
         m.tables.evidence[i].sealedAt.None? && m.tables.evidence[i].key in m.tables.store)
    && (forall r :: 0 <= r < |m.work| ==> m.work[r].None?)
    && m.tables.custody == [] && m.returned == 0
  }

  lemma {:induction false} RunConcat(m: System, a: seq<Step>, b: seq<Step>)
    ensures Run(m, a + b) == Run(Run(m, a), b)
  {
    if b == [] {
      assert a + b == a;
    } else {
      var n := |b| - 1;
      assert (a + b)[..|a| + n] == a + b[..n];
      RunConcat(m, a, b[..n]);
    }
  }

  function Successes(batch: seq<Candidate>, f: Faults): nat {
    if batch == [] then 0 else (if Succeeds(batch[0], f) then 1 else 0) + Successes(batch[1..], f)
  }

  /** Replica `r` handles one candidate. */
  function HandleSteps(r: nat, c: Candidate, f: Faults): seq<Step> {
    if f.down(c.evidence) then [Delete(r, false)] else [Delete(r, true), Commit(r, !f.broken(c.evidence))]
  }

  function SweepSteps(r: nat, batch: seq<Candidate>, f: Faults): seq<Step> {
    if batch == [] then [] else HandleSteps(r, batch[0], f) + SweepSteps(r, batch[1..], f)
  }

  /** The system with replica `r` at `w` over other tables. */
  function Working(m: System, r: nat, s: State, w: Work): System
    requires r < |m.work|
  {
    m.(tables := s, work := m.work[r := Some(w)])
  }

  lemma WorkingOn(m: System, r: nat, s: State, w: Work, t: State, x: Work)
    requires r < |m.work|
    ensures Working(Working(m, r, s, w), r, t, x) == Working(m, r, t, x)
  {
    assert m.work[r := Some(w)][r := Some(x)] == m.work[r := Some(x)];
  }

  lemma OneStep(m: System, step: Step)
    ensures Run(m, [step]) == Apply(m, step)
  {
    assert [step][..0] == [];
  }

  function Counted(w: Work, f: Faults): nat
    requires w.batch != []
  {
    w.sealed + (if Succeeds(w.batch[0], f) then 1 else 0)
  }

  lemma RefusedIsRun(m: System, r: nat, w: Work)
    requires r < |m.work| && w.batch != [] && !w.deleted
    ensures Run(Working(m, r, m.tables, w), [Delete(r, false)]) == Working(m, r, m.tables, Work(w.batch[1..], false, w.sealed))
  {
    OneStep(Working(m, r, m.tables, w), Delete(r, false));
    WorkingOn(m, r, m.tables, w, m.tables, Work(w.batch[1..], false, w.sealed));
  }

  lemma DeletedIsRun(m: System, r: nat, w: Work, ok: bool)
    requires r < |m.work| && w.batch != [] && !w.deleted && w.batch[0].evidence < |m.tables.evidence|
    ensures var s := Deleted(m.tables, w.batch[0]);
      Run(Working(m, r, m.tables, w), [Delete(r, true), Commit(r, ok)])
      == if ok then Working(m, r, SealedBy(s, w.batch[0]), Work(w.batch[1..], false, w.sealed + 1))
         else Working(m, r, s, Work(w.batch[1..], false, w.sealed))
  {
    var s, c, begun := Deleted(m.tables, w.batch[0]), w.batch[0], Working(m, r, m.tables, w);
    var x := Work(w.batch, true, w.sealed);
    var next := if ok then Work(w.batch[1..], false, w.sealed + 1) else Work(w.batch[1..], false, w.sealed);
    WorkingOn(m, r, m.tables, w, s, x);
    WorkingOn(m, r, s, x, if ok then SealedBy(s, c) else s, next);
    OneStep(begun, Delete(r, true));
    RunOneMore(begun, [Delete(r, true)], Commit(r, ok));
    assert [Delete(r, true)] + [Commit(r, ok)] == [Delete(r, true), Commit(r, ok)];
  }

  lemma HandleIsRun(m: System, r: nat, w: Work, f: Faults)
    requires r < |m.work| && w.batch != [] && !w.deleted && w.batch[0].evidence < |m.tables.evidence|
    ensures Run(Working(m, r, m.tables, w), HandleSteps(r, w.batch[0], f))
         == Working(m, r, SealOne(m.tables, w.batch[0], f), Work(w.batch[1..], false, Counted(w, f)))
  {
    if f.down(w.batch[0].evidence) {
      RefusedIsRun(m, r, w);
    } else {
      DeletedIsRun(m, r, w, !f.broken(w.batch[0].evidence));
    }
  }

  /** The tables and the counter after working off a list. */
  lemma WorkOffUnfolds(s: State, w: Work, f: Faults, r: nat)
    requires w.batch != []
    ensures SweepSteps(r, w.batch, f) == HandleSteps(r, w.batch[0], f) + SweepSteps(r, w.batch[1..], f)
    ensures SealAll(s, w.batch, f) == SealAll(SealOne(s, w.batch[0], f), w.batch[1..], f)
    ensures w.sealed + Successes(w.batch, f) == Counted(w, f) + Successes(w.batch[1..], f)
  {
  }

  lemma {:induction false} WorkOffIsRun(m: System, r: nat, s: State, w: Work, f: Faults, steps: seq<Step>, t: State, n: nat)
    requires r < |m.work| && !w.deleted && |s.evidence| == |m.tables.evidence|
    requires forall k :: 0 <= k < |w.batch| ==> w.batch[k].evidence < |m.tables.evidence|
    requires steps == SweepSteps(r, w.batch, f) && t == SealAll(s, w.batch, f) && n == w.sealed + Successes(w.batch, f)
    ensures Run(Working(m, r, s, w), steps) == Working(m, r, t, Work([], false, n))
    decreases |w.batch|
  {
    if w.batch != [] {
      var rest := SweepSteps(r, w.batch[1..], f);
      WorkOffUnfolds(s, w, f, r);
      HandleIsRun(m.(tables := s), r, w, f);
      WorkOffIsRun(m, r, SealOne(s, w.batch[0], f), Work(w.batch[1..], false, Counted(w, f)), f, rest, t, n);
      RunConcat(Working(m, r, s, w), HandleSteps(r, w.batch[0], f), rest);
    }
  }

  /** A whole sweep of one replica is a run, so every theorem about runs speaks about it. */
  lemma SweepIsRun(m: System, r: nat, f: Faults)
    requires r < |m.work| && m.work[r].None?
    ensures var batch := Candidates(m.tables, 0);
      Run(m, ([Query(r)] + SweepSteps(r, batch, f)) + [Return(r)])
      == m.(tables := SealAll(m.tables, batch, f), returned := m.returned + Successes(batch, f))
  {
    var batch := Candidates(m.tables, 0);
    CandidatesFit(m.tables, 0, batch);
    OneStep(m, Query(r));
    WorkOffIsRun(m, r, m.tables, Work(batch, false, 0), f, SweepSteps(r, batch, f),
                 SealAll(m.tables, batch, f), Successes(batch, f));
    RunConcat(m, [Query(r)], SweepSteps(r, batch, f));
    RunOneMore(m, [Query(r)] + SweepSteps(r, batch, f), Return(r));
    var v := Run(m, [Query(r)] + SweepSteps(r, batch, f));
    assert v == Working(m, r, SealAll(m.tables, batch, f), Work([], false, Successes(batch, f)));
    assert Apply(v, Return(r)).work == m.work;
  }

  // ─── Objects, rows and custody ───────────────────────────────────────────────

  function SealsOf(custody: seq<nat>, i: nat): nat {
    multiset(custody)[i]
  }

  predicate Queries(m: System, step: Step, r: nat) {
    step == Query(r) && Allowed(m, step)
  }

  /** The position of replica `r`'s last query, -1 if it made none. */
  function LastQuery(m: System, steps: seq<Step>, r: nat): (q: int)
    ensures -1 <= q < |steps|
  {
    if steps == [] then -1
    else if Queries(Run(m, steps[..|steps| - 1]), steps[|steps| - 1], r) then |steps| - 1
    else LastQuery(m, steps[..|steps| - 1], r)
  }

  /** The position holds a query of the replica, and no query of the replica comes later. */
  lemma {:induction false} LastQueryMeans(m: System, steps: seq<Step>, r: nat, k: nat)
    requires k < |steps|
    ensures k == LastQuery(m, steps, r) ==> Queries(Run(m, steps[..k]), steps[k], r)
    ensures Queries(Run(m, steps[..k]), steps[k], r) ==> k <= LastQuery(m, steps, r)
  {
    var n := |steps| - 1;
    if k < n {
      LastQueryMeans(m, steps[..n], r, k);
      assert steps[..n][..k] == steps[..k];
    }
  }

  /** For each replica the tables its last query read. */
  function Snapshots(m: System, steps: seq<Step>): (seen: seq<State>)
    ensures |seen| == |m.work|
  {
    if steps == [] then seq(|m.work|, _ => m.tables)
    else SnapshotsAfter(Run(m, steps[..|steps| - 1]), Snapshots(m, steps[..|steps| - 1]), steps[|steps| - 1])
  }

  function SnapshotsAfter(m: System, seen: seq<State>, step: Step): (after: seq<State>)
    ensures |after| == |seen|
  {
    if step.Query? && Allowed(m, step) && step.r < |seen| then seen[step.r := m.tables] else seen
  }

  lemma {:induction false} SameReplicas(m: System, steps: seq<Step>)
    ensures |Run(m, steps).work| == |m.work|
  {
    if steps != [] { SameReplicas(m, steps[..|steps| - 1]); }
  }

  lemma StillAtWork(m: System, step: Step, r: nat)
    requires AtWork(Apply(m, step), r) && !Queries(m, step, r)
    ensures AtWork(m, r)
  {
  }

  /** A replica at work has queried, and its snapshot is what that query read. */
  lemma {:induction false} SnapshotIs(m: System, steps: seq<Step>, r: nat)
    requires Initial(m) && AtWork(Run(m, steps), r) && r < |m.work|
    ensures var q := LastQuery(m, steps, r); 0 <= q && Snapshots(m, steps)[r] == Run(m, steps[..q]).tables
  {
    var n := |steps| - 1;
    var u := Run(m, steps[..n]);
    assert Run(m, steps) == Apply(u, steps[n]);
    if Queries(u, steps[n], r) {
      assert LastQuery(m, steps, r) == n && Snapshots(m, steps)[r] == u.tables;
    } else {
      StillAtWork(u, steps[n], r);
      SnapshotIs(m, steps[..n], r);
      var q := LastQuery(m, steps[..n], r);
      assert LastQuery(m, steps, r) == q && steps[..n][..q] == steps[..q];
    }
  }

  predicate RowOk(s: State, i: nat)
    requires i < |s.evidence|
  {
    var e := s.evidence[i];
    && (e.sealedAt.Some? ==> e.key !in s.store)
    && SealsOf(s.custody, i) == (if e.sealedAt.Some? then 1 else 0)
  }

  /** The list holds candidates of the snapshot `seen`, with the keys of their rows. */
  predicate WorkOk(s: State, seen: State, w: Work) {
    && (forall k :: 0 <= k < |w.batch| ==>
         w.batch[k].evidence < |s.evidence| && w.batch[k].key == s.evidence[w.batch[k].evidence].key
         && IsCandidate(seen, w.batch[k].evidence))
    && (w.deleted ==> w.batch != [] && w.batch[0].key !in s.store)
  }

  ghost predicate Inv(m: System, seen: seq<State>) {
    && |seen| == |m.work|
    && (forall i, j :: 0 <= i < j < |m.tables.evidence| ==> m.tables.evidence[i].key != m.tables.evidence[j].key)
    && (forall i :: 0 <= i < |m.tables.evidence| ==> RowOk(m.tables, i))
    && (forall r: nat :: AtWork(m, r) ==> WorkOk(m.tables, seen[r], m.work[r].value))
  }

  lemma DeleteKeeps(m: System, seen: seq<State>, r: nat)
    requires Inv(m, seen) && Allowed(m, Delete(r, true))
    ensures Inv(Apply(m, Delete(r, true)), seen)
  {
    var m' := Apply(m, Delete(r, true));
    assert WorkOk(m.tables, seen[r], m.work[r].value);
    forall i | 0 <= i < |m.tables.evidence| ensures RowOk(m'.tables, i) { assert RowOk(m.tables, i); }
    forall q: nat | AtWork(m', q) ensures WorkOk(m'.tables, seen[q], m'.work[q].value) {
      assert WorkOk(m.tables, seen[q], m.work[q].value);
    }
  }

  lemma SealedRow(s: State, c: Candidate, i: nat)
    requires c.evidence < |s.evidence| && i < |s.evidence| && RowOk(s, i)
    requires c.key == s.evidence[c.evidence].key && c.key !in s.store
    ensures i < |SealedBy(s, c).evidence| && RowOk(SealedBy(s, c), i)
  {
  }

  lemma CommitKeeps(m: System, seen: seq<State>, r: nat, ok: bool)
    requires Inv(m, seen) && Allowed(m, Commit(r, ok))
    ensures Inv(Apply(m, Commit(r, ok)), seen)
  {
    var m', w := Apply(m, Commit(r, ok)), m.work[r].value;
    assert WorkOk(m.tables, seen[r], w);
    forall i | 0 <= i < |m.tables.evidence| ensures RowOk(m'.tables, i) {
      SealedRow(m.tables, w.batch[0], i);
    }
    assert forall i :: 0 <= i < |m.tables.evidence| ==> m'.tables.evidence[i].key == m.tables.evidence[i].key;
    forall q: nat | AtWork(m', q) ensures WorkOk(m'.tables, seen[q], m'.work[q].value) {
      assert WorkOk(m.tables, seen[q], m.work[q].value);
      if q == r { assert forall k :: 0 <= k < |w.batch| - 1 ==> m'.work[r].value.batch[k] == w.batch[k + 1]; }
    }
  }

  lemma QueryKeeps(m: System, seen: seq<State>, r: nat)
    requires Inv(m, seen) && Allowed(m, Query(r))
    ensures Inv(Apply(m, Query(r)), seen[r := m.tables])
  {
    var m', after := Apply(m, Query(r)), seen[r := m.tables];
    CandidatesFit(m.tables, 0, m'.work[r].value.batch);
    forall i | 0 <= i < |m.tables.evidence| ensures RowOk(m'.tables, i) { assert RowOk(m.tables, i); }
    forall q: nat | AtWork(m', q) ensures WorkOk(m'.tables, after[q], m'.work[q].value) {
      if q != r { assert WorkOk(m.tables, seen[q], m.work[q].value); }
    }
  }

  lemma OtherKeeps(m: System, seen: seq<State>, step: Step)
    requires Inv(m, seen) && !step.Query? && !step.Commit? && (step.Delete? ==> !step.ok)
    ensures Inv(Apply(m, step), seen)
  {
    var m' := Apply(m, step);
    forall i | 0 <= i < |m'.tables.evidence| ensures RowOk(m'.tables, i) { assert RowOk(m.tables, i); }
    forall q: nat | AtWork(m', q) ensures WorkOk(m'.tables, seen[q], m'.work[q].value) {
      assert WorkOk(m.tables, seen[q], m.work[q].value);
      if step.Delete? && q == step.r && Allowed(m, step) {
        var batch := m.work[q].value.batch;
        assert forall k :: 0 <= k < |batch| - 1 ==> m'.work[q].value.batch[k] == batch[k + 1];
      }
    }
  }

  lemma StepKeeps(m: System, seen: seq<State>, step: Step)
    requires Inv(m, seen)
    ensures Inv(Apply(m, step), SnapshotsAfter(m, seen, step))
  {
    if Allowed(m, step) {
      match step
      case Query(r) => QueryKeeps(m, seen, r);
      case Delete(r, true) => DeleteKeeps(m, seen, r);
      case Commit(r, ok) => CommitKeeps(m, seen, r, ok);
      case _ => OtherKeeps(m, seen, step);
    }
  }

  lemma {:induction false} RunKeeps(m: System, steps: seq<Step>)
    requires Initial(m)
    ensures Inv(Run(m, steps), Snapshots(m, steps))
  {
    if steps == [] {
      forall i | 0 <= i < |m.tables.evidence| ensures RowOk(m.tables, i) {}
    } else {
      var before := steps[..|steps| - 1];
      RunKeeps(m, before);
      StepKeeps(Run(m, before), Snapshots(m, before), steps[|steps| - 1]);
    }
  }

  lemma {:induction false} SameKeys(m: System, steps: seq<Step>)
    ensures var s := Run(m, steps).tables;
      |s.evidence| == |m.tables.evidence| && forall i :: 0 <= i < |s.evidence| ==> s.evidence[i].key == m.tables.evidence[i].key
  {
    if steps != [] { SameKeys(m, steps[..|steps| - 1]); }
  }

  /** The step deletes the object of row `i`. */
  predicate Destroys(m: System, step: Step, i: nat) {
    step.Delete? && step.ok && Allowed(m, step) && m.work[step.r].value.batch[0].evidence == i
  }

  /** Step `j` deletes the object of row `i`, which was a candidate when the deleting replica last queried. */
  predicate DeletesAsQueried(m: System, steps: seq<Step>, j: nat, i: nat) {
    && j < |steps| && Destroys(Run(m, steps[..j]), steps[j], i)
    && (var q := LastQuery(m, steps[..j], steps[j].r); 0 <= q && IsCandidate(Run(m, steps[..q]).tables, i))
  }

  lemma DestroyedWasQueried(m: System, steps: seq<Step>, step: Step, i: nat)
    requires Initial(m) && Destroys(Run(m, steps), step, i)
    ensures var q := LastQuery(m, steps, step.r); 0 <= q && IsCandidate(Run(m, steps[..q]).tables, i)
  {
    RunKeeps(m, steps);
    SameReplicas(m, steps);
    SnapshotIs(m, steps, step.r);
    assert WorkOk(Run(m, steps).tables, Snapshots(m, steps)[step.r], Run(m, steps).work[step.r].value);
  }

  /** Only the deletion of row `i` makes its object go. */
  lemma OnlyDestroyed(m: System, seen: seq<State>, step: Step, i: nat)
    requires Inv(m, seen) && i < |m.tables.evidence|
    requires m.tables.evidence[i].key in m.tables.store && m.tables.evidence[i].key !in Apply(m, step).tables.store
    ensures Destroys(m, step, i)
  {
    assert step.Delete? && Allowed(m, step);
    assert WorkOk(m.tables, seen[step.r], m.work[step.r].value);
    var c := m.work[step.r].value.batch[0];
    assert c.key == m.tables.evidence[c.evidence].key;
  }

  lemma {:induction false} GoneWasDestroyed(m: System, steps: seq<Step>, i: nat) returns (j: nat)
    requires Initial(m) && i < |m.tables.evidence| && m.tables.evidence[i].key !in Run(m, steps).tables.store
    ensures DeletesAsQueried(m, steps, j, i)
  {
    var n := |steps| - 1;
    var u := Run(m, steps[..n]);
    if m.tables.evidence[i].key !in u.tables.store {
      j := GoneWasDestroyed(m, steps[..n], i);
      var q := LastQuery(m, steps[..j], steps[j].r);
      assert steps[..n][..j] == steps[..j] && steps[..n][..q] == steps[..q];
    } else {
      j := n;
      RunKeeps(m, steps[..n]);
      SameKeys(m, steps[..n]);
      OnlyDestroyed(u, Snapshots(m, steps[..n]), steps[n], i);
      DestroyedWasQueried(m, steps[..n], steps[n], i);
      var q := LastQuery(m, steps[..n], steps[n].r);
      assert steps[..n][..q] == steps[..q];
    }
  }

  /** Any replicas, stale lists, failures and crashes: a sealed row's object is gone, it has exactly one custody row and
      an unsealed one none, and an object is gone only by a deletion of its row that the deleting replica's own last
      query listed: unsealed, past its deadline, and not of a held tenant or a court fine without a court limit. */
  lemma ReaperSafety(m: System, steps: seq<Step>, i: nat)
    requires Initial(m) && i < |m.tables.evidence|
    ensures var s := Run(m, steps).tables;
      && i < |s.evidence|
      && (s.evidence[i].sealedAt.Some? ==> s.evidence[i].key !in s.store)
      && SealsOf(s.custody, i) == (if s.evidence[i].sealedAt.Some? then 1 else 0)
      && (s.evidence[i].key !in s.store ==> exists j: nat :: DeletesAsQueried(m, steps, j, i))
  {
    RunKeeps(m, steps);
    SameKeys(m, steps);
    var s := Run(m, steps).tables;
    assert RowOk(s, i);
    if s.evidence[i].key !in s.store { var j := GoneWasDestroyed(m, steps, i); }
  }

  /** The policy a tenant has, or the schema's defaults. */
  predicate InForce(s: State, tenant: string, p: Policy) {
    if tenant in s.policies then p == s.policies[tenant] else p == Policy(1825, 1825, 365, None, false)
  }

  /** Which rows the query lists: unsealed ones of an existing fine whose tenant is not under legal hold and whose
      retention is over: of a paid fine with its time of payment so many days after that, of a cancelled fine and of a
      court fine so many after its issue - and never without a court limit -, of any other fine the default. */
  lemma CandidateMeans(s: State, i: nat, p: Policy)
    requires i < |s.evidence| && s.evidence[i].fine < |s.fines|
    requires InForce(s, s.fines[s.evidence[i].fine].tenant, p)
    ensures var f := s.fines[s.evidence[i].fine];
      var settled := f.status == Paid && f.paidAt.Some?;
      IsCandidate(s, i) <==>
        && s.evidence[i].sealedAt.None? && !p.hold
        && (settled ==> s.now > f.paidAt.value + 86_400 * p.paidDays)
        && (f.status == Cancelled ==> s.now > f.issuedAt + 86_400 * p.cancelledDays)
        && (f.status == Court ==> p.courtDays.Some? && s.now > f.issuedAt + 86_400 * p.courtDays.value)
        && (!settled && f.status != Cancelled && f.status != Court ==> s.now > f.issuedAt + 86_400 * p.defaultDays)
  {
  }

  // ─── Returned counts ─────────────────────────────────────────────────────────

  function Counter(w: Option<Work>): nat {
    if w.None? then 0 else w.value.sealed
  }

  /** Counted by sweeps that are still at work. */
  function InFlight(work: seq<Option<Work>>): nat {
    if work == [] then 0 else InFlight(work[..|work| - 1]) + Counter(work[|work| - 1])
  }

  /** Counted by sweeps that died before they returned. */
  function Lost(m: System, steps: seq<Step>): nat {
    if steps == [] then 0
    else
      var u, step := Run(m, steps[..|steps| - 1]), steps[|steps| - 1];
      Lost(m, steps[..|steps| - 1]) + (if step.Crash? && AtWork(u, step.r) then u.work[step.r].value.sealed else 0)
  }

  /** Transactions that found their row sealed already. */
  function Repeats(m: System, steps: seq<Step>): nat {
    if steps == [] then 0
    else
      var u, step := Run(m, steps[..|steps| - 1]), steps[|steps| - 1];
      Repeats(m, steps[..|steps| - 1])
      + (if step.Commit? && step.ok && Allowed(u, step)
            && u.tables.evidence[u.work[step.r].value.batch[0].evidence].sealedAt.Some? then 1 else 0)
  }

  lemma {:induction false} InFlightUpdate(work: seq<Option<Work>>, r: nat, w: Option<Work>)
    requires r < |work|
    ensures InFlight(work[r := w]) + Counter(work[r]) == InFlight(work) + Counter(w)
  {
    var n := |work| - 1;
    if r == n {
      assert work[r := w][..n] == work[..n];
    } else {
      InFlightUpdate(work[..n], r, w);
      assert work[r := w][..n] == work[..n][r := w];
    }
  }

  lemma {:induction false} NothingInFlight(work: seq<Option<Work>>)
    requires forall r :: 0 <= r < |work| ==> work[r].None?
    ensures InFlight(work) == 0
  {
    if work != [] { NothingInFlight(work[..|work| - 1]); }
  }

  lemma CountsStep(u: System, step: Step)
    ensures var v := Apply(u, step);
      var lost := if step.Crash? && AtWork(u, step.r) then u.work[step.r].value.sealed else 0;
      var repeated := if step.Commit? && step.ok && Allowed(u, step)
        && u.tables.evidence[u.work[step.r].value.batch[0].evidence].sealedAt.Some? then 1 else 0;
      v.returned + InFlight(v.work) + lost + |u.tables.custody| == u.returned + InFlight(u.work) + |v.tables.custody| + repeated
  {
    if (step.Query? || step.Delete? || step.Commit? || step.Return? || step.Crash?) && Allowed(u, step) {
      InFlightUpdate(u.work, step.r, Apply(u, step).work[step.r]);
    }
  }

  /** Every successful transaction is counted once: returned, still in flight, or lost; and it sealed a row or found it
      sealed. So the returned counts cover the sealed rows if and only if no more counts are in flight or lost than
      transactions came too late. */
  lemma {:induction false} CountsConserved(m: System, steps: seq<Step>)
    requires Initial(m)
    ensures var u := Run(m, steps);
      && u.returned + InFlight(u.work) + Lost(m, steps) == |u.tables.custody| + Repeats(m, steps)
      && (|u.tables.custody| <= u.returned <==> InFlight(u.work) + Lost(m, steps) <= Repeats(m, steps))
  {
    if steps == [] {
      NothingInFlight(m.work);
    } else {
      CountsConserved(m, steps[..|steps| - 1]);
      CountsStep(Run(m, steps[..|steps| - 1]), steps[|steps| - 1]);
    }
  }

  const FINE := Fine("t", None, "S1", 100, Cancelled, 0, 0, 0, None)
  const OVERDUE := State([Evidence(0, "k", None)], [FINE], map[], {"k"}, [], 366 * DAY)
  const ONE_REPLICA := System(OVERDUE, [None], 0)

  lemma FirstQuery()
    ensures Initial(ONE_REPLICA) && IsCandidate(OVERDUE, 0)
    ensures Run(ONE_REPLICA, [] + [Query(0)]) == System(OVERDUE, [Some(Work([Candidate(0, "k")], false, 0))], 0)
  {
    RunOneMore(ONE_REPLICA, [], Query(0));
    assert Candidates(OVERDUE, 1) == [] && IsCandidate(OVERDUE, 0);
    assert Candidates(OVERDUE, 0) == [Candidate(0, "k")];
    assert Run(ONE_REPLICA, []) == ONE_REPLICA;
  }

  /** A sweep that seals its row and dies returns nothing. */
  lemma CrashLosesCount()
    ensures var u := Run(ONE_REPLICA, [] + [Query(0)] + [Delete(0, true)] + [Commit(0, true)] + [Crash(0)]);
      u.tables.custody == [0] && u.returned == 0
  {
    FirstQuery();
    var a := [] + [Query(0)];
    RunOneMore(ONE_REPLICA, a, Delete(0, true));
    RunOneMore(ONE_REPLICA, a + [Delete(0, true)], Commit(0, true));
    RunOneMore(ONE_REPLICA, a + [Delete(0, true)] + [Commit(0, true)], Crash(0));
  }

  const LIST := [Candidate(0, "k")]
  const SEALED := State([Evidence(0, "k", Some(366 * DAY))], [FINE], map[], {}, [0], 366 * DAY)

  const NONE_AT_WORK := System(OVERDUE, [None, None], 0)
  const BOTH_COUNTED := System(SEALED, [Some(Work([], false, 1)), Some(Work([], false, 1))], 0)

  lemma BothQuery()
    ensures Initial(NONE_AT_WORK)
    ensures Run(NONE_AT_WORK, [] + [Query(0)] + [Query(1)])
         == System(OVERDUE, [Some(Work(LIST, false, 0)), Some(Work(LIST, false, 0))], 0)
  {
    assert Candidates(OVERDUE, 1) == [] && IsCandidate(OVERDUE, 0) && Candidates(OVERDUE, 0) == LIST;
    assert Run(NONE_AT_WORK, []) == NONE_AT_WORK;
    RunOneMore(NONE_AT_WORK, [], Query(0));
    RunOneMore(NONE_AT_WORK, [] + [Query(0)], Query(1));
  }

  lemma DeletedTwice(work: seq<Option<Work>>, gone: State)
    requires work == [Some(Work(LIST, false, 0)), Some(Work(LIST, false, 0))] && gone == OVERDUE.(store := {})
    ensures Apply(System(OVERDUE, work, 0), Delete(0, true)) == System(gone, work[0 := Some(Work(LIST, true, 0))], 0)
    ensures Apply(System(gone, work[0 := Some(Work(LIST, true, 0))], 0), Delete(1, true))
         == System(gone, [Some(Work(LIST, true, 0)), Some(Work(LIST, true, 0))], 0)
  {
    assert Deleted(OVERDUE, LIST[0]) == gone && Deleted(gone, LIST[0]) == gone;
  }

  lemma BothDelete()
    ensures Run(NONE_AT_WORK, [] + [Query(0)] + [Query(1)] + [Delete(0, true)] + [Delete(1, true)])
         == System(OVERDUE.(store := {}), [Some(Work(LIST, true, 0)), Some(Work(LIST, true, 0))], 0)
  {
    var a := [] + [Query(0)] + [Query(1)];
    BothQuery();
    DeletedTwice([Some(Work(LIST, false, 0)), Some(Work(LIST, false, 0))], OVERDUE.(store := {}));
    RunOneMore(NONE_AT_WORK, a, Delete(0, true));
    RunOneMore(NONE_AT_WORK, a + [Delete(0, true)], Delete(1, true));
  }

  lemma BothSeal()
    ensures Run(NONE_AT_WORK, [] + [Query(0)] + [Query(1)] + [Delete(0, true)] + [Delete(1, true)]
                              + [Commit(0, true)] + [Commit(1, true)]) == BOTH_COUNTED
  {
    var b := [] + [Query(0)] + [Query(1)] + [Delete(0, true)] + [Delete(1, true)];
    BothDelete();
    assert SealedBy(OVERDUE.(store := {}), LIST[0]) == SEALED && SealedBy(SEALED, LIST[0]) == SEALED && LIST[1..] == [];
    RunOneMore(NONE_AT_WORK, b, Commit(0, true));
    assert Run(NONE_AT_WORK, b + [Commit(0, true)]) == System(SEALED, [Some(Work([], false, 1)), Some(Work(LIST, true, 0))], 0);
    RunOneMore(NONE_AT_WORK, b + [Commit(0, true)], Commit(1, true));
  }

  /** Two sweeps with the same candidate: one row is sealed and two are returned. */
  lemma BothCount()
    ensures Initial(NONE_AT_WORK)
    ensures var u := Run(NONE_AT_WORK, [] + [Query(0)] + [Query(1)] + [Delete(0, true)] + [Delete(1, true)]
                                       + [Commit(0, true)] + [Commit(1, true)] + [Return(0)] + [Return(1)]);
      u.tables.custody == [0] && u.returned == 2
  {
    var c := [] + [Query(0)] + [Query(1)] + [Delete(0, true)] + [Delete(1, true)] + [Commit(0, true)] + [Commit(1, true)];
    BothQuery();
    BothSeal();
    RunOneMore(NONE_AT_WORK, c, Return(0));
    RunOneMore(NONE_AT_WORK, c + [Return(0)], Return(1));
  }

  // ─── Stale candidates ────────────────────────────────────────────────────────

  /** A replica still has row `i` to delete. */
  predicate Waits(m: System, r: nat, k: nat, i: nat) {
    && AtWork(m, r) && k < |m.work[r].value.batch| && m.work[r].value.batch[k].evidence == i
    && !(k == 0 && m.work[r].value.deleted)
  }

  /** The candidates of a replica after a step are those before, less the first, unless it queried. */
  lemma WorkAfter(m: System, step: Step, r: nat, k: nat, i: nat)
    requires Waits(Apply(m, step), r, k, i)
    ensures (step == Query(r) && k < |Candidates(m.tables, 0)| && Candidates(m.tables, 0)[k].evidence == i)
         || Waits(m, r, k, i) || Waits(m, r, k + 1, i)
  {
  }

  predicate Concerns(s: State, step: Step, i: nat) {
    && i < |s.evidence| && s.evidence[i].fine < |s.fines|
    && (match step
        case Touch(f, _, _) => f == s.evidence[i].fine
        case SetPolicy(t, _) => t == s.fines[s.evidence[i].fine].tenant
        case _ => false)
  }

  /** Only a change of its fine or of its tenant's policy makes a due row undue. */
  lemma DueStays(m: System, step: Step, i: nat)
    requires DueNow(m.tables, i) && !Concerns(m.tables, step, i)
    ensures DueNow(Apply(m, step).tables, i)
  {
  }

  /** Step `k` concerns row `i`, which was due and no longer is. */
  predicate Retracts(m: System, steps: seq<Step>, k: nat, i: nat) {
    && k < |steps| && Concerns(Run(m, steps[..k]).tables, steps[k], i)
    && DueNow(Run(m, steps[..k]).tables, i) && !DueNow(Apply(Run(m, steps[..k]), steps[k]).tables, i)
  }

  lemma RetractsLonger(m: System, steps: seq<Step>, n: nat, k: nat, i: nat)
    requires n <= |steps| && Retracts(m, steps[..n], k, i)
    ensures Retracts(m, steps, k, i)
  {
    assert steps[..n][..k] == steps[..k];
  }

  lemma {:induction false} DueUntilRetracted(m: System, steps: seq<Step>, q: nat, i: nat) returns (k: nat)
    requires q < |steps| && DueNow(Run(m, steps[..q]).tables, i) && !DueNow(Run(m, steps).tables, i)
    ensures q <= k && Retracts(m, steps, k, i)
  {
    var n := |steps| - 1;
    var u := Run(m, steps[..n]);
    assert Run(m, steps) == Apply(u, steps[n]);
    if DueNow(u.tables, i) {
      k := n;
      if !Concerns(u.tables, steps[n], i) { DueStays(u, steps[n], i); }
    } else {
      assert q < n && steps[..n][..q] == steps[..q];
      k := DueUntilRetracted(m, steps[..n], q, i);
      RetractsLonger(m, steps, n, k, i);
    }
  }

  /** On every run, a row deleted although it is not due was due until, after the deleting replica's own last query, its
      own fine or its own tenant's policy was changed. */
  lemma DueAtDeletion(m: System, steps: seq<Step>, step: Step, i: nat)
    requires Initial(m) && Destroys(Run(m, steps), step, i) && !DueNow(Run(m, steps).tables, i)
    ensures exists k: nat :: LastQuery(m, steps, step.r) < k && Retracts(m, steps, k, i)
  {
    DestroyedWasQueried(m, steps, step, i);
    var q := LastQuery(m, steps, step.r);
    LastQueryMeans(m, steps, step.r, q);
    var k := DueUntilRetracted(m, steps, q, i);
    assert k != q;
  }

  /** If a replica still has row `i` to delete, the row is due. */
  ghost predicate WaitingDue(m: System, i: nat) {
    forall r: nat, k: nat :: Waits(m, r, k, i) ==> DueNow(m.tables, i)
  }

  /** No step concerns row `i`. */
  ghost predicate Calm(m: System, steps: seq<Step>, i: nat) {
    forall k :: 0 <= k < |steps| ==> !Concerns(Run(m, steps[..k]).tables, steps[k], i)
  }

  ghost predicate DestroysUndue(m: System, steps: seq<Step>, i: nat) {
    exists k :: 0 <= k < |steps| && Destroys(Run(m, steps[..k]), steps[k], i) && !DueNow(Run(m, steps[..k]).tables, i)
  }

  lemma CalmStep(m: System, step: Step, i: nat)
    requires WaitingDue(m, i) && !Concerns(m.tables, step, i)
    ensures WaitingDue(Apply(m, step), i)
  {
    forall r: nat, k: nat | Waits(Apply(m, step), r, k, i) ensures DueNow(Apply(m, step).tables, i) {
      WorkAfter(m, step, r, k, i);
      CandidatesFit(m.tables, 0, Candidates(m.tables, 0));
      DueStays(m, step, i);
    }
  }

  lemma CalmBefore(m: System, steps: seq<Step>, n: nat, i: nat)
    requires n <= |steps| && Calm(m, steps, i)
    ensures Calm(m, steps[..n], i)
  {
    forall k | 0 <= k < n ensures !Concerns(Run(m, steps[..n][..k]).tables, steps[..n][k], i) {
      assert steps[..n][..k] == steps[..k];
    }
  }

  lemma {:induction false} CalmRun(m: System, steps: seq<Step>, i: nat)
    requires WaitingDue(m, i) && Calm(m, steps, i)
    ensures WaitingDue(Run(m, steps), i)
  {
    if steps != [] {
      var n := |steps| - 1;
      CalmBefore(m, steps, n, i);
      CalmRun(m, steps[..n], i);
      CalmStep(Run(m, steps[..n]), steps[n], i);
    }
  }

  lemma CalmDestroysDue(m: System, steps: seq<Step>, k: nat, i: nat)
    requires WaitingDue(m, i) && Calm(m, steps, i)
    requires k < |steps| && Destroys(Run(m, steps[..k]), steps[k], i)
    ensures DueNow(Run(m, steps[..k]).tables, i)
  {
    CalmBefore(m, steps, k, i);
    CalmRun(m, steps[..k], i);
    assert Waits(Run(m, steps[..k]), steps[k].r, 0, i);
  }

  lemma CalmIsSafe(m: System, steps: seq<Step>, i: nat)
    requires WaitingDue(m, i) && Calm(m, steps, i)
    ensures !DestroysUndue(m, steps, i)
  {
    forall k: nat | k < |steps| && Destroys(Run(m, steps[..k]), steps[k], i) ensures DueNow(Run(m, steps[..k]).tables, i) {
      CalmDestroysDue(m, steps, k, i);
    }
  }

  predicate OfTenant(s: State, i: nat, tenant: string) {
    i < |s.evidence| && s.evidence[i].fine < |s.fines| && s.fines[s.evidence[i].fine].tenant == tenant
  }

  /** The step deletes the object of a row of the tenant. */
  predicate Takes(m: System, step: Step, tenant: string) {
    step.Delete? && step.ok && Allowed(m, step) && OfTenant(m.tables, m.work[step.r].value.batch[0].evidence, tenant)
  }

  predicate TakesAny(m: System, steps: seq<Step>, tenant: string) {
    steps != [] && (TakesAny(m, steps[..|steps| - 1], tenant)
                    || Takes(Run(m, steps[..|steps| - 1]), steps[|steps| - 1], tenant))
  }

  predicate KeepsPolicy(steps: seq<Step>, tenant: string) {
    forall k :: 0 <= k < |steps| ==> !(steps[k].SetPolicy? && steps[k].tenant == tenant)
  }

  /** A replica still has an object of the tenant to delete. */
  ghost predicate HasWaiting(m: System, tenant: string) {
    exists r: nat, k: nat, i: nat :: Waits(m, r, k, i) && OfTenant(m.tables, i, tenant)
  }

  predicate Held(s: State, tenant: string) {
    tenant in s.policies && s.policies[tenant].hold
  }

  lemma HeldStep(m: System, step: Step, tenant: string)
    requires Held(m.tables, tenant) && !HasWaiting(m, tenant) && !(step.SetPolicy? && step.tenant == tenant)
    ensures !Takes(m, step, tenant) && Held(Apply(m, step).tables, tenant) && !HasWaiting(Apply(m, step), tenant)
  {
    var m' := Apply(m, step);
    assert forall i :: OfTenant(m'.tables, i, tenant) <==> OfTenant(m.tables, i, tenant);
    CandidatesFit(m.tables, 0, Candidates(m.tables, 0));
    forall r: nat, k: nat, i: nat | Waits(m', r, k, i) ensures !OfTenant(m.tables, i, tenant) {
      WorkAfter(m, step, r, k, i);
    }
    if Takes(m, step, tenant) { assert Waits(m, step.r, 0, m.work[step.r].value.batch[0].evidence); }
  }

  lemma {:induction false} HeldRun(m: System, steps: seq<Step>, tenant: string)
    requires Held(m.tables, tenant) && !HasWaiting(m, tenant) && KeepsPolicy(steps, tenant)
    ensures !TakesAny(m, steps, tenant) && Held(Run(m, steps).tables, tenant) && !HasWaiting(Run(m, steps), tenant)
  {
    if steps != [] {
      HeldRun(m, steps[..|steps| - 1], tenant);
      HeldStep(Run(m, steps[..|steps| - 1]), steps[|steps| - 1], tenant);
    }
  }

  /** Let replica `r` give up its first `k` candidates and delete the next one. */
  lemma {:induction false} ReachCandidate(m: System, r: nat, k: nat) returns (steps: seq<Step>)
    requires AtWork(m, r) && k < |m.work[r].value.batch| && !(k == 0 && m.work[r].value.deleted)
    requires m.work[r].value.deleted ==> m.work[r].value.batch[0].evidence < |m.tables.evidence|
    ensures forall j :: 0 <= j < |steps| ==> !steps[j].SetPolicy? && !steps[j].Touch?
    ensures var u := Run(m, steps);
      && u.tables == m.tables && AtWork(u, r) && !u.work[r].value.deleted
      && u.work[r].value.batch == m.work[r].value.batch[k..]
    decreases k
  {
    var w := m.work[r].value;
    if k == 0 {
      steps := [];
    } else {
      var step := if w.deleted then Commit(r, false) else Delete(r, false);
      var u := Apply(m, step);
      assert u.work[r].value.batch == w.batch[1..] && w.batch[1..][k - 1..] == w.batch[k..];
      var rest := ReachCandidate(u, r, k - 1);
      steps := [step] + rest;
      RunConcat(m, [step], rest);
      assert [step][..0] == [];
    }
  }

  lemma TakesLast(m: System, steps: seq<Step>, step: Step, tenant: string)
    requires Takes(Run(m, steps), step, tenant)
    ensures TakesAny(m, steps + [step], tenant)
  {
    assert (steps + [step])[..|steps|] == steps;
  }

  lemma WaitingInRange(m: System, before: seq<Step>, r: nat)
    requires Initial(m) && AtWork(Run(m, before), r)
    ensures var u := Run(m, before);
      u.work[r].value.batch != [] ==> u.work[r].value.batch[0].evidence < |u.tables.evidence|
  {
    RunKeeps(m, before);
    assert WorkOk(Run(m, before).tables, Snapshots(m, before)[r], Run(m, before).work[r].value);
  }

  lemma WaitingIsTaken(m: System, r: nat, k: nat, i: nat, tenant: string) returns (steps: seq<Step>)
    requires Waits(m, r, k, i) && OfTenant(m.tables, i, tenant)
    requires m.work[r].value.deleted ==> m.work[r].value.batch[0].evidence < |m.tables.evidence|
    ensures KeepsPolicy(steps, tenant) && TakesAny(m, steps, tenant)
  {
    var first := ReachCandidate(m, r, k);
    steps := first + [Delete(r, true)];
    TakesLast(m, first, Delete(r, true), tenant);
  }

  /** A legal hold set at some moment of a run protects every object of the tenant from then on, whatever the replicas
      do, if and only if no replica still had one of the tenant's rows to delete. */
  lemma HoldProtects(m: System, before: seq<Step>, tenant: string, policy: Policy)
    requires Initial(m) && policy.hold
    ensures var u := Run(m, before);
      (forall steps :: KeepsPolicy(steps, tenant) ==> !TakesAny(Apply(u, SetPolicy(tenant, policy)), steps, tenant))
      <==> !HasWaiting(u, tenant)
  {
    var u := Run(m, before);
    var h := Apply(u, SetPolicy(tenant, policy));
    assert forall i :: OfTenant(h.tables, i, tenant) <==> OfTenant(u.tables, i, tenant);
    if HasWaiting(u, tenant) {
      var r: nat, k: nat, i: nat :| Waits(u, r, k, i) && OfTenant(u.tables, i, tenant);
      WaitingInRange(m, before, r);
      assert Waits(h, r, k, i);
      var steps := WaitingIsTaken(h, r, k, i, tenant);
    } else {
      assert forall r: nat, k: nat, i: nat :: Waits(h, r, k, i) ==> Waits(u, r, k, i);
      forall steps | KeepsPolicy(steps, tenant) ensures !TakesAny(h, steps, tenant) { HeldRun(h, steps, tenant); }
    }
  }

  lemma WaitingUndueIsDestroyed(m: System, r: nat, k: nat, i: nat) returns (steps: seq<Step>)
    requires Waits(m, r, k, i) && !DueNow(m.tables, i)
    requires m.work[r].value.deleted ==> m.work[r].value.batch[0].evidence < |m.tables.evidence|
    ensures Calm(m, steps, i) && DestroysUndue(m, steps, i)
  {
    var first := ReachCandidate(m, r, k);
    steps := first + [Delete(r, true)];
    assert steps[..|first|] == first;
  }

  /** After any run, and for each row by itself: as long as nothing concerns the row, it is deleted only while it is due,
      if and only if no replica has it still to delete although it is not due now. */
  lemma DestroysOnlyDue(m: System, before: seq<Step>, i: nat)
    requires Initial(m)
    ensures var u := Run(m, before);
      (forall steps :: Calm(u, steps, i) ==> !DestroysUndue(u, steps, i)) <==> WaitingDue(u, i)
  {
    var u := Run(m, before);
    if WaitingDue(u, i) {
      forall steps | Calm(u, steps, i) ensures !DestroysUndue(u, steps, i) { CalmIsSafe(u, steps, i); }
    } else {
      var r: nat, k: nat :| Waits(u, r, k, i) && !DueNow(u.tables, i);
      WaitingInRange(m, before, r);
      var steps := WaitingUndueIsDestroyed(u, r, k, i);
    }
  }

  const HOLD := Policy(1825, 1825, 365, None, true)

  /** A hold set after the query does not stop the deletion. */
  lemma LateHoldIgnored()
    ensures Initial(ONE_REPLICA)
    ensures var steps := [] + [Query(0)] + [SetPolicy("t", HOLD)];
      && !DueNow(Run(ONE_REPLICA, steps).tables, 0)
      && "k" !in Run(ONE_REPLICA, steps + [Delete(0, true)]).tables.store
  {
    FirstQuery();
    var a := [] + [Query(0)];
    RunOneMore(ONE_REPLICA, a, SetPolicy("t", HOLD));
    RunOneMore(ONE_REPLICA, a + [SetPolicy("t", HOLD)], Delete(0, true));
  }

  const IN_COURT := OVERDUE.(fines := [FINE.(status := Court)])

  lemma SentToCourt()
    ensures Initial(ONE_REPLICA) && !DueNow(IN_COURT, 0)
    ensures Run(ONE_REPLICA, [] + [Query(0)] + [Touch(0, Court, None)]) == System(IN_COURT, [Some(Work(LIST, false, 0))], 0)
  {
    FirstQuery();
    RunOneMore(ONE_REPLICA, [] + [Query(0)], Touch(0, Court, None));
    assert Deadline(IN_COURT.fines[0], NO_POLICY) == None;
  }

  /** A fine sent to court after the query loses its evidence, although its tenant keeps court evidence without limit. */
  lemma CourtEvidenceDestroyed()
    ensures Initial(ONE_REPLICA)
    ensures var steps := [] + [Query(0)] + [Touch(0, Court, None)];
      && Run(ONE_REPLICA, steps).tables == IN_COURT && !DueNow(IN_COURT, 0)
      && "k" !in Run(ONE_REPLICA, steps + [Delete(0, true)]).tables.store
  {
    SentToCourt();
    RunOneMore(ONE_REPLICA, [] + [Query(0)] + [Touch(0, Court, None)], Delete(0, true));
  }
}
