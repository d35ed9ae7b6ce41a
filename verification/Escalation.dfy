/** The escalation engine: unpaid fines climb their tenant's ladder of stages. */
module Escalation {
  import opened Prelude
  import opened FineRecords

  const DAY := 86_400

  /** The text of the action column; Unknown is any other text. */
  datatype Action = Warning | Penalty | Flag | Seize | ToCourt | Unknown(text: string)

  datatype Rung = Rung(stage: nat, afterDays: int, action: Action)

  type Ladder = seq<Rung>

  function StatusFor(action: Action): Option<Status> {
    match action
    case Warning => Some(Warned)
    case Penalty => Some(Warned)
    case Flag => Some(Overdue)
    case Seize => Some(Seized)
    case ToCourt => Some(Court)
    case Unknown(_) => None
  }

  predicate Known(r: Rung) {
    StatusFor(r.action).Some?
  }

  predicate Reached(r: Rung, dueAt: int, now: int) {
    r.afterDays * DAY <= now - dueAt
  }

  /** ORDER BY stage DESC LIMIT 1 over the rungs whose time has come. */
  function Target(ladder: Ladder, dueAt: int, now: int): (t: Option<Rung>)
    ensures t.Some? ==> t.value in ladder && Reached(t.value, dueAt, now)
    ensures forall r :: r in ladder && Reached(r, dueAt, now) ==> t.Some? && r.stage <= t.value.stage
  {
    if ladder == [] then None
    else
      var best := Target(ladder[1..], dueAt, now);
      if Reached(ladder[0], dueAt, now) && (best.None? || ladder[0].stage > best.value.stage)
      then Some(ladder[0]) else best
  }

  datatype Candidate = Candidate(fine: nat, fromStage: nat, toStage: nat, action: Action)

  datatype Event = Event(fine: nat, fromStage: nat, toStage: nat, action: Action)

  type Ladders = map<string, Ladder>

  function LadderOf(ladders: Ladders, tenant: string): Ladder {
    if tenant in ladders then ladders[tenant] else []
  }

  predicate IsCandidate(ladders: Ladders, f: Fine, now: int) {
    var t := Target(LadderOf(ladders, f.tenant), f.dueAt, now);
    Escalates(f.status) && t.Some? && f.stage < t.value.stage
  }

  /** The candidate query, from fine `i` on. */
  function Candidates(ladders: Ladders, fines: seq<Fine>, now: int, i: nat): (batch: seq<Candidate>)
    ensures forall k :: 0 <= k < |batch| ==> i <= batch[k].fine < |fines| && batch[k].fromStage < batch[k].toStage
    decreases |fines| - i
  {
    if i >= |fines| then []
    else
      var rest := Candidates(ladders, fines, now, i + 1);
      if !IsCandidate(ladders, fines[i], now) then rest
      else
        var t := Target(LadderOf(ladders, fines[i].tenant), fines[i].dueAt, now).value;
        [Candidate(i, fines[i].stage, t.stage, t.action)] + rest
  }

  function Climb(f: Fine, toStage: nat, action: Action): (g: Fine)
    ensures g.stage == toStage && g.tenant == f.tenant && g.dueAt == f.dueAt
  {
    match StatusFor(action)
    case None => f.(stage := toStage)
    case Some(st) => f.(stage := toStage, status := st)
  }

  datatype Tables = Tables(fines: seq<Fine>, events: seq<Event>)

  /** Re-read the stage under lock; only the stage is re-read. */
  function Advance(s: Tables, c: Candidate): Tables
    requires c.fine < |s.fines|
  {
    if s.fines[c.fine].stage >= c.toStage then s
    else Tables(s.fines[c.fine := Climb(s.fines[c.fine], c.toStage, c.action)],
                s.events + [Event(c.fine, c.fromStage, c.toStage, c.action)])
  }

  function AdvanceAll(s: Tables, batch: seq<Candidate>): (t: Tables)
    requires forall k :: 0 <= k < |batch| ==> batch[k].fine < |s.fines|
    ensures |t.fines| == |s.fines|
    decreases |batch|
  {
    if batch == [] then s else AdvanceAll(Advance(s, batch[0]), batch[1..])
  }

  function AfterSweep(ladders: Ladders, s: Tables, now: int): Tables {
    AdvanceAll(s, Candidates(ladders, s.fines, now, 0))
  }

  class Job {
    const ladders: Ladders
    var fines: seq<Fine>
    var events: seq<Event>

    constructor (ladders: Ladders, fines: seq<Fine>)
      ensures this.ladders == ladders && this.fines == fines && events == []
    {
      this.ladders, this.fines, this.events := ladders, fines, [];
    }

    method AdvanceOne(c: Candidate)
      requires c.fine < |fines|
      modifies this
      ensures Tables(fines, events) == Advance(Tables(old(fines), old(events)), c)
    {
      var realStage := fines[c.fine].stage;
      if realStage >= c.toStage {
        return;
      }
      var newStatus := StatusFor(c.action);
      if newStatus.None? {
        fines := fines[c.fine := fines[c.fine].(stage := c.toStage)];
      } else {
        fines := fines[c.fine := fines[c.fine].(stage := c.toStage, status := newStatus.value)];
      }
      events := events + [Event(c.fine, c.fromStage, c.toStage, c.action)];
    }

    method RunOnce(now: int)
      modifies this
      ensures Tables(fines, events) == AfterSweep(ladders, Tables(old(fines), old(events)), now)
    {
      var batch := Candidates(ladders, fines, now, 0);
      ghost var after := AdvanceAll(Tables(fines, events), batch);
      var k := 0;
      while k < |batch|
        invariant k <= |batch| && |fines| == |old(fines)|
        invariant AdvanceAll(Tables(fines, events), batch[k..]) == after
      {
        AdvanceOne(batch[k]);
        assert batch[k..][1..] == batch[k + 1..];
        k := k + 1;
      }
    }
  }

  // ─── One undisturbed sweep ───────────────────────────────────────────────────

  /** What a sweep does to one fine. */
  function Swept(ladder: Ladder, f: Fine, now: int): Fine {
    var t := Target(ladder, f.dueAt, now);
    if Escalates(f.status) && t.Some? && f.stage < t.value.stage
    then Climb(f, t.value.stage, t.value.action) else f
  }

  /** The stage changes of one fine, as the outbox tells them. */
  function Told(events: seq<Event>, fine: nat): seq<(nat, nat)> {
    if events == [] then []
    else
      var n := |events| - 1;
      Told(events[..n], fine) + (if events[n].fine == fine then [(events[n].fromStage, events[n].toStage)] else [])
  }

  function Extended(path: seq<(nat, nat)>, f: Fine, g: Fine): seq<(nat, nat)> {
    if f.stage == g.stage then path else path + [(f.stage, g.stage)]
  }

  lemma AdvanceTold(s: Tables, c: Candidate, j: nat)
    requires c.fine < |s.fines|
    ensures Told(Advance(s, c).events, j)
         == if c.fine == j && s.fines[j].stage < c.toStage
            then Told(s.events, j) + [(c.fromStage, c.toStage)] else Told(s.events, j)
  {
    assert (s.events + [Event(c.fine, c.fromStage, c.toStage, c.action)])[..|s.events|] == s.events;
  }

  /** Working off the candidates from `i` on starts by sweeping fine `i` itself. */
  lemma CandidateStep(ladders: Ladders, snapshot: seq<Fine>, s: Tables, now: int, i: nat, j: nat) returns (s': Tables)
    requires i < |snapshot| == |s.fines| && s.fines[i] == snapshot[i]
    ensures var g := Swept(LadderOf(ladders, snapshot[i].tenant), snapshot[i], now);
      && s'.fines == s.fines[i := g]
      && Told(s'.events, j) == (if j == i then Extended(Told(s.events, j), snapshot[i], g) else Told(s.events, j))
      && AdvanceAll(s, Candidates(ladders, snapshot, now, i)) == AdvanceAll(s', Candidates(ladders, snapshot, now, i + 1))
  {
    if IsCandidate(ladders, snapshot[i], now) {
      var batch := Candidates(ladders, snapshot, now, i);
      assert batch[1..] == Candidates(ladders, snapshot, now, i + 1);
      AdvanceTold(s, batch[0], j);
      s' := Advance(s, batch[0]);
    } else {
      s' := s;
    }
  }

  /** Candidates for other fines leave fine `j` alone. */
  lemma {:induction false} OthersLeaveAlone(s: Tables, batch: seq<Candidate>, j: nat)
    requires j < |s.fines| && forall k :: 0 <= k < |batch| ==> batch[k].fine < |s.fines| && batch[k].fine != j
    ensures AdvanceAll(s, batch).fines[j] == s.fines[j] && Told(AdvanceAll(s, batch).events, j) == Told(s.events, j)
    decreases |batch|
  {
    if batch != [] {
      AdvanceTold(s, batch[0], j);
      OthersLeaveAlone(Advance(s, batch[0]), batch[1..], j);
    }
  }

  /** The fines are still the snapshot's from `i` on. */
  predicate Agrees(snapshot: seq<Fine>, fines: seq<Fine>, i: nat) {
    |snapshot| == |fines| && forall k :: i <= k < |snapshot| ==> fines[k] == snapshot[k]
  }

  lemma StillAgrees(snapshot: seq<Fine>, fines: seq<Fine>, i: nat, g: Fine)
    requires Agrees(snapshot, fines, i) && i < |fines|
    ensures Agrees(snapshot, fines[i := g], i + 1)
  {
  }

  lemma PointwiseHere(ladders: Ladders, snapshot: seq<Fine>, s: Tables, now: int, j: nat, t: Tables)
    requires j < |snapshot| == |s.fines| && s.fines[j] == snapshot[j]
    requires t == AdvanceAll(s, Candidates(ladders, snapshot, now, j))
    ensures var g := Swept(LadderOf(ladders, snapshot[j].tenant), snapshot[j], now);
      j < |t.fines| && t.fines[j] == g && Told(t.events, j) == Extended(Told(s.events, j), snapshot[j], g)
  {
    var s' := CandidateStep(ladders, snapshot, s, now, j, j);
    OthersLeaveAlone(s', Candidates(ladders, snapshot, now, j + 1), j);
  }

  /** Working off an earlier fine first leaves fine `j` and its events for later. */
  lemma PointwiseLater(ladders: Ladders, snapshot: seq<Fine>, s: Tables, now: int, i: nat, j: nat, t: Tables)
    returns (s': Tables)
    requires i < j < |snapshot| && Agrees(snapshot, s.fines, i)
    requires t == AdvanceAll(s, Candidates(ladders, snapshot, now, i))
    ensures Agrees(snapshot, s'.fines, i + 1) && Told(s'.events, j) == Told(s.events, j)
    ensures t == AdvanceAll(s', Candidates(ladders, snapshot, now, i + 1))
  {
    s' := CandidateStep(ladders, snapshot, s, now, i, j);
    StillAgrees(snapshot, s.fines, i, s'.fines[i]);
  }

  /** Working off the candidates from fine `i` on comes to fine `j` with that fine and its events as they were. */
  lemma {:induction false} ReachFine(ladders: Ladders, snapshot: seq<Fine>, s: Tables, now: int, i: nat, j: nat, t: Tables)
    returns (u: Tables)
    requires i <= j < |snapshot| && Agrees(snapshot, s.fines, i)
    requires t == AdvanceAll(s, Candidates(ladders, snapshot, now, i))
    ensures Agrees(snapshot, u.fines, j) && Told(u.events, j) == Told(s.events, j)
    ensures t == AdvanceAll(u, Candidates(ladders, snapshot, now, j))
    decreases j - i
  {
    if i == j {
      u := s;
    } else {
      var s' := PointwiseLater(ladders, snapshot, s, now, i, j, t);
      u := ReachFine(ladders, snapshot, s', now, i + 1, j, t);
    }
  }

  /** A sweep without interference treats every fine on its own and tells exactly the stage changes it made. */
  lemma SweepIsPointwise(ladders: Ladders, s: Tables, now: int, i: nat)
    requires i < |s.fines|
    ensures var t, g := AfterSweep(ladders, s, now), Swept(LadderOf(ladders, s.fines[i].tenant), s.fines[i], now);
      t.fines[i] == g && Told(t.events, i) == Extended(Told(s.events, i), s.fines[i], g)
  {
    var u := ReachFine(ladders, s.fines, s, now, 0, i, AfterSweep(ladders, s, now));
    PointwiseHere(ladders, s.fines, u, now, i, AfterSweep(ladders, s, now));
  }

  /** The status after reaching a rung. */
  predicate Leads(action: Action, before: Status, after: Status) {
    && (action == Warning || action == Penalty ==> after == Warned)
    && (action == Flag ==> after == Overdue)
    && (action == Seize ==> after == Seized)
    && (action == ToCourt ==> after == Court)
    && (action.Unknown? ==> after == before)
  }

  lemma ClimbLeads(f: Fine, stage: nat, action: Action)
    ensures var g := Climb(f, stage, action); Leads(action, f.status, g.status) && g == f.(stage := stage, status := g.status)
  {
  }

  /** What an undisturbed sweep does to a fine: nothing to a paid, cancelled or disputed one; any other is afterwards at
      least at the stage of every rung of its tenant whose days are over, and if it moved, then up to such a rung and with
      that rung's status. Only stage and status change. */
  lemma SweepMeans(ladders: Ladders, s: Tables, now: int, i: nat)
    requires i < |s.fines|
    ensures var f, t := s.fines[i], AfterSweep(ladders, s, now);
      && |t.fines| == |s.fines|
      && var g := t.fines[i];
      && g == f.(stage := g.stage, status := g.status)
      && (f.status == Paid || f.status == Cancelled || f.status == Disputed ==> g == f)
      && (f.status != Paid && f.status != Cancelled && f.status != Disputed ==>
            forall r :: f.tenant in ladders && r in ladders[f.tenant] && f.dueAt + 86_400 * r.afterDays <= now ==>
              r.stage <= g.stage)
      && (g != f ==>
            f.tenant in ladders
            && exists r :: r in ladders[f.tenant] && f.dueAt + 86_400 * r.afterDays <= now
                 && f.stage < r.stage == g.stage && Leads(r.action, f.status, g.status))
  {
    SweepIsPointwise(ladders, s, now, i);
    var f, ladder := s.fines[i], LadderOf(ladders, s.fines[i].tenant);
    var g, target := Swept(ladder, f, now), Target(ladder, f.dueAt, now);
    assert forall r :: r in ladder && f.dueAt + 86_400 * r.afterDays <= now ==> Reached(r, f.dueAt, now);
    if g != f {
      ClimbLeads(f, target.value.stage, target.value.action);
      assert target.value in ladder && Reached(target.value, f.dueAt, now);
    }
  }

  /** Each stage change starts where the previous one ended, and climbs. */
  predicate Telescopes(from: nat, path: seq<(nat, nat)>, to: nat) {
    if path == [] then from == to
    else
      var n := |path| - 1;
      path[n].0 < path[n].1 == to && Telescopes(from, path[..n], path[n].0)
  }

  lemma TelescopesOn(from: nat, path: seq<(nat, nat)>, f: Fine, g: Fine)
    requires Telescopes(from, path, f.stage) && f.stage <= g.stage
    ensures Telescopes(from, Extended(path, f, g), g.stage)
  {
    if f.stage != g.stage {
      assert (path + [(f.stage, g.stage)])[..|path|] == path;
    }
  }

  /** A sweep, or a handler setting a status. */
  datatype Serial = Sweep(now: int) | SetStatus(fine: nat, status: Status)

  function Serially(ladders: Ladders, s: Tables, steps: seq<Serial>): (t: Tables)
    ensures |t.fines| == |s.fines|
  {
    if steps == [] then s
    else
      var t, step := Serially(ladders, s, steps[..|steps| - 1]), steps[|steps| - 1];
      match step
      case Sweep(now) => AfterSweep(ladders, t, now)
      case SetStatus(i, st) => if i < |t.fines| then t.(fines := t.fines[i := t.fines[i].(status := st)]) else t
  }

  /** For sequential sweeps, interleaved with handlers, the events of a fine telescope from its first to its current stage. */
  lemma {:induction false} EventsTelescope(ladders: Ladders, fines: seq<Fine>, steps: seq<Serial>, i: nat)
    requires i < |fines|
    ensures var t := Serially(ladders, Tables(fines, []), steps);
      Telescopes(fines[i].stage, Told(t.events, i), t.fines[i].stage)
  {
    if steps != [] {
      var t, step := Serially(ladders, Tables(fines, []), steps[..|steps| - 1]), steps[|steps| - 1];
      EventsTelescope(ladders, fines, steps[..|steps| - 1], i);
      if step.Sweep? {
        SweepIsPointwise(ladders, t, step.now, i);
        var g, path := Swept(LadderOf(ladders, t.fines[i].tenant), t.fines[i], step.now), Told(t.events, i);
        assert Telescopes(fines[i].stage, path, t.fines[i].stage);
        TelescopesOn(fines[i].stage, path, t.fines[i], g);
      }
    }
  }

  // ─── Schedule independence ───────────────────────────────────────────────────

  /** PRIMARY KEY (tenant_id, stage), CHECK (stage BETWEEN 1 AND 5). */
  predicate WellFormed(ladder: Ladder) {
    && (forall r :: r in ladder ==> 1 <= r.stage)
    && (forall a, b :: a in ladder && b in ladder && a.stage == b.stage ==> a == b)
  }

  function SweptAll(ladder: Ladder, f: Fine, times: seq<int>): Fine {
    if times == [] then f else Swept(ladder, SweptAll(ladder, f, times[..|times| - 1]), times[|times| - 1])
  }

  predicate NonDecreasing(times: seq<int>) {
    forall i, j :: 0 <= i <= j < |times| ==> times[i] <= times[j]
  }

  /** The rung is the target at the moment it is reached. */
  predicate Tops(ladder: Ladder, a: Rung) {
    a in ladder && forall r :: r in ladder && r.afterDays <= a.afterDays ==> r.stage <= a.stage
  }

  /** No rung with an unknown action comes after one with a known action. */
  predicate Consistent(ladder: Ladder) {
    forall a, b :: a in ladder && b in ladder && Tops(ladder, a) && Tops(ladder, b) && a.stage < b.stage && Known(a)
      ==> Known(b)
  }

  lemma TargetTops(ladder: Ladder, dueAt: int, now: int)
    requires Target(ladder, dueAt, now).Some?
    ensures Tops(ladder, Target(ladder, dueAt, now).value)
  {
    var t := Target(ladder, dueAt, now).value;
    forall r | r in ladder && r.afterDays <= t.afterDays ensures r.stage <= t.stage {
      assert Reached(r, dueAt, now);
    }
  }

  /** A later sweep of an open fine finds the same target or a higher one, also after an earlier sweep. */
  lemma LaterTarget(ladder: Ladder, f: Fine, t1: int, t2: int)
    requires Target(ladder, f.dueAt, t1).Some? && t1 <= t2
    ensures Target(ladder, f.dueAt, t2).Some?
    ensures Target(ladder, f.dueAt, t1).value.stage <= Target(ladder, f.dueAt, t2).value.stage
  {
    assert Reached(Target(ladder, f.dueAt, t1).value, f.dueAt, t2);
  }

  /** An earlier sweep leaves no trace after a later one. */
  lemma EarlierSweepAbsorbed(ladder: Ladder, f: Fine, t1: int, t2: int)
    requires WellFormed(ladder) && Consistent(ladder) && Escalates(f.status) && t1 <= t2
    ensures Swept(ladder, Swept(ladder, f, t1), t2) == Swept(ladder, f, t2)
  {
    var a := Target(ladder, f.dueAt, t1);
    if a.Some? && f.stage < a.value.stage {
      LaterTarget(ladder, f, t1, t2);
      var b := Target(ladder, f.dueAt, t2).value;
      var g := Swept(ladder, f, t1);
      assert g == Climb(f, a.value.stage, a.value.action) && Escalates(g.status);
      if b.stage > a.value.stage {
        TargetTops(ladder, f.dueAt, t1);
        TargetTops(ladder, f.dueAt, t2);
        assert Known(a.value) ==> Known(b);
        assert Swept(ladder, g, t2) == Climb(g, b.stage, b.action);
        assert Swept(ladder, f, t2) == Climb(f, b.stage, b.action);
      } else {
        assert b == a.value;
      }
    }
  }

  lemma {:induction false} SchedulesAgree(ladder: Ladder, f: Fine, times: seq<int>)
    requires WellFormed(ladder) && Consistent(ladder) && Escalates(f.status)
    requires times != [] && NonDecreasing(times)
    ensures SweptAll(ladder, f, times) == Swept(ladder, f, times[|times| - 1])
  {
    var n := |times| - 1;
    var front := times[..n];
    if front != [] {
      SchedulesAgree(ladder, f, front);
      EarlierSweepAbsorbed(ladder, f, times[n - 1], times[n]);
    }
  }

  lemma TwoSweeps(ladder: Ladder, f: Fine, t1: int, t2: int)
    ensures SweptAll(ladder, f, [t1, t2]) == Swept(ladder, Swept(ladder, f, t1), t2)
  {
    assert [t1, t2][..1] == [t1] && [t1][..0] == [];
    assert SweptAll(ladder, f, [t1]) == Swept(ladder, SweptAll(ladder, f, [t1][..0]), t1);
  }

  lemma TargetIsTop(ladder: Ladder, a: Rung)
    requires WellFormed(ladder) && Tops(ladder, a)
    ensures Target(ladder, 0, a.afterDays * DAY) == Some(a)
  {
    assert Reached(a, 0, a.afterDays * DAY);
  }

  /** The fine whose stage and status depend on whether the sweep at rung `a` happened. */
  lemma SchedulesDisagree(ladder: Ladder, f: Fine, a: Rung, b: Rung)
    requires WellFormed(ladder)
    requires Tops(ladder, a) && Tops(ladder, b) && a.stage < b.stage && Known(a) && !Known(b)
    requires f.status == Issued && f.stage == 0 && f.dueAt == 0
    ensures var times := [a.afterDays * DAY, b.afterDays * DAY];
      NonDecreasing(times) && SweptAll(ladder, f, times) != Swept(ladder, f, times[1])
  {
    var t1, t2 := a.afterDays * DAY, b.afterDays * DAY;
    assert a.afterDays < b.afterDays;
    TargetIsTop(ladder, a);
    TargetIsTop(ladder, b);
    TwoSweeps(ladder, f, t1, t2);
  }

  lemma SomeScheduleDisagrees(ladder: Ladder) returns (f: Fine, times: seq<int>)
    requires WellFormed(ladder) && !Consistent(ladder)
    ensures Escalates(f.status) && times != [] && NonDecreasing(times)
    ensures SweptAll(ladder, f, times) != Swept(ladder, f, times[|times| - 1])
  {
    var a, b :| a in ladder && b in ladder && Tops(ladder, a) && Tops(ladder, b) && a.stage < b.stage
      && Known(a) && !Known(b);
    f := Fine("", None, "", 0, Issued, 0, 0, 0, None);
    times := [a.afterDays * DAY, b.afterDays * DAY];
    SchedulesDisagree(ladder, f, a, b);
  }

  /** Sweeping more often changes nothing, for every open fine and schedule, exactly on consistent ladders. */
  lemma ScheduleIndependence(ladder: Ladder)
    requires WellFormed(ladder)
    ensures Consistent(ladder) <==>
      forall f: Fine, times: seq<int> :: Escalates(f.status) && times != [] && NonDecreasing(times) ==>
        SweptAll(ladder, f, times) == Swept(ladder, f, times[|times| - 1])
  {
    if Consistent(ladder) {
      forall f: Fine, times: seq<int> | Escalates(f.status) && times != [] && NonDecreasing(times)
        ensures SweptAll(ladder, f, times) == Swept(ladder, f, times[|times| - 1])
      {
        SchedulesAgree(ladder, f, times);
      }
    } else {
      var f, times := SomeScheduleDisagrees(ladder);
    }
  }

  // ─── Replicas with stale candidates ──────────────────────────────────────────

  /** Each replica holds the candidates it has not advanced yet. */
  datatype State = State(tables: Tables, pending: map<nat, seq<Candidate>>)

  datatype Step = Query(r: nat, now: int) | AdvanceNext(r: nat) | Touch(fine: nat, status: Status)

  predicate Allowed(s: State, step: Step) {
    match step
    case Query(r, _) => r !in s.pending || s.pending[r] == []
    case AdvanceNext(r) => r in s.pending && s.pending[r] != [] && s.pending[r][0].fine < |s.tables.fines|
    case Touch(i, _) => i < |s.tables.fines|
  }

  function Apply(ladders: Ladders, s: State, step: Step): State
    requires Allowed(s, step)
  {
    match step
    case Query(r, now) => s.(pending := s.pending[r := Candidates(ladders, s.tables.fines, now, 0)])
    case AdvanceNext(r) =>
      State(Advance(s.tables, s.pending[r][0]), s.pending[r := s.pending[r][1..]])
    case Touch(i, st) =>
      s.(tables := s.tables.(fines := s.tables.fines[i := s.tables.fines[i].(status := st)]))
  }

  predicate Legal(ladders: Ladders, s: State, steps: seq<Step>)
    decreases |steps|
  {
    steps == [] || (Allowed(s, steps[0]) && Legal(ladders, Apply(ladders, s, steps[0]), steps[1..]))
  }

  function Run(ladders: Ladders, s: State, steps: seq<Step>): State
    requires Legal(ladders, s, steps)
    decreases |steps|
  {
    if steps == [] then s else Run(ladders, Apply(ladders, s, steps[0]), steps[1..])
  }

  /** The target stages told for one fine strictly climb to its current stage. */
  predicate Climbs(path: seq<(nat, nat)>, stage: nat) {
    && (forall j, k :: 0 <= j < k < |path| ==> path[j].1 < path[k].1)
    && (path != [] ==> path[|path| - 1].1 == stage)
  }

  predicate OnLadder(ladder: Ladder, stage: nat, action: Action) {
    exists r :: r in ladder && r.stage == stage && r.action == action
  }

  /** The candidate's target stage and action are a rung of the fine's ladder. */
  predicate FromLadder(ladders: Ladders, fines: seq<Fine>, c: Candidate) {
    c.fine < |fines| && OnLadder(LadderOf(ladders, fines[c.fine].tenant), c.toStage, c.action)
  }

  lemma {:induction false} CandidatesFromLadder(
    ladders: Ladders, fines: seq<Fine>, now: int, i: nat, batch: seq<Candidate>)
    requires batch == Candidates(ladders, fines, now, i)
    ensures forall k :: 0 <= k < |batch| ==> FromLadder(ladders, fines, batch[k])
    decreases |fines| - i
  {
    if i < |fines| {
      var rest := Candidates(ladders, fines, now, i + 1);
      CandidatesFromLadder(ladders, fines, now, i + 1, rest);
      if IsCandidate(ladders, fines[i], now) {
        var t := Target(LadderOf(ladders, fines[i].tenant), fines[i].dueAt, now).value;
        assert OnLadder(LadderOf(ladders, fines[i].tenant), t.stage, t.action);
      }
    }
  }

  predicate Inv(ladders: Ladders, s: State) {
    && (forall i :: 0 <= i < |s.tables.fines| ==> Climbs(Told(s.tables.events, i), s.tables.fines[i].stage))
    && (forall r, k :: r in s.pending && 0 <= k < |s.pending[r]| ==> FromLadder(ladders, s.tables.fines, s.pending[r][k]))
  }

  lemma ClimbsOn(path: seq<(nat, nat)>, stage: nat, from: nat, to: nat)
    requires Climbs(path, stage) && stage < to
    ensures Climbs(path + [(from, to)], to)
  {
    forall j | 0 <= j < |path| ensures path[j].1 < to {
      assert path[j].1 <= path[|path| - 1].1;
    }
  }

  lemma AdvanceStage(s: Tables, c: Candidate, i: nat)
    requires c.fine < |s.fines| && i < |s.fines|
    ensures Advance(s, c).fines[i].stage
         == if c.fine == i && s.fines[i].stage < c.toStage then c.toStage else s.fines[i].stage
  {
  }

  lemma AdvanceClimbs(s: Tables, c: Candidate, i: nat)
    requires c.fine < |s.fines| && i < |s.fines| && Climbs(Told(s.events, i), s.fines[i].stage)
    ensures Climbs(Told(Advance(s, c).events, i), Advance(s, c).fines[i].stage)
  {
    AdvanceTold(s, c, i);
    AdvanceStage(s, c, i);
    if c.fine == i && s.fines[i].stage < c.toStage {
      ClimbsOn(Told(s.events, i), s.fines[i].stage, c.fromStage, c.toStage);
    } else {
      assert Told(Advance(s, c).events, i) == Told(s.events, i) && Advance(s, c).fines[i].stage == s.fines[i].stage;
    }
  }

  /** A step keeps tenants, and raises the stage of a fine exactly when it tells a new event about it. */
  lemma StepClimbs(ladders: Ladders, s: State, step: Step, i: nat)
    requires Inv(ladders, s) && Allowed(s, step) && i < |s.tables.fines|
    ensures var s' := Apply(ladders, s, step);
      && |s'.tables.fines| == |s.tables.fines| && s'.tables.fines[i].tenant == s.tables.fines[i].tenant
      && s.tables.fines[i].stage <= s'.tables.fines[i].stage
      && Climbs(Told(s'.tables.events, i), s'.tables.fines[i].stage)
  {
    var s' := Apply(ladders, s, step);
    assert Climbs(Told(s.tables.events, i), s.tables.fines[i].stage);
    if step.AdvanceNext? {
      AdvanceClimbs(s.tables, s.pending[step.r][0], i);
    }
  }

  lemma PendingFromLadder(ladders: Ladders, s: State, step: Step, r: nat, k: nat)
    requires Inv(ladders, s) && Allowed(s, step)
    requires var s' := Apply(ladders, s, step); r in s'.pending && k < |s'.pending[r]|
    ensures FromLadder(ladders, s.tables.fines, Apply(ladders, s, step).pending[r][k])
  {
    var s' := Apply(ladders, s, step);
    if step.AdvanceNext? && r == step.r {
      assert FromLadder(ladders, s.tables.fines, s.pending[r][k + 1]);
    } else if step.Query? && r == step.r {
      CandidatesFromLadder(ladders, s.tables.fines, step.now, 0, s'.pending[r]);
    } else {
      assert FromLadder(ladders, s.tables.fines, s.pending[r][k]);
    }
  }

  lemma StepKeeps(ladders: Ladders, s: State, step: Step)
    requires Inv(ladders, s) && Allowed(s, step)
    ensures Inv(ladders, Apply(ladders, s, step))
  {
    var s' := Apply(ladders, s, step);
    assert |s'.tables.fines| == |s.tables.fines|;
    forall i | 0 <= i < |s.tables.fines|
      ensures s'.tables.fines[i].tenant == s.tables.fines[i].tenant
      ensures Climbs(Told(s'.tables.events, i), s'.tables.fines[i].stage)
    {
      StepClimbs(ladders, s, step, i);
    }
    forall r, k | r in s'.pending && 0 <= k < |s'.pending[r]|
      ensures FromLadder(ladders, s'.tables.fines, s'.pending[r][k])
    {
      PendingFromLadder(ladders, s, step, r, k);
    }
  }

  /** Whatever the interleaving, stages never fall and no two events of a fine share a target stage. */
  lemma {:induction false} ReplicasClimb(ladders: Ladders, s: State, steps: seq<Step>, i: nat)
    requires Inv(ladders, s) && Legal(ladders, s, steps) && i < |s.tables.fines|
    ensures var t := Run(ladders, s, steps);
      && Inv(ladders, t) && i < |t.tables.fines|
      && s.tables.fines[i].stage <= t.tables.fines[i].stage
      && Climbs(Told(t.tables.events, i), t.tables.fines[i].stage)
    decreases |steps|
  {
    if steps != [] {
      StepKeeps(ladders, s, steps[0]);
      StepClimbs(ladders, s, steps[0], i);
      ReplicasClimb(ladders, Apply(ladders, s, steps[0]), steps[1..], i);
    }
  }

  /** An advance that takes effect leaves the status of the reached stage's own action, even from a stale candidate, and
      tells that action with the stage the candidate was read at. */
  lemma AdvanceSetsStatus(ladders: Ladders, s: State, r: nat, rung: Rung)
    requires Inv(ladders, s) && Allowed(s, AdvanceNext(r)) && Apply(ladders, s, AdvanceNext(r)).tables != s.tables
    requires var i := s.pending[r][0].fine;
      var ladder := LadderOf(ladders, s.tables.fines[i].tenant);
      WellFormed(ladder) && rung in ladder
      && rung.stage == Apply(ladders, s, AdvanceNext(r)).tables.fines[i].stage
    ensures var i, t := s.pending[r][0].fine, Apply(ladders, s, AdvanceNext(r)).tables;
      && Leads(rung.action, s.tables.fines[i].status, t.fines[i].status)
      && t.events == s.tables.events + [Event(i, s.pending[r][0].fromStage, rung.stage, rung.action)]
  {
    var c := s.pending[r][0];
    assert FromLadder(ladders, s.tables.fines, c);
    ClimbLeads(s.tables.fines[c.fine], c.toStage, c.action);
  }

  // ─── Which statuses survive ──────────────────────────────────────────────────

  /** An advance re-reads only the stage, so it overwrites a status, also a terminal one, exactly if the stage was not
      reached meanwhile and the action is known. */
  lemma AdvanceOverwrites(s: Tables, c: Candidate)
    requires c.fine < |s.fines| && !Escalates(s.fines[c.fine].status)
    ensures Advance(s, c).fines[c.fine].status != s.fines[c.fine].status
       <==> s.fines[c.fine].stage < c.toStage && StatusFor(c.action).Some?
  {
  }

  predicate Overwrites(fines: seq<Fine>, c: Candidate, i: nat) {
    c.fine == i && i < |fines| && fines[i].stage < c.toStage && StatusFor(c.action).Some?
  }

  /** Some replica holds a candidate that would overwrite the status of fine `i`. */
  ghost predicate Threatened(s: State, i: nat) {
    exists r: nat, k: nat :: r in s.pending && k < |s.pending[r]| && Overwrites(s.tables.fines, s.pending[r][k], i)
  }

  /** Each replica's list names existing fines, each once. */
  ghost predicate ListsOk(s: State) {
    && (forall r, k :: r in s.pending && 0 <= k < |s.pending[r]| ==> s.pending[r][k].fine < |s.tables.fines|)
    && (forall r, j, k :: r in s.pending && 0 <= j < k < |s.pending[r]| ==> s.pending[r][j].fine != s.pending[r][k].fine)
  }

  lemma {:induction false} CandidatesDiffer(ladders: Ladders, fines: seq<Fine>, now: int, i: nat, batch: seq<Candidate>)
    requires batch == Candidates(ladders, fines, now, i)
    ensures forall j, k :: 0 <= j < k < |batch| ==> batch[j].fine < batch[k].fine
    ensures forall k :: 0 <= k < |batch| ==> i <= batch[k].fine < |fines| && Escalates(fines[batch[k].fine].status)
    decreases |fines| - i
  {
    if i < |fines| { CandidatesDiffer(ladders, fines, now, i + 1, Candidates(ladders, fines, now, i + 1)); }
  }

  lemma ListsStep(ladders: Ladders, s: State, step: Step)
    requires ListsOk(s) && Allowed(s, step)
    ensures ListsOk(Apply(ladders, s, step))
  {
    if step.Query? {
      CandidatesDiffer(ladders, s.tables.fines, step.now, 0, Candidates(ladders, s.tables.fines, step.now, 0));
    } else if step.AdvanceNext? {
      var batch := s.pending[step.r];
      assert forall k :: 0 <= k < |batch| - 1 ==> batch[1..][k] == batch[k + 1];
    }
  }

  predicate Leaves(steps: seq<Step>, i: nat) {
    forall k :: 0 <= k < |steps| ==> !(steps[k].Touch? && steps[k].fine == i)
  }

  /** A terminal fine that nobody threatens is neither changed nor threatened by the next step. */
  lemma SafeStep(ladders: Ladders, s: State, step: Step, i: nat)
    requires Allowed(s, step) && i < |s.tables.fines| && !Escalates(s.tables.fines[i].status) && !Threatened(s, i)
    requires !(step.Touch? && step.fine == i)
    ensures var s' := Apply(ladders, s, step);
      i < |s'.tables.fines| && s'.tables.fines[i].status == s.tables.fines[i].status && !Threatened(s', i)
  {
    var s' := Apply(ladders, s, step);
    if step.AdvanceNext? { assert !Overwrites(s.tables.fines, s.pending[step.r][0], i); }
    forall r: nat, k: nat | r in s'.pending && k < |s'.pending[r]| ensures !Overwrites(s'.tables.fines, s'.pending[r][k], i) {
      if step.AdvanceNext? && step.r == r {
        assert !Overwrites(s.tables.fines, s.pending[r][k + 1], i);
      } else if step.Query? && step.r == r {
        CandidatesDiffer(ladders, s.tables.fines, step.now, 0, s'.pending[r]);
      } else {
        assert !Overwrites(s.tables.fines, s.pending[r][k], i);
      }
    }
  }

  lemma {:induction false} SafeRun(ladders: Ladders, s: State, steps: seq<Step>, i: nat)
    requires Legal(ladders, s, steps) && Leaves(steps, i)
    requires i < |s.tables.fines| && !Escalates(s.tables.fines[i].status) && !Threatened(s, i)
    ensures var t := Run(ladders, s, steps); i < |t.tables.fines| && t.tables.fines[i].status == s.tables.fines[i].status
    decreases |steps|
  {
    if steps != [] {
      SafeStep(ladders, s, steps[0], i);
      SafeRun(ladders, Apply(ladders, s, steps[0]), steps[1..], i);
    }
  }

  /** Replica `r` advances its list up to the candidate that overwrites fine `i`. */
  lemma {:induction false} ThreatCarriedOut(ladders: Ladders, s: State, r: nat, k: nat, i: nat) returns (steps: seq<Step>)
    requires ListsOk(s) && r in s.pending && k < |s.pending[r]| && Overwrites(s.tables.fines, s.pending[r][k], i)
    requires !Escalates(s.tables.fines[i].status)
    ensures Legal(ladders, s, steps) && Leaves(steps, i)
    ensures var t := Run(ladders, s, steps); i < |t.tables.fines| && t.tables.fines[i].status != s.tables.fines[i].status
    decreases k
  {
    var step := AdvanceNext(r);
    var u := Apply(ladders, s, step);
    if k == 0 {
      AdvanceOverwrites(s.tables, s.pending[r][0]);
      steps := [step];
      assert [step][1..] == [] && Legal(ladders, u, []) && Run(ladders, u, []) == u;
    } else {
      assert s.pending[r][0].fine != i && u.pending[r][k - 1] == s.pending[r][k];
      ListsStep(ladders, s, step);
      var rest := ThreatCarriedOut(ladders, u, r, k - 1, i);
      steps := [step] + rest;
      assert steps[1..] == rest;
    }
  }

  lemma {:induction false} ListsRun(ladders: Ladders, s: State, steps: seq<Step>)
    requires ListsOk(s) && Legal(ladders, s, steps)
    ensures ListsOk(Run(ladders, s, steps))
    decreases |steps|
  {
    if steps != [] {
      ListsStep(ladders, s, steps[0]);
      ListsRun(ladders, Apply(ladders, s, steps[0]), steps[1..]);
    }
  }

  /** No step before the next handler on fine `i` changes its status. */
  ghost predicate Survives(ladders: Ladders, s: State, i: nat)
    requires i < |s.tables.fines|
  {
    forall steps :: Legal(ladders, s, steps) && Leaves(steps, i) ==>
      i < |Run(ladders, s, steps).tables.fines|
      && Run(ladders, s, steps).tables.fines[i].status == s.tables.fines[i].status
  }

  /** On every reachable state: a paid, cancelled or disputed fine keeps that status, whatever the replicas do, until the
      next handler on it, if and only if no replica holds a candidate for a higher stage of it with a known action. */
  lemma TerminalSurvives(ladders: Ladders, start: State, before: seq<Step>, i: nat)
    requires start.pending == map[] && Legal(ladders, start, before)
    requires var s := Run(ladders, start, before); i < |s.tables.fines| && !Escalates(s.tables.fines[i].status)
    ensures var s := Run(ladders, start, before); Survives(ladders, s, i) <==> !Threatened(s, i)
  {
    var s := Run(ladders, start, before);
    ListsRun(ladders, start, before);
    if Threatened(s, i) {
      var r: nat, k: nat :| r in s.pending && k < |s.pending[r]| && Overwrites(s.tables.fines, s.pending[r][k], i);
      var steps := ThreatCarriedOut(ladders, s, r, k, i);
    } else {
      forall steps | Legal(ladders, s, steps) && Leaves(steps, i)
        ensures i < |Run(ladders, s, steps).tables.fines|
        ensures Run(ladders, s, steps).tables.fines[i].status == s.tables.fines[i].status
      {
        SafeRun(ladders, s, steps, i);
      }
    }
  }

  /** Only the stage is re-read: a payment that lands between the query and the advance is overwritten. */
  lemma StaleAdvanceReopensPaidFine(ladders: Ladders, f: Fine)
    requires f.status == Issued && f.stage == 0 && f.dueAt == 0 && LadderOf(ladders, f.tenant) == [Rung(1, 7, Warning)]
    ensures var s := State(Tables([f], []), map[]);
      var steps := [Query(0, 7 * DAY), Touch(0, Paid), AdvanceNext(0)];
      Legal(ladders, s, steps) && Run(ladders, s, steps).tables.fines == [f.(stage := 1, status := Warned)]
  {
    var s := State(Tables([f], []), map[]);
    var steps := [Query(0, 7 * DAY), Touch(0, Paid), AdvanceNext(0)];
    var ladder := LadderOf(ladders, f.tenant);
    assert Reached(ladder[0], 0, 7 * DAY) && ladder[0] in ladder;
    assert Candidates(ladders, [f], 7 * DAY, 1) == [];
    var s1 := Apply(ladders, s, steps[0]);
    assert s1.pending[0] == [Candidate(0, 0, 1, Warning)];
    var s2 := Apply(ladders, s1, steps[1]);
    var s3 := Apply(ladders, s2, steps[2]);
    assert steps[1..] == [steps[1], steps[2]] && steps[1..][1..] == [steps[2]] && [steps[2]][1..] == [];
    assert Legal(ladders, s3, []) && Run(ladders, s3, []) == s3;
    assert Legal(ladders, s2, [steps[2]]) && Run(ladders, s2, [steps[2]]) == s3;
    assert Legal(ladders, s1, steps[1..]) && Run(ladders, s1, steps[1..]) == s3;
  }
}
