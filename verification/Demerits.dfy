/** Demerit points and suspensions: the engine's transaction per fine, and the staff endpoints beside it. */
module Demerits {
  import opened Prelude

  const THIRTY_DAYS := 2_592_000

  datatype Licence = Licence(points: int, isSuspended: bool)

  datatype Entry = Entry(licence: nat, delta: int, at: int)

  /** Written by the engine when created_by is NULL, else by a member of staff. */
  datatype Suspension = Suspension(licence: nat, byEngine: bool, start: int, end: Option<int>, lifted: Option<int>)

  datatype Event =
    | Demerit(licence: nat, delta: int, newTotal: int)
    | Suspended(licence: nat, end: Option<int>)
    | Reinstated(licence: nat, suspension: nat)

  datatype Policy = Policy(threshold: int, window: int, months: int)

  /** What the lookup of a fine finds: its driver, and the points its tenant's country pack gives the offence. */
  datatype FineRow = FineRow(licence: Option<nat>, points: int)

  datatype Kind = DemeritKind | CourtKind | Medical | Administrative | OtherKind(text: string)

  datatype Outcome = Done | Skipped | MissingFields | Refused

  datatype Tables = Tables(licences: seq<Licence>, ledger: seq<Entry>, suspensions: seq<Suspension>, outbox: seq<Event>)

  /** SUM(delta) over the entries of one licence after `since`. */
  function Windowed(ledger: seq<Entry>, licence: nat, since: int): int {
    if ledger == [] then 0
    else
      var last := ledger[|ledger| - 1];
      Windowed(ledger[..|ledger| - 1], licence, since)
      + (if last.licence == licence && last.at > since then last.delta else 0)
  }

  predicate Unexpired(x: Suspension, now: int) {
    x.lifted.None? && (x.end.None? || x.end.value > now)
  }

  predicate Suspends(x: Suspension, licence: nat, now: int) {
    x.licence == licence && Unexpired(x, now)
  }

  /** lifted_at IS NULL and ends_at in the future or NULL, as lifting counts. */
  predicate AnySuspends(all: seq<Suspension>, licence: nat, now: int) {
    exists k :: 0 <= k < |all| && Suspends(all[k], licence, now)
  }

  /** As the engine counts: ends_at > now(), which a NULL end does not satisfy. */
  predicate Dated(x: Suspension, licence: nat, now: int) {
    Suspends(x, licence, now) && x.end.Some?
  }

  predicate AnyDated(all: seq<Suspension>, licence: nat, now: int) {
    exists k :: 0 <= k < |all| && Dated(all[k], licence, now)
  }

  predicate Applies(s: Tables, fine: Option<FineRow>) {
    fine.Some? && fine.value.licence.Some? && fine.value.points != 0 && fine.value.licence.value < |s.licences|
  }

  function Opened(licence: nat, now: int, months: int): Suspension {
    Suspension(licence, true, now, Some(now + months * THIRTY_DAYS), None)
  }

  /** `since` is the instant now() minus the policy's window. */
  function AfterFine(s: Tables, fine: Option<FineRow>, policy: Policy, now: int, since: int): Tables {
    if !Applies(s, fine) then s
    else
      var l, points := fine.value.licence.value, fine.value.points;
      var ledger := s.ledger + [Entry(l, points, now)];
      var total := Windowed(ledger, l, since);
      if total >= policy.threshold && !AnyDated(s.suspensions, l, now)
      then
        Tables(s.licences[l := Licence(total, true)], ledger, s.suspensions + [Opened(l, now, policy.months)],
               s.outbox + [Demerit(l, points, total), Suspended(l, Some(now + policy.months * THIRTY_DAYS))])
      else
        Tables(s.licences[l := Licence(total, s.licences[l].isSuspended)], ledger, s.suspensions,
               s.outbox + [Demerit(l, points, total)])
  }

  function AfterAdding(s: Tables, x: Suspension): Tables
    requires x.licence < |s.licences|
  {
    s.(licences := s.licences[x.licence := s.licences[x.licence].(isSuspended := true)],
       suspensions := s.suspensions + [x], outbox := s.outbox + [Suspended(x.licence, x.end)])
  }

  function Lifted(all: seq<Suspension>, licence: nat, sid: nat, now: int): seq<Suspension> {
    if sid < |all| && all[sid].licence == licence && all[sid].lifted.None?
    then all[sid := all[sid].(lifted := Some(now))] else all
  }

  function AfterLifting(s: Tables, licence: nat, sid: nat, now: int): Tables {
    var all := Lifted(s.suspensions, licence, sid, now);
    var licences := if licence < |s.licences| && !AnySuspends(all, licence, now)
                    then s.licences[licence := s.licences[licence].(isSuspended := false)] else s.licences;
    Tables(licences, s.ledger, all, s.outbox + [Reinstated(licence, sid)])
  }

  class Registry {
    var licences: seq<Licence>
    var ledger: seq<Entry>
    var suspensions: seq<Suspension>
    var outbox: seq<Event>

    ghost function Contents(): Tables
      reads this
    {
      Tables(licences, ledger, suspensions, outbox)
    }

    constructor (licences: seq<Licence>)
      ensures Contents() == Tables(licences, [], [], [])
    {
      this.licences, ledger, suspensions, outbox := licences, [], [], [];
    }

    /** `monthsBefore(now, n)` is calendar arithmetic. */
    method ApplyForFine(fine: Option<FineRow>, policy: Option<Policy>, now: int, monthsBefore: (int, int) -> int)
      returns (outcome: Outcome)
      modifies this
      ensures policy.None? || policy.value.threshold == 0 ==>
        Contents() == AfterFine(old(Contents()), fine, Policy(12, 24, 6), now, monthsBefore(now, 24))
      ensures policy.Some? && policy.value.threshold != 0 ==>
        Contents() == AfterFine(old(Contents()), fine, policy.value, now, monthsBefore(now, policy.value.window))
      ensures outcome == Skipped <==> fine.None? || fine.value.licence.None? || fine.value.points == 0
      ensures outcome == Done <==> Applies(old(Contents()), fine)
      ensures outcome != MissingFields
    {
      if fine.None? || fine.value.licence.None? || fine.value.points == 0 {
        return Skipped;
      }
      var l, points := fine.value.licence.value, fine.value.points;
      if l >= |licences| {
        return Refused;
      }
      ledger := ledger + [Entry(l, points, now)];
      var threshold, window, months := 0, 0, 0;
      if policy.Some? {
        threshold, window, months := policy.value.threshold, policy.value.window, policy.value.months;
      }
      if threshold == 0 {
        threshold, window, months := 12, 24, 6;
      }
      var newTotal := Windowed(ledger, l, monthsBefore(now, window));
      licences := licences[l := licences[l].(points := newTotal)];
      var suspended, start, end := false, 0, 0;
      if newTotal >= threshold {
        if !AnyDated(suspensions, l, now) {
          start, end := now, now + months * THIRTY_DAYS;
          suspensions := suspensions + [Suspension(l, true, start, Some(end), None)];
          licences := licences[l := licences[l].(isSuspended := true)];
          assert licences == old(licences)[l := Licence(newTotal, true)];
          suspended := true;
        }
      }
      outbox := outbox + [Demerit(l, points, newTotal)];
      if suspended {
        outbox := outbox + [Suspended(l, Some(end))];
        assert outbox == old(outbox) + [Demerit(l, points, newTotal), Suspended(l, Some(end))];
      }
      outcome := Done;
    }

    method AddSuspension(licence: nat, reason: string, kind: Kind, start: Option<int>, end: Option<int>, now: int)
      returns (outcome: Outcome)
      modifies this
      ensures outcome == MissingFields <==> reason == "" || kind == OtherKind("")
      ensures outcome == Done <==> reason != "" && !kind.OtherKind? && licence < |old(licences)|
      ensures outcome == Done ==> Contents() == AfterAdding(old(Contents()),
        Suspension(licence, false, if start.Some? then start.value else now, end, None))
      ensures outcome != Done ==> Contents() == old(Contents())
    {
      if reason == "" || kind == OtherKind("") {
        return MissingFields;
      }
      if kind.OtherKind? || licence >= |licences| {
        return Refused;
      }
      var from := now;
      if start.Some? {
        from := start.value;
      }
      suspensions := suspensions + [Suspension(licence, false, from, end, None)];
      licences := licences[licence := licences[licence].(isSuspended := true)];
      outbox := outbox + [Suspended(licence, end)];
      outcome := Done;
    }

    method LiftSuspension(licence: nat, sid: nat, now: int)
      modifies this
      ensures Contents() == AfterLifting(old(Contents()), licence, sid, now)
      ensures outbox == old(outbox) + [Reinstated(licence, sid)]
    {
      if sid < |suspensions| && suspensions[sid].licence == licence && suspensions[sid].lifted.None? {
        suspensions := suspensions[sid := suspensions[sid].(lifted := Some(now))];
      }
      if licence < |licences| && !AnySuspends(suspensions, licence, now) {
        licences := licences[licence := licences[licence].(isSuspended := false)];
      }
      outbox := outbox + [Reinstated(licence, sid)];
    }
  }

  // ─── Runs ────────────────────────────────────────────────────────────────────

  datatype State = State(tables: Tables, now: int)

  /** The tenant's policy and the calendar may give a different policy and cut-off for every fine. */
  datatype Step =
    | Fine(fine: Option<FineRow>, policy: Policy, since: int)
    | Add(licence: nat, start: Option<int>, end: Option<int>)
    | Lift(licence: nat, sid: nat)
    | Wait(seconds: nat)

  function Apply(s: State, step: Step): (t: State)
    ensures s.now <= t.now
  {
    match step
    case Fine(fine, policy, since) => s.(tables := AfterFine(s.tables, fine, policy, s.now, since))
    case Add(l, start, end) =>
      if l >= |s.tables.licences| then s
      else s.(tables := AfterAdding(s.tables, Suspension(l, false, if start.Some? then start.value else s.now, end, None)))
    case Lift(l, sid) => s.(tables := AfterLifting(s.tables, l, sid, s.now))
    case Wait(seconds) => s.(now := s.now + seconds)
  }

  function Run(s: State, steps: seq<Step>): State {
    if steps == [] then s else Apply(Run(s, steps[..|steps| - 1]), steps[|steps| - 1])
  }

  /** The suspension is the licence's and in force at instant `t`. */
  predicate InForce(x: Suspension, t: int) {
    x.start <= t && (x.end.Some? ==> t < x.end.value) && (x.lifted.Some? ==> t < x.lifted.value)
  }

  /** The earlier one is over, by its end or by being lifted, when the later one starts. */
  predicate OverBy(x: Suspension, t: int) {
    (x.end.Some? && x.end.value <= t) || (x.lifted.Some? && x.lifted.value <= t)
  }

  predicate Flagged(s: State, x: Suspension) {
    x.licence < |s.tables.licences| && (Unexpired(x, s.now) ==> s.tables.licences[x.licence].isSuspended)
  }

  predicate Dating(x: Suspension, now: int) {
    (x.lifted.Some? ==> x.lifted.value <= now) && (x.byEngine ==> x.start <= now && x.end.Some?)
  }

  predicate Apart(x: Suspension, y: Suspension) {
    x.byEngine && y.byEngine && x.licence == y.licence ==> OverBy(x, y.start)
  }

  function SuspensionsTold(outbox: seq<Event>): seq<(nat, Option<int>)> {
    if outbox == [] then []
    else
      var told, last := SuspensionsTold(outbox[..|outbox| - 1]), outbox[|outbox| - 1];
      if last.Suspended? then told + [(last.licence, last.end)] else told
  }

  function DemeritsTold(outbox: seq<Event>): seq<(nat, int)> {
    if outbox == [] then []
    else
      var told, last := DemeritsTold(outbox[..|outbox| - 1]), outbox[|outbox| - 1];
      if last.Demerit? then told + [(last.licence, last.delta)] else told
  }

  function SuspensionRows(all: seq<Suspension>): (rows: seq<(nat, Option<int>)>)
    ensures |rows| == |all|
  {
    if all == [] then []
    else SuspensionRows(all[..|all| - 1]) + [(all[|all| - 1].licence, all[|all| - 1].end)]
  }

  function LedgerRows(ledger: seq<Entry>): seq<(nat, int)> {
    if ledger == [] then []
    else LedgerRows(ledger[..|ledger| - 1]) + [(ledger[|ledger| - 1].licence, ledger[|ledger| - 1].delta)]
  }

  /** Every suspension and every ledger entry has its event, in order, and there are no others. */
  predicate Announced(s: Tables) {
    SuspensionsTold(s.outbox) == SuspensionRows(s.suspensions) && DemeritsTold(s.outbox) == LedgerRows(s.ledger)
  }

  predicate Rows(s: State) {
    forall k :: 0 <= k < |s.tables.suspensions| ==>
      Flagged(s, s.tables.suspensions[k]) && Dating(s.tables.suspensions[k], s.now)
  }

  predicate Spaced(all: seq<Suspension>) {
    forall i, j :: 0 <= i < j < |all| ==> Apart(all[i], all[j])
  }

  predicate Inv(s: State) {
    Rows(s) && Spaced(s.tables.suspensions) && Announced(s.tables)
  }

  lemma OneMoreTold(outbox: seq<Event>, e: Event)
    ensures SuspensionsTold(outbox + [e]) ==
      if e.Suspended? then SuspensionsTold(outbox) + [(e.licence, e.end)] else SuspensionsTold(outbox)
    ensures DemeritsTold(outbox + [e]) ==
      if e.Demerit? then DemeritsTold(outbox) + [(e.licence, e.delta)] else DemeritsTold(outbox)
  {
    assert (outbox + [e])[..|outbox|] == outbox;
  }

  /** Lifting changes neither the licence nor the end. */
  lemma {:induction false} SameRows(all: seq<Suspension>, k: nat, at: int)
    requires k < |all|
    ensures SuspensionRows(all[k := all[k].(lifted := Some(at))]) == SuspensionRows(all)
  {
    var n, after := |all| - 1, all[k := all[k].(lifted := Some(at))];
    if k < n {
      SameRows(all[..n], k, at);
      assert after[..n] == all[..n][k := all[k].(lifted := Some(at))];
    } else {
      assert after[..n] == all[..n];
    }
  }

  lemma FineTold(s: Tables, fine: Option<FineRow>, policy: Policy, now: int, since: int)
    requires Applies(s, fine)
    ensures var l, t := fine.value.licence.value, AfterFine(s, fine, policy, now, since);
      && DemeritsTold(t.outbox) == DemeritsTold(s.outbox) + [(l, fine.value.points)]
      && SuspensionsTold(t.outbox) ==
           if t.suspensions == s.suspensions then SuspensionsTold(s.outbox)
           else SuspensionsTold(s.outbox) + [(l, Some(now + policy.months * THIRTY_DAYS))]
  {
    var l, t := fine.value.licence.value, AfterFine(s, fine, policy, now, since);
    var demerit := Demerit(l, fine.value.points, t.licences[l].points);
    OneMoreTold(s.outbox, demerit);
    if |t.suspensions| == |s.suspensions| {
      assert t.outbox == s.outbox + [demerit];
    } else {
      var suspended := Suspended(l, Some(now + policy.months * THIRTY_DAYS));
      assert t.outbox == (s.outbox + [demerit]) + [suspended];
      OneMoreTold(s.outbox + [demerit], suspended);
    }
  }

  lemma FineAnnounces(s: State, step: Step)
    requires step.Fine? && Announced(s.tables)
    ensures Announced(Apply(s, step).tables)
  {
    var t := Apply(s, step).tables;
    if Applies(s.tables, step.fine) {
      FineTold(s.tables, step.fine, step.policy, s.now, step.since);
      assert t.ledger[..|s.tables.ledger|] == s.tables.ledger;
      if t.suspensions != s.tables.suspensions {
        assert t.suspensions[..|s.tables.suspensions|] == s.tables.suspensions;
      }
    }
  }

  lemma FineKeepsRows(s: State, step: Step)
    requires step.Fine? && Rows(s)
    ensures Rows(Apply(s, step))
  {
    var t := Apply(s, step);
    forall k | 0 <= k < |t.tables.suspensions|
      ensures Flagged(t, t.tables.suspensions[k]) && Dating(t.tables.suspensions[k], t.now)
    {
      if k < |s.tables.suspensions| {
        assert Flagged(s, s.tables.suspensions[k]) && Dating(s.tables.suspensions[k], s.now);
      }
    }
  }

  lemma FineKeepsSpaced(s: State, step: Step)
    requires step.Fine? && Rows(s) && Spaced(s.tables.suspensions)
    ensures Spaced(Apply(s, step).tables.suspensions)
  {
    var all, after := s.tables.suspensions, Apply(s, step).tables.suspensions;
    forall i, j | 0 <= i < j < |after| ensures Apart(after[i], after[j]) {
      if j == |all| {
        assert Dating(all[i], s.now);
        assert !Dated(all[i], after[j].licence, s.now);
      } else {
        assert Apart(all[i], all[j]);
      }
    }
  }

  lemma FineKeeps(s: State, step: Step)
    requires step.Fine? && Inv(s)
    ensures Inv(Apply(s, step))
  {
    FineAnnounces(s, step);
    FineKeepsRows(s, step);
    FineKeepsSpaced(s, step);
  }

  lemma AddKeeps(s: State, step: Step)
    requires step.Add? && Inv(s)
    ensures Inv(Apply(s, step))
  {
    var t := Apply(s, step);
    if step.licence < |s.tables.licences| {
      OneMoreTold(s.tables.outbox, Suspended(step.licence, step.end));
      assert t.tables.suspensions[..|s.tables.suspensions|] == s.tables.suspensions;
      forall k | 0 <= k < |t.tables.suspensions|
        ensures Flagged(t, t.tables.suspensions[k]) && Dating(t.tables.suspensions[k], t.now)
      {
        if k < |s.tables.suspensions| {
          assert Flagged(s, s.tables.suspensions[k]) && Dating(s.tables.suspensions[k], s.now);
        }
      }
    }
  }

  lemma LiftKeeps(s: State, step: Step)
    requires step.Lift? && Inv(s)
    ensures Inv(Apply(s, step))
  {
    var t := Apply(s, step);
    var all := s.tables.suspensions;
    OneMoreTold(s.tables.outbox, Reinstated(step.licence, step.sid));
    if step.sid < |all| { SameRows(all, step.sid, s.now); }
    forall k | 0 <= k < |all|
      ensures Flagged(t, t.tables.suspensions[k]) && Dating(t.tables.suspensions[k], t.now)
    {
      assert Flagged(s, all[k]) && Dating(all[k], s.now);
      assert !AnySuspends(t.tables.suspensions, step.licence, s.now) ==>
        !Suspends(t.tables.suspensions[k], step.licence, s.now);
    }
    forall i, j | 0 <= i < j < |all| ensures Apart(t.tables.suspensions[i], t.tables.suspensions[j]) {
      assert Apart(all[i], all[j]);
    }
  }

  lemma StepKeeps(s: State, step: Step)
    requires Inv(s)
    ensures Inv(Apply(s, step))
  {
    match step
    case Fine(_, _, _) => FineKeeps(s, step);
    case Add(_, _, _) => AddKeeps(s, step);
    case Lift(_, _) => LiftKeeps(s, step);
    case Wait(_) =>
      forall k | 0 <= k < |s.tables.suspensions|
        ensures Flagged(Apply(s, step), s.tables.suspensions[k])
             && Dating(s.tables.suspensions[k], Apply(s, step).now)
      {
        assert Flagged(s, s.tables.suspensions[k]) && Dating(s.tables.suspensions[k], s.now);
      }
  }

  predicate Blank(s: State) {
    s.tables.ledger == [] && s.tables.suspensions == [] && s.tables.outbox == []
  }

  lemma {:induction false} RunKeeps(s: State, steps: seq<Step>)
    requires Blank(s)
    ensures Inv(Run(s, steps))
  {
    if steps != [] {
      RunKeeps(s, steps[..|steps| - 1]);
      StepKeeps(Run(s, steps[..|steps| - 1]), steps[|steps| - 1]);
    }
  }

  /** On every run: no suspension still counts without the cached flag; at no instant are two suspensions opened by
      the engine in force for one licence; and the outbox tells every suspension and every demerit, in order. */
  lemma SuspensionSafety(s: State, steps: seq<Step>, i: nat, j: nat, t: int)
    requires Blank(s)
    ensures var u := Run(s, steps);
      && (i < |u.tables.suspensions| && Unexpired(u.tables.suspensions[i], u.now) ==>
            var x := u.tables.suspensions[i];
            x.licence < |u.tables.licences| && u.tables.licences[x.licence].isSuspended)
      && (i < j < |u.tables.suspensions| && u.tables.suspensions[i].licence == u.tables.suspensions[j].licence
            && u.tables.suspensions[i].byEngine && u.tables.suspensions[j].byEngine ==>
            !(InForce(u.tables.suspensions[i], t) && InForce(u.tables.suspensions[j], t)))
      && Announced(u.tables)
  {
    RunKeeps(s, steps);
    var u := Run(s, steps);
    if i < |u.tables.suspensions| { assert Flagged(u, u.tables.suspensions[i]); }
    if i < j < |u.tables.suspensions| { assert Apart(u.tables.suspensions[i], u.tables.suspensions[j]); }
  }

  /** All points a licence ever got. */
  function Lifetime(ledger: seq<Entry>, licence: nat): int {
    if ledger == [] then 0
    else
      var last := ledger[|ledger| - 1];
      Lifetime(ledger[..|ledger| - 1], licence) + (if last.licence == licence then last.delta else 0)
  }

  /** An entry, wherever it stands in the ledger, counts for its own licence only, and in a window only if it is younger. */
  lemma {:induction false} EntryCounts(a: seq<Entry>, e: Entry, b: seq<Entry>, licence: nat, since: int)
    ensures Windowed(a + [e] + b, licence, since)
         == Windowed(a + b, licence, since) + (if e.licence == licence && e.at > since then e.delta else 0)
    ensures Lifetime(a + [e] + b, licence) == Lifetime(a + b, licence) + (if e.licence == licence then e.delta else 0)
  {
    if b == [] {
      assert a + [e] + b == a + [e] && a + b == a;
      LastEntry(a, e, licence, since);
    } else {
      var n := |b| - 1;
      EntryCounts(a, e, b[..n], licence, since);
      assert a + [e] + b == (a + [e] + b[..n]) + [b[n]] && a + b == (a + b[..n]) + [b[n]];
      LastEntry(a + [e] + b[..n], b[n], licence, since);
      LastEntry(a + b[..n], b[n], licence, since);
    }
  }

  lemma LastEntry(a: seq<Entry>, e: Entry, licence: nat, since: int)
    ensures Windowed(a + [e], licence, since)
         == Windowed(a, licence, since) + (if e.licence == licence && e.at > since then e.delta else 0)
    ensures Lifetime(a + [e], licence) == Lifetime(a, licence) + (if e.licence == licence then e.delta else 0)
  {
    assert (a + [e])[..|a|] == a;
  }

  /** A ledger without older entries of the licence: the window holds all its points. */
  lemma {:induction false} AllInWindow(ledger: seq<Entry>, licence: nat, since: int)
    requires forall k :: 0 <= k < |ledger| && ledger[k].licence == licence ==> ledger[k].at > since
    ensures Windowed(ledger, licence, since) == Lifetime(ledger, licence)
  {
    if ledger != [] { AllInWindow(ledger[..|ledger| - 1], licence, since); }
  }

  /** A ledger without younger entries of the licence: the window holds nothing. */
  lemma {:induction false} NoneInWindow(ledger: seq<Entry>, licence: nat, since: int)
    requires forall k :: 0 <= k < |ledger| && ledger[k].licence == licence ==> ledger[k].at <= since
    ensures Windowed(ledger, licence, since) == 0
  {
    if ledger != [] { NoneInWindow(ledger[..|ledger| - 1], licence, since); }
  }

  lemma FineSuspends(u: State, fine: Option<FineRow>, policy: Policy, since: int)
    requires Rows(u) && Applies(u.tables, fine)
    requires Windowed(u.tables.ledger + [Entry(fine.value.licence.value, fine.value.points, u.now)],
                      fine.value.licence.value, since) >= policy.threshold
    ensures var l, t := fine.value.licence.value, AfterFine(u.tables, fine, policy, u.now, since);
      && t.licences[l].isSuspended
      && (AnySuspends(t.suspensions, l, u.now) <==> AnySuspends(u.tables.suspensions, l, u.now) || policy.months > 0)
  {
    var l, t, all := fine.value.licence.value, AfterFine(u.tables, fine, policy, u.now, since), u.tables.suspensions;
    if AnyDated(all, l, u.now) {
      var k :| 0 <= k < |all| && Dated(all[k], l, u.now);
      assert Flagged(u, all[k]) && Suspends(all[k], l, u.now);
    } else {
      assert t.suspensions == all + [Opened(l, u.now, policy.months)];
      OneMoreSuspends(all, Opened(l, u.now, policy.months), l, u.now);
    }
  }

  lemma OneMoreSuspends(all: seq<Suspension>, x: Suspension, licence: nat, now: int)
    ensures AnySuspends(all + [x], licence, now) <==> AnySuspends(all, licence, now) || Suspends(x, licence, now)
  {
    if AnySuspends(all, licence, now) {
      var k :| 0 <= k < |all| && Suspends(all[k], licence, now);
      assert (all + [x])[k] == all[k];
    }
    if Suspends(x, licence, now) { assert (all + [x])[|all|] == x; }
  }

  lemma OwnPoints(u: State, fine: Option<FineRow>, policy: Policy, since: int)
    requires Applies(u.tables, fine)
    ensures var l, t := fine.value.licence.value, AfterFine(u.tables, fine, policy, u.now, since);
      && t.ledger == u.tables.ledger + [Entry(l, fine.value.points, u.now)]
      && t.licences[l].points == Windowed(t.ledger, l, since)
      && t.licences[l].points == Windowed(u.tables.ledger, l, since) + (if u.now > since then fine.value.points else 0)
  {
    var l := fine.value.licence.value;
    EntryCounts(u.tables.ledger, Entry(l, fine.value.points, u.now), [], l, since);
    assert u.tables.ledger + [Entry(l, fine.value.points, u.now)] + [] == u.tables.ledger + [Entry(l, fine.value.points, u.now)];
    assert u.tables.ledger + [] == u.tables.ledger;
  }

  /** A demerit leaves every other licence as it was, its row and its points over any window. */
  lemma OthersUntouched(u: State, fine: Option<FineRow>, policy: Policy, since: int, m: nat, cutoff: int)
    requires Applies(u.tables, fine) && m < |u.tables.licences| && m != fine.value.licence.value
    ensures var t := AfterFine(u.tables, fine, policy, u.now, since);
      && m < |t.licences| && t.licences[m] == u.tables.licences[m]
      && Windowed(t.ledger, m, cutoff) == Windowed(u.tables.ledger, m, cutoff)
  {
    var e := Entry(fine.value.licence.value, fine.value.points, u.now);
    EntryCounts(u.tables.ledger, e, [], m, cutoff);
    assert u.tables.ledger + [e] + [] == u.tables.ledger + [e] && u.tables.ledger + [] == u.tables.ledger;
  }

  /** The engine opens a suspension exactly at the threshold and without a dated one that still counts; it tells the demerit
      with the new total, and then the suspension. */
  lemma OpensExactly(u: State, fine: Option<FineRow>, policy: Policy, since: int)
    requires Applies(u.tables, fine)
    ensures var l, t := fine.value.licence.value, AfterFine(u.tables, fine, policy, u.now, since);
      t.suspensions ==
        if t.licences[l].points >= policy.threshold
           && forall x :: x in u.tables.suspensions && x.licence == l && x.lifted.None? && x.end.Some? ==> x.end.value <= u.now
        then u.tables.suspensions + [Suspension(l, true, u.now, Some(u.now + policy.months * 2_592_000), None)]
        else u.tables.suspensions
    ensures var l, t := fine.value.licence.value, AfterFine(u.tables, fine, policy, u.now, since);
      var demerit := Demerit(l, fine.value.points, t.licences[l].points);
      t.outbox ==
        if t.suspensions == u.tables.suspensions then u.tables.outbox + [demerit]
        else u.tables.outbox + [demerit, Suspended(l, Some(u.now + policy.months * 2_592_000))]
  {
    var l, all := fine.value.licence.value, u.tables.suspensions;
    if AnyDated(all, l, u.now) {
      var k :| 0 <= k < |all| && Dated(all[k], l, u.now);
      assert all[k] in all && all[k].licence == l && all[k].lifted.None? && all[k].end.Some? && all[k].end.value > u.now;
    } else {
      assert forall k :: 0 <= k < |all| ==> !Dated(all[k], l, u.now);
    }
  }

  /** Right after a demerit the cached points are the licence's own points of the window, the new ones included, and no
      other licence is touched. At or over the threshold the flag is up, and some suspension counts exactly when one counted
      before or the policy suspends for a positive time. */
  lemma AfterDemerit(s: State, steps: seq<Step>, fine: Option<FineRow>, policy: Policy, since: int)
    requires Blank(s) && Applies(Run(s, steps).tables, fine)
    ensures var l, u := fine.value.licence.value, Run(s, steps);
      var t := Apply(u, Fine(fine, policy, since)).tables;
      && l < |t.licences|
      && t.ledger == u.tables.ledger + [Entry(l, fine.value.points, u.now)]
      && t.licences[l].points == Windowed(t.ledger, l, since)
      && t.licences[l].points == Windowed(u.tables.ledger, l, since) + (if u.now > since then fine.value.points else 0)
      && (t.licences[l].points >= policy.threshold ==>
            t.licences[l].isSuspended
            && (AnySuspends(t.suspensions, l, u.now) <==> AnySuspends(u.tables.suspensions, l, u.now) || policy.months > 0))
      && (t.licences[l].points < policy.threshold ==>
            t.suspensions == u.tables.suspensions && t.licences[l].isSuspended == u.tables.licences[l].isSuspended)
    ensures var u := Run(s, steps);
      var t := Apply(u, Fine(fine, policy, since)).tables;
      forall m, cutoff :: 0 <= m < |u.tables.licences| && m != fine.value.licence.value ==>
        m < |t.licences| && t.licences[m] == u.tables.licences[m]
        && Windowed(t.ledger, m, cutoff) == Windowed(u.tables.ledger, m, cutoff)
  {
    var l, u := fine.value.licence.value, Run(s, steps);
    var t := Apply(u, Fine(fine, policy, since)).tables;
    RunKeeps(s, steps);
    OwnPoints(u, fine, policy, since);
    forall m, cutoff | 0 <= m < |u.tables.licences| && m != l
      ensures m < |t.licences| && t.licences[m] == u.tables.licences[m]
      ensures Windowed(t.ledger, m, cutoff) == Windowed(u.tables.ledger, m, cutoff)
    {
      OthersUntouched(u, fine, policy, since, m, cutoff);
    }
    if t.licences[l].points >= policy.threshold { FineSuspends(u, fine, policy, since); }
  }

  /** Lifting makes the cached flag exact: it is up afterwards if and only if a suspension of the licence still counts. */
  lemma LiftMakesFlagExact(s: State, steps: seq<Step>, licence: nat, sid: nat)
    requires Blank(s) && licence < |Run(s, steps).tables.licences|
    ensures var u := Run(s, steps);
      var t := Apply(u, Lift(licence, sid)).tables;
      |t.licences| == |u.tables.licences|
      && (t.licences[licence].isSuspended <==> AnySuspends(t.suspensions, licence, u.now))
  {
    var u := Run(s, steps);
    RunKeeps(s, steps);
    StepKeeps(u, Lift(licence, sid));
    var v := Apply(u, Lift(licence, sid));
    if AnySuspends(v.tables.suspensions, licence, u.now) {
      var k :| 0 <= k < |v.tables.suspensions| && Suspends(v.tables.suspensions[k], licence, u.now);
      assert Flagged(v, v.tables.suspensions[k]);
    }
  }

  lemma {:induction false} LicencesStay(s: State, steps: seq<Step>)
    ensures |Run(s, steps).tables.licences| == |s.tables.licences|
  {
    if steps != [] { LicencesStay(s, steps[..|steps| - 1]); }
  }

  /** The engine has no replay guard: after any run, also one that applied the fine before, a fine changes the tables if
      and only if it has a driver and points, and then its points are added again. */
  lemma ReplayCountsAgain(s: State, steps: seq<Step>, fine: Option<FineRow>, policy: Policy, since: int)
    ensures var u := Run(s, steps);
      var t := Apply(u, Fine(fine, policy, since));
      && (Applies(u.tables, fine) <==> Applies(s.tables, fine))
      && (t.tables == u.tables <==>
            fine.None? || fine.value.licence.None? || fine.value.points == 0 || fine.value.licence.value >= |s.tables.licences|)
      && (Applies(s.tables, fine) ==>
            var l := fine.value.licence.value;
            Lifetime(t.tables.ledger, l) == Lifetime(u.tables.ledger, l) + fine.value.points)
  {
    LicencesStay(s, steps);
    var u := Run(s, steps);
    if Applies(u.tables, fine) {
      var l := fine.value.licence.value;
      var e := Entry(l, fine.value.points, u.now);
      var t := Apply(u, Fine(fine, policy, since));
      assert t.tables.ledger == u.tables.ledger + [e] && (u.tables.ledger + [e])[..|u.tables.ledger|] == u.tables.ledger;
    }
  }

  /** What the staff endpoints do: adding writes one suspension, from the given start or now, and raises its licence's flag;
      lifting lowers the flag unless an unlifted suspension of the licence is still running or has no end; points, the
      ledger and other licences stay. */
  lemma StaffChange(s: State, step: Step, m: nat)
    requires !step.Fine? && m < |s.tables.licences|
    ensures var t := Apply(s, step).tables;
      && |t.licences| == |s.tables.licences| && t.ledger == s.tables.ledger
      && t.licences[m].points == s.tables.licences[m].points
      && t.licences[m].isSuspended ==
           if step.Add? && step.licence == m then true
           else if step.Lift? && step.licence == m
                   && forall x :: x in t.suspensions && x.licence == m && x.lifted.None? ==> x.end.Some? && x.end.value <= s.now
           then false
           else s.tables.licences[m].isSuspended
    ensures step.Add? && step.licence < |s.tables.licences| ==>
      Apply(s, step).tables.suspensions == s.tables.suspensions +
        [Suspension(step.licence, false, if step.start.None? then s.now else step.start.value, step.end, None)]
  {
    var all := Apply(s, step).tables.suspensions;
    if AnySuspends(all, m, s.now) {
      var k :| 0 <= k < |all| && Suspends(all[k], m, s.now);
      assert all[k] in all;
    } else {
      forall x | x in all && x.licence == m && x.lifted.None? ensures x.end.Some? && x.end.value <= s.now {
        var k :| 0 <= k < |all| && all[k] == x;
        assert !Suspends(all[k], m, s.now);
      }
    }
  }

  /** Step `j` lifts suspension `k`, for the first time. */
  predicate LiftsFirst(s: State, steps: seq<Step>, j: nat, k: nat) {
    && j < |steps|
    && var all := Run(s, steps[..j]).tables.suspensions;
       k < |all| && all[k].lifted.None? && steps[j] == Lift(all[k].licence, k)
  }

  lemma SuspensionStays(s: State, step: Step, k: nat)
    requires k < |s.tables.suspensions|
    ensures var x, all := s.tables.suspensions[k], Apply(s, step).tables.suspensions;
      && k < |all| && all[k] == x.(lifted := all[k].lifted)
      && all[k].lifted == (if x.lifted.None? && step == Lift(x.licence, k) then Some(s.now) else x.lifted)
  {
  }

  lemma NewUnlifted(s: State, step: Step, k: nat)
    requires |s.tables.suspensions| <= k < |Apply(s, step).tables.suspensions|
    ensures Apply(s, step).tables.suspensions[k].lifted.None?
  {
  }

  lemma {:induction false} WasLifted(s: State, steps: seq<Step>, k: nat) returns (j: nat)
    requires Blank(s) && k < |Run(s, steps).tables.suspensions| && Run(s, steps).tables.suspensions[k].lifted.Some?
    ensures LiftsFirst(s, steps, j, k)
  {
    var n := |steps| - 1;
    var u := Run(s, steps[..n]);
    if k >= |u.tables.suspensions| {
      NewUnlifted(u, steps[n], k);
    } else {
      SuspensionStays(u, steps[n], k);
      if u.tables.suspensions[k].lifted.Some? {
        j := WasLifted(s, steps[..n], k);
        assert steps[..n][..j] == steps[..j];
      } else {
        j := n;
      }
    }
  }

  lemma {:induction false} StaysLifted(s: State, steps: seq<Step>, j: nat, k: nat)
    requires LiftsFirst(s, steps, j, k)
    ensures k < |Run(s, steps).tables.suspensions|
    ensures Run(s, steps).tables.suspensions[k].lifted == Some(Run(s, steps[..j]).now)
  {
    var n := |steps| - 1;
    if j < n {
      assert steps[..n][..j] == steps[..j];
      StaysLifted(s, steps[..n], j, k);
    }
    SuspensionStays(Run(s, steps[..n]), steps[n], k);
  }

  /** On every run from blank tables a suspension is lifted exactly if a step lifted it by its own number and licence, and
      then at the time of the first such step. */
  lemma LiftedExactly(s: State, steps: seq<Step>, k: nat)
    requires Blank(s) && k < |Run(s, steps).tables.suspensions|
    ensures var x := Run(s, steps).tables.suspensions[k];
      && (x.lifted.Some? <==> exists j: nat :: LiftsFirst(s, steps, j, k))
      && (forall j: nat :: LiftsFirst(s, steps, j, k) ==> x.lifted == Some(Run(s, steps[..j]).now))
  {
    forall j: nat | LiftsFirst(s, steps, j, k)
      ensures Run(s, steps).tables.suspensions[k].lifted == Some(Run(s, steps[..j]).now)
    {
      StaysLifted(s, steps, j, k);
    }
    if Run(s, steps).tables.suspensions[k].lifted.Some? { var j := WasLifted(s, steps, k); }
  }

  /** Two suspensions of the licence count at once. */
  predicate Doubled(all: seq<Suspension>, licence: nat, now: int) {
    exists i, j :: 0 <= i < j < |all| && Suspends(all[i], licence, now) && Suspends(all[j], licence, now)
  }

  /** The engine overlooks an open-ended suspension: where one suspension counted before, two count after a demerit if
      and only if that one has no end and the points reach the threshold. */
  lemma BesideOpenEnded(s: Tables, fine: Option<FineRow>, policy: Policy, now: int, since: int, k: nat)
    requires Applies(s, fine) && policy.months > 0 && k < |s.suspensions|
    requires forall i :: 0 <= i < |s.suspensions| ==> (Suspends(s.suspensions[i], fine.value.licence.value, now) <==> i == k)
    ensures var l, t := fine.value.licence.value, AfterFine(s, fine, policy, now, since);
      Doubled(t.suspensions, l, now) <==> s.suspensions[k].end.None? && Windowed(t.ledger, l, since) >= policy.threshold
  {
    var l, t := fine.value.licence.value, AfterFine(s, fine, policy, now, since);
    var n := |s.suspensions|;
    assert AnyDated(s.suspensions, l, now) <==> Dated(s.suspensions[k], l, now);
    if s.suspensions[k].end.None? && Windowed(t.ledger, l, since) >= policy.threshold {
      assert Suspends(t.suspensions[k], l, now) && Suspends(t.suspensions[n], l, now);
    }
  }

  const ONE_DRIVER := State(Tables([Licence(0, false)], [], [], []), 0)
  const OPEN_ENDED := Suspension(0, false, 0, None, None)
  const AFTER_OPEN := State(Tables([Licence(0, true)], [], [OPEN_ENDED], [Suspended(0, None)]), 0)

  lemma OneOpenEnded()
    ensures Blank(ONE_DRIVER) && Run(ONE_DRIVER, [Add(0, None, None)]) == AFTER_OPEN
  {
    assert [Add(0, None, None)][..0] == [] && Run(ONE_DRIVER, []) == ONE_DRIVER;
  }

  /** Staff suspend a driver without end, then a fine of twelve points suspends him again beside that. */
  lemma DoublySuspended()
    ensures Blank(ONE_DRIVER)
    ensures var t := Run(ONE_DRIVER, [Add(0, None, None)] + [Fine(Some(FineRow(Some(0), 12)), Policy(12, 24, 6), -1)]);
      Doubled(t.tables.suspensions, 0, t.now)
  {
    var fine, policy := Some(FineRow(Some(0), 12)), Policy(12, 24, 6);
    var steps := [Add(0, None, None)] + [Fine(fine, policy, -1)];
    OneOpenEnded();
    assert steps[..1] == [Add(0, None, None)];
    var e := Entry(0, 12, 0);
    assert [e][..0] == [] && Windowed([e], 0, -1) == 12 && [] + [e] == [e];
    assert forall i :: 0 <= i < |AFTER_OPEN.tables.suspensions| ==>
      (Suspends(AFTER_OPEN.tables.suspensions[i], 0, 0) <==> i == 0);
    BesideOpenEnded(AFTER_OPEN.tables, fine, policy, 0, -1, 0);
  }
}
