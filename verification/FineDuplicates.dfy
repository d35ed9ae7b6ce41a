/** The duplicate gate: what it promises, and exactly when two uncancelled duplicates appear after all. */
module FineDuplicates {
  import opened Prelude
  import opened FineRecords
  import opened Fines
  import Escalation

  /** The later fine `g` repeats `f`: one tenant, vehicle and offence, within the offence's window. */
  predicate Repeats(rules: Rules, f: Fine, g: Fine) {
    && f.vehicle.Some? && f.tenant == g.tenant && f.vehicle == g.vehicle && f.offence == g.offence
    && (g.tenant, g.offence) in rules.offences
    && g.issuedAt - f.issuedAt < rules.offences[(g.tenant, g.offence)].window
  }

  /** Two fines, neither cancelled, the later repeating the earlier. */
  predicate Duplicates(rules: Rules, fines: seq<Fine>, i: nat, j: nat) {
    i < j < |fines| && Repeats(rules, fines[i], fines[j]) && fines[i].status != Cancelled && fines[j].status != Cancelled
  }

  predicate NoDuplicates(rules: Rules, fines: seq<Fine>) {
    forall i, j :: 0 <= i < j < |fines| ==> !Duplicates(rules, fines, i, j)
  }

  /** The step takes fine `i` out of 'cancelled': a verdict other than upheld, a payment, an effective webhook, or the
      advance of a stale candidate. */
  predicate Revives(s: State, step: Step, i: nat) {
    && i < |s.fines| && s.fines[i].status == Cancelled
    && (match step
        case Resolve(f, d, v) => f == i && Resolvable(s, f, d) && v != Upheld
        case Pay(f, _, succeeded) => f == i && succeeded
        case Webhook(_, row) => Effective(s, row) && s.payments[row.value].fine == i
        case Advance(c) => c.fine == i && s.fines[i].stage < c.toStage && Escalation.StatusFor(c.action).Some?
        case _ => false)
  }

  lemma RevivesMeans(rules: Rules, s: State, step: Step, i: nat)
    requires i < |s.fines|
    ensures var s' := Apply(rules, s, step);
      && i < |s'.fines|
      && (s.fines[i].status == Cancelled && s'.fines[i].status != Cancelled <==> Revives(s, step, i))
  {
  }

  lemma RevivesOne(rules: Rules, s: State, step: Step, i: nat, j: nat)
    requires Revives(s, step, i) && j < |s.fines| && j != i
    ensures j < |Apply(rules, s, step).fines| && Apply(rules, s, step).fines[j] == s.fines[j]
  {
  }

  /** The revived fine meets an uncancelled fine that it repeats or that repeats it. */
  predicate Meets(rules: Rules, fines: seq<Fine>, i: nat, j: nat) {
    && i < |fines| && j < |fines| && i != j && fines[j].status != Cancelled
    && Repeats(rules, fines[if i < j then i else j], fines[if i < j then j else i])
  }

  lemma SameRepeats(rules: Rules, s: State, step: Step, i: nat, j: nat)
    requires i < |s.fines| && j < |s.fines|
    ensures var s' := Apply(rules, s, step);
      |s.fines| <= |s'.fines| && Repeats(rules, s'.fines[i], s'.fines[j]) == Repeats(rules, s.fines[i], s.fines[j])
  {
    FinesKeepIdentity(rules, s, step, i);
    FinesKeepIdentity(rules, s, step, j);
  }

  /** Two uncancelled duplicates after a step: the step revived one of them. */
  lemma DuplicateRevived(rules: Rules, s: State, step: Step, i: nat, j: nat)
    requires NoDuplicates(rules, s.fines) && Duplicates(rules, Apply(rules, s, step).fines, i, j)
    ensures (Revives(s, step, i) && Meets(rules, s.fines, i, j)) || (Revives(s, step, j) && Meets(rules, s.fines, j, i))
  {
    if j < |s.fines| {
      SameRepeats(rules, s, step, i, j);
      RevivesMeans(rules, s, step, i);
      RevivesMeans(rules, s, step, j);
      assert !Duplicates(rules, s.fines, i, j);
      if Revives(s, step, i) { RevivesOne(rules, s, step, i, j); }
    } else {
      IssueMeetsNone(rules, s, step, i);
    }
  }

  lemma IssueMeetsNone(rules: Rules, s: State, step: Step, i: nat)
    requires i < |s.fines| < |Apply(rules, s, step).fines|
    ensures !Duplicates(rules, Apply(rules, s, step).fines, i, |s.fines|)
  {
    var t := step.t;
    assert !BlocksIssue(s.fines[i], t, rules.offences[(t.tenant, t.offence)].window, s.now);
  }

  /** The gate works at issue time. From a state without duplicates, a step makes one if and only if it takes a cancelled
      fine out of 'cancelled' beside an uncancelled fine for the same vehicle and offence within the window. */
  lemma DuplicatesAppear(rules: Rules, s: State, step: Step)
    requires NoDuplicates(rules, s.fines)
    ensures !NoDuplicates(rules, Apply(rules, s, step).fines) <==>
      exists i: nat, j: nat :: Revives(s, step, i) && Meets(rules, s.fines, i, j)
  {
    var s' := Apply(rules, s, step);
    if !NoDuplicates(rules, s'.fines) {
      var i: nat, j: nat :| i < j < |s'.fines| && Duplicates(rules, s'.fines, i, j);
      DuplicateRevived(rules, s, step, i, j);
    }
    if i: nat, j: nat :| Revives(s, step, i) && Meets(rules, s.fines, i, j) {
      RevivesMeans(rules, s, step, i);
      RevivesOne(rules, s, step, i, j);
      var a, b := if i < j then i else j, if i < j then j else i;
      SameRepeats(rules, s, step, a, b);
      assert Duplicates(rules, s'.fines, a, b);
    }
  }

  /** No step of the run revives a fine beside a duplicate. */
  ghost predicate NoRevival(rules: Rules, steps: seq<Step>) {
    steps == [] ||
    (var s := Run(rules, steps[..|steps| - 1]);
     NoRevival(rules, steps[..|steps| - 1])
     && forall i: nat, j: nat :: Revives(s, steps[|steps| - 1], i) ==> !Meets(rules, s.fines, i, j))
  }

  predicate NeverDuplicates(rules: Rules, steps: seq<Step>) {
    NoDuplicates(rules, Run(rules, steps).fines) && (steps == [] || NeverDuplicates(rules, steps[..|steps| - 1]))
  }

  /** Over whole runs of handlers, sweeps and stale advances: there are never two uncancelled duplicates if and only if no
      step revives a fine beside one. */
  lemma {:induction false} DuplicateGate(rules: Rules, steps: seq<Step>)
    ensures NeverDuplicates(rules, steps) <==> NoRevival(rules, steps)
  {
    if steps != [] {
      DuplicateGate(rules, steps[..|steps| - 1]);
      var s := Run(rules, steps[..|steps| - 1]);
      if NeverDuplicates(rules, steps[..|steps| - 1]) { DuplicatesAppear(rules, s, steps[|steps| - 1]); }
    }
  }

  /** The outbox tells a cancellation after the issue. */
  predicate CancelledSince(outbox: seq<Event>, i: nat) {
    exists j, k :: 0 <= j < k < |outbox| && outbox[j] == FineIssued(i) && outbox[k] == FineCancelled(i)
  }

  /** Every fine was told, a cancelled one also its cancellation, and of two fines where the later repeats the earlier,
      the earlier one was cancelled after its issue. */
  predicate GateOk(rules: Rules, s: State) {
    && (forall i :: 0 <= i < |s.fines| ==> FineIssued(i) in s.outbox)
    && (forall i :: 0 <= i < |s.fines| && s.fines[i].status == Cancelled ==> CancelledSince(s.outbox, i))
    && (forall i, j :: 0 <= i < j < |s.fines| && Repeats(rules, s.fines[i], s.fines[j]) ==> CancelledSince(s.outbox, i))
  }

  lemma StillCancelled(a: seq<Event>, b: seq<Event>, i: nat)
    requires CancelledSince(a, i)
    ensures CancelledSince(a + b, i)
  {
    var j, k :| 0 <= j < k < |a| && a[j] == FineIssued(i) && a[k] == FineCancelled(i);
    assert (a + b)[j] == a[j] && (a + b)[k] == a[k];
  }

  lemma CancelTold(a: seq<Event>, i: nat)
    requires FineIssued(i) in a
    ensures CancelledSince(a + [FineCancelled(i)], i)
  {
    var j :| 0 <= j < |a| && a[j] == FineIssued(i);
    assert (a + [FineCancelled(i)])[j] == a[j] && (a + [FineCancelled(i)])[|a|] == FineCancelled(i);
  }

  predicate Cancels(rules: Rules, s: State, step: Step, i: nat) {
    && i < |s.fines| && s.fines[i].status != Cancelled
    && i < |Apply(rules, s, step).fines| && Apply(rules, s, step).fines[i].status == Cancelled
  }

  /** What a step adds to the outbox. */
  lemma OutboxGrows(rules: Rules, s: State, step: Step) returns (more: seq<Event>)
    ensures Apply(rules, s, step).outbox == s.outbox + more
    ensures forall i :: 0 <= i < |s.fines| && Cancels(rules, s, step, i) ==> more == [FineCancelled(i)]
    ensures |Apply(rules, s, step).fines| > |s.fines| ==> more == [FineIssued(|s.fines|)]
  {
    more := Apply(rules, s, step).outbox[|s.outbox|..];
  }

  lemma GateStepRow(rules: Rules, s: State, step: Step, i: nat)
    requires GateOk(rules, s) && i < |s.fines|
    ensures var s' := Apply(rules, s, step);
      && i < |s'.fines| && FineIssued(i) in s'.outbox
      && (CancelledSince(s.outbox, i) || s'.fines[i].status == Cancelled ==> CancelledSince(s'.outbox, i))
  {
    var more := OutboxGrows(rules, s, step);
    SameRepeats(rules, s, step, i, i);
    assert FineIssued(i) in s.outbox;
    if CancelledSince(s.outbox, i) {
      StillCancelled(s.outbox, more, i);
    } else if Apply(rules, s, step).fines[i].status == Cancelled {
      CancelTold(s.outbox, i);
    }
  }

  lemma GateStep(rules: Rules, s: State, step: Step)
    requires GateOk(rules, s)
    ensures GateOk(rules, Apply(rules, s, step))
  {
    var s' := Apply(rules, s, step);
    var more := OutboxGrows(rules, s, step);
    forall i | 0 <= i < |s'.fines|
      ensures FineIssued(i) in s'.outbox && (s'.fines[i].status == Cancelled ==> CancelledSince(s'.outbox, i))
    {
      if i < |s.fines| { GateStepRow(rules, s, step, i); }
    }
    forall i, j | 0 <= i < j < |s'.fines| && Repeats(rules, s'.fines[i], s'.fines[j])
      ensures CancelledSince(s'.outbox, i)
    {
      GateStepRow(rules, s, step, i);
      if j < |s.fines| {
        SameRepeats(rules, s, step, i, j);
      } else {
        IssueMeetsNone(rules, s, step, i);
      }
    }
  }

  /** On every run, an earlier fine that a later one repeats was cancelled after it was issued. */
  lemma {:induction false} DuplicatesWereCancelled(rules: Rules, steps: seq<Step>)
    ensures GateOk(rules, Run(rules, steps))
  {
    if steps != [] {
      DuplicatesWereCancelled(rules, steps[..|steps| - 1]);
      GateStep(rules, Run(rules, steps[..|steps| - 1]), steps[|steps| - 1]);
    }
  }

  // ─── What does not hold ──────────────────────────────────────────────────────

  const FIRST := Fine("t", Some(7), "S1", 100, Issued, 0, 0, DUE_AFTER, None)

  /** A cancelled fine does not block its duplicate. */
  lemma SecondIssue(s: State)
    requires s.fines == [FIRST.(status := Cancelled)] && s.now == 0
    ensures Apply(RULES, s, Issue(TICKET))
         == s.(fines := [FIRST.(status := Cancelled), FIRST], outbox := s.outbox + [FineIssued(1)])
  {
    assert !BlocksIssue(s.fines[0], TICKET, 3600, 0);
  }

  lemma FiledThenCancelled(s: State)
    requires s == State([FIRST], [], [], [FineIssued(0)], 0)
    ensures var t := Apply(RULES, Apply(RULES, s, File(0, true, "r")), Cancel(0));
      t.fines == [FIRST.(status := Cancelled)] && t.disputes == [Dispute(0, None)] && t.now == 0
  {
    assert Apply(RULES, s, File(0, true, "r")).fines == [FIRST.(status := Disputed)];
  }

  /** The duplicate gate holds at issue time only: rejecting the dispute of a cancelled fine brings it back beside its
      duplicate. */
  lemma RejectedDisputeRevivesDuplicate()
    ensures var s := Run(RULES, [Issue(TICKET)] + [File(0, true, "r")] + [Cancel(0)] + [Issue(TICKET)] + [Resolve(0, 0, Rejected)]);
      |s.fines| == 2 && s.fines[0] == s.fines[1] && s.fines[0].status == Issued
  {
    FirstFine();
    var a := [Issue(TICKET)];
    var b := a + [File(0, true, "r")];
    var c := b + [Cancel(0)];
    var d := c + [Issue(TICKET)];
    RunOneMore(RULES, a, File(0, true, "r"));
    RunOneMore(RULES, b, Cancel(0));
    RunOneMore(RULES, c, Issue(TICKET));
    RunOneMore(RULES, d, Resolve(0, 0, Rejected));
    FiledThenCancelled(Run(RULES, a));
    SecondIssue(Run(RULES, c));
  }

  /** So does paying a cancelled fine. */
  lemma LatePaymentRevivesDuplicate()
    ensures var s := Run(RULES, [Issue(TICKET)] + [Cancel(0)] + [Issue(TICKET)] + [Pay(0, "x", true)]);
      |s.fines| == 2 && s.fines[0].status == Paid && s.fines[1] == s.fines[0].(status := Issued, paidAt := None)
  {
    FirstFine();
    var a := [Issue(TICKET)];
    var b := a + [Cancel(0)];
    var c := b + [Issue(TICKET)];
    RunOneMore(RULES, a, Cancel(0));
    RunOneMore(RULES, b, Issue(TICKET));
    RunOneMore(RULES, c, Pay(0, "x", true));
    assert Run(RULES, b).fines == [FIRST.(status := Cancelled)];
    SecondIssue(Run(RULES, b));
  }

  const AGAIN := LATE_FINE.(issuedAt := LATE, dueAt := LATE + DUE_AFTER)

  lemma IssuedAgain(s: State)
    requires s == State([LATE_FINE.(status := Cancelled)], [], [], [FineIssued(0), FineCancelled(0)], LATE)
    ensures Apply(LADDER_RULES, Apply(LADDER_RULES, s, Issue(TICKET)), Advance(WARN)).fines
         == [LATE_FINE.(status := Warned, stage := 1), AGAIN]
  {
    assert !BlocksIssue(s.fines[0], TICKET, 2 * LATE, LATE);
    assert Apply(LADDER_RULES, s, Issue(TICKET)).fines == [s.fines[0], AGAIN];
  }

  lemma WarnedBesideAgain()
    ensures Duplicates(LADDER_RULES, [LATE_FINE.(status := Warned, stage := 1), AGAIN], 0, 1)
  {
  }

  /** So does the escalation job, with a candidate it listed before the cancellation. */
  lemma StaleAdvanceRevivesDuplicate()
    ensures var late := [] + [Issue(TICKET)] + [Wait(LATE)];
      var s := Run(LADDER_RULES, late);
      var batch := Escalation.Candidates(LADDER_RULES.ladders, s.fines, s.now, 0);
      |batch| == 1 &&
      var t := Run(LADDER_RULES, late + [Cancel(0)] + [Issue(TICKET)] + [Advance(batch[0])]);
      Duplicates(LADDER_RULES, t.fines, 0, 1) && t.fines[0].status == Warned && t.fines[1].status == Issued
  {
    LateFine();
    var late := [] + [Issue(TICKET)] + [Wait(LATE)];
    var cancelled := late + [Cancel(0)];
    var s := State([LATE_FINE], [], [], [FineIssued(0)], LATE);
    IssuedAgain(Apply(LADDER_RULES, s, Cancel(0)));
    RunOneMore(LADDER_RULES, late, Cancel(0));
    RunOneMore(LADDER_RULES, cancelled, Issue(TICKET));
    RunOneMore(LADDER_RULES, cancelled + [Issue(TICKET)], Advance(WARN));
    WarnedBesideAgain();
  }
}
