/** Disputes of a fine: handlers and whole sweeps keep them consistent, and stale advances do so under an exact condition. */
module FineDisputes {
  import opened Prelude
  import opened FineRecords
  import opened Fines
  import Escalation

  function PendingDisputes(ds: seq<Dispute>, i: nat): nat {
    if ds == [] then 0
    else PendingDisputes(ds[..|ds| - 1], i) + (if ds[|ds| - 1].fine == i && ds[|ds| - 1].verdict.None? then 1 else 0)
  }

  predicate DisputeOk(f: Fine, pending: nat) {
    && pending <= 1
    && (f.status == Disputed ==> pending == 1)
    && (pending == 1 ==> f.status == Disputed || f.status == Paid || f.status == Cancelled)
  }

  /** Also: disputes only concern fines that exist. */
  predicate DisputesOk(s: State) {
    && (forall i :: 0 <= i < |s.fines| ==> DisputeOk(s.fines[i], PendingDisputes(s.disputes, i)))
    && (forall d :: 0 <= d < |s.disputes| ==> s.disputes[d].fine < |s.fines|)
  }

  lemma {:induction false} ResolveCounts(ds: seq<Dispute>, d: nat, v: Verdict, i: nat)
    requires d < |ds| && ds[d].verdict.None?
    ensures PendingDisputes(ds[d := Dispute(ds[d].fine, Some(v))], i)
         == PendingDisputes(ds, i) - (if ds[d].fine == i then 1 else 0)
  {
    var n, out := |ds| - 1, ds[d := Dispute(ds[d].fine, Some(v))];
    if d == n {
      assert out[..n] == ds[..n];
    } else {
      ResolveCounts(ds[..n], d, v, i);
      assert out[..n] == ds[..n][d := out[d]];
    }
  }

  lemma {:induction false} NoPendingForNewFine(ds: seq<Dispute>, i: nat)
    requires forall d :: 0 <= d < |ds| ==> ds[d].fine < i
    ensures PendingDisputes(ds, i) == 0
  {
    if ds != [] { NoPendingForNewFine(ds[..|ds| - 1], i); }
  }

  lemma FileStep(s: State, fine: nat, i: nat)
    requires DisputesOk(s) && i < |s.fines| && fine < |s.fines|
    requires s.fines[fine].status != Disputed && s.fines[fine].status != Paid && s.fines[fine].status != Cancelled
    ensures DisputeOk(WithStatus(s.fines, fine, Disputed)[i], PendingDisputes(s.disputes + [Dispute(fine, None)], i))
  {
    assert (s.disputes + [Dispute(fine, None)])[..|s.disputes|] == s.disputes;
    assert DisputeOk(s.fines[i], PendingDisputes(s.disputes, i));
  }

  lemma ResolveStep(s: State, fine: nat, d: nat, v: Verdict, i: nat)
    requires DisputesOk(s) && i < |s.fines| && Resolvable(s, fine, d)
    ensures DisputeOk(WithStatus(s.fines, fine, StatusAfter(v))[i],
                      PendingDisputes(s.disputes[d := Dispute(fine, Some(v))], i))
  {
    ResolveCounts(s.disputes, d, v, i);
    assert DisputeOk(s.fines[i], PendingDisputes(s.disputes, i));
  }

  lemma IssueStep(rules: Rules, s: State, t: Ticket, i: nat)
    requires DisputesOk(s) && i < |Apply(rules, s, Issue(t)).fines|
    ensures DisputeOk(Apply(rules, s, Issue(t)).fines[i], PendingDisputes(s.disputes, i))
  {
    if i == |s.fines| {
      NoPendingForNewFine(s.disputes, i);
    } else {
      assert DisputeOk(s.fines[i], PendingDisputes(s.disputes, i));
    }
  }

  /** A sweep leaves alone every fine with a pending dispute. */
  lemma SweepStep(rules: Rules, s: State, i: nat)
    requires DisputesOk(s) && i < |s.fines|
    ensures DisputeOk(SweepAll(rules.ladders, s.fines, s.now)[i], PendingDisputes(s.disputes, i))
  {
    assert DisputeOk(s.fines[i], PendingDisputes(s.disputes, i));
  }

  /** Paying and cancelling are compatible with any dispute. */
  lemma QuietStep(rules: Rules, s: State, step: Step, i: nat)
    requires DisputesOk(s) && i < |s.fines| && (step.Pay? || step.Webhook? || step.Cancel? || step.Wait?)
    ensures var s' := Apply(rules, s, step);
      |s'.fines| == |s.fines| && s'.disputes == s.disputes && DisputeOk(s'.fines[i], PendingDisputes(s.disputes, i))
  {
    assert DisputeOk(s.fines[i], PendingDisputes(s.disputes, i));
  }

  lemma DisputeStep(rules: Rules, s: State, step: Step, i: nat)
    requires DisputesOk(s) && i < |Apply(rules, s, step).fines| && !step.Advance?
    ensures var s' := Apply(rules, s, step); DisputeOk(s'.fines[i], PendingDisputes(s'.disputes, i))
  {
    match step
    case Issue(t) => IssueStep(rules, s, t, i);
    case File(fine, mine, reason) =>
      if DisputeOutcome(s, fine, mine, reason).Filed? { FileStep(s, fine, i); }
    case Resolve(fine, d, v) =>
      if Resolvable(s, fine, d) { ResolveStep(s, fine, d, v, i); }
    case Sweep => SweepStep(rules, s, i);
    case _ => QuietStep(rules, s, step, i);
  }

  /** It takes effect on the status of a fine with a pending dispute. */
  predicate Overrides(s: State, c: Escalation.Candidate) {
    && c.fine < |s.fines| && s.fines[c.fine].stage < c.toStage
    && Escalation.StatusFor(c.action).Some? && PendingDisputes(s.disputes, c.fine) > 0
  }

  /** An advance re-reads only the stage: it keeps the disputes consistent exactly when the stage was reached meanwhile,
      its action is unknown or no dispute is pending; otherwise a second dispute can be filed. */
  lemma StaleAdvance(rules: Rules, s: State, c: Escalation.Candidate)
    requires DisputesOk(s)
    ensures var t := Apply(rules, s, Advance(c));
      && (DisputesOk(t) <==> !Overrides(s, c))
      && (Overrides(s, c) ==> DisputeOutcome(t, c.fine, true, "again").Filed?
                              && PendingDisputes(t.disputes + [Dispute(c.fine, None)], c.fine) == 2)
  {
    var t := Apply(rules, s, Advance(c));
    if c.fine < |s.fines| {
      assert DisputeOk(s.fines[c.fine], PendingDisputes(s.disputes, c.fine));
      assert (s.disputes + [Dispute(c.fine, None)])[..|s.disputes|] == s.disputes;
      assert forall j :: 0 <= j < |s.fines| && j != c.fine ==> t.fines[j] == s.fines[j];
      if Overrides(s, c) {
        assert !DisputeOk(t.fines[c.fine], PendingDisputes(t.disputes, c.fine));
      }
    }
  }

  predicate AlwaysOk(rules: Rules, steps: seq<Step>) {
    DisputesOk(Run(rules, steps)) && (steps == [] || AlwaysOk(rules, steps[..|steps| - 1]))
  }

  predicate NeverOverrides(rules: Rules, steps: seq<Step>) {
    steps == [] ||
    (var last := steps[|steps| - 1];
     NeverOverrides(rules, steps[..|steps| - 1])
     && (last.Advance? ==> !Overrides(Run(rules, steps[..|steps| - 1]), last.c)))
  }

  lemma ConsistentStep(rules: Rules, s: State, step: Step)
    requires DisputesOk(s)
    ensures DisputesOk(Apply(rules, s, step)) <==> (step.Advance? ==> !Overrides(s, step.c))
  {
    if step.Advance? {
      StaleAdvance(rules, s, step.c);
    } else {
      var t := Apply(rules, s, step);
      forall i | 0 <= i < |t.fines| ensures DisputeOk(t.fines[i], PendingDisputes(t.disputes, i)) {
        DisputeStep(rules, s, step, i);
      }
    }
  }

  /** Over every interleaving of handlers, whole sweeps and stale advances: all through the run there is at most one
      pending dispute per fine, and the fine's status knows about it, if and only if no advance on the run takes effect on
      a fine with a pending dispute. */
  lemma {:induction false} DisputesExactly(rules: Rules, steps: seq<Step>)
    ensures AlwaysOk(rules, steps) <==> NeverOverrides(rules, steps)
  {
    if steps != [] {
      var before := steps[..|steps| - 1];
      DisputesExactly(rules, before);
      if AlwaysOk(rules, before) {
        assert DisputesOk(Run(rules, before));
        ConsistentStep(rules, Run(rules, before), steps[|steps| - 1]);
      }
    }
  }

  /** So whole sweeps never break the consistency. */
  lemma {:induction false} DisputeConsistency(rules: Rules, steps: seq<Step>)
    requires forall k :: 0 <= k < |steps| ==> !steps[k].Advance?
    ensures DisputesOk(Run(rules, steps))
  {
    if steps != [] {
      DisputeConsistency(rules, steps[..|steps| - 1]);
      ConsistentStep(rules, Run(rules, steps[..|steps| - 1]), steps[|steps| - 1]);
    }
  }

  lemma WarnedWhileDisputed(s: State, filed: State)
    requires s == State([LATE_FINE], [], [], [FineIssued(0)], LATE) && filed == Apply(LADDER_RULES, s, File(0, true, "r"))
    ensures var t := Apply(LADDER_RULES, filed, Advance(WARN));
      Apply(LADDER_RULES, t, File(0, true, "s")).disputes == [Dispute(0, None), Dispute(0, None)]
  {
    assert filed == State([LATE_FINE.(status := Disputed)], [], [Dispute(0, None)], [FineIssued(0), FineDisputed(0)], LATE);
    var t := Apply(LADDER_RULES, filed, Advance(WARN));
    assert t == filed.(fines := [LATE_FINE.(status := Warned, stage := 1)]);
  }

  lemma TwoPending()
    ensures PendingDisputes([Dispute(0, None), Dispute(0, None)], 0) == 2
  {
    var one, two := [Dispute(0, None)], [Dispute(0, None), Dispute(0, None)];
    assert one[..0] == [] && two[..1] == one;
    assert PendingDisputes(one, 0) == 1;
  }

  /** A fine disputed between the job's query and its advance can be disputed again. */
  lemma SecondDispute()
    ensures var late := [] + [Issue(TICKET)] + [Wait(LATE)];
      var s := Run(LADDER_RULES, late);
      var batch := Escalation.Candidates(LADDER_RULES.ladders, s.fines, s.now, 0);
      |batch| == 1 &&
      var t := Run(LADDER_RULES, late + [File(0, true, "r")] + [Advance(batch[0])] + [File(0, true, "s")]);
      PendingDisputes(t.disputes, 0) == 2
  {
    LateFine();
    var late := [] + [Issue(TICKET)] + [Wait(LATE)];
    var filed := late + [File(0, true, "r")];
    var s0 := State([LATE_FINE], [], [], [FineIssued(0)], LATE);
    WarnedWhileDisputed(s0, Apply(LADDER_RULES, s0, File(0, true, "r")));
    RunOneMore(LADDER_RULES, late, File(0, true, "r"));
    RunOneMore(LADDER_RULES, filed, Advance(WARN));
    RunOneMore(LADDER_RULES, filed + [Advance(WARN)], File(0, true, "s"));
    TwoPending();
  }
}
