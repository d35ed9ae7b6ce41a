/** The fine handlers: issue, pay, payment webhook, dispute, resolve, cancel, beside whole escalation sweeps and single
    advances from stale lists.

    Each handler is one transaction. The provider's answers (intent id, success) are inputs. */
module Fines {
  import opened Prelude
  import opened FineRecords
  import Escalation

  const DUE_AFTER := 14 * 24 * 60 * 60

  datatype Payment = Payment(fine: nat, amount: int, ref: string, settled: bool)

  datatype Verdict = Upheld | Rejected | SentToCourt

  /** A dispute is pending until it has a verdict. */
  datatype Dispute = Dispute(fine: nat, verdict: Option<Verdict>)

  datatype Event =
    | FineIssued(fine: nat)
    | FinePaid(fine: nat, amount: int, ref: string)
    | FineDisputed(fine: nat)
    | FineCancelled(fine: nat)

  datatype Offence = Offence(amount: int, window: int)

  /** What does not change during a run: each tenant's active offences and the escalation ladders. */
  datatype Rules = Rules(offences: map<(string, string), Offence>, ladders: Escalation.Ladders)

  datatype State = State(
    fines: seq<Fine>, payments: seq<Payment>, disputes: seq<Dispute>, outbox: seq<Event>, now: int)

  datatype Item = Item(key: string, sha256: string, takenAt: Option<int>)

  /** `vehicle` is what the plate lookup finds; `licenceFound` is false for a licence number that does not exist. */
  datatype Ticket = Ticket(
    tenant: string, plate: string, vehicle: Option<nat>, offence: string, evidence: seq<Item>, licenceFound: bool)

  datatype IssueResult =
    EvidenceRequired | EvidenceInvalid | BadRequest | UnknownOffence | DuplicateFine | UnknownLicence | Created(id: nat)
  datatype DisputeResult = ReasonRequired | NotFound | Forbidden | NotDisputable | Filed

  datatype Step =
    | Issue(t: Ticket)
    | Pay(fine: nat, ref: string, succeeded: bool)
    | Webhook(ref: string, row: Option<nat>)
    | File(fine: nat, mine: bool, reason: string)
    | Resolve(fine: nat, dispute: nat, verdict: Verdict)
    | Cancel(fine: nat)
    | Sweep
    | Advance(c: Escalation.Candidate)
    | Wait(seconds: nat)

  // ─── One transaction each ────────────────────────────────────────────────────

  /** A fine for the same vehicle and offence, not cancelled, younger than the window. */
  predicate BlocksIssue(f: Fine, t: Ticket, window: int, now: int) {
    t.vehicle.Some? && f.tenant == t.tenant && f.vehicle == t.vehicle && f.offence == t.offence
    && f.issuedAt > now - window && f.status != Cancelled
  }

  predicate Blocked(s: State, t: Ticket, window: int) {
    exists i :: 0 <= i < |s.fines| && BlocksIssue(s.fines[i], t, window, s.now)
  }

  predicate Complete(e: Item) {
    e.key != "" && e.sha256 != "" && e.takenAt.Some?
  }

  function IssueOutcome(rules: Rules, s: State, t: Ticket): IssueResult {
    if t.evidence == [] then EvidenceRequired
    else if exists k :: 0 <= k < |t.evidence| && !Complete(t.evidence[k]) then EvidenceInvalid
    else if t.plate == "" || t.offence == "" then BadRequest
    else if (t.tenant, t.offence) !in rules.offences then UnknownOffence
    else if Blocked(s, t, rules.offences[(t.tenant, t.offence)].window) then DuplicateFine
    else if !t.licenceFound then UnknownLicence
    else Created(|s.fines|)
  }

  function DisputeOutcome(s: State, fine: nat, mine: bool, reason: string): DisputeResult {
    if reason == "" then ReasonRequired
    else if fine >= |s.fines| then NotFound
    else if !mine then Forbidden
    else if s.fines[fine].status == Paid || s.fines[fine].status == Cancelled || s.fines[fine].status == Disputed
    then NotDisputable
    else Filed
  }

  function WithStatus(fines: seq<Fine>, i: nat, st: Status): seq<Fine> {
    if i < |fines| then fines[i := fines[i].(status := st)] else fines
  }

  function PaidNow(fines: seq<Fine>, i: nat, now: int): seq<Fine> {
    if i < |fines| then fines[i := fines[i].(status := Paid, paidAt := Some(now))] else fines
  }

  /** UPDATE fine_payments SET status='succeeded' WHERE provider_ref = ref: every row with that reference. */
  function SettleAll(ps: seq<Payment>, ref: string): (out: seq<Payment>)
    ensures |out| == |ps|
    ensures forall i :: 0 <= i < |ps| ==> out[i] == (if ps[i].ref == ref then ps[i].(settled := true) else ps[i])
  {
    if ps == [] then []
    else
      var p := ps[|ps| - 1];
      SettleAll(ps[..|ps| - 1], ref) + [if p.ref == ref then p.(settled := true) else p]
  }

  function StatusAfter(v: Verdict): Status {
    match v
    case Upheld => Cancelled
    case Rejected => Issued
    case SentToCourt => Court
  }

  predicate Resolvable(s: State, fine: nat, dispute: nat) {
    dispute < |s.disputes| && s.disputes[dispute].fine == fine && s.disputes[dispute].verdict.None?
  }

  /** The webhook acts only on an unsettled row of a fine that is not paid. */
  predicate Effective(s: State, row: Option<nat>) {
    && row.Some? && row.value < |s.payments| && !s.payments[row.value].settled
    && s.payments[row.value].fine < |s.fines| && s.fines[s.payments[row.value].fine].status != Paid
  }

  /** The row a webhook finds for its reference, if there is any. */
  predicate FoundRow(s: State, ref: string, row: Option<nat>) {
    match row
    case Some(k) => k < |s.payments| && s.payments[k].ref == ref
    case None => forall k :: 0 <= k < |s.payments| ==> s.payments[k].ref != ref
  }

  function Apply(rules: Rules, s: State, step: Step): State {
    match step
    case Issue(t) =>
      (match IssueOutcome(rules, s, t)
       case Created(id) =>
         var o := rules.offences[(t.tenant, t.offence)];
         s.(fines := s.fines +
              [Fine(t.tenant, t.vehicle, t.offence, o.amount, Issued, 0, s.now, s.now + DUE_AFTER, None)],
            outbox := s.outbox + [FineIssued(id)])
       case _ => s)
    case Pay(i, ref, succeeded) =>
      if i >= |s.fines| then s
      else
        var paid := s.(payments := s.payments + [Payment(i, s.fines[i].amount, ref, succeeded)]);
        if !succeeded then paid
        else paid.(fines := PaidNow(s.fines, i, s.now), outbox := s.outbox + [FinePaid(i, s.fines[i].amount, ref)])
    case Webhook(ref, row) =>
      if !Effective(s, row) then s
      else
        var p := s.payments[row.value];
        s.(payments := SettleAll(s.payments, ref), fines := PaidNow(s.fines, p.fine, s.now),
           outbox := s.outbox + [FinePaid(p.fine, p.amount, ref)])
    case File(i, mine, reason) =>
      if !DisputeOutcome(s, i, mine, reason).Filed? then s
      else s.(disputes := s.disputes + [Dispute(i, None)], fines := WithStatus(s.fines, i, Disputed),
              outbox := s.outbox + [FineDisputed(i)])
    case Resolve(i, d, v) =>
      if !Resolvable(s, i, d) then s
      else s.(disputes := s.disputes[d := Dispute(i, Some(v))], fines := WithStatus(s.fines, i, StatusAfter(v)),
              outbox := if v == Upheld then s.outbox + [FineCancelled(i)] else s.outbox)
    case Cancel(i) =>
      s.(fines := WithStatus(s.fines, i, Cancelled), outbox := s.outbox + [FineCancelled(i)])
    case Sweep => s.(fines := SweepAll(rules.ladders, s.fines, s.now))
    case Advance(c) => s.(fines := AfterAdvance(s.fines, c))
    case Wait(seconds) => s.(now := s.now + seconds)
  }

  /** The escalation job advances one candidate of an earlier query. */
  function AfterAdvance(fines: seq<Fine>, c: Escalation.Candidate): (out: seq<Fine>)
    ensures |out| == |fines|
  {
    if c.fine >= |fines| then fines else Escalation.Advance(Escalation.Tables(fines, []), c).fines
  }

  /** A whole escalation sweep, fine by fine. */
  function SweepAll(ladders: Escalation.Ladders, fines: seq<Fine>, now: int): seq<Fine> {
    seq(|fines|, i requires 0 <= i < |fines| =>
      Escalation.Swept(Escalation.LadderOf(ladders, fines[i].tenant), fines[i], now))
  }

  /** That is what the escalation job's own sweep does. */
  lemma SweepAllIsSweep(ladders: Escalation.Ladders, fines: seq<Fine>, events: seq<Escalation.Event>, now: int)
    ensures Escalation.AfterSweep(ladders, Escalation.Tables(fines, events), now).fines == SweepAll(ladders, fines, now)
  {
    forall i | 0 <= i < |fines|
      ensures Escalation.AfterSweep(ladders, Escalation.Tables(fines, events), now).fines[i] == SweepAll(ladders, fines, now)[i]
    {
      Escalation.SweepIsPointwise(ladders, Escalation.Tables(fines, events), now, i);
    }
  }

  class Api {
    const rules: Rules
    var fines: seq<Fine>
    var payments: seq<Payment>
    var disputes: seq<Dispute>
    var outbox: seq<Event>

    function At(now: int): State
      reads this
    {
      State(fines, payments, disputes, outbox, now)
    }

    constructor (rules: Rules)
      ensures this.rules == rules && At(0) == START
    {
      this.rules, fines, payments, disputes, outbox := rules, [], [], [], [];
    }

    method IssueFine(t: Ticket, now: int) returns (r: IssueResult)
      modifies this
      ensures r == IssueOutcome(rules, old(At(now)), t) && At(now) == Apply(rules, old(At(now)), Issue(t))
    {
      if t.evidence == [] {
        return EvidenceRequired;
      }
      var k := 0;
      while k < |t.evidence|
        invariant k <= |t.evidence| && At(now) == old(At(now))
        invariant forall j :: 0 <= j < k ==> Complete(t.evidence[j])
      {
        var e := t.evidence[k];
        if e.key == "" || e.sha256 == "" || e.takenAt.None? {
          assert !Complete(t.evidence[k]);
          return EvidenceInvalid;
        }
        k := k + 1;
      }
      if t.plate == "" || t.offence == "" {
        return BadRequest;
      }
      if (t.tenant, t.offence) !in rules.offences {
        return UnknownOffence;
      }
      var o := rules.offences[(t.tenant, t.offence)];
      if t.vehicle.Some? {
        if exists i :: 0 <= i < |fines| && BlocksIssue(fines[i], t, o.window, now) {
          return DuplicateFine;
        }
      }
      if !t.licenceFound {
        return UnknownLicence;
      }
      var id, dueAt := |fines|, now + DUE_AFTER;
      fines := fines + [Fine(t.tenant, t.vehicle, t.offence, o.amount, Issued, 0, now, dueAt, None)];
      outbox := outbox + [FineIssued(id)];
      r := Created(id);
    }

    method HandlePay(fine: nat, ref: string, succeeded: bool, now: int) returns (found: bool)
      modifies this
      ensures found == (fine < |old(fines)|) && At(now) == Apply(rules, old(At(now)), Pay(fine, ref, succeeded))
    {
      if fine >= |fines| {
        return false;
      }
      var amount := fines[fine].amount;
      payments := payments + [Payment(fine, amount, ref, succeeded)];
      if succeeded {
        fines := fines[fine := fines[fine].(status := Paid, paidAt := Some(now))];
        outbox := outbox + [FinePaid(fine, amount, ref)];
      }
      found := true;
    }

    method HandleWebhook(ref: string, row: Option<nat>, now: int) returns (acted: bool)
      requires FoundRow(At(now), ref, row)
      modifies this
      ensures acted == Effective(old(At(now)), row) && At(now) == Apply(rules, old(At(now)), Webhook(ref, row))
    {
      if row.None? {
        return false;
      }
      var p := payments[row.value];
      if p.fine >= |fines| || p.settled || fines[p.fine].status == Paid {
        return false;
      }
      payments := SettleAll(payments, ref);
      fines := fines[p.fine := fines[p.fine].(status := Paid, paidAt := Some(now))];
      outbox := outbox + [FinePaid(p.fine, p.amount, ref)];
      acted := true;
    }

    method FileDispute(fine: nat, mine: bool, reason: string, now: int) returns (r: DisputeResult)
      modifies this
      ensures r == DisputeOutcome(old(At(now)), fine, mine, reason)
      ensures At(now) == Apply(rules, old(At(now)), File(fine, mine, reason))
    {
      if reason == "" {
        return ReasonRequired;
      }
      if fine >= |fines| {
        return NotFound;
      }
      if !mine {
        return Forbidden;
      }
      var status := fines[fine].status;
      if status == Paid || status == Cancelled || status == Disputed {
        return NotDisputable;
      }
      disputes := disputes + [Dispute(fine, None)];
      fines := fines[fine := fines[fine].(status := Disputed)];
      outbox := outbox + [FineDisputed(fine)];
      r := Filed;
    }

    method ResolveDispute(fine: nat, dispute: nat, verdict: Verdict, now: int) returns (done: bool)
      modifies this
      ensures done == Resolvable(old(At(now)), fine, dispute)
      ensures At(now) == Apply(rules, old(At(now)), Resolve(fine, dispute, verdict))
    {
      if dispute >= |disputes| || disputes[dispute].fine != fine || disputes[dispute].verdict.Some? {
        return false;
      }
      disputes := disputes[dispute := Dispute(fine, Some(verdict))];
      if fine < |fines| {
        fines := fines[fine := fines[fine].(status := StatusAfter(verdict))];
      }
      if verdict == Upheld {
        outbox := outbox + [FineCancelled(fine)];
      }
      done := true;
    }

    method CancelFine(fine: nat, reason: string, now: int) returns (done: bool)
      modifies this
      ensures done <==> reason != ""
      ensures At(now) == if done then Apply(rules, old(At(now)), Cancel(fine)) else old(At(now))
    {
      if reason == "" {
        return false;
      }
      if fine < |fines| {
        fines := fines[fine := fines[fine].(status := Cancelled)];
      }
      outbox := outbox + [FineCancelled(fine)];
      done := true;
    }
  }

  // ─── Runs ────────────────────────────────────────────────────────────────────

  const START := State([], [], [], [], 0)

  function Run(rules: Rules, steps: seq<Step>): State {
    if steps == [] then START else Apply(rules, Run(rules, steps[..|steps| - 1]), steps[|steps| - 1])
  }

  /** Every webhook names a row that carries its reference. */
  predicate Legal(rules: Rules, steps: seq<Step>) {
    steps == [] ||
    (var s, step := Run(rules, steps[..|steps| - 1]), steps[|steps| - 1];
     Legal(rules, steps[..|steps| - 1]) && (step.Webhook? ==> FoundRow(s, step.ref, step.row)))
  }

  lemma RunOneMore(rules: Rules, steps: seq<Step>, step: Step)
    ensures Run(rules, steps + [step]) == Apply(rules, Run(rules, steps), step)
  {
    assert (steps + [step])[..|steps|] == steps;
  }

  /** No step changes what a fine is about. */
  lemma FinesKeepIdentity(rules: Rules, s: State, step: Step, i: nat)
    requires i < |s.fines|
    ensures var s' := Apply(rules, s, step);
      && i < |s'.fines| && s'.fines[i].amount == s.fines[i].amount && s'.fines[i].issuedAt == s.fines[i].issuedAt
      && s'.fines[i].tenant == s.fines[i].tenant && s'.fines[i].vehicle == s.fines[i].vehicle
      && s'.fines[i].offence == s.fines[i].offence
  {
  }

  /** Another uncancelled fine of the tenant, for the vehicle and the offence, younger than the offence's window. */
  predicate HasTwin(rules: Rules, s: State, t: Ticket) {
    && t.vehicle.Some? && (t.tenant, t.offence) in rules.offences
    && exists f :: f in s.fines && f.tenant == t.tenant && f.vehicle == t.vehicle && f.offence == t.offence
         && f.status != Cancelled && s.now - f.issuedAt < rules.offences[(t.tenant, t.offence)].window
  }

  lemma TwinBlocks(rules: Rules, s: State, t: Ticket)
    requires (t.tenant, t.offence) in rules.offences
    ensures Blocked(s, t, rules.offences[(t.tenant, t.offence)].window) <==> HasTwin(rules, s, t)
  {
    var window := rules.offences[(t.tenant, t.offence)].window;
    if Blocked(s, t, window) {
      var i :| 0 <= i < |s.fines| && BlocksIssue(s.fines[i], t, window, s.now);
      assert s.fines[i] in s.fines;
    }
    if HasTwin(rules, s, t) {
      var f :| f in s.fines && f.tenant == t.tenant && f.vehicle == t.vehicle && f.offence == t.offence
        && f.status != Cancelled && s.now - f.issuedAt < window;
      var i :| 0 <= i < |s.fines| && s.fines[i] == f;
      assert BlocksIssue(s.fines[i], t, window, s.now);
    }
  }

  /** What each refusal says, and what a ticket without one leaves: one more fine, issued now at the offence's amount and due
      in fourteen days, and its event. */
  lemma IssueMeans(rules: Rules, s: State, t: Ticket)
    ensures var r, known := IssueOutcome(rules, s, t), (t.tenant, t.offence) in rules.offences;
      var gaps := exists e :: e in t.evidence && (e.key == "" || e.sha256 == "" || e.takenAt.None?);
      && (r == EvidenceRequired <==> t.evidence == [])
      && (r == EvidenceInvalid <==> gaps)
      && (r == BadRequest <==> t.evidence != [] && !gaps && (t.plate == "" || t.offence == ""))
      && (r == UnknownOffence <==> t.evidence != [] && !gaps && t.plate != "" && t.offence != "" && !known)
      && (r == DuplicateFine <==> t.evidence != [] && !gaps && t.plate != "" && t.offence != "" && HasTwin(rules, s, t))
      && (r == UnknownLicence <==>
            t.evidence != [] && !gaps && t.plate != "" && t.offence != "" && known && !HasTwin(rules, s, t) && !t.licenceFound)
      && (!r.Created? ==> Apply(rules, s, Issue(t)) == s)
      && (r.Created? ==>
            known && t.licenceFound
            && Apply(rules, s, Issue(t)) ==
                 s.(fines := s.fines + [Fine(t.tenant, t.vehicle, t.offence, rules.offences[(t.tenant, t.offence)].amount,
                                             Issued, 0, s.now, s.now + 1_209_600, None)],
                    outbox := s.outbox + [FineIssued(|s.fines|)]))
  {
    if exists k :: 0 <= k < |t.evidence| && !Complete(t.evidence[k]) {
      var k :| 0 <= k < |t.evidence| && !Complete(t.evidence[k]);
      assert t.evidence[k] in t.evidence;
    } else {
      assert forall e :: e in t.evidence ==> Complete(e);
    }
    if (t.tenant, t.offence) in rules.offences { TwinBlocks(rules, s, t); }
  }

  /** The handler pays fine `i`: at once, or by a webhook for one of its unsettled rows while it is not paid. */
  predicate Pays(s: State, step: Step, i: nat)
    requires i < |s.fines|
  {
    || (step.Pay? && step.fine == i && step.succeeded)
    || (step.Webhook? && step.row.Some? && step.row.value < |s.payments| && s.payments[step.row.value].fine == i
        && !s.payments[step.row.value].settled && s.fines[i].status != Paid)
  }

  predicate Disputes(s: State, step: Step, i: nat)
    requires i < |s.fines|
  {
    && step.File? && step.fine == i && step.mine && step.reason != ""
    && s.fines[i].status != Paid && s.fines[i].status != Cancelled && s.fines[i].status != Disputed
  }

  /** A verdict on one of the fine's disputes that has none yet. */
  predicate Decides(s: State, step: Step, i: nat) {
    && step.Resolve? && step.fine == i && step.dispute < |s.disputes|
    && s.disputes[step.dispute].fine == i && s.disputes[step.dispute].verdict.None?
  }

  /** How the handlers move a fine: to paid at that time, to disputed, by verdict to cancelled, issued or court, to
      cancelled; and not at all in any other way. Nothing but the status and the time of payment ever changes. */
  lemma HandlersMove(rules: Rules, s: State, step: Step, i: nat)
    requires i < |s.fines| && !step.Sweep? && !step.Advance?
    ensures var f, t := s.fines[i], Apply(rules, s, step);
      && i < |t.fines|
      && var g := t.fines[i];
      && g == f.(status := g.status, paidAt := g.paidAt)
      && (if Pays(s, step, i) then g.status == Paid && g.paidAt == Some(s.now) else g.paidAt == f.paidAt)
      && (Disputes(s, step, i) ==> g.status == Disputed)
      && (Decides(s, step, i) ==>
            && (step.verdict == Upheld ==> g.status == Cancelled)
            && (step.verdict == Rejected ==> g.status == Issued)
            && (step.verdict == SentToCourt ==> g.status == Court))
      && (step == Cancel(i) ==> g.status == Cancelled)
      && (!Pays(s, step, i) && !Disputes(s, step, i) && !Decides(s, step, i) && step != Cancel(i) ==> g.status == f.status)
  {
  }

  /** What the handlers write beside the fine: one payment row for the fine's amount; the webhook's rows settled; one dispute,
      pending or with its verdict; and one event each, but none for a payment that is still open, for a verdict other than
      upheld, or for a request that is refused. */
  lemma HandlersWrite(rules: Rules, s: State, step: Step)
    ensures var t := Apply(rules, s, step);
      && (step.Pay? && step.fine < |s.fines| ==>
            && t.payments == s.payments + [Payment(step.fine, s.fines[step.fine].amount, step.ref, step.succeeded)]
            && t.outbox ==
                 (if step.succeeded then s.outbox + [FinePaid(step.fine, s.fines[step.fine].amount, step.ref)] else s.outbox))
      && (step.Webhook? && Effective(s, step.row) ==>
            && |t.payments| == |s.payments|
            && (forall k :: 0 <= k < |s.payments| ==>
                  t.payments[k] == s.payments[k].(settled := s.payments[k].settled || s.payments[k].ref == step.ref))
            && t.outbox == s.outbox + [FinePaid(s.payments[step.row.value].fine, s.payments[step.row.value].amount, step.ref)])
      && (step.File? && step.fine < |s.fines| && Disputes(s, step, step.fine) ==>
            t.disputes == s.disputes + [Dispute(step.fine, None)] && t.outbox == s.outbox + [FineDisputed(step.fine)])
      && (step.Resolve? && Decides(s, step, step.fine) ==>
            && t.disputes == s.disputes[step.dispute := Dispute(step.fine, Some(step.verdict))]
            && t.outbox == (if step.verdict == Upheld then s.outbox + [FineCancelled(step.fine)] else s.outbox))
      && (step.Cancel? ==> t.outbox == s.outbox + [FineCancelled(step.fine)])
      && (!step.Pay? && !step.Webhook? ==> t.payments == s.payments)
      && (!step.File? && !step.Resolve? ==> t.disputes == s.disputes)
      && (step.Sweep? || step.Advance? || step.Wait? ==> t.outbox == s.outbox)
  {
  }

  /** What a citizen who disputes is told. */
  lemma DisputeMeans(s: State, fine: nat, mine: bool, reason: string)
    ensures var r := DisputeOutcome(s, fine, mine, reason);
      && (r == ReasonRequired <==> reason == "")
      && (r == NotFound <==> reason != "" && fine >= |s.fines|)
      && (r == Forbidden <==> reason != "" && fine < |s.fines| && !mine)
      && (r == Filed <==> fine < |s.fines| && Disputes(s, File(fine, mine, reason), fine))
  {
  }

  /** One offence, no ladder, and a fine for it. */
  const RULES := Rules(map[("t", "S1") := Offence(100, 3600)], map[])
  const TICKET := Ticket("t", "AB123", Some(7), "S1", [Item("k", "h", Some(0))], true)

  lemma FirstFine()
    ensures Run(RULES, [Issue(TICKET)]) ==
      State([Fine("t", Some(7), "S1", 100, Issued, 0, 0, DUE_AFTER, None)], [], [], [FineIssued(0)], 0)
  {
    RunOneMore(RULES, [], Issue(TICKET));
    assert [] + [Issue(TICKET)] == [Issue(TICKET)];
  }

  /** One rung, a warning a week after the due date, and a duplicate window that is longer than that. */
  const LADDER_RULES := Rules(map[("t", "S1") := Offence(100, 2 * LATE)], map["t" := [Escalation.Rung(1, 7, Escalation.Warning)]])
  const LATE := DUE_AFTER + 7 * Escalation.DAY
  const WARN := Escalation.Candidate(0, 0, 1, Escalation.Warning)
  const LATE_FINE := Fine("t", Some(7), "S1", 100, Issued, 0, 0, DUE_AFTER, None)

  lemma LateCandidate()
    ensures Escalation.Candidates(LADDER_RULES.ladders, [LATE_FINE], LATE, 0)
         == [WARN]
  {
    var ladder := LADDER_RULES.ladders["t"];
    assert Escalation.Reached(ladder[0], DUE_AFTER, LATE) && ladder[0] in ladder;
    assert Escalation.Candidates(LADDER_RULES.ladders, [LATE_FINE], LATE, 1) == [];
  }

  lemma LateFine()
    ensures var s := Run(LADDER_RULES, [] + [Issue(TICKET)] + [Wait(LATE)]);
      && s == State([LATE_FINE], [], [], [FineIssued(0)], LATE)
      && Escalation.Candidates(LADDER_RULES.ladders, s.fines, s.now, 0) == [WARN]
  {
    RunOneMore(LADDER_RULES, [], Issue(TICKET));
    RunOneMore(LADDER_RULES, [] + [Issue(TICKET)], Wait(LATE));
    LateCandidate();
  }
}
