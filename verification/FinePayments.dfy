/** Payments of a fine: paid events, payment rows and replayed webhooks. */
module FinePayments {
  import opened Prelude
  import opened FineRecords
  import opened Fines

  function Settled(ps: seq<Payment>, i: nat): nat {
    if ps == [] then 0
    else Settled(ps[..|ps| - 1], i) + (if ps[|ps| - 1].fine == i && ps[|ps| - 1].settled then 1 else 0)
  }

  function SettledSum(ps: seq<Payment>, i: nat): int {
    if ps == [] then 0
    else SettledSum(ps[..|ps| - 1], i)
         + (if ps[|ps| - 1].fine == i && ps[|ps| - 1].settled then ps[|ps| - 1].amount else 0)
  }

  function PaidEvents(outbox: seq<Event>, i: nat): nat {
    if outbox == [] then 0
    else
      var e := outbox[|outbox| - 1];
      PaidEvents(outbox[..|outbox| - 1], i) + (if e.FinePaid? && e.fine == i then 1 else 0)
  }

  /** Rows of fine `i` that a webhook for `ref` would turn from unsettled to settled. */
  function Unsettled(ps: seq<Payment>, ref: string, i: nat): nat {
    if ps == [] then 0
    else
      var p := ps[|ps| - 1];
      Unsettled(ps[..|ps| - 1], ref, i) + (if p.fine == i && p.ref == ref && !p.settled then 1 else 0)
  }

  predicate PaymentsFit(s: State) {
    forall k :: 0 <= k < |s.payments| ==>
      s.payments[k].fine < |s.fines| && s.payments[k].amount == s.fines[s.payments[k].fine].amount
  }

  predicate Conserved(s: State, i: nat) {
    PaidEvents(s.outbox, i) == Settled(s.payments, i)
  }

  predicate UniqueRefs(ps: seq<Payment>) {
    forall j, k :: 0 <= j < k < |ps| ==> ps[j].ref != ps[k].ref
  }

  lemma {:induction false} SettleCounts(ps: seq<Payment>, ref: string, i: nat)
    ensures Settled(SettleAll(ps, ref), i) == Settled(ps, i) + Unsettled(ps, ref, i)
  {
    if ps != [] {
      var n := |ps| - 1;
      SettleCounts(ps[..n], ref, i);
      assert SettleAll(ps, ref)[..n] == SettleAll(ps[..n], ref);
    }
  }

  lemma {:induction false} SumFits(s: State, ps: seq<Payment>, i: nat)
    requires i < |s.fines| && forall k :: 0 <= k < |ps| && ps[k].fine == i ==> ps[k].amount == s.fines[i].amount
    ensures SettledSum(ps, i) == s.fines[i].amount * Settled(ps, i)
  {
    if ps != [] { SumFits(s, ps[..|ps| - 1], i); }
  }

  lemma {:induction false} UnsettledOf(ps: seq<Payment>, ref: string, i: nat, k: nat)
    requires UniqueRefs(ps) && k < |ps| && ps[k].ref == ref && !ps[k].settled
    ensures Unsettled(ps, ref, i) == (if ps[k].fine == i then 1 else 0)
  {
    var n := |ps| - 1;
    if k == n {
      NoUnsettled(ps[..n], ref, i);
    } else {
      UnsettledOf(ps[..n], ref, i, k);
    }
  }

  lemma {:induction false} NoUnsettled(ps: seq<Payment>, ref: string, i: nat)
    requires forall k :: 0 <= k < |ps| ==> ps[k].ref != ref
    ensures Unsettled(ps, ref, i) == 0
  {
    if ps != [] { NoUnsettled(ps[..|ps| - 1], ref, i); }
  }

  lemma OneMorePaid(outbox: seq<Event>, e: Event, i: nat)
    requires e.FinePaid?
    ensures PaidEvents(outbox + [e], i) == PaidEvents(outbox, i) + (if e.fine == i then 1 else 0)
  {
    assert (outbox + [e])[..|outbox|] == outbox;
  }

  lemma WebhookTells(rules: Rules, s: State, ref: string, k: nat, i: nat)
    requires Effective(s, Some(k))
    ensures PaidEvents(Apply(rules, s, Webhook(ref, Some(k))).outbox, i)
         == PaidEvents(s.outbox, i) + (if s.payments[k].fine == i then 1 else 0)
  {
    OneMorePaid(s.outbox, FinePaid(s.payments[k].fine, s.payments[k].amount, ref), i);
  }

  lemma WebhookCounts(rules: Rules, s: State, ref: string, k: nat, i: nat)
    requires Effective(s, Some(k))
    ensures Settled(Apply(rules, s, Webhook(ref, Some(k))).payments, i)
         == Settled(s.payments, i) + Unsettled(s.payments, ref, i)
  {
    SettleCounts(s.payments, ref, i);
  }

  /** An effective webhook tells one payment and settles `Unsettled` rows, so a fine stays conserved exactly when
      those numbers agree. */
  lemma WebhookConserves(rules: Rules, s: State, ref: string, k: nat, i: nat)
    requires Conserved(s, i) && Effective(s, Some(k))
    ensures Conserved(Apply(rules, s, Webhook(ref, Some(k))), i)
       <==> Unsettled(s.payments, ref, i) == (if s.payments[k].fine == i then 1 else 0)
  {
    WebhookTells(rules, s, ref, k, i);
    WebhookCounts(rules, s, ref, k, i);
  }

  /** Every new payment row gets a reference of its own. */
  predicate FreshRefs(rules: Rules, steps: seq<Step>) {
    steps == [] ||
    (var s, step := Run(rules, steps[..|steps| - 1]), steps[|steps| - 1];
     FreshRefs(rules, steps[..|steps| - 1])
     && (step.Pay? ==> forall k :: 0 <= k < |s.payments| ==> s.payments[k].ref != step.ref))
  }

  predicate PaymentsOk(s: State) {
    && PaymentsFit(s) && UniqueRefs(s.payments)
    && (forall i :: 0 <= i < |s.fines| ==> Conserved(s, i) && (s.fines[i].status == Paid ==> Settled(s.payments, i) >= 1))
  }

  lemma PayKeeps(rules: Rules, s: State, i: nat, ref: string, succeeded: bool)
    requires PaymentsOk(s) && forall k :: 0 <= k < |s.payments| ==> s.payments[k].ref != ref
    ensures PaymentsOk(Apply(rules, s, Pay(i, ref, succeeded)))
  {
    var s' := Apply(rules, s, Pay(i, ref, succeeded));
    if i < |s.fines| {
      assert s'.payments[..|s.payments|] == s.payments;
      if succeeded { assert s'.outbox[..|s.outbox|] == s.outbox; }
      forall j | 0 <= j < |s.fines|
        ensures Conserved(s', j) && (s'.fines[j].status == Paid ==> Settled(s'.payments, j) >= 1)
      {
        assert Conserved(s, j);
      }
    }
  }

  lemma WebhookKeeps(rules: Rules, s: State, ref: string, row: Option<nat>)
    requires PaymentsOk(s) && FoundRow(s, ref, row)
    ensures PaymentsOk(Apply(rules, s, Webhook(ref, row)))
  {
    var s' := Apply(rules, s, Webhook(ref, row));
    if Effective(s, row) {
      assert forall k :: 0 <= k < |s.payments| ==>
        s'.payments[k].ref == s.payments[k].ref && s'.payments[k].fine == s.payments[k].fine
        && s'.payments[k].amount == s.payments[k].amount;
      forall j | 0 <= j < |s.fines|
        ensures Conserved(s', j) && (s'.fines[j].status == Paid ==> Settled(s'.payments, j) >= 1)
      {
        UnsettledOf(s.payments, ref, j, row.value);
        SettleCounts(s.payments, ref, j);
        WebhookConserves(rules, s, ref, row.value, j);
        assert Conserved(s, j);
      }
    }
  }

  lemma {:induction false} NoRowsForNewFine(ps: seq<Payment>, outbox: seq<Event>, i: nat)
    requires forall k :: 0 <= k < |ps| ==> ps[k].fine < i
    requires forall k :: 0 <= k < |outbox| && outbox[k].FinePaid? ==> outbox[k].fine < i
    ensures Settled(ps, i) == 0 && PaidEvents(outbox, i) == 0
    decreases |ps| + |outbox|
  {
    if ps != [] { NoRowsForNewFine(ps[..|ps| - 1], outbox, i); }
    else if outbox != [] { NoRowsForNewFine(ps, outbox[..|outbox| - 1], i); }
  }

  /** Paid events only name fines that exist. */
  predicate EventsFit(s: State) {
    forall k :: 0 <= k < |s.outbox| && s.outbox[k].FinePaid? ==> s.outbox[k].fine < |s.fines|
  }

  /** A step that pays nothing leaves the payments alone and may only take a fine out of 'paid'. */
  lemma OtherKeeps(rules: Rules, s: State, step: Step)
    requires PaymentsOk(s) && EventsFit(s) && !step.Pay? && !step.Webhook?
    ensures PaymentsOk(Apply(rules, s, step))
  {
    var s' := Apply(rules, s, step);
    assert s'.payments == s.payments;
    forall k | 0 <= k < |s.payments|
      ensures s.payments[k].fine < |s'.fines| && s.payments[k].amount == s'.fines[s.payments[k].fine].amount
    {
      FinesKeepIdentity(rules, s, step, s.payments[k].fine);
    }
    forall i | 0 <= i < |s'.fines|
      ensures Conserved(s', i) && (s'.fines[i].status == Paid ==> Settled(s'.payments, i) >= 1)
    {
      OtherKeepsFine(rules, s, step, i);
    }
  }

  lemma OtherTellsNoPayment(rules: Rules, s: State, step: Step, i: nat)
    requires !step.Pay? && !step.Webhook?
    ensures var s' := Apply(rules, s, step); s'.payments == s.payments && PaidEvents(s'.outbox, i) == PaidEvents(s.outbox, i)
  {
    var s' := Apply(rules, s, step);
    if |s'.outbox| > |s.outbox| { assert s'.outbox[..|s.outbox|] == s.outbox; }
  }

  lemma OtherUnpays(rules: Rules, s: State, step: Step, i: nat)
    requires !step.Pay? && !step.Webhook? && i < |Apply(rules, s, step).fines|
    ensures Apply(rules, s, step).fines[i].status == Paid ==> i < |s.fines| && s.fines[i].status == Paid
  {
  }

  lemma OtherKeepsFine(rules: Rules, s: State, step: Step, i: nat)
    requires PaymentsOk(s) && EventsFit(s) && !step.Pay? && !step.Webhook?
    requires i < |Apply(rules, s, step).fines|
    ensures var s' := Apply(rules, s, step);
      Conserved(s', i) && (s'.fines[i].status == Paid ==> Settled(s'.payments, i) >= 1)
  {
    OtherTellsNoPayment(rules, s, step, i);
    OtherUnpays(rules, s, step, i);
    if i < |s.fines| { assert Conserved(s, i); } else { NoRowsForNewFine(s.payments, s.outbox, i); }
  }

  /** Over every interleaving with unique references: for each fine the paid events are as many as the settled payments,
      these add up to the amount times their number, and a paid fine has at least one. */
  lemma {:induction false} PaymentConservation(rules: Rules, steps: seq<Step>)
    requires Legal(rules, steps) && FreshRefs(rules, steps)
    ensures var s := Run(rules, steps);
      && PaymentsOk(s) && EventsFit(s)
      && forall i :: 0 <= i < |s.fines| ==> SettledSum(s.payments, i) == s.fines[i].amount * PaidEvents(s.outbox, i)
  {
    var t := Run(rules, steps);
    if steps != [] {
      var s, step := Run(rules, steps[..|steps| - 1]), steps[|steps| - 1];
      PaymentConservation(rules, steps[..|steps| - 1]);
      match step {
        case Pay(i, ref, ok) => PayKeeps(rules, s, i, ref, ok);
        case Webhook(ref, row) => WebhookKeeps(rules, s, ref, row);
        case _ => OtherKeeps(rules, s, step);
      }
    }
    forall i | 0 <= i < |t.fines| ensures SettledSum(t.payments, i) == t.fines[i].amount * PaidEvents(t.outbox, i) {
      assert Conserved(t, i);
      SumFits(t, t.payments, i);
    }
  }

  /** A settled payment row of the fine with this reference. */
  predicate SettledRow(ps: seq<Payment>, fine: nat, ref: string) {
    exists k :: 0 <= k < |ps| && ps[k].fine == fine && ps[k].ref == ref && ps[k].settled
  }

  /** Payment rows carry the amount of their fine, and so does every paid event, which names one that is settled. */
  predicate Priced(s: State) {
    && PaymentsFit(s)
    && forall k :: 0 <= k < |s.outbox| && s.outbox[k].FinePaid? ==>
         var e := s.outbox[k];
         e.fine < |s.fines| && e.amount == s.fines[e.fine].amount && SettledRow(s.payments, e.fine, e.ref)
  }

  lemma RowsStay(rules: Rules, s: State, step: Step, fine: nat, ref: string)
    requires SettledRow(s.payments, fine, ref)
    ensures SettledRow(Apply(rules, s, step).payments, fine, ref)
  {
    var k :| 0 <= k < |s.payments| && s.payments[k].fine == fine && s.payments[k].ref == ref && s.payments[k].settled;
    RowStep(rules, s, step, k);
  }

  lemma StillFits(rules: Rules, s: State, step: Step)
    requires PaymentsFit(s)
    ensures PaymentsFit(Apply(rules, s, step))
  {
    var t := Apply(rules, s, step);
    forall k | 0 <= k < |t.payments|
      ensures t.payments[k].fine < |t.fines| && t.payments[k].amount == t.fines[t.payments[k].fine].amount
    {
      if k < |s.payments| { FinesKeepIdentity(rules, s, step, s.payments[k].fine); }
      if step.Pay? && k == |s.payments| { FinesKeepIdentity(rules, s, step, step.fine); }
    }
  }

  /** What the step itself tells. */
  lemma NewlyPriced(rules: Rules, s: State, step: Step, k: nat)
    requires Priced(s) && (step.Webhook? ==> FoundRow(s, step.ref, step.row))
    requires var t := Apply(rules, s, step); |s.outbox| <= k < |t.outbox| && t.outbox[k].FinePaid?
    ensures var t := Apply(rules, s, step);
      var e := t.outbox[k];
      e.fine < |t.fines| && e.amount == t.fines[e.fine].amount && SettledRow(t.payments, e.fine, e.ref)
  {
    var t := Apply(rules, s, step);
    if step.Pay? {
      assert t.payments[|s.payments|].settled;
    } else {
      assert t.payments[step.row.value].settled && t.payments[step.row.value].ref == step.ref;
    }
  }

  lemma PricedStep(rules: Rules, s: State, step: Step)
    requires Priced(s) && (step.Webhook? ==> FoundRow(s, step.ref, step.row))
    ensures Priced(Apply(rules, s, step))
  {
    var t := Apply(rules, s, step);
    StillFits(rules, s, step);
    forall k | 0 <= k < |t.outbox| && t.outbox[k].FinePaid?
      ensures var e := t.outbox[k];
        e.fine < |t.fines| && e.amount == t.fines[e.fine].amount && SettledRow(t.payments, e.fine, e.ref)
    {
      if k < |s.outbox| {
        assert t.outbox[k] == s.outbox[k];
        FinesKeepIdentity(rules, s, step, t.outbox[k].fine);
        RowsStay(rules, s, step, t.outbox[k].fine, t.outbox[k].ref);
      } else {
        NewlyPriced(rules, s, step, k);
      }
    }
  }

  /** On every run, and without any assumption on references: every payment row and every paid event carries its fine's own
      amount, and every paid event names a settled row of that fine with its reference. */
  lemma {:induction false} EventsNamePayments(rules: Rules, steps: seq<Step>)
    requires Legal(rules, steps)
    ensures Priced(Run(rules, steps))
  {
    if steps != [] {
      EventsNamePayments(rules, steps[..|steps| - 1]);
      PricedStep(rules, Run(rules, steps[..|steps| - 1]), steps[|steps| - 1]);
    }
  }

  /** An effective webhook settles one row of the fine it pays and none of any other. */
  predicate SettlesOne(s: State, step: Step) {
    step.Webhook? && Effective(s, step.row) ==>
      forall i :: 0 <= i < |s.fines| ==>
        Unsettled(s.payments, step.ref, i) == (if s.payments[step.row.value].fine == i then 1 else 0)
  }

  predicate AllConserved(s: State) {
    forall i :: 0 <= i < |s.fines| ==> Conserved(s, i)
  }

  /** Payments and paid events name existing fines. */
  predicate Named(s: State) {
    (forall k :: 0 <= k < |s.payments| ==> s.payments[k].fine < |s.fines|) && EventsFit(s)
  }

  lemma NamedStep(rules: Rules, s: State, step: Step)
    requires Named(s)
    ensures Named(Apply(rules, s, step))
  {
  }

  lemma PayConserves(rules: Rules, s: State, step: Step, i: nat)
    requires step.Pay? && i < |s.fines|
    ensures Conserved(Apply(rules, s, step), i) <==> Conserved(s, i)
  {
    var s' := Apply(rules, s, step);
    if step.fine < |s.fines| {
      assert s'.payments[..|s.payments|] == s.payments;
      if step.succeeded { assert s'.outbox[..|s.outbox|] == s.outbox; }
    }
  }

  lemma OtherConserves(rules: Rules, s: State, step: Step, i: nat)
    requires Named(s) && AllConserved(s) && !step.Pay? && !step.Webhook? && i < |Apply(rules, s, step).fines|
    ensures Conserved(Apply(rules, s, step), i)
  {
    OtherTellsNoPayment(rules, s, step, i);
    if i < |s.fines| { assert Conserved(s, i); } else { NoRowsForNewFine(s.payments, s.outbox, i); }
  }

  lemma ConservedStep(rules: Rules, s: State, step: Step)
    requires Named(s) && AllConserved(s)
    ensures AllConserved(Apply(rules, s, step)) <==> SettlesOne(s, step)
  {
    var s' := Apply(rules, s, step);
    match step
    case Pay(_, _, _) => forall i | 0 <= i < |s.fines| ensures Conserved(s', i) { PayConserves(rules, s, step, i); }
    case Webhook(ref, row) =>
      if Effective(s, row) {
        forall i | 0 <= i < |s.fines|
          ensures Conserved(s', i) <==> Unsettled(s.payments, ref, i) == (if s.payments[row.value].fine == i then 1 else 0)
        {
          assert Conserved(s, i);
          WebhookConserves(rules, s, ref, row.value, i);
        }
      }
    case _ => forall i | 0 <= i < |s'.fines| ensures Conserved(s', i) { OtherConserves(rules, s, step, i); }
  }

  predicate AlwaysConserved(rules: Rules, steps: seq<Step>) {
    AllConserved(Run(rules, steps)) && (steps == [] || AlwaysConserved(rules, steps[..|steps| - 1]))
  }

  predicate AlwaysSettlesOne(rules: Rules, steps: seq<Step>) {
    steps == [] || (AlwaysSettlesOne(rules, steps[..|steps| - 1])
                    && SettlesOne(Run(rules, steps[..|steps| - 1]), steps[|steps| - 1]))
  }

  lemma {:induction false} RunNamed(rules: Rules, steps: seq<Step>)
    ensures Named(Run(rules, steps))
  {
    if steps != [] {
      RunNamed(rules, steps[..|steps| - 1]);
      NamedStep(rules, Run(rules, steps[..|steps| - 1]), steps[|steps| - 1]);
    }
  }

  /** Without any assumption on references: all through a run every fine has as many paid events as settled payments if and
      only if every webhook that acts settles exactly one unsettled row. */
  lemma {:induction false} ConservedExactly(rules: Rules, steps: seq<Step>)
    ensures AlwaysConserved(rules, steps) <==> AlwaysSettlesOne(rules, steps)
  {
    if steps != [] {
      var before := steps[..|steps| - 1];
      ConservedExactly(rules, before);
      RunNamed(rules, before);
      if AlwaysConserved(rules, before) {
        assert AllConserved(Run(rules, before));
        ConservedStep(rules, Run(rules, before), steps[|steps| - 1]);
      }
    }
  }

  predicate RefSettled(ps: seq<Payment>, ref: string) {
    forall k :: 0 <= k < |ps| && ps[k].ref == ref ==> ps[k].settled
  }

  /** After a webhook that acted, every replay, at any later time, changes nothing. */
  lemma ReplayChangesNothing(rules: Rules, steps: seq<Step>, m: nat, row: Option<nat>)
    requires Legal(rules, steps) && FreshRefs(rules, steps)
    requires m < |steps| && steps[m].Webhook? && Effective(Run(rules, steps[..m]), steps[m].row)
    requires FoundRow(Run(rules, steps), steps[m].ref, row)
    ensures Apply(rules, Run(rules, steps), Webhook(steps[m].ref, row)) == Run(rules, steps)
  {
    StaysSettled(rules, steps, m);
  }

  /** The reference has a row, and all its rows are settled. */
  predicate SettledRef(ps: seq<Payment>, ref: string) {
    RefSettled(ps, ref) && exists k :: 0 <= k < |ps| && ps[k].ref == ref
  }

  lemma SettledStep(rules: Rules, s: State, step: Step, ref: string)
    requires SettledRef(s.payments, ref)
    requires step.Pay? ==> forall k :: 0 <= k < |s.payments| ==> s.payments[k].ref != step.ref
    ensures SettledRef(Apply(rules, s, step).payments, ref)
  {
    var k :| 0 <= k < |s.payments| && s.payments[k].ref == ref;
    RowStep(rules, s, step, k);
    var ps := Apply(rules, s, step).payments;
    forall j | 0 <= j < |ps| && ps[j].ref == ref ensures ps[j].settled {
      if j < |s.payments| { RowStep(rules, s, step, j); }
    }
  }

  lemma {:induction false} StaysSettled(rules: Rules, steps: seq<Step>, m: nat)
    requires Legal(rules, steps) && FreshRefs(rules, steps)
    requires m < |steps| && steps[m].Webhook? && Effective(Run(rules, steps[..m]), steps[m].row)
    ensures SettledRef(Run(rules, steps).payments, steps[m].ref)
  {
    var n, ref := |steps| - 1, steps[m].ref;
    var s := Run(rules, steps[..n]);
    var ps := Run(rules, steps).payments;
    if m == n {
      assert FoundRow(s, ref, steps[m].row);
      assert ps[steps[m].row.value].ref == ref;
    } else {
      assert steps[..n][..m] == steps[..m] && steps[..n][m] == steps[m];
      StaysSettled(rules, steps[..n], m);
      SettledStep(rules, s, steps[n], ref);
    }
  }

  lemma RowStep(rules: Rules, s: State, step: Step, k: nat)
    requires k < |s.payments|
    ensures var p, ps := s.payments[k], Apply(rules, s, step).payments;
      k < |ps| && ps[k].ref == p.ref && ps[k].fine == p.fine && (p.settled ==> ps[k].settled)
  {
  }

  /** A payment row keeps its place, its reference and its being settled. */
  lemma {:induction false} RowStays(rules: Rules, steps: seq<Step>, all: seq<Step>, k: nat)
    requires steps <= all && k < |Run(rules, steps).payments|
    ensures var p, ps := Run(rules, steps).payments[k], Run(rules, all).payments;
      k < |ps| && ps[k].ref == p.ref && ps[k].fine == p.fine && (p.settled ==> ps[k].settled)
    decreases |all|
  {
    if |all| == |steps| {
      assert all == steps;
    } else {
      var before := all[..|all| - 1];
      RowStays(rules, steps, before, k);
      RowStep(rules, Run(rules, before), all[|all| - 1], k);
    }
  }

  /** A webhook leaves its row unsettled only if it is ignored: the row was unsettled and its fine paid. */
  lemma WebhookSettles(rules: Rules, s: State, ref: string, k: nat)
    requires PaymentsOk(s) && k < |s.payments| && s.payments[k].ref == ref
    ensures var t := Apply(rules, s, Webhook(ref, Some(k)));
      k < |t.payments| && (t.payments[k].settled <==> s.payments[k].settled || s.fines[s.payments[k].fine].status != Paid)
  {
  }

  /** Every webhook for the row's reference, at the end of every continuation, changes nothing. */
  ghost predicate ReplayHarmless(rules: Rules, steps: seq<Step>, ref: string) {
    forall rest: seq<Step>, row: Option<nat> ::
      Legal(rules, steps + rest) && FreshRefs(rules, steps + rest) && FoundRow(Run(rules, steps + rest), ref, row) ==>
        Apply(rules, Run(rules, steps + rest), Webhook(ref, row)) == Run(rules, steps + rest)
  }

  /** After a cancellation, a webhook for an unsettled row acts. */
  lemma CancelThenWebhook(rules: Rules, s: State, k: nat)
    requires PaymentsOk(s) && k < |s.payments| && !s.payments[k].settled
    ensures var p := s.payments[k];
      var t := Apply(rules, s, Cancel(p.fine));
      FoundRow(t, p.ref, Some(k)) && Apply(rules, t, Webhook(p.ref, Some(k))) != t
  {
    var p := s.payments[k];
    var t := Apply(rules, s, Cancel(p.fine));
    assert Effective(t, Some(k));
    assert |Apply(rules, t, Webhook(p.ref, Some(k))).outbox| == |t.outbox| + 1;
  }

  lemma UnsettledCanAct(rules: Rules, steps: seq<Step>, k: nat)
    requires Legal(rules, steps) && FreshRefs(rules, steps)
    requires k < |Run(rules, steps).payments| && !Run(rules, steps).payments[k].settled
    ensures !ReplayHarmless(rules, steps, Run(rules, steps).payments[k].ref)
  {
    var s := Run(rules, steps);
    var rest := [Cancel(s.payments[k].fine)];
    assert PaymentsOk(s) by { PaymentConservation(rules, steps); }
    CancelThenWebhook(rules, s, k);
    RunOneMore(rules, steps, rest[0]);
    assert (steps + rest)[..|steps|] == steps;
    assert Legal(rules, steps + rest) && FreshRefs(rules, steps + rest);
  }

  lemma OnlyRow(s: State, ref: string, k: nat, row: Option<nat>)
    requires UniqueRefs(s.payments) && k < |s.payments| && s.payments[k].ref == ref && FoundRow(s, ref, row)
    ensures row == Some(k)
  {
  }

  lemma SettledIgnores(rules: Rules, steps: seq<Step>, all: seq<Step>, k: nat, row: Option<nat>)
    requires steps <= all && Legal(rules, all) && FreshRefs(rules, all)
    requires k < |Run(rules, steps).payments| && Run(rules, steps).payments[k].settled
    requires FoundRow(Run(rules, all), Run(rules, steps).payments[k].ref, row)
    ensures Apply(rules, Run(rules, all), Webhook(Run(rules, steps).payments[k].ref, row)) == Run(rules, all)
  {
    var ref, t := Run(rules, steps).payments[k].ref, Run(rules, all);
    RowStays(rules, steps, all, k);
    assert UniqueRefs(t.payments) by { PaymentConservation(rules, all); }
    OnlyRow(t, ref, k, row);
  }

  /** Once a reference has a row: every later webhook for it, on every continuation, changes nothing if and only if the row
      is settled now. */
  lemma ReplayNeedsSettled(rules: Rules, steps: seq<Step>, k: nat)
    requires Legal(rules, steps) && FreshRefs(rules, steps) && k < |Run(rules, steps).payments|
    ensures var p := Run(rules, steps).payments[k]; ReplayHarmless(rules, steps, p.ref) <==> p.settled
  {
    var p := Run(rules, steps).payments[k];
    if p.settled {
      forall rest: seq<Step>, row: Option<nat> |
        Legal(rules, steps + rest) && FreshRefs(rules, steps + rest) && FoundRow(Run(rules, steps + rest), p.ref, row)
        ensures Apply(rules, Run(rules, steps + rest), Webhook(p.ref, row)) == Run(rules, steps + rest)
      {
        SettledIgnores(rules, steps, steps + rest, k, row);
      }
    } else {
      UnsettledCanAct(rules, steps, k);
    }
  }

  // ─── What does not hold ──────────────────────────────────────────────────────

  const ROW := Payment(0, 100, "pi", false)

  lemma TwoIntents()
    ensures var s := Run(RULES, [Issue(TICKET)] + [Pay(0, "pi", false)] + [Pay(0, "pi", false)]);
      s.payments == [ROW, ROW] && s.outbox == [FineIssued(0)] && |s.fines| == 1 && s.fines[0].status == Issued
  {
    FirstFine();
    RunOneMore(RULES, [Issue(TICKET)], Pay(0, "pi", false));
    RunOneMore(RULES, [Issue(TICKET)] + [Pay(0, "pi", false)], Pay(0, "pi", false));
  }

  lemma TwoRowsUnsettled()
    ensures Settled([ROW, ROW], 0) == 0 && Unsettled([ROW, ROW], "pi", 0) == 2 && PaidEvents([FineIssued(0)], 0) == 0
  {
    var one, two := [ROW], [ROW, ROW];
    assert one[..0] == [] && two[..1] == one && [FineIssued(0)][..0] == [];
    assert Settled(one, 0) == 0 && Unsettled(one, "pi", 0) == 1;
  }

  /** `handlePay` sends one idempotency key per fine, so a provider may answer twice with one intent id; the webhook then
      settles both rows and tells one payment. */
  lemma RepeatedIntentBreaksConservation()
    ensures var s := Run(RULES, [Issue(TICKET)] + [Pay(0, "pi", false)] + [Pay(0, "pi", false)] + [Webhook("pi", Some(0))]);
      PaidEvents(s.outbox, 0) == 1 && Settled(s.payments, 0) == 2
  {
    var steps := [Issue(TICKET)] + [Pay(0, "pi", false)] + [Pay(0, "pi", false)];
    var s := Run(RULES, steps);
    RunOneMore(RULES, steps, Webhook("pi", Some(0)));
    TwoIntents();
    TwoRowsUnsettled();
    SettleCounts(s.payments, "pi", 0);
    PaidEventsAppend(s.outbox, FinePaid(0, 100, "pi"), 0);
  }

  lemma PaidEventsAppend(outbox: seq<Event>, e: Event, i: nat)
    ensures PaidEvents(outbox + [e], i) == PaidEvents(outbox, i) + (if e.FinePaid? && e.fine == i then 1 else 0)
  {
    assert (outbox + [e])[..|outbox|] == outbox;
  }

  /** A webhook ignored because the fine was already paid acts when it is replayed after a cancellation. */
  lemma IgnoredWebhookActsLater(rules: Rules, s: State, ref: string, k: nat)
    requires k < |s.payments| && s.payments[k].ref == ref && !s.payments[k].settled
    requires s.payments[k].fine < |s.fines| && s.fines[s.payments[k].fine].status == Paid
    ensures var i, w := s.payments[k].fine, Webhook(ref, Some(k));
      && Apply(rules, s, w) == s
      && Apply(rules, Apply(rules, s, Cancel(i)), w).fines[i].status == Paid
      && |Apply(rules, Apply(rules, s, Cancel(i)), w).outbox| == |s.outbox| + 2
  {
    var i := s.payments[k].fine;
    assert Effective(Apply(rules, s, Cancel(i)), Some(k));
  }

  /** Such a state is reachable: one intent left pending, a second one succeeding at once. */
  lemma PaidBesidePendingIntent()
    ensures var s := Run(RULES, [Issue(TICKET)] + [Pay(0, "a", false)] + [Pay(0, "b", true)]);
      s.payments == [Payment(0, 100, "a", false), Payment(0, 100, "b", true)] && |s.fines| == 1 && s.fines[0].status == Paid
  {
    FirstFine();
    RunOneMore(RULES, [Issue(TICKET)], Pay(0, "a", false));
    RunOneMore(RULES, [Issue(TICKET)] + [Pay(0, "a", false)], Pay(0, "b", true));
  }
}
