/** The fines table, shared by the handlers, the escalation engine and the evidence reaper. */
module FineRecords {
  import opened Prelude

  datatype Status = Issued | Warned | Overdue | Paid | Disputed | Seized | Court | Cancelled

  /** Amounts are in minor units, times in seconds; the vehicle is None for an unknown plate. */
  datatype Fine = Fine(
    tenant: string, vehicle: Option<nat>, offence: string, amount: int,
    status: Status, stage: nat, issuedAt: int, dueAt: int, paidAt: Option<int>)

  /** status NOT IN ('paid','cancelled','disputed') */
  predicate Escalates(s: Status) {
    s != Paid && s != Cancelled && s != Disputed
  }
}
