/** Citizen-to-citizen vehicle transfer: start, accept by code, cancel, expire.

    One tenant, as row-level security shows it to the handlers. Owners, vehicles and
    transfers are numbered; times are in seconds. Reassignment by an administrator is not
    part of this model. */
module VehicleTransfers {
  import opened Prelude

  const TTL := 7 * 24 * 60 * 60
  const RETRIES: nat := 5
  const CODE_LEN: nat := 6
  const ALPHABET := "ABCDEFGHJKLMNPQRSTUVWXYZ23456789"

  datatype Status = Pending | Accepted | Cancelled | Expired

  datatype Vehicle = Vehicle(owner: nat, stolen: bool, seized: bool, wanted: bool)

  datatype Transfer = Transfer(
    vehicle: nat, fromOwner: nat, toOwner: Option<nat>, code: string, status: Status, expiresAt: int)

  datatype Moved = Moved(vehicle: nat, fromOwner: nat, toOwner: nat)

  /** `owners` maps a user to the owner row he claimed; `first` remembers each vehicle's first owner. */
  datatype State = State(
    owners: map<nat, nat>, vehicles: seq<Vehicle>, first: seq<nat>,
    transfers: seq<Transfer>, events: seq<Moved>, now: int)

  datatype StartResult = Missing | Forbidden | NotTransferable | Open | NoCode | Started(id: nat, code: string)
  datatype AcceptResult = NoCodeGiven | OwnerRequired | NotFound | Gone | SelfTransfer | Failed | Blocked | Done(vehicle: nat)

  predicate Flagged(v: Vehicle) {
    v.stolen || v.seized || v.wanted
  }

  predicate IsOpen(ts: seq<Transfer>, vehicle: nat) {
    exists i :: 0 <= i < |ts| && ts[i].status == Pending && ts[i].vehicle == vehicle
  }

  /** The partial unique index on codes rejects a code that a pending transfer uses. */
  predicate CodeTaken(ts: seq<Transfer>, code: string) {
    exists i :: 0 <= i < |ts| && ts[i].status == Pending && ts[i].code == code
  }

  function FreshCode(ts: seq<Transfer>, codes: seq<string>): Option<string> {
    if codes == [] then None
    else if !CodeTaken(ts, codes[0]) then Some(codes[0])
    else FreshCode(ts, codes[1..])
  }

  function FindPending(ts: seq<Transfer>, code: string): (r: Option<nat>)
    ensures r.Some? ==> r.value < |ts| && ts[r.value].status == Pending && ts[r.value].code == code
    ensures r.None? ==> !CodeTaken(ts, code)
  {
    if ts == [] then None
    else
      var n := |ts| - 1;
      if ts[n].status == Pending && ts[n].code == code then Some(n) else FindPending(ts[..n], code)
  }

  function StartOutcome(s: State, user: nat, vehicle: nat, contact: string, codes: seq<string>): StartResult {
    if contact == "" then Missing
    else if vehicle >= |s.vehicles| || user !in s.owners || s.owners[user] != s.vehicles[vehicle].owner then Forbidden
    else if Flagged(s.vehicles[vehicle]) then NotTransferable
    else if IsOpen(s.transfers, vehicle) then Open
    else match FreshCode(s.transfers, codes)
      case None => NoCode
      case Some(code) => Started(|s.transfers|, code)
  }

  function AcceptOutcome(s: State, user: nat, code: string): AcceptResult {
    if code == "" then NoCodeGiven
    else if user !in s.owners then OwnerRequired
    else match FindPending(s.transfers, code)
      case None => NotFound
      case Some(i) =>
        var t := s.transfers[i];
        if s.now > t.expiresAt then Gone
        else if s.owners[user] == t.fromOwner then SelfTransfer
        else if t.vehicle >= |s.vehicles| then Failed
        else if Flagged(s.vehicles[t.vehicle]) then Blocked
        else Done(t.vehicle)
  }

  datatype Step =
    | Start(user: nat, vehicle: nat, contact: string, codes: seq<string>)
    | Accept(user: nat, code: string)
    | Cancel(user: nat, id: nat)
    | Claim(user: nat, owner: nat)
    | Flag(vehicle: nat, stolen: bool, seized: bool, wanted: bool)
    | Wait(seconds: nat)

  predicate Cancellable(s: State, user: nat, id: nat) {
    && id < |s.transfers| && s.transfers[id].status == Pending
    && user in s.owners && s.owners[user] == s.transfers[id].fromOwner
  }

  function Close(s: State, i: nat, status: Status): State
    requires i < |s.transfers|
  {
    s.(transfers := s.transfers[i := s.transfers[i].(status := status)])
  }

  function Apply(s: State, step: Step): State {
    match step
    case Start(user, vehicle, contact, codes) =>
      var r := StartOutcome(s, user, vehicle, contact, codes);
      if r.Started?
      then s.(transfers := s.transfers +
                [Transfer(vehicle, s.owners[user], None, r.code, Pending, s.now + TTL)])
      else s
    case Accept(user, code) =>
      (match AcceptOutcome(s, user, code)
       case Gone => Close(s, FindPending(s.transfers, code).value, Expired)
       case Blocked => Close(s, FindPending(s.transfers, code).value, Cancelled)
       case Done(v) =>
         var i, to := FindPending(s.transfers, code).value, s.owners[user];
         var t := s.transfers[i];
         s.(vehicles := s.vehicles[v := s.vehicles[v].(owner := to)],
            transfers := s.transfers[i := t.(status := Accepted, toOwner := Some(to))],
            events := s.events + [Moved(v, t.fromOwner, to)])
       case _ => s)
    case Cancel(user, id) => if Cancellable(s, user, id) then Close(s, id, Cancelled) else s
    case Claim(user, owner) => if user in s.owners then s else s.(owners := s.owners[user := owner])
    case Flag(v, stolen, seized, wanted) =>
      if v >= |s.vehicles| then s
      else s.(vehicles := s.vehicles[v := Vehicle(s.vehicles[v].owner, stolen, seized, wanted)])
    case Wait(seconds) => s.(now := s.now + seconds)
  }

  /** randomCode: 32 letters divide 256, so every letter is hit by the same number of byte values. */
  method RandomCode(bytes: array<int>) returns (code: string)
    requires bytes.Length == CODE_LEN && forall i :: 0 <= i < CODE_LEN ==> 0 <= bytes[i] < 256
    ensures |code| == CODE_LEN
    ensures forall i :: 0 <= i < CODE_LEN ==> code[i] == ALPHABET[bytes[i] % |ALPHABET|]
  {
    var out := new char[CODE_LEN];
    var i := 0;
    while i < CODE_LEN
      invariant i <= CODE_LEN
      invariant forall k :: 0 <= k < i ==> out[k] == ALPHABET[bytes[k] % |ALPHABET|]
    {
      out[i] := ALPHABET[bytes[i] % |ALPHABET|];
      i := i + 1;
    }
    code := out[..];
  }

  class Registry {
    var owners: map<nat, nat>
    var vehicles: seq<Vehicle>
    var first: seq<nat>
    var transfers: seq<Transfer>
    var events: seq<Moved>
    var now: int

    function Now(): State
      reads this
    {
      State(owners, vehicles, first, transfers, events, now)
    }

    constructor (vehicles: seq<Vehicle>)
      ensures Now() == Initial(vehicles)
    {
      this.owners, this.vehicles, this.first := map[], vehicles, Owners(vehicles);
      this.transfers, this.events, this.now := [], [], 0;
    }

    method StartTransfer(user: nat, vehicle: nat, contact: string, codes: seq<string>) returns (r: StartResult)
      requires |codes| == RETRIES
      modifies this`transfers
      ensures r == StartOutcome(old(Now()), user, vehicle, contact, codes)
      ensures Now() == Apply(old(Now()), Start(user, vehicle, contact, codes))
    {
      if contact == "" {
        return Missing;
      }
      if vehicle >= |vehicles| || user !in owners || owners[user] != vehicles[vehicle].owner {
        return Forbidden;
      }
      var v := vehicles[vehicle];
      if v.stolen || v.seized || v.wanted {
        return NotTransferable;
      }
      if IsOpen(transfers, vehicle) {
        return Open;
      }
      var i := 0;
      while i < RETRIES
        invariant i <= RETRIES && transfers == old(transfers)
        invariant FreshCode(transfers, codes) == FreshCode(transfers, codes[i..])
      {
        var code := codes[i];
        if !CodeTaken(transfers, code) {
          var id := |transfers|;
          transfers := transfers + [Transfer(vehicle, owners[user], None, code, Pending, now + TTL)];
          return Started(id, code);
        }
        assert codes[i..][1..] == codes[i + 1..];
        i := i + 1;
      }
      r := NoCode;
    }

    method AcceptTransfer(user: nat, code: string) returns (r: AcceptResult)
      modifies this`transfers, this`vehicles, this`events
      ensures r == AcceptOutcome(old(Now()), user, code)
      ensures Now() == Apply(old(Now()), Accept(user, code))
    {
      if code == "" {
        return NoCodeGiven;
      }
      if user !in owners {
        return OwnerRequired;
      }
      var buyer := owners[user];
      var found := FindPending(transfers, code);
      if found.None? {
        return NotFound;
      }
      var i := found.value;
      var t := transfers[i];
      if now > t.expiresAt {
        transfers := transfers[i := t.(status := Expired)];
        return Gone;
      }
      if buyer == t.fromOwner {
        return SelfTransfer;
      }
      if t.vehicle >= |vehicles| {
        return Failed;
      }
      var v := vehicles[t.vehicle];
      if v.stolen || v.seized || v.wanted {
        transfers := transfers[i := t.(status := Cancelled)];
        return Blocked;
      }
      vehicles := vehicles[t.vehicle := v.(owner := buyer)];
      transfers := transfers[i := t.(status := Accepted, toOwner := Some(buyer))];
      events := events + [Moved(t.vehicle, t.fromOwner, buyer)];
      r := Done(t.vehicle);
    }

    method CancelTransfer(user: nat, id: nat) returns (ok: bool)
      modifies this`transfers
      ensures ok == Cancellable(old(Now()), user, id)
      ensures Now() == Apply(old(Now()), Cancel(user, id))
    {
      ok := id < |transfers| && transfers[id].status == Pending
        && user in owners && owners[user] == transfers[id].fromOwner;
      if ok {
        transfers := transfers[id := transfers[id].(status := Cancelled)];
      }
    }
  }

  // ─── Every run ───────────────────────────────────────────────────────────────

  function Owners(vehicles: seq<Vehicle>): (owners: seq<nat>)
    ensures |owners| == |vehicles| && forall v :: 0 <= v < |vehicles| ==> owners[v] == vehicles[v].owner
  {
    seq(|vehicles|, v requires 0 <= v < |vehicles| => vehicles[v].owner)
  }

  function Initial(vehicles: seq<Vehicle>): State {
    State(map[], vehicles, Owners(vehicles), [], [], 0)
  }

  function Run(s: State, steps: seq<Step>): State
    decreases |steps|
  {
    if steps == [] then s else Run(Apply(s, steps[0]), steps[1..])
  }

  /** The changes of owner of one vehicle, as the outbox tells them. */
  function Told(events: seq<Moved>, vehicle: nat): seq<(nat, nat)> {
    if events == [] then []
    else
      var n := |events| - 1;
      Told(events[..n], vehicle)
      + (if events[n].vehicle == vehicle then [(events[n].fromOwner, events[n].toOwner)] else [])
  }

  /** The same, as the accepted transfers record them in creation order. */
  function Recorded(ts: seq<Transfer>, vehicle: nat): seq<(nat, nat)> {
    if ts == [] then []
    else
      var n := |ts| - 1;
      Recorded(ts[..n], vehicle)
      + (if ts[n].vehicle == vehicle && ts[n].status == Accepted && ts[n].toOwner.Some?
         then [(ts[n].fromOwner, ts[n].toOwner.value)] else [])
  }

  /** Each change starts where the previous one ended. */
  predicate Linked(first: nat, path: seq<(nat, nat)>, last: nat) {
    if path == [] then first == last
    else
      var n := |path| - 1;
      path[n].1 == last && path[n].0 != last && Linked(first, path[..n], path[n].0)
  }

  /** At most one pending transfer per vehicle, made by its current owner, with no newer one; codes distinct. */
  predicate PendingOk(s: State) {
    forall i :: 0 <= i < |s.transfers| && s.transfers[i].status == Pending ==>
      && s.transfers[i].vehicle < |s.vehicles|
      && s.transfers[i].fromOwner == s.vehicles[s.transfers[i].vehicle].owner
      && forall j :: i < j < |s.transfers| ==>
           && s.transfers[j].vehicle != s.transfers[i].vehicle
           && (s.transfers[j].status == Pending ==> s.transfers[j].code != s.transfers[i].code)
  }

  predicate HistoryOk(s: State) {
    && |s.first| == |s.vehicles|
    && forall v :: 0 <= v < |s.vehicles| ==>
         Linked(s.first[v], Told(s.events, v), s.vehicles[v].owner) && Recorded(s.transfers, v) == Told(s.events, v)
  }

  predicate Inv(s: State) {
    PendingOk(s) && HistoryOk(s)
  }

  /** Closing a transfer without accepting it records nothing. */
  lemma {:induction false} RecordedClose(ts: seq<Transfer>, i: nat, status: Status, vehicle: nat)
    requires i < |ts| && ts[i].status == Pending && status != Accepted
    ensures Recorded(ts[i := ts[i].(status := status)], vehicle) == Recorded(ts, vehicle)
  {
    var n, out := |ts| - 1, ts[i := ts[i].(status := status)];
    if i == n {
      assert out[..n] == ts[..n];
    } else {
      RecordedClose(ts[..n], i, status, vehicle);
      assert out[..n] == ts[..n][i := ts[i].(status := status)];
    }
  }

  /** Accepting the newest transfer of a vehicle appends to its record and leaves the other records alone. */
  lemma {:induction false} RecordedAccept(ts: seq<Transfer>, i: nat, to: nat, vehicle: nat)
    requires i < |ts| && ts[i].status == Pending
    requires forall j :: i < j < |ts| ==> ts[j].vehicle != ts[i].vehicle
    ensures Recorded(ts[i := ts[i].(status := Accepted, toOwner := Some(to))], vehicle)
         == if ts[i].vehicle == vehicle then Recorded(ts, vehicle) + [(ts[i].fromOwner, to)] else Recorded(ts, vehicle)
  {
    var n, t := |ts| - 1, ts[i].(status := Accepted, toOwner := Some(to));
    var out := ts[i := t];
    if i == n {
      assert out[..n] == ts[..n];
    } else {
      RecordedAccept(ts[..n], i, to, vehicle);
      assert out[..n] == ts[..n][i := t];
    }
  }

  lemma LinkedOn(first: nat, path: seq<(nat, nat)>, last: nat, to: nat)
    requires Linked(first, path, last) && to != last
    ensures Linked(first, path + [(last, to)], to)
  {
    assert (path + [(last, to)])[..|path|] == path;
  }

  lemma ToldOneMore(events: seq<Moved>, m: Moved, vehicle: nat)
    ensures Told(events + [m], vehicle)
         == if m.vehicle == vehicle then Told(events, vehicle) + [(m.fromOwner, m.toOwner)] else Told(events, vehicle)
  {
    assert (events + [m])[..|events|] == events;
  }

  /** What an accepted transfer changes. */
  lemma AcceptChanges(s: State, user: nat, code: string) returns (i: nat)
    requires AcceptOutcome(s, user, code).Done?
    ensures user in s.owners && i < |s.transfers| && s.transfers[i].status == Pending
    ensures var t, to, s' := s.transfers[i], s.owners[user], Apply(s, Accept(user, code));
      && t.vehicle < |s.vehicles| && to != t.fromOwner && s'.first == s.first
      && s'.vehicles == s.vehicles[t.vehicle := s.vehicles[t.vehicle].(owner := to)]
      && s'.transfers == s.transfers[i := t.(status := Accepted, toOwner := Some(to))]
      && s'.events == s.events + [Moved(t.vehicle, t.fromOwner, to)]
  {
    i := FindPending(s.transfers, code).value;
  }

  /** The accepted transfer was the newest of its vehicle and came from its owner. */
  lemma MoveHistory(s: State, s': State, i: nat, to: nat, v: nat)
    requires Inv(s) && i < |s.transfers| && s.transfers[i].status == Pending && to != s.transfers[i].fromOwner
    requires s'.transfers == s.transfers[i := s.transfers[i].(status := Accepted, toOwner := Some(to))]
    requires s'.events == s.events + [Moved(s.transfers[i].vehicle, s.transfers[i].fromOwner, to)]
    requires v < |s.vehicles|
    ensures Recorded(s'.transfers, v) == Told(s'.events, v)
    ensures Linked(s.first[v], Told(s'.events, v), if v == s.transfers[i].vehicle then to else s.vehicles[v].owner)
  {
    var t := s.transfers[i];
    RecordedAccept(s.transfers, i, to, v);
    ToldOneMore(s.events, Moved(t.vehicle, t.fromOwner, to), v);
    if v == t.vehicle {
      LinkedOn(s.first[v], Told(s.events, v), t.fromOwner, to);
    }
  }

  lemma AcceptKeeps(s: State, user: nat, code: string)
    requires Inv(s) && AcceptOutcome(s, user, code).Done?
    ensures Inv(Apply(s, Accept(user, code)))
  {
    var i := AcceptChanges(s, user, code);
    MoveKeeps(s, Apply(s, Accept(user, code)), i, s.owners[user]);
  }

  lemma MoveKeeps(s: State, s': State, i: nat, to: nat)
    requires Inv(s) && i < |s.transfers| && s.transfers[i].status == Pending && to != s.transfers[i].fromOwner
    requires s.transfers[i].vehicle < |s.vehicles| && s'.first == s.first
    requires var v := s.transfers[i].vehicle; s'.vehicles == s.vehicles[v := s.vehicles[v].(owner := to)]
    requires s'.transfers == s.transfers[i := s.transfers[i].(status := Accepted, toOwner := Some(to))]
    requires s'.events == s.events + [Moved(s.transfers[i].vehicle, s.transfers[i].fromOwner, to)]
    ensures Inv(s')
  {
    forall v | 0 <= v < |s.vehicles|
      ensures Linked(s.first[v], Told(s'.events, v), s'.vehicles[v].owner)
      ensures Recorded(s'.transfers, v) == Told(s'.events, v)
    {
      MoveHistory(s, s', i, to, v);
    }
  }

  lemma CloseKeeps(s: State, i: nat, status: Status)
    requires Inv(s) && i < |s.transfers| && s.transfers[i].status == Pending
    requires status == Cancelled || status == Expired
    ensures Inv(Close(s, i, status))
  {
    forall v | 0 <= v < |s.vehicles|
      ensures Recorded(Close(s, i, status).transfers, v) == Recorded(s.transfers, v)
    {
      RecordedClose(s.transfers, i, status, v);
    }
  }

  lemma {:induction false} FreshCodeIsFree(ts: seq<Transfer>, codes: seq<string>)
    ensures FreshCode(ts, codes).Some? ==> !CodeTaken(ts, FreshCode(ts, codes).value)
  {
    if codes != [] { FreshCodeIsFree(ts, codes[1..]); }
  }

  lemma StartKeeps(s: State, user: nat, vehicle: nat, contact: string, codes: seq<string>)
    requires Inv(s)
    ensures Inv(Apply(s, Start(user, vehicle, contact, codes)))
  {
    var s' := Apply(s, Start(user, vehicle, contact, codes));
    if s' != s {
      FreshCodeIsFree(s.transfers, codes);
      assert s'.transfers[..|s.transfers|] == s.transfers;
      assert forall i :: 0 <= i < |s.transfers| ==> s'.transfers[i] == s.transfers[i];
    }
  }

  lemma StepKeeps(s: State, step: Step)
    requires Inv(s)
    ensures Inv(Apply(s, step))
  {
    match step
    case Start(user, vehicle, contact, codes) => StartKeeps(s, user, vehicle, contact, codes);
    case Accept(user, code) =>
      match AcceptOutcome(s, user, code) {
        case Gone => CloseKeeps(s, FindPending(s.transfers, code).value, Expired);
        case Blocked => CloseKeeps(s, FindPending(s.transfers, code).value, Cancelled);
        case Done(_) => AcceptKeeps(s, user, code);
        case _ =>
      }
    case Cancel(user, id) => if Cancellable(s, user, id) { CloseKeeps(s, id, Cancelled); }
    case _ =>
  }

  lemma {:induction false} RunKeeps(s: State, steps: seq<Step>)
    requires Inv(s)
    ensures Inv(Run(s, steps))
    decreases |steps|
  {
    if steps != [] {
      StepKeeps(s, steps[0]);
      RunKeeps(Apply(s, steps[0]), steps[1..]);
    }
  }

  /** On every run a vehicle's accepted transfers, which are its events, lead from its first to its current owner. */
  lemma OwnershipChain(vehicles: seq<Vehicle>, steps: seq<Step>, v: nat)
    requires v < |vehicles|
    ensures var s := Run(Initial(vehicles), steps);
      && PendingOk(s)
      && v < |s.vehicles| && |s.first| == |s.vehicles| && s.first[v] == vehicles[v].owner
      && Recorded(s.transfers, v) == Told(s.events, v)
      && Linked(vehicles[v].owner, Recorded(s.transfers, v), s.vehicles[v].owner)
  {
    RunKeeps(Initial(vehicles), steps);
    FirstFixed(Initial(vehicles), steps);
  }

  lemma {:induction false} FirstFixed(s: State, steps: seq<Step>)
    ensures Run(s, steps).first == s.first && |Run(s, steps).vehicles| == |s.vehicles|
    decreases |steps|
  {
    if steps != [] { FirstFixed(Apply(s, steps[0]), steps[1..]); }
  }

  /** Terminal transfers never change, on any run. */
  lemma {:induction false} TerminalIsFinal(s: State, steps: seq<Step>, i: nat)
    requires i < |s.transfers| && s.transfers[i].status != Pending
    ensures var t := Run(s, steps); i < |t.transfers| && t.transfers[i] == s.transfers[i]
    decreases |steps|
  {
    if steps != [] { TerminalIsFinal(Apply(s, steps[0]), steps[1..], i); }
  }

  /** Title moves only by accepting a live code for an unflagged vehicle, and then to the caller; an expired or flagged
      transfer is closed instead. */
  lemma OwnerMovesOnlyByAccept(s: State, step: Step, v: nat)
    requires Inv(s) && v < |s.vehicles|
    ensures var s' := Apply(s, step);
      s'.vehicles[v].owner != s.vehicles[v].owner <==>
        step.Accept? && step.code != "" && step.user in s.owners && s.owners[step.user] != s.vehicles[v].owner
        && !s.vehicles[v].stolen && !s.vehicles[v].seized && !s.vehicles[v].wanted
        && exists i :: 0 <= i < |s.transfers| && s.transfers[i].status == Pending && s.transfers[i].code == step.code
             && s.transfers[i].vehicle == v && s.now <= s.transfers[i].expiresAt
  {
    if step.Accept? {
      var found := FindPending(s.transfers, step.code);
      if i :| 0 <= i < |s.transfers| && s.transfers[i].status == Pending && s.transfers[i].code == step.code {
        assert CodeTaken(s.transfers, step.code);
        assert i == found.value;
      }
    }
  }

  // ─── What each handler does ──────────────────────────────────────────────────

  predicate PendingCode(ts: seq<Transfer>, code: string) {
    exists t :: t in ts && t.status == Pending && t.code == code
  }

  lemma TakenIsPending(ts: seq<Transfer>, code: string)
    ensures CodeTaken(ts, code) <==> PendingCode(ts, code)
  {
    if CodeTaken(ts, code) {
      var i :| 0 <= i < |ts| && ts[i].status == Pending && ts[i].code == code;
      assert ts[i] in ts;
    }
    if PendingCode(ts, code) {
      var t :| t in ts && t.status == Pending && t.code == code;
      var i :| 0 <= i < |ts| && ts[i] == t;
    }
  }

  /** The first of the codes that no pending transfer has. */
  lemma {:induction false} FreshIsFirst(ts: seq<Transfer>, codes: seq<string>) returns (k: nat)
    ensures k <= |codes| && forall j :: 0 <= j < k ==> PendingCode(ts, codes[j])
    ensures FreshCode(ts, codes) == if k < |codes| then Some(codes[k]) else None
    ensures k < |codes| ==> !PendingCode(ts, codes[k])
  {
    k := 0;
    if codes != [] {
      TakenIsPending(ts, codes[0]);
      if CodeTaken(ts, codes[0]) {
        var i := FreshIsFirst(ts, codes[1..]);
        k := i + 1;
        assert forall j :: 1 <= j < k ==> codes[1..][j - 1] == codes[j];
      }
    }
  }

  /** What a seller is told, and what a start without refusal leaves: one more pending transfer from the vehicle's owner, good
      for a week, under the first offered code that no pending transfer has. */
  lemma StartMeans(s: State, user: nat, vehicle: nat, contact: string, codes: seq<string>) returns (k: nat)
    ensures k <= |codes| && (forall j :: 0 <= j < k ==> PendingCode(s.transfers, codes[j]))
      && (k < |codes| ==> !PendingCode(s.transfers, codes[k]))
    ensures var r := StartOutcome(s, user, vehicle, contact, codes);
      var owns := vehicle < |s.vehicles| && user in s.owners && s.owners[user] == s.vehicles[vehicle].owner;
      var clean := vehicle < |s.vehicles|
        && !s.vehicles[vehicle].stolen && !s.vehicles[vehicle].seized && !s.vehicles[vehicle].wanted;
      var busy := exists t :: t in s.transfers && t.status == Pending && t.vehicle == vehicle;
      && (r == Missing <==> contact == "")
      && (r == Forbidden <==> contact != "" && !owns)
      && (r == NotTransferable <==> contact != "" && owns && !clean)
      && (r == Open <==> contact != "" && owns && clean && busy)
      && (r == NoCode <==> contact != "" && owns && clean && !busy && k == |codes|)
      && (!r.Started? ==> Apply(s, Start(user, vehicle, contact, codes)) == s)
      && (r.Started? ==>
            && k < |codes| && user in s.owners && r == Started(|s.transfers|, codes[k])
            && Apply(s, Start(user, vehicle, contact, codes)) ==
                 s.(transfers := s.transfers + [Transfer(vehicle, s.owners[user], None, codes[k], Pending, s.now + 604_800)]))
  {
    k := FreshIsFirst(s.transfers, codes);
    if IsOpen(s.transfers, vehicle) {
      var i :| 0 <= i < |s.transfers| && s.transfers[i].status == Pending && s.transfers[i].vehicle == vehicle;
      assert s.transfers[i] in s.transfers;
    }
  }

  /** The transfer waits for this code. */
  predicate Awaits(s: State, step: Step, i: nat) {
    && step.Accept? && step.code != "" && step.user in s.owners && i < |s.transfers|
    && s.transfers[i].status == Pending && s.transfers[i].code == step.code
  }

  lemma AwaitedIsFound(s: State, step: Step, i: nat)
    requires Inv(s) && Awaits(s, step, i)
    ensures FindPending(s.transfers, step.code) == Some(i)
  {
    var found := FindPending(s.transfers, step.code);
    assert CodeTaken(s.transfers, step.code);
  }

  /** How a transfer ends: expired by its code after its time; cancelled by its code while the vehicle is stolen, seized or
      wanted, or by its seller; accepted by its code from another owner, who is then named; and in no other way. */
  lemma TransferEnds(s: State, step: Step, i: nat)
    requires Inv(s) && i < |s.transfers|
    ensures var t, after := s.transfers[i], Apply(s, step).transfers;
      && i < |after|
      && var u := after[i];
      var late := Awaits(s, step, i) && s.now > t.expiresAt;
      var live := Awaits(s, step, i) && s.now <= t.expiresAt && s.owners[step.user] != t.fromOwner;
      var flagged := t.vehicle < |s.vehicles|
        && (s.vehicles[t.vehicle].stolen || s.vehicles[t.vehicle].seized || s.vehicles[t.vehicle].wanted);
      var withdrawn := step.Cancel? && step.id == i && step.user in s.owners && s.owners[step.user] == t.fromOwner;
      u ==
        if late then t.(status := Expired)
        else if live && flagged then t.(status := Cancelled)
        else if live then t.(status := Accepted, toOwner := Some(s.owners[step.user]))
        else if t.status == Pending && withdrawn then t.(status := Cancelled)
        else t
  {
    if Awaits(s, step, i) {
      AwaitedIsFound(s, step, i);
    } else if step.Accept? {
      var found := FindPending(s.transfers, step.code);
      var r := AcceptOutcome(s, step.user, step.code);
      assert r.Gone? || r.Blocked? || r.Done? ==> found != Some(i);
    }
  }

  /** What a buyer is told. */
  lemma AcceptMeans(s: State, user: nat, code: string, i: nat)
    requires Inv(s) && i < |s.transfers| && s.transfers[i].status == Pending && s.transfers[i].code == code
    ensures var r, t := AcceptOutcome(s, user, code), s.transfers[i];
      && (r == NoCodeGiven <==> code == "")
      && (r == OwnerRequired <==> code != "" && user !in s.owners)
      && r != NotFound && r != Failed
      && (r == Gone <==> code != "" && user in s.owners && s.now > t.expiresAt)
      && (r == SelfTransfer <==> code != "" && user in s.owners && s.now <= t.expiresAt && s.owners[user] == t.fromOwner)
      && (r.Done? ==> r.vehicle == t.vehicle)
      && (r.Done? || r.Blocked? <==> code != "" && user in s.owners && s.now <= t.expiresAt && s.owners[user] != t.fromOwner)
  {
    if code != "" && user in s.owners { AwaitedIsFound(s, Accept(user, code), i); }
  }

  lemma UnknownCode(s: State, user: nat, code: string)
    requires code != "" && user in s.owners && !PendingCode(s.transfers, code)
    ensures AcceptOutcome(s, user, code) == NotFound && Apply(s, Accept(user, code)) == s
  {
    TakenIsPending(s.transfers, code);
    var found := FindPending(s.transfers, code);
    assert found.Some? ==> CodeTaken(s.transfers, code);
  }

  /** A transfer keeps its vehicle, seller, code and time. */
  lemma {:induction false} TransferStays(s: State, steps: seq<Step>, i: nat)
    requires Inv(s) && i < |s.transfers|
    ensures var t := Run(s, steps);
      && i < |t.transfers|
      && t.transfers[i] == s.transfers[i].(status := t.transfers[i].status, toOwner := t.transfers[i].toOwner)
    decreases |steps|
  {
    if steps != [] {
      StepKeeps(s, steps[0]);
      TransferEnds(s, steps[0], i);
      TransferStays(Apply(s, steps[0]), steps[1..], i);
    }
  }

  /** What the code of a pending transfer does for another owner while the vehicle is not flagged. */
  lemma CodeWorks(u: State, user: nat, i: nat)
    requires Inv(u) && i < |u.transfers| && u.transfers[i].status == Pending && u.transfers[i].vehicle < |u.vehicles|
    requires u.transfers[i].code != "" && user in u.owners && u.owners[user] != u.transfers[i].fromOwner
    requires var v := u.vehicles[u.transfers[i].vehicle]; !v.stolen && !v.seized && !v.wanted
    ensures var t, after := u.transfers[i], Apply(u, Accept(user, u.transfers[i].code));
      && |after.transfers| == |u.transfers| && |after.vehicles| == |u.vehicles|
      && if u.now <= t.expiresAt
         then after.transfers[i].status == Accepted && after.vehicles[t.vehicle].owner == u.owners[user]
         else after.transfers[i].status == Expired && after.vehicles == u.vehicles
  {
    AwaitedIsFound(u, Accept(user, u.transfers[i].code), i);
  }

  lemma StartedStays(s: State, start: Step, steps: seq<Step>)
    requires Inv(s) && start.Start? && Apply(s, start) != s
    ensures var i, u := |s.transfers|, Run(Apply(s, start), steps);
      && Inv(u) && i < |u.transfers| && u.transfers[i].expiresAt == s.now + 604_800
      && u.transfers[i].vehicle == start.vehicle < |u.vehicles|
  {
    var k := StartMeans(s, start.user, start.vehicle, start.contact, start.codes);
    StepKeeps(s, start);
    TransferStays(Apply(s, start), steps, |s.transfers|);
    RunKeeps(Apply(s, start), steps);
    FirstFixed(Apply(s, start), steps);
  }

  /** A transfer that was started is good for a week, whatever happens in between: as long as it is pending, its code is
      accepted from another owner, for a vehicle that is not flagged, exactly until seven days after the start; later it
      only closes the transfer. */
  lemma GoodForAWeek(s: State, start: Step, steps: seq<Step>, user: nat)
    requires Inv(s) && start.Start? && Apply(s, start) != s
    ensures var i, u := |s.transfers|, Run(Apply(s, start), steps);
      && i < |u.transfers|
      && var t := u.transfers[i];
      && t.vehicle == start.vehicle && t.vehicle < |u.vehicles|
      && (t.status == Pending && t.code != "" && user in u.owners && u.owners[user] != t.fromOwner
          && !u.vehicles[t.vehicle].stolen && !u.vehicles[t.vehicle].seized && !u.vehicles[t.vehicle].wanted ==>
            var after := Apply(u, Accept(user, t.code));
            && |after.transfers| == |u.transfers| && |after.vehicles| == |u.vehicles|
            && if u.now <= s.now + 7 * 24 * 60 * 60
               then after.transfers[i].status == Accepted && after.vehicles[t.vehicle].owner == u.owners[user]
               else after.transfers[i].status == Expired && after.vehicles == u.vehicles)
  {
    StartedStays(s, start, steps);
    var i, u := |s.transfers|, Run(Apply(s, start), steps);
    var t := u.transfers[i];
    if t.status == Pending && t.code != "" && user in u.owners && u.owners[user] != t.fromOwner
      && !u.vehicles[t.vehicle].stolen && !u.vehicles[t.vehicle].seized && !u.vehicles[t.vehicle].wanted
    {
      CodeWorks(u, user, i);
    }
  }
}
