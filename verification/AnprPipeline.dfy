/** The plate-recognition worker: claim a job, deduplicate, record the scan and its events, or fail and retry.

    Times are in microseconds, the resolution of the captured_at column. Each transaction
    is one atomic step, so jobs are processed one at a time. The plate is whatever
    normalization returned, and the registry answer is an input. */
module AnprPipeline {
  import opened Prelude

  const WINDOW := 60 * 1_000_000
  const MAX_ATTEMPTS: nat := 5

  datatype Status = Queued | Processing | Done | Duplicate | Failed

  datatype Job = Job(
    tenant: string, capturedAt: int, status: Status, attempts: nat, plate: Option<string>, scan: Option<nat>)

  datatype Vehicle = Vehicle(id: nat, stolen: bool, seized: bool, wanted: bool)

  datatype Scan = Scan(tenant: string, plate: string, capturedAt: int, vehicle: Option<nat>)

  datatype Kind = ScanSeen | Matched | Alert

  datatype Event = Event(kind: Kind, scan: nat)

  datatype State = State(jobs: seq<Job>, scans: seq<Scan>, events: seq<Event>)

  /** captured_at BETWEEN t - 60 s AND t + 60 s, same tenant and plate. */
  predicate Near(x: Scan, tenant: string, plate: string, t: int) {
    x.tenant == tenant && x.plate == plate && t - WINDOW <= x.capturedAt <= t + WINDOW
  }

  predicate Seen(scans: seq<Scan>, tenant: string, plate: string, t: int) {
    exists k :: 0 <= k < |scans| && Near(scans[k], tenant, plate, t)
  }

  predicate Flagged(v: Vehicle) {
    v.stolen || v.seized || v.wanted
  }

  function Announced(scan: nat, found: Option<Vehicle>): seq<Event> {
    [Event(ScanSeen, scan)]
    + (if found.Some? then [Event(Matched, scan)] else [])
    + (if found.Some? && Flagged(found.value) then [Event(Alert, scan)] else [])
  }

  datatype Step =
    | Enqueue(tenant: string, capturedAt: int)
    | Claim(id: nat)
    | Process(id: nat, plate: string, found: Option<Vehicle>)
    | Fail(id: nat)

  predicate Allowed(s: State, step: Step) {
    match step
    case Enqueue(_, _) => true
    case Claim(id) => id < |s.jobs| && s.jobs[id].status == Queued
    case Process(id, _, _) => id < |s.jobs| && s.jobs[id].status == Processing
    case Fail(id) => id < |s.jobs| && s.jobs[id].status == Processing
  }

  function Apply(s: State, step: Step): State
    requires Allowed(s, step)
  {
    match step
    case Enqueue(tenant, t) => s.(jobs := s.jobs + [Job(tenant, t, Queued, 0, None, None)])
    case Claim(id) =>
      var j := s.jobs[id];
      s.(jobs := s.jobs[id := j.(status := Processing, attempts := j.attempts + 1)])
    case Process(id, plate, found) =>
      var j, scan := s.jobs[id], |s.scans|;
      var status := if Seen(s.scans, j.tenant, plate, j.capturedAt) then Duplicate else Done;
      State(s.jobs[id := j.(status := status, plate := Some(plate), scan := Some(scan))],
            s.scans + [Scan(j.tenant, plate, j.capturedAt, if found.Some? then Some(found.value.id) else None)],
            s.events + Announced(scan, found))
    case Fail(id) =>
      var j := s.jobs[id];
      s.(jobs := s.jobs[id := j.(status := if j.attempts >= MAX_ATTEMPTS then Failed else Queued)])
  }

  /** Claim a job, then process it, or note the failure when processing rolled back. */
  function AfterWork(s: State, id: nat, plate: string, found: Option<Vehicle>, faulty: bool): State
    requires Allowed(s, Claim(id))
  {
    Apply(Apply(s, Claim(id)), if faulty then Fail(id) else Process(id, plate, found))
  }

  class Worker {
    var jobs: seq<Job>
    var scans: seq<Scan>
    var events: seq<Event>

    function Now(): State
      reads this
    {
      State(jobs, scans, events)
    }

    constructor ()
      ensures Now() == EMPTY
    {
      jobs, scans, events := [], [], [];
    }

    /** The oldest queued job, if there is one. */
    method ClaimOldest() returns (r: Option<nat>)
      modifies this
      ensures r.None? ==> Now() == old(Now()) && forall k :: 0 <= k < |jobs| ==> jobs[k].status != Queued
      ensures r.Some? ==> r.value < |old(jobs)| && old(jobs)[r.value].status == Queued
      ensures r.Some? ==> forall k :: 0 <= k < r.value ==> old(jobs)[k].status != Queued
      ensures r.Some? ==> Now() == Apply(old(Now()), Claim(r.value))
    {
      var id := 0;
      while id < |jobs| && jobs[id].status != Queued
        invariant id <= |jobs|
        invariant forall k :: 0 <= k < id ==> jobs[k].status != Queued
      {
        id := id + 1;
      }
      if id == |jobs| {
        return None;
      }
      jobs := jobs[id := jobs[id].(status := Processing, attempts := jobs[id].attempts + 1)];
      r := Some(id);
    }

    method ProcessJob(id: nat, plate: string, found: Option<Vehicle>)
      requires Allowed(Now(), Process(id, plate, found))
      modifies this
      ensures Now() == Apply(old(Now()), Process(id, plate, found))
    {
      var j := jobs[id];
      var isDup := Seen(scans, j.tenant, plate, j.capturedAt);
      var vehicle: Option<nat> := None;
      if found.Some? {
        vehicle := Some(found.value.id);
      }
      var scan := |scans|;
      scans := scans + [Scan(j.tenant, plate, j.capturedAt, vehicle)];
      var endStatus := Done;
      if isDup {
        endStatus := Duplicate;
      }
      jobs := jobs[id := j.(status := endStatus, plate := Some(plate), scan := Some(scan))];
      events := events + [Event(ScanSeen, scan)];
      if found.Some? {
        events := events + [Event(Matched, scan)];
        if found.value.stolen || found.value.seized || found.value.wanted {
          events := events + [Event(Alert, scan)];
        }
      }
    }

    method FailJob(id: nat, attempts: nat)
      requires Allowed(Now(), Fail(id)) && attempts == jobs[id].attempts
      modifies this
      ensures Now() == Apply(old(Now()), Fail(id))
    {
      var status := Queued;
      if attempts >= MAX_ATTEMPTS {
        status := Failed;
      }
      jobs := jobs[id := jobs[id].(status := status)];
    }

    /** `plateOf` is the normalizer on the job's raw plate, `registry` the vehicle lookup. */
    method Tick(plateOf: nat -> string, registry: (string, string) -> Option<Vehicle>, faulty: bool)
      returns (r: Option<nat>)
      modifies this
      ensures r.None? ==> Now() == old(Now()) && forall k :: 0 <= k < |jobs| ==> jobs[k].status != Queued
      ensures r.Some? ==>
        && r.value < |old(jobs)| && old(jobs)[r.value].status == Queued
        && (forall k :: 0 <= k < r.value ==> old(jobs)[k].status != Queued)
        && Now() == AfterWork(old(Now()), r.value, plateOf(r.value),
                              registry(old(jobs)[r.value].tenant, plateOf(r.value)), faulty)
    {
      r := ClaimOldest();
      if r.None? {
        return;
      }
      var id := r.value;
      if faulty {
        FailJob(id, jobs[id].attempts);
      } else {
        ProcessJob(id, plateOf(id), registry(jobs[id].tenant, plateOf(id)));
      }
    }
  }

  // ─── Every run ───────────────────────────────────────────────────────────────

  predicate Finished(j: Job) {
    j.status == Done || j.status == Duplicate
  }

  function CountFinished(jobs: seq<Job>): nat {
    if jobs == [] then 0 else CountFinished(jobs[1..]) + (if Finished(jobs[0]) then 1 else 0)
  }

  function CountKind(events: seq<Event>, kind: Kind): nat {
    if events == [] then 0
    else CountKind(events[..|events| - 1], kind) + (if events[|events| - 1].kind == kind then 1 else 0)
  }

  function CountVehicles(scans: seq<Scan>): nat {
    if scans == [] then 0
    else CountVehicles(scans[..|scans| - 1]) + (if scans[|scans| - 1].vehicle.Some? then 1 else 0)
  }

  predicate JobOk(j: Job, scans: seq<Scan>) {
    && j.attempts <= MAX_ATTEMPTS
    && (j.status == Queued ==> j.attempts < MAX_ATTEMPTS)
    && (j.status == Failed ==> j.attempts == MAX_ATTEMPTS)
    && (Finished(j) <==> j.scan.Some?)
    && (j.scan.Some? ==>
          j.scan.value < |scans| && j.plate.Some?
          && scans[j.scan.value].tenant == j.tenant && scans[j.scan.value].plate == j.plate.value
          && scans[j.scan.value].capturedAt == j.capturedAt)
  }

  /** Done jobs of one tenant and plate are more than the window apart. */
  predicate Spaced(jobs: seq<Job>) {
    forall i, j :: 0 <= i < |jobs| && 0 <= j < |jobs| && i != j && jobs[i].status == jobs[j].status == Done
      && jobs[i].tenant == jobs[j].tenant && jobs[i].plate == jobs[j].plate
      ==> jobs[i].capturedAt - jobs[j].capturedAt > WINDOW || jobs[j].capturedAt - jobs[i].capturedAt > WINDOW
  }

  /** A duplicate was preceded by a scan of the same plate within the window. */
  predicate Justified(j: Job, scans: seq<Scan>) {
    j.status == Duplicate && j.scan.Some? && j.plate.Some? ==>
      exists k :: 0 <= k < j.scan.value && k < |scans| && Near(scans[k], j.tenant, j.plate.value, j.capturedAt)
  }

  predicate Conserved(s: State) {
    && CountKind(s.events, ScanSeen) == |s.scans| == CountFinished(s.jobs)
    && CountKind(s.events, Matched) == CountVehicles(s.scans) <= |s.scans|
    && CountKind(s.events, Alert) <= CountKind(s.events, Matched)
  }

  predicate OneScanEach(jobs: seq<Job>) {
    forall i, j :: 0 <= i < j < |jobs| && jobs[i].scan.Some? ==> jobs[i].scan != jobs[j].scan
  }

  predicate Inv(s: State) {
    && (forall i :: 0 <= i < |s.jobs| ==> JobOk(s.jobs[i], s.scans) && Justified(s.jobs[i], s.scans))
    && OneScanEach(s.jobs)
    && Spaced(s.jobs)
    && Conserved(s)
  }

  lemma {:induction false} CountUpdate(jobs: seq<Job>, id: nat, j: Job)
    requires id < |jobs|
    ensures CountFinished(jobs[id := j])
         == CountFinished(jobs) - (if Finished(jobs[id]) then 1 else 0) + (if Finished(j) then 1 else 0)
  {
    if id == 0 {
      assert jobs[id := j][1..] == jobs[1..];
    } else {
      CountUpdate(jobs[1..], id - 1, j);
      assert jobs[id := j][1..] == jobs[1..][id - 1 := j];
    }
  }

  lemma {:induction false} CountAppend(jobs: seq<Job>, j: Job)
    ensures CountFinished(jobs + [j]) == CountFinished(jobs) + (if Finished(j) then 1 else 0)
  {
    if jobs == [] {
      assert [j][1..] == [];
    } else {
      CountAppend(jobs[1..], j);
      assert (jobs + [j])[1..] == jobs[1..] + [j];
    }
  }

  lemma {:induction false} KindConcat(a: seq<Event>, b: seq<Event>, kind: Kind)
    ensures CountKind(a + b, kind) == CountKind(a, kind) + CountKind(b, kind)
  {
    if b == [] {
      assert a + b == a;
    } else {
      var n := |b| - 1;
      assert (a + b)[..|a| + n] == a + b[..n];
      KindConcat(a, b[..n], kind);
    }
  }

  lemma AnnouncedKinds(scan: nat, found: Option<Vehicle>)
    ensures CountKind(Announced(scan, found), ScanSeen) == 1
    ensures CountKind(Announced(scan, found), Matched) == (if found.Some? then 1 else 0)
    ensures CountKind(Announced(scan, found), Alert) <= (if found.Some? then 1 else 0)
  {
    var a, b, c := [Event(ScanSeen, scan)], [Event(Matched, scan)], [Event(Alert, scan)];
    forall kind ensures CountKind(a + b, kind) == CountKind(a, kind) + CountKind(b, kind) { KindConcat(a, b, kind); }
    forall kind ensures CountKind(a + b + c, kind) == CountKind(a + b, kind) + CountKind(c, kind) {
      KindConcat(a + b, c, kind);
    }
    assert Announced(scan, found) ==
      if found.None? then a else if Flagged(found.value) then a + b + c else a + b;
    assert a[..0] == b[..0] == c[..0] == [];
  }

  lemma ProcessConserves(s: State, id: nat, plate: string, found: Option<Vehicle>)
    requires Conserved(s) && Allowed(s, Process(id, plate, found))
    ensures Conserved(Apply(s, Process(id, plate, found)))
  {
    var s' := Apply(s, Process(id, plate, found));
    CountUpdate(s.jobs, id, s'.jobs[id]);
    AnnouncedKinds(|s.scans|, found);
    KindConcat(s.events, Announced(|s.scans|, found), ScanSeen);
    KindConcat(s.events, Announced(|s.scans|, found), Matched);
    KindConcat(s.events, Announced(|s.scans|, found), Alert);
    assert s'.scans[..|s.scans|] == s.scans;
  }

  lemma ProcessKeepsJobs(s: State, id: nat, plate: string, found: Option<Vehicle>, i: nat)
    requires Inv(s) && Allowed(s, Process(id, plate, found)) && i < |s.jobs|
    ensures var s' := Apply(s, Process(id, plate, found));
      JobOk(s'.jobs[i], s'.scans) && Justified(s'.jobs[i], s'.scans)
  {
    var s' := Apply(s, Process(id, plate, found));
    assert forall k :: 0 <= k < |s.scans| ==> s'.scans[k] == s.scans[k];
    assert JobOk(s.jobs[i], s.scans) && Justified(s.jobs[i], s.scans);
  }

  /** A done job lies outside the window of every other done job of its plate. */
  lemma ProcessSpaces(s: State, id: nat, plate: string, found: Option<Vehicle>, i: nat)
    requires Inv(s) && Allowed(s, Process(id, plate, found)) && i < |s.jobs| && i != id
    requires s.jobs[i].status == Done && Apply(s, Process(id, plate, found)).jobs[id].status == Done
    requires s.jobs[i].tenant == s.jobs[id].tenant && s.jobs[i].plate == Some(plate)
    ensures s.jobs[i].capturedAt - s.jobs[id].capturedAt > WINDOW || s.jobs[id].capturedAt - s.jobs[i].capturedAt > WINDOW
  {
    assert JobOk(s.jobs[i], s.scans);
    assert !Near(s.scans[s.jobs[i].scan.value], s.jobs[id].tenant, plate, s.jobs[id].capturedAt);
  }

  lemma ProcessKeepsSpacing(s: State, id: nat, plate: string, found: Option<Vehicle>)
    requires Inv(s) && Allowed(s, Process(id, plate, found))
    ensures Spaced(Apply(s, Process(id, plate, found)).jobs)
  {
    var s' := Apply(s, Process(id, plate, found));
    forall i | 0 <= i < |s.jobs| && i != id && s.jobs[i].status == Done && s'.jobs[id].status == Done
        && s.jobs[i].tenant == s.jobs[id].tenant && s.jobs[i].plate == Some(plate)
      ensures s.jobs[i].capturedAt - s.jobs[id].capturedAt > WINDOW || s.jobs[id].capturedAt - s.jobs[i].capturedAt > WINDOW
    {
      ProcessSpaces(s, id, plate, found, i);
    }
  }

  lemma ProcessKeepsScans(s: State, id: nat, plate: string, found: Option<Vehicle>)
    requires Inv(s) && Allowed(s, Process(id, plate, found))
    ensures OneScanEach(Apply(s, Process(id, plate, found)).jobs)
  {
    forall i | 0 <= i < |s.jobs| ensures s.jobs[i].scan != Some(|s.scans|) { assert JobOk(s.jobs[i], s.scans); }
  }

  lemma ProcessKeeps(s: State, id: nat, plate: string, found: Option<Vehicle>)
    requires Inv(s) && Allowed(s, Process(id, plate, found))
    ensures Inv(Apply(s, Process(id, plate, found)))
  {
    ProcessConserves(s, id, plate, found);
    ProcessKeepsSpacing(s, id, plate, found);
    ProcessKeepsScans(s, id, plate, found);
    var s' := Apply(s, Process(id, plate, found));
    forall i | 0 <= i < |s'.jobs| ensures JobOk(s'.jobs[i], s'.scans) && Justified(s'.jobs[i], s'.scans) {
      ProcessKeepsJobs(s, id, plate, found, i);
    }
  }

  /** Changing only the status of a job that is not finished before or after. */
  lemma RestatusKeeps(s: State, id: nat, j: Job)
    requires Inv(s) && id < |s.jobs|
    requires JobOk(j, s.scans) && !Finished(s.jobs[id]) && !Finished(j)
    ensures Inv(s.(jobs := s.jobs[id := j]))
  {
    CountUpdate(s.jobs, id, j);
    assert JobOk(s.jobs[id], s.scans);
  }

  lemma EnqueueKeeps(s: State, j: Job)
    requires Inv(s) && JobOk(j, s.scans) && !Finished(j)
    ensures Inv(s.(jobs := s.jobs + [j]))
  {
    CountAppend(s.jobs, j);
    var jobs := s.jobs + [j];
    assert forall i :: 0 <= i < |s.jobs| ==> jobs[i] == s.jobs[i];
  }

  lemma StepKeeps(s: State, step: Step)
    requires Inv(s) && Allowed(s, step)
    ensures Inv(Apply(s, step))
  {
    match step
    case Enqueue(tenant, t) => EnqueueKeeps(s, Job(tenant, t, Queued, 0, None, None));
    case Claim(id) => RestatusKeeps(s, id, Apply(s, step).jobs[id]);
    case Process(id, plate, found) => ProcessKeeps(s, id, plate, found);
    case Fail(id) => RestatusKeeps(s, id, Apply(s, step).jobs[id]);
  }

  predicate Legal(s: State, steps: seq<Step>)
    decreases |steps|
  {
    steps == [] || (Allowed(s, steps[0]) && Legal(Apply(s, steps[0]), steps[1..]))
  }

  function Run(s: State, steps: seq<Step>): State
    requires Legal(s, steps)
    decreases |steps|
  {
    if steps == [] then s else Run(Apply(s, steps[0]), steps[1..])
  }

  const EMPTY := State([], [], [])

  lemma {:induction false} RunKeeps(s: State, steps: seq<Step>)
    requires Inv(s) && Legal(s, steps)
    ensures Inv(Run(s, steps))
    decreases |steps|
  {
    if steps != [] {
      StepKeeps(s, steps[0]);
      RunKeeps(Apply(s, steps[0]), steps[1..]);
    }
  }

  /** Any interleaving of claims, processing and failures: spacing, justified duplicates, conservation, attempt limit. */
  lemma PipelineInvariant(steps: seq<Step>)
    requires Legal(EMPTY, steps)
    ensures var s := Run(EMPTY, steps);
      && CountKind(s.events, ScanSeen) == |s.scans| == CountFinished(s.jobs)
      && CountKind(s.events, Alert) <= CountKind(s.events, Matched) == CountVehicles(s.scans) <= |s.scans|
      && Spaced(s.jobs)
      && (forall i :: 0 <= i < |s.jobs| ==>
            && s.jobs[i].attempts <= MAX_ATTEMPTS
            && (s.jobs[i].scan.Some? <==> Finished(s.jobs[i]))
            && Justified(s.jobs[i], s.scans))
      && (forall i, j :: 0 <= i < j < |s.jobs| && s.jobs[i].scan.Some? ==> s.jobs[i].scan != s.jobs[j].scan)
  {
    RunKeeps(EMPTY, steps);
    var s := Run(EMPTY, steps);
    assert forall i :: 0 <= i < |s.jobs| ==> JobOk(s.jobs[i], s.scans);
  }

  // ─── How many scans a plate can have ─────────────────────────────────────────

  predicate DoneWithin(jobs: seq<Job>, ids: set<nat>, tenant: string, plate: string, from: int, to: int) {
    forall i :: i in ids ==>
      i < |jobs| && jobs[i].status == Done && jobs[i].tenant == tenant && jobs[i].plate == Some(plate)
      && from <= jobs[i].capturedAt <= to
  }

  lemma {:induction false} LatestJob(jobs: seq<Job>, ids: set<nat>) returns (m: nat)
    requires ids != {} && forall i :: i in ids ==> i < |jobs|
    ensures m in ids && forall i :: i in ids ==> jobs[i].capturedAt <= jobs[m].capturedAt
  {
    m :| m in ids;
    if ids != {m} {
      var k := LatestJob(jobs, ids - {m});
      if jobs[k].capturedAt > jobs[m].capturedAt { m := k; }
    }
  }

  /** k done jobs of one plate captured between `from` and `to` leave more than (k - 1) windows between the ends. */
  lemma {:induction false} SpacingBound(jobs: seq<Job>, ids: set<nat>, tenant: string, plate: string, from: int, to: int)
    requires Spaced(jobs) && ids != {} && DoneWithin(jobs, ids, tenant, plate, from, to)
    ensures (|ids| - 1) * (WINDOW + 1) <= to - from
    decreases |ids|
  {
    var m := LatestJob(jobs, ids);
    var rest := ids - {m};
    assert ids == rest + {m};
    if rest != {} {
      SpacingBound(jobs, rest, tenant, plate, from, jobs[m].capturedAt - WINDOW - 1);
      assert (|ids| - 1) * (WINDOW + 1) == (|rest| - 1) * (WINDOW + 1) + WINDOW + 1;
    }
  }

  /** The same bound on every reachable state: (k - 1) · 60 s < L for k ≥ 2 done jobs in an interval of length L. */
  lemma DedupSpacing(steps: seq<Step>, ids: set<nat>, tenant: string, plate: string, from: int, to: int)
    requires Legal(EMPTY, steps) && |ids| >= 2
    requires DoneWithin(Run(EMPTY, steps).jobs, ids, tenant, plate, from, to)
    ensures (|ids| - 1) * WINDOW < to - from
  {
    RunKeeps(EMPTY, steps);
    SpacingBound(Run(EMPTY, steps).jobs, ids, tenant, plate, from, to);
    assert (|ids| - 1) * (WINDOW + 1) == (|ids| - 1) * WINDOW + (|ids| - 1);
  }

  // ─── What every run records ──────────────────────────────────────────────────

  /** The processing steps of a run, in order. */
  function Readings(steps: seq<Step>): seq<Step> {
    if steps == [] then []
    else
      var before, last := Readings(steps[..|steps| - 1]), steps[|steps| - 1];
      if last.Process? then before + [last] else before
  }

  /** The enqueueing steps of a run, in order. */
  function Arrivals(steps: seq<Step>): seq<Step> {
    if steps == [] then []
    else
      var before, last := Arrivals(steps[..|steps| - 1]), steps[|steps| - 1];
      if last.Enqueue? then before + [last] else before
  }

  lemma {:induction false} LastStep(s: State, steps: seq<Step>)
    requires Legal(s, steps) && steps != []
    ensures var before, last := steps[..|steps| - 1], steps[|steps| - 1];
      Legal(s, before) && Allowed(Run(s, before), last) && Run(s, steps) == Apply(Run(s, before), last)
    decreases |steps|
  {
    if |steps| > 1 {
      LastStep(Apply(s, steps[0]), steps[1..]);
      assert steps[1..][..|steps| - 2] == steps[..|steps| - 1][1..];
    }
  }

  function Times(events: seq<Event>, kind: Kind, scan: nat): nat {
    multiset(events)[Event(kind, scan)]
  }

  /** Scan `k` is what reading `r` saw, its job says so, and exactly its events were told. */
  ghost predicate RecordedAs(s: State, r: Step, k: nat) {
    && r.Process? && k < |s.scans| && r.id < |s.jobs|
    && var j, x := s.jobs[r.id], s.scans[k];
    && j.scan == Some(k) && j.plate == Some(r.plate)
    && x.tenant == j.tenant && x.plate == r.plate && x.capturedAt == j.capturedAt
    && x.vehicle == (match r.found case Some(v) => Some(v.id) case None => None)
    && Times(s.events, ScanSeen, k) == 1
    && Times(s.events, Matched, k) == (if r.found.Some? then 1 else 0)
    && Times(s.events, Alert, k) ==
         (if r.found.Some? && (r.found.value.stolen || r.found.value.seized || r.found.value.wanted) then 1 else 0)
    && (j.status == Duplicate || j.status == Done)
    && (j.status == Duplicate <==>
          exists i :: 0 <= i < k && s.scans[i].tenant == x.tenant && s.scans[i].plate == x.plate
            && -60_000_000 <= s.scans[i].capturedAt - x.capturedAt <= 60_000_000)
  }

  lemma AnnouncedOnce(events: seq<Event>, scan: nat, found: Option<Vehicle>, kind: Kind, k: nat)
    requires forall i :: 0 <= i < |events| ==> events[i].scan < scan
    ensures var told := Times(events + Announced(scan, found), kind, k);
      && (k < scan ==> told == Times(events, kind, k))
      && (k == scan && kind == ScanSeen ==> told == 1)
      && (k == scan && kind == Matched ==> told == if found.Some? then 1 else 0)
      && (k == scan && kind == Alert ==>
            told == if found.Some? && (found.value.stolen || found.value.seized || found.value.wanted) then 1 else 0)
  {
    assert multiset(events + Announced(scan, found)) == multiset(events) + multiset(Announced(scan, found));
    assert k >= scan ==> Event(kind, k) !in events;
  }

  /** A later reading leaves the record of an earlier one as it was. */
  lemma EarlierRecorded(s: State, step: Step, r: Step, k: nat)
    requires step.Process? && Allowed(s, step) && RecordedAs(s, r, k)
    requires forall i :: 0 <= i < |s.events| ==> s.events[i].scan < |s.scans|
    ensures RecordedAs(Apply(s, step), r, k)
  {
    var t := Apply(s, step);
    forall kind { AnnouncedOnce(s.events, |s.scans|, step.found, kind, k); }
    assert t.scans[..|s.scans|] == s.scans;
    assert forall i :: 0 <= i <= k ==> t.scans[i] == s.scans[i];
  }

  lemma ReadingRecorded(s: State, step: Step)
    requires step.Process? && Allowed(s, step) && forall i :: 0 <= i < |s.events| ==> s.events[i].scan < |s.scans|
    ensures RecordedAs(Apply(s, step), step, |s.scans|)
  {
    var t, j := Apply(s, step), s.jobs[step.id];
    forall kind { AnnouncedOnce(s.events, |s.scans|, step.found, kind, |s.scans|); }
    assert forall i :: 0 <= i < |s.scans| ==> t.scans[i] == s.scans[i];
    if Seen(s.scans, j.tenant, step.plate, j.capturedAt) {
      var i :| 0 <= i < |s.scans| && Near(s.scans[i], j.tenant, step.plate, j.capturedAt);
      assert t.scans[i] == s.scans[i];
    }
  }

  lemma OtherRecords(s: State, step: Step, r: Step, k: nat)
    requires Allowed(s, step) && !step.Process? && RecordedAs(s, r, k)
    ensures RecordedAs(Apply(s, step), r, k)
  {
    var t := Apply(s, step);
    assert t.scans == s.scans && t.events == s.events && t.jobs[r.id] == s.jobs[r.id];
  }

  /** The events of earlier scans come first, and of one scan first itself, then the match, then the alert. */
  predicate ToldInOrder(s: State) {
    && (forall k :: 0 <= k < |s.events| ==> s.events[k].scan < |s.scans|)
    && forall i, j :: 0 <= i < j < |s.events| ==>
         || s.events[i].scan < s.events[j].scan
         || (s.events[i].scan == s.events[j].scan
             && (s.events[i].kind == ScanSeen || (s.events[i].kind == Matched && s.events[j].kind == Alert)))
  }

  lemma EventsFit(s: State, step: Step)
    requires Allowed(s, step) && ToldInOrder(s)
    ensures ToldInOrder(Apply(s, step))
  {
    if step.Process? {
      var told := Announced(|s.scans|, step.found);
      assert forall i :: 0 <= i < |told| ==> told[i].scan == |s.scans|;
      assert Apply(s, step).events == s.events + told;
    }
  }

  /** One scan per reading, no event names another scan, and the events are in order. */
  lemma {:induction false} OneScanPerReading(steps: seq<Step>)
    requires Legal(EMPTY, steps)
    ensures var s := Run(EMPTY, steps);
      |s.scans| == |Readings(steps)| && ToldInOrder(s)
  {
    if steps != [] {
      var before, last := steps[..|steps| - 1], steps[|steps| - 1];
      LastStep(EMPTY, steps);
      OneScanPerReading(before);
      EventsFit(Run(EMPTY, before), last);
    }
  }

  /** On every run the scans are the readings in their order. Each names its job's tenant, time and plate and the vehicle
      that was found; it is told once, the match exactly when a vehicle was found, an alert exactly when that vehicle was
      stolen, seized or wanted, all in order; and its job is a duplicate exactly beside an earlier scan of the plate within
      a minute. */
  lemma {:induction false} ReadingsRecorded(steps: seq<Step>, k: nat)
    requires Legal(EMPTY, steps)
    ensures |Run(EMPTY, steps).scans| == |Readings(steps)| && ToldInOrder(Run(EMPTY, steps))
    ensures k < |Readings(steps)| ==> RecordedAs(Run(EMPTY, steps), Readings(steps)[k], k)
    ensures k >= |Readings(steps)| ==> forall kind :: Times(Run(EMPTY, steps).events, kind, k) == 0
  {
    OneScanPerReading(steps);
    if k < |Readings(steps)| {
      var before, last := steps[..|steps| - 1], steps[|steps| - 1];
      LastStep(EMPTY, steps);
      var u, rs := Run(EMPTY, before), Readings(before);
      OneScanPerReading(before);
      if k == |rs| {
        ReadingRecorded(u, last);
      } else {
        ReadingsRecorded(before, k);
        if last.Process? { EarlierRecorded(u, last, rs[k], k); } else { OtherRecords(u, last, rs[k], k); }
      }
    }
  }

  /** What the table says of a job, and how often it was claimed and failed. */
  predicate History(j: Job, claims: nat, fails: nat) {
    && j.attempts == claims && fails <= 5
    && (j.status == Failed <==> fails == 5)
    && claims == (if j.status == Queued || j.status == Failed then fails else fails + 1)
  }

  lemma HistoryStep(s: State, step: Step, id: nat, claims: nat, fails: nat)
    requires Allowed(s, step) && id < |s.jobs| && History(s.jobs[id], claims, fails)
    ensures var j := Apply(s, step).jobs[id];
      && j.tenant == s.jobs[id].tenant && j.capturedAt == s.jobs[id].capturedAt
      && History(j, if step == Claim(id) then claims + 1 else claims, if step == Fail(id) then fails + 1 else fails)
  {
  }

  lemma {:induction false} NotBefore(steps: seq<Step>, id: nat)
    requires Legal(EMPTY, steps) && |Run(EMPTY, steps).jobs| <= id
    ensures Claim(id) !in steps && Fail(id) !in steps
  {
    if steps != [] {
      var before, last := steps[..|steps| - 1], steps[|steps| - 1];
      LastStep(EMPTY, steps);
      NotBefore(before, id);
      assert steps == before + [last];
    }
  }

  lemma {:induction false} JobsArrive(steps: seq<Step>)
    requires Legal(EMPTY, steps)
    ensures |Run(EMPTY, steps).jobs| == |Arrivals(steps)|
  {
    if steps != [] {
      LastStep(EMPTY, steps);
      JobsArrive(steps[..|steps| - 1]);
    }
  }

  lemma {:induction false} ArrivedAs(steps: seq<Step>, id: nat)
    requires Legal(EMPTY, steps) && id < |Run(EMPTY, steps).jobs|
    ensures var j := Run(EMPTY, steps).jobs[id];
      id < |Arrivals(steps)| && Arrivals(steps)[id] == Enqueue(j.tenant, j.capturedAt)
  {
    if steps != [] {
      var before := steps[..|steps| - 1];
      LastStep(EMPTY, steps);
      JobsArrive(before);
      if id < |Run(EMPTY, before).jobs| { ArrivedAs(before, id); }
    }
  }

  function Taken(steps: seq<Step>, step: Step): nat {
    multiset(steps)[step]
  }

  lemma OneMoreTaken(steps: seq<Step>, step: Step)
    requires steps != []
    ensures Taken(steps, step) == Taken(steps[..|steps| - 1], step) + (if steps[|steps| - 1] == step then 1 else 0)
  {
    assert steps == steps[..|steps| - 1] + [steps[|steps| - 1]];
  }

  lemma {:induction false} Tallied(steps: seq<Step>, id: nat, claims: nat, fails: nat)
    requires Legal(EMPTY, steps) && id < |Run(EMPTY, steps).jobs|
    requires claims == Taken(steps, Claim(id)) && fails == Taken(steps, Fail(id))
    ensures History(Run(EMPTY, steps).jobs[id], claims, fails)
  {
    if steps != [] {
      var before, last := steps[..|steps| - 1], steps[|steps| - 1];
      LastStep(EMPTY, steps);
      OneMoreTaken(steps, Claim(id));
      OneMoreTaken(steps, Fail(id));
      var s := Run(EMPTY, before);
      if id < |s.jobs| {
        Tallied(before, id, Taken(before, Claim(id)), Taken(before, Fail(id)));
        HistoryStep(s, last, id, Taken(before, Claim(id)), Taken(before, Fail(id)));
      } else {
        NotBefore(before, id);
      }
    }
  }

  /** On every run the jobs are those enqueued, in order; a job's attempts are its claims, and it has failed for good
      exactly after five failures. */
  lemma JobHistory(steps: seq<Step>, id: nat)
    requires Legal(EMPTY, steps) && id < |Run(EMPTY, steps).jobs|
    ensures var j := Run(EMPTY, steps).jobs[id];
      && id < |Arrivals(steps)| && Arrivals(steps)[id] == Enqueue(j.tenant, j.capturedAt)
      && History(j, Taken(steps, Claim(id)), Taken(steps, Fail(id)))
  {
    ArrivedAs(steps, id);
    Tallied(steps, id, Taken(steps, Claim(id)), Taken(steps, Fail(id)));
  }
}
