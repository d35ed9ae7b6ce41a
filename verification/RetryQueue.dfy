/** The retry queue: claim, run, then done, rescheduled with backoff, or dead-lettered.

    Times are in seconds. A worker reports each job it claimed at most once; a worker that
    dies reports nothing. */
module RetryQueue {
  import opened Prelude

  datatype Status = Queued | Running | Done | DeadLetter

  /** `claims` lists when the job was handed out and `failures` when it was reported failed; the table stores neither. */
  datatype Job = Job(
    bucket: string, status: Status, attempts: nat, max: nat,
    nextRunAt: int, createdAt: int, claims: seq<int>, failures: seq<int>)

  function BackoffFor(attempts: nat): nat {
    match attempts
    case 1 => 30
    case 2 => 2 * 60
    case 3 => 8 * 60
    case 4 => 30 * 60
    case _ => 2 * 60 * 60
  }

  function Claimed(j: Job, now: int): Job {
    j.(status := Running, claims := j.claims + [now])
  }

  function Failed(j: Job, now: int): Job {
    var attempts := j.attempts + 1;
    j.(status := if attempts >= j.max then DeadLetter else Queued,
       attempts := attempts,
       nextRunAt := now + BackoffFor(attempts),
       failures := j.failures + [now])
  }

  function Fresh(bucket: string, maxAttempts: int, now: int): Job {
    Job(bucket, Queued, 0, if maxAttempts <= 0 then 5 else maxAttempts, now, now, [], [])
  }

  function Reported(j: Job, ok: bool, now: int): Job {
    if ok then j.(status := Done) else Failed(j, now)
  }

  predicate Due(j: Job, bucket: string, now: int) {
    j.status == Queued && j.bucket == bucket && j.nextRunAt <= now
  }

  /** ORDER BY next_run_at LIMIT 1 over the due jobs of a module. */
  predicate NextDue(jobs: seq<Job>, bucket: string, now: int, id: nat) {
    && id < |jobs| && Due(jobs[id], bucket, now)
    && forall k :: 0 <= k < |jobs| && Due(jobs[k], bucket, now) ==> jobs[id].nextRunAt <= jobs[k].nextRunAt
  }

  predicate NoneDue(jobs: seq<Job>, bucket: string, now: int) {
    forall k :: 0 <= k < |jobs| ==> !Due(jobs[k], bucket, now)
  }

  lemma {:induction false} SomeNextDue(jobs: seq<Job>, bucket: string, now: int)
    ensures NoneDue(jobs, bucket, now) || exists id: nat :: NextDue(jobs, bucket, now, id)
  {
    if jobs != [] {
      var n := |jobs| - 1;
      var front := jobs[..n];
      SomeNextDue(front, bucket, now);
      assert forall k :: 0 <= k < n ==> front[k] == jobs[k];
      if Due(jobs[n], bucket, now) {
        if id: nat :| NextDue(front, bucket, now, id) {
          var best := if jobs[n].nextRunAt < jobs[id].nextRunAt then n else id;
          assert NextDue(jobs, bucket, now, best);
        } else {
          assert NextDue(jobs, bucket, now, n);
        }
      } else if id: nat :| NextDue(front, bucket, now, id) {
        assert NextDue(jobs, bucket, now, id);
      }
    }
  }

  class Queue {
    var jobs: seq<Job>

    constructor ()
      ensures jobs == []
    {
      jobs := [];
    }

    method Enqueue(bucket: string, maxAttempts: int, now: int) returns (id: nat)
      modifies this
      ensures id == |old(jobs)| && jobs == old(jobs) + [Fresh(bucket, maxAttempts, now)]
      ensures jobs[id] == Job(bucket, Queued, 0, if maxAttempts <= 0 then 5 else maxAttempts, now, now, [], [])
    {
      var max := maxAttempts;
      if max <= 0 {
        max := 5;
      }
      id := |jobs|;
      jobs := jobs + [Job(bucket, Queued, 0, max, now, now, [], [])];
    }

    method Claim(bucket: string, now: int) returns (r: Option<nat>)
      modifies this
      ensures r.None? ==> jobs == old(jobs)
      ensures r.None? ==> forall j :: j in old(jobs) && j.status == Queued && j.bucket == bucket ==> j.nextRunAt > now
      ensures r.Some? ==>
        NextDue(old(jobs), bucket, now, r.value) && jobs == old(jobs)[r.value := Claimed(old(jobs)[r.value], now)]
    {
      SomeNextDue(jobs, bucket, now);
      if NoneDue(jobs, bucket, now) {
        return None;
      }
      var id :| 0 <= id < |jobs| && NextDue(jobs, bucket, now, id);
      jobs := jobs[id := jobs[id].(status := Running, claims := jobs[id].claims + [now])];
      r := Some(id);
    }

    method Report(id: nat, ok: bool, now: int)
      requires id < |jobs|
      modifies this
      ensures jobs == old(jobs)[id := Reported(old(jobs)[id], ok, now)]
    {
      var j := jobs[id];
      if ok {
        jobs := jobs[id := j.(status := Done)];
        return;
      }
      var attempts := j.attempts + 1;
      var status := Queued;
      if attempts >= j.max {
        status := DeadLetter;
      }
      var delay := BackoffFor(attempts);
      jobs := jobs[id := j.(status := status, attempts := attempts, nextRunAt := now + delay, failures := j.failures + [now])];
    }
  }

  // ─── Runs with workers ───────────────────────────────────────────────────────

  datatype State = State(jobs: seq<Job>, holding: map<nat, nat>, now: int)

  datatype Step =
    | Enqueue(bucket: string, maxAttempts: int)
    | Claim(worker: nat, bucket: string, id: nat)
    | Report(worker: nat, ok: bool)
    | Crash(worker: nat)
    | Wait(seconds: nat)

  predicate Allowed(s: State, step: Step) {
    match step
    case Claim(w, bucket, id) => w !in s.holding && NextDue(s.jobs, bucket, s.now, id)
    case Report(w, _) => w in s.holding && s.holding[w] < |s.jobs|
    case _ => true
  }

  function Apply(s: State, step: Step): State
    requires Allowed(s, step)
  {
    match step
    case Enqueue(bucket, max) => s.(jobs := s.jobs + [Fresh(bucket, max, s.now)])
    case Claim(w, _, id) => s.(jobs := s.jobs[id := Claimed(s.jobs[id], s.now)], holding := s.holding[w := id])
    case Report(w, ok) =>
      var id := s.holding[w];
      s.(jobs := s.jobs[id := Reported(s.jobs[id], ok, s.now)], holding := s.holding - {w})
    case Crash(w) => s.(holding := s.holding - {w})
    case Wait(seconds) => s.(now := s.now + seconds)
  }

  predicate Legal(s: State, steps: seq<Step>)
    decreases |steps|
  {
    steps == [] || (Allowed(s, steps[0]) && Legal(Apply(s, steps[0]), steps[1..]))
  }

  function Run(s: State, steps: seq<Step>): State
    requires Legal(s, steps)
    decreases |steps|
  {
    if steps == [] then s else Run(Apply(s, steps[0]), steps[1..])
  }

  /** Seconds of backoff before the claim that follows `k` failures. */
  function BackoffSum(k: nat): nat {
    if k == 0 then 0 else BackoffSum(k - 1) + BackoffFor(k)
  }

  lemma {:induction false} BackoffClosedForm(k: nat)
    ensures BackoffSum(k) ==
      (match k case 0 => 0 case 1 => 30 case 2 => 150 case 3 => 630 case _ => 2430 + 7200 * (k - 4))
  {
    if k > 0 { BackoffClosedForm(k - 1); }
  }

  predicate JobOk(j: Job, now: int) {
    && 1 <= j.max
    && (match j.status
        case DeadLetter => j.attempts == j.max && |j.claims| == j.attempts
        case Queued => j.attempts < j.max && |j.claims| == j.attempts
        case _ => j.attempts < j.max && |j.claims| == j.attempts + 1)
    && (j.status.Queued? ==> j.nextRunAt >= j.createdAt + BackoffSum(j.attempts))
    && (forall k :: 0 <= k < |j.claims| ==> j.createdAt + BackoffSum(k) <= j.claims[k] <= now)
  }

  lemma ReportOk(j: Job, ok: bool, now: int)
    requires JobOk(j, now) && j.status == Running
    ensures JobOk(Reported(j, ok, now), now)
  {
    assert j.claims[j.attempts] <= now;
  }

  /** Each job is held by at most one worker, and only while it runs. */
  predicate Held(jobs: seq<Job>, holding: map<nat, nat>) {
    && (forall w :: w in holding ==> holding[w] < |jobs| && jobs[holding[w]].status == Running)
    && (forall v, w :: v in holding && w in holding && holding[v] == holding[w] ==> v == w)
  }

  predicate JobsOk(jobs: seq<Job>, now: int) {
    forall id :: 0 <= id < |jobs| ==> JobOk(jobs[id], now)
  }

  predicate Inv(s: State) {
    JobsOk(s.jobs, s.now) && Held(s.jobs, s.holding)
  }

  lemma LaterOk(j: Job, now: int, later: int)
    requires JobOk(j, now) && now <= later
    ensures JobOk(j, later)
  {
  }

  lemma ClaimOk(j: Job, bucket: string, now: int)
    requires JobOk(j, now) && Due(j, bucket, now)
    ensures JobOk(Claimed(j, now), now)
  {
  }

  lemma JobsKeep(s: State, step: Step)
    requires Inv(s) && Allowed(s, step)
    ensures JobsOk(Apply(s, step).jobs, Apply(s, step).now)
  {
    var t := Apply(s, step);
    forall id | 0 <= id < |t.jobs| ensures JobOk(t.jobs[id], t.now) {
      if id < |s.jobs| {
        assert JobOk(s.jobs[id], s.now);
        match step {
          case Claim(_, bucket, i) => if i == id { ClaimOk(s.jobs[id], bucket, s.now); }
          case Report(w, ok) => if s.holding[w] == id { ReportOk(s.jobs[id], ok, s.now); }
          case _ => LaterOk(s.jobs[id], s.now, t.now);
        }
      }
    }
  }

  lemma StepKeeps(s: State, step: Step)
    requires Inv(s) && Allowed(s, step)
    ensures Inv(Apply(s, step))
  {
    JobsKeep(s, step);
    if step.Claim? { assert s.jobs[step.id].status == Queued; }
  }

  const START := State([], map[], 0)

  lemma {:induction false} RunKeeps(s: State, steps: seq<Step>)
    requires Inv(s) && Legal(s, steps)
    ensures Inv(Run(s, steps))
    decreases |steps|
  {
    if steps != [] {
      StepKeeps(s, steps[0]);
      RunKeeps(Apply(s, steps[0]), steps[1..]);
    }
  }

  /** On every run a job has attempts left exactly until it is dead, is claimed at most `max` times, and its k-th claim
      waits for every backoff before it. */
  lemma ClaimsBounded(steps: seq<Step>, id: nat)
    requires Legal(START, steps) && id < |Run(START, steps).jobs|
    ensures var j := Run(START, steps).jobs[id];
      && |j.claims| <= j.max
      && (j.status == DeadLetter <==> j.attempts == j.max)
      && (j.status == DeadLetter ==> |j.claims| == j.max)
      && forall k :: 0 <= k < |j.claims| ==> j.claims[k] >= j.createdAt + BackoffSum(k)
  {
    RunKeeps(START, steps);
    assert JobOk(Run(START, steps).jobs[id], Run(START, steps).now);
  }

  /** The claim after the k-th failure comes no sooner than that failure and its backoff. */
  predicate Waited(j: Job, k: nat) {
    1 <= k <= |j.failures| && k < |j.claims| ==> j.failures[k - 1] + BackoffFor(k) <= j.claims[k]
  }

  /** A queued job runs next when it was created, or exactly its backoff after its last failure. */
  predicate Timed(j: Job) {
    && |j.failures| == j.attempts
    && (j.status == Queued && j.attempts == 0 ==> j.nextRunAt == j.createdAt)
    && (j.status == Queued && j.attempts > 0 ==> j.nextRunAt == j.failures[j.attempts - 1] + BackoffFor(j.attempts))
  }

  lemma JobStep(s: State, step: Step, id: nat)
    requires Inv(s) && Allowed(s, step) && id < |Apply(s, step).jobs|
    ensures var j := Apply(s, step).jobs[id];
      || (id == |s.jobs| && j.claims == [] && j.failures == [] && j.attempts == 0 && j.nextRunAt == j.createdAt)
      || (id < |s.jobs| && j == s.jobs[id])
      || (id < |s.jobs| && j == Claimed(s.jobs[id], s.now) && s.jobs[id].status == Queued && s.jobs[id].nextRunAt <= s.now
          && |s.jobs[id].claims| == s.jobs[id].attempts)
      || (id < |s.jobs| && s.jobs[id].status == Running && |s.jobs[id].claims| == s.jobs[id].attempts + 1
          && exists ok :: j == Reported(s.jobs[id], ok, s.now))
  {
    if id < |s.jobs| { assert JobOk(s.jobs[id], s.now); }
  }

  lemma TimedStep(s: State, step: Step, id: nat, k: nat)
    requires Inv(s) && Allowed(s, step) && id < |Apply(s, step).jobs|
    requires id < |s.jobs| ==> Timed(s.jobs[id]) && Waited(s.jobs[id], k)
    ensures Timed(Apply(s, step).jobs[id]) && Waited(Apply(s, step).jobs[id], k)
  {
    JobStep(s, step, id);
  }

  lemma {:induction false} RunTimed(s: State, steps: seq<Step>, id: nat, k: nat)
    requires Inv(s) && Legal(s, steps) && id < |Run(s, steps).jobs|
    requires id < |s.jobs| ==> Timed(s.jobs[id]) && Waited(s.jobs[id], k)
    ensures Timed(Run(s, steps).jobs[id]) && Waited(Run(s, steps).jobs[id], k)
    decreases |steps|
  {
    if steps != [] {
      StepKeeps(s, steps[0]);
      if id < |Apply(s, steps[0]).jobs| { TimedStep(s, steps[0], id, k); }
      RunTimed(Apply(s, steps[0]), steps[1..], id, k);
    }
  }

  /** On every run a job's attempts are its failures; a retry comes no sooner than its failure and the backoff after it,
      and while the job is queued that moment, or its creation, is exactly when it runs next. */
  lemma RetriesOnTime(steps: seq<Step>, id: nat)
    requires Legal(START, steps) && id < |Run(START, steps).jobs|
    ensures var j := Run(START, steps).jobs[id];
      && |j.failures| == j.attempts
      && (forall k: nat :: 1 <= k <= j.attempts && k < |j.claims| ==> j.failures[k - 1] + BackoffFor(k) <= j.claims[k])
      && (j.status == Queued ==>
            j.nextRunAt == if j.attempts == 0 then j.createdAt else j.failures[j.attempts - 1] + BackoffFor(j.attempts))
  {
    var j := Run(START, steps).jobs[id];
    RunTimed(START, steps, id, 0);
    forall k: nat | 1 <= k <= j.attempts && k < |j.claims| ensures j.failures[k - 1] + BackoffFor(k) <= j.claims[k] {
      RunTimed(START, steps, id, k);
      assert Waited(j, k);
    }
  }

  /** Which job a free worker can be handed: a queued one of its bucket whose time has come, and no queued job of the
      bucket is earlier; and there is such a job exactly if any queued job of the bucket has come up. */
  lemma ClaimMeans(s: State, w: nat, bucket: string, id: nat)
    ensures Allowed(s, Claim(w, bucket, id)) <==>
      && w !in s.holding && id < |s.jobs|
      && s.jobs[id].status == Queued && s.jobs[id].bucket == bucket && s.jobs[id].nextRunAt <= s.now
      && forall j :: j in s.jobs && j.status == Queued && j.bucket == bucket ==> s.jobs[id].nextRunAt <= j.nextRunAt
    ensures w !in s.holding ==>
      ((exists i: nat :: Allowed(s, Claim(w, bucket, i))) <==>
        exists j :: j in s.jobs && j.status == Queued && j.bucket == bucket && j.nextRunAt <= s.now)
  {
    SomeNextDue(s.jobs, bucket, s.now);
    if w !in s.holding {
      if i: nat :| NextDue(s.jobs, bucket, s.now, i) {
        assert s.jobs[i] in s.jobs;
        assert Allowed(s, Claim(w, bucket, i));
      } else {
        forall j | j in s.jobs && j.status == Queued && j.bucket == bucket ensures j.nextRunAt > s.now {
          var k :| 0 <= k < |s.jobs| && s.jobs[k] == j;
          assert !Due(s.jobs[k], bucket, s.now);
        }
      }
    }
  }

  /** What a report does: success ends the job; a failure counts, and at the limit the job is dead, otherwise it is queued
      again after half a minute, two, eight or thirty minutes, and from the fifth failure on after two hours. */
  lemma ReportMeans(s: State, w: nat, ok: bool)
    requires Inv(s) && w in s.holding
    ensures Allowed(s, Report(w, ok))
    ensures var id, t := s.holding[w], Apply(s, Report(w, ok));
      var j, k := s.jobs[id], t.jobs[id];
      && t.holding == s.holding - {w} && t.jobs == s.jobs[id := k]
      && (ok ==> k == j.(status := Done))
      && (!ok ==>
            && k == j.(status := k.status, attempts := j.attempts + 1, nextRunAt := k.nextRunAt, failures := j.failures + [s.now])
            && k.status == (if j.attempts + 1 == j.max then DeadLetter else Queued)
            && (k.attempts == 1 ==> k.nextRunAt == s.now + 30)
            && (k.attempts == 2 ==> k.nextRunAt == s.now + 120)
            && (k.attempts == 3 ==> k.nextRunAt == s.now + 480)
            && (k.attempts == 4 ==> k.nextRunAt == s.now + 1_800)
            && (k.attempts >= 5 ==> k.nextRunAt == s.now + 7_200))
  {
    assert JobOk(s.jobs[s.holding[w]], s.now);
  }

  /** On every run a job is held by one worker at most, and a held job is running, with an attempt left and one claim
      more than it has reports. */
  lemma OneWorkerPerJob(steps: seq<Step>, v: nat, w: nat)
    requires Legal(START, steps)
    requires var s := Run(START, steps); v in s.holding && w in s.holding
    ensures var s := Run(START, steps);
      && (s.holding[v] == s.holding[w] ==> v == w)
      && s.holding[v] < |s.jobs|
      && var j := s.jobs[s.holding[v]]; j.status == Running && j.attempts < j.max && |j.claims| == j.attempts + 1
  {
    RunKeeps(START, steps);
    var s := Run(START, steps);
    assert JobOk(s.jobs[s.holding[v]], s.now);
  }

  // ─── The queue runs dry ──────────────────────────────────────────────────────

  /** Claims and reports a job can still cause. */
  function Work(j: Job): nat
    requires j.attempts <= j.max
  {
    match j.status
    case Queued => 2 * (j.max - j.attempts)
    case Running => if j.attempts < j.max then 2 * (j.max - j.attempts) - 1 else 0
    case _ => 0
  }

  function TotalWork(jobs: seq<Job>): nat {
    if jobs == [] then 0
    else TotalWork(jobs[1..]) + (if jobs[0].attempts <= jobs[0].max then Work(jobs[0]) else 0)
  }

  lemma {:induction false} TotalUpdate(jobs: seq<Job>, id: nat, j: Job)
    requires id < |jobs| && jobs[id].attempts <= jobs[id].max && j.attempts <= j.max
    ensures TotalWork(jobs[id := j]) == TotalWork(jobs) - Work(jobs[id]) + Work(j)
  {
    var out := jobs[id := j];
    if id == 0 {
      assert out[1..] == jobs[1..];
    } else {
      TotalUpdate(jobs[1..], id - 1, j);
      assert out[1..] == jobs[1..][id - 1 := j];
    }
  }

  function Moves(steps: seq<Step>): nat {
    if steps == [] then 0 else Moves(steps[1..]) + (if steps[0].Claim? || steps[0].Report? then 1 else 0)
  }

  /** Without new jobs, claims and reports together are bounded by the work left at the start. */
  lemma {:induction false} QueueDrains(s: State, steps: seq<Step>)
    requires Inv(s) && Legal(s, steps)
    requires forall i :: 0 <= i < |steps| ==> !steps[i].Enqueue?
    ensures Moves(steps) + TotalWork(Run(s, steps).jobs) <= TotalWork(s.jobs)
    decreases |steps|
  {
    if steps != [] {
      var s' := Apply(s, steps[0]);
      StepKeeps(s, steps[0]);
      match steps[0] {
        case Claim(w, _, id) =>
          assert JobOk(s.jobs[id], s.now);
          TotalUpdate(s.jobs, id, s'.jobs[id]);
        case Report(w, ok) =>
          var id := s.holding[w];
          assert JobOk(s.jobs[id], s.now) && JobOk(s'.jobs[id], s.now);
          TotalUpdate(s.jobs, id, s'.jobs[id]);
        case _ =>
      }
      QueueDrains(s', steps[1..]);
    }
  }

  // ─── No lease ────────────────────────────────────────────────────────────────

  /** Running, but no live worker holds it. */
  ghost predicate Stuck(s: State, id: nat) {
    id < |s.jobs| && s.jobs[id].status == Running && forall w :: w in s.holding ==> s.holding[w] != id
  }

  /** A stuck job stays as it is and is never handed out again. */
  lemma {:induction false} CrashedJobIsLost(s: State, steps: seq<Step>, id: nat)
    requires Inv(s) && Legal(s, steps) && Stuck(s, id)
    ensures var t := Run(s, steps); Stuck(t, id) && t.jobs[id] == s.jobs[id]
    decreases |steps|
  {
    if steps != [] {
      StepKeeps(s, steps[0]);
      CrashedJobIsLost(Apply(s, steps[0]), steps[1..], id);
    }
  }

  predicate CrashesHolder(s: State, step: Step, id: nat) {
    step.Crash? && step.worker in s.holding && s.holding[step.worker] == id
  }

  /** At some step of the run the worker that held the job died. */
  predicate HolderCrashed(s: State, steps: seq<Step>, id: nat)
    requires Legal(s, steps)
    decreases |steps|
  {
    steps != [] && (CrashesHolder(s, steps[0], id) || HolderCrashed(Apply(s, steps[0]), steps[1..], id))
  }

  lemma StuckStep(s: State, step: Step, id: nat)
    requires Inv(s) && Allowed(s, step)
    ensures Stuck(Apply(s, step), id) <==> Stuck(s, id) || CrashesHolder(s, step, id)
  {
    var t := Apply(s, step);
    if step.Claim? { assert t.holding[step.worker] == step.id && s.jobs[step.id].status == Queued; }
    if !Stuck(s, id) && !CrashesHolder(s, step, id) && id < |s.jobs| && s.jobs[id].status == Running {
      var v :| v in s.holding && s.holding[v] == id;
      assert t.jobs[id].status == Running ==> v in t.holding && t.holding[v] == id;
    }
    if Stuck(s, id) {
      assert forall w :: w in t.holding ==> (w in s.holding && t.holding[w] == s.holding[w]) || step.Claim?;
    }
  }

  lemma {:induction false} StuckRun(s: State, steps: seq<Step>, id: nat)
    requires Inv(s) && Legal(s, steps)
    ensures Stuck(Run(s, steps), id) <==> Stuck(s, id) || HolderCrashed(s, steps, id)
    decreases |steps|
  {
    if steps != [] {
      StepKeeps(s, steps[0]);
      StuckStep(s, steps[0], id);
      StuckRun(Apply(s, steps[0]), steps[1..], id);
    }
  }

  /** There is no lease: on every run a job is stuck if and only if the worker that held it died. */
  lemma StuckMeansCrashed(steps: seq<Step>, id: nat)
    requires Legal(START, steps)
    ensures Stuck(Run(START, steps), id) <==> HolderCrashed(START, steps, id)
  {
    StuckRun(START, steps, id);
  }

  /** The shortest such run. */
  lemma OneCrashStrands(bucket: string)
    ensures var steps := [Enqueue(bucket, 1), Claim(0, bucket, 0), Crash(0)];
      Legal(START, steps) && Stuck(Run(START, steps), 0)
  {
    var steps := [Enqueue(bucket, 1), Claim(0, bucket, 0), Crash(0)];
    var a := Apply(START, steps[0]);
    assert NextDue(a.jobs, bucket, a.now, 0);
    var b := Apply(a, steps[1]);
    var c := Apply(b, steps[2]);
    assert steps[1..] == [steps[1], steps[2]] && steps[1..][1..] == [steps[2]] && [steps[2]][1..] == [];
    assert Legal(c, []) && Run(c, []) == c;
    assert Legal(b, [steps[2]]) && Run(b, [steps[2]]) == c;
    assert Legal(a, steps[1..]) && Run(a, steps[1..]) == c;
  }
}
