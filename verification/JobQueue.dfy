/** The leased job queue of internal/background/worker.go and internal/store/postgres/background_jobs.go
    with any number of workers, crashes, lost replies and expired leases.  Capture jobs
    (internal/memory/capture_worker.go, internal/store/postgres/memory_capture_jobs.go) run the same machine. */
module JobQueue {
  import opened Common

  datatype Status = Pending | Executing | Completed | Failed

  /** A table row; `claim` is history: the serial number of the row's latest claim. */
  datatype Job = Job(
    kind: string, dedupeKey: string, status: Status, attempt: nat, maxAttempts: nat, availableAt: int,
    leaseOwner: string, leaseUntil: Option<int>, claim: nat)

  /** A worker's own copy of the job it claimed; `claim` is the serial number of that claim. */
  datatype Work = Work(job: nat, attempt: nat, maxAttempts: nat, claim: nat)

  /** A worker without an entry in `workers` is idle. */
  datatype Queue = Queue(jobs: seq<Job>, workers: map<string, Work>, claims: nat)

  datatype Label =
    | Enqueue(kind: string, dedupeKey: string, maxAttempts: int, now: int)
    | Claim(worker: string, kind: string, now: int, until: int, chosen: Option<nat>, call: Call)
    | Complete(worker: string, call: Call)
    | Fail(worker: string, retryAt: int, call: Call)
    | Crash(worker: string)
    | Retry(job: nat, now: int)

  const DEFAULT_MAX_ATTEMPTS := 5

  function NewJob(kind: string, dedupeKey: string, maxAttempts: int, now: int): Job {
    Job(kind, dedupeKey, Pending, 0, if maxAttempts < 1 then DEFAULT_MAX_ATTEMPTS else maxAttempts, now, "", None, 0)
  }

  predicate Expired(job: Job, now: int) {
    job.status == Executing && job.leaseUntil.Some? && job.leaseUntil.value <= now
  }

  predicate Exhausted(job: Job, kind: string, now: int) {
    job.kind == kind && Expired(job, now) && job.attempt >= job.maxAttempts
  }

  predicate Claimable(job: Job, kind: string, now: int) {
    job.kind == kind && ((job.status == Pending && job.availableAt <= now)
      || (Expired(job, now) && job.attempt < job.maxAttempts))
  }

  function Released(job: Job, status: Status): Job {
    job.(status := status, leaseOwner := "", leaseUntil := None)
  }

  function SweptJob(job: Job, kind: string, now: int): Job {
    if Exhausted(job, kind, now) then Released(job, Failed) else job
  }

  /** The first statement of a claim: interrupted last attempts become failures. */
  function Sweep(jobs: seq<Job>, kind: string, now: int): (swept: seq<Job>)
    ensures |swept| == |jobs|
  {
    seq(|jobs|, i requires 0 <= i < |jobs| => SweptJob(jobs[i], kind, now))
  }

  predicate HasDedupeKey(jobs: seq<Job>, kind: string, dedupeKey: string) {
    exists i | 0 <= i < |jobs| :: jobs[i].kind == kind && jobs[i].dedupeKey == dedupeKey
  }

  predicate HoldsLease(jobs: seq<Job>, work: Work, worker: string) {
    work.job < |jobs| && jobs[work.job].status == Executing && jobs[work.job].leaseOwner == worker
  }

  /** The failure is final when the worker's own copy says that attempts have run out. */
  function FailedJob(job: Job, work: Work, retryAt: int): Job {
    Released(job, if work.attempt >= work.maxAttempts then Failed else Pending).(availableAt := retryAt)
  }

  function StepClaim(q: Queue, worker: string, kind: string, now: int, until: int, chosen: Option<nat>,
      call: Call): Option<Queue>
  {
    if worker in q.workers then None
    else
      var swept := Sweep(q.jobs, kind, now);
      match chosen
      case None =>
        if exists i | 0 <= i < |swept| :: Claimable(swept[i], kind, now) then None
        else Some(if call == NoEffect then q else q.(jobs := swept))
      case Some(j) =>
        if j >= |swept| || !Claimable(swept[j], kind, now) then None
        else
          var serial := q.claims + 1;
          var claimed := swept[j].(status := Executing, attempt := swept[j].attempt + 1, leaseOwner := worker,
                                   leaseUntil := Some(until), claim := serial);
          var committed := q.(jobs := swept[j := claimed], claims := serial);
          match call
          case NoEffect => Some(q)
          case ReplyLost => Some(committed)
          case Replied => Some(committed.(workers :=
            q.workers[worker := Work(j, claimed.attempt, claimed.maxAttempts, serial)]))
  }

  /** Reporting frees the worker, whether or not the store accepted or answered. */
  function StepReport(q: Queue, worker: string, reported: Job -> Job, call: Call): Option<Queue> {
    if worker !in q.workers then None
    else
      var work := q.workers[worker];
      var idle := q.(workers := q.workers - {worker});
      if call == NoEffect || !HoldsLease(q.jobs, work, worker) then Some(idle)
      else Some(idle.(jobs := q.jobs[work.job := reported(q.jobs[work.job])]))
  }

  function Step(q: Queue, l: Label): Option<Queue> {
    match l
    case Enqueue(kind, key, max, now) =>
      Some(if HasDedupeKey(q.jobs, kind, key) then q else q.(jobs := q.jobs + [NewJob(kind, key, max, now)]))
    case Claim(worker, kind, now, until, chosen, call) => StepClaim(q, worker, kind, now, until, chosen, call)
    case Complete(worker, call) => StepReport(q, worker, job => Released(job, Completed), call)
    case Fail(worker, retryAt, call) =>
      if worker !in q.workers then None
      else
        var work := q.workers[worker];
        StepReport(q, worker, job => FailedJob(job, work, retryAt), call)
    case Crash(worker) => if worker in q.workers then Some(q.(workers := q.workers - {worker})) else None
    case Retry(j, now) =>
      if j < |q.jobs| && q.jobs[j].status == Failed
      then Some(q.(jobs := q.jobs[j := Released(q.jobs[j], Pending).(attempt := 0, availableAt := now)]))
      else Some(q)
  }

  // ---------------------------------------------------------------- invariant

  predicate WithinBudget(job: Job) {
    && 1 <= job.maxAttempts && job.attempt <= job.maxAttempts
    && (job.status == Pending ==> job.attempt < job.maxAttempts)
    && (job.status == Executing ==> 1 <= job.attempt && job.leaseUntil.Some?)
  }

  /** The fence: a lease in a worker's name is the very claim the worker is working on. */
  predicate Fenced(q: Queue, worker: string)
    requires worker in q.workers
  {
    var work := q.workers[worker];
    && work.job < |q.jobs|
    && work.maxAttempts == q.jobs[work.job].maxAttempts
    && work.claim <= q.claims
    && (HoldsLease(q.jobs, work, worker) ==>
          q.jobs[work.job].attempt == work.attempt && q.jobs[work.job].claim == work.claim)
  }

  ghost predicate Inv(q: Queue) {
    && (forall j | 0 <= j < |q.jobs| :: WithinBudget(q.jobs[j]) && q.jobs[j].claim <= q.claims)
    && (forall w | w in q.workers :: Fenced(q, w))
  }

  /** How many more claims a job can see. */
  function Remaining(job: Job): int {
    if job.status in {Pending, Executing} then job.maxAttempts - job.attempt else 0
  }

  function Budget(jobs: seq<Job>): int {
    if jobs == [] then 0 else Budget(jobs[..|jobs| - 1]) + Remaining(jobs[|jobs| - 1])
  }

  predicate Claims(q: Queue, l: Label) {
    l.Claim? && l.chosen.Some? && l.call != NoEffect
  }

  lemma {:induction false} BudgetDrops(before: seq<Job>, after: seq<Job>)
    requires |after| == |before|
    requires forall i | 0 <= i < |before| :: Remaining(after[i]) <= Remaining(before[i])
    ensures Budget(after) <= Budget(before)
  {
    if before != [] {
      BudgetDrops(before[..|before| - 1], after[..|after| - 1]);
    }
  }

  lemma {:induction false} BudgetDropsAt(before: seq<Job>, after: seq<Job>, j: nat)
    requires |after| == |before| && j < |before|
    requires forall i | 0 <= i < |before| :: Remaining(after[i]) <= Remaining(before[i])
    requires Remaining(after[j]) < Remaining(before[j])
    ensures Budget(after) < Budget(before)
  {
    if j == |before| - 1 {
      BudgetDrops(before[..j], after[..j]);
    } else {
      BudgetDropsAt(before[..|before| - 1], after[..|after| - 1], j);
    }
  }

  lemma {:induction false} BudgetNonnegative(jobs: seq<Job>)
    requires forall i | 0 <= i < |jobs| :: WithinBudget(jobs[i])
    ensures 0 <= Budget(jobs)
  {
    if jobs != [] {
      BudgetNonnegative(jobs[..|jobs| - 1]);
    }
  }

  lemma ClaimedJob(q: Queue, l: Label, j: nat)
    requires Inv(q) && l.Claim? && Step(q, l).Some? && j < |q.jobs|
    ensures |Step(q, l).value.jobs| == |q.jobs|
    ensures WithinBudget(Step(q, l).value.jobs[j]) && Step(q, l).value.jobs[j].claim <= Step(q, l).value.claims
  {
    assert WithinBudget(q.jobs[j]);
  }

  lemma ClaimedWorker(q: Queue, l: Label, w: string)
    requires Inv(q) && l.Claim? && Step(q, l).Some? && w in Step(q, l).value.workers
    ensures Fenced(Step(q, l).value, w)
  {
    if w in q.workers { assert Fenced(q, w); }
  }

  lemma ClaimKeeps(q: Queue, l: Label)
    requires Inv(q) && l.Claim? && Step(q, l).Some?
    ensures Inv(Step(q, l).value)
  {
    hide Step, WithinBudget, Fenced;
    var next := Step(q, l).value;
    forall j | 0 <= j < |q.jobs| ensures |next.jobs| == |q.jobs|
      ensures WithinBudget(next.jobs[j]) && next.jobs[j].claim <= next.claims
    {
      ClaimedJob(q, l, j);
    }
    forall w | w in next.workers ensures Fenced(next, w) { ClaimedWorker(q, l, w); }
    SameJobs(q, l);
  }

  lemma SameJobs(q: Queue, l: Label)
    requires l.Claim? && Step(q, l).Some?
    ensures |Step(q, l).value.jobs| == |q.jobs|
  {
  }

  lemma ReportKeeps(q: Queue, l: Label)
    requires Inv(q) && (l.Complete? || l.Fail?) && Step(q, l).Some?
    ensures Inv(Step(q, l).value)
  {
    hide StepClaim;
    var next := Step(q, l).value;
    assert Fenced(q, l.worker);
    forall w | w in next.workers ensures Fenced(next, w) {
      assert Fenced(q, w);
    }
  }

  lemma StepKeeps(q: Queue, l: Label)
    requires Inv(q) && Step(q, l).Some?
    ensures Inv(Step(q, l).value)
  {
    hide StepClaim, StepReport;
    match l
    case Claim(_, _, _, _, _, _) => ClaimKeeps(q, l);
    case Complete(_, _) => ReportKeeps(q, l);
    case Fail(_, _, _) => ReportKeeps(q, l);
    case _ =>
      var next := Step(q, l).value;
      forall w | w in next.workers ensures Fenced(next, w) {
        assert Fenced(q, w);
      }
  }

  /** Apart from enqueueing and manual retry, no step adds budget and every claim spends some. */
  lemma StepSpends(q: Queue, l: Label)
    requires Inv(q) && Step(q, l).Some? && !l.Enqueue? && !l.Retry?
    ensures Budget(Step(q, l).value.jobs) + (if Claims(q, l) then 1 else 0) <= Budget(q.jobs)
  {
    var next := Step(q, l).value;
    match l
    case Claim(_, _, _, _, chosen, call) =>
      if Claims(q, l) {
        BudgetDropsAt(q.jobs, next.jobs, chosen.value);
      } else {
        BudgetDrops(q.jobs, next.jobs);
      }
    case Complete(worker, _) => BudgetDrops(q.jobs, next.jobs);
    case Fail(worker, _, _) =>
      assert Fenced(q, worker);
      BudgetDrops(q.jobs, next.jobs);
    case _ =>
  }

  // ---------------------------------------------------------------- runs

  ghost function Run(q: Queue, labels: seq<Label>): Option<Queue>
    decreases |labels|
  {
    if labels == [] then Some(q)
    else
      match Step(q, labels[0])
      case Some(next) => Run(next, labels[1..])
      case None => None
  }

  ghost function ClaimCount(q: Queue, labels: seq<Label>): nat
    decreases |labels|
  {
    if labels == [] || Step(q, labels[0]).None? then 0
    else ClaimCount(Step(q, labels[0]).value, labels[1..]) + if Claims(q, labels[0]) then 1 else 0
  }

  const START := Queue([], map[], 0)

  lemma {:induction false} RunKeeps(q: Queue, labels: seq<Label>)
    requires Inv(q) && Run(q, labels).Some?
    ensures Inv(Run(q, labels).value)
    decreases |labels|
  {
    hide Inv, Step;
    if labels != [] {
      StepKeeps(q, labels[0]);
      RunKeeps(Step(q, labels[0]).value, labels[1..]);
    }
  }

  /** In every reachable state, a report the store accepts comes from the job's latest claim, with the
      attempt number the store has; so whether the failure is final agrees with the stored budget. */
  lemma AcceptedReportIsLatest(labels: seq<Label>, worker: string)
    requires Run(START, labels).Some?
    ensures var q := Run(START, labels).value;
      worker in q.workers && HoldsLease(q.jobs, q.workers[worker], worker) ==>
        var work := q.workers[worker]; var job := q.jobs[work.job];
        work.claim == job.claim && work.attempt == job.attempt && work.maxAttempts == job.maxAttempts
  {
    RunKeeps(START, labels);
    var q := Run(START, labels).value;
    if worker in q.workers {
      assert Fenced(q, worker);
    }
  }

  /** Pending jobs have attempts left; executing ones are within their maximum. */
  lemma AttemptsStayWithinBudget(labels: seq<Label>, j: nat)
    requires Run(START, labels).Some? && j < |Run(START, labels).value.jobs|
    ensures var job := Run(START, labels).value.jobs[j];
      && (job.status == Pending ==> job.attempt < job.maxAttempts)
      && (job.status == Executing ==> 1 <= job.attempt <= job.maxAttempts)
      && job.attempt <= job.maxAttempts
  {
    RunKeeps(START, labels);
  }

  lemma {:induction false} ClaimsAreBounded(q: Queue, labels: seq<Label>)
    requires Inv(q) && Run(q, labels).Some?
    requires forall l | l in labels :: !l.Enqueue? && !l.Retry?
    ensures ClaimCount(q, labels) + Budget(Run(q, labels).value.jobs) <= Budget(q.jobs)
    decreases |labels|
  {
    hide Inv, Step, Budget;
    if labels != [] {
      StepSpends(q, labels[0]);
      StepKeeps(q, labels[0]);
      ClaimsAreBounded(Step(q, labels[0]).value, labels[1..]);
    }
  }

  /** Without new jobs or manual retries, a run makes at most as many claims as attempts remain. */
  lemma RunsDryUp(before: seq<Label>, after: seq<Label>)
    requires Run(START, before).Some? && Run(Run(START, before).value, after).Some?
    requires forall l | l in after :: !l.Enqueue? && !l.Retry?
    ensures ClaimCount(Run(START, before).value, after) <= Budget(Run(START, before).value.jobs)
  {
    var q := Run(START, before).value;
    RunKeeps(START, before);
    RunKeeps(q, after);
    ClaimsAreBounded(q, after);
    BudgetNonnegative(Run(q, after).value.jobs);
  }

  lemma CompletedStays(q: Queue, l: Label, j: nat)
    requires Step(q, l).Some? && j < |q.jobs| && q.jobs[j].status == Completed
    ensures j < |Step(q, l).value.jobs| && Step(q, l).value.jobs[j] == q.jobs[j]
  {
  }

  /** A completed job is never touched again. */
  lemma {:induction false} CompletedIsFinal(q: Queue, labels: seq<Label>, j: nat)
    requires Run(q, labels).Some? && j < |q.jobs| && q.jobs[j].status == Completed
    ensures j < |Run(q, labels).value.jobs| && Run(q, labels).value.jobs[j] == q.jobs[j]
    decreases |labels|
  {
    hide Step;
    if labels != [] {
      CompletedStays(q, labels[0], j);
      CompletedIsFinal(Step(q, labels[0]).value, labels[1..], j);
    }
  }

  // ---------------------------------------------------------------- what the history of a job says

  /** The step is an event of job j: it creates, leases, finishes, fails or restarts it. */
  predicate Touches(q: Queue, l: Label, j: nat) {
    match l
    case Enqueue(kind, key, _, _) => j == |q.jobs| && !HasDedupeKey(q.jobs, kind, key)
    case Claim(_, _, _, _, chosen, call) => chosen == Some(j) && call != NoEffect
    case Complete(worker, call) => ReportTakesEffect(q, worker, call, j)
    case Fail(worker, _, call) => ReportTakesEffect(q, worker, call, j)
    case Crash(_) => false
    case Retry(i, _) => i == j && j < |q.jobs| && q.jobs[j].status == Failed
  }

  predicate ReportTakesEffect(q: Queue, worker: string, call: Call, j: nat) {
    worker in q.workers && q.workers[worker].job == j && call != NoEffect
      && HoldsLease(q.jobs, q.workers[worker], worker)
  }

  /** What the latest event of a job leaves of it; a leased job whose attempts are used up may have been swept since. */
  predicate Tells(l: Label, job: Job) {
    match l
    case Enqueue(kind, key, _, now) =>
      job.kind == kind && job.dedupeKey == key && job.status == Pending && job.attempt == 0 && job.availableAt == now
    case Claim(worker, kind, _, until, _, _) =>
      && job.kind == kind
      && if job.status == Failed then job.attempt == job.maxAttempts
         else job.status == Executing && job.leaseOwner == worker && job.leaseUntil == Some(until)
    case Complete(_, _) => job.status == Completed
    case Fail(_, retryAt, _) =>
      job.availableAt == retryAt && job.status == if job.attempt == job.maxAttempts then Failed else Pending
    case Crash(_) => false
    case Retry(_, now) => job.status == Pending && job.attempt == 0 && job.availableAt == now
  }

  /** From when on an event lets a job be claimed. */
  function Due(l: Label): int {
    match l
    case Enqueue(_, _, _, now) => now
    case Claim(_, _, _, until, _, _) => until
    case Fail(_, retryAt, _) => retryAt
    case Retry(_, now) => now
    case _ => 0
  }

  ghost predicate EventAt(labels: seq<Label>, i: nat, j: nat) {
    i < |labels| && Run(START, labels[..i]).Some? && Touches(Run(START, labels[..i]).value, labels[i], j)
  }

  /** Position i holds the last event of job j. */
  ghost predicate LatestEvent(labels: seq<Label>, i: nat, j: nat) {
    EventAt(labels, i, j) && forall m: nat | i < m < |labels| :: !EventAt(labels, m, j)
  }

  lemma {:induction false} RunSnoc(q: Queue, labels: seq<Label>)
    requires labels != []
    ensures Run(q, labels) ==
      match Run(q, labels[..|labels| - 1]) case Some(v) => Step(v, labels[|labels| - 1]) case None => None
    decreases |labels|
  {
    hide Step;
    if |labels| > 1 && Step(q, labels[0]).Some? {
      assert labels[..|labels| - 1][1..] == labels[1..][..|labels| - 2];
      RunSnoc(Step(q, labels[0]).value, labels[1..]);
    } else if |labels| == 1 {
      assert labels[1..] == [];
    }
  }

  lemma EventTells(q: Queue, l: Label, j: nat)
    requires Inv(q) && Step(q, l).Some? && Touches(q, l, j)
    ensures j < |Step(q, l).value.jobs| && Tells(l, Step(q, l).value.jobs[j])
  {
    if l.Fail? || l.Complete? { assert Fenced(q, l.worker); }
  }

  /** A step that is no event of a job leaves it alone, but for sweeping it when it is expired and used up. */
  lemma OthersLeave(q: Queue, l: Label, j: nat)
    requires Inv(q) && Step(q, l).Some? && !Touches(q, l, j) && j < |q.jobs|
    ensures j < |Step(q, l).value.jobs|
    ensures var job, next := q.jobs[j], Step(q, l).value.jobs[j];
      next == job || (job.status == Executing && job.attempt == job.maxAttempts && next == Released(job, Failed))
  {
    assert WithinBudget(q.jobs[j]);
  }

  /** In every run, a job is as its latest event left it. */
  lemma {:induction false} LatestEventTells(labels: seq<Label>, i: nat, j: nat)
    requires Run(START, labels).Some? && LatestEvent(labels, i, j)
    ensures j < |Run(START, labels).value.jobs| && Tells(labels[i], Run(START, labels).value.jobs[j])
    decreases |labels|
  {
    hide Run, Step, Touches, Inv;
    var before, last := labels[..|labels| - 1], |labels| - 1;
    RunSnoc(START, labels);
    StartInv();
    RunKeeps(START, before);
    var q := Run(START, before).value;
    if i == last {
      EventTells(q, labels[last], j);
    } else {
      EarlierEvents(labels, j);
      assert EventAt(before, i, j) && !EventAt(labels, last, j);
      forall m: nat | i < m < |before| ensures !EventAt(before, m, j) {
        assert !EventAt(labels, m, j);
      }
      LatestEventTells(before, i, j);
      OthersLeave(q, labels[last], j);
    }
  }

  lemma EarlierEvents(labels: seq<Label>, j: nat)
    requires labels != []
    ensures forall m: nat | m < |labels| - 1 :: EventAt(labels, m, j) <==> EventAt(labels[..|labels| - 1], m, j)
  {
    hide Run, Touches;
    forall m: nat | m < |labels| - 1 ensures EventAt(labels, m, j) <==> EventAt(labels[..|labels| - 1], m, j) {
      assert labels[..|labels| - 1][..m] == labels[..m];
    }
  }

  lemma StartInv()
    ensures Inv(START)
  {
  }

  /** In every run: an idle worker can be given a job with attempts left exactly when what last happened to it is due,
      be that its lease, its retry, or its first time. */
  lemma ClaimedExactlyWhenDue(labels: seq<Label>, i: nat, j: nat, worker: string, kind: string, now: int, until: int,
      call: Call)
    requires Run(START, labels).Some? && LatestEvent(labels, i, j) && worker !in Run(START, labels).value.workers
    ensures var q := Run(START, labels).value;
      && j < |q.jobs|
      && (Step(q, Claim(worker, kind, now, until, Some(j), call)).Some? <==>
            && kind == q.jobs[j].kind && q.jobs[j].status in {Pending, Executing}
            && q.jobs[j].attempt < q.jobs[j].maxAttempts && Due(labels[i]) <= now)
  {
    hide Run;
    LatestEventTells(labels, i, j);
    StartInv();
    RunKeeps(START, labels);
    assert WithinBudget(Run(START, labels).value.jobs[j]);
  }

  /** A claim does not come before what last happened to the job is due: its lease, its retry time or its first time. */
  lemma NextClaimWaits(labels: seq<Label>, i: nat, k: nat, j: nat)
    requires Run(START, labels).Some? && i < k < |labels| && labels[k].Claim?
    requires EventAt(labels, i, j) && EventAt(labels, k, j) && forall m: nat | i < m < k :: !EventAt(labels, m, j)
    ensures Due(labels[i]) <= labels[k].now
  {
    hide Run, Step, Touches, Due, LatestEvent;
    RunPrefix(START, labels, k + 1);
    RunSnoc(START, labels[..k + 1]);
    assert labels[..k + 1][..k] == labels[..k];
    assert LatestEvent(labels[..k], i, j) by { LatestBefore(labels, i, k, j); }
    var q, l := Run(START, labels[..k]).value, labels[k];
    IdleClaims(q, l, j);
    ClaimedExactlyWhenDue(labels[..k], i, j, l.worker, l.kind, l.now, l.until, l.call);
    assert labels[..k][i] == labels[i];
  }

  lemma IdleClaims(q: Queue, l: Label, j: nat)
    requires l.Claim? && Touches(q, l, j) && Step(q, l).Some?
    ensures l.worker !in q.workers && l == Claim(l.worker, l.kind, l.now, l.until, Some(j), l.call)
  {
  }

  lemma LatestBefore(labels: seq<Label>, i: nat, k: nat, j: nat)
    requires i < k <= |labels| && EventAt(labels, i, j) && forall m: nat | i < m < k :: !EventAt(labels, m, j)
    ensures LatestEvent(labels[..k], i, j)
  {
    hide Run, Touches;
    forall m: nat | m < k ensures EventAt(labels[..k], m, j) <==> EventAt(labels, m, j) {
      assert labels[..k][..m] == labels[..m];
    }
  }

  lemma {:induction false} RunPrefix(q: Queue, labels: seq<Label>, n: nat)
    requires Run(q, labels).Some? && n <= |labels|
    ensures Run(q, labels[..n]).Some?
    decreases |labels|
  {
    hide Step;
    if n < |labels| {
      RunSnoc(q, labels);
      assert labels[..|labels| - 1][..n] == labels[..n];
      RunPrefix(q, labels[..|labels| - 1], n);
    } else {
      assert labels[..n] == labels;
    }
  }

  /** However many claims come between: as long as leases end no earlier than they begin and nobody reports on the job
      or restarts it, no later claim comes before an earlier lease is over. */
  lemma {:induction false} LeasesExclude(labels: seq<Label>, i: nat, k: nat, j: nat)
    requires Run(START, labels).Some? && i < k < |labels|
    requires EventAt(labels, i, j) && EventAt(labels, k, j)
    requires forall m: nat | i <= m <= k && EventAt(labels, m, j) ::
      labels[m].Claim? && labels[m].now <= labels[m].until
    ensures labels[i].until <= labels[k].now
    decreases k - i
  {
    hide Run, EventAt;
    if m: nat :| i < m < k && EventAt(labels, m, j) {
      LeasesExclude(labels, i, m, j);
      LeasesExclude(labels, m, k, j);
    } else {
      NextClaimWaits(labels, i, k, j);
    }
  }

  /** A claim of a kind that takes effect, even one that finds nothing to do, fails every job of that kind whose lease
      is over and whose attempts are used up. */
  lemma UsedUpJobsFail(q: Queue, l: Label, j: nat)
    requires Inv(q) && l.Claim? && l.call != NoEffect && Step(q, l).Some? && j < |q.jobs|
    requires q.jobs[j].kind == l.kind && q.jobs[j].status == Executing && q.jobs[j].attempt == q.jobs[j].maxAttempts
    requires q.jobs[j].leaseUntil.Some? && q.jobs[j].leaseUntil.value <= l.now
    ensures j < |Step(q, l).value.jobs| && Step(q, l).value.jobs[j].status == Failed
    ensures Step(q, l).value.jobs[j].leaseUntil == None && Step(q, l).value.jobs[j].leaseOwner == ""
  {
  }

  // ---------------------------------------------------------------- how often a job is claimed

  /** The claims of job j that took effect in a run. */
  ghost function ClaimsOf(labels: seq<Label>, j: nat): nat
    decreases |labels|
  {
    if labels == [] then 0
    else
      var n := |labels| - 1;
      ClaimsOf(labels[..n], j) + if EventAt(labels, n, j) && labels[n].Claim? then 1 else 0
  }

  /** A job enqueued with a maximum, or with five for none, and never restarted by hand: its attempt number is the
      number of its claims, which never exceeds that maximum, whoever crashes in between. */
  lemma {:induction false} AttemptsAreClaims(labels: seq<Label>, e: nat, j: nat)
    requires Run(START, labels).Some? && EventAt(labels, e, j) && labels[e].Enqueue?
    requires forall m: nat | EventAt(labels, m, j) :: !labels[m].Retry?
    ensures j < |Run(START, labels).value.jobs|
    ensures var job, max := Run(START, labels).value.jobs[j], labels[e].maxAttempts;
      && job.kind == labels[e].kind && job.dedupeKey == labels[e].dedupeKey
      && job.maxAttempts == (if max < 1 then 5 else max)
      && job.attempt == ClaimsOf(labels, j) <= job.maxAttempts
    decreases |labels|
  {
    hide Run, Step, Touches, Inv;
    var before, last := labels[..|labels| - 1], |labels| - 1;
    RunSnoc(START, labels);
    StartInv();
    RunKeeps(START, before);
    RunKeeps(START, labels);
    var q := Run(START, before).value;
    EarlierEvents(labels, j);
    if e == last {
      Enqueued(q, labels[e], j);
      NoClaimYet(before, j);
    } else {
      assert EventAt(before, e, j);
      forall m: nat | EventAt(before, m, j) ensures !before[m].Retry? { assert EventAt(labels, m, j); }
      AttemptsAreClaims(before, e, j);
      assert EventAt(labels, last, j) <==> Touches(q, labels[last], j);
      StepCountsClaims(q, labels[last], j);
    }
    BudgetAt(Run(START, labels).value, j);
  }

  lemma BudgetAt(q: Queue, j: nat)
    requires Inv(q) && j < |q.jobs|
    ensures q.jobs[j].attempt <= q.jobs[j].maxAttempts
  {
  }

  lemma Enqueued(q: Queue, l: Label, j: nat)
    requires l.Enqueue? && Touches(q, l, j) && Step(q, l).Some?
    ensures j == |q.jobs| && j < |Step(q, l).value.jobs|
    ensures var job := Step(q, l).value.jobs[j];
      && job.attempt == 0 && job.kind == l.kind && job.dedupeKey == l.dedupeKey
      && job.maxAttempts == if l.maxAttempts < 1 then 5 else l.maxAttempts
  {
  }

  lemma StepCountsClaims(q: Queue, l: Label, j: nat)
    requires Inv(q) && Step(q, l).Some? && j < |q.jobs| && !(Touches(q, l, j) && l.Retry?)
    ensures j < |Step(q, l).value.jobs|
    ensures var job, next := q.jobs[j], Step(q, l).value.jobs[j];
      && next.attempt == job.attempt + (if Touches(q, l, j) && l.Claim? then 1 else 0)
      && next.maxAttempts == job.maxAttempts && next.kind == job.kind && next.dedupeKey == job.dedupeKey
  {
  }

  /** A job that does not exist yet has not been claimed. */
  lemma {:induction false} NoClaimYet(labels: seq<Label>, j: nat)
    requires Run(START, labels).Some? && j >= |Run(START, labels).value.jobs|
    ensures ClaimsOf(labels, j) == 0
    decreases |labels|
  {
    hide Run, Step;
    if labels != [] {
      RunSnoc(START, labels);
      var q, l := Run(START, labels[..|labels| - 1]).value, labels[|labels| - 1];
      JobsStay(q, l);
      NoClaimYet(labels[..|labels| - 1], j);
    }
  }

  lemma JobsStay(q: Queue, l: Label)
    requires Step(q, l).Some?
    ensures |q.jobs| <= |Step(q, l).value.jobs|
    ensures l.Claim? && l.chosen.Some? ==> l.chosen.value < |q.jobs|
  {
  }

  /** A kind and key name at most one job, and enqueueing them makes sure that there is one. */
  predicate KeysDiffer(q: Queue) {
    forall i, j | 0 <= i < j < |q.jobs| ::
      (q.jobs[i].kind, q.jobs[i].dedupeKey) != (q.jobs[j].kind, q.jobs[j].dedupeKey)
  }

  predicate HasJob(q: Queue, kind: string, key: string) {
    exists job | job in q.jobs :: job.kind == kind && job.dedupeKey == key
  }

  lemma StepKeepsKeys(q: Queue, l: Label)
    requires KeysDiffer(q) && Step(q, l).Some?
    ensures KeysDiffer(Step(q, l).value)
  {
    hide Step;
    var next := Step(q, l).value;
    JobsAfter(q, l);
    forall i | 0 <= i < |q.jobs|
      ensures i < |next.jobs| && next.jobs[i].kind == q.jobs[i].kind && next.jobs[i].dedupeKey == q.jobs[i].dedupeKey
    {
      KeyStays(q, l, i);
    }
  }

  lemma KeyStays(q: Queue, l: Label, i: nat)
    requires Step(q, l).Some? && i < |q.jobs|
    ensures i < |Step(q, l).value.jobs|
    ensures Step(q, l).value.jobs[i].kind == q.jobs[i].kind
    ensures Step(q, l).value.jobs[i].dedupeKey == q.jobs[i].dedupeKey
  {
  }

  lemma JobsAfter(q: Queue, l: Label)
    requires Step(q, l).Some?
    ensures var next := Step(q, l).value;
      |next.jobs| == |q.jobs| || (l.Enqueue? && !HasDedupeKey(q.jobs, l.kind, l.dedupeKey)
        && |next.jobs| == |q.jobs| + 1 && next.jobs[|q.jobs|].kind == l.kind
        && next.jobs[|q.jobs|].dedupeKey == l.dedupeKey)
  {
  }

  lemma {:induction false} OneJobPerKey(labels: seq<Label>, kind: string, key: string, max: int, now: int)
    requires Run(START, labels).Some?
    ensures KeysDiffer(Run(START, labels).value)
    ensures var next := Step(Run(START, labels).value, Enqueue(kind, key, max, now));
      next.Some? && HasJob(next.value, kind, key)
    decreases |labels|
  {
    hide Run, KeysDiffer;
    if labels == [] {
      EmptyKeys();
    } else {
      hide Step;
      RunSnoc(START, labels);
      OneJobPerKey(labels[..|labels| - 1], kind, key, max, now);
      StepKeepsKeys(Run(START, labels[..|labels| - 1]).value, labels[|labels| - 1]);
    }
    JobIsThere(Run(START, labels).value, kind, key, max, now);
  }

  lemma EmptyKeys()
    ensures Run(START, []) == Some(START) && KeysDiffer(START)
  {
  }

  lemma JobIsThere(q: Queue, kind: string, key: string, max: int, now: int)
    ensures var next := Step(q, Enqueue(kind, key, max, now)); next.Some? && HasJob(next.value, kind, key)
  {
    var next := Step(q, Enqueue(kind, key, max, now)).value;
    if !HasDedupeKey(q.jobs, kind, key) {
      assert next.jobs[|q.jobs|].kind == kind && next.jobs[|q.jobs|].dedupeKey == key;
    }
  }
}
