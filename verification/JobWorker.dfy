/** The worker loop body, its retry delay, and the claim transaction as the statements of
    internal/background/worker.go and internal/store/postgres/background_jobs.go run them. */
module JobWorker {
  import opened Common
  import opened JobQueue

  const SECOND := 1_000_000_000
  const MINUTE := 60 * SECOND

  function Pow2(n: nat): nat {
    if n == 0 then 1 else 2 * Pow2(n - 1)
  }

  function Min(a: int, b: int): int { if a < b then a else b }

  lemma {:induction false} Pow2Monotone(m: nat, n: nat)
    requires m <= n
    ensures 1 <= Pow2(m) <= Pow2(n)
  {
    if m < n {
      Pow2Monotone(m, n - 1);
    } else if m > 0 {
      Pow2Monotone(m - 1, n - 1);
    }
  }

  lemma ScaledMonotone(base: int, m: nat, n: nat)
    requires base > 0 && m <= n
    ensures base * Pow2(m) <= base * Pow2(n)
  {
    Pow2Monotone(m, n);
  }

  /** Doubling stops early at a minute, without changing the capped exponential. */
  method RetryDelay(base: int, attempt: int) returns (delay: int)
    requires base > 0
    ensures delay == Min(base * Pow2(if attempt < 1 then 0 else attempt - 1), 60_000_000_000)
  {
    var attempts := if attempt < 1 then 1 else attempt;
    delay := base;
    var current := 1;
    while current < attempts && delay < MINUTE
      invariant 1 <= current <= attempts
      invariant delay == base * Pow2(current - 1)
    {
      delay := delay * 2;
      assert base * Pow2(current) == (base * Pow2(current - 1)) * 2;
      current := current + 1;
    }
    ScaledMonotone(base, current - 1, attempts - 1);
    delay := Min(delay, MINUTE);
  }

  /** A claimable job that nothing claimable precedes in (available_at, position). */
  predicate FirstClaimable(jobs: seq<Job>, kind: string, now: int, chosen: Option<nat>) {
    match chosen
    case None => forall i | 0 <= i < |jobs| :: !Claimable(jobs[i], kind, now)
    case Some(j) =>
      && j < |jobs| && Claimable(jobs[j], kind, now)
      && forall i | 0 <= i < |jobs| && Claimable(jobs[i], kind, now) ::
           jobs[j].availableAt < jobs[i].availableAt || (jobs[j].availableAt == jobs[i].availableAt && j <= i)
  }

  /** How the calls of one round turn out, what the handler returns, and what others do in between. */
  datatype Schedule = Schedule(before: seq<Label>, during: seq<Label>, claim: Call, report: Call, handled: bool,
      retryAt: int)

  datatype Outcome = Idle | ClaimLost | Unreported | ReportedCompleted(job: nat) | ReportedFailed(job: nat, final: bool)

  predicate Concerns(l: Label, worker: string) {
    match l
    case Claim(w, _, _, _, _, _) => w == worker
    case Complete(w, _) => w == worker
    case Fail(w, _, _) => w == worker
    case Crash(w) => w == worker
    case _ => false
  }

  lemma ForeignStep(q: Queue, l: Label, worker: string)
    requires Step(q, l).Some? && !Concerns(l, worker)
    ensures worker in Step(q, l).value.workers <==> worker in q.workers
    ensures worker in q.workers ==> Step(q, l).value.workers[worker] == q.workers[worker]
  {
  }

  method SweepRows(jobs: seq<Job>, kind: string, now: int) returns (rows: seq<Job>)
    ensures rows == Sweep(jobs, kind, now)
  {
    rows := jobs;
    for i := 0 to |rows|
      invariant |rows| == |jobs|
      invariant forall k | 0 <= k < i :: rows[k] == SweptJob(jobs[k], kind, now)
      invariant forall k | i <= k < |jobs| :: rows[k] == jobs[k]
    {
      if rows[i].kind == kind && Expired(rows[i], now) && rows[i].attempt >= rows[i].maxAttempts {
        rows := rows[i := rows[i].(status := Failed, leaseOwner := "", leaseUntil := None)];
      }
    }
  }

  method PickFirst(rows: seq<Job>, kind: string, now: int) returns (chosen: Option<nat>)
    ensures FirstClaimable(rows, kind, now, chosen)
  {
    chosen := None;
    for i := 0 to |rows|
      invariant chosen.None? ==> forall k | 0 <= k < i :: !Claimable(rows[k], kind, now)
      invariant chosen.Some? ==> chosen.value < i && FirstClaimable(rows[..i], kind, now, chosen)
    {
      if Claimable(rows[i], kind, now) && (chosen.None? || rows[i].availableAt < rows[chosen.value].availableAt) {
        chosen := Some(i);
      }
    }
    assert rows[..|rows|] == rows;
  }

  lemma StepIsClaim(q: Queue, worker: string, kind: string, now: int, until: int, chosen: Option<nat>, call: Call)
    requires worker !in q.workers && FirstClaimable(Sweep(q.jobs, kind, now), kind, now, chosen)
    ensures StepClaim(q, worker, kind, now, until, chosen, call).Some?
  {
  }

  class Table {
    var queue: Queue
    ghost var history: seq<Label>

    constructor ()
      ensures Valid() && queue == START && history == []
    {
      queue, history := START, [];
    }

    /** The table is where a run of the queue has taken it. */
    ghost predicate Valid()
      reads this
    {
      Inv(queue) && Run(START, history) == Some(queue)
    }

    method Act(l: Label)
      requires Valid() && Step(queue, l).Some?
      modifies this
      ensures Valid() && Some(queue) == old(Step(queue, l)) && history == old(history) + [l]
    {
      hide Inv, Step;
      StepKeeps(queue, l);
      Extends(l);
      queue, history := Step(queue, l).value, history + [l];
    }

    lemma Extends(l: Label)
      requires Run(START, history) == Some(queue)
      ensures Run(START, history + [l]) == Step(queue, l)
    {
      RunSnoc(START, history + [l]);
      assert (history + [l])[..|history|] == history;
    }

    /** What others do is none of this worker's own steps. */
    method Yield(worker: string, labels: seq<Label>)
      requires Valid()
      modifies this
      ensures Valid() && old(history) <= history
      ensures forall i | |old(history)| <= i < |history| :: !Concerns(history[i], worker)
      ensures labels == [] ==> queue == old(queue)
      ensures worker in queue.workers <==> worker in old(queue).workers
      ensures worker in queue.workers ==> queue.workers[worker] == old(queue).workers[worker]
    {
      hide Inv, Step, Concerns;
      for i := 0 to |labels|
        invariant Valid() && old(history) <= history && (labels == [] ==> queue == old(queue))
        invariant forall k | |old(history)| <= k < |history| :: !Concerns(history[k], worker)
        invariant worker in queue.workers <==> worker in old(queue).workers
        invariant worker in queue.workers ==> queue.workers[worker] == old(queue).workers[worker]
      {
        var l := labels[i];
        if !Concerns(l, worker) && Step(queue, l).Some? {
          ForeignStep(queue, l, worker);
          Act(l);
        }
      }
    }

    /** The claim transaction, row by row: fail the exhausted, pick the first claimable, lease it. */
    method Claim(worker: string, kind: string, now: int, until: int, call: Call)
      returns (claimed: Option<Work>, chosen: Option<nat>)
      requires Valid() && worker !in queue.workers
      modifies this
      ensures Valid() && history == old(history) + [Label.Claim(worker, kind, now, until, chosen, call)]
      ensures FirstClaimable(Sweep(old(queue).jobs, kind, now), kind, now, chosen)
      ensures Some(queue) == StepClaim(old(queue), worker, kind, now, until, chosen, call)
      ensures claimed.Some? <==> call == Replied && chosen.Some?
      ensures claimed.Some? ==>
        && worker in queue.workers && queue.workers[worker] == claimed.value && Some(claimed.value.job) == chosen
      ensures chosen.Some? && call != NoEffect ==>
        && chosen.value < |queue.jobs|
        && var job := queue.jobs[chosen.value];
           job.status == Executing && job.leaseOwner == worker && job.leaseUntil == Some(until)
      ensures claimed.None? ==> worker !in queue.workers
    {
      hide FirstClaimable, Sweep, Inv, Run;
      var rows := SweepRows(queue.jobs, kind, now);
      chosen := PickFirst(rows, kind, now);
      StepIsClaim(queue, worker, kind, now, until, chosen, call);
      StepKeeps(queue, Label.Claim(worker, kind, now, until, chosen, call));
      Extends(Label.Claim(worker, kind, now, until, chosen, call));
      history := history + [Label.Claim(worker, kind, now, until, chosen, call)];
      claimed := None;
      if call == NoEffect {
        return;
      }
      if chosen.None? {
        queue := queue.(jobs := rows);
        return;
      }
      var job := rows[chosen.value];
      var leased := job.(status := Executing, attempt := job.attempt + 1, leaseOwner := worker,
        leaseUntil := Some(until), claim := queue.claims + 1);
      rows := rows[chosen.value := leased];
      queue := queue.(jobs := rows, claims := queue.claims + 1);
      if call == Replied {
        var work := Work(chosen.value, leased.attempt, leased.maxAttempts, queue.claims);
        queue := queue.(workers := queue.workers[worker := work]);
        claimed := Some(work);
      }
    }
  }

  class Worker {
    const table: Table
    const id: string
    const kind: string
    const taskTimeout: int
    const leaseDuration: int
    const retryBase: int

    /** Whatever the options, a lease outlives the task it covers. */
    constructor (table: Table, id: string, kind: string, taskTimeout: int, leaseDuration: int, retryBase: int)
      ensures this.table == table && this.id == id && this.kind == kind
      ensures 0 < this.taskTimeout < this.leaseDuration && 0 < this.retryBase
      ensures this.taskTimeout == if taskTimeout > 0 then taskTimeout else 90_000_000_000
      ensures this.leaseDuration ==
        if leaseDuration > this.taskTimeout then leaseDuration else this.taskTimeout + 30_000_000_000
      ensures this.retryBase == if retryBase > 0 then retryBase else 2_000_000_000
    {
      var timeout := if taskTimeout <= 0 then 90 * SECOND else taskTimeout;
      this.table, this.id, this.kind := table, id, kind;
      this.taskTimeout := timeout;
      this.leaseDuration := if leaseDuration <= timeout then timeout + 30 * SECOND else leaseDuration;
      this.retryBase := if retryBase <= 0 then 2 * SECOND else retryBase;
    }

    predicate OwnClaim(l: Label) { l.Claim? && l.worker == id }

    /** One round.  When the store accepts and answers a report, the row is as reported, the report came
        from its latest claim, and a failure is final exactly when its attempts are used up.  The worker asks for one
        job, under a lease of its full length from now on.  Undisturbed, it is idle exactly when nothing can be
        claimed, and reports what the handler returned. */
    method ProcessNext(now: int, later: int, s: Schedule) returns (outcome: Outcome)
      requires table.Valid() && id !in table.queue.workers && retryBase > 0
      modifies table
      ensures table.Valid() && id !in table.queue.workers
      ensures old(table.history) <= table.history
      ensures exists i | |old(table.history)| <= i < |table.history| :: OwnClaim(table.history[i])
      ensures forall i | |old(table.history)| <= i < |table.history| && OwnClaim(table.history[i]) ::
        var l := table.history[i]; l.kind == kind && l.now == now && l.until == now + leaseDuration
      ensures outcome.ReportedCompleted? ==>
        s.handled && outcome.job < |table.queue.jobs| && table.queue.jobs[outcome.job].status == Completed
      ensures outcome.ReportedFailed? ==>
        && !s.handled && outcome.job < |table.queue.jobs|
        && var job := table.queue.jobs[outcome.job];
           && job.status == (if outcome.final then Failed else Pending)
           && 1 <= job.attempt && (outcome.final <==> job.attempt == job.maxAttempts)
           && job.availableAt == later + Min(retryBase * Pow2(job.attempt - 1), MINUTE)
      ensures s.before == [] && s.during == [] && s.claim == Replied && s.report == Replied ==>
        if forall job | job in Sweep(old(table.queue).jobs, kind, now) :: !Claimable(job, kind, now)
        then outcome == Idle
        else if s.handled then outcome.ReportedCompleted? else outcome.ReportedFailed?
    {
      hide Inv, Step, Sweep, StepClaim, Run, Claimable;
      table.Yield(id, s.before);
      ghost var n := |table.history|;
      var work, chosen := table.Claim(id, kind, now, now + leaseDuration, s.claim);
      assert OwnClaim(table.history[n]);
      if work.None? {
        return if s.claim == Replied then Idle else ClaimLost;
      }
      assert HoldsLease(table.queue.jobs, work.value, id);
      table.Yield(id, s.during);
      outcome := ReportResult(work.value, later, s);
    }

    /** What the handler returned, for the job the worker has. */
    method ReportResult(work: Work, later: int, s: Schedule) returns (outcome: Outcome)
      requires table.Valid() && id in table.queue.workers && table.queue.workers[id] == work && retryBase > 0
      modifies table
      ensures table.Valid() && id !in table.queue.workers
      ensures |table.history| == |old(table.history)| + 1 && old(table.history) <= table.history
      ensures !table.history[|old(table.history)|].Claim?
      ensures outcome.ReportedCompleted? ==>
        s.handled && outcome.job < |table.queue.jobs| && table.queue.jobs[outcome.job].status == Completed
      ensures outcome.ReportedFailed? ==>
        && !s.handled && outcome.job < |table.queue.jobs|
        && var job := table.queue.jobs[outcome.job];
           && job.status == (if outcome.final then Failed else Pending)
           && 1 <= job.attempt && (outcome.final <==> job.attempt == job.maxAttempts)
           && job.availableAt == later + Min(retryBase * Pow2(job.attempt - 1), MINUTE)
      ensures if HoldsLease(old(table.queue).jobs, work, id) && s.report == Replied
        then (if s.handled then outcome.ReportedCompleted? else outcome.ReportedFailed?) && outcome.job == work.job
        else outcome == Unreported
    {
      hide Inv, Step, Run;
      var accepted := HoldsLease(table.queue.jobs, work, id);
      if s.handled {
        Report(Complete(id, s.report));
        return if accepted && s.report == Replied then ReportedCompleted(work.job) else Unreported;
      }
      var final := work.attempt >= work.maxAttempts;
      var delay := RetryDelay(retryBase, work.attempt);
      Report(Fail(id, later + delay, s.report));
      return if accepted && s.report == Replied then ReportedFailed(work.job, final) else Unreported;
    }

    method Report(l: Label)
      requires table.Valid() && id in table.queue.workers
      requires (l.Complete? && l.worker == id) || (l.Fail? && l.worker == id)
      modifies table
      ensures table.Valid() && id !in table.queue.workers && table.history == old(table.history) + [l]
      ensures var work := old(table.queue).workers[id];
        l.call != NoEffect && HoldsLease(old(table.queue).jobs, work, id) ==>
          && work.job < |table.queue.jobs|
          && old(table.queue).jobs[work.job].claim == work.claim
          && var job := table.queue.jobs[work.job];
             && job.attempt == work.attempt && job.maxAttempts == work.maxAttempts
                  && 1 <= job.attempt <= job.maxAttempts
             && job.status == (if l.Complete? then Completed else if work.attempt >= work.maxAttempts then Failed
                  else Pending)
             && (l.Fail? ==> job.availableAt == l.retryAt)
    {
      hide Run;
      assert Fenced(table.queue, id);
      table.Act(l);
    }
  }
}
