/** The outbox of internal/store/postgres/memory_capture_jobs.go: an answer and the job that will read it
    are stored by one transaction, once for every run, however often the caller tries. */
module CaptureOutbox {
  import opened Common

  datatype Message = Message(conversation: string, content: string, sequence: nat)

  datatype Job = Job(id: string, messageId: string)

  /** Jobs by run, messages by id; sequence numbers come from the database. */
  datatype Outbox = Outbox(conversations: set<string>, messages: map<string, Message>, jobs: map<string, Job>,
      sequence: nat)

  datatype Input = Input(runId: string, messageId: string, conversation: string, content: string, jobId: string)

  datatype EnqueueError = UnknownConversation | Conflict

  datatype Answer = Answer(message: Message, job: Job)

  predicate JobIdTaken(o: Outbox, id: string) {
    exists r | r in o.jobs :: o.jobs[r].id == id
  }

  /** The transaction: the stored pair for a known run, otherwise both rows, otherwise neither. */
  function Enqueue(o: Outbox, x: Input): Result<Outbox, EnqueueError> {
    if x.runId in o.jobs then Ok(o)
    else if x.conversation !in o.conversations then Err(UnknownConversation)
    else if x.messageId in o.messages || JobIdTaken(o, x.jobId) then Err(Conflict)
    else
      Ok(o.(messages := o.messages[x.messageId := Message(x.conversation, x.content, o.sequence + 1)],
            jobs := o.jobs[x.runId := Job(x.jobId, x.messageId)],
            sequence := o.sequence + 1))
  }

  /** Every job names a stored message of its own, and every message has a sequence number of its own. */
  ghost predicate Paired(o: Outbox) {
    && (forall r | r in o.jobs :: o.jobs[r].messageId in o.messages)
    && (forall r, s | r in o.jobs && s in o.jobs && r != s ::
         o.jobs[r].messageId != o.jobs[s].messageId && o.jobs[r].id != o.jobs[s].id)
    && (forall m | m in o.messages :: 1 <= o.messages[m].sequence <= o.sequence)
    && (forall m, n | m in o.messages && n in o.messages && m != n :: o.messages[m].sequence != o.messages[n].sequence)
  }

  class CaptureJobs {
    var outbox: Outbox

    constructor (conversations: set<string>)
      ensures outbox == Outbox(conversations, map[], map[], 0) && Paired(outbox)
    {
      outbox := Outbox(conversations, map[], map[], 0);
    }

    method EnqueueCaptureJob(x: Input) returns (r: Result<Answer, EnqueueError>, created: bool)
      requires Paired(outbox)
      modifies this
      ensures Paired(outbox)
      ensures r.Ok? ==> Ok(outbox) == Enqueue(old(outbox), x) && x.runId in outbox.jobs
      ensures r.Ok? ==> r.value.job == outbox.jobs[x.runId] && r.value.message == outbox.messages[r.value.job.messageId]
      ensures r.Ok? ==> (created <==> x.runId !in old(outbox).jobs)
      ensures r.Ok? && created ==>
        r.value == Answer(Message(x.conversation, x.content, outbox.sequence), Job(x.jobId, x.messageId))
      ensures r.Err? ==> outbox == old(outbox) && Enqueue(old(outbox), x) == Err(r.error) && !created
    {
      created := false;
      if x.runId in outbox.jobs {
        var existing := outbox.jobs[x.runId];
        return Ok(Answer(outbox.messages[existing.messageId], existing)), false;
      }
      if x.conversation !in outbox.conversations { return Err(UnknownConversation), false; }
      if x.messageId in outbox.messages || JobIdTaken(outbox, x.jobId) { return Err(Conflict), false; }
      EnqueueKeeps(outbox, x);
      var message := Message(x.conversation, x.content, outbox.sequence + 1);
      var job := Job(x.jobId, x.messageId);
      outbox := outbox.(messages := outbox.messages[x.messageId := message], jobs := outbox.jobs[x.runId := job],
        sequence := outbox.sequence + 1);
      r, created := Ok(Answer(message, job)), true;
    }
  }

  lemma EnqueueKeeps(o: Outbox, x: Input)
    requires Paired(o) && Enqueue(o, x).Ok?
    ensures Paired(Enqueue(o, x).value)
  {
  }

  // ---------------------------------------------------------------- tries

  datatype Try = Try(input: Input, call: Call)

  function AfterTry(o: Outbox, t: Try): Outbox {
    if t.call == NoEffect then o else match Enqueue(o, t.input) case Ok(next) => next case Err(_) => o
  }

  function AfterTries(o: Outbox, tries: seq<Try>): Outbox
    decreases |tries|
  {
    if tries == [] then o else AfterTries(AfterTry(o, tries[0]), tries[1..])
  }

  /** What was stored stays as it is, and a message is added only together with its job. */
  ghost predicate Grows(before: Outbox, after: Outbox) {
    && (forall r | r in before.jobs :: r in after.jobs && after.jobs[r] == before.jobs[r])
    && (forall m | m in before.messages :: m in after.messages && after.messages[m] == before.messages[m])
    && (forall m | m in after.messages && m !in before.messages :: exists r | r in after.jobs ::
         r !in before.jobs && after.jobs[r].messageId == m)
    && (forall r | r in after.jobs && r !in before.jobs :: after.jobs[r].messageId !in before.messages)
  }

  lemma TryGrows(o: Outbox, t: Try)
    requires Paired(o)
    ensures Paired(AfterTry(o, t)) && Grows(o, AfterTry(o, t))
  {
    var next := AfterTry(o, t);
    if next != o {
      EnqueueKeeps(o, t.input);
      assert t.input.runId in next.jobs && next.jobs[t.input.runId].messageId == t.input.messageId;
    }
  }

  lemma GrowsOn(a: Outbox, b: Outbox, c: Outbox)
    requires Grows(a, b) && Grows(b, c) && Paired(c)
    ensures Grows(a, c)
  {
    forall m | m in c.messages && m !in a.messages
      ensures exists r | r in c.jobs :: r !in a.jobs && c.jobs[r].messageId == m
    {
      if m in b.messages {
        var r :| r in b.jobs && r !in a.jobs && b.jobs[r].messageId == m;
        assert r in c.jobs && c.jobs[r] == b.jobs[r];
      } else {
        var r :| r in c.jobs && r !in b.jobs && c.jobs[r].messageId == m;
        assert r !in a.jobs;
      }
    }
  }

  /** However often callers try, and whichever replies are lost, messages and jobs are added in pairs, every
      run has at most one of them, and none is ever changed. */
  lemma {:induction false} TriesGrow(o: Outbox, tries: seq<Try>)
    requires Paired(o)
    ensures Paired(AfterTries(o, tries)) && Grows(o, AfterTries(o, tries))
    decreases |tries|
  {
    hide Paired, Grows, AfterTry;
    if tries == [] {
      NothingGrows(o);
    } else {
      TryGrows(o, tries[0]);
      TriesGrow(AfterTry(o, tries[0]), tries[1..]);
      GrowsOn(o, AfterTry(o, tries[0]), AfterTries(o, tries));
    }
  }

  lemma NothingGrows(o: Outbox)
    ensures Grows(o, o)
  {
  }

  /** A try that took effect, confirmed or not, decides what every later try for its run is told, whatever
      text and ids the later tries bring. */
  lemma RetryReturnsFirst(o: Outbox, first: Try, between: seq<Try>, again: Input)
    requires Paired(o) && first.call != NoEffect && Enqueue(o, first.input).Ok? && again.runId == first.input.runId
    ensures var stored, later := AfterTry(o, first), AfterTries(AfterTry(o, first), between);
      && again.runId in stored.jobs && stored.jobs[again.runId].messageId in stored.messages
      && Enqueue(later, again) == Ok(later)
      && again.runId in later.jobs && later.jobs[again.runId] == stored.jobs[again.runId]
      && stored.jobs[again.runId].messageId in later.messages
      && later.messages[later.jobs[again.runId].messageId] == stored.messages[stored.jobs[again.runId].messageId]
  {
    hide AfterTries;
    TryGrows(o, first);
    TriesGrow(AfterTry(o, first), between);
  }
}
