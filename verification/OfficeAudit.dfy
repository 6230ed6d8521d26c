/** What holds in every run of the office protocol, timely or not: the audit trail replays, drafts and
    operations stay coupled, nothing is written remotely without an approval. */
module OfficeAudit {
  import opened Common
  import opened OfficeStore
  import opened OfficeProtocol
  import OfficeSafety

  // ---------------------------------------------------------------- every run

  ghost predicate Licensed(w: World) {
    && Consistent(w.db)
    && (forall m | m in w.mailbox ::
          w.mailbox[m].operation in w.db.operations && OnRecord(w.db, w.db.operations[w.mailbox[m].operation].draftId))
    && (forall key | key in w.calendar :: OnRecord(w.db, key.draftId))
    && (forall a | a in w.attempts ::
          var o := w.attempts[a].operation;
          o in w.db.operations && OnRecord(w.db, w.db.operations[o].draftId)
            && w.db.operations[o].key.draftId == w.db.operations[o].draftId)
  }

  /** Operations keep their identity, a completed one all of its row, and the logs only grow. */
  ghost predicate Longer(db: Db, next: Db) {
    && (forall o | o in db.operations ::
          o in next.operations
          && next.operations[o].draftId == db.operations[o].draftId
          && next.operations[o].kind == db.operations[o].kind
          && next.operations[o].key == db.operations[o].key
          && db.operations[o].attempt <= next.operations[o].attempt
          && (db.operations[o].status == OpCompleted ==> next.operations[o] == db.operations[o]))
    && db.draftLog <= next.draftLog
    && db.operationLog <= next.operationLog
  }

  ghost predicate Extends(w: World, next: World) {
    Longer(w.db, next.db) && w.sends <= next.sends
  }

  lemma DbLicensed(w: World, next: World)
    requires Licensed(w) && Consistent(next.db) && Extends(w, next)
    requires next.mailbox == w.mailbox && next.calendar == w.calendar
    requires forall a | a in next.attempts ::
      (a in w.attempts && next.attempts[a].operation == w.attempts[a].operation)
      || (next.attempts[a].operation in next.db.operations
           && next.db.operations[next.attempts[a].operation].status == OpExecuting)
    ensures Licensed(next)
  {
    hide Consistent;
    forall a | a in next.attempts && !(a in w.attempts && next.attempts[a].operation == w.attempts[a].operation)
      ensures var o := next.attempts[a].operation;
        OnRecord(next.db, next.db.operations[o].draftId)
          && next.db.operations[o].key.draftId == next.db.operations[o].draftId
    {
      OfficeSafety.ExecutingIsApproved(next.db, next.attempts[a].operation);
    }
  }

  lemma ClaimLonger(db: Db, o: OperationId, owner: string, until: int)
    requires Consistent(db) && ClaimOperation(db, o, owner, until).Ok?
    ensures var next := ClaimOperation(db, o, owner, until).value;
      Consistent(next) && Longer(db, next) && o in next.operations && next.operations[o].status == OpExecuting
  {
    ClaimKeeps(db, o, owner, until);
    hide Consistent;
  }

  lemma CheckpointLonger(db: Db, o: OperationId, owner: string, reference: string)
    requires Consistent(db) && CheckpointOperation(db, o, owner, reference).Ok?
    ensures var next := CheckpointOperation(db, o, owner, reference).value; Consistent(next) && Longer(db, next)
  {
    CheckpointKeeps(db, o, owner, reference);
    hide Consistent;
  }

  lemma FinishLonger(db: Db, o: OperationId, owner: string, completed: bool, reference: string)
    requires Consistent(db) && FinishOperation(db, o, owner, completed, reference).Ok?
    ensures var next := FinishOperation(db, o, owner, completed, reference).value; Consistent(next) && Longer(db, next)
  {
    FinishKeeps(db, o, owner, completed, reference);
    hide Consistent;
  }

  lemma RequestLonger(db: Db, l: Label)
    requires Consistent(db)
    requires l.SaveADraft? || l.Submit? || l.Confirm? || l.Delete? || l.Prepare?
    ensures var next := Step(START.(db := db), l).value.db; Consistent(next) && Longer(db, next)
  {
    hide Consistent;
    match l {
      case SaveADraft(d, kind, run, hash) => SaveDraftKeeps(db, d, kind, run, hash);
      case Submit(d) => TransitionKeeps(db, d, Draft, PendingConfirmation);
      case Confirm(d, approve) => TransitionKeeps(db, d, PendingConfirmation, if approve then Approved else Rejected);
      case Delete(d) => DeleteErasesNothing(db, d);
      case Prepare(o, d) => if d in db.drafts { CreateOperationKeeps(db, o, d); }
    }
  }

  lemma FinishLicensed(w: World, ended: World, o: OperationId, owner: string, completed: bool, reference: string)
    requires Licensed(w) && ended == w.(attempts := ended.attempts, listed := ended.listed)
    requires forall a | a in ended.attempts :: a in w.attempts && ended.attempts[a] == w.attempts[a]
    ensures var next := AfterRequest(ended, FinishOperation(w.db, o, owner, completed, reference));
      Licensed(next) && Extends(w, next)
  {
    hide Consistent, FinishOperation;
    if FinishOperation(w.db, o, owner, completed, reference).Ok? {
      FinishLonger(w.db, o, owner, completed, reference);
      DbLicensed(w, AfterRequest(ended, FinishOperation(w.db, o, owner, completed, reference)));
    }
  }

  /** A request touches the database alone, and takes nothing else into account. */
  lemma RequestDb(w: World, l: Label)
    requires l.SaveADraft? || l.Submit? || l.Confirm? || l.Delete? || l.Prepare?
    ensures Step(w, l).Some? && Step(START.(db := w.db), l).Some?
    ensures Step(w, l).value == w.(db := Step(START.(db := w.db), l).value.db)
  {
    hide Consistent, SaveDraft, SubmitForConfirmation, Decide, DeleteDraft, PrepareRequest;
    hide StepClaim, StepCreateMail, StepSaveReference, StepLookUp, StepSend, StepCreateEvent, StepFinish, StepList;
    hide StepRecover;
  }

  lemma RequestLicensed(w: World, l: Label)
    requires Licensed(w)
    requires l.SaveADraft? || l.Submit? || l.Confirm? || l.Delete? || l.Prepare?
    ensures Step(w, l).Some? && Licensed(Step(w, l).value) && Extends(w, Step(w, l).value)
  {
    hide Consistent, Step, Longer, OnRecord;
    RequestDb(w, l);
    RequestLonger(w.db, l);
    DbLicensed(w, Step(w, l).value);
  }

  lemma ClaimLicensed(w: World, a: nat, o: OperationId, owner: string, until: int, call: Call)
    requires Licensed(w) && StepClaim(w, a, o, owner, until, call).Some?
    ensures var next := StepClaim(w, a, o, owner, until, call).value; Licensed(next) && Extends(w, next)
  {
    hide Consistent, FirstPhase, ClaimOperation;
    if ClaimOperation(w.db, o, owner, until).Ok? {
      ClaimLonger(w.db, o, owner, until);
      if call != NoEffect {
        DbLicensed(w, StepClaim(w, a, o, owner, until, call).value);
      }
    }
  }

  lemma SaveReferenceLicensed(w: World, a: nat, call: Call)
    requires Licensed(w) && StepSaveReference(w, a, call).Some?
    ensures var next := StepSaveReference(w, a, call).value; Licensed(next) && Extends(w, next)
  {
    hide Consistent, MessageReference, EventReference, CheckpointOperation, Longer, OnRecord;
    var x := w.attempts[a];
    var reference := if x.phase.SavingMail? then MessageReference(x.phase.message) else EventReference(x.phase.event);
    var next := StepSaveReference(w, a, call).value;
    if CheckpointOperation(w.db, x.operation, x.owner, reference).Ok? && call != NoEffect {
      CheckpointLonger(w.db, x.operation, x.owner, reference);
      DbLicensed(w, next);
    } else {
      AttemptLicensed(w, next, a);
    }
  }

  /** Only an attempt's own state, the mailbox or the calendar changes. */
  lemma AttemptLicensed(w: World, next: World, a: nat)
    requires Licensed(w) && a in w.attempts && next.db == w.db && w.sends <= next.sends
    requires next.attempts.Keys == w.attempts.Keys
    requires forall b | b in w.attempts :: next.attempts[b].operation == w.attempts[b].operation
    requires forall m | m in next.mailbox ::
      next.mailbox[m].operation == w.attempts[a].operation
      || (m in w.mailbox && next.mailbox[m].operation == w.mailbox[m].operation)
    requires forall key | key in next.calendar ::
      key in w.calendar
      || (w.attempts[a].operation in w.db.operations && key == w.db.operations[w.attempts[a].operation].key)
    ensures Licensed(next) && Extends(w, next)
  {
    hide Consistent, OnRecord;
  }

  lemma CreateMailLicensed(w: World, a: nat, id: Id, call: Call)
    requires Licensed(w) && StepCreateMail(w, a, id, call).Some?
    ensures var next := StepCreateMail(w, a, id, call).value; Licensed(next) && Extends(w, next)
  {
    hide Licensed, Extends;
    AttemptLicensed(w, StepCreateMail(w, a, id, call).value, a);
  }

  lemma LookUpLicensed(w: World, a: nat, call: Call)
    requires Licensed(w) && StepLookUp(w, a, call).Some?
    ensures var next := StepLookUp(w, a, call).value; Licensed(next) && Extends(w, next)
  {
    hide Licensed, Extends;
    AttemptLicensed(w, StepLookUp(w, a, call).value, a);
  }

  lemma SendLicensed(w: World, a: nat, call: Call)
    requires Licensed(w) && StepSend(w, a, call).Some?
    ensures var next := StepSend(w, a, call).value; Licensed(next) && Extends(w, next)
  {
    hide Licensed, Extends;
    AttemptLicensed(w, StepSend(w, a, call).value, a);
  }

  lemma CreateEventLicensed(w: World, a: nat, id: Id, call: Call)
    requires Licensed(w) && StepCreateEvent(w, a, id, call).Some?
    ensures var next := StepCreateEvent(w, a, id, call).value; Licensed(next) && Extends(w, next)
  {
    hide Licensed, Extends;
    AttemptLicensed(w, StepCreateEvent(w, a, id, call).value, a);
  }

  lemma StepLicensed(w: World, l: Label)
    requires Licensed(w) && Step(w, l).Some?
    ensures Licensed(Step(w, l).value) && Extends(w, Step(w, l).value)
  {
    hide Licensed, Extends, StepClaim, StepCreateMail, StepSaveReference, StepLookUp, StepSend, StepCreateEvent;
    hide StepList, FinishOperation;
    match l
    case Claim(a, o, owner, until, call) => ClaimLicensed(w, a, o, owner, until, call);
    case SaveReference(a, call) => SaveReferenceLicensed(w, a, call);
    case Finish(a, call) =>
      var x := w.attempts[a];
      DropLicensed(w, w.(attempts := w.attempts - {a}));
      FinishLicensed(w, w.(attempts := w.attempts - {a}), x.operation, x.owner, x.phase.completed, x.phase.result);
    case Recover(r, call) =>
      var item := w.listed[r];
      DropLicensed(w, w.(listed := w.listed - {r}));
      FinishLicensed(w, w.(listed := w.listed - {r}), item.operation, item.owner, false, item.reference);
    case SaveADraft(_, _, _, _) => RequestLicensed(w, l);
    case Submit(_) => RequestLicensed(w, l);
    case Confirm(_, _) => RequestLicensed(w, l);
    case Delete(_) => RequestLicensed(w, l);
    case Prepare(_, _) => RequestLicensed(w, l);
    case Crash(a) => DropLicensed(w, w.(attempts := w.attempts - {a}));
    case List(r, o, now) => ListLicensed(w, r, o, now);
    case CreateMail(a, id, call) => CreateMailLicensed(w, a, id, call);
    case LookUp(a, call) => LookUpLicensed(w, a, call);
    case Send(a, call) => SendLicensed(w, a, call);
    case CreateEvent(a, id, call) => CreateEventLicensed(w, a, id, call);
  }

  lemma ListLicensed(w: World, r: nat, o: OperationId, now: int)
    requires Licensed(w) && StepList(w, r, o, now).Some?
    ensures var next := StepList(w, r, o, now).value; Licensed(next) && Extends(w, next)
  {
    hide Consistent;
  }

  lemma DropLicensed(w: World, next: World)
    requires Licensed(w) && next == w.(attempts := next.attempts, listed := next.listed)
    requires forall a | a in next.attempts :: a in w.attempts && next.attempts[a] == w.attempts[a]
    ensures Licensed(next) && Extends(w, next)
  {
    hide Consistent;
  }

  lemma {:induction false} RunLicensed(w: World, labels: seq<Label>)
    requires Licensed(w) && Run(w, labels).Some?
    ensures Licensed(Run(w, labels).value) && Extends(w, Run(w, labels).value)
    decreases |labels|
  {
    hide Licensed, Step;
    if labels != [] {
      StepLicensed(w, labels[0]);
      var next := Step(w, labels[0]).value;
      RunLicensed(next, labels[1..]);
    }
  }

  /** Every draft's and operation's events replay, legally and without a gap, to its current status;
      an attempt number counts the claims in the log. */
  lemma AuditReplays(labels: seq<Label>)
    requires Run(START, labels).Some?
    ensures var db := Run(START, labels).value.db;
      && (forall d | d in db.drafts :: DraftTrace(db.draftLog, d) == Some(db.drafts[d].status))
      && (forall o | o in db.operations ::
            && OperationTrace(db.operationLog, o) == At(db.operations[o].status, db.operations[o].attempt)
            && db.operations[o].attempt == Claims(db.operationLog, o))
  {
    RunLicensed(START, labels);
    var db := Run(START, labels).value.db;
    forall o | o in db.operations ensures db.operations[o].attempt == Claims(db.operationLog, o) {
      AttemptCountsClaims(db.operationLog, o);
    }
  }

  /** A draft has at most one operation, with the key of its content; the two move together. */
  lemma OperationFollowsDraft(labels: seq<Label>, o: OperationId)
    requires Run(START, labels).Some? && o in Run(START, labels).value.db.operations
    ensures var db := Run(START, labels).value.db; var row := db.operations[o];
      && row.draftId in db.drafts
      && (row.status == OpPending <==> db.drafts[row.draftId].status == Approved)
      && (row.status == OpExecuting <==> db.drafts[row.draftId].status == Executing)
      && (row.status == OpCompleted <==> db.drafts[row.draftId].status == Completed)
      && (row.status == OpFailed <==> db.drafts[row.draftId].status == Failed)
      && row.key == KeyOf(row.draftId, db.drafts[row.draftId])
      && (forall p | p in db.operations && db.operations[p].draftId == row.draftId :: p == o)
  {
    RunLicensed(START, labels);
  }

  /** No message or event exists remotely for a draft nobody approved. */
  lemma ApprovedBeforeWritten(labels: seq<Label>)
    requires Run(START, labels).Some?
    ensures var w := Run(START, labels).value;
      && (forall m | m in w.mailbox ::
            && w.mailbox[m].operation in w.db.operations
            && DraftEvent(w.db.operations[w.mailbox[m].operation].draftId, PendingConfirmation, Approved)
               in w.db.draftLog)
      && (forall key | key in w.calendar :: DraftEvent(key.draftId, PendingConfirmation, Approved) in w.db.draftLog)
  {
    RunLicensed(START, labels);
  }

  /** Whatever a run does next, an operation keeps its draft, kind and key, no audit event is lost, and
      a completed operation stays as it is. */
  lemma NothingIsForgotten(before: seq<Label>, after: seq<Label>)
    requires Run(START, before).Some? && Run(Run(START, before).value, after).Some?
    ensures Extends(Run(START, before).value, Run(Run(START, before).value, after).value)
  {
    RunLicensed(START, before);
    RunLicensed(Run(START, before).value, after);
  }
}
