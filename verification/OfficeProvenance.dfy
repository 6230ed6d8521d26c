/** Whose doing the rows are: in every run of the office protocol, timely or not, what the calls of that run say about
    its drafts, its approvals and its leases. */
module OfficeProvenance {
  import opened Common
  import opened OfficeStore
  import opened OfficeProtocol
  import opened OfficeSafety
  import opened OfficeAudit
  import opened OfficeRuns
  import opened OfficeRecovery

  // ---------------------------------------------------------------- drafts and approvals

  /** No draft and no approval is new. */
  ghost predicate NoneNew(db: Db, next: Db) {
    && (forall d | OnRecord(next, d) :: OnRecord(db, d))
    && (forall d | d in next.drafts :: d in db.drafts && SameDraft(next.drafts[d], db.drafts[d]))
  }

  predicate SameDraft(a: DraftRow, b: DraftRow) {
    a.kind == b.kind && a.sourceRunId == b.sourceRunId && a.contentHash == b.contentHash
  }

  /** A run and content name at most one draft. */
  predicate SavedOnce(db: Db) {
    forall d, e | d in db.drafts && e in db.drafts && db.drafts[d].sourceRunId == db.drafts[e].sourceRunId
      && db.drafts[d].contentHash == db.drafts[e].contentHash :: d == e
  }

  lemma DeletingRemoves(log: seq<DraftEvent>, id: DraftId)
    ensures forall e | e in WithoutDraft(log, id) :: e in log
  {
    if log != [] { DeletingRemoves(log[..|log| - 1], id); }
  }

  lemma MovingAddsNone(db: Db, o: OperationId, row: OperationRow, to: DraftStatus)
    requires o in db.operations && row.draftId in db.drafts && to != Approved
    ensures NoneNew(db, WriteDraftStatus(WriteOperation(db, o, row), row.draftId, to))
  {
  }

  lemma ClaimAddsNone(db: Db, o: OperationId, owner: string, until: int)
    ensures var r := ClaimOperation(db, o, owner, until); r.Ok? ==> NoneNew(db, r.value)
  {
    hide NoneNew;
    if ClaimOperation(db, o, owner, until).Ok? {
      var row := db.operations[o];
      MovingAddsNone(db, o, ClaimOperation(db, o, owner, until).value.operations[o], Executing);
    }
  }

  lemma FinishAddsNone(db: Db, o: OperationId, owner: string, completed: bool, reference: string)
    ensures var r := FinishOperation(db, o, owner, completed, reference); r.Ok? ==> NoneNew(db, r.value)
  {
    hide NoneNew;
    if FinishOperation(db, o, owner, completed, reference).Ok? {
      MovingAddsNone(db, o, FinishOperation(db, o, owner, completed, reference).value.operations[o],
        if completed then Completed else Failed);
    }
  }

  lemma CheckpointAddsNone(db: Db, o: OperationId, owner: string, reference: string)
    ensures var r := CheckpointOperation(db, o, owner, reference); r.Ok? ==> NoneNew(db, r.value)
  {
  }

  /** The call that may have recorded an approval, and the one that may have saved a draft. */
  predicate Approves(l: Label, d: DraftId) { l.Confirm? && l.draft == d && l.approve }

  predicate Saves(l: Label, d: DraftId, row: DraftRow) {
    l.SaveADraft? && l.draft == d && l.kind == row.kind && l.sourceRunId == row.sourceRunId
    && l.contentHash == row.contentHash
  }

  ghost predicate Accounted(db: Db, l: Label, next: Db) {
    && (forall d | OnRecord(next, d) :: OnRecord(db, d) || Approves(l, d))
    && (forall d | d in next.drafts ::
          (d in db.drafts && SameDraft(next.drafts[d], db.drafts[d])) || Saves(l, d, next.drafts[d]))
    && (SavedOnce(db) ==> SavedOnce(next))
  }

  lemma SavingAccounted(db: Db, l: Label)
    requires l.SaveADraft?
    ensures Accounted(db, l, AfterRequest(START.(db := db),
      SaveDraft(db, l.draft, l.kind, l.sourceRunId, l.contentHash)).db)
  {
  }

  lemma SavedOnceStays(db: Db, next: Db)
    requires forall d | d in next.drafts :: d in db.drafts && SameDraft(next.drafts[d], db.drafts[d])
    ensures SavedOnce(db) ==> SavedOnce(next)
  {
  }

  lemma TransitionAccounted(db: Db, l: Label, d: DraftId, from: DraftStatus, to: DraftStatus)
    requires to == Approved ==> Approves(l, d)
    ensures Accounted(db, l, AfterRequest(START.(db := db), TransitionDraft(db, d, from, to)).db)
  {
    hide SavedOnce, Approves, Saves;
    var r := TransitionDraft(db, d, from, to);
    if r.Ok? {
      assert r.value.draftLog == db.draftLog + [DraftEvent(d, from, to)];
      forall e | OnRecord(r.value, e) ensures OnRecord(db, e) || Approves(l, e) {
        assert DraftEvent(e, PendingConfirmation, Approved) == DraftEvent(d, from, to)
          || DraftEvent(e, PendingConfirmation, Approved) in db.draftLog;
      }
      SavedOnceStays(db, r.value);
    }
  }

  lemma DeletingAccounted(db: Db, l: Label, d: DraftId)
    ensures Accounted(db, l, AfterRequest(START.(db := db), DeleteDraft(db, d)).db)
  {
    DeletingRemoves(db.draftLog, d);
  }

  lemma PreparingAccounted(db: Db, l: Label, o: OperationId, d: DraftId)
    ensures Accounted(db, l, AfterRequest(START.(db := db), PrepareRequest(db, o, d)).db)
  {
  }

  lemma RequestAccounted(db: Db, l: Label)
    requires l.SaveADraft? || l.Submit? || l.Confirm? || l.Delete? || l.Prepare?
    ensures Accounted(db, l, Step(START.(db := db), l).value.db)
  {
    hide Accounted, SaveDraft, TransitionDraft, DeleteDraft, PrepareRequest;
    match l
    case SaveADraft(_, _, _, _) => SavingAccounted(db, l);
    case Submit(d) => TransitionAccounted(db, l, d, Draft, PendingConfirmation);
    case Confirm(d, approve) =>
      TransitionAccounted(db, l, d, PendingConfirmation, if approve then Approved else Rejected);
    case Delete(d) => DeletingAccounted(db, l, d);
    case Prepare(o, d) => PreparingAccounted(db, l, o, d);
  }

  lemma NoneNewAccounted(w: World, l: Label, next: World)
    requires NoneNew(w.db, next.db)
    ensures Accounted(w.db, l, next.db)
  {
  }

  lemma StepAccounted(w: World, l: Label)
    requires Step(w, l).Some?
    ensures Accounted(w.db, l, Step(w, l).value.db)
  {
    hide Accounted, NoneNew, ClaimOperation, CheckpointOperation, FinishOperation, StepCreateMail, StepLookUp, StepSend;
    hide StepCreateEvent, StepList, SaveDraft, DeleteDraft, SubmitForConfirmation, Decide, PrepareRequest;
    hide MessageReference, EventReference, FirstPhase;
    var next := Step(w, l).value;
    match l {
      case Claim(_, o, owner, until, _) =>
        ClaimAddsNone(w.db, o, owner, until);
        SameAddsNone(w.db);
        NoneNewAccounted(w, l, next);
      case SaveReference(a, _) =>
        var x := w.attempts[a];
        CheckpointAddsNone(w.db, x.operation, x.owner,
          if x.phase.SavingMail? then MessageReference(x.phase.message) else EventReference(x.phase.event));
        SameAddsNone(w.db);
        NoneNewAccounted(w, l, next);
      case Finish(a, _) =>
        var x := w.attempts[a];
        FinishAddsNone(w.db, x.operation, x.owner, x.phase.completed, x.phase.result);
        SameAddsNone(w.db);
        NoneNewAccounted(w, l, next);
      case Recover(r, _) =>
        FinishAddsNone(w.db, w.listed[r].operation, w.listed[r].owner, false, w.listed[r].reference);
        SameAddsNone(w.db);
        NoneNewAccounted(w, l, next);
      case SaveADraft(_, _, _, _) =>
        RequestDb(w, l);
        RequestAccounted(w.db, l);
      case Submit(_) =>
        RequestDb(w, l);
        RequestAccounted(w.db, l);
      case Confirm(_, _) =>
        RequestDb(w, l);
        RequestAccounted(w.db, l);
      case Delete(_) =>
        RequestDb(w, l);
        RequestAccounted(w.db, l);
      case Prepare(_, _) =>
        RequestDb(w, l);
        RequestAccounted(w.db, l);
      case _ =>
        RemoteAttempt(w, l);
        SameAddsNone(w.db);
        NoneNewAccounted(w, l, next);
    }
  }

  lemma SameAddsNone(db: Db)
    ensures NoneNew(db, db)
  {
  }

  lemma {:induction false} RunAccounted(w: World, labels: seq<Label>)
    requires Run(w, labels).Some?
    ensures forall d | OnRecord(Run(w, labels).value.db, d) ::
      OnRecord(w.db, d) || exists l | l in labels :: Approves(l, d)
    ensures SavedOnce(w.db) ==> SavedOnce(Run(w, labels).value.db)
    decreases |labels|
  {
    hide Step, OnRecord, SavedOnce, Approves;
    if labels != [] {
      StepAccounted(w, labels[0]);
      var next, last := Step(w, labels[0]).value, Run(w, labels).value;
      RunAccounted(next, labels[1..]);
      forall d | OnRecord(last.db, d) && !OnRecord(w.db, d) ensures exists l | l in labels :: Approves(l, d) {
        if OnRecord(next.db, d) {
          assert Approves(labels[0], d);
        } else {
          var l :| l in labels[1..] && Approves(l, d);
          assert l in labels;
        }
      }
    }
  }

  /** A message or event exists only for a draft that some call of the run confirmed with an approval. */
  lemma WrittenAfterConfirmation(labels: seq<Label>)
    requires Run(START, labels).Some?
    ensures var w := Run(START, labels).value;
      && (forall m | m in w.mailbox :: w.mailbox[m].operation in w.db.operations &&
            Confirm(w.db.operations[w.mailbox[m].operation].draftId, true) in labels)
      && (forall key | key in w.calendar :: Confirm(key.draftId, true) in labels)
  {
    hide Step, Run;
    var w := Run(START, labels).value;
    StartLicensed();
    RunLicensed(START, labels);
    RunAccounted(START, labels);
    forall d | OnRecord(w.db, d) ensures Confirm(d, true) in labels {
      var l :| l in labels && Approves(l, d);
      assert l == Confirm(d, true);
    }
    hide Consistent;
  }

  lemma {:induction false} RunSaves(w: World, labels: seq<Label>, d: DraftId)
    requires Run(w, labels).Some? && d in Run(w, labels).value.db.drafts
    ensures var row := Run(w, labels).value.db.drafts[d];
      (d in w.db.drafts && SameDraft(row, w.db.drafts[d])) || exists l | l in labels :: Saves(l, d, row)
    decreases |labels|
  {
    hide Step, OnRecord, SavedOnce;
    if labels != [] {
      StepAccounted(w, labels[0]);
      var next, row := Step(w, labels[0]).value, Run(w, labels).value.db.drafts[d];
      RunSaves(next, labels[1..], d);
      if l :| l in labels[1..] && Saves(l, d, row) {
        assert l in labels;
      } else if Saves(labels[0], d, next.db.drafts[d]) {
        assert Saves(labels[0], d, row);
      }
    }
  }

  /** A draft is as the call that saved it said, and one run and content have one draft, however often they are saved:
      saving again changes nothing. */
  lemma DraftsAreAsSaved(labels: seq<Label>, d: DraftId, again: DraftId)
    requires Run(START, labels).Some? && d in Run(START, labels).value.db.drafts
    ensures var w := Run(START, labels).value; var row := w.db.drafts[d];
      && SaveADraft(d, row.kind, row.sourceRunId, row.contentHash) in labels
      && (forall e | e in w.db.drafts && w.db.drafts[e].sourceRunId == row.sourceRunId
           && w.db.drafts[e].contentHash == row.contentHash :: e == d)
      && Step(w, SaveADraft(again, row.kind, row.sourceRunId, row.contentHash)) == Some(w)
  {
    hide Run;
    var row := Run(START, labels).value.db.drafts[d];
    RunSaves(START, labels, d);
    RunAccounted(START, labels);
    var l :| l in labels && Saves(l, d, row);
    assert l == SaveADraft(d, row.kind, row.sourceRunId, row.contentHash);
  }

  // ---------------------------------------------------------------- leases

  ghost predicate LatestClaim(history: seq<Label>, i: nat, o: OperationId) {
    ClaimedAt(history, i, o) && forall m: nat | i < m < |history| :: !ClaimedAt(history, m, o)
  }

  /** The row is not leased, or leased as the claim says. */
  predicate LeasedBy(row: OperationRow, l: Label) {
    l.Claim? && (row.status == OpExecuting ==> row.leaseUntil == Some(l.until) && row.leaseOwner == l.owner)
  }

  lemma ClaimLeases(w: World, l: Label, o: OperationId)
    requires Licensed(w) && ClaimTakesEffect(w, l, o) && Step(w, l).Some?
    ensures o in Step(w, l).value.db.operations
    ensures var row := Step(w, l).value.db.operations[o]; row.status == OpExecuting && LeasedBy(row, l)
  {
    hide Consistent, FirstPhase;
    assert Consistent(w.db);
    ClaimFacts(w.db, o, l.owner, l.until);
  }

  /** Nothing but a claim leases a row. */
  predicate LeaseStays(db: Db, next: Db, o: OperationId) {
    o in next.operations && next.operations[o].status == OpExecuting ==>
      && o in db.operations && db.operations[o].status == OpExecuting
      && next.operations[o].leaseUntil == db.operations[o].leaseUntil
      && next.operations[o].leaseOwner == db.operations[o].leaseOwner
  }

  lemma RequestLease(w: World, l: Label, o: OperationId)
    requires Licensed(w)
    requires l.SaveADraft? || l.Submit? || l.Confirm? || l.Delete? || l.Prepare?
    ensures Step(w, l).Some? && LeaseStays(w.db, Step(w, l).value.db, o)
  {
    hide Consistent, Step;
    RequestDb(w, l);
    RequestUndisturbed(w.db, l);
  }

  lemma FinishLease(w: World, p: OperationId, owner: string, completed: bool, reference: string, o: OperationId)
    requires Licensed(w)
    ensures var r := FinishOperation(w.db, p, owner, completed, reference); r.Ok? ==> LeaseStays(w.db, r.value, o)
  {
    hide Consistent, FinishOperation;
    assert Consistent(w.db);
    FinishFacts(w.db, p, owner, completed, reference);
  }

  lemma SaveLease(w: World, a: nat, call: Call, o: OperationId)
    requires Licensed(w) && StepSaveReference(w, a, call).Some?
    ensures LeaseStays(w.db, StepSaveReference(w, a, call).value.db, o)
  {
    hide Consistent, CheckpointOperation, MessageReference, EventReference;
    assert Consistent(w.db);
    var x := w.attempts[a];
    var reference := if x.phase.SavingMail? then MessageReference(x.phase.message) else EventReference(x.phase.event);
    if CheckpointOperation(w.db, x.operation, x.owner, reference).Ok? {
      CheckpointFacts(w.db, x.operation, x.owner, reference);
    }
  }

  lemma ClaimLease(w: World, l: Label, o: OperationId)
    requires Licensed(w) && l.Claim? && Step(w, l).Some? && !ClaimTakesEffect(w, l, o)
    ensures LeaseStays(w.db, Step(w, l).value.db, o)
  {
    hide Consistent, ClaimOperation, FirstPhase;
    assert Consistent(w.db);
    if ClaimOperation(w.db, l.operation, l.owner, l.until).Ok? { ClaimFacts(w.db, l.operation, l.owner, l.until); }
  }

  lemma SameLease(db: Db, o: OperationId)
    ensures LeaseStays(db, db, o)
  {
  }

  lemma OthersLease(w: World, l: Label, o: OperationId)
    requires Licensed(w) && Step(w, l).Some? && !ClaimTakesEffect(w, l, o)
    ensures LeaseStays(w.db, Step(w, l).value.db, o)
  {
    hide Licensed, LeaseStays, ClaimTakesEffect, FinishOperation;
    hide StepClaim, StepSaveReference, StepCreateMail, StepLookUp, StepSend, StepCreateEvent, StepList;
    SameLease(w.db, o);
    match l
    case Claim(_, _, _, _, _) => ClaimLease(w, l, o);
    case SaveReference(a, call) => SaveLease(w, a, call, o);
    case Finish(a, _) =>
      var x := w.attempts[a];
      FinishLease(w, x.operation, x.owner, x.phase.completed, x.phase.result, o);
    case Recover(r, _) =>
      FinishLease(w, w.listed[r].operation, w.listed[r].owner, false, w.listed[r].reference, o);
    case SaveADraft(_, _, _, _) => RequestLease(w, l, o);
    case Submit(_) => RequestLease(w, l, o);
    case Confirm(_, _) => RequestLease(w, l, o);
    case Delete(_) => RequestLease(w, l, o);
    case Prepare(_, _) => RequestLease(w, l, o);
    case _ => RemoteAttempt(w, l);
  }

  lemma EarlierClaims(history: seq<Label>, o: OperationId)
    requires history != []
    ensures forall m: nat | m < |history| - 1 ::
      ClaimedAt(history, m, o) <==> ClaimedAt(history[..|history| - 1], m, o)
  {
    hide Run, ClaimTakesEffect;
    forall m: nat | m < |history| - 1
      ensures ClaimedAt(history, m, o) <==> ClaimedAt(history[..|history| - 1], m, o)
    {
      assert history[..|history| - 1][..m] == history[..m];
    }
  }

  /** In every run, an executing operation is leased to the owner of its latest claim and until the time it named. */
  lemma {:induction false} LeaseIsClaimed(history: seq<Label>, o: OperationId) returns (i: nat)
    requires Run(START, history).Some? && o in Run(START, history).value.db.operations
    requires Run(START, history).value.db.operations[o].status == OpExecuting
    ensures LatestClaim(history, i, o) && history[i].Claim?
    ensures var row := Run(START, history).value.db.operations[o];
      row.leaseUntil == Some(history[i].until) && row.leaseOwner == history[i].owner
    decreases |history|
  {
    hide Run, Step, ClaimTakesEffect, Licensed;
    if history == [] {
      NothingAtStart();
    } else {
      var last: nat := |history| - 1;
      var before := history[..last];
      RunStep(START, history, last);
      assert history[..last + 1] == history;
      StartLicensed();
      RunLicensed(START, before);
      EarlierClaims(history, o);
      var w := Run(START, before).value;
      if ClaimTakesEffect(w, history[last], o) {
        i := last;
        ClaimLeases(w, history[last], o);
      } else {
        OthersLease(w, history[last], o);
        i := LeaseIsClaimed(before, o);
        assert ClaimedAt(before, i, o);
      }
    }
  }

  lemma NothingAtStart()
    ensures Run(START, []) == Some(START)
  {
  }

  lemma OneLatestClaim(history: seq<Label>, i: nat, j: nat, o: OperationId)
    requires LatestClaim(history, i, o) && LatestClaim(history, j, o)
    ensures i == j
  {
  }

  /** In every run, an operation is up for recovery exactly while it executes and the lease that its latest claim asked
      for is over. */
  lemma ListedExactlyAfterLease(history: seq<Label>, i: nat, o: OperationId, r: nat, now: int)
    requires Run(START, history).Some? && LatestClaim(history, i, o) && history[i].Claim?
    requires r !in Run(START, history).value.listed && o in Run(START, history).value.db.operations
    ensures Step(Run(START, history).value, List(r, o, now)).Some? <==>
      Run(START, history).value.db.operations[o].status == OpExecuting && history[i].until <= now
  {
    hide Run, LatestClaim;
    if Run(START, history).value.db.operations[o].status == OpExecuting {
      var j := LeaseIsClaimed(history, o);
      OneLatestClaim(history, i, j, o);
    }
  }
}
