/** Drafts, operations and their audit logs: the transactions of
    internal/store/postgres/office_drafts.go and office_operations.go.
    Each transaction is a function on the whole database; the class Store runs the same
    statements one by one on a working copy and commits at the end. */
module OfficeStore {
  import opened Common

  type DraftId = string
  type OperationId = string

  datatype Kind = Email | Calendar

  datatype DraftStatus = Draft | PendingConfirmation | Approved | Executing | Completed | Rejected | Failed

  datatype OperationStatus = OpPending | OpExecuting | OpCompleted | OpFailed

  /** Stands for the SHA-256 digest of the draft id and the content hash. */
  datatype IdempotencyKey = IdempotencyKey(draftId: DraftId, contentHash: string)

  datatype DraftRow = DraftRow(kind: Kind, status: DraftStatus, sourceRunId: string, contentHash: string)

  datatype OperationRow = OperationRow(
    draftId: DraftId, kind: Kind, status: OperationStatus, key: IdempotencyKey, attempt: nat,
    leaseOwner: string, leaseUntil: Option<int>, reference: string)

  datatype DraftEvent = DraftEvent(draftId: DraftId, from: DraftStatus, to: DraftStatus)

  datatype OperationEvent = OperationEvent(
    operationId: OperationId, from: Option<OperationStatus>, to: OperationStatus, attempt: nat)

  datatype Db = Db(
    drafts: map<DraftId, DraftRow>, operations: map<OperationId, OperationRow>,
    draftLog: seq<DraftEvent>, operationLog: seq<OperationEvent>)

  datatype Error = NotFound | StateConflict | UniqueViolation | DeleteRefused

  const EMPTY := Db(map[], map[], [], [])

  // ---------------------------------------------------------------- transactions

  function KeyOf(id: DraftId, draft: DraftRow): IdempotencyKey {
    IdempotencyKey(id, draft.contentHash)
  }

  predicate HasRunHash(db: Db, sourceRunId: string, contentHash: string) {
    exists d | d in db.drafts :: db.drafts[d].sourceRunId == sourceRunId && db.drafts[d].contentHash == contentHash
  }

  predicate HasOperation(db: Db, draftId: DraftId) {
    exists o | o in db.operations :: db.operations[o].draftId == draftId
  }

  predicate HasKey(db: Db, key: IdempotencyKey) {
    exists o | o in db.operations :: db.operations[o].key == key
  }

  /** A second draft with the run and content of an earlier one is not inserted. */
  function SaveDraft(db: Db, id: DraftId, kind: Kind, sourceRunId: string, contentHash: string): Result<Db, Error> {
    if HasRunHash(db, sourceRunId, contentHash) then Ok(db)
    else if id in db.drafts then Err(UniqueViolation)
    else Ok(db.(drafts := db.drafts[id := DraftRow(kind, Draft, sourceRunId, contentHash)]))
  }

  function WithoutDraft(log: seq<DraftEvent>, id: DraftId): seq<DraftEvent> {
    if log == [] then []
    else if log[|log| - 1].draftId == id then WithoutDraft(log[..|log| - 1], id)
    else WithoutDraft(log[..|log| - 1], id) + [log[|log| - 1]]
  }

  function OnlyOperations(log: seq<OperationEvent>, kept: map<OperationId, OperationRow>): seq<OperationEvent> {
    if log == [] then []
    else if log[|log| - 1].operationId in kept then OnlyOperations(log[..|log| - 1], kept) + [log[|log| - 1]]
    else OnlyOperations(log[..|log| - 1], kept)
  }

  /** Deleting a draft cascades to its events, its operation and the operation's events. */
  function DeleteDraft(db: Db, id: DraftId): Result<Db, Error> {
    if id !in db.drafts then Err(NotFound)
    else if db.drafts[id].status != Draft then Err(DeleteRefused)
    else
      var kept := map o | o in db.operations && db.operations[o].draftId != id :: db.operations[o];
      Ok(Db(db.drafts - {id}, kept, WithoutDraft(db.draftLog, id), OnlyOperations(db.operationLog, kept)))
  }

  function WriteDraftStatus(db: Db, id: DraftId, next: DraftStatus): Db
    requires id in db.drafts
  {
    var draft := db.drafts[id];
    db.(drafts := db.drafts[id := draft.(status := next)],
        draftLog := db.draftLog + [DraftEvent(id, draft.status, next)])
  }

  function TransitionDraft(db: Db, id: DraftId, expected: DraftStatus, next: DraftStatus): Result<Db, Error> {
    if id !in db.drafts then Err(NotFound)
    else if db.drafts[id].status != expected then Err(StateConflict)
    else Ok(WriteDraftStatus(db, id, next))
  }

  function SubmitForConfirmation(db: Db, id: DraftId): Result<Db, Error> {
    TransitionDraft(db, id, Draft, PendingConfirmation)
  }

  function Decide(db: Db, id: DraftId, approve: bool): Result<Db, Error> {
    TransitionDraft(db, id, PendingConfirmation, if approve then Approved else Rejected)
  }

  /** Ok(db) unchanged means that the draft already has an operation. */
  function CreateOperation(db: Db, id: OperationId, draftId: DraftId, key: IdempotencyKey): Result<Db, Error> {
    if HasOperation(db, draftId) then Ok(db)
    else if draftId !in db.drafts then Err(NotFound)
    else if db.drafts[draftId].status != Approved then Err(StateConflict)
    else if id in db.operations || HasKey(db, key) then Err(UniqueViolation)
    else
      var row := OperationRow(draftId, db.drafts[draftId].kind, OpPending, key, 0, "", None, "");
      Ok(db.(operations := db.operations[id := row],
             operationLog := db.operationLog + [OperationEvent(id, None, OpPending, 0)]))
  }

  function WriteOperation(db: Db, id: OperationId, row: OperationRow): Db
    requires id in db.operations
  {
    db.(operations := db.operations[id := row],
        operationLog := db.operationLog + [OperationEvent(id, Some(db.operations[id].status), row.status, row.attempt)])
  }

  function ExpectedDraftStatus(status: OperationStatus): DraftStatus {
    if status == OpFailed then Failed else Approved
  }

  function ClaimOperation(db: Db, id: OperationId, owner: string, until: int): Result<Db, Error> {
    if id !in db.operations then Err(NotFound)
    else
      var row := db.operations[id];
      if row.status != OpPending && row.status != OpFailed then Err(StateConflict)
      else if row.draftId !in db.drafts then Err(NotFound)
      else if db.drafts[row.draftId].status != ExpectedDraftStatus(row.status) then Err(StateConflict)
      else
        var claimed := row.(status := OpExecuting, attempt := row.attempt + 1, leaseOwner := owner,
          leaseUntil := Some(until));
        Ok(WriteDraftStatus(WriteOperation(db, id, claimed), row.draftId, Executing))
  }

  predicate HoldsLease(db: Db, id: OperationId, owner: string) {
    id in db.operations && db.operations[id].status == OpExecuting && db.operations[id].leaseOwner == owner
  }

  function CheckpointOperation(db: Db, id: OperationId, owner: string, reference: string): Result<Db, Error> {
    if !HoldsLease(db, id, owner) then Err(StateConflict)
    else Ok(WriteOperation(db, id, db.operations[id].(reference := reference)))
  }

  function FinishOperation(
      db: Db, id: OperationId, owner: string, completed: bool, reference: string): Result<Db, Error>
  {
    if id !in db.operations then Err(NotFound)
    else if !HoldsLease(db, id, owner) then Err(StateConflict)
    else
      var row := db.operations[id];
      if row.draftId !in db.drafts || db.drafts[row.draftId].status != Executing then Err(StateConflict)
      else
        var finished := row.(status := if completed then OpCompleted else OpFailed,
                             leaseOwner := "", leaseUntil := None, reference := reference);
        Ok(WriteDraftStatus(WriteOperation(db, id, finished), row.draftId, if completed then Completed else Failed))
  }

  predicate Expired(row: OperationRow, now: int) {
    row.status == OpExecuting && row.leaseUntil.Some? && row.leaseUntil.value <= now
  }

  // ---------------------------------------------------------------- audit replay

  predicate LegalDraftStep(from: DraftStatus, to: DraftStatus) {
    match from
    case Draft => to == PendingConfirmation
    case PendingConfirmation => to == Approved || to == Rejected
    case Approved => to == Executing
    case Failed => to == Executing
    case Executing => to == Completed || to == Failed
    case _ => false
  }

  ghost function ContinueDraft(before: Option<DraftStatus>, e: DraftEvent, id: DraftId): Option<DraftStatus> {
    if e.draftId != id then before
    else if before == Some(e.from) && LegalDraftStep(e.from, e.to) then Some(e.to)
    else None
  }

  /** Replays the events of one draft; None as soon as one does not continue the path legally. */
  ghost function DraftTrace(log: seq<DraftEvent>, id: DraftId): Option<DraftStatus> {
    if log == [] then Some(Draft)
    else ContinueDraft(DraftTrace(log[..|log| - 1], id), log[|log| - 1], id)
  }

  datatype Progress = Absent | At(status: OperationStatus, attempt: nat) | Broken

  predicate IsClaim(e: OperationEvent) {
    e.to == OpExecuting && e.from != Some(OpExecuting)
  }

  ghost function ContinueOperation(before: Progress, e: OperationEvent, id: OperationId): Progress {
    if e.operationId != id then before else OperationStep(before, e)
  }

  ghost function OperationStep(before: Progress, e: OperationEvent): Progress {
    match before
    case Absent => if e == OperationEvent(e.operationId, None, OpPending, 0) then At(OpPending, 0) else Broken
    case At(status, attempt) =>
      var legal := match status
        case OpPending => e.to == OpExecuting
        case OpFailed => e.to == OpExecuting
        case OpExecuting => e.to != OpPending
        case OpCompleted => false;
      var after := if IsClaim(e) then attempt + 1 else attempt;
      if e.from == Some(status) && legal && e.attempt == after then At(e.to, after) else Broken
    case Broken => Broken
  }

  ghost function OperationTrace(log: seq<OperationEvent>, id: OperationId): Progress {
    if log == [] then Absent
    else ContinueOperation(OperationTrace(log[..|log| - 1], id), log[|log| - 1], id)
  }

  ghost function Claims(log: seq<OperationEvent>, id: OperationId): nat {
    if log == [] then 0
    else
      var e := log[|log| - 1];
      Claims(log[..|log| - 1], id) + if e.operationId == id && IsClaim(e) then 1 else 0
  }

  // ---------------------------------------------------------------- what every transaction keeps

  predicate Coupled(operation: OperationStatus, draft: DraftStatus) {
    match operation
    case OpPending => draft == Approved
    case OpExecuting => draft == Executing
    case OpCompleted => draft == Completed
    case OpFailed => draft == Failed
  }

  ghost predicate AuditedDrafts(db: Db) {
    && (forall d | d in db.drafts :: DraftTrace(db.draftLog, d) == Some(db.drafts[d].status))
    && (forall e | e in db.draftLog :: e.draftId in db.drafts)
  }

  ghost predicate AuditedOperations(db: Db) {
    && (forall o | o in db.operations ::
          OperationTrace(db.operationLog, o) == At(db.operations[o].status, db.operations[o].attempt))
    && (forall e | e in db.operationLog :: e.operationId in db.operations)
  }

  ghost predicate CoupledRows(db: Db) {
    && (forall o | o in db.operations ::
          var row := db.operations[o];
          && row.draftId in db.drafts
          && row.kind == db.drafts[row.draftId].kind
          && row.key == KeyOf(row.draftId, db.drafts[row.draftId])
          && Coupled(row.status, db.drafts[row.draftId].status)
          && (row.status == OpExecuting <==> row.leaseUntil.Some?))
    && (forall o, p | o in db.operations && p in db.operations
         && db.operations[o].draftId == db.operations[p].draftId :: o == p)
    && (forall d | d in db.drafts && db.drafts[d].status in {Executing, Completed, Failed} :: HasOperation(db, d))
  }

  ghost predicate Consistent(db: Db) {
    AuditedDrafts(db) && AuditedOperations(db) && CoupledRows(db)
  }

  lemma {:induction false} DraftTraceAppend(log: seq<DraftEvent>, e: DraftEvent)
    ensures forall id :: DraftTrace(log + [e], id) == ContinueDraft(DraftTrace(log, id), e, id)
  {
    assert (log + [e])[..|log|] == log;
  }

  lemma {:induction false} OperationTraceAppend(log: seq<OperationEvent>, e: OperationEvent)
    ensures forall id :: OperationTrace(log + [e], id) == ContinueOperation(OperationTrace(log, id), e, id)
  {
    assert (log + [e])[..|log|] == log;
  }

  lemma {:induction false} SilentDraft(log: seq<DraftEvent>, id: DraftId)
    requires forall e | e in log :: e.draftId != id
    ensures DraftTrace(log, id) == Some(Draft)
  {
    if log != [] {
      assert log[|log| - 1] in log;
      SilentDraft(log[..|log| - 1], id);
    }
  }

  lemma {:induction false} SilentOperation(log: seq<OperationEvent>, id: OperationId)
    requires forall e | e in log :: e.operationId != id
    ensures OperationTrace(log, id) == Absent
  {
    if log != [] {
      assert log[|log| - 1] in log;
      SilentOperation(log[..|log| - 1], id);
    }
  }

  /** No path leads back to the initial status, so a draft still in it has no events. */
  lemma {:induction false} UntouchedDraft(log: seq<DraftEvent>, id: DraftId)
    requires DraftTrace(log, id) == Some(Draft)
    ensures WithoutDraft(log, id) == log && forall e | e in log :: e.draftId != id
  {
    if log != [] {
      UntouchedDraft(log[..|log| - 1], id);
      assert log == log[..|log| - 1] + [log[|log| - 1]];
    }
  }

  lemma {:induction false} KeptLog(log: seq<OperationEvent>, kept: map<OperationId, OperationRow>)
    requires forall e | e in log :: e.operationId in kept
    ensures OnlyOperations(log, kept) == log
  {
    if log != [] {
      assert log[|log| - 1] in log;
      KeptLog(log[..|log| - 1], kept);
      assert log == log[..|log| - 1] + [log[|log| - 1]];
    }
  }

  /** Adding a legal event to one draft's path. */
  lemma AuditDraft(db: Db, next: Db, id: DraftId, to: DraftStatus)
    requires AuditedDrafts(db) && id in db.drafts && LegalDraftStep(db.drafts[id].status, to)
    requires next.drafts == db.drafts[id := db.drafts[id].(status := to)]
    requires next.draftLog == db.draftLog + [DraftEvent(id, db.drafts[id].status, to)]
    ensures AuditedDrafts(next)
  {
    DraftTraceAppend(db.draftLog, DraftEvent(id, db.drafts[id].status, to));
  }

  lemma AuditOperation(db: Db, next: Db, id: OperationId, row: OperationRow)
    requires AuditedOperations(db) && id in db.operations
    requires var current := db.operations[id];
      OperationStep(At(current.status, current.attempt),
        OperationEvent(id, Some(current.status), row.status, row.attempt)) == At(row.status, row.attempt)
    requires next.operations == db.operations[id := row]
    requires next.operationLog == db.operationLog +
      [OperationEvent(id, Some(db.operations[id].status), row.status, row.attempt)]
    ensures AuditedOperations(next)
  {
    OperationTraceAppend(db.operationLog, OperationEvent(id, Some(db.operations[id].status), row.status, row.attempt));
  }

  lemma OperationKept(db: Db, next: Db, d: DraftId)
    requires HasOperation(db, d)
    requires forall o | o in db.operations ::
      o in next.operations && next.operations[o].draftId == db.operations[o].draftId
    ensures HasOperation(next, d)
  {
    var o :| o in db.operations && db.operations[o].draftId == d;
    assert next.operations[o].draftId == d;
  }

  lemma SaveDraftKeeps(db: Db, id: DraftId, kind: Kind, sourceRunId: string, contentHash: string)
    requires Consistent(db)
    ensures var r := SaveDraft(db, id, kind, sourceRunId, contentHash); r.Ok? ==> Consistent(r.value)
  {
    hide HasOperation, HasRunHash, OperationTrace, DraftTrace;
    var r := SaveDraft(db, id, kind, sourceRunId, contentHash);
    if r.Ok? && id !in db.drafts {
      SilentDraft(db.draftLog, id);
      forall d | d in db.drafts && HasOperation(db, d)
        ensures HasOperation(r.value, d)
      {
        OperationKept(db, r.value, d);
      }
    }
  }

  /** Deleting a draft erases no audit event and no operation. */
  lemma DeleteErasesNothing(db: Db, id: DraftId)
    requires Consistent(db)
    ensures var r := DeleteDraft(db, id);
      r.Ok? ==> Consistent(r.value) && r.value == db.(drafts := db.drafts - {id})
  {
    hide HasOperation, OperationTrace, DraftTrace, WithoutDraft, OnlyOperations;
    var r := DeleteDraft(db, id);
    if r.Ok? {
      UntouchedDraft(db.draftLog, id);
      assert r.value.operations == db.operations;
      KeptLog(db.operationLog, r.value.operations);
      forall d | d in db.drafts && HasOperation(db, d)
        ensures HasOperation(r.value, d)
      {
        OperationKept(db, r.value, d);
      }
    }
  }

  /** A status change of a draft without an operation, as Submit and Decide make. */
  lemma TransitionKeeps(db: Db, id: DraftId, from: DraftStatus, to: DraftStatus)
    requires Consistent(db)
    requires LegalDraftStep(from, to) && from in {Draft, PendingConfirmation}
    ensures var r := TransitionDraft(db, id, from, to); r.Ok? ==> Consistent(r.value)
  {
    hide HasOperation, AuditedDrafts, OperationTrace;
    var r := TransitionDraft(db, id, from, to);
    if r.Ok? {
      AuditDraft(db, r.value, id, to);
      forall d | d in db.drafts && HasOperation(db, d)
        ensures HasOperation(r.value, d)
      {
        OperationKept(db, r.value, d);
      }
    }
  }

  lemma CreateOperationKeeps(db: Db, id: OperationId, draftId: DraftId)
    requires Consistent(db) && draftId in db.drafts
    ensures var r := CreateOperation(db, id, draftId, KeyOf(draftId, db.drafts[draftId])); r.Ok? ==> Consistent(r.value)
  {
    hide AuditedDrafts, AuditedOperations, CoupledRows, HasKey, HasOperation;
    var r := CreateOperation(db, id, draftId, KeyOf(draftId, db.drafts[draftId]));
    if r.Ok? && r.value != db {
      SameDrafts(db, r.value);
      NewOperationAudited(db, r.value, id);
      NewOperationCoupled(db, r.value, id, draftId);
    }
  }

  lemma NewOperationAudited(db: Db, next: Db, id: OperationId)
    requires AuditedOperations(db) && id !in db.operations && id in next.operations
    requires next.operations == db.operations[id := next.operations[id]]
    requires next.operations[id].status == OpPending && next.operations[id].attempt == 0
    requires next.operationLog == db.operationLog + [OperationEvent(id, None, OpPending, 0)]
    ensures AuditedOperations(next)
  {
    SilentOperation(db.operationLog, id);
    OperationTraceAppend(db.operationLog, OperationEvent(id, None, OpPending, 0));
  }

  lemma NewOperationCoupled(db: Db, next: Db, id: OperationId, draftId: DraftId)
    requires CoupledRows(db) && id !in db.operations && !HasOperation(db, draftId)
    requires draftId in db.drafts && db.drafts[draftId].status == Approved && next.drafts == db.drafts
    requires next.operations == db.operations[id :=
      OperationRow(draftId, db.drafts[draftId].kind, OpPending, KeyOf(draftId, db.drafts[draftId]), 0, "", None, "")]
    ensures CoupledRows(next)
  {
    forall d | d in db.drafts && HasOperation(db, d) ensures HasOperation(next, d) { OperationKept(db, next, d); }
    forall o | o in db.operations ensures db.operations[o].draftId != draftId { HasOwn(db, o); }
    hide HasOperation;
  }

  lemma SameDrafts(db: Db, next: Db)
    requires AuditedDrafts(db) && next.drafts == db.drafts && next.draftLog == db.draftLog
    ensures AuditedDrafts(next)
  {
  }

  /** The shape shared by claim and finish: one operation and its draft move together. */
  lemma MoveTogetherKeeps(db: Db, id: OperationId, row: OperationRow, draft: DraftStatus)
    requires Consistent(db) && id in db.operations
    requires var current := db.operations[id];
      && row == current.(status := row.status, attempt := row.attempt, leaseOwner := row.leaseOwner,
           leaseUntil := row.leaseUntil, reference := row.reference)
      && LegalDraftStep(db.drafts[current.draftId].status, draft) && Coupled(row.status, draft)
      && (row.status == OpExecuting <==> row.leaseUntil.Some?)
      && OperationStep(At(current.status, current.attempt),
           OperationEvent(id, Some(current.status), row.status, row.attempt)) == At(row.status, row.attempt)
    ensures Consistent(WriteDraftStatus(WriteOperation(db, id, row), row.draftId, draft))
  {
    hide AuditedDrafts, AuditedOperations, HasOperation;
    var next := WriteDraftStatus(WriteOperation(db, id, row), row.draftId, draft);
    AuditDraft(db, next, row.draftId, draft);
    AuditOperation(db, next, id, row);
    forall d | d in db.drafts && HasOperation(db, d) ensures HasOperation(next, d) { OperationKept(db, next, d); }
    assert HasOperation(next, row.draftId) by { HasOwn(next, id); }
  }

  lemma HasOwn(db: Db, o: OperationId)
    requires o in db.operations
    ensures HasOperation(db, db.operations[o].draftId)
  {
  }

  lemma ClaimKeeps(db: Db, id: OperationId, owner: string, until: int)
    requires Consistent(db)
    ensures var r := ClaimOperation(db, id, owner, until); r.Ok? ==> Consistent(r.value)
  {
    hide AuditedDrafts, AuditedOperations, HasOperation;
    var r := ClaimOperation(db, id, owner, until);
    if r.Ok? {
      var row := db.operations[id];
      MoveTogetherKeeps(db, id, row.(status := OpExecuting, attempt := row.attempt + 1, leaseOwner := owner,
        leaseUntil := Some(until)), Executing);
    }
  }

  lemma CheckpointKeeps(db: Db, id: OperationId, owner: string, reference: string)
    requires Consistent(db)
    ensures var r := CheckpointOperation(db, id, owner, reference); r.Ok? ==> Consistent(r.value)
  {
    hide AuditedDrafts, AuditedOperations, HasOperation;
    var r := CheckpointOperation(db, id, owner, reference);
    if r.Ok? {
      SameDrafts(db, r.value);
      AuditOperation(db, r.value, id, db.operations[id].(reference := reference));
      forall d | d in db.drafts && HasOperation(db, d)
        ensures HasOperation(r.value, d)
      {
        OperationKept(db, r.value, d);
      }
    }
  }

  lemma FinishKeeps(db: Db, id: OperationId, owner: string, completed: bool, reference: string)
    requires Consistent(db)
    ensures var r := FinishOperation(db, id, owner, completed, reference); r.Ok? ==> Consistent(r.value)
    ensures HoldsLease(db, id, owner) <==> FinishOperation(db, id, owner, completed, reference).Ok?
  {
    hide AuditedDrafts, AuditedOperations, HasOperation;
    var r := FinishOperation(db, id, owner, completed, reference);
    if r.Ok? {
      var row := db.operations[id];
      MoveTogetherKeeps(db, id,
        row.(status := if completed then OpCompleted else OpFailed, leaseOwner := "", leaseUntil := None,
          reference := reference),
        if completed then Completed else Failed);
    }
  }

  /** An operation's attempt number is the number of claims its log shows. */
  lemma {:induction false} AttemptCountsClaims(log: seq<OperationEvent>, id: OperationId)
    ensures match OperationTrace(log, id)
      case At(_, attempt) => attempt == Claims(log, id)
      case Absent => Claims(log, id) == 0
      case Broken => true
  {
    if log != [] {
      AttemptCountsClaims(log[..|log| - 1], id);
    }
  }

  /** Whatever has passed confirmation shows the human approval in its log. */
  lemma {:induction false} ApprovalOnRecord(log: seq<DraftEvent>, id: DraftId)
    requires DraftTrace(log, id) in {Some(Approved), Some(Executing), Some(Completed), Some(Failed)}
    ensures DraftEvent(id, PendingConfirmation, Approved) in log
  {
    var e := log[|log| - 1];
    if e != DraftEvent(id, PendingConfirmation, Approved) {
      ApprovalOnRecord(log[..|log| - 1], id);
    }
  }

  // ---------------------------------------------------------------- the store

  class Store {
    var drafts: map<DraftId, DraftRow>
    var operations: map<OperationId, OperationRow>
    var draftLog: seq<DraftEvent>
    var operationLog: seq<OperationEvent>

    constructor ()
      ensures Contents() == EMPTY
    {
      drafts, operations, draftLog, operationLog := map[], map[], [], [];
    }

    function Contents(): Db
      reads this
    {
      Db(drafts, operations, draftLog, operationLog)
    }

    /** The commit of a transaction that worked on a copy. */
    method Commit(tx: Db)
      modifies this
      ensures Contents() == tx
    {
      drafts, operations, draftLog, operationLog := tx.drafts, tx.operations, tx.draftLog, tx.operationLog;
    }

    method Save(id: DraftId, kind: Kind, sourceRunId: string, contentHash: string) returns (saved: Result<bool, Error>)
      modifies this
      ensures var r := SaveDraft(old(Contents()), id, kind, sourceRunId, contentHash);
        && Contents() == (if r.Ok? then r.value else old(Contents()))
        && saved == (if r.Ok? then Ok(r.value != old(Contents())) else Err(r.error))
    {
      if exists d | d in drafts :: drafts[d].sourceRunId == sourceRunId && drafts[d].contentHash == contentHash {
        return Ok(false);
      }
      if id in drafts {
        return Err(UniqueViolation);
      }
      drafts := drafts[id := DraftRow(kind, Draft, sourceRunId, contentHash)];
      assert id in drafts && id !in old(drafts);
      return Ok(true);
    }

    method Transition(id: DraftId, expected: DraftStatus, next: DraftStatus) returns (error: Option<Error>)
      modifies this
      ensures var r := TransitionDraft(old(Contents()), id, expected, next);
        && Contents() == (if r.Ok? then r.value else old(Contents()))
        && error == (if r.Ok? then None else Some(r.error))
    {
      var tx := Contents();
      if !(id in tx.drafts && tx.drafts[id].status == expected) {
        if id !in tx.drafts {
          return Some(NotFound);
        }
        return Some(StateConflict);
      }
      tx := tx.(drafts := tx.drafts[id := tx.drafts[id].(status := next)]);
      tx := tx.(draftLog := tx.draftLog + [DraftEvent(id, expected, next)]);
      Commit(tx);
      return None;
    }

    method Delete(id: DraftId) returns (error: Option<Error>)
      modifies this
      ensures var r := DeleteDraft(old(Contents()), id);
        && Contents() == (if r.Ok? then r.value else old(Contents()))
        && error == (if r.Ok? then None else Some(r.error))
    {
      if id !in drafts {
        return Some(NotFound);
      }
      if drafts[id].status != Draft {
        return Some(DeleteRefused);
      }
      drafts := drafts - {id};
      operations := map o | o in operations && operations[o].draftId != id :: operations[o];
      draftLog := WithoutDraft(draftLog, id);
      operationLog := OnlyOperations(operationLog, operations);
      return None;
    }

    method Create(id: OperationId, draftId: DraftId, key: IdempotencyKey) returns (created: Result<bool, Error>)
      modifies this
      ensures var r := CreateOperation(old(Contents()), id, draftId, key);
        && Contents() == (if r.Ok? then r.value else old(Contents()))
        && created == (if r.Ok? then Ok(r.value != old(Contents())) else Err(r.error))
    {
      var tx := Contents();
      var conflict := HasOperation(tx, draftId);
      if draftId in tx.drafts && tx.drafts[draftId].status == Approved && !conflict {
        if id in tx.operations || HasKey(tx, key) {
          return Err(UniqueViolation);
        }
        var row := OperationRow(draftId, tx.drafts[draftId].kind, OpPending, key, 0, "", None, "");
        tx := tx.(operations := tx.operations[id := row]);
        tx := tx.(operationLog := tx.operationLog + [OperationEvent(id, None, OpPending, 0)]);
        Commit(tx);
        assert id in operations && id !in old(operations);
        return Ok(true);
      }
      if conflict {
        return Ok(false);
      }
      if draftId !in tx.drafts {
        return Err(NotFound);
      }
      return Err(StateConflict);
    }

    method Claim(id: OperationId, owner: string, until: int) returns (claimed: Result<OperationRow, Error>)
      modifies this
      ensures var r := ClaimOperation(old(Contents()), id, owner, until);
        && Contents() == (if r.Ok? then r.value else old(Contents()))
        && claimed == (if r.Ok? then Ok(r.value.operations[id]) else Err(r.error))
    {
      var tx := Contents();
      if id !in tx.operations {
        return Err(NotFound);
      }
      var current := tx.operations[id];
      if current.status != OpPending && current.status != OpFailed {
        return Err(StateConflict);
      }
      var expected := Approved;
      if current.status == OpFailed {
        expected := Failed;
      }
      if current.draftId !in tx.drafts {
        return Err(NotFound);
      }
      if tx.drafts[current.draftId].status != expected {
        return Err(StateConflict);
      }
      var updated := current.(status := OpExecuting, attempt := current.attempt + 1, leaseOwner := owner,
        leaseUntil := Some(until));
      tx := tx.(operations := tx.operations[id := updated]);
      tx := tx.(drafts := tx.drafts[current.draftId := tx.drafts[current.draftId].(status := Executing)]);
      tx := tx.(operationLog := tx.operationLog +
        [OperationEvent(id, Some(current.status), OpExecuting, updated.attempt)]);
      tx := tx.(draftLog := tx.draftLog + [DraftEvent(current.draftId, expected, Executing)]);
      Commit(tx);
      return Ok(updated);
    }

    method Checkpoint(id: OperationId, owner: string, reference: string) returns (saved: Result<OperationRow, Error>)
      modifies this
      ensures var r := CheckpointOperation(old(Contents()), id, owner, reference);
        && Contents() == (if r.Ok? then r.value else old(Contents()))
        && saved == (if r.Ok? then Ok(r.value.operations[id]) else Err(r.error))
    {
      var tx := Contents();
      if !(id in tx.operations && tx.operations[id].status == OpExecuting && tx.operations[id].leaseOwner == owner) {
        return Err(StateConflict);
      }
      tx := tx.(operations := tx.operations[id := tx.operations[id].(reference := reference)]);
      tx := tx.(operationLog := tx.operationLog +
        [OperationEvent(id, Some(OpExecuting), OpExecuting, tx.operations[id].attempt)]);
      Commit(tx);
      return Ok(tx.operations[id]);
    }

    method Finish(id: OperationId, owner: string, completed: bool, reference: string)
      returns (finished: Result<OperationRow, Error>)
      modifies this
      ensures var r := FinishOperation(old(Contents()), id, owner, completed, reference);
        && Contents() == (if r.Ok? then r.value else old(Contents()))
        && finished == (if r.Ok? then Ok(r.value.operations[id]) else Err(r.error))
    {
      var tx := Contents();
      if id !in tx.operations {
        return Err(NotFound);
      }
      var current := tx.operations[id];
      if current.status != OpExecuting || current.leaseOwner != owner {
        return Err(StateConflict);
      }
      var next := if completed then OpCompleted else OpFailed;
      var updated := current.(status := next, leaseOwner := "", leaseUntil := None, reference := reference);
      tx := tx.(operations := tx.operations[id := updated]);
      var draftStatus := Failed;
      if completed {
        draftStatus := Completed;
      }
      if !(current.draftId in tx.drafts && tx.drafts[current.draftId].status == Executing) {
        return Err(StateConflict);
      }
      tx := tx.(drafts := tx.drafts[current.draftId := tx.drafts[current.draftId].(status := draftStatus)]);
      tx := tx.(operationLog := tx.operationLog + [OperationEvent(id, Some(OpExecuting), next, current.attempt)]);
      tx := tx.(draftLog := tx.draftLog + [DraftEvent(current.draftId, Executing, draftStatus)]);
      Commit(tx);
      return Ok(updated);
    }
  }
}
