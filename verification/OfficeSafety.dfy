/** Every step of the office protocol keeps its invariant; at most one send follows. */
module OfficeSafety {
  import opened Common
  import opened OfficeStore
  import opened OfficeProtocol
  import GraphReference

  lemma ReferenceFacts(m: Id, n: Id)
    ensures MessageReference(m) == MessageReference(n) <==> m == n
    ensures MessageReference(m) != "" && EventReference(m) != ""
    ensures GraphReference.Decode(MessageReference(m), "message") in {None, Some(m)}
  {
    GraphReference.EncodeInjective("message", m, n);
    GraphReference.EncodeInjective("event", m, n);
    GraphReference.ReferenceRoundTrip("message", m, "message");
  }

  // ---------------------------------------------------------------- framing

  /** Nothing about operation o differs between two worlds. */
  ghost predicate SameFor(w: World, next: World, o: OperationId) {
    && o in w.db.operations && o in next.db.operations && next.db.operations[o] == w.db.operations[o]
    && (forall m | m in w.mailbox && w.mailbox[m].operation == o ::
         m in next.mailbox && next.mailbox[m] == w.mailbox[m])
    && (forall m | m in next.mailbox && next.mailbox[m].operation == o :: m in w.mailbox && w.mailbox[m].operation == o)
    && (forall m | m in next.mailbox && next.mailbox[m].operation == o :: m in w.sends <==> m in next.sends)
    && (forall key | key in w.calendar :: key in next.calendar && next.calendar[key] == w.calendar[key])
    && (forall a | a in next.attempts && next.attempts[a].operation == o ::
         a in w.attempts && w.attempts[a] == next.attempts[a])
    && (forall r | r in next.listed && next.listed[r].operation == o :: r in w.listed && w.listed[r] == next.listed[r])
  }

  lemma SettledFrame(w: World, next: World, o: OperationId)
    requires SameFor(w, next, o) && Settled(w, o)
    ensures Settled(next, o)
  {
    hide MessageReference, EventReference;
  }

  lemma SoundFrame(w: World, next: World, x: Attempt)
    requires SameFor(w, next, x.operation) && Sound(w, x)
    ensures Sound(next, x)
  {
    hide MessageReference, EventReference;
  }

  lemma TendedFrame(w: World, next: World, o: OperationId)
    requires SameFor(w, next, o) && Tended(w, o)
    ensures Tended(next, o)
  {
    hide MessageReference, EventReference, Settled, Sound;
    SettledFrame(w, next, o);
    forall a | a in next.attempts && next.attempts[a].operation == o ensures Sound(next, next.attempts[a]) {
      SoundFrame(w, next, next.attempts[a]);
    }
  }

  /** A step that concerns one operation only has to look after that one. */
  lemma OthersTended(w: World, next: World, o: OperationId)
    requires forall p | p in w.db.operations :: Tended(w, p)
    requires forall p | p in next.db.operations && p != o :: SameFor(w, next, p)
    requires o in next.db.operations && Tended(next, o)
    ensures forall p | p in next.db.operations :: Tended(next, p)
  {
    hide Tended, SameFor;
    forall p | p in next.db.operations && p != o ensures Tended(next, p) {
      assert p in w.db.operations by { InBoth(w, next, p); }
      TendedFrame(w, next, p);
    }
  }

  lemma InBoth(w: World, next: World, o: OperationId)
    requires SameFor(w, next, o)
    ensures o in w.db.operations && o in next.db.operations
  {
  }

  lemma Assemble(w: World, next: World, o: OperationId)
    requires Inv(w) && Consistent(next.db) && Mailbox(next) && Approvals(next) && Known(next)
    requires forall p | p in next.db.operations && p != o :: SameFor(w, next, p)
    requires o in next.db.operations && Tended(next, o)
    ensures Inv(next)
  {
    hide Tended, SameFor, Consistent, Mailbox, Approvals, Known;
    OthersTended(w, next, o);
  }

  // ---------------------------------------------------------------- transactions

  /** What the protocol can see of a transaction that succeeds on one operation. */
  ghost predicate OneRow(db: Db, next: Db, o: OperationId, row: OperationRow) {
    && Consistent(next)
    && (forall d | OnRecord(db, d) :: OnRecord(next, d))
    && o in db.operations && next.operations == db.operations[o := row]
    && row.draftId == db.operations[o].draftId && row.kind == db.operations[o].kind && row.key == db.operations[o].key
  }

  function ClaimedRow(row: OperationRow, owner: string, until: int): OperationRow {
    row.(status := OpExecuting, attempt := row.attempt + 1, leaseOwner := owner, leaseUntil := Some(until))
  }

  function FinishedRow(row: OperationRow, completed: bool, reference: string): OperationRow {
    row.(status := if completed then OpCompleted else OpFailed, leaseOwner := "", leaseUntil := None,
      reference := reference)
  }

  lemma ClaimFacts(db: Db, o: OperationId, owner: string, until: int)
    requires Consistent(db) && ClaimOperation(db, o, owner, until).Ok?
    ensures o in db.operations && db.operations[o].status in {OpPending, OpFailed}
    ensures OneRow(db, ClaimOperation(db, o, owner, until).value, o, ClaimedRow(db.operations[o], owner, until))
  {
    hide Consistent;
    ClaimKeeps(db, o, owner, until);
    assert db.draftLog <= ClaimOperation(db, o, owner, until).value.draftLog;
  }

  lemma CheckpointFacts(db: Db, o: OperationId, owner: string, reference: string)
    requires Consistent(db) && CheckpointOperation(db, o, owner, reference).Ok?
    ensures HoldsLease(db, o, owner)
    ensures OneRow(db, CheckpointOperation(db, o, owner, reference).value, o, db.operations[o].(reference := reference))
  {
    hide Consistent;
    CheckpointKeeps(db, o, owner, reference);
  }

  lemma FinishFacts(db: Db, o: OperationId, owner: string, completed: bool, reference: string)
    requires Consistent(db)
    ensures FinishOperation(db, o, owner, completed, reference).Ok? <==> HoldsLease(db, o, owner)
    ensures FinishOperation(db, o, owner, completed, reference).Ok? ==>
      OneRow(db, FinishOperation(db, o, owner, completed, reference).value, o,
        FinishedRow(db.operations[o], completed, reference))
  {
    hide Consistent;
    FinishKeeps(db, o, owner, completed, reference);
    if FinishOperation(db, o, owner, completed, reference).Ok? {
      assert db.draftLog <= FinishOperation(db, o, owner, completed, reference).value.draftLog;
    }
  }

  lemma ExecutingIsApproved(db: Db, o: OperationId)
    requires Consistent(db) && o in db.operations && db.operations[o].status == OpExecuting
    ensures OnRecord(db, db.operations[o].draftId) && db.operations[o].key.draftId == db.operations[o].draftId
  {
    ApprovalOnRecord(db.draftLog, db.operations[o].draftId);
  }

  lemma ApprovalsFrame(w: World, next: World, o: OperationId, row: OperationRow)
    requires Approvals(w) && OneRow(w.db, next.db, o, row)
    requires next.mailbox == w.mailbox && next.calendar == w.calendar
    ensures Approvals(next)
  {
    hide Consistent, OnRecord;
  }

  // ---------------------------------------------------------------- steps

  lemma ClaimTends(w: World, next: World, a: nat, o: OperationId, owner: string, until: int)
    requires o in w.db.operations && Tended(w, o) && w.db.operations[o].status in {OpPending, OpFailed}
    requires var row := ClaimedRow(w.db.operations[o], owner, until);
      && next.db.operations == w.db.operations[o := row]
      && (next == w.(db := next.db)
          || (a !in w.attempts
              && next == w.(db := next.db, attempts := w.attempts[a :=
                   Attempt(o, owner, row.attempt, row.reference, FirstPhase(row.kind, row.reference))])))
    ensures Tended(next, o)
  {
    hide MessageReference, EventReference, GraphReference.Decode, Sound, Settled, Current, FirstPhase;
    ClaimSettles(w, next, o, ClaimedRow(w.db.operations[o], owner, until));
    if next.attempts != w.attempts { ClaimSound(w, next, a, o, owner, until); }
    forall r | r in next.listed && next.listed[r].operation == o ensures Current(next, next.listed[r]) {
      assert Current(w, w.listed[r]);
      ClaimCurrent(w, next, o, next.listed[r]);
    }
    forall b | b in w.attempts && w.attempts[b].operation == o ensures false {
      NotSound(w, w.attempts[b]);
    }
  }

  lemma NotSound(w: World, x: Attempt)
    requires x.operation in w.db.operations && w.db.operations[x.operation].status in {OpPending, OpFailed}
    ensures !Sound(w, x)
  {
  }

  lemma ClaimSettles(w: World, next: World, o: OperationId, row: OperationRow)
    requires o in w.db.operations && Settled(w, o)
    requires row.kind == w.db.operations[o].kind && row.key == w.db.operations[o].key
      && row.reference == w.db.operations[o].reference
    requires row.status == OpExecuting && next == w.(db := next.db, attempts := next.attempts)
    requires next.db.operations == w.db.operations[o := row]
    ensures Settled(next, o)
  {
    hide MessageReference, EventReference;
  }

  lemma ClaimCurrent(w: World, next: World, o: OperationId, item: Listed)
    requires o in w.db.operations && o in next.db.operations && item.operation == o && Current(w, item)
    requires next.db.operations[o].attempt > w.db.operations[o].attempt
    ensures Current(next, item)
  {
  }

  lemma ClaimSound(w: World, next: World, a: nat, o: OperationId, owner: string, until: int)
    requires o in w.db.operations && Settled(w, o) && o in next.db.operations
    requires next == w.(db := next.db, attempts := next.attempts)
    requires var row := ClaimedRow(w.db.operations[o], owner, until);
      && next.db.operations[o] == row && a in next.attempts
      && next.attempts[a] == Attempt(o, owner, row.attempt, row.reference, FirstPhase(row.kind, row.reference))
    ensures Sound(next, next.attempts[a])
  {
    hide MessageReference, EventReference, GraphReference.Decode;
    var row := w.db.operations[o];
    if row.kind == Email && row.reference != "" {
      var m :| m in w.mailbox && w.mailbox[m].operation == o && row.reference == MessageReference(m);
      ReferenceFacts(m, m);
    }
  }

  lemma ClaimStepKeeps(w: World, a: nat, o: OperationId, owner: string, until: int, call: Call)
    requires Inv(w) && StepClaim(w, a, o, owner, until, call).Some?
    ensures Inv(StepClaim(w, a, o, owner, until, call).value)
  {
    hide Consistent, ClaimOperation, OnRecord, Tended, FirstPhase;
    if ClaimOperation(w.db, o, owner, until).Ok? && call != NoEffect {
      ClaimFacts(w.db, o, owner, until);
      var next := StepClaim(w, a, o, owner, until, call).value;
      ClaimTends(w, next, a, o, owner, until);
      ApprovalsFrame(w, next, o, ClaimedRow(w.db.operations[o], owner, until));
      Assemble(w, next, o);
    }
  }

  /** A live attempt of a row without a reference, or with one it has not seen, has sent nothing. */
  lemma NothingSent(w: World, o: OperationId)
    requires o in w.db.operations && Mailbox(w) && Settled(w, o) && w.db.operations[o].reference == ""
    ensures AllDrafts(w, o)
  {
    hide MessageReference;
    forall m | m in w.mailbox && w.mailbox[m].operation == o ensures w.mailbox[m].isDraft {
      ReferenceFacts(m, m);
    }
  }

  lemma LiveFacts(w: World, a: nat)
    requires Inv(w) && a in w.attempts
    ensures var o := w.attempts[a].operation;
      o in w.db.operations && Tended(w, o) && Settled(w, o) && Sound(w, w.attempts[a]) && Consistent(w.db)
  {
    hide Settled, Sound, Consistent;
    assert Tended(w, w.attempts[a].operation);
  }

  /** A live attempt may change its own state and its row, as long as the two stay sound together. */
  lemma ReplaceTends(w: World, next: World, a: nat, y: Attempt)
    requires a in w.attempts && y.operation == w.attempts[a].operation && y.operation in w.db.operations
    requires Tended(w, y.operation)
    requires next.attempts == w.attempts[a := y] && next.listed == w.listed
    requires y.operation in next.db.operations
      && next.db.operations[y.operation].attempt == w.db.operations[y.operation].attempt
    requires Settled(next, y.operation) && Sound(next, y)
    ensures Tended(next, y.operation)
  {
    hide MessageReference, EventReference, Settled;
    assert w.db.operations[y.operation].status == OpExecuting by { assert Sound(w, w.attempts[a]); }
    assert Live(w, y.operation);
    forall r | r in next.listed && next.listed[r].operation == y.operation ensures Current(next, next.listed[r]) {
      assert Current(w, w.listed[r]);
    }
  }

  /** The attempt moves on and its operation's row, mail and event may change; nothing else does. */
  lemma ReplaceKeeps(w: World, next: World, a: nat, y: Attempt)
    requires Inv(w) && a in w.attempts && y.operation == w.attempts[a].operation
    requires Consistent(next.db) && Mailbox(next) && Approvals(next)
    requires next.attempts == w.attempts[a := y] && next.listed == w.listed
    requires next.db.operations.Keys == w.db.operations.Keys
    requires next.db.operations[y.operation].attempt == w.db.operations[y.operation].attempt
    requires forall p | p in w.db.operations && p != y.operation :: SameFor(w, next, p)
    requires Settled(next, y.operation) && Sound(next, y)
    ensures Inv(next)
  {
    hide Tended, Settled, Sound, SameFor, Consistent, Mailbox, Approvals;
    LiveFacts(w, a);
    ReplaceTends(w, next, a, y);
    Assemble(w, next, y.operation);
  }

  lemma MoveKeeps(w: World, a: nat, phase: Phase)
    requires Inv(w) && a in w.attempts && w.attempts[a].operation in w.db.operations
    requires Sound(w, w.attempts[a].(phase := phase))
    ensures Inv(Move(w, a, phase))
  {
    hide Tended, Consistent, MessageReference, EventReference;
    LiveFacts(w, a);
    var y := w.attempts[a].(phase := phase);
    SettledMove(w, a, y);
    ReplaceKeeps(w, Move(w, a, phase), a, y);
  }

  lemma SettledMove(w: World, a: nat, y: Attempt)
    requires y.operation in w.db.operations && Settled(w, y.operation) && Sound(w, y)
    ensures Settled(w.(attempts := w.attempts[a := y]), y.operation) && Sound(w.(attempts := w.attempts[a := y]), y)
  {
    hide MessageReference, EventReference;
  }

  lemma FailKeeps(w: World, a: nat)
    requires Inv(w) && a in w.attempts
    requires w.attempts[a].latest == "" ==> AllDrafts(w, w.attempts[a].operation)
    ensures Inv(Fail(w, a))
  {
    hide Tended, Settled, Consistent, MessageReference, EventReference;
    LiveFacts(w, a);
    MoveKeeps(w, a, Finishing(false, w.attempts[a].latest));
  }

  /** Around a live attempt: what a step may use and must restore. */
  ghost predicate AtWork(w: World, a: nat) {
    && a in w.attempts && w.attempts[a].operation in w.db.operations
    && Mailbox(w) && Approvals(w) && Settled(w, w.attempts[a].operation) && Sound(w, w.attempts[a])
  }

  lemma InvAtWork(w: World, a: nat)
    requires Inv(w) && a in w.attempts
    ensures AtWork(w, a)
  {
    hide Consistent, Settled, Sound, Tended, Mailbox, Approvals;
    LiveFacts(w, a);
  }

  lemma AtWorkKeeps(w: World, next: World, a: nat)
    requires Inv(w) && a in w.attempts && Consistent(next.db) && AtWork(next, a)
    requires var y := next.attempts[a];
      && y.operation == w.attempts[a].operation
      && next.attempts == w.attempts[a := y] && next.listed == w.listed
      && next.db.operations.Keys == w.db.operations.Keys
      && next.db.operations[y.operation].attempt == w.db.operations[y.operation].attempt
      && (forall p | p in w.db.operations && p != y.operation :: SameFor(w, next, p))
    ensures Inv(next)
  {
    hide Tended, Settled, Sound, SameFor, Consistent, Mailbox, Approvals;
    ReplaceKeeps(w, next, a, next.attempts[a]);
  }

  lemma CreateMailLeaves(w: World, a: nat, id: Id, call: Call)
    requires AtWork(w, a) && StepCreateMail(w, a, id, call).Some? && call != NoEffect
    ensures var x, next := w.attempts[a], StepCreateMail(w, a, id, call).value;
      && id !in w.mailbox && w.db.operations[x.operation].kind == Email && w.db.operations[x.operation].reference == ""
      && w.db.operations[x.operation].status != OpCompleted
      && next == w.(mailbox := w.mailbox[id := Mail(x.operation, true)], attempts := next.attempts)
      && next.attempts == w.attempts[a := x.(phase := if call == Replied && id != [] then SavingMail(id)
           else Finishing(false, x.latest))]
  {
    hide OnRecord, MessageReference, EventReference, Mailbox, Approvals, Settled;
  }

  lemma CreateMailWorks(w: World, a: nat, id: Id, call: Call)
    requires AtWork(w, a) && StepCreateMail(w, a, id, call).Some? && call != NoEffect
    requires OnRecord(w.db, w.db.operations[w.attempts[a].operation].draftId) && AllDrafts(w, w.attempts[a].operation)
    ensures AtWork(StepCreateMail(w, a, id, call).value, a)
  {
    hide OnRecord, MessageReference, EventReference, StepCreateMail;
    CreateMailLeaves(w, a, id, call);
    var next := StepCreateMail(w, a, id, call).value;
    assert AllDrafts(next, w.attempts[a].operation);
    assert Settled(next, w.attempts[a].operation);
  }

  /** Until a reference is saved nothing has been sent, and the approval is on record. */
  lemma BeforeReference(w: World, a: nat)
    requires Inv(w) && a in w.attempts
    requires w.attempts[a].phase.CreatingMail? || w.attempts[a].phase.SavingMail? || w.attempts[a].phase.CreatingEvent?
      || w.attempts[a].phase.SavingEvent?
    ensures AtWork(w, a) && AllDrafts(w, w.attempts[a].operation)
    ensures var row := w.db.operations[w.attempts[a].operation];
      OnRecord(w.db, row.draftId) && row.key.draftId == row.draftId
    ensures Consistent(w.db)
  {
    hide Inv, Settled, Consistent, OnRecord, MessageReference, EventReference, Tended;
    LiveFacts(w, a);
    InvAtWork(w, a);
    NothingSent(w, w.attempts[a].operation);
    ExecutingIsApproved(w.db, w.attempts[a].operation);
  }

  lemma CreateMailStepKeeps(w: World, a: nat, id: Id, call: Call)
    requires Inv(w) && StepCreateMail(w, a, id, call).Some?
    ensures Inv(StepCreateMail(w, a, id, call).value)
  {
    hide Inv, AtWork, Tended, Settled, Sound, AllDrafts, Consistent, OnRecord, Mailbox, Approvals;
    BeforeReference(w, a);
    if call == NoEffect {
      FailKeeps(w, a);
    } else {
      CreateMailWorks(w, a, id, call);
      AtWorkKeeps(w, StepCreateMail(w, a, id, call).value, a);
    }
  }

  lemma SaveReferenceWorks(w: World, next: World, a: nat, y: Attempt, reference: string)
    requires AtWork(w, a) && AllDrafts(w, w.attempts[a].operation) && reference != ""
    requires var x := w.attempts[a]; var row := w.db.operations[x.operation];
      && (x.phase.SavingMail? || x.phase.SavingEvent?)
      && reference == (if x.phase.SavingMail? then MessageReference(x.phase.message) else EventReference(x.phase.event))
      && next == w.(db := next.db, attempts := w.attempts[a := y])
      && next.db.operations == w.db.operations[x.operation := row.(reference := reference)]
      && y in {x.(phase := Finishing(false, x.latest)),
               x.(latest := reference, phase := if x.phase.SavingMail? then Sending(x.phase.message)
                 else Finishing(true, reference))}
    requires Approvals(next)
    ensures AtWork(next, a)
  {
    hide Approvals, MessageReference, EventReference;
    var o := w.attempts[a].operation;
    assert AllDrafts(next, o);
    assert Settled(next, o);
  }

  lemma AtWorkApprovals(w: World, a: nat)
    requires AtWork(w, a)
    ensures Approvals(w)
  {
  }

  /** A checkpoint that takes effect changes the reference of one row, and the attempt may not hear of it. */
  lemma SaveReferenceLeaves(w: World, a: nat, call: Call, reference: string)
    requires StepSaveReference(w, a, call).Some? && Consistent(w.db) && call != NoEffect
    requires var x := w.attempts[a];
      reference == if x.phase.SavingMail? then MessageReference(x.phase.message) else EventReference(x.phase.event)
    requires CheckpointOperation(w.db, w.attempts[a].operation, w.attempts[a].owner, reference).Ok?
    ensures var x, next := w.attempts[a], StepSaveReference(w, a, call).value;
      && x.operation in w.db.operations
      && OneRow(w.db, next.db, x.operation, w.db.operations[x.operation].(reference := reference))
      && a in next.attempts && next == w.(db := next.db, attempts := w.attempts[a := next.attempts[a]])
      && next.attempts[a] in {
           x.(phase := Finishing(false, x.latest)),
           x.(latest := reference, phase := if x.phase.SavingMail? then Sending(x.phase.message)
             else Finishing(true, reference))}
  {
    hide Consistent, MessageReference, EventReference, CheckpointOperation;
    CheckpointFacts(w.db, w.attempts[a].operation, w.attempts[a].owner, reference);
  }

  lemma SaveReferenceSucceeds(w: World, a: nat, call: Call, reference: string)
    requires Inv(w) && StepSaveReference(w, a, call).Some? && call != NoEffect && reference != "" && a in w.attempts
    requires w.attempts[a].phase.SavingMail? || w.attempts[a].phase.SavingEvent?
    requires var x := w.attempts[a];
      reference == if x.phase.SavingMail? then MessageReference(x.phase.message) else EventReference(x.phase.event)
    requires CheckpointOperation(w.db, w.attempts[a].operation, w.attempts[a].owner, reference).Ok?
    ensures Inv(StepSaveReference(w, a, call).value)
  {
    hide Inv, AtWork, Tended, Settled, Sound, AllDrafts, Consistent, OnRecord, Mailbox, Approvals;
    hide MessageReference, EventReference, CheckpointOperation, StepSaveReference;
    BeforeReference(w, a);
    AtWorkApprovals(w, a);
    SaveReferenceLeaves(w, a, call, reference);
    var x, next := w.attempts[a], StepSaveReference(w, a, call).value;
    ApprovalsFrame(w, next, x.operation, w.db.operations[x.operation].(reference := reference));
    SaveReferenceWorks(w, next, a, next.attempts[a], reference);
    AtWorkKeeps(w, next, a);
  }

  lemma SaveReferenceStepKeeps(w: World, a: nat, call: Call)
    requires Inv(w) && StepSaveReference(w, a, call).Some?
    ensures Inv(StepSaveReference(w, a, call).value)
  {
    hide Inv, AtWork, Tended, Settled, Sound, AllDrafts, Consistent, OnRecord, Mailbox, Approvals;
    hide MessageReference, EventReference, CheckpointOperation;
    BeforeReference(w, a);
    var x := w.attempts[a];
    var reference := if x.phase.SavingMail? then MessageReference(x.phase.message) else EventReference(x.phase.event);
    if x.phase.SavingMail? {
      ReferenceFacts(x.phase.message, x.phase.message);
    } else {
      ReferenceFacts(x.phase.event, x.phase.event);
    }
    if CheckpointOperation(w.db, x.operation, x.owner, reference).Err? || call == NoEffect {
      FailKeeps(w, a);
    } else {
      SaveReferenceSucceeds(w, a, call, reference);
    }
  }

  lemma LookUpStepKeeps(w: World, a: nat, call: Call)
    requires Inv(w) && StepLookUp(w, a, call).Some?
    ensures Inv(StepLookUp(w, a, call).value)
  {
    hide Inv, Tended, Settled, Consistent, MessageReference, EventReference;
    LiveFacts(w, a);
    InvAtWork(w, a);
    var m := w.attempts[a].phase.message;
    ReferenceFacts(m, m);
    if call != Replied {
      FailKeeps(w, a);
    } else {
      MoveKeeps(w, a, if w.mailbox[m].isDraft then Sending(m) else Finishing(true, w.attempts[a].latest));
    }
  }

  /** What a send leaves, whatever the attempt is told about it. */
  lemma SendLeaves(w: World, a: nat, call: Call)
    requires AtWork(w, a) && StepSend(w, a, call).Some? && call != NoEffect
    ensures w.attempts[a].phase.Sending?
    ensures var x, next := w.attempts[a], StepSend(w, a, call).value; var m := x.phase.message;
      && m in w.mailbox && w.mailbox[m] == Mail(x.operation, true) && x.latest == MessageReference(m) != ""
      && w.db.operations[x.operation].reference == x.latest
      && next == w.(mailbox := w.mailbox[m := Mail(x.operation, false)], sends := w.sends + [m],
                    attempts := w.attempts[a := x.(phase := Finishing(call == Replied, x.latest))])
  {
    hide OnRecord, MessageReference, EventReference, Mailbox, Approvals, Settled;
    ReferenceFacts(w.attempts[a].phase.message, w.attempts[a].phase.message);
  }

  lemma SendMailbox(w: World, a: nat, call: Call)
    requires AtWork(w, a) && StepSend(w, a, call).Some? && call != NoEffect
    ensures Mailbox(StepSend(w, a, call).value) && Approvals(StepSend(w, a, call).value)
  {
    hide OnRecord, MessageReference, EventReference, StepSend, Sound, Settled;
    SendLeaves(w, a, call);
  }

  lemma SendSettled(w: World, a: nat, call: Call)
    requires AtWork(w, a) && StepSend(w, a, call).Some? && call != NoEffect
    ensures Settled(StepSend(w, a, call).value, w.attempts[a].operation)
  {
    hide OnRecord, MessageReference, EventReference, StepSend, Sound, Approvals, Mailbox;
    SendLeaves(w, a, call);
  }

  lemma SendWorks(w: World, a: nat, call: Call)
    requires AtWork(w, a) && StepSend(w, a, call).Some? && call != NoEffect
    ensures AtWork(StepSend(w, a, call).value, a)
  {
    hide OnRecord, MessageReference, EventReference, Mailbox, Approvals, Settled, StepSend;
    SendLeaves(w, a, call);
    SendMailbox(w, a, call);
    SendSettled(w, a, call);
    var m, next := w.attempts[a].phase.message, StepSend(w, a, call).value;
    assert m in next.mailbox && next.mailbox[m].operation == w.attempts[a].operation && m in next.sends;
  }

  lemma SendStepKeeps(w: World, a: nat, call: Call)
    requires Inv(w) && StepSend(w, a, call).Some?
    ensures Inv(StepSend(w, a, call).value)
  {
    hide Inv, Tended, Settled, Consistent, OnRecord, MessageReference, EventReference;
    LiveFacts(w, a);
    InvAtWork(w, a);
    if call == NoEffect {
      var m := w.attempts[a].phase.message;
      ReferenceFacts(m, m);
      FailKeeps(w, a);
    } else {
      SendWorks(w, a, call);
      var next := StepSend(w, a, call).value;
      hide AtWork, Sound;
      AtWorkKeeps(w, next, a);
    }
  }

  lemma CreateEventWorks(w: World, a: nat, id: Id, call: Call)
    requires AtWork(w, a) && StepCreateEvent(w, a, id, call).Some? && call != NoEffect
    requires var row := w.db.operations[w.attempts[a].operation];
      OnRecord(w.db, row.draftId) && row.key.draftId == row.draftId
    requires AllDrafts(w, w.attempts[a].operation)
    ensures AtWork(StepCreateEvent(w, a, id, call).value, a)
  {
    hide OnRecord, MessageReference, EventReference;
    var next := StepCreateEvent(w, a, id, call).value;
    assert Approvals(next);
    assert AllDrafts(next, w.attempts[a].operation);
    assert Settled(next, w.attempts[a].operation);
  }

  lemma CreateEventStepKeeps(w: World, a: nat, id: Id, call: Call)
    requires Inv(w) && StepCreateEvent(w, a, id, call).Some?
    ensures Inv(StepCreateEvent(w, a, id, call).value)
  {
    hide Inv, AtWork, Tended, Settled, Sound, AllDrafts, Consistent, OnRecord, Mailbox, Approvals;
    BeforeReference(w, a);
    if call == NoEffect {
      FailKeeps(w, a);
    } else {
      CreateEventWorks(w, a, id, call);
      AtWorkKeeps(w, StepCreateEvent(w, a, id, call).value, a);
    }
  }


  /** Dropping attempts or listings disturbs nothing. */
  lemma DropKeeps(w: World, next: World)
    requires Inv(w) && next == w.(attempts := next.attempts, listed := next.listed)
    requires forall a | a in next.attempts :: a in w.attempts && next.attempts[a] == w.attempts[a]
    requires forall r | r in next.listed :: r in w.listed && next.listed[r] == w.listed[r]
    ensures Inv(next)
  {
    hide Tended, Consistent, OnRecord;
    forall o | o in next.db.operations ensures Tended(next, o) {
      TendedFrame(w, next, o);
    }
  }

  /** Recording a result: sound if it names whatever the operation sent, and nobody is left at work on it. */
  lemma FinishedTends(w: World, next: World, o: OperationId, completed: bool, reference: string)
    requires o in w.db.operations && Tended(w, o)
    requires next.db.operations == w.db.operations[o := FinishedRow(w.db.operations[o], completed, reference)]
    requires next == w.(db := next.db, attempts := next.attempts, listed := next.listed) && !Live(next, o)
    requires forall r | r in next.listed :: r in w.listed && next.listed[r] == w.listed[r]
    requires reference == w.db.operations[o].reference || (reference == "" && AllDrafts(w, o))
    requires Mailbox(w)
    requires completed ==> if w.db.operations[o].kind == Email then NamesSent(w, o, reference)
      else NamesEvent(w, w.db.operations[o].key, reference)
    ensures Tended(next, o)
  {
    hide MessageReference, EventReference;
    assert Settled(next, o);
    forall r | r in next.listed && next.listed[r].operation == o ensures Current(next, next.listed[r]) {
      assert Current(w, w.listed[r]);
    }
  }

  lemma MailboxFrame(w: World, next: World)
    requires Mailbox(w) && next.mailbox == w.mailbox && next.sends == w.sends
    ensures Mailbox(next)
  {
  }

  /** The end of an attempt whose result was recorded or refused. */
  lemma FinishRecorded(w: World, a: nat, call: Call)
    requires Inv(w) && StepFinish(w, a, call).Some? && call != NoEffect
    ensures Inv(StepFinish(w, a, call).value)
  {
    hide Tended, Settled, Consistent, OnRecord, MessageReference, EventReference, FinishOperation, Mailbox, Approvals;
    LiveFacts(w, a);
    var x := w.attempts[a];
    var next := StepFinish(w, a, call).value;
    FinishFacts(w.db, x.operation, x.owner, x.phase.completed, x.phase.result);
    MailboxFrame(w, next);
    ApprovalsFrame(w, next, x.operation, FinishedRow(w.db.operations[x.operation], x.phase.completed, x.phase.result));
    AloneOnOperation(w, a);
    FinishedTends(w, next, x.operation, x.phase.completed, x.phase.result);
    Assemble(w, next, x.operation);
  }

  lemma FinishStepKeeps(w: World, a: nat, call: Call)
    requires Inv(w) && StepFinish(w, a, call).Some?
    ensures Inv(StepFinish(w, a, call).value)
  {
    hide Inv;
    if call == NoEffect {
      DropKeeps(w, StepFinish(w, a, call).value);
    } else {
      FinishRecorded(w, a, call);
    }
  }

  lemma AloneOnOperation(w: World, a: nat)
    requires Inv(w) && a in w.attempts
    ensures !Live(w.(attempts := w.attempts - {a}), w.attempts[a].operation)
  {
    hide Settled, Sound, Consistent;
    assert Tended(w, w.attempts[a].operation);
  }

  lemma ListedTends(w: World, next: World, r: nat, o: OperationId)
    requires o in w.db.operations && Tended(w, o) && !Live(w, o)
    requires var row := w.db.operations[o];
      next == w.(listed := w.listed[r := Listed(o, row.leaseOwner, row.attempt, row.reference)])
    ensures Tended(next, o)
  {
    hide MessageReference, EventReference;
    assert Settled(next, o);
    forall i | i in next.listed && next.listed[i].operation == o ensures Current(next, next.listed[i]) {
      assert i != r ==> Current(w, w.listed[i]);
    }
  }

  lemma ListStepKeeps(w: World, r: nat, o: OperationId, now: int)
    requires Inv(w) && StepList(w, r, o, now).Some? && !Live(w, o)
    ensures Inv(StepList(w, r, o, now).value)
  {
    hide Consistent, Tended, OnRecord;
    var next := StepList(w, r, o, now).value;
    ListedTends(w, next, r, o);
    Assemble(w, next, o);
  }

  lemma RecoverStepKeeps(w: World, r: nat, call: Call)
    requires Inv(w) && StepRecover(w, r, call).Some? && Timely(w, Recover(r, call))
    ensures Inv(StepRecover(w, r, call).value)
  {
    hide Tended, Settled, Consistent, OnRecord, MessageReference, EventReference, FinishOperation;
    var item := w.listed[r];
    var o := item.operation;
    var next := StepRecover(w, r, call).value;
    FinishFacts(w.db, o, item.owner, false, item.reference);
    if call == NoEffect || !HoldsLease(w.db, o, item.owner) {
      DropKeeps(w, next);
    } else {
      ListedFacts(w, r);
      ApprovalsFrame(w, next, o, FinishedRow(w.db.operations[o], false, item.reference));
      FinishedTends(w, next, o, false, item.reference);
      Assemble(w, next, o);
    }
  }

  lemma ListedFacts(w: World, r: nat)
    requires Inv(w) && r in w.listed
    ensures w.listed[r].operation in w.db.operations && Tended(w, w.listed[r].operation) && Current(w, w.listed[r])
  {
    hide Settled, Sound, Consistent;
    assert Tended(w, w.listed[r].operation);
  }

  // ---------------------------------------------------------------- requests

  /** What a user's request does to the database, as far as the protocol can see. */
  ghost predicate Undisturbed(db: Db, next: Db) {
    && Consistent(next)
    && (forall o | o in db.operations :: o in next.operations && next.operations[o] == db.operations[o])
    && (forall o | o in next.operations && o !in db.operations ::
         next.operations[o].reference == "" && next.operations[o].status == OpPending)
    && (forall d | OnRecord(db, d) :: OnRecord(next, d))
  }

  lemma UndisturbedKeeps(w: World, next: Db)
    requires Inv(w) && Undisturbed(w.db, next)
    ensures Inv(w.(db := next))
  {
    hide Consistent, OnRecord, Tended;
    var after := w.(db := next);
    assert Mailbox(after) && Approvals(after) && Known(after);
    hide Mailbox, Approvals;
    forall o | o in next.operations ensures Tended(after, o) {
      if o in w.db.operations {
        assert SameFor(w, after, o);
        TendedFrame(w, after, o);
      } else {
        NewOperationTended(w, after, o);
      }
    }
  }

  lemma NewOperationTended(w: World, next: World, o: OperationId)
    requires Known(w) && Approvals(w) && next == w.(db := next.db)
    requires o in next.db.operations && o !in w.db.operations
    requires next.db.operations[o].reference == "" && next.db.operations[o].status == OpPending
    ensures Tended(next, o)
  {
  }

  lemma RequestUndisturbed(db: Db, l: Label)
    requires Consistent(db)
    requires l.SaveADraft? || l.Submit? || l.Confirm? || l.Delete? || l.Prepare?
    ensures Undisturbed(db, Step(START.(db := db), l).value.db)
  {
    hide Consistent;
    match l
    case SaveADraft(d, kind, run, hash) => SaveDraftKeeps(db, d, kind, run, hash);
    case Submit(d) => TransitionKeeps(db, d, Draft, PendingConfirmation);
    case Confirm(d, approve) => TransitionKeeps(db, d, PendingConfirmation, if approve then Approved else Rejected);
    case Delete(d) => DeleteErasesNothing(db, d);
    case Prepare(o, d) => if d in db.drafts { CreateOperationKeeps(db, o, d); }
  }

  lemma RequestKeeps(w: World, l: Label)
    requires Inv(w)
    requires l.SaveADraft? || l.Submit? || l.Confirm? || l.Delete? || l.Prepare?
    ensures Step(w, l).Some? && Inv(Step(w, l).value)
  {
    hide Consistent, Undisturbed, Tended, Mailbox, Approvals, Known;
    RequestUndisturbed(w.db, l);
    UndisturbedKeeps(w, Step(w, l).value.db);
  }

  // ---------------------------------------------------------------- runs

  lemma StepKeeps(w: World, l: Label)
    requires Inv(w) && Step(w, l).Some? && Timely(w, l)
    ensures Inv(Step(w, l).value)
  {
    hide Inv, StepClaim, StepCreateMail, StepSaveReference, StepLookUp, StepSend, StepCreateEvent, StepFinish, StepList;
    hide StepRecover;
    match l
    case Claim(a, o, owner, until, call) => ClaimStepKeeps(w, a, o, owner, until, call);
    case CreateMail(a, id, call) => CreateMailStepKeeps(w, a, id, call);
    case SaveReference(a, call) => SaveReferenceStepKeeps(w, a, call);
    case LookUp(a, call) => LookUpStepKeeps(w, a, call);
    case Send(a, call) => SendStepKeeps(w, a, call);
    case CreateEvent(a, id, call) => CreateEventStepKeeps(w, a, id, call);
    case Finish(a, call) => FinishStepKeeps(w, a, call);
    case Crash(_) => DropKeeps(w, Step(w, l).value);
    case List(r, o, now) => ListStepKeeps(w, r, o, now);
    case Recover(r, call) => RecoverStepKeeps(w, r, call);
    case _ => RequestKeeps(w, l);
  }

  lemma {:induction false} RunKeeps(w: World, labels: seq<Label>)
    requires Inv(w) && TimelyRun(w, labels) && Run(w, labels).Some?
    ensures Inv(Run(w, labels).value)
    decreases |labels|
  {
    hide Inv, Step, Timely;
    if labels != [] {
      StepKeeps(w, labels[0]);
      RunKeeps(Step(w, labels[0]).value, labels[1..]);
    }
  }

  // ---------------------------------------------------------------- results

  /** The messages delivered for one operation, in order. */
  ghost function Delivered(w: World, o: OperationId): seq<Id> {
    DeliveredOf(w.sends, w.mailbox, o)
  }

  ghost function DeliveredOf(sends: seq<Id>, mailbox: map<Id, Mail>, o: OperationId): seq<Id> {
    if sends == [] then []
    else if sends[0] in mailbox && mailbox[sends[0]].operation == o
      then [sends[0]] + DeliveredOf(sends[1..], mailbox, o)
    else DeliveredOf(sends[1..], mailbox, o)
  }

  lemma {:induction false} DeliveredAtMost(sends: seq<Id>, mailbox: map<Id, Mail>, o: OperationId, m: Id)
    requires forall i, j | 0 <= i < j < |sends| :: sends[i] != sends[j]
    requires forall n | n in sends && n in mailbox && mailbox[n].operation == o :: n == m
    ensures DeliveredOf(sends, mailbox, o) == if m in sends && m in mailbox && mailbox[m].operation == o then [m]
      else []
  {
    if sends != [] {
      DeliveredAtMost(sends[1..], mailbox, o, m);
      assert sends == [sends[0]] + sends[1..];
    }
  }

  lemma OneMessage(w: World, o: OperationId)
    requires Inv(w)
    ensures |Delivered(w, o)| <= 1
    ensures o in w.db.operations && w.db.operations[o].status == OpCompleted && w.db.operations[o].kind == Email ==>
      exists m :: Delivered(w, o) == [m] && w.db.operations[o].reference == MessageReference(m)
  {
    hide Consistent, MessageReference, EventReference, Sound, OnRecord;
    if m :| m in w.sends && w.mailbox[m].operation == o {
      assert Tended(w, o);
      forall n | n in w.sends && n in w.mailbox && w.mailbox[n].operation == o ensures n == m {
        ReferenceFacts(m, n);
      }
      DeliveredAtMost(w.sends, w.mailbox, o, m);
    } else {
      DeliveredAtMost(w.sends, w.mailbox, o, []);
      if o in w.db.operations {
        assert Tended(w, o);
      }
    }
  }

  /** A completed calendar operation's reference names the event written under its key. */
  lemma CompletedEvent(w: World, o: OperationId)
    requires Inv(w) && o in w.db.operations
    ensures w.db.operations[o].status == OpCompleted && w.db.operations[o].kind == Calendar ==>
      NamesEvent(w, w.db.operations[o].key, w.db.operations[o].reference)
  {
    hide Consistent, MessageReference, EventReference, Sound;
    assert Tended(w, o);
  }

  /** What an attempt about to record its result has delivered. */
  lemma FinishingMail(w: World, a: nat)
    requires Inv(w) && a in w.attempts && w.attempts[a].phase.Finishing?
    requires w.attempts[a].operation in w.db.operations && w.db.operations[w.attempts[a].operation].kind == Email
    ensures var x := w.attempts[a];
      && (x.phase.completed ==> exists m :: Delivered(w, x.operation) == [m] && x.phase.result == MessageReference(m))
      && (x.phase.result == "" ==> Delivered(w, x.operation) == [])
  {
    hide Inv, Consistent, MessageReference, EventReference, Approvals, Tended;
    LiveFacts(w, a);
    InvAtWork(w, a);
    var x := w.attempts[a];
    if m :| m in w.sends && w.mailbox[m].operation == x.operation {
      forall n | n in w.sends && n in w.mailbox && w.mailbox[n].operation == x.operation ensures n == m {
        ReferenceFacts(m, n);
      }
      DeliveredAtMost(w.sends, w.mailbox, x.operation, m);
    } else {
      DeliveredAtMost(w.sends, w.mailbox, x.operation, []);
    }
  }

  lemma StartInv()
    ensures Inv(START)
  {
  }

  /** In every timely run, with crashes, lost replies, retries and recoveries anywhere, at most one
      message is delivered per operation, and a completed email operation has delivered exactly the
      message its stored reference names. */
  lemma {:induction false} AtMostOneSend(labels: seq<Label>, o: OperationId)
    requires TimelyRun(START, labels) && Run(START, labels).Some?
    ensures var w := Run(START, labels).value;
      && |Delivered(w, o)| <= 1
      && (o in w.db.operations && w.db.operations[o].status == OpCompleted && w.db.operations[o].kind == Email ==>
            exists m :: Delivered(w, o) == [m] && w.db.operations[o].reference == MessageReference(m))
  {
    hide Inv;
    StartInv();
    RunKeeps(START, labels);
    OneMessage(Run(START, labels).value, o);
  }
}
