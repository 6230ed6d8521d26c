/** What holds of messages and references in every run of the office protocol, timely or not: attempts,
    rows and listings name messages of their own operation, and completion is never claimed for a draft. */
module OfficeOwnership {
  import opened Common
  import opened OfficeStore
  import opened OfficeProtocol
  import opened OfficeSafety
  import opened OfficeAudit
  import GraphReference

  predicate IsFor(w: World, o: OperationId, m: Id) {
    m in w.mailbox && w.mailbox[m].operation == o
  }

  /** Sent messages exist, and exactly they are no longer drafts. */
  ghost predicate Letters(w: World) {
    && (forall m | m in w.sends :: m in w.mailbox)
    && (forall m | m in w.mailbox :: w.mailbox[m].isDraft <==> m !in w.sends)
  }

  predicate FaithfulMail(w: World, x: Attempt) {
    match x.phase
    case CreatingMail => x.latest == ""
    case SavingMail(m) => x.latest == "" && IsFor(w, x.operation, m)
    case LookingUp(m) => x.latest == MessageReference(m) && IsFor(w, x.operation, m)
    case Sending(m) => x.latest == MessageReference(m) && IsFor(w, x.operation, m)
    case Finishing(completed, result) =>
      && result == x.latest && (result == "" || Names(w, x.operation, result))
      && (completed ==> NamesSent(w, x.operation, result))
    case _ => false
  }

  /** An attempt works on messages of its own operation and reports as completed only one that was sent. */
  predicate Faithful(w: World, x: Attempt) {
    && x.operation in w.db.operations
    && if w.db.operations[x.operation].kind == Email then FaithfulMail(w, x)
       else x.phase.CreatingEvent? || x.phase.SavingEvent? || x.phase.Finishing?
  }

  predicate OwnReference(w: World, o: OperationId)
    requires o in w.db.operations
  {
    var row := w.db.operations[o];
    row.kind == Email ==>
      && (row.reference == "" || Names(w, o, row.reference))
      && (row.status == OpCompleted ==> NamesSent(w, o, row.reference))
  }

  predicate OwnListing(w: World, item: Listed) {
    && item.operation in w.db.operations && item.number <= w.db.operations[item.operation].attempt
    && (w.db.operations[item.operation].kind == Email ==>
         item.reference == "" || Names(w, item.operation, item.reference))
  }

  ghost predicate Owned(w: World) {
    && Letters(w)
    && (forall o | o in w.db.operations :: OwnReference(w, o))
    && (forall a | a in w.attempts :: Faithful(w, w.attempts[a]))
    && (forall r | r in w.listed :: OwnListing(w, w.listed[r]))
  }

  // ---------------------------------------------------------------- growing worlds

  /** Messages keep their operation, operations their kind, and nothing disappears. */
  ghost predicate Grows(w: World, next: World) {
    && (forall m | m in w.mailbox :: m in next.mailbox && next.mailbox[m].operation == w.mailbox[m].operation)
    && (forall m | m in w.sends :: m in next.sends)
    && (forall o | o in w.db.operations ::
          && o in next.db.operations && next.db.operations[o].kind == w.db.operations[o].kind
          && w.db.operations[o].attempt <= next.db.operations[o].attempt)
  }

  lemma NamesGrow(w: World, next: World, o: OperationId, reference: string)
    requires Grows(w, next)
    ensures Names(w, o, reference) ==> Names(next, o, reference)
    ensures NamesSent(w, o, reference) ==> NamesSent(next, o, reference)
  {
    hide MessageReference;
  }

  lemma FaithfulGrows(w: World, next: World, x: Attempt)
    requires Grows(w, next) && Faithful(w, x)
    ensures Faithful(next, x)
  {
    hide MessageReference, Names, NamesSent;
    NamesGrow(w, next, x.operation, x.latest);
  }

  lemma ListingGrows(w: World, next: World, item: Listed)
    requires Grows(w, next) && OwnListing(w, item)
    ensures OwnListing(next, item)
  {
    hide MessageReference, Names, NamesSent;
    NamesGrow(w, next, item.operation, item.reference);
  }

  lemma ReferenceGrows(w: World, next: World, o: OperationId)
    requires Grows(w, next) && o in w.db.operations && OwnReference(w, o)
    requires next.db.operations[o].reference == w.db.operations[o].reference
    requires next.db.operations[o].status == OpCompleted ==> w.db.operations[o].status == OpCompleted
    ensures OwnReference(next, o)
  {
    hide MessageReference, Names, NamesSent;
    NamesGrow(w, next, o, w.db.operations[o].reference);
  }

  /** Only what a step changes has to be looked at. */
  lemma Reassemble(w: World, next: World)
    requires Owned(w) && Grows(w, next) && Letters(next)
    requires forall o | o in next.db.operations ::
      || (o in w.db.operations && next.db.operations[o] == w.db.operations[o])
      || OwnReference(next, o)
    requires forall a | a in next.attempts ::
      (a in w.attempts && next.attempts[a] == w.attempts[a]) || Faithful(next, next.attempts[a])
    requires forall r | r in next.listed ::
      (r in w.listed && next.listed[r] == w.listed[r]) || OwnListing(next, next.listed[r])
    ensures Owned(next)
  {
    hide Letters, Grows, OwnReference, Faithful, OwnListing;
    forall o | o in next.db.operations && o in w.db.operations && next.db.operations[o] == w.db.operations[o]
      ensures OwnReference(next, o)
    {
      ReferenceGrows(w, next, o);
    }
    forall a | a in next.attempts && a in w.attempts && next.attempts[a] == w.attempts[a]
      ensures Faithful(next, next.attempts[a])
    {
      FaithfulGrows(w, next, w.attempts[a]);
    }
    forall r | r in next.listed && r in w.listed && next.listed[r] == w.listed[r]
      ensures OwnListing(next, next.listed[r])
    {
      ListingGrows(w, next, w.listed[r]);
    }
  }

  // ---------------------------------------------------------------- steps

  /** One attempt goes on; its row keeps its identity. */
  lemma AttemptOwned(w: World, next: World, a: nat)
    requires Owned(w) && Grows(w, next) && Letters(next) && a in w.attempts
    requires a in next.attempts && Faithful(next, next.attempts[a])
    requires next.attempts == w.attempts[a := next.attempts[a]] && next.listed == w.listed
    requires forall o | o in next.db.operations ::
      (o in w.db.operations && next.db.operations[o] == w.db.operations[o]) || OwnReference(next, o)
    ensures Owned(next)
  {
    hide Letters, Grows, OwnReference, Faithful, OwnListing;
    Reassemble(w, next);
  }

  lemma FailFaithful(w: World, x: Attempt)
    requires Faithful(w, x)
    ensures Faithful(w, x.(phase := Finishing(false, x.latest)))
  {
    hide MessageReference;
  }

  lemma MoveOwned(w: World, a: nat, phase: Phase)
    requires Owned(w) && a in w.attempts && Faithful(w, w.attempts[a].(phase := phase))
    ensures Owned(Move(w, a, phase))
  {
    hide OwnReference, Faithful, OwnListing, MessageReference;
    FaithfulGrows(w, Move(w, a, phase), w.attempts[a].(phase := phase));
    AttemptOwned(w, Move(w, a, phase), a);
  }

  lemma FailOwned(w: World, a: nat)
    requires Owned(w) && a in w.attempts
    ensures Owned(Fail(w, a))
  {
    FailFaithful(w, w.attempts[a]);
    MoveOwned(w, a, Finishing(false, w.attempts[a].latest));
  }

  lemma FirstPhaseFaithful(w: World, x: Attempt)
    requires x.operation in w.db.operations && x.phase == FirstPhase(w.db.operations[x.operation].kind, x.latest)
    requires w.db.operations[x.operation].kind == Email ==> x.latest == "" || Names(w, x.operation, x.latest)
    ensures Faithful(w, x)
  {
    hide MessageReference, EventReference, GraphReference.Decode;
    if w.db.operations[x.operation].kind == Email && x.latest != "" {
      var m :| m in w.mailbox && w.mailbox[m].operation == x.operation && x.latest == MessageReference(m);
      ReferenceFacts(m, m);
    }
  }

  lemma ClaimOwned(w: World, a: nat, o: OperationId, owner: string, until: int, call: Call)
    requires Owned(w) && Consistent(w.db) && StepClaim(w, a, o, owner, until, call).Some?
    ensures Owned(StepClaim(w, a, o, owner, until, call).value)
  {
    hide Consistent, ClaimOperation, FirstPhase, Names, NamesSent, Letters, Faithful;
    if ClaimOperation(w.db, o, owner, until).Ok? && call != NoEffect {
      ClaimFacts(w.db, o, owner, until);
      var next := StepClaim(w, a, o, owner, until, call).value;
      NamesGrow(w, next, o, w.db.operations[o].reference);
      assert Letters(next) by { SameLetters(w, next); }
      if call == Replied { FirstPhaseFaithful(next, next.attempts[a]); }
      Reassemble(w, next);
    }
  }

  lemma SameLetters(w: World, next: World)
    requires Letters(w) && next.mailbox == w.mailbox && next.sends == w.sends
    ensures Letters(next)
  {
  }

  lemma CreatedLeavesOwn(w: World, next: World, x: Attempt, id: Id)
    requires Letters(w) && Faithful(w, x) && x.phase.CreatingMail? && id !in w.mailbox
    requires next.mailbox == w.mailbox[id := Mail(x.operation, true)] && next.sends == w.sends && next.db == w.db
    ensures Grows(w, next) && Letters(next)
    ensures Faithful(next, x.(phase := SavingMail(id))) && Faithful(next, x.(phase := Finishing(false, x.latest)))
  {
    hide MessageReference;
  }

  lemma CreateMailOwned(w: World, a: nat, id: Id, call: Call)
    requires Owned(w) && StepCreateMail(w, a, id, call).Some?
    ensures Owned(StepCreateMail(w, a, id, call).value)
  {
    hide MessageReference, EventReference, OwnReference, OwnListing, NamesSent, Names, Faithful, Letters, Grows;
    var x := w.attempts[a];
    assert Faithful(w, x);
    if call == NoEffect {
      FailOwned(w, a);
    } else {
      var next := StepCreateMail(w, a, id, call).value;
      CreatedLeavesOwn(w, next, x, id);
      AttemptOwned(w, next, a);
    }
  }

  lemma SaveReferenceOwned(w: World, a: nat, call: Call)
    requires Owned(w) && Consistent(w.db) && StepSaveReference(w, a, call).Some?
    ensures Owned(StepSaveReference(w, a, call).value)
  {
    hide Consistent, CheckpointOperation, MessageReference, EventReference, OneRow, OwnListing, NamesSent, OwnReference;
    hide Names;
    var x := w.attempts[a];
    var reference := if x.phase.SavingMail? then MessageReference(x.phase.message) else EventReference(x.phase.event);
    assert Faithful(w, x);
    if CheckpointOperation(w.db, x.operation, x.owner, reference).Err? || call == NoEffect {
      FailOwned(w, a);
    } else {
      SaveReferenceLeaves(w, a, call, reference);
      CheckpointFacts(w.db, x.operation, x.owner, reference);
      hide StepSaveReference;
      SaveOwned(w, StepSaveReference(w, a, call).value, a, reference);
    }
  }

  lemma SaveOwned(w: World, next: World, a: nat, reference: string)
    requires Owned(w) && a in w.attempts && a in next.attempts
      && HoldsLease(w.db, w.attempts[a].operation, w.attempts[a].owner)
    requires var x := w.attempts[a];
      && (x.phase.SavingMail? || x.phase.SavingEvent?)
      && reference == (if x.phase.SavingMail? then MessageReference(x.phase.message) else EventReference(x.phase.event))
      && OneRow(w.db, next.db, x.operation, w.db.operations[x.operation].(reference := reference))
      && next == w.(db := next.db, attempts := w.attempts[a := next.attempts[a]])
      && next.attempts[a] in {
           x.(phase := Finishing(false, x.latest)),
           x.(latest := reference, phase := if x.phase.SavingMail? then Sending(x.phase.message)
             else Finishing(true, reference))}
    ensures Owned(next)
  {
    hide Consistent, MessageReference, EventReference, OwnListing, NamesSent, OwnReference, Names, Letters, Grows;
    hide Faithful;
    var x := w.attempts[a];
    assert Faithful(w, x);
    SaveLeavesOwn(w, next, x, reference);
    AttemptOwned(w, next, a);
  }

  /** The checkpoint's row names the attempt's message. */
  lemma SaveLeavesOwn(w: World, next: World, x: Attempt, reference: string)
    requires Owned(w) && Faithful(w, x) && (x.phase.SavingMail? || x.phase.SavingEvent?)
    requires reference == if x.phase.SavingMail? then MessageReference(x.phase.message)
      else EventReference(x.phase.event)
    requires OneRow(w.db, next.db, x.operation, w.db.operations[x.operation].(reference := reference))
    requires w.db.operations[x.operation].status == OpExecuting && next.mailbox == w.mailbox && next.sends == w.sends
    ensures Grows(w, next) && Letters(next) && OwnReference(next, x.operation)
    ensures Faithful(next, x.(phase := Finishing(false, x.latest)))
    ensures Faithful(next, x.(latest := reference,
      phase := if x.phase.SavingMail? then Sending(x.phase.message) else Finishing(true, reference)))
  {
    hide MessageReference, EventReference, Consistent;
  }

  /** A message that is no longer a draft was sent. */
  lemma LookUpLeavesOwn(w: World, x: Attempt, m: Id)
    requires Letters(w) && Faithful(w, x) && x.phase == LookingUp(m)
    ensures m in w.mailbox
    ensures Faithful(w, x.(phase := if w.mailbox[m].isDraft then Sending(m) else Finishing(true, x.latest)))
  {
    hide MessageReference;
  }

  lemma LookUpOwned(w: World, a: nat, call: Call)
    requires Owned(w) && StepLookUp(w, a, call).Some?
    ensures Owned(StepLookUp(w, a, call).value)
  {
    hide MessageReference, Faithful, Letters, OwnReference, OwnListing, Names;
    var x := w.attempts[a];
    assert Faithful(w, x);
    if call != Replied {
      FailOwned(w, a);
    } else {
      LookUpLeavesOwn(w, x, x.phase.message);
      MoveOwned(w, a, if w.mailbox[x.phase.message].isDraft then Sending(x.phase.message)
        else Finishing(true, x.latest));
    }
  }

  lemma SendOwned(w: World, a: nat, call: Call)
    requires Owned(w) && StepSend(w, a, call).Some?
    ensures Owned(StepSend(w, a, call).value)
  {
    hide MessageReference, EventReference, OwnReference, OwnListing, Names;
    var next := StepSend(w, a, call).value;
    assert Faithful(w, w.attempts[a]);
    if call == NoEffect {
      FailOwned(w, a);
    } else {
      SentLeavesOwn(w, next, w.attempts[a], call == Replied);
      AttemptOwned(w, next, a);
    }
  }

  lemma SentLeavesOwn(w: World, next: World, x: Attempt, completed: bool)
    requires Letters(w) && Faithful(w, x) && x.phase.Sending?
    requires var m := x.phase.message;
      m in w.mailbox && next.mailbox == w.mailbox[m := w.mailbox[m].(isDraft := false)] && next.sends == w.sends + [m]
    requires next.db == w.db
    ensures Grows(w, next) && Letters(next) && Faithful(next, x.(phase := Finishing(completed, x.latest)))
  {
    hide MessageReference;
  }

  lemma CreateEventOwned(w: World, a: nat, id: Id, call: Call)
    requires Owned(w) && StepCreateEvent(w, a, id, call).Some?
    ensures Owned(StepCreateEvent(w, a, id, call).value)
  {
    hide MessageReference, EventReference, Faithful, OwnReference, OwnListing, NamesSent, Names, Letters;
    if call == NoEffect {
      FailOwned(w, a);
    } else {
      var next := StepCreateEvent(w, a, id, call).value;
      assert Faithful(w, w.attempts[a]);
      EventFaithful(w, next, w.attempts[a], next.attempts[a].phase);
      SameLetters(w, next);
      AttemptOwned(w, next, a);
    }
  }

  lemma EventFaithful(w: World, next: World, x: Attempt, phase: Phase)
    requires Faithful(w, x) && x.phase.CreatingEvent? && next.db == w.db
    requires phase.SavingEvent? || phase.Finishing?
    ensures Faithful(next, x.(phase := phase))
  {
    hide MessageReference;
  }

  /** Attempts and listings may end. */
  lemma DropOwned(w: World, next: World)
    requires Owned(w) && next == w.(attempts := next.attempts, listed := next.listed)
    requires forall a | a in next.attempts :: a in w.attempts && next.attempts[a] == w.attempts[a]
    requires forall r | r in next.listed :: r in w.listed && next.listed[r] == w.listed[r]
    ensures Owned(next)
  {
    hide OwnReference, Faithful, OwnListing, Letters;
    SameLetters(w, next);
    Reassemble(w, next);
  }

  /** A result is recorded under the reference of an attempt or a listing. */
  lemma FinishedOwned(w: World, o: OperationId, owner: string, completed: bool, reference: string)
    requires Owned(w) && Consistent(w.db) && o in w.db.operations
    requires w.db.operations[o].kind == Email ==>
      (reference == "" || Names(w, o, reference)) && (completed ==> NamesSent(w, o, reference))
    ensures Owned(AfterRequest(w, FinishOperation(w.db, o, owner, completed, reference)))
  {
    hide Consistent, FinishOperation, Names, NamesSent, Faithful, OwnListing, Letters;
    FinishFacts(w.db, o, owner, completed, reference);
    if FinishOperation(w.db, o, owner, completed, reference).Ok? {
      var next := AfterRequest(w, FinishOperation(w.db, o, owner, completed, reference));
      SameLetters(w, next);
      NamesGrow(w, next, o, reference);
      Reassemble(w, next);
    }
  }

  lemma FinishOwned(w: World, a: nat, call: Call)
    requires Owned(w) && Consistent(w.db) && StepFinish(w, a, call).Some?
    ensures Owned(StepFinish(w, a, call).value)
  {
    hide Consistent, FinishOperation, Names, NamesSent, OwnListing, OwnReference, Letters;
    var x, ended := w.attempts[a], w.(attempts := w.attempts - {a});
    assert Faithful(w, x);
    DropOwned(w, ended);
    SameNames(w, ended, x.operation, x.latest);
    if call != NoEffect {
      FinishedOwned(ended, x.operation, x.owner, x.phase.completed, x.phase.result);
    }
  }

  lemma SameNames(w: World, next: World, o: OperationId, reference: string)
    requires next.mailbox == w.mailbox && next.sends == w.sends
    ensures Names(w, o, reference) <==> Names(next, o, reference)
    ensures NamesSent(w, o, reference) <==> NamesSent(next, o, reference)
  {
    hide MessageReference;
  }

  lemma ListOwned(w: World, r: nat, o: OperationId, now: int)
    requires Owned(w) && StepList(w, r, o, now).Some?
    ensures Owned(StepList(w, r, o, now).value)
  {
    hide Names, NamesSent, Faithful, Letters;
    var next := StepList(w, r, o, now).value;
    SameLetters(w, next);
    SameNames(w, next, o, w.db.operations[o].reference);
    Reassemble(w, next);
  }

  lemma RecoverOwned(w: World, r: nat, call: Call)
    requires Owned(w) && Consistent(w.db) && StepRecover(w, r, call).Some?
    ensures Owned(StepRecover(w, r, call).value)
  {
    hide Consistent, FinishOperation, Names, NamesSent, Faithful, OwnReference, Letters;
    var item, ended := w.listed[r], w.(listed := w.listed - {r});
    assert OwnListing(w, item);
    DropOwned(w, ended);
    SameNames(w, ended, item.operation, item.reference);
    if call != NoEffect {
      FinishedOwned(ended, item.operation, item.owner, false, item.reference);
    }
  }

  lemma RequestOwned(w: World, l: Label)
    requires Owned(w) && Consistent(w.db)
    requires l.SaveADraft? || l.Submit? || l.Confirm? || l.Delete? || l.Prepare?
    ensures Step(w, l).Some? && Owned(Step(w, l).value)
  {
    hide Step, Consistent, Names, NamesSent, Faithful, OwnListing, Letters;
    RequestDb(w, l);
    RequestUndisturbed(w.db, l);
    SameLetters(w, Step(w, l).value);
    Reassemble(w, Step(w, l).value);
  }

  lemma LicensedIsConsistent(w: World)
    requires Licensed(w)
    ensures Consistent(w.db)
  {
    hide Consistent;
  }

  lemma StepOwned(w: World, l: Label)
    requires Owned(w) && Licensed(w) && Step(w, l).Some?
    ensures Owned(Step(w, l).value)
  {
    hide Owned, Licensed, Consistent;
    hide StepClaim, StepCreateMail, StepSaveReference, StepLookUp, StepSend, StepCreateEvent, StepFinish, StepList;
    hide StepRecover;
    LicensedIsConsistent(w);
    match l
    case Claim(a, o, owner, until, call) => ClaimOwned(w, a, o, owner, until, call);
    case CreateMail(a, id, call) => CreateMailOwned(w, a, id, call);
    case SaveReference(a, call) => SaveReferenceOwned(w, a, call);
    case LookUp(a, call) => LookUpOwned(w, a, call);
    case Send(a, call) => SendOwned(w, a, call);
    case CreateEvent(a, id, call) => CreateEventOwned(w, a, id, call);
    case Finish(a, call) => FinishOwned(w, a, call);
    case Crash(a) => DropOwned(w, w.(attempts := w.attempts - {a}));
    case List(r, o, now) => ListOwned(w, r, o, now);
    case Recover(r, call) => RecoverOwned(w, r, call);
    case _ => RequestOwned(w, l);
  }

  lemma {:induction false} RunOwned(w: World, labels: seq<Label>)
    requires Owned(w) && Licensed(w) && Run(w, labels).Some?
    ensures Owned(Run(w, labels).value) && Licensed(Run(w, labels).value)
    decreases |labels|
  {
    hide Owned, Licensed, Step;
    if labels != [] {
      StepOwned(w, labels[0]);
      StepLicensed(w, labels[0]);
      RunOwned(Step(w, labels[0]).value, labels[1..]);
    }
  }

  lemma StartOwned()
    ensures Owned(START) && Licensed(START)
  {
  }

  // ---------------------------------------------------------------- results

  /** Whatever the timing, an attempt sends only messages of its own operation, and a completed email row
      names a message that was created for it and sent. */
  lemma OwnMessagesOnly(labels: seq<Label>)
    requires Run(START, labels).Some?
    ensures var w := Run(START, labels).value;
      && (forall a | a in w.attempts && w.attempts[a].phase.Sending? ::
            IsFor(w, w.attempts[a].operation, w.attempts[a].phase.message))
      && (forall o | o in w.db.operations && w.db.operations[o].kind == Email
           && w.db.operations[o].status == OpCompleted ::
            exists m :: IsFor(w, o, m) && m in w.sends && w.db.operations[o].reference == MessageReference(m))
  {
    hide Run, Letters, OwnListing, MessageReference, Licensed;
    StartOwned();
    RunOwned(START, labels);
    var w := Run(START, labels).value;
    forall a | a in w.attempts && w.attempts[a].phase.Sending?
      ensures IsFor(w, w.attempts[a].operation, w.attempts[a].phase.message)
    {
      assert Faithful(w, w.attempts[a]);
    }
    forall o | o in w.db.operations && w.db.operations[o].kind == Email && w.db.operations[o].status == OpCompleted
      ensures exists m :: IsFor(w, o, m) && m in w.sends && w.db.operations[o].reference == MessageReference(m)
    {
      assert OwnReference(w, o);
      var m :| m in w.mailbox && w.mailbox[m].operation == o && m in w.sends
        && w.db.operations[o].reference == MessageReference(m);
      assert IsFor(w, o, m);
    }
  }
}
