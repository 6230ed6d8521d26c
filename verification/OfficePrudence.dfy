/** Every step that is prudent about an email operation keeps it tame, so a prudent run sends once; timely
    runs are prudent about every operation. */
module OfficePrudence {
  import opened Common
  import opened OfficeStore
  import opened OfficeProtocol
  import opened OfficeSafety
  import opened OfficeAudit
  import opened OfficeOwnership
  import opened OfficeTiming

  lemma SameMail(w: World, next: World, o: OperationId)
    requires next.mailbox == w.mailbox && next.sends == w.sends
    ensures SameSent(w, next, o)
  {
  }

  lemma CreatedUnsent(w: World, next: World, o: OperationId, id: Id, p: OperationId)
    requires Letters(w) && id !in w.mailbox && next.mailbox == w.mailbox[id := Mail(p, true)] && next.sends == w.sends
    ensures SameSent(w, next, o)
  {
    DeliveredSame(w.sends, w.mailbox, next.mailbox, o);
  }

  lemma SentElsewhere(w: World, next: World, o: OperationId, m: Id)
    requires m in w.mailbox && w.mailbox[m].operation != o
    requires next.mailbox == w.mailbox[m := w.mailbox[m].(isDraft := false)] && next.sends == w.sends + [m]
    ensures SameSent(w, next, o)
  {
    hide Delivered;
    DeliveredSent(w, next, o, m);
  }

  /** A step that concerns operation p leaves o alone. */
  lemma AloneFrom(w: World, next: World, o: OperationId, p: OperationId)
    requires o in w.db.operations && w.db.operations[o].kind == Email && Owned(w) && Owned(next) && SameSent(w, next, o)
    requires o in next.db.operations && next.db.operations[o] == w.db.operations[o]
    requires forall a | a in next.attempts ::
      (a in w.attempts && next.attempts[a] == w.attempts[a]) || (p != o && next.attempts[a].operation == p)
    requires forall r | r in next.listed ::
      (r in w.listed && next.listed[r] == w.listed[r]) || (p != o && next.listed[r].operation == p)
    ensures Alone(w, next, o)
  {
    hide Owned, SameSent;
  }

  lemma OwnFaithful(w: World, a: nat)
    requires Owned(w) && a in w.attempts
    ensures Faithful(w, w.attempts[a])
  {
    hide Letters, OwnReference, Faithful, OwnListing;
  }

  lemma OwnLetters(w: World)
    requires Owned(w)
    ensures Letters(w)
  {
    hide Letters, OwnReference, Faithful, OwnListing;
  }

  /** An attempt, whose row and messages sent stay, goes on. */
  lemma MovedTame(w: World, next: World, a: nat, o: OperationId)
    requires o in w.db.operations && w.db.operations[o].kind == Email && Owned(w) && Owned(next) && SameSent(w, next, o)
    requires next.db == w.db && next.listed == w.listed && Tame(w, o)
    requires a in w.attempts && a in next.attempts && next.attempts == w.attempts[a := next.attempts[a]]
    requires next.attempts[a].operation == w.attempts[a].operation && next.attempts[a].latest == w.attempts[a].latest
    requires w.attempts[a].operation == o && Menace(next, o, a) ==> Menace(w, o, a)
    ensures Tame(next, o)
  {
    hide Owned, SameSent, Tame, Menace;
    if w.attempts[a].operation == o {
      ReplaceTame(w, next, a, o);
    } else {
      AloneFrom(w, next, o, w.attempts[a].operation);
      AloneTame(w, next, o);
    }
  }

  lemma FailTame(w: World, a: nat, o: OperationId)
    requires o in w.db.operations && w.db.operations[o].kind == Email && Owned(w) && Tame(w, o) && a in w.attempts
    ensures Tame(Fail(w, a), o)
  {
    hide Owned, SameSent, Tame, Closed;
    FailOwned(w, a);
    SameMail(w, Fail(w, a), o);
    if w.attempts[a].operation == o { ClosedAlike(w, Fail(w, a), o, w.attempts[a].latest); }
    MovedTame(w, Fail(w, a), a, o);
  }

  lemma ClaimTame(w: World, a: nat, p: OperationId, owner: string, until: int, call: Call, o: OperationId)
    requires Owned(w) && Consistent(w.db) && o in w.db.operations && w.db.operations[o].kind == Email && Tame(w, o)
    requires StepClaim(w, a, p, owner, until, call).Some?
    ensures o in StepClaim(w, a, p, owner, until, call).value.db.operations
    ensures Tame(StepClaim(w, a, p, owner, until, call).value, o)
  {
    hide Owned, SameSent, Tame, Consistent, ClaimOperation, FirstPhase;
    if ClaimOperation(w.db, p, owner, until).Ok? && call != NoEffect {
      var next := StepClaim(w, a, p, owner, until, call).value;
      ClaimFacts(w.db, p, owner, until);
      ClaimOwned(w, a, p, owner, until, call);
      SameMail(w, next, o);
      if p == o {
        ClaimedTame(w, next, a, o, owner, until);
      } else {
        AloneFrom(w, next, o, p);
        AloneTame(w, next, o);
      }
    }
  }

  lemma CreateMailTame(w: World, a: nat, id: Id, call: Call, o: OperationId)
    requires Owned(w) && o in w.db.operations && w.db.operations[o].kind == Email && Tame(w, o)
    requires StepCreateMail(w, a, id, call).Some?
    ensures Tame(StepCreateMail(w, a, id, call).value, o)
  {
    hide Owned, SameSent, Tame, Closed, Letters;
    if call == NoEffect {
      FailTame(w, a, o);
    } else {
      var next := StepCreateMail(w, a, id, call).value;
      OwnLetters(w);
      CreateMailOwned(w, a, id, call);
      CreatedUnsent(w, next, o, id, w.attempts[a].operation);
      assert !Harmless(w, w.attempts[a]);
      MovedTame(w, next, a, o);
    }
  }

  lemma LookUpTame(w: World, a: nat, call: Call, o: OperationId)
    requires Owned(w) && o in w.db.operations && w.db.operations[o].kind == Email && Tame(w, o)
    requires StepLookUp(w, a, call).Some?
    ensures Tame(StepLookUp(w, a, call).value, o)
  {
    hide Owned, SameSent, Tame, Closed;
    if call != Replied || w.attempts[a].phase.message !in w.mailbox {
      FailTame(w, a, o);
    } else {
      var next := StepLookUp(w, a, call).value;
      OwnLetters(w);
      LookUpOwned(w, a, call);
      SameMail(w, next, o);
      if w.attempts[a].operation == o { ClosedAlike(w, next, o, w.attempts[a].latest); }
      MovedTame(w, next, a, o);
    }
  }

  lemma SaveReferenceTame(w: World, a: nat, call: Call, o: OperationId)
    requires Owned(w) && Consistent(w.db) && o in w.db.operations && w.db.operations[o].kind == Email && Tame(w, o)
    requires StepSaveReference(w, a, call).Some?
    ensures o in StepSaveReference(w, a, call).value.db.operations
    ensures Tame(StepSaveReference(w, a, call).value, o)
  {
    hide Owned, SameSent, Tame, Closed, Consistent, CheckpointOperation, MessageReference, EventReference, FaithfulMail;
    var x, next := w.attempts[a], StepSaveReference(w, a, call).value;
    var reference := if x.phase.SavingMail? then MessageReference(x.phase.message) else EventReference(x.phase.event);
    if CheckpointOperation(w.db, x.operation, x.owner, reference).Err? || call == NoEffect {
      FailTame(w, a, o);
    } else {
      SaveReferenceLeaves(w, a, call, reference);
      CheckpointFacts(w.db, x.operation, x.owner, reference);
      SaveReferenceOwned(w, a, call);
      SameMail(w, next, o);
      if x.operation == o {
        assert Menace(w, o, a);
        SavingHasNone(w, a);
        SavedTame(w, next, a, o, reference);
      } else {
        AloneFrom(w, next, o, x.operation);
        AloneTame(w, next, o);
      }
    }
  }

  /** An attempt about to save a message's reference has seen none saved. */
  lemma SavingHasNone(w: World, a: nat)
    requires Owned(w) && a in w.attempts && (w.attempts[a].phase.SavingMail? || w.attempts[a].phase.SavingEvent?)
    requires w.attempts[a].operation in w.db.operations && w.db.operations[w.attempts[a].operation].kind == Email
    ensures w.attempts[a].latest == ""
  {
    hide Owned, Names, NamesSent;
    OwnFaithful(w, a);
  }

  lemma SendTame(w: World, a: nat, call: Call, o: OperationId)
    requires Owned(w) && o in w.db.operations && w.db.operations[o].kind == Email && Tame(w, o)
    requires StepSend(w, a, call).Some?
    ensures Tame(StepSend(w, a, call).value, o)
  {
    hide Owned, SameSent, Tame, Closed, Delivered, Grows, MessageReference;
    var x, next := w.attempts[a], StepSend(w, a, call).value;
    var m := x.phase.message;
    if call == NoEffect || m !in w.mailbox {
      FailTame(w, a, o);
    } else {
      SenderOwns(w, a);
      SendOwned(w, a, call);
      if x.operation == o {
        DeliveredSent(w, next, o, m);
        SendGrows(w, next, m);
        SentTame(w, next, a, o, m);
      } else {
        SentElsewhere(w, next, o, m);
        AloneFrom(w, next, o, x.operation);
        AloneTame(w, next, o);
      }
    }
  }

  lemma SendGrows(w: World, next: World, m: Id)
    requires m in w.mailbox && next.mailbox == w.mailbox[m := w.mailbox[m].(isDraft := false)]
      && next.sends == w.sends + [m]
    requires next.db == w.db
    ensures Grows(w, next)
  {
  }

  /** An attempt that sends works on an email operation, and on a message of its own. */
  lemma SenderOwns(w: World, a: nat)
    requires Owned(w) && a in w.attempts && w.attempts[a].phase.Sending?
    ensures IsFor(w, w.attempts[a].operation, w.attempts[a].phase.message)
    ensures w.attempts[a].latest == MessageReference(w.attempts[a].phase.message)
  {
    hide Owned, MessageReference;
    OwnFaithful(w, a);
  }

  lemma CreateEventTame(w: World, a: nat, id: Id, call: Call, o: OperationId)
    requires Owned(w) && o in w.db.operations && w.db.operations[o].kind == Email && Tame(w, o)
    requires StepCreateEvent(w, a, id, call).Some?
    ensures Tame(StepCreateEvent(w, a, id, call).value, o)
  {
    hide Owned, SameSent, Tame, Closed;
    if call == NoEffect {
      FailTame(w, a, o);
    } else {
      var next := StepCreateEvent(w, a, id, call).value;
      CreateEventOwned(w, a, id, call);
      SameMail(w, next, o);
      MovedTame(w, next, a, o);
    }
  }

  /** An attempt or a listing ends, and its result may be accepted. */
  lemma EndedTame(w: World, ended: World, p: OperationId, owner: string, completed: bool, reference: string,
      o: OperationId)
    requires Owned(w) && Consistent(w.db) && o in w.db.operations && w.db.operations[o].kind == Email && Tame(w, o)
    requires ended == w.(attempts := ended.attempts, listed := ended.listed)
    requires forall a | a in ended.attempts :: a in w.attempts && ended.attempts[a] == w.attempts[a]
    requires forall r | r in ended.listed :: r in w.listed && ended.listed[r] == w.listed[r]
    requires p == o && HoldsLease(w.db, o, owner) && (Menacing(ended, o) || Delivered(w, o) != []) ==>
      Closed(w, o, reference)
    requires Owned(AfterRequest(ended, FinishOperation(w.db, p, owner, completed, reference)))
    ensures var next := AfterRequest(ended, FinishOperation(w.db, p, owner, completed, reference));
      o in next.db.operations && Tame(next, o)
  {
    hide Owned, SameSent, Tame, Closed, Consistent, FinishOperation, Delivered, Menacing;
    var next := AfterRequest(ended, FinishOperation(w.db, p, owner, completed, reference));
    FinishFacts(w.db, p, owner, completed, reference);
    SameMail(w, next, o);
    if p == o && HoldsLease(w.db, o, owner) {
      MenacingAlike(ended, next, o);
      FinishedTame(w, next, o, completed, reference);
    } else {
      AloneFrom(w, next, o, o);
      AloneTame(w, next, o);
    }
  }

  lemma MenacingAlike(w: World, next: World, o: OperationId)
    requires next.mailbox == w.mailbox && next.sends == w.sends && next.attempts == w.attempts
    ensures Menacing(next, o) <==> Menacing(w, o)
  {
    hide MessageReference, Unreadable;
    assert forall x: Attempt :: NamesSent(next, x.operation, x.latest) <==> NamesSent(w, x.operation, x.latest);
    hide NamesSent;
    assert forall a :: Menace(next, o, a) <==> Menace(w, o, a);
  }

  lemma FinishTame(w: World, a: nat, call: Call, o: OperationId)
    requires Owned(w) && Consistent(w.db) && o in w.db.operations && w.db.operations[o].kind == Email && Tame(w, o)
    requires StepFinish(w, a, call).Some?
    ensures var next := StepFinish(w, a, call).value; o in next.db.operations && Tame(next, o)
  {
    hide Owned, SameSent, Tame, Closed, Consistent, FinishOperation, Delivered, Menacing;
    var x, ended := w.attempts[a], w.(attempts := w.attempts - {a});
    FinishOwned(w, a, call);
    if call == NoEffect {
      SameMail(w, ended, o);
      AloneFrom(w, ended, o, o);
      AloneTame(w, ended, o);
    } else {
      if x.operation == o { LastMenace(w, a, o); }
      EndedTame(w, ended, x.operation, x.owner, x.phase.completed, x.phase.result, o);
    }
  }

  /** An attempt that can do harm is the only one, and then nothing was sent. */
  lemma LastMenace(w: World, a: nat, o: OperationId)
    requires Owned(w) && o in w.db.operations && w.db.operations[o].kind == Email && Tame(w, o)
    requires a in w.attempts && w.attempts[a].operation == o && w.attempts[a].phase.Finishing?
    ensures var ended := w.(attempts := w.attempts - {a});
      Menacing(ended, o) || Delivered(w, o) != [] ==> Closed(w, o, w.attempts[a].phase.result)
  {
    hide Owned, Delivered, Unreadable, Names, NamesSent, AllCovered;
    var x, ended := w.attempts[a], w.(attempts := w.attempts - {a});
    OwnFaithful(w, a);
    if !Closed(w, o, x.latest) {
      assert Menace(w, o, a) && Menacing(w, o);
      forall b ensures !Menace(ended, o, b) {
        if b in ended.attempts && ended.attempts[b].operation == o {
          assert !Menace(w, o, b);
          HarmlessDrop(w, ended, w.attempts[b]);
        }
      }
    }
  }

  lemma HarmlessDrop(w: World, ended: World, x: Attempt)
    requires ended.mailbox == w.mailbox && ended.sends == w.sends && Harmless(w, x)
    ensures Harmless(ended, x)
  {
    hide MessageReference, Unreadable;
  }

  lemma ListTame(w: World, r: nat, p: OperationId, now: int, o: OperationId)
    requires Owned(w) && o in w.db.operations && w.db.operations[o].kind == Email && Tame(w, o)
    requires StepList(w, r, p, now).Some? && Prudent(w, List(r, p, now), o)
    ensures Tame(StepList(w, r, p, now).value, o)
  {
    hide Owned, SameSent, Tame, Closed, Menacing;
    var next := StepList(w, r, p, now).value;
    if p == o {
      ListedTame(w, next, r, o);
    } else {
      ListOwned(w, r, p, now);
      SameMail(w, next, o);
      AloneFrom(w, next, o, p);
      AloneTame(w, next, o);
    }
  }

  lemma RecoverTame(w: World, r: nat, call: Call, o: OperationId)
    requires Owned(w) && Consistent(w.db) && o in w.db.operations && w.db.operations[o].kind == Email && Tame(w, o)
    requires StepRecover(w, r, call).Some? && Prudent(w, Recover(r, call), o)
    ensures var next := StepRecover(w, r, call).value; o in next.db.operations && Tame(next, o)
  {
    hide Owned, SameSent, Tame, Closed, Consistent, FinishOperation, Delivered, Menacing;
    var item, ended := w.listed[r], w.(listed := w.listed - {r});
    RecoverOwned(w, r, call);
    if call == NoEffect {
      SameMail(w, ended, o);
      AloneFrom(w, ended, o, o);
      AloneTame(w, ended, o);
    } else {
      MenacingAlike(w, ended, o);
      EndedTame(w, ended, item.operation, item.owner, false, item.reference, o);
    }
  }

  lemma RequestTame(w: World, l: Label, o: OperationId)
    requires Owned(w) && Licensed(w) && Consistent(w.db) && Kept(w, o)
    requires l.SaveADraft? || l.Submit? || l.Confirm? || l.Delete? || l.Prepare?
    ensures Step(w, l).Some? && Kept(Step(w, l).value, o)
  {
    hide Owned, Licensed, SameSent, Tame, Consistent, Step;
    RequestDb(w, l);
    RequestUndisturbed(w.db, l);
    RequestOwned(w, l);
    var next := Step(w, l).value;
    if o in w.db.operations && w.db.operations[o].kind == Email {
      SameMail(w, next, o);
      AloneFrom(w, next, o, o);
      AloneTame(w, next, o);
    } else if o in next.db.operations && o !in w.db.operations {
      NewTame(w, next, o);
    }
  }

  lemma CrashTame(w: World, a: nat, o: OperationId)
    requires Owned(w) && o in w.db.operations && w.db.operations[o].kind == Email && Tame(w, o) && a in w.attempts
    ensures Tame(w.(attempts := w.attempts - {a}), o)
  {
    hide Owned, SameSent, Tame;
    var next := w.(attempts := w.attempts - {a});
    DropOwned(w, next);
    SameMail(w, next, o);
    AloneFrom(w, next, o, o);
    AloneTame(w, next, o);
  }

  /** The writing transactions change rows and add none. */
  lemma WritesKeepOperations(db: Db, o: OperationId, owner: string, until: int, completed: bool, reference: string)
    ensures var r := ClaimOperation(db, o, owner, until); r.Ok? ==> r.value.operations.Keys == db.operations.Keys
    ensures var r := CheckpointOperation(db, o, owner, reference);
      r.Ok? ==> r.value.operations.Keys == db.operations.Keys
    ensures var r := FinishOperation(db, o, owner, completed, reference);
      r.Ok? ==> r.value.operations.Keys == db.operations.Keys
  {
  }

  /** No step other than a request makes an operation. */
  lemma OnlyRequestsCreate(w: World, l: Label)
    requires Step(w, l).Some? && !(l.SaveADraft? || l.Submit? || l.Confirm? || l.Delete? || l.Prepare?)
    ensures Step(w, l).value.db.operations.Keys == w.db.operations.Keys
  {
    hide MessageReference, EventReference, FirstPhase, ClaimOperation, CheckpointOperation, FinishOperation;
    hide StepClaim, StepSaveReference, StepCreateMail, StepLookUp, StepSend, StepCreateEvent, StepFinish, StepRecover;
    match l
    case Claim(a, o, owner, until, call) => ClaimCreatesNone(w, a, o, owner, until, call);
    case SaveReference(a, call) => SaveCreatesNone(w, a, call);
    case Finish(a, call) => FinishCreatesNone(w, a, call);
    case Recover(r, call) => RecoverCreatesNone(w, r, call);
    case _ => RemoteCreatesNone(w, l);
  }

  lemma ClaimCreatesNone(w: World, a: nat, o: OperationId, owner: string, until: int, call: Call)
    requires StepClaim(w, a, o, owner, until, call).Some?
    ensures StepClaim(w, a, o, owner, until, call).value.db.operations.Keys == w.db.operations.Keys
  {
    hide ClaimOperation, FirstPhase;
    WritesKeepOperations(w.db, o, owner, until, false, "");
  }

  lemma SaveCreatesNone(w: World, a: nat, call: Call)
    requires StepSaveReference(w, a, call).Some?
    ensures StepSaveReference(w, a, call).value.db.operations.Keys == w.db.operations.Keys
  {
    hide CheckpointOperation, MessageReference, EventReference;
    var x := w.attempts[a];
    var reference := if x.phase.SavingMail? then MessageReference(x.phase.message) else EventReference(x.phase.event);
    WritesKeepOperations(w.db, x.operation, x.owner, 0, false, reference);
  }

  lemma FinishCreatesNone(w: World, a: nat, call: Call)
    requires StepFinish(w, a, call).Some?
    ensures StepFinish(w, a, call).value.db.operations.Keys == w.db.operations.Keys
  {
    hide FinishOperation;
    var x := w.attempts[a];
    WritesKeepOperations(w.db, x.operation, x.owner, 0, x.phase.completed, x.phase.result);
  }

  lemma RecoverCreatesNone(w: World, r: nat, call: Call)
    requires StepRecover(w, r, call).Some?
    ensures StepRecover(w, r, call).value.db.operations.Keys == w.db.operations.Keys
  {
    hide FinishOperation;
    WritesKeepOperations(w.db, w.listed[r].operation, w.listed[r].owner, 0, false, w.listed[r].reference);
  }

  lemma RemoteCreatesNone(w: World, l: Label)
    requires Step(w, l).Some?
    requires l.CreateMail? || l.LookUp? || l.Send? || l.CreateEvent? || l.Crash? || l.List?
    ensures Step(w, l).value.db == w.db
  {
    hide StepClaim, StepSaveReference, StepFinish, StepRecover;
  }

  // ---------------------------------------------------------------- runs

  lemma StepTame(w: World, l: Label, o: OperationId)
    requires Owned(w) && Licensed(w) && o in w.db.operations && w.db.operations[o].kind == Email && Tame(w, o)
    requires Step(w, l).Some? && Prudent(w, l, o)
    requires !(l.SaveADraft? || l.Submit? || l.Confirm? || l.Delete? || l.Prepare?)
    ensures o in Step(w, l).value.db.operations && Tame(Step(w, l).value, o)
  {
    hide Owned, Licensed, Tame, Prudent, Consistent;
    hide StepClaim, StepSaveReference, StepCreateMail, StepLookUp, StepSend, StepCreateEvent, StepFinish, StepList;
    hide StepRecover;
    OnlyRequestsCreate(w, l);
    LicensedIsConsistent(w);
    match l
    case Claim(a, p, owner, until, call) => ClaimTame(w, a, p, owner, until, call, o);
    case CreateMail(a, id, call) => CreateMailTame(w, a, id, call, o);
    case SaveReference(a, call) => SaveReferenceTame(w, a, call, o);
    case LookUp(a, call) => LookUpTame(w, a, call, o);
    case Send(a, call) => SendTame(w, a, call, o);
    case CreateEvent(a, id, call) => CreateEventTame(w, a, id, call, o);
    case Finish(a, call) => FinishTame(w, a, call, o);
    case Crash(a) => CrashTame(w, a, o);
    case List(r, p, now) => ListTame(w, r, p, now, o);
    case Recover(r, call) => RecoverTame(w, r, call, o);
  }

  /** Every step that is prudent about an operation keeps it tame. */
  lemma PrudentStepKeeps(w: World, l: Label, o: OperationId)
    requires Owned(w) && Licensed(w) && Kept(w, o) && Step(w, l).Some? && Prudent(w, l, o)
    ensures Owned(Step(w, l).value) && Licensed(Step(w, l).value) && Kept(Step(w, l).value, o)
  {
    hide Owned, Licensed, Tame, Prudent, Consistent, Step;
    StepOwned(w, l);
    StepLicensed(w, l);
    LicensedIsConsistent(w);
    if l.SaveADraft? || l.Submit? || l.Confirm? || l.Delete? || l.Prepare? {
      RequestTame(w, l, o);
    } else {
      OnlyRequestsCreate(w, l);
      if o in w.db.operations && w.db.operations[o].kind == Email { StepTame(w, l, o); }
    }
  }

  lemma {:induction false} PrudentRunKeeps(w: World, labels: seq<Label>, o: OperationId)
    requires Owned(w) && Licensed(w) && Kept(w, o) && PrudentRun(w, labels, o) && Run(w, labels).Some?
    ensures var next := Run(w, labels).value; Owned(next) && Licensed(next) && Kept(next, o)
    decreases |labels|
  {
    hide Owned, Licensed, Kept, Prudent, Step;
    if labels != [] {
      PrudentStepKeeps(w, labels[0], o);
      PrudentRunKeeps(Step(w, labels[0]).value, labels[1..], o);
    }
  }

  lemma StartKept(o: OperationId)
    ensures Owned(START) && Licensed(START) && Kept(START, o)
  {
  }

  /** What a tame operation has delivered. */
  lemma TameIsSafe(w: World, o: OperationId)
    requires Owned(w) && Kept(w, o) && o in w.db.operations && w.db.operations[o].kind == Email
    ensures |Delivered(w, o)| <= 1
    ensures w.db.operations[o].status == OpCompleted ==>
      exists m :: Delivered(w, o) == [m] && w.db.operations[o].reference == MessageReference(m)
  {
    hide Delivered, MessageReference, Letters, Faithful, OwnListing, OneMenace, AllCovered, NamesSent;
    if w.db.operations[o].status == OpCompleted {
      assert OwnReference(w, o);
      var m := NamedWasSent(w, o, w.db.operations[o].reference);
      SentIsDelivered(w, o, m);
      assert Delivered(w, o) == [m];
    }
  }

  /** A timing rule about what is written back suffices: in every run that is prudent about an email operation,
      whatever else overlaps, at most one message is delivered for it, and once it is completed exactly the
      message its stored reference names. */
  lemma PrudentRunsSendOnce(labels: seq<Label>, o: OperationId)
    requires PrudentRun(START, labels, o) && Run(START, labels).Some?
    ensures var w := Run(START, labels).value; o in w.db.operations && w.db.operations[o].kind == Email ==>
      && |Delivered(w, o)| <= 1
      && (w.db.operations[o].status == OpCompleted ==>
            exists m :: Delivered(w, o) == [m] && w.db.operations[o].reference == MessageReference(m))
  {
    hide Owned, Licensed, Kept, PrudentRun, Run, Delivered, MessageReference;
    StartKept(o);
    PrudentRunKeeps(START, labels, o);
    var w := Run(START, labels).value;
    if o in w.db.operations && w.db.operations[o].kind == Email { TameIsSafe(w, o); }
  }

  // ---------------------------------------------------------------- timely runs

  lemma TimelyIsPrudent(w: World, l: Label, o: OperationId)
    requires Kept(w, o) && Timely(w, l)
    ensures Prudent(w, l, o)
  {
    hide Harmless, Closed, Delivered, Guarded, OneMenace;
    if l.Recover? && l.recoverer in w.listed && w.listed[l.recoverer].operation == o && o in w.db.operations
      && w.db.operations[o].kind == Email {
      assert Covered(w, o, w.listed[l.recoverer]);
    }
  }

  /** A timely run is prudent about every operation. */
  lemma {:induction false} TimelyRunIsPrudent(w: World, labels: seq<Label>, o: OperationId)
    requires Owned(w) && Licensed(w) && Kept(w, o) && TimelyRun(w, labels)
    ensures PrudentRun(w, labels, o)
    decreases |labels|
  {
    hide Owned, Licensed, Kept, Timely, Prudent, Step;
    if labels != [] {
      TimelyIsPrudent(w, labels[0], o);
      if Step(w, labels[0]).Some? {
        PrudentStepKeeps(w, labels[0], o);
        TimelyRunIsPrudent(Step(w, labels[0]).value, labels[1..], o);
      }
    }
  }
}
