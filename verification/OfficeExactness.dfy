/** When listing an expired operation, or failing a listed one, leaves the single send intact: exactly when it
    is prudent.  For every other case the runs that send twice are built step by step. */
module OfficeExactness {
  import opened Common
  import opened OfficeStore
  import opened OfficeProtocol
  import opened OfficeSafety
  import opened OfficeAudit
  import opened OfficeOwnership
  import opened OfficeTiming
  import opened OfficePrudence
  import opened OfficeRuns
  import GraphReference

  /** Whatever happens next, as long as the timing rules are kept, at most one message is delivered. */
  ghost predicate Safe(w: World, o: OperationId) {
    forall labels | TimelyRun(w, labels) && Run(w, labels).Some? :: |Delivered(Run(w, labels).value, o)| <= 1
  }

  // ---------------------------------------------------------------- getting ahead

  ghost predicate Reaches(w: World, next: World) {
    exists labels :: TimelyRun(w, labels) && Run(w, labels) == Some(next)
  }

  lemma ReachesSelf(w: World)
    ensures Reaches(w, w)
  {
    RunNothing(w);
    assert TimelyRun(w, []);
  }

  lemma ReachesStep(w: World, l: Label, next: World)
    requires Timely(w, l) && Step(w, l).Some? && Reaches(Step(w, l).value, next)
    ensures Reaches(w, next)
  {
    hide Step, Timely;
    var v := Step(w, l).value;
    var labels :| TimelyRun(v, labels) && Run(v, labels) == Some(next);
    RunCons(w, l, labels);
    EveryCons(Timely, w, l, labels);
    assert TimelyRun(w, [l] + labels);
  }

  lemma ReachesOn(w: World, v: World, next: World)
    requires Reaches(w, v) && Reaches(v, next)
    ensures Reaches(w, next)
  {
    hide Step, Timely;
    var before :| TimelyRun(w, before) && Run(w, before) == Some(v);
    var after :| TimelyRun(v, after) && Run(v, after) == Some(next);
    RunAppend(w, before, after);
    EveryAppend(Timely, w, before, after);
    assert TimelyRun(w, before + after);
  }

  lemma UnsafeAhead(w: World, next: World, o: OperationId)
    requires Reaches(w, next) && !Safe(next, o)
    ensures !Safe(w, o)
  {
    hide Delivered, Run, TimelyRun, Reaches;
    var labels :| TimelyRun(next, labels) && Run(next, labels).Some? && |Delivered(Run(next, labels).value, o)| > 1;
    var last := Run(next, labels).value;
    assert Reaches(next, last) by { ReachesBy(next, labels, last); }
    ReachesOn(w, next, last);
    TwiceIsUnsafe(w, last, o);
  }

  lemma ReachesBy(w: World, labels: seq<Label>, next: World)
    requires TimelyRun(w, labels) && Run(w, labels) == Some(next)
    ensures Reaches(w, next)
  {
    hide Run, TimelyRun;
  }

  lemma TwiceIsUnsafe(w: World, next: World, o: OperationId)
    requires Reaches(w, next) && |Delivered(next, o)| > 1
    ensures !Safe(w, o)
  {
    hide Delivered, Run, TimelyRun;
    var labels :| TimelyRun(w, labels) && Run(w, labels) == Some(next);
  }

  lemma UnsafeStep(w: World, l: Label, o: OperationId)
    requires Timely(w, l) && Step(w, l).Some? && !Safe(Step(w, l).value, o)
    ensures !Safe(w, o)
  {
    hide Step, Timely, Safe, Reaches;
    ReachesSelf(Step(w, l).value);
    ReachesStep(w, l, Step(w, l).value);
    UnsafeAhead(w, Step(w, l).value, o);
  }

  /** From a tame operation on, timely runs are safe. */
  lemma TameIsSafeAhead(w: World, o: OperationId)
    requires Owned(w) && Licensed(w) && Kept(w, o) && o in w.db.operations && w.db.operations[o].kind == Email
    ensures Safe(w, o)
  {
    hide Owned, Licensed, Kept, Run, TimelyRun, PrudentRun, Delivered;
    forall labels | TimelyRun(w, labels) && Run(w, labels).Some? ensures |Delivered(Run(w, labels).value, o)| <= 1 {
      TimelyRunIsPrudent(w, labels, o);
      PrudentRunKeeps(w, labels, o);
      RunLicensed(w, labels);
      StaysEmail(w, Run(w, labels).value, o);
      TameIsSafe(Run(w, labels).value, o);
    }
  }

  /** Whatever happens next, as long as it is prudent about the operation. */
  ghost predicate PrudentlySafe(w: World, o: OperationId) {
    forall labels | PrudentRun(w, labels, o) && Run(w, labels).Some? :: |Delivered(Run(w, labels).value, o)| <= 1
  }

  lemma TameIsPrudentlySafe(w: World, o: OperationId)
    requires Owned(w) && Licensed(w) && Kept(w, o) && o in w.db.operations && w.db.operations[o].kind == Email
    ensures PrudentlySafe(w, o)
  {
    hide Owned, Licensed, Kept, Run, PrudentRun, Delivered;
    forall labels | PrudentRun(w, labels, o) && Run(w, labels).Some? ensures |Delivered(Run(w, labels).value, o)| <= 1 {
      PrudentRunKeeps(w, labels, o);
      RunLicensed(w, labels);
      StaysEmail(w, Run(w, labels).value, o);
      TameIsSafe(Run(w, labels).value, o);
    }
  }

  lemma StaysEmail(w: World, next: World, o: OperationId)
    requires Extends(w, next) && o in w.db.operations
    ensures o in next.db.operations && next.db.operations[o].kind == w.db.operations[o].kind
  {
  }

  // ---------------------------------------------------------------- attempts on their way to a send

  /** The next step of the attempt sends a message of the operation. */
  predicate Armed(w: World, o: OperationId, a: nat) {
    a in w.attempts && w.attempts[a].operation == o && w.attempts[a].phase.Sending?
      && IsFor(w, o, w.attempts[a].phase.message)
  }

  /** A reference under which a new attempt will send. */
  ghost predicate Usable(w: World, o: OperationId, reference: string) {
    reference == ""
    || exists m :: IsFor(w, o, m) && w.mailbox[m].isDraft && reference == MessageReference(m)
                   && GraphReference.Decode(reference, "message") == Some(m)
  }

  /** An attempt that can send, if it is let, or write back a reference under which another will. */
  ghost predicate Loaded(w: World, x: Attempt) {
    match x.phase
    case CreatingMail => true
    case SavingMail(m) => IsFor(w, x.operation, m)
    case LookingUp(m) => IsFor(w, x.operation, m) && w.mailbox[m].isDraft
    case Sending(m) => IsFor(w, x.operation, m)
    case Finishing(completed, result) => !completed && Usable(w, x.operation, result)
    case _ => false
  }

  /** Nothing is sent, messages and the attempts other than a stay. */
  ghost predicate Onward(w: World, next: World, a: nat) {
    && Reaches(w, next) && Licensed(next) && next.sends == w.sends
    && (forall m | m in w.mailbox :: m in next.mailbox && next.mailbox[m] == w.mailbox[m])
    && (forall b | b in w.attempts && b != a :: b in next.attempts && next.attempts[b] == w.attempts[b])
  }

  lemma OnwardSelf(w: World, a: nat)
    requires Licensed(w)
    ensures Onward(w, w, a)
  {
    hide Licensed, Reaches;
    ReachesSelf(w);
  }

  lemma OnwardStep(w: World, l: Label, next: World, a: nat)
    requires Licensed(w) && Step(w, l).Some? && !l.List? && !l.Recover? && Onward(Step(w, l).value, next, a)
    requires var v := Step(w, l).value;
      && v.sends == w.sends
      && (forall m | m in w.mailbox :: m in v.mailbox && v.mailbox[m] == w.mailbox[m])
      && (forall b | b in w.attempts && b != a :: b in v.attempts && v.attempts[b] == w.attempts[b])
    ensures Onward(w, next, a)
  {
    hide Step, Licensed, Reaches;
    ReachesStep(w, l, next);
  }

  lemma StaysArmed(w: World, next: World, o: OperationId, a: nat, b: nat)
    requires Onward(w, next, a) && Armed(w, o, b) && a != b
    ensures Armed(next, o, b)
  {
    hide Reaches, Licensed;
  }

  lemma StaysUsable(w: World, next: World, o: OperationId, a: nat, reference: string)
    requires Onward(w, next, a) && Usable(w, o, reference)
    ensures Usable(next, o, reference)
  {
    hide Reaches, Licensed, MessageReference, GraphReference.Decode;
  }

  // ---------------------------------------------------------------- sending twice

  lemma SendArmed(w: World, o: OperationId, a: nat)
    requires Armed(w, o, a)
    ensures var next := Step(w, Send(a, Replied));
      && next.Some? && Timely(w, Send(a, Replied))
      && |Delivered(next.value, o)| == |Delivered(w, o)| + 1
      && (forall b | b != a && Armed(w, o, b) :: Armed(next.value, o, b))
  {
    hide Delivered, MessageReference;
    DeliveredSent(w, Step(w, Send(a, Replied)).value, o, w.attempts[a].phase.message);
  }

  /** One more send after the first. */
  lemma SendsAgain(w: World, o: OperationId, a: nat)
    requires Armed(w, o, a) && Delivered(w, o) != []
    ensures !Safe(w, o)
  {
    hide Step, Timely, Delivered, Safe, Reaches;
    SendArmed(w, o, a);
    var next := Step(w, Send(a, Replied)).value;
    ReachesSelf(next);
    TwiceIsUnsafe(next, next, o);
    UnsafeStep(w, Send(a, Replied), o);
  }

  lemma TwoArmed(w: World, o: OperationId, a: nat, b: nat)
    requires Armed(w, o, a) && Armed(w, o, b) && a != b
    ensures !Safe(w, o)
  {
    hide Step, Timely, Delivered, Safe, Armed;
    SendArmed(w, o, a);
    SendsAgain(Step(w, Send(a, Replied)).value, o, b);
    UnsafeStep(w, Send(a, Replied), o);
  }

  // ---------------------------------------------------------------- arming an attempt

  lemma {:induction false} AboveAll(s: set<nat>) returns (n: nat)
    ensures forall k | k in s :: k < n
    decreases s
  {
    if s == {} {
      n := 0;
    } else {
      var k :| k in s;
      n := AboveAll(s - {k});
      assert s == (s - {k}) + {k};
      n := if k < n then n else k + 1;
    }
  }

  lemma NewAttempt(w: World) returns (b: nat)
    ensures b !in w.attempts
  {
    b := AboveAll(w.attempts.Keys);
    assert b !in w.attempts.Keys;
  }

  lemma NewMessage(w: World) returns (id: Id)
    ensures id !in w.mailbox && id != []
  {
    var lengths: set<nat> := set m | m in w.mailbox :: |m|;
    var n := AboveAll(lengths);
    id := seq(n + 1, _ => 0);
    forall m | m in w.mailbox ensures |m| < |id| {
      assert |m| in lengths;
    }
  }

  predicate Leased(w: World, o: OperationId, owner: string) {
    HoldsLease(w.db, o, owner) && w.db.operations[o].kind == Email
  }

  /** One step of an attempt brings it further and leaves its row leased. */
  ghost predicate Advances(w: World, next: World, o: OperationId, a: nat) {
    && Onward(w, next, a) && a in w.attempts && Leased(next, o, w.attempts[a].owner)
    && a in next.attempts && next.attempts[a].operation == w.attempts[a].operation
         && next.attempts[a].owner == w.attempts[a].owner
  }

  lemma AdvancesOn(w: World, v: World, next: World, o: OperationId, a: nat)
    requires Advances(w, v, o, a) && Advances(v, next, o, a)
    ensures Advances(w, next, o, a)
  {
    hide Reaches, Licensed;
    ReachesOn(w, v, next);
  }

  lemma SavingAdvances(w: World, o: OperationId, a: nat) returns (next: World)
    requires Licensed(w) && a in w.attempts && w.attempts[a].operation == o && Leased(w, o, w.attempts[a].owner)
    requires w.attempts[a].phase.SavingMail? && IsFor(w, o, w.attempts[a].phase.message)
    ensures Advances(w, next, o, a) && Armed(next, o, a)
  {
    hide Licensed, Consistent, Reaches, CheckpointOperation, MessageReference, EventReference, Run;
    var x, l := w.attempts[a], SaveReference(a, Replied);
    LeasedCheckpoint(w, o, x.owner, MessageReference(x.phase.message));
    LicensedIsConsistent(w);
    CheckpointFacts(w.db, o, x.owner, MessageReference(x.phase.message));
    next := Step(w, l).value;
    StepLicensed(w, l);
    OnwardSelf(next, a);
    OnwardStep(w, l, next, a);
  }

  lemma LeasedCheckpoint(w: World, o: OperationId, owner: string, reference: string)
    requires HoldsLease(w.db, o, owner)
    ensures CheckpointOperation(w.db, o, owner, reference).Ok?
  {
  }

  lemma CreatingAdvances(w: World, o: OperationId, a: nat) returns (next: World)
    requires Licensed(w) && a in w.attempts && w.attempts[a].operation == o && Leased(w, o, w.attempts[a].owner)
    requires w.attempts[a].phase.CreatingMail?
    ensures Advances(w, next, o, a) && Armed(next, o, a)
  {
    hide Licensed, Reaches, Run;
    var id := NewMessage(w);
    var l := CreateMail(a, id, Replied);
    var v := Step(w, l).value;
    StepLicensed(w, l);
    OnwardSelf(v, a);
    OnwardStep(w, l, v, a);
    next := SavingAdvances(v, o, a);
    AdvancesOn(w, v, next, o, a);
  }

  lemma LookingAdvances(w: World, o: OperationId, a: nat) returns (next: World)
    requires Licensed(w) && a in w.attempts && w.attempts[a].operation == o && Leased(w, o, w.attempts[a].owner)
    requires w.attempts[a].phase.LookingUp? && IsFor(w, o, w.attempts[a].phase.message)
      && w.mailbox[w.attempts[a].phase.message].isDraft
    ensures Advances(w, next, o, a) && Armed(next, o, a)
  {
    hide Licensed, Reaches, Run;
    var l := LookUp(a, Replied);
    next := Step(w, l).value;
    StepLicensed(w, l);
    OnwardSelf(next, a);
    OnwardStep(w, l, next, a);
  }

  /** An attempt with a message to send gets to the point of sending it, as long as its owner holds the lease. */
  lemma Arms(w: World, o: OperationId, a: nat) returns (next: World)
    requires Licensed(w) && a in w.attempts && w.attempts[a].operation == o && Leased(w, o, w.attempts[a].owner)
    requires Loaded(w, w.attempts[a]) && !w.attempts[a].phase.Finishing?
    ensures Advances(w, next, o, a) && Armed(next, o, a)
  {
    hide Licensed, Reaches, Leased;
    match w.attempts[a].phase
    case CreatingMail => next := CreatingAdvances(w, o, a);
    case SavingMail(_) => next := SavingAdvances(w, o, a);
    case LookingUp(_) => next := LookingAdvances(w, o, a);
    case Sending(_) =>
      OnwardSelf(w, a);
      next := w;
  }

  predicate Claimable(w: World, o: OperationId) {
    o in w.db.operations && w.db.operations[o].status in {OpPending, OpFailed} && w.db.operations[o].kind == Email
  }

  lemma ClaimSucceeds(db: Db, o: OperationId, owner: string)
    requires Consistent(db) && o in db.operations && db.operations[o].status in {OpPending, OpFailed}
    ensures ClaimOperation(db, o, owner, 0).Ok?
  {
    hide AuditedDrafts, AuditedOperations, HasOperation;
  }

  /** What a claim under a usable reference starts with. */
  lemma FirstPhaseIsLoaded(w: World, x: Attempt)
    requires x.phase == FirstPhase(Email, x.latest) && Usable(w, x.operation, x.latest)
    ensures Loaded(w, x) && !x.phase.Finishing?
  {
    hide MessageReference, GraphReference.Decode;
  }

  /** A row waiting for a claim under a usable reference gets a new attempt about to send. */
  lemma ReadyToSend(w: World, o: OperationId, owner: string) returns (b: nat, next: World)
    requires Licensed(w) && Claimable(w, o) && Usable(w, o, w.db.operations[o].reference)
    ensures b !in w.attempts && Onward(w, next, b) && Armed(next, o, b) && Leased(next, o, owner)
  {
    hide Licensed, Consistent, Reaches, ClaimOperation, FirstPhase, Usable, Loaded, Run;
    b := NewAttempt(w);
    var l := Claim(b, o, owner, 0, Replied);
    LicensedIsConsistent(w);
    ClaimSucceeds(w.db, o, owner);
    ClaimFacts(w.db, o, owner, 0);
    StepLicensed(w, l);
    var v := Step(w, l).value;
    OnwardSelf(v, b);
    OnwardStep(w, l, v, b);
    StaysUsable(w, v, o, b, w.db.operations[o].reference);
    FirstPhaseIsLoaded(v, v.attempts[b]);
    next := Arms(v, o, b);
    ReachesOn(w, v, next);
  }

  // ---------------------------------------------------------------- harm done

  lemma StaysLoaded(w: World, next: World, x: Attempt, a: nat)
    requires Onward(w, next, a) && Loaded(w, x)
    ensures Loaded(next, x)
  {
    hide Reaches, Licensed, Usable;
    if x.phase.Finishing? { StaysUsable(w, next, x.operation, a, x.phase.result); }
  }

  /** A loaded attempt records its failure, and its row is claimable again under its reference. */
  lemma GivesBack(w: World, o: OperationId, a: nat) returns (next: World)
    requires Licensed(w) && a in w.attempts && w.attempts[a].operation == o && Leased(w, o, w.attempts[a].owner)
    requires Loaded(w, w.attempts[a]) && w.attempts[a].phase.Finishing?
    ensures Onward(w, next, a) && Claimable(next, o) && Usable(next, o, next.db.operations[o].reference)
  {
    hide Licensed, Consistent, Reaches, FinishOperation, Usable, Run;
    var x, l := w.attempts[a], Finish(a, Replied);
    LicensedIsConsistent(w);
    FinishFacts(w.db, o, x.owner, false, x.phase.result);
    StepLicensed(w, l);
    next := Step(w, l).value;
    OnwardSelf(next, a);
    OnwardStep(w, l, next, a);
    StaysUsable(w, next, o, a, x.phase.result);
  }

  /** A loaded attempt, and a row that another can claim under a usable reference, lead to two messages. */
  lemma LoadedSendsTwice(w: World, o: OperationId, a: nat)
    requires Licensed(w) && Claimable(w, o) && Usable(w, o, w.db.operations[o].reference)
    requires a in w.attempts && w.attempts[a].operation == o && Loaded(w, w.attempts[a])
    ensures !Safe(w, o)
  {
    hide Licensed, Reaches, Usable, Loaded, Safe, Armed, Leased;
    var b, v := ReadyToSend(w, o, w.attempts[a].owner);
    StaysLoaded(w, v, w.attempts[a], b);
    if w.attempts[a].phase.Finishing? {
      var u := GivesBack(v, o, a);
      StaysArmed(v, u, o, a, b);
      var c, next := ReadyToSend(u, o, w.attempts[a].owner);
      assert b in u.attempts by { ArmedIsLive(u, o, b); }
      StaysArmed(u, next, o, c, b);
      TwoArmed(next, o, b, c);
      UnsafeAhead(u, next, o);
      UnsafeAhead(v, u, o);
    } else {
      var next := Arms(v, o, a);
      StaysArmed(v, next, o, a, b);
      TwoArmed(next, o, a, b);
      UnsafeAhead(v, next, o);
    }
    UnsafeAhead(w, v, o);
  }

  lemma ArmedIsLive(w: World, o: OperationId, a: nat)
    requires Armed(w, o, a)
    ensures a in w.attempts
  {
  }

  /** So do a message sent and a row that another can claim under a usable reference. */
  lemma ClaimableSendsAgain(w: World, o: OperationId)
    requires Licensed(w) && Claimable(w, o) && Usable(w, o, w.db.operations[o].reference) && Delivered(w, o) != []
    ensures !Safe(w, o)
  {
    hide Licensed, Reaches, Usable, Safe, Armed, Leased, Delivered;
    var b, next := ReadyToSend(w, o, "");
    SentIsDelivered(w, o, Delivered(w, o)[0]);
    SentIsDelivered(next, o, Delivered(w, o)[0]);
    SendsAgain(next, o, b);
    UnsafeAhead(w, next, o);
  }

  // ---------------------------------------------------------------- results

  /** A live attempt that can no longer send, nor write back a reference under which another would; or its row
      holds a reference that the executor refuses. */
  predicate Spent(w: World, x: Attempt) {
    || (x.operation in w.db.operations && Unreadable(w.db.operations[x.operation].reference))
    || match x.phase
       case LookingUp(m) => m in w.sends
       case Finishing(_, result) => NamesSent(w, x.operation, result)
       case _ => false
  }

  // A write-back without effect, or of a closed reference, or one that finds nothing sent and nobody who can do harm.
  ghost predicate RestoresSafely(w: World, r: nat, call: Call)
    requires r in w.listed
  {
    var item := w.listed[r];
    || call == NoEffect
    || !HoldsLease(w.db, item.operation, item.owner)
    || Closed(w, item.operation, item.reference)
    || (Delivered(w, item.operation) == [] && !Menacing(w, item.operation))
  }

  /** Where a timely run leads. */
  ghost predicate TimelyReached(w: World) {
    exists labels :: TimelyRun(START, labels) && Run(START, labels) == Some(w)
  }

  /** Where a run that is prudent about the operation leads. */
  ghost predicate PrudentlyReached(w: World, o: OperationId) {
    exists labels :: PrudentRun(START, labels, o) && Run(START, labels) == Some(w)
  }

  lemma TimelyIsPrudentlyReached(w: World, o: OperationId)
    requires TimelyReached(w)
    ensures PrudentlyReached(w, o) && Inv(w)
  {
    hide Inv, Owned, Licensed, Kept, TimelyRun, PrudentRun, Run;
    var labels :| TimelyRun(START, labels) && Run(START, labels) == Some(w);
    StartInv();
    RunKeeps(START, labels);
    StartKept(o);
    TimelyRunIsPrudent(START, labels, o);
    assert PrudentRun(START, labels, o) && Run(START, labels) == Some(w);
  }

  lemma ReachedFacts(w: World, o: OperationId)
    requires PrudentlyReached(w, o)
    ensures Owned(w) && Licensed(w) && Kept(w, o)
  {
    hide Owned, Licensed, Kept, PrudentRun, Run;
    var labels :| PrudentRun(START, labels, o) && Run(START, labels) == Some(w);
    StartKept(o);
    PrudentRunKeeps(START, labels, o);
  }

  lemma OpenIsUsable(w: World, o: OperationId, reference: string)
    requires Letters(w) && (reference == "" || Names(w, o, reference)) && !Closed(w, o, reference)
    ensures Usable(w, o, reference)
  {
    hide MessageReference, GraphReference.Decode;
    if reference != "" {
      var m :| m in w.mailbox && w.mailbox[m].operation == o && reference == MessageReference(m);
      ReferenceFacts(m, m);
      assert IsFor(w, o, m);
    }
  }

  /** Phase by phase: a live attempt's row is closed exactly when the attempt is spent. */
  lemma SpentIsClosed(w: World, a: nat)
    requires Inv(w) && a in w.attempts && w.attempts[a].operation in w.db.operations
    requires w.db.operations[w.attempts[a].operation].kind == Email
    ensures Spent(w, w.attempts[a]) <==>
      Closed(w, w.attempts[a].operation, w.db.operations[w.attempts[a].operation].reference)
  {
    hide Inv, Consistent, MessageReference, GraphReference.Decode, Tended, Settled, Unreadable;
    LiveFacts(w, a);
    InvAtWork(w, a);
    var x := w.attempts[a];
    var reference := w.db.operations[x.operation].reference;
    if NamesSent(w, x.operation, reference) {
      var m := NamedWasSent(w, x.operation, reference);
      if x.phase.LookingUp? || x.phase.Sending? { ReferenceFacts(m, x.phase.message); }
    }
    if x.phase.Finishing? && NamesSent(w, x.operation, x.phase.result) {
      var m := NamedWasSent(w, x.operation, x.phase.result);
    }
  }

  /** In any world that a run reaches, an attempt that can do harm is loaded. */
  lemma MenaceIsLoaded(w: World, o: OperationId, a: nat)
    requires Owned(w) && Menace(w, o, a) && o in w.db.operations && w.db.operations[o].kind == Email
    ensures Loaded(w, w.attempts[a])
  {
    hide MessageReference, Unreadable, Usable, Delivered, OwnReference, OwnListing;
    OwnFaithful(w, a);
    var x := w.attempts[a];
    match x.phase
    case Finishing(completed, result) =>
      OpenIsUsable(w, o, result);
    case LookingUp(m) =>
      if m in w.sends { SentIsNamed(w, o, m); }
    case _ =>
  }

  // ---------------------------------------------------------------- restoring a usable reference

  lemma SameUsable(w: World, next: World, o: OperationId, reference: string)
    requires next.mailbox == w.mailbox
    ensures Usable(next, o, reference) <==> Usable(w, o, reference)
  {
    hide MessageReference, GraphReference.Decode;
  }

  lemma SameLoaded(w: World, next: World, x: Attempt)
    requires next.mailbox == w.mailbox && Loaded(w, x)
    ensures Loaded(next, x)
  {
    hide Usable;
    if x.phase.Finishing? { SameUsable(w, next, x.operation, x.phase.result); }
  }

  /** An accepted recovery under a usable reference makes its operation claimable under it. */
  lemma Restores(w: World, r: nat, call: Call)
    requires Licensed(w) && r in w.listed && call != NoEffect && Leased(w, w.listed[r].operation, w.listed[r].owner)
    requires Usable(w, w.listed[r].operation, w.listed[r].reference)
    ensures var o, next := w.listed[r].operation, Step(w, Recover(r, call));
      && next.Some? && Licensed(next.value) && Claimable(next.value, o)
      && Usable(next.value, o, next.value.db.operations[o].reference)
      && next.value.mailbox == w.mailbox && next.value.sends == w.sends && next.value.attempts == w.attempts
  {
    hide Licensed, Consistent, FinishOperation, Usable;
    var item := w.listed[r];
    LicensedIsConsistent(w);
    FinishFacts(w.db, item.operation, item.owner, false, item.reference);
    StepLicensed(w, Recover(r, call));
    SameUsable(w, Step(w, Recover(r, call)).value, item.operation, item.reference);
  }

  lemma RestoringIsUnsafe(w: World, r: nat, call: Call, o: OperationId)
    requires Licensed(w) && r in w.listed && w.listed[r].operation == o && call != NoEffect
      && Leased(w, o, w.listed[r].owner)
    requires Usable(w, o, w.listed[r].reference)
    requires Delivered(w, o) != [] || exists a ::
      a in w.attempts && w.attempts[a].operation == o && Loaded(w, w.attempts[a])
    ensures Step(w, Recover(r, call)).Some? && !Safe(Step(w, Recover(r, call)).value, o)
  {
    hide Licensed, Usable, Loaded, Safe, Step, Leased, Delivered;
    Restores(w, r, call);
    var next := Step(w, Recover(r, call)).value;
    if Delivered(w, o) != [] {
      SentIsDelivered(w, o, Delivered(w, o)[0]);
      SentIsDelivered(next, o, Delivered(w, o)[0]);
      ClaimableSendsAgain(next, o);
    } else {
      var a :| a in w.attempts && w.attempts[a].operation == o && Loaded(w, w.attempts[a]);
      SameLoaded(w, next, w.attempts[a]);
      LoadedSendsTwice(next, o, a);
    }
  }

  // ---------------------------------------------------------------- exactness

  /** Listing an expired email operation, at any world that a prudent run reaches, leaves "at most one message" true of
      every otherwise timely continuation if and only if no attempt at it can do harm or its row's reference is closed;
      and then of every prudent continuation, too. */
  lemma ListingIsSafeExactly(w: World, r: nat, o: OperationId, now: int)
    requires PrudentlyReached(w, o) && o in w.db.operations && w.db.operations[o].kind == Email
    requires r !in w.listed && Expired(w.db.operations[o], now)
    ensures Step(w, List(r, o, now)).Some?
    ensures Safe(Step(w, List(r, o, now)).value, o) <==>
      !Menacing(w, o) || Closed(w, o, w.db.operations[o].reference)
    ensures !Menacing(w, o) || Closed(w, o, w.db.operations[o].reference) ==>
      PrudentlySafe(Step(w, List(r, o, now)).value, o)
  {
    hide PrudentlyReached, Owned, Licensed, Kept, Safe, PrudentlySafe, Closed;
    ReachedFacts(w, o);
    if a :| Menace(w, o, a) && !Closed(w, o, w.db.operations[o].reference) {
      ListingIsUnsafe(w, r, o, now, a);
    } else {
      PrudentStepKeeps(w, List(r, o, now), o);
      TameIsSafeAhead(Step(w, List(r, o, now)).value, o);
      TameIsPrudentlySafe(Step(w, List(r, o, now)).value, o);
    }
  }

  /** After a timely run, phase by phase: exactly when every live attempt is spent. */
  lemma ListingByPhase(w: World, r: nat, o: OperationId, now: int)
    requires TimelyReached(w) && o in w.db.operations && w.db.operations[o].kind == Email
    requires r !in w.listed && Expired(w.db.operations[o], now)
    ensures Step(w, List(r, o, now)).Some?
    ensures Safe(Step(w, List(r, o, now)).value, o) <==>
      forall a | a in w.attempts && w.attempts[a].operation == o :: Spent(w, w.attempts[a])
  {
    hide TimelyReached, Inv, Safe, Spent, Closed, PrudentlyReached, Harmless;
    TimelyIsPrudentlyReached(w, o);
    ListingIsSafeExactly(w, r, o, now);
    if a :| a in w.attempts && w.attempts[a].operation == o && !Spent(w, w.attempts[a]) {
      SpentIsClosed(w, a);
      OpenMenace(w, o, a);
    } else if a :| Menace(w, o, a) {
      SpentIsClosed(w, a);
    }
  }

  lemma ListingIsUnsafe(w: World, r: nat, o: OperationId, now: int, a: nat)
    requires Owned(w) && Licensed(w) && o in w.db.operations && w.db.operations[o].kind == Email
    requires r !in w.listed && Expired(w.db.operations[o], now)
    requires Menace(w, o, a) && !Closed(w, o, w.db.operations[o].reference)
    ensures Step(w, List(r, o, now)).Some? && !Safe(Step(w, List(r, o, now)).value, o)
  {
    hide Owned, Licensed, Safe, Usable, Loaded, Closed, StepRecover, Harmless;
    var row, next := w.db.operations[o], Step(w, List(r, o, now)).value;
    MenaceIsLoaded(w, o, a);
    SameLoaded(w, next, w.attempts[a]);
    RowIsUsable(w, o);
    SameUsable(w, next, o, row.reference);
    ListLicensed(w, r, o, now);
    RestoringIsUnsafe(next, r, Replied, o);
    UnsafeStep(next, Recover(r, Replied), o);
  }

  lemma RowIsUsable(w: World, o: OperationId)
    requires Owned(w) && o in w.db.operations && w.db.operations[o].kind == Email
      && !Closed(w, o, w.db.operations[o].reference)
    ensures Usable(w, o, w.db.operations[o].reference)
  {
    hide Letters, Usable, Closed, Faithful, OwnListing, Names, NamesSent;
    assert OwnReference(w, o);
    OpenIsUsable(w, o, w.db.operations[o].reference);
  }

  /** A live attempt under an open reference can do harm. */
  lemma OpenMenace(w: World, o: OperationId, a: nat)
    requires Inv(w) && a in w.attempts && w.attempts[a].operation == o && o in w.db.operations
    requires !Closed(w, o, w.db.operations[o].reference)
    ensures Menace(w, o, a)
  {
    hide Inv, Closed, Settled, Tended, MessageReference, EventReference;
    LiveFacts(w, a);
    EmptyIsOpen(w, o);
  }

  /** Writing a listed operation back, however old the listing and at any world that a prudent run reaches, leaves "at
      most one message" true of every otherwise timely continuation if and only if the write has no effect, or the
      listed reference is closed, or nothing was sent and no live attempt at the operation can do harm; and then of
      every prudent continuation, too. */
  lemma RecoveringIsSafeExactly(w: World, r: nat, call: Call)
    requires r in w.listed && PrudentlyReached(w, w.listed[r].operation)
    requires w.listed[r].operation in w.db.operations && w.db.operations[w.listed[r].operation].kind == Email
    ensures Step(w, Recover(r, call)).Some?
    ensures Safe(Step(w, Recover(r, call)).value, w.listed[r].operation) <==> RestoresSafely(w, r, call)
    ensures RestoresSafely(w, r, call) ==> PrudentlySafe(Step(w, Recover(r, call)).value, w.listed[r].operation)
  {
    hide PrudentlyReached, Owned, Licensed, Kept, Safe, PrudentlySafe, Menacing, Closed, FinishOperation, Delivered;
    var o := w.listed[r].operation;
    ReachedFacts(w, o);
    var next := Step(w, Recover(r, call)).value;
    if Prudent(w, Recover(r, call), o) {
      PrudentStepKeeps(w, Recover(r, call), o);
      RecoverCreatesNone(w, r, call);
      StepLicensed(w, Recover(r, call));
      StaysEmail(w, next, o);
      TameIsSafeAhead(next, o);
      TameIsPrudentlySafe(next, o);
    } else {
      ListingIsUsable(w, r);
      MenacingIsLoaded(w, o);
      RestoringIsUnsafe(w, r, call, o);
    }
  }

  lemma ListingIsUsable(w: World, r: nat)
    requires Owned(w) && r in w.listed && w.listed[r].operation in w.db.operations
    requires w.db.operations[w.listed[r].operation].kind == Email
      && !Closed(w, w.listed[r].operation, w.listed[r].reference)
    ensures Usable(w, w.listed[r].operation, w.listed[r].reference)
  {
    hide Letters, Usable, Closed, Faithful, OwnReference, Names, NamesSent;
    assert OwnListing(w, w.listed[r]);
    OpenIsUsable(w, w.listed[r].operation, w.listed[r].reference);
  }

  lemma MenacingIsLoaded(w: World, o: OperationId)
    requires Owned(w) && o in w.db.operations && w.db.operations[o].kind == Email
    ensures Menacing(w, o) ==> exists a :: a in w.attempts && w.attempts[a].operation == o && Loaded(w, w.attempts[a])
  {
    hide Owned, Loaded, Harmless;
    if a :| Menace(w, o, a) {
      MenaceIsLoaded(w, o, a);
    }
  }
}
