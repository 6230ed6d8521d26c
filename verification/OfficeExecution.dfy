/** ExecuteOperation of internal/office/operation_service.go with the email and calendar executors of
    internal/mcpbridge/office_executor.go, as sequential code among other actors. */
module OfficeExecution {
  import opened Common
  import opened OfficeStore
  import opened OfficeProtocol
  import GraphReference
  import OfficeSafety
  import OfficeRuns

  /** How the calls of one execution turn out, what the remote side names its objects, and what the
      other actors do before each step. */
  datatype Schedule = Schedule(
    others: seq<seq<Label>>, claim: Call, create: Call, id: Id, checkpoint: Call, lookUp: Call, send: Call,
      finish: Call)
  {
    function Others(i: nat): seq<Label> { if i < |others| then others[i] else [] }

    /** Nobody else moves and every call is answered. */
    predicate Calm() {
      others == [] && claim == create == checkpoint == lookUp == send == finish == Replied
    }
  }

  datatype Outcome =
    | Missing | AlreadyCompleted | Refused | ClaimLost | FinishLost | ExecutionFailed | ExecutionCompleted

  predicate Concerns(l: Label, a: nat) {
    match l
    case Claim(b, _, _, _, _) => a == b
    case CreateMail(b, _, _) => a == b
    case SaveReference(b, _) => a == b
    case LookUp(b, _) => a == b
    case Send(b, _) => a == b
    case CreateEvent(b, _, _) => a == b
    case Finish(b, _) => a == b
    case Crash(b) => a == b
    case _ => false
  }

  lemma ForeignStep(w: World, l: Label, a: nat)
    requires Step(w, l).Some? && !Concerns(l, a)
    ensures a in Step(w, l).value.attempts <==> a in w.attempts
    ensures a in w.attempts ==> Step(w, l).value.attempts[a] == w.attempts[a]
  {
    hide StepClaim, StepCreateMail, StepSaveReference, StepLookUp, StepSend, StepCreateEvent, StepFinish, StepList;
    hide StepRecover;
    hide SaveDraft, DeleteDraft, SubmitForConfirmation, Decide, PrepareRequest;
    match l
    case CreateMail(b, id, call) => ForeignRemoteStep(w, l, b, a);
    case LookUp(b, call) => ForeignRemoteStep(w, l, b, a);
    case Send(b, call) => ForeignRemoteStep(w, l, b, a);
    case CreateEvent(b, id, call) => ForeignRemoteStep(w, l, b, a);
    case Claim(b, _, _, _, _) => ForeignStoreStep(w, l, a);
    case SaveReference(_, _) => ForeignStoreStep(w, l, a);
    case Finish(_, _) => ForeignStoreStep(w, l, a);
    case List(_, _, _) => ForeignStoreStep(w, l, a);
    case Recover(_, _) => ForeignStoreStep(w, l, a);
    case _ =>
  }

  lemma ForeignRemoteStep(w: World, l: Label, b: nat, a: nat)
    requires Step(w, l).Some? && a != b
    requires (l.CreateMail? && l.attempt == b) || (l.LookUp? && l.attempt == b) || (l.Send? && l.attempt == b)
      || (l.CreateEvent? && l.attempt == b)
    ensures a in Step(w, l).value.attempts <==> a in w.attempts
    ensures a in w.attempts ==> Step(w, l).value.attempts[a] == w.attempts[a]
  {
    hide StepClaim, StepSaveReference, StepFinish, StepList, StepRecover;
  }

  lemma ForeignStoreStep(w: World, l: Label, a: nat)
    requires Step(w, l).Some? && !Concerns(l, a)
    requires l.Claim? || l.SaveReference? || l.Finish? || l.List? || l.Recover?
    ensures a in Step(w, l).value.attempts <==> a in w.attempts
    ensures a in w.attempts ==> Step(w, l).value.attempts[a] == w.attempts[a]
  {
    hide StepCreateMail, StepLookUp, StepSend, StepCreateEvent;
    hide MessageReference, EventReference, FirstPhase, ClaimOperation, CheckpointOperation, FinishOperation;
  }

  /** Whether an undisturbed execution can succeed, from the row, the mailbox and the calendar it finds: a new remote
      object needs an id, a message not in use, and a stored reference has to name an object that is still there. */
  predicate CanSucceed(w: World, o: OperationId, id: Id)
    requires o in w.db.operations
  {
    var row := w.db.operations[o];
    match row.kind
    case Email => MailSucceeds(w, row.reference, id)
    case Calendar => EventSucceeds(w, row.key, row.reference, id)
  }

  predicate MailSucceeds(w: World, reference: string, id: Id) {
    if reference == "" then id != [] && id !in w.mailbox
    else
      match GraphReference.Decode(reference, "message")
      case Some(m) => m in w.mailbox
      case None => false
  }

  predicate EventSucceeds(w: World, key: IdempotencyKey, reference: string, id: Id) {
    if reference == "" then (if key in w.calendar then w.calendar[key] else id) != []
    else GraphReference.Decode(reference, "event").Some?
  }

  lemma SameSuccess(w: World, next: World, row: OperationRow, id: Id)
    requires next.mailbox == w.mailbox && next.calendar == w.calendar
    ensures MailSucceeds(next, row.reference, id) == MailSucceeds(w, row.reference, id)
    ensures EventSucceeds(next, row.key, row.reference, id) == EventSucceeds(w, row.key, row.reference, id)
  {
  }

  /** How an undisturbed execution ends. */
  function CalmOutcome(w: World, o: OperationId, id: Id): Outcome {
    if o !in w.db.operations then Missing
    else
      match w.db.operations[o].status
      case OpCompleted => AlreadyCompleted
      case OpExecuting => Refused
      case _ => if CanSucceed(w, o, id) then ExecutionCompleted else ExecutionFailed
  }

  /** In every world that keeps the invariant, a pending or failed operation can be claimed, and claiming it changes
      neither what it is about nor what it has made. */
  lemma ClaimGoesThrough(w: World, o: OperationId, owner: string, until: int)
    requires Inv(w) && o in w.db.operations && w.db.operations[o].status in {OpPending, OpFailed}
    ensures var r := ClaimOperation(w.db, o, owner, until);
      && r.Ok? && o in r.value.operations
      && var was, row := w.db.operations[o], r.value.operations[o];
         row.kind == was.kind && row.key == was.key && row.reference == was.reference
  {
    hide Tended, AuditedDrafts, AuditedOperations, Mailbox, Approvals, Known;
    assert CoupledRows(w.db);
    assert Coupled(w.db.operations[o].status, w.db.drafts[w.db.operations[o].draftId].status);
  }

  /** An attempt that is about to save a reference still holds its lease. */
  lemma CheckpointGoesThrough(w: World, a: nat, reference: string)
    requires Inv(w) && a in w.attempts && (w.attempts[a].phase.SavingMail? || w.attempts[a].phase.SavingEvent?)
    ensures CheckpointOperation(w.db, w.attempts[a].operation, w.attempts[a].owner, reference).Ok?
  {
    hide Inv, Settled, Consistent, Tended, MessageReference, EventReference;
    OfficeSafety.LiveFacts(w, a);
  }

  /** A calendar operation without a reference that can be claimed. */
  predicate CalendarRunnable(w: World, o: OperationId) {
    && o in w.db.operations && w.db.operations[o].draftId in w.db.drafts
    && w.db.operations[o].status in {OpPending, OpFailed}
    && w.db.operations[o].kind == Calendar && w.db.operations[o].reference == ""
    && w.db.drafts[w.db.operations[o].draftId].status == ExpectedDraftStatus(w.db.operations[o].status)
  }

  /** The attempt alone works on a calendar operation, which has the lease, and has come to this phase. */
  predicate Scheduling(w: World, a: nat, o: OperationId, owner: string, key: IdempotencyKey, latest: string,
      phase: Phase)
  {
    && HoldsLease(w.db, o, owner) && w.db.operations[o].kind == Calendar && w.db.operations[o].key == key
    && w.db.operations[o].draftId in w.db.drafts && w.db.drafts[w.db.operations[o].draftId].status == Executing
    && a in w.attempts && w.attempts[a].operation == o && w.attempts[a].owner == owner
    && w.attempts[a].latest == latest && w.attempts[a].phase == phase
  }

  lemma ClaimSchedules(w: World, a: nat, o: OperationId, owner: string, until: int)
    requires CalendarRunnable(w, o) && a !in w.attempts
    ensures var next := Step(w, Claim(a, o, owner, until, Replied));
      && next.Some? && next.value.calendar == w.calendar
      && Scheduling(next.value, a, o, owner, w.db.operations[o].key, "", CreatingEvent)
      && next.value.attempts.Keys == w.attempts.Keys + {a}
  {
  }

  lemma CreateSchedules(w: World, a: nat, o: OperationId, owner: string, key: IdempotencyKey, id: Id)
    requires Scheduling(w, a, o, owner, key, "", CreatingEvent)
    requires (if key in w.calendar then w.calendar[key] else id) != []
    ensures var event := if key in w.calendar then w.calendar[key] else id;
      var next := Step(w, CreateEvent(a, id, Replied));
      && next.Some? && next.value.calendar == w.calendar[key := event] && next.value.attempts.Keys == w.attempts.Keys
      && Scheduling(next.value, a, o, owner, key, "", SavingEvent(event))
  {
  }

  lemma SaveSchedules(w: World, a: nat, o: OperationId, owner: string, key: IdempotencyKey, event: Id)
    requires Scheduling(w, a, o, owner, key, "", SavingEvent(event))
    ensures var next := Step(w, SaveReference(a, Replied));
      && next.Some? && next.value.calendar == w.calendar && next.value.attempts.Keys == w.attempts.Keys
      && Scheduling(next.value, a, o, owner, key, EventReference(event), Finishing(true, EventReference(event)))
  {
    hide EventReference;
  }

  lemma FinishSchedules(w: World, a: nat, o: OperationId, owner: string, key: IdempotencyKey, reference: string)
    requires Scheduling(w, a, o, owner, key, reference, Finishing(true, reference))
    ensures var next := Step(w, Finish(a, Replied));
      && next.Some? && next.value.calendar == w.calendar && next.value.attempts.Keys == w.attempts.Keys - {a}
      && o in next.value.db.operations && next.value.db.operations[o].status == OpCompleted
      && next.value.db.operations[o].reference == reference
  {
  }

  lemma SavedCompletes(w: World, a: nat, o: OperationId, owner: string, key: IdempotencyKey, event: Id)
    requires Scheduling(w, a, o, owner, key, "", SavingEvent(event))
    ensures var next := Run(w, [SaveReference(a, Replied)] + ([Finish(a, Replied)] + []));
      && next.Some? && next.value.calendar == w.calendar && next.value.attempts.Keys == w.attempts.Keys - {a}
      && o in next.value.db.operations && next.value.db.operations[o].status == OpCompleted
      && next.value.db.operations[o].reference == EventReference(event)
  {
    hide Step, Run, Scheduling, EventReference;
    SaveSchedules(w, a, o, owner, key, event);
    var w1 := Step(w, SaveReference(a, Replied)).value;
    FinishSchedules(w1, a, o, owner, key, EventReference(event));
    var w2 := Step(w1, Finish(a, Replied)).value;
    OfficeRuns.RunNothing(w2);
    OfficeRuns.RunCons(w1, Finish(a, Replied), []);
    OfficeRuns.RunCons(w, SaveReference(a, Replied), [Finish(a, Replied)] + []);
  }

  /** An undisturbed attempt at a calendar operation without a reference writes one event under the operation's
      transaction id, the one the calendar already has for it or a new one, and completes with its reference. */
  lemma CalendarExecutionCompletes(w: World, a: nat, o: OperationId, owner: string, until: int, id: Id)
    requires CalendarRunnable(w, o) && a !in w.attempts
    requires var key := w.db.operations[o].key; (if key in w.calendar then w.calendar[key] else id) != []
    ensures var key := w.db.operations[o].key;
      var event := if key in w.calendar then w.calendar[key] else id;
      var next := Run(w, [Claim(a, o, owner, until, Replied)] +
        ([CreateEvent(a, id, Replied)] + ([SaveReference(a, Replied)] + ([Finish(a, Replied)] + []))));
      && next.Some? && next.value.calendar == w.calendar[key := event] && next.value.attempts.Keys == w.attempts.Keys
      && o in next.value.db.operations && next.value.db.operations[o].status == OpCompleted
      && next.value.db.operations[o].reference == EventReference(event)
  {
    var key := w.db.operations[o].key;
    var event := if key in w.calendar then w.calendar[key] else id;
    hide Step, Run, Scheduling, CalendarRunnable, EventReference;
    ClaimSchedules(w, a, o, owner, until);
    var w1 := Step(w, Claim(a, o, owner, until, Replied)).value;
    CreateSchedules(w1, a, o, owner, key, id);
    var w2 := Step(w1, CreateEvent(a, id, Replied)).value;
    SavedCompletes(w2, a, o, owner, key, event);
    OfficeRuns.RunCons(w1, CreateEvent(a, id, Replied), [SaveReference(a, Replied)] + ([Finish(a, Replied)] + []));
    OfficeRuns.RunCons(w, Claim(a, o, owner, until, Replied),
      [CreateEvent(a, id, Replied)] + ([SaveReference(a, Replied)] + ([Finish(a, Replied)] + [])));
  }

  /** Its live attempt still holds the lease, so a result that reaches the store is accepted. */
  lemma FinishIsAccepted(w: World, a: nat, call: Call)
    requires Inv(w) && a in w.attempts && w.attempts[a].phase.Finishing?
    ensures var x, next := w.attempts[a], Step(w, Finish(a, call));
      && next.Some? && a !in next.value.attempts
      && (call != NoEffect ==>
            && x.operation in next.value.db.operations
            && next.value.db.operations[x.operation].status == if x.phase.completed then OpCompleted else OpFailed)
  {
    hide Inv, Consistent, FinishOperation, MessageReference, EventReference;
    var x := w.attempts[a];
    OfficeSafety.LiveFacts(w, a);
    OfficeSafety.FinishFacts(w.db, x.operation, x.owner, x.phase.completed, x.phase.result);
  }

  class Deployment {
    var world: World
    ghost var history: seq<Label>

    constructor ()
      ensures Valid() && world == START && history == []
    {
      world, history := START, [];
    }

    /** The deployment is where a timely run of the protocol has taken it. */
    ghost predicate Valid()
      reads this
    {
      Run(START, history) == Some(world) && TimelyRun(START, history)
    }

    lemma ValidInv()
      requires Valid()
      ensures Inv(world)
    {
      OfficeSafety.StartInv();
      OfficeSafety.RunKeeps(START, history);
    }

    method Act(l: Label)
      requires Valid() && Step(world, l).Some? && Timely(world, l)
      modifies this
      ensures Valid() && Some(world) == old(Step(world, l)) && history == old(history) + [l]
    {
      hide Step, Timely;
      OfficeRuns.RunNothing(Step(world, l).value);
      OfficeRuns.RunCons(world, l, []);
      OfficeRuns.RunAppend(START, history, [l] + []);
      OfficeRuns.EveryCons(Timely, world, l, []);
      OfficeRuns.EveryAppend(Timely, START, history, [l] + []);
      assert [l] + [] == [l];
      world := Step(world, l).value;
      history := history + [l];
    }

    /** Other actors take any steps the protocol and its timing allow. */
    method Yield(a: nat, labels: seq<Label>)
      requires Valid()
      modifies this
      ensures Valid() && old(history) <= history
      ensures a in world.attempts <==> a in old(world).attempts
      ensures a in world.attempts ==> world.attempts[a] == old(world).attempts[a]
      ensures labels == [] ==> world == old(world)
    {
      hide Step, Timely, Concerns, Run, TimelyRun;
      for i := 0 to |labels|
        invariant Valid() && old(history) <= history && (labels == [] ==> world == old(world))
        invariant a in world.attempts <==> a in old(world).attempts
        invariant a in world.attempts ==> world.attempts[a] == old(world).attempts[a]
      {
        var l := labels[i];
        if !Concerns(l, a) && Step(world, l).Some? && Timely(world, l) {
          ForeignStep(world, l, a);
          Act(l);
        }
      }
    }

    /** The checkpoint closure: on success the saved reference is the latest known. */
    method Checkpoint(a: nat, reference: string, latest: string, call: Call) returns (ok: bool, seen: string)
      requires Valid() && a in world.attempts && world.attempts[a].latest == latest
      requires world.attempts[a].phase.SavingMail? || world.attempts[a].phase.SavingEvent?
      requires var phase := world.attempts[a].phase;
        reference == if phase.SavingMail? then MessageReference(phase.message) else EventReference(phase.event)
      modifies this
      ensures Valid() && old(history) <= history && a in world.attempts
      ensures world.attempts[a].operation == old(world).attempts[a].operation
      ensures seen == if ok then reference else latest
      ensures world.attempts[a].latest == seen
      ensures world.attempts[a].phase ==
        if !ok then Finishing(false, latest)
        else if old(world).attempts[a].phase.SavingMail? then Sending(old(world).attempts[a].phase.message)
        else Finishing(true, reference)
      ensures ok == (call == Replied) && world.mailbox == old(world).mailbox
    {
      hide Run, TimelyRun, MessageReference, EventReference, Inv;
      var x := world.attempts[a];
      ValidInv();
      CheckpointGoesThrough(world, a, reference);
      ok := CheckpointOperation(world.db, x.operation, x.owner, reference).Ok? && call == Replied;
      seen := if ok then reference else latest;
      Act(SaveReference(a, call));
    }

    /** What an attempt is about to record: success names the one message delivered or the one event written, and
        failure without a reference means that nothing was delivered. */
    ghost predicate Truthful(a: nat)
      reads this
      requires a in world.attempts
    {
      var x := world.attempts[a];
      x.phase.Finishing? && x.operation in world.db.operations ==>
        if world.db.operations[x.operation].kind == Email then
          && |OfficeSafety.Delivered(world, x.operation)| <= 1
          && (x.phase.completed ==> exists m ::
               OfficeSafety.Delivered(world, x.operation) == [m] && x.phase.result == MessageReference(m))
          && (x.phase.result == "" ==> OfficeSafety.Delivered(world, x.operation) == [])
        else
          x.phase.completed ==> NamesEvent(world, world.db.operations[x.operation].key, x.phase.result)
    }

    lemma AttemptsAreTruthful(a: nat)
      requires Valid() && a in world.attempts
      ensures Truthful(a)
    {
      hide Run, TimelyRun, Inv, MessageReference, EventReference, OfficeSafety.Delivered;
      ValidInv();
      var x := world.attempts[a];
      if x.phase.Finishing? && x.operation in world.db.operations {
        OfficeSafety.LiveFacts(world, a);
        OfficeSafety.OneMessage(world, x.operation);
        if world.db.operations[x.operation].kind == Email { OfficeSafety.FinishingMail(world, a); }
      }
    }

    /** The operation is completed, and exactly the message, or the event, that its stored reference names has been
        delivered. */
    ghost predicate Fulfilled(o: OperationId)
      reads this
    {
      && o in world.db.operations && world.db.operations[o].status == OpCompleted
      && (if world.db.operations[o].kind == Email
          then exists m ::
            OfficeSafety.Delivered(world, o) == [m] && world.db.operations[o].reference == MessageReference(m)
          else NamesEvent(world, world.db.operations[o].key, world.db.operations[o].reference))
    }

    lemma CompletedIsFulfilled(o: OperationId)
      requires Valid() && o in world.db.operations && world.db.operations[o].status == OpCompleted
      ensures Fulfilled(o)
    {
      hide Run, TimelyRun, Inv, MessageReference, OfficeSafety.Delivered;
      ValidInv();
      OfficeSafety.OneMessage(world, o);
      OfficeSafety.CompletedEvent(world, o);
    }

    method ExecuteEmail(a: nat, reference: string, s: Schedule) returns (result: Option<string>, latest: string)
      requires Valid() && a in world.attempts && world.attempts[a].latest == reference
      requires world.attempts[a].phase == FirstPhase(Email, reference)
      modifies this
      ensures Valid() && old(history) <= history && a in world.attempts
      ensures world.attempts[a].operation == old(world).attempts[a].operation
      ensures world.attempts[a].phase == if result.Some? then Finishing(true, result.value)
        else Finishing(false, latest)
      ensures Truthful(a)
      ensures s.Calm() ==> (result.Some? <==> MailSucceeds(old(world), reference, s.id))
    {
      hide Run, TimelyRun, Step, Valid, Truthful, MessageReference, GraphReference.Decode;
      latest := reference;
      var message: Id;
      if reference == "" {
        var create := if s.create != NoEffect && s.id in world.mailbox then NoEffect else s.create;
        ActCreateMail(a, s.id, create);
        if create != Replied || s.id == [] {
          AttemptsAreTruthful(a);
          return None, latest;
        }
        message := s.id;
        Yield(a, s.Others(2));
        var ok;
        ok, latest := Checkpoint(a, MessageReference(message), latest, s.checkpoint);
        if !ok {
          AttemptsAreTruthful(a);
          return None, latest;
        }
      } else {
        var decoded := GraphReference.Decode(reference, "message");
        if decoded.None? {
          AttemptsAreTruthful(a);
          return None, latest;
        }
        message := decoded.value;
        var isDraft := ActLookUp(a, s.lookUp);
        if s.lookUp != Replied || isDraft.None? {
          AttemptsAreTruthful(a);
          return None, latest;
        }
        if !isDraft.value {
          AttemptsAreTruthful(a);
          return Some(reference), latest;
        }
      }
      Yield(a, s.Others(3));
      var sent := ActSend(a, s.send);
      if !sent {
        AttemptsAreTruthful(a);
        return None, latest;
      }
      AttemptsAreTruthful(a);
      return Some(latest), latest;
    }

    method ExecuteCalendar(a: nat, reference: string, s: Schedule) returns (result: Option<string>, latest: string)
      requires Valid() && a in world.attempts && world.attempts[a].latest == reference
      requires world.attempts[a].phase == FirstPhase(Calendar, reference)
      modifies this
      ensures Valid() && old(history) <= history && a in world.attempts
      ensures world.attempts[a].operation == old(world).attempts[a].operation
      ensures world.attempts[a].phase == if result.Some? then Finishing(true, result.value)
        else Finishing(false, latest)
      ensures Truthful(a)
      ensures s.Calm() && a in old(world).attempts && old(world).attempts[a].operation in old(world).db.operations ==>
        var key := old(world).db.operations[old(world).attempts[a].operation].key;
        result.Some? <==> EventSucceeds(old(world), key, reference, s.id)
    {
      hide Run, TimelyRun, Step, Valid, Truthful, EventReference, GraphReference.Decode;
      latest := reference;
      if reference != "" {
        if GraphReference.Decode(reference, "event").None? {
          AttemptsAreTruthful(a);
          return None, latest;
        }
        AttemptsAreTruthful(a);
        return Some(reference), latest;
      }
      var event := ActCreateEvent(a, s.id, s.create);
      if s.create != Replied || event == [] {
        AttemptsAreTruthful(a);
        return None, latest;
      }
      Yield(a, s.Others(2));
      var ok;
      ok, latest := Checkpoint(a, EventReference(event), latest, s.checkpoint);
      if !ok {
        AttemptsAreTruthful(a);
        return None, latest;
      }
      AttemptsAreTruthful(a);
      return Some(latest), latest;
    }

    /** The executor for the operation's kind. */
    method Execute(a: nat, row: OperationRow, s: Schedule) returns (result: Option<string>, latest: string)
      requires Valid() && a in world.attempts && world.attempts[a].latest == row.reference
      requires world.attempts[a].phase == FirstPhase(row.kind, row.reference)
      requires world.attempts[a].operation in world.db.operations
        && world.db.operations[world.attempts[a].operation] == row
      modifies this
      ensures Valid() && old(history) <= history && a in world.attempts
      ensures world.attempts[a].operation == old(world).attempts[a].operation
      ensures world.attempts[a].phase == if result.Some? then Finishing(true, result.value)
        else Finishing(false, latest)
      ensures Truthful(a)
      ensures s.Calm() ==> (result.Some? <==> CanSucceed(old(world), old(world).attempts[a].operation, s.id))
    {
      hide Run, TimelyRun, Valid, Truthful, FirstPhase, MailSucceeds, EventSucceeds;
      if row.kind == Email {
        result, latest := ExecuteEmail(a, row.reference, s);
      } else {
        result, latest := ExecuteCalendar(a, row.reference, s);
      }
    }

    method ActCreateMail(a: nat, id: Id, call: Call)
      requires Valid() && a in world.attempts && world.attempts[a].phase == CreatingMail
      requires call != NoEffect ==> id !in world.mailbox
      modifies this
      ensures Valid() && old(history) <= history && a in world.attempts
      ensures var x := old(world).attempts[a];
        world.attempts[a] == x.(phase := if call == Replied && id != [] then SavingMail(id)
                                         else Finishing(false, x.latest))
      ensures call != NoEffect ==> id in world.mailbox
    {
      hide Run, TimelyRun;
      Act(CreateMail(a, id, call));
    }

    method ActLookUp(a: nat, call: Call) returns (isDraft: Option<bool>)
      requires Valid() && a in world.attempts && world.attempts[a].phase.LookingUp?
      modifies this
      ensures Valid() && old(history) <= history && a in world.attempts
      ensures var x := old(world).attempts[a];
        world.attempts[a] == x.(phase :=
          if call != Replied || isDraft.None? then Finishing(false, x.latest)
          else if isDraft.value then Sending(x.phase.message)
          else Finishing(true, x.latest))
      ensures isDraft.Some? <==> old(world).attempts[a].phase.message in old(world).mailbox
      ensures world.mailbox == old(world).mailbox
    {
      hide Run, TimelyRun;
      var m := world.attempts[a].phase.message;
      isDraft := if m in world.mailbox then Some(world.mailbox[m].isDraft) else None;
      Act(LookUp(a, call));
    }

    method ActSend(a: nat, call: Call) returns (sent: bool)
      requires Valid() && a in world.attempts && world.attempts[a].phase.Sending?
      modifies this
      ensures Valid() && old(history) <= history && a in world.attempts
      ensures var x := old(world).attempts[a]; world.attempts[a] == x.(phase := Finishing(sent, x.latest))
      ensures sent <==> call == Replied && old(world).attempts[a].phase.message in old(world).mailbox
    {
      hide Run, TimelyRun;
      sent := call == Replied && world.attempts[a].phase.message in world.mailbox;
      Act(Send(a, call));
    }

    method ActCreateEvent(a: nat, id: Id, call: Call) returns (event: Id)
      requires Valid() && a in world.attempts && world.attempts[a].phase == CreatingEvent
      modifies this
      ensures Valid() && old(history) <= history && a in world.attempts
      ensures var x := old(world).attempts[a];
        world.attempts[a] == x.(phase := if call == Replied && event != [] then SavingEvent(event)
                                         else Finishing(false, x.latest))
      ensures old(world).attempts[a].operation in old(world).db.operations
      ensures var key, calendar := old(world).db.operations[old(world).attempts[a].operation].key, old(world).calendar;
        event == if key in calendar then calendar[key] else id
    {
      hide Run, TimelyRun, Inv, Valid;
      InvKnows(a);
      var key := world.db.operations[world.attempts[a].operation].key;
      event := if key in world.calendar then world.calendar[key] else id;
      Act(CreateEvent(a, id, call));
    }

    lemma InvKnows(a: nat)
      requires Valid() && a in world.attempts
      ensures world.attempts[a].operation in world.db.operations
    {
      ValidInv();
    }

    /** Claims, executes and records.  Reporting completion means that the operation is completed, and that exactly
        the message, or the event, that its stored reference names has been delivered. */
    method ExecuteOperation(o: OperationId, a: nat, owner: string, until: int, s: Schedule) returns (outcome: Outcome)
      requires Valid() && a !in world.attempts
      modifies this
      ensures Valid() && old(history) <= history && a !in world.attempts
      ensures outcome in {ExecutionCompleted, AlreadyCompleted} ==> Fulfilled(o)
      ensures outcome == ExecutionFailed ==> o in world.db.operations && world.db.operations[o].status == OpFailed
      ensures s.Calm() ==> outcome == CalmOutcome(old(world), o, s.id)
    {
      hide Run, TimelyRun, Step, Valid, Fulfilled, ClaimOperation, FirstPhase, MailSucceeds, EventSucceeds;
      Yield(a, s.Others(0));
      if o !in world.db.operations {
        return Missing;
      }
      var current := world.db.operations[o];
      if current.status == OpCompleted {
        CompletedIsFulfilled(o);
        return AlreadyCompleted;
      }
      if current.status != OpPending && current.status != OpFailed {
        return Refused;
      }
      Yield(a, s.Others(1));
      if s.Calm() { ClaimWorks(o, owner, until); }
      ghost var before := world;
      var claimed := ActClaim(a, o, owner, until, s.claim);
      if claimed.Some? { SameSuccess(before, world, claimed.value, s.id); }
      if claimed.None? {
        return ClaimLost;
      }
      var result, latest := Execute(a, claimed.value, s);
      outcome := Conclude(a, o, result.Some?, s);
    }

    /** Records what the executor returned. */
    method Conclude(a: nat, o: OperationId, completed: bool, s: Schedule) returns (outcome: Outcome)
      requires Valid() && a in world.attempts && world.attempts[a].operation == o
      requires world.attempts[a].phase.Finishing? && world.attempts[a].phase.completed == completed
      modifies this
      ensures Valid() && old(history) <= history && a !in world.attempts
      ensures outcome == if s.finish != Replied then FinishLost else if completed then ExecutionCompleted
        else ExecutionFailed
      ensures outcome == ExecutionCompleted ==> Fulfilled(o)
      ensures outcome == ExecutionFailed ==> o in world.db.operations && world.db.operations[o].status == OpFailed
    {
      hide Run, TimelyRun, Step, Valid, Fulfilled;
      Yield(a, s.Others(4));
      var finished := ActFinish(a, o, s.finish);
      if !finished {
        return FinishLost;
      }
      if completed { CompletedIsFulfilled(o); }
      return if completed then ExecutionCompleted else ExecutionFailed;
    }

    lemma ClaimWorks(o: OperationId, owner: string, until: int)
      requires Valid() && o in world.db.operations && world.db.operations[o].status in {OpPending, OpFailed}
      ensures var r := ClaimOperation(world.db, o, owner, until);
        && r.Ok? && o in r.value.operations
        && var was, row := world.db.operations[o], r.value.operations[o];
           row.kind == was.kind && row.key == was.key && row.reference == was.reference
    {
      ValidInv();
      ClaimGoesThrough(world, o, owner, until);
    }

    method ActClaim(a: nat, o: OperationId, owner: string, until: int, call: Call)
      returns (claimed: Option<OperationRow>)
      requires Valid() && a !in world.attempts
      modifies this
      ensures Valid() && old(history) <= history
      ensures claimed.None? ==> a !in world.attempts
      ensures claimed.Some? ==>
        && o in world.db.operations && world.db.operations[o] == claimed.value
        && a in world.attempts && world.attempts[a] ==
             Attempt(o, owner, claimed.value.attempt, claimed.value.reference,
               FirstPhase(claimed.value.kind, claimed.value.reference))
      ensures var r := ClaimOperation(old(world).db, o, owner, until);
        claimed == if r.Ok? && call == Replied && o in r.value.operations then Some(r.value.operations[o]) else None
      ensures world.mailbox == old(world).mailbox && world.calendar == old(world).calendar
    {
      hide Run, TimelyRun, FirstPhase;
      var r := ClaimOperation(world.db, o, owner, until);
      claimed := if r.Ok? && call == Replied then Some(r.value.operations[o]) else None;
      Act(Claim(a, o, owner, until, call));
    }

    method ActFinish(a: nat, o: OperationId, call: Call) returns (finished: bool)
      requires Valid() && a in world.attempts && world.attempts[a].phase.Finishing?
      modifies this
      ensures Valid() && old(history) <= history && a !in world.attempts && finished == (call == Replied)
      ensures finished && old(world).attempts[a].operation == o ==>
        && o in world.db.operations
        && world.db.operations[o].status == if old(world).attempts[a].phase.completed then OpCompleted else OpFailed
    {
      hide Run, TimelyRun, Inv, Step;
      ValidInv();
      FinishIsAccepted(world, a, call);
      finished := call == Replied;
      Act(Finish(a, call));
    }
  }
}
