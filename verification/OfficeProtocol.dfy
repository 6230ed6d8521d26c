/** Crash-tolerant external writes: every interleaving of the store transactions, the remote calls
    of internal/mcpbridge/office_executor.go and the recovery of internal/office/operation_service.go.
    One label is one atomic step; a crash, a lost reply or another actor may come between any two. */
module OfficeProtocol {
  import opened Common
  import opened OfficeStore
  import GraphReference

  type Id = seq<GraphReference.Byte>

  /** Where an execution attempt stands; Finishing carries the result it is about to record. */
  datatype Phase =
    | CreatingMail
    | SavingMail(message: Id)
    | LookingUp(message: Id)
    | Sending(message: Id)
    | CreatingEvent
    | SavingEvent(event: Id)
    | Finishing(completed: bool, result: string)

  /** A running ExecuteOperation: the lease it claimed and the reference it last saw saved. */
  datatype Attempt = Attempt(operation: OperationId, owner: string, number: nat, latest: string, phase: Phase)

  /** A remote message and, as history, the operation it was created for. */
  datatype Mail = Mail(operation: OperationId, isDraft: bool)

  /** A row as recovery listed it. */
  datatype Listed = Listed(operation: OperationId, owner: string, number: nat, reference: string)

  datatype World = World(
    db: Db, mailbox: map<Id, Mail>, sends: seq<Id>, calendar: map<IdempotencyKey, Id>,
    attempts: map<nat, Attempt>, listed: map<nat, Listed>)

  const START := World(EMPTY, map[], [], map[], map[], map[])

  datatype Label =
    | SaveADraft(draft: DraftId, kind: Kind, sourceRunId: string, contentHash: string)
    | Submit(draft: DraftId)
    | Confirm(draft: DraftId, approve: bool)
    | Delete(draft: DraftId)
    | Prepare(operation: OperationId, draft: DraftId)
    | Claim(attempt: nat, operation: OperationId, owner: string, until: int, call: Call)
    | CreateMail(attempt: nat, id: Id, call: Call)
    | SaveReference(attempt: nat, call: Call)
    | LookUp(attempt: nat, call: Call)
    | Send(attempt: nat, call: Call)
    | CreateEvent(attempt: nat, id: Id, call: Call)
    | Finish(attempt: nat, call: Call)
    | Crash(attempt: nat)
    | List(recoverer: nat, operation: OperationId, now: int)
    | Recover(recoverer: nat, call: Call)

  function MessageReference(m: Id): string { GraphReference.Encode("message", m) }

  function EventReference(e: Id): string { GraphReference.Encode("event", e) }

  // ---------------------------------------------------------------- steps

  /** The executor's first decision, from the reference the claim returned. */
  function FirstPhase(kind: Kind, reference: string): Phase {
    match kind
    case Email =>
      if reference == "" then CreatingMail
      else (match GraphReference.Decode(reference, "message")
            case Some(m) => LookingUp(m)
            case None => Finishing(false, reference))
    case Calendar =>
      if reference == "" then CreatingEvent
      else Finishing(GraphReference.Decode(reference, "event").Some?, reference)
  }

  function AfterRequest(w: World, r: Result<Db, Error>): World {
    if r.Ok? then w.(db := r.value) else w
  }

  function Move(w: World, a: nat, phase: Phase): World
    requires a in w.attempts
  {
    w.(attempts := w.attempts[a := w.attempts[a].(phase := phase)])
  }

  /** A failed attempt goes on to record failure under the reference it last saw saved. */
  function Fail(w: World, a: nat): World
    requires a in w.attempts
  {
    Move(w, a, Finishing(false, w.attempts[a].latest))
  }

  function StepClaim(w: World, a: nat, o: OperationId, owner: string, until: int, call: Call): Option<World> {
    if a in w.attempts then None
    else
      match ClaimOperation(w.db, o, owner, until)
      case Err(_) => Some(w)
      case Ok(db) =>
        var row := db.operations[o];
        var running := Attempt(o, owner, row.attempt, row.reference, FirstPhase(row.kind, row.reference));
        match call
        case NoEffect => Some(w)
        case ReplyLost => Some(w.(db := db))
        case Replied => Some(w.(db := db, attempts := w.attempts[a := running]))
  }

  function StepCreateMail(w: World, a: nat, id: Id, call: Call): Option<World> {
    if a !in w.attempts || w.attempts[a].phase != CreatingMail || (call != NoEffect && id in w.mailbox) then None
    else
      var created := w.(mailbox := w.mailbox[id := Mail(w.attempts[a].operation, true)]);
      match call
      case NoEffect => Some(Fail(w, a))
      case ReplyLost => Some(Fail(created, a))
      case Replied => Some(if id == [] then Fail(created, a) else Move(created, a, SavingMail(id)))
  }

  /** The checkpoint; the attempt learns the saved reference only from the reply. */
  function StepSaveReference(w: World, a: nat, call: Call): Option<World> {
    if a !in w.attempts || !(w.attempts[a].phase.SavingMail? || w.attempts[a].phase.SavingEvent?) then None
    else
      var x := w.attempts[a];
      var reference := if x.phase.SavingMail? then MessageReference(x.phase.message) else EventReference(x.phase.event);
      match CheckpointOperation(w.db, x.operation, x.owner, reference)
      case Err(_) => Some(Fail(w, a))
      case Ok(db) =>
        var saved := w.(db := db);
        match call
        case NoEffect => Some(Fail(w, a))
        case ReplyLost => Some(Fail(saved, a))
        case Replied =>
          var next := if x.phase.SavingMail? then Sending(x.phase.message) else Finishing(true, reference);
          Some(saved.(attempts := w.attempts[a := x.(latest := reference, phase := next)]))
  }

  function StepLookUp(w: World, a: nat, call: Call): Option<World> {
    if a !in w.attempts || !w.attempts[a].phase.LookingUp? then None
    else
      var m := w.attempts[a].phase.message;
      if call != Replied || m !in w.mailbox then Some(Fail(w, a))
      else if w.mailbox[m].isDraft then Some(Move(w, a, Sending(m)))
      else Some(Move(w, a, Finishing(true, w.attempts[a].latest)))
  }

  /** The remote side delivers every send request for a message it knows, and clears isDraft. */
  function StepSend(w: World, a: nat, call: Call): Option<World> {
    if a !in w.attempts || !w.attempts[a].phase.Sending? then None
    else
      var m := w.attempts[a].phase.message;
      if call == NoEffect || m !in w.mailbox then Some(Fail(w, a))
      else
        var sent := w.(mailbox := w.mailbox[m := w.mailbox[m].(isDraft := false)], sends := w.sends + [m]);
        if call == ReplyLost then Some(Fail(sent, a))
        else Some(Move(sent, a, Finishing(true, w.attempts[a].latest)))
  }

  /** The remote calendar returns the earlier event for a transaction id it has seen. */
  function StepCreateEvent(w: World, a: nat, id: Id, call: Call): Option<World> {
    if a !in w.attempts || w.attempts[a].phase != CreatingEvent || w.attempts[a].operation !in w.db.operations then None
    else
      var key := w.db.operations[w.attempts[a].operation].key;
      var event := if key in w.calendar then w.calendar[key] else id;
      var created := w.(calendar := w.calendar[key := event]);
      match call
      case NoEffect => Some(Fail(w, a))
      case ReplyLost => Some(Fail(created, a))
      case Replied => Some(if event == [] then Fail(created, a) else Move(created, a, SavingEvent(event)))
  }

  /** Recording the result ends the attempt, whether or not the transaction committed. */
  function StepFinish(w: World, a: nat, call: Call): Option<World> {
    if a !in w.attempts || !w.attempts[a].phase.Finishing? then None
    else
      var x := w.attempts[a];
      var ended := w.(attempts := w.attempts - {a});
      if call == NoEffect then Some(ended)
      else Some(AfterRequest(ended, FinishOperation(w.db, x.operation, x.owner, x.phase.completed, x.phase.result)))
  }

  function StepList(w: World, r: nat, o: OperationId, now: int): Option<World> {
    if r in w.listed || o !in w.db.operations || !Expired(w.db.operations[o], now) then None
    else
      var row := w.db.operations[o];
      Some(w.(listed := w.listed[r := Listed(o, row.leaseOwner, row.attempt, row.reference)]))
  }

  /** Recovery writes back the reference it listed, fenced by the lease owner alone. */
  function StepRecover(w: World, r: nat, call: Call): Option<World> {
    if r !in w.listed then None
    else
      var item := w.listed[r];
      var ended := w.(listed := w.listed - {r});
      if call == NoEffect then Some(ended)
      else Some(AfterRequest(ended, FinishOperation(w.db, item.operation, item.owner, false, item.reference)))
  }

  function PrepareRequest(db: Db, o: OperationId, d: DraftId): Result<Db, Error> {
    if HasOperation(db, d) then Ok(db)
    else if d !in db.drafts then Err(NotFound)
    else CreateOperation(db, o, d, KeyOf(d, db.drafts[d]))
  }

  function Step(w: World, l: Label): Option<World> {
    match l
    case SaveADraft(d, kind, run, hash) => Some(AfterRequest(w, SaveDraft(w.db, d, kind, run, hash)))
    case Submit(d) => Some(AfterRequest(w, SubmitForConfirmation(w.db, d)))
    case Confirm(d, approve) => Some(AfterRequest(w, Decide(w.db, d, approve)))
    case Delete(d) => Some(AfterRequest(w, DeleteDraft(w.db, d)))
    case Prepare(o, d) => Some(AfterRequest(w, PrepareRequest(w.db, o, d)))
    case Claim(a, o, owner, until, call) => StepClaim(w, a, o, owner, until, call)
    case CreateMail(a, id, call) => StepCreateMail(w, a, id, call)
    case SaveReference(a, call) => StepSaveReference(w, a, call)
    case LookUp(a, call) => StepLookUp(w, a, call)
    case Send(a, call) => StepSend(w, a, call)
    case CreateEvent(a, id, call) => StepCreateEvent(w, a, id, call)
    case Finish(a, call) => StepFinish(w, a, call)
    case Crash(a) => if a in w.attempts then Some(w.(attempts := w.attempts - {a})) else None
    case List(r, o, now) => StepList(w, r, o, now)
    case Recover(r, call) => StepRecover(w, r, call)
  }

  // ---------------------------------------------------------------- assumption

  predicate Live(w: World, o: OperationId) {
    exists a | a in w.attempts :: w.attempts[a].operation == o
  }

  /** An attempt has returned or crashed before its expired lease is listed. */
  predicate ListedInTime(w: World, l: Label) {
    l.List? ==> !Live(w, l.operation)
  }

  /** A listing is not acted upon after a later claim. */
  predicate RecoveredInTime(w: World, l: Label) {
    l.Recover? && l.recoverer in w.listed && l.call != NoEffect
    && HoldsLease(w.db, w.listed[l.recoverer].operation, w.listed[l.recoverer].owner)
    ==> w.db.operations[w.listed[l.recoverer].operation].attempt == w.listed[l.recoverer].number
  }

  /** What the lease duration is there to provide. */
  predicate Timely(w: World, l: Label) { ListedInTime(w, l) && RecoveredInTime(w, l) }

  /** A rule is kept by every step of a run. */
  ghost predicate Every(rule: (World, Label) -> bool, w: World, labels: seq<Label>)
    decreases |labels|
  {
    labels == [] || (rule(w, labels[0]) && (Step(w, labels[0]).Some? ==>
      Every(rule, Step(w, labels[0]).value, labels[1..])))
  }

  ghost function Run(w: World, labels: seq<Label>): Option<World>
    decreases |labels|
  {
    if labels == [] then Some(w)
    else
      match Step(w, labels[0])
      case Some(next) => Run(next, labels[1..])
      case None => None
  }

  ghost predicate TimelyRun(w: World, labels: seq<Label>) { Every(Timely, w, labels) }

  // ---------------------------------------------------------------- invariant

  predicate Names(w: World, o: OperationId, reference: string) {
    exists m | m in w.mailbox :: w.mailbox[m].operation == o && reference == MessageReference(m)
  }

  predicate NamesSent(w: World, o: OperationId, reference: string) {
    exists m | m in w.mailbox :: w.mailbox[m].operation == o && m in w.sends && reference == MessageReference(m)
  }

  predicate NamesEvent(w: World, key: IdempotencyKey, reference: string) {
    key in w.calendar && reference == EventReference(w.calendar[key])
  }

  predicate OnRecord(db: Db, draftId: DraftId) {
    DraftEvent(draftId, PendingConfirmation, Approved) in db.draftLog
  }

  /** Sent messages are exactly those no longer drafts, and none was sent twice. */
  ghost predicate Mailbox(w: World) {
    && (forall m | m in w.sends :: m in w.mailbox)
    && (forall m | m in w.mailbox :: w.mailbox[m].isDraft <==> m !in w.sends)
    && (forall i, j | 0 <= i < j < |w.sends| :: w.sends[i] != w.sends[j])
  }

  /** Nothing reaches the remote side without an approval on record. */
  ghost predicate Approvals(w: World) {
    && (forall m | m in w.mailbox ::
          var o := w.mailbox[m].operation;
          o in w.db.operations && w.db.operations[o].kind == Email && OnRecord(w.db, w.db.operations[o].draftId))
    && (forall key | key in w.calendar :: OnRecord(w.db, key.draftId))
  }

  /** A row's reference names something made for the operation; once a message is sent, the row keeps naming it. */
  ghost predicate Settled(w: World, o: OperationId)
    requires o in w.db.operations
  {
    var row := w.db.operations[o];
    && (row.reference == "" || if row.kind == Email then Names(w, o, row.reference)
         else NamesEvent(w, row.key, row.reference))
    && (row.status == OpCompleted ==>
          if row.kind == Email then NamesSent(w, o, row.reference) else NamesEvent(w, row.key, row.reference))
    && (forall m | m in w.mailbox && w.mailbox[m].operation == o && m in w.sends ::
         row.reference == MessageReference(m))
  }

  /** What a live attempt may rely on: it alone holds the lease, so the row is as it left it. */
  ghost predicate Sound(w: World, x: Attempt)
    requires x.operation in w.db.operations
  {
    var row := w.db.operations[x.operation];
    && row.status == OpExecuting && row.leaseOwner == x.owner && row.attempt == x.number
    && (x.latest == "" || x.latest == row.reference)
    && match x.phase
       case CreatingMail => row.kind == Email && row.reference == ""
       case SavingMail(m) => row.kind == Email && row.reference == "" && m in w.mailbox
         && w.mailbox[m] == Mail(x.operation, true)
       case LookingUp(m) =>
         && row.kind == Email && row.reference == x.latest == MessageReference(m)
         && m in w.mailbox && w.mailbox[m].operation == x.operation
       case Sending(m) =>
         && row.kind == Email && row.reference == x.latest == MessageReference(m)
         && m in w.mailbox && w.mailbox[m] == Mail(x.operation, true)
       case CreatingEvent => row.kind == Calendar && row.reference == ""
       case SavingEvent(e) => row.kind == Calendar && row.reference == "" && row.key in w.calendar
         && w.calendar[row.key] == e
       case Finishing(completed, result) =>
         && result == x.latest
         && (result == "" ==> !completed && AllDrafts(w, x.operation))
         && (completed ==> if row.kind == Email then NamesSent(w, x.operation, result)
              else NamesEvent(w, row.key, result))
  }

  predicate AllDrafts(w: World, o: OperationId) {
    forall m | m in w.mailbox && w.mailbox[m].operation == o :: w.mailbox[m].isDraft
  }

  /** A listing either describes a later claim's past or still describes the row, with nobody at work on it. */
  ghost predicate Current(w: World, item: Listed)
    requires item.operation in w.db.operations
  {
    var row := w.db.operations[item.operation];
    && item.number <= row.attempt
    && (row.status == OpExecuting && row.attempt == item.number ==>
         row.reference == item.reference && !Live(w, item.operation))
  }

  /** Everything that concerns one operation. */
  ghost predicate Tended(w: World, o: OperationId)
    requires o in w.db.operations
  {
    && Settled(w, o)
    && (forall a | a in w.attempts && w.attempts[a].operation == o :: Sound(w, w.attempts[a]))
    && (forall a, b | a in w.attempts && b in w.attempts && w.attempts[a].operation == o
         && w.attempts[b].operation == o :: a == b)
    && (forall r | r in w.listed && w.listed[r].operation == o :: Current(w, w.listed[r]))
  }

  ghost predicate Known(w: World) {
    && (forall a | a in w.attempts :: w.attempts[a].operation in w.db.operations)
    && (forall r | r in w.listed :: w.listed[r].operation in w.db.operations)
  }

  ghost predicate Inv(w: World) {
    && Consistent(w.db)
    && Mailbox(w)
    && Approvals(w)
    && Known(w)
    && (forall o | o in w.db.operations :: Tended(w, o))
  }
}
