/** The two timing rules are independent: runs that keep one of them and send twice. */
module OfficeRefutations {
  import opened Common
  import opened OfficeStore
  import opened OfficeProtocol
  import opened OfficeRuns
  import opened OfficeSafety

  predicate Runnable(w: World, o: OperationId) {
    && o in w.db.operations && w.db.operations[o].draftId in w.db.drafts
    && w.db.operations[o].status in {OpPending, OpFailed}
    && w.db.operations[o].kind == Email && w.db.operations[o].reference == ""
    && w.db.drafts[w.db.operations[o].draftId].status == ExpectedDraftStatus(w.db.operations[o].status)
  }

  predicate Running(w: World, o: OperationId, owner: string) {
    && HoldsLease(w.db, o, owner) && w.db.operations[o].draftId in w.db.drafts
    && w.db.operations[o].leaseUntil == Some(0) && w.db.operations[o].kind == Email
    && w.db.drafts[w.db.operations[o].draftId].status == Executing
  }

  lemma ClaimRuns(w: World, a: nat, o: OperationId, owner: string)
    requires Runnable(w, o) && a !in w.attempts
    ensures var n := w.db.operations[o].attempt + 1; var next := Step(w, Claim(a, o, owner, 0, Replied));
      && next.Some? && next.value == w.(db := next.value.db,
           attempts := w.attempts[a := Attempt(o, owner, n, "", CreatingMail)])
      && Running(next.value, o, owner) && next.value.db.operations[o].reference == ""
           && next.value.db.operations[o].attempt == n
      && Step(w, Claim(a, o, owner, 0, ReplyLost)) == Some(w.(db := next.value.db))
  {
  }

  lemma CreateMailRuns(w: World, a: nat, o: OperationId, owner: string, n: nat, id: Id)
    requires a in w.attempts && w.attempts[a] == Attempt(o, owner, n, "", CreatingMail) && id !in w.mailbox && id != []
    ensures Step(w, CreateMail(a, id, Replied)) ==
      Some(w.(mailbox := w.mailbox[id := Mail(o, true)],
        attempts := w.attempts[a := Attempt(o, owner, n, "", SavingMail(id))]))
  {
  }

  lemma SaveRuns(w: World, a: nat, o: OperationId, owner: string, n: nat, id: Id)
    requires Running(w, o, owner) && a in w.attempts && w.attempts[a] == Attempt(o, owner, n, "", SavingMail(id))
    ensures var next := Step(w, SaveReference(a, Replied));
      && next.Some? && Running(next.value, o, owner)
      && next.value == w.(db := next.value.db,
           attempts := w.attempts[a := Attempt(o, owner, n, MessageReference(id), Sending(id))])
  {
    hide MessageReference;
  }

  lemma SendRuns(w: World, a: nat, id: Id)
    requires a in w.attempts && w.attempts[a].phase == Sending(id) && id in w.mailbox
    ensures var next, x := Step(w, Send(a, Replied)), w.attempts[a];
      && next.Some?
      && next.value == w.(mailbox := w.mailbox[id := w.mailbox[id].(isDraft := false)], sends := w.sends + [id],
                          attempts := w.attempts[a := x.(phase := Finishing(true, x.latest))])
  {
  }

  lemma SaveAndSendRuns(w: World, a: nat, o: OperationId, owner: string, n: nat, id: Id)
    requires Running(w, o, owner) && a in w.attempts && w.attempts[a] == Attempt(o, owner, n, "", SavingMail(id))
    requires id in w.mailbox && w.mailbox[id] == Mail(o, true)
    ensures var labels := [SaveReference(a, Replied), Send(a, Replied)]; var next := Run(w, labels);
      && next.Some? && Running(next.value, o, owner)
      && next.value.sends == w.sends + [id] && next.value.mailbox == w.mailbox[id := Mail(o, false)]
      && next.value.listed == w.listed && next.value.attempts.Keys == w.attempts.Keys
      && (forall b | b in w.attempts && b != a :: next.value.attempts[b] == w.attempts[b])
  {
    hide Step, MessageReference;
    SaveRuns(w, a, o, owner, n, id);
    var w1 := Step(w, SaveReference(a, Replied)).value;
    SendRuns(w1, a, id);
    RunCons(w1, Send(a, Replied), []);
    RunCons(w, SaveReference(a, Replied), [Send(a, Replied)]);
  }

  function Execution(a: nat, o: OperationId, owner: string, id: Id): seq<Label> {
    [Claim(a, o, owner, 0, Replied)] + ([CreateMail(a, id, Replied)] + [SaveReference(a, Replied), Send(a, Replied)])
  }

  /** An undisturbed attempt at an operation without a reference delivers the message it creates. */
  lemma ExecutionDelivers(w: World, a: nat, o: OperationId, owner: string, id: Id)
    requires Runnable(w, o) && a !in w.attempts && id !in w.mailbox && id != []
    ensures var next := Run(w, Execution(a, o, owner, id));
      && next.Some? && Running(next.value, o, owner)
      && next.value.sends == w.sends + [id] && next.value.mailbox == w.mailbox[id := Mail(o, false)]
      && next.value.listed == w.listed && next.value.attempts.Keys == w.attempts.Keys + {a}
      && (forall b | b in w.attempts :: next.value.attempts[b] == w.attempts[b])
  {
    hide Step, Runnable, Run, MessageReference;
    ClaimRuns(w, a, o, owner);
    var w1 := Step(w, Claim(a, o, owner, 0, Replied)).value;
    CreateMailRuns(w1, a, o, owner, w1.db.operations[o].attempt, id);
    var w2 := Step(w1, CreateMail(a, id, Replied)).value;
    SaveAndSendRuns(w2, a, o, owner, w1.db.operations[o].attempt, id);
    RunCons(w1, CreateMail(a, id, Replied), [SaveReference(a, Replied), Send(a, Replied)]);
    RunCons(w, Claim(a, o, owner, 0, Replied),
      [CreateMail(a, id, Replied)] + [SaveReference(a, Replied), Send(a, Replied)]);
  }

  lemma ListRuns(w: World, r: nat, o: OperationId, owner: string)
    requires Running(w, o, owner) && r !in w.listed
    ensures var row := w.db.operations[o];
      Step(w, List(r, o, 0)) == Some(w.(listed := w.listed[r := Listed(o, owner, row.attempt, row.reference)]))
  {
  }

  /** Recovery accepted by the owner fence makes the operation runnable again under the listed reference. */
  lemma RecoverRuns(w: World, r: nat, o: OperationId, owner: string)
    requires Running(w, o, owner) && r in w.listed && w.listed[r].operation == o && w.listed[r].owner == owner
      && w.listed[r].reference == ""
    ensures var next := Step(w, Recover(r, Replied));
      next.Some? && Runnable(next.value, o) && next.value == w.(db := next.value.db, listed := w.listed - {r})
  {
  }

  const PREPARED := World(
    Db(map["d" := DraftRow(Email, Approved, "run", "hash")],
       map["o" := OperationRow("d", Email, OpPending, IdempotencyKey("d", "hash"), 0, "", None, "")],
       [DraftEvent("d", Draft, PendingConfirmation), DraftEvent("d", PendingConfirmation, Approved)],
       [OperationEvent("o", None, OpPending, 0)]),
    map[], [], map[], map[], map[])

  const PREPARATION := [SaveADraft("d", Email, "run", "hash"), Submit("d"), Confirm("d", true), Prepare("o", "d")]

  const W1 := START.(db := Db(map["d" := DraftRow(Email, Draft, "run", "hash")], map[], [], []))

  const W2 := START.(db := Db(map["d" := DraftRow(Email, PendingConfirmation, "run", "hash")], map[],
                              [DraftEvent("d", Draft, PendingConfirmation)], []))

  const W3 := START.(db := Db(map["d" := DraftRow(Email, Approved, "run", "hash")], map[], PREPARED.db.draftLog, []))

  lemma PreparationRequests()
    ensures SaveDraft(EMPTY, "d", Email, "run", "hash") == Ok(W1.db)
    ensures SubmitForConfirmation(W1.db, "d") == Ok(W2.db)
    ensures Decide(W2.db, "d", true) == Ok(W3.db)
    ensures PrepareRequest(W3.db, "o", "d") == Ok(PREPARED.db)
  {
    assert W1.db.drafts["d" := DraftRow(Email, PendingConfirmation, "run", "hash")] == W2.db.drafts;
    assert W1.db.draftLog + [DraftEvent("d", Draft, PendingConfirmation)] == W2.db.draftLog;
    assert W2.db.drafts["d" := DraftRow(Email, Approved, "run", "hash")] == W3.db.drafts;
    assert W2.db.draftLog + [DraftEvent("d", PendingConfirmation, Approved)] == W3.db.draftLog;
    assert !HasOperation(W3.db, "d") && !HasKey(W3.db, IdempotencyKey("d", "hash"));
    assert W3.db.operations["o" := PREPARED.db.operations["o"]] == PREPARED.db.operations;
    assert W3.db.operationLog + [OperationEvent("o", None, OpPending, 0)] == PREPARED.db.operationLog;
  }

  lemma PreparedIsReached()
    ensures Run(START, PREPARATION) == Some(PREPARED)
  {
    hide SaveDraft, SubmitForConfirmation, Decide, PrepareRequest, Run;
    PreparationRequests();
    RunNothing(PREPARED);
    RunCons(W3, Prepare("o", "d"), []);
    RunCons(W2, Confirm("d", true), [Prepare("o", "d")]);
    RunCons(W1, Submit("d"), [Confirm("d", true), Prepare("o", "d")]);
    RunCons(START, SaveADraft("d", Email, "run", "hash"), [Submit("d"), Confirm("d", true), Prepare("o", "d")]);
    assert PREPARATION == [SaveADraft("d", Email, "run", "hash")] +
      [Submit("d"), Confirm("d", true), Prepare("o", "d")];
    assert [Submit("d"), Confirm("d", true), Prepare("o", "d")] ==
      [Submit("d")] + [Confirm("d", true), Prepare("o", "d")];
    assert [Confirm("d", true), Prepare("o", "d")] == [Confirm("d", true)] + [Prepare("o", "d")];
    assert [Prepare("o", "d")] == [Prepare("o", "d")] + [];
  }

  lemma PreparedFacts()
    ensures Runnable(PREPARED, "o") && PREPARED.db.operations["o"].attempt == 0
    ensures PREPARED == World(PREPARED.db, map[], [], map[], map[], map[])
  {
  }

  lemma TwoDelivered(w: World, o: OperationId, m: Id, n: Id)
    requires w.sends == [m, n] && m in w.mailbox && n in w.mailbox
    requires w.mailbox[m].operation == o && w.mailbox[n].operation == o
    ensures |Delivered(w, o)| == 2
  {
    assert w.sends[1..] == [n] && [n][1..] == [];
    assert DeliveredOf([n], w.mailbox, o) == [n];
  }

  /** An attempt creates its message, stalls, and is recovered while still at work. */
  lemma StalledAttempt() returns (labels: seq<Label>, w: World)
    ensures Run(PREPARED, labels) == Some(w) && Every(RecoveredInTime, PREPARED, labels) && Runnable(w, "o")
    ensures w.attempts.Keys == {1} && w.attempts[1] == Attempt("o", "worker", w.attempts[1].number, "", SavingMail([1]))
    ensures w.mailbox == map[[1] := Mail("o", true)] && w.sends == []
  {
    var l1, l2, l3, l4 := Claim(1, "o", "worker", 0, Replied), CreateMail(1, [1], Replied), List(7, "o", 0),
      Recover(7, Replied);
    hide Step, Run, Runnable, Every, PREPARED, MessageReference;
    PreparedFacts();
    ClaimRuns(PREPARED, 1, "o", "worker");
    var w1 := Step(PREPARED, l1).value;
    CreateMailRuns(w1, 1, "o", "worker", 1, [1]);
    var w2 := Step(w1, l2).value;
    assert w2.mailbox == map[[1] := Mail("o", true)];
    ListRuns(w2, 7, "o", "worker");
    var w3 := Step(w2, l3).value;
    RecoverRuns(w3, 7, "o", "worker");
    w := Step(w3, l4).value;
    assert RecoveredInTime(PREPARED, l1) && RecoveredInTime(w1, l2) && RecoveredInTime(w2, l3)
      && RecoveredInTime(w3, l4);
    hide RecoveredInTime, Running;
    labels := FourSteps(RecoveredInTime, PREPARED, w1, w2, w3, w, l1, l2, l3, l4);
  }

  /** Four steps of a run that keep a rule. */
  lemma FourSteps(rule: (World, Label) -> bool, w0: World, w1: World, w2: World, w3: World, w4: World,
                  l1: Label, l2: Label, l3: Label, l4: Label)
    returns (labels: seq<Label>)
    requires Step(w0, l1) == Some(w1) && Step(w1, l2) == Some(w2) && Step(w2, l3) == Some(w3)
      && Step(w3, l4) == Some(w4)
    requires rule(w0, l1) && rule(w1, l2) && rule(w2, l3) && rule(w3, l4)
    ensures Run(w0, labels) == Some(w4) && Every(rule, w0, labels)
  {
    hide Step;
    RunNothing(w4);
    RunCons(w3, l4, []);
    EveryCons(rule, w3, l4, []);
    RunCons(w2, l3, [l4] + []);
    EveryCons(rule, w2, l3, [l4] + []);
    RunCons(w1, l2, [l3] + ([l4] + []));
    EveryCons(rule, w1, l2, [l3] + ([l4] + []));
    labels := [l1] + ([l2] + ([l3] + ([l4] + [])));
    RunCons(w0, l1, [l2] + ([l3] + ([l4] + [])));
    EveryCons(rule, w0, l1, [l2] + ([l3] + ([l4] + [])));
  }

  /** A run goes on, keeping a rule. */
  lemma GoesOn(rule: (World, Label) -> bool, start: World, before: seq<Label>, w: World, after: seq<Label>, next: World)
    requires Run(start, before) == Some(w) && Every(rule, start, before)
    requires Run(w, after) == Some(next) && Every(rule, w, after)
    ensures Run(start, before + after) == Some(next) && Every(rule, start, before + after)
  {
    hide Run, Every;
    RunAppend(start, before, after);
    EveryAppend(rule, start, before, after);
  }

  lemma QuietParts(a: nat, o: OperationId, owner: string, id: Id)
    ensures Quiet(PREPARATION) && Quiet(Execution(a, o, owner, id))
      && Quiet([SaveReference(a, Replied), Send(a, Replied)])
  {
  }

  /** Recovering the lease of an attempt still at work delivers twice, although every recovery acts on a listing
      of the current claim: its worker claims again under the same owner name, so the fence lets the old attempt
      through.  The rule about listing is needed. */
  lemma RecoveringLiveAttemptSendsTwice() returns (labels: seq<Label>)
    ensures Run(START, labels).Some? && |Delivered(Run(START, labels).value, "o")| == 2
    ensures Every(RecoveredInTime, START, labels)
  {
    hide Run, Step, Execution, Runnable, Running, PREPARED, PREPARATION, Every, Quiet;
    var again, last := Execution(2, "o", "worker", [2]), [SaveReference(1, Replied), Send(1, Replied)];
    QuietParts(1, "o", "worker", [1]);
    QuietParts(2, "o", "worker", [2]);
    PreparedIsReached();
    QuietKeepsRules(RecoveredInTime, START, PREPARATION);
    var before, w := StalledAttempt();
    GoesOn(RecoveredInTime, START, PREPARATION, PREPARED, before, w);
    ExecutionDelivers(w, 2, "o", "worker", [2]);
    var w2 := Run(w, again).value;
    QuietKeepsRules(RecoveredInTime, w, again);
    GoesOn(RecoveredInTime, START, PREPARATION + before, w, again, w2);
    SaveAndSendRuns(w2, 1, "o", "worker", w2.attempts[1].number, [1]);
    QuietKeepsRules(RecoveredInTime, w2, last);
    GoesOn(RecoveredInTime, START, PREPARATION + before + again, w2, last, Run(w2, last).value);
    labels := PREPARATION + before + again + last;
    TwoDelivered(Run(w2, last).value, "o", [2], [1]);
  }

  /** Stronger than the rule about listing: nobody is at work at any listing, nor at any recovery. */
  predicate NobodyAtWork(w: World, l: Label) {
    && ListedInTime(w, l)
    && (l.Recover? && l.recoverer in w.listed ==> !Live(w, w.listed[l.recoverer].operation))
  }

  /** Two recoveries list the same expired lease after its attempt has crashed; one acts at once. */
  lemma TwoListings() returns (labels: seq<Label>, w: World)
    ensures Run(PREPARED, labels) == Some(w) && Every(NobodyAtWork, PREPARED, labels) && Runnable(w, "o")
    ensures w.attempts == map[] && w.mailbox == map[] && w.sends == []
    ensures w.listed == map[8 := Listed("o", "worker", 1, "")]
  {
    hide Step, Run, Runnable, Running, Every, PREPARED;
    PreparedFacts();
    var l1, l2, l3, l4 := Claim(1, "o", "worker", 0, ReplyLost), List(7, "o", 0), List(8, "o", 0), Recover(7, Replied);
    ClaimRuns(PREPARED, 1, "o", "worker");
    var w1 := Step(PREPARED, l1).value;
    ListRuns(w1, 7, "o", "worker");
    var w2 := Step(w1, l2).value;
    ListRuns(w2, 8, "o", "worker");
    var w3 := Step(w2, l3).value;
    RecoverRuns(w3, 7, "o", "worker");
    w := Step(w3, l4).value;
    assert w.listed == map[8 := Listed("o", "worker", 1, "")];
    assert NobodyAtWork(PREPARED, l1) && NobodyAtWork(w1, l2) && NobodyAtWork(w2, l3) && NobodyAtWork(w3, l4);
    hide NobodyAtWork;
    labels := FourSteps(NobodyAtWork, PREPARED, w1, w2, w3, w, l1, l2, l3, l4);
  }

  lemma CrashRuns(w: World, a: nat)
    requires a in w.attempts
    ensures Run(w, [Crash(a)]) == Some(w.(attempts := w.attempts - {a})) && Quiet([Crash(a)])
    ensures forall o, owner | Running(w, o, owner) :: Running(w.(attempts := w.attempts - {a}), o, owner)
  {
    RunCons(w, Crash(a), []);
    assert [Crash(a)] + [] == [Crash(a)];
  }

  /** Acting on a listing after a later claim by the same worker delivers twice, although nobody is at work at any
      listing or recovery: the old listing erases the reference of the message already sent.  The rule about
      recovering is needed. */
  lemma StaleListingSendsTwice() returns (labels: seq<Label>)
    ensures Run(START, labels).Some? && |Delivered(Run(START, labels).value, "o")| == 2
    ensures Every(NobodyAtWork, START, labels)
  {
    hide Run, Step, Execution, Runnable, Running, PREPARED, PREPARATION, Every, Quiet, NobodyAtWork;
    NobodyRule();
    PreparedIsReached();
    QuietParts(2, "o", "worker", [2]);
    QuietParts(3, "o", "worker", [3]);
    QuietKeepsRules(NobodyAtWork, START, PREPARATION);
    var before, w := TwoListings();
    GoesOn(NobodyAtWork, START, PREPARATION, PREPARED, before, w);
    var again, last := Execution(2, "o", "worker", [2]), Execution(3, "o", "worker", [3]);
    ExecutionDelivers(w, 2, "o", "worker", [2]);
    var w2 := Run(w, again).value;
    QuietKeepsRules(NobodyAtWork, w, again);
    GoesOn(NobodyAtWork, START, PREPARATION + before, w, again, w2);
    CrashRuns(w2, 2);
    var w3 := w2.(attempts := w2.attempts - {2});
    QuietKeepsRules(NobodyAtWork, w2, [Crash(2)]);
    GoesOn(NobodyAtWork, START, PREPARATION + before + again, w2, [Crash(2)], w3);
    var w4 := StaleRecovery(w3);
    GoesOn(NobodyAtWork, START, PREPARATION + before + again + [Crash(2)], w3, [Recover(8, Replied)], w4);
    ExecutionDelivers(w4, 3, "o", "worker", [3]);
    QuietKeepsRules(NobodyAtWork, w4, last);
    labels := PREPARATION + before + again + [Crash(2)] + [Recover(8, Replied)] + last;
    GoesOn(NobodyAtWork, START, PREPARATION + before + again + [Crash(2)] + [Recover(8, Replied)], w4, last,
      Run(w4, last).value);
    TwoDelivered(Run(w4, last).value, "o", [2], [3]);
  }

  lemma NobodyRule()
    ensures forall w: World, l: Label | !l.List? && !l.Recover? :: NobodyAtWork(w, l)
  {
  }

  lemma StaleRecovery(w: World) returns (next: World)
    requires Running(w, "o", "worker") && w.attempts == map[] && 8 in w.listed
      && w.listed[8] == Listed("o", "worker", 1, "")
    ensures Run(w, [Recover(8, Replied)]) == Some(next) && Every(NobodyAtWork, w, [Recover(8, Replied)])
    ensures Runnable(next, "o") && next == w.(db := next.db, listed := w.listed - {8})
  {
    hide Runnable, Running;
    RecoverRuns(w, 8, "o", "worker");
    next := Step(w, Recover(8, Replied)).value;
    assert NobodyAtWork(w, Recover(8, Replied));
    hide Step, NobodyAtWork;
    RunNothing(next);
    RunCons(w, Recover(8, Replied), []);
    EveryCons(NobodyAtWork, w, Recover(8, Replied), []);
    assert [Recover(8, Replied)] + [] == [Recover(8, Replied)];
  }
}
