/** A timing rule weaker than the one of OfficeProtocol under which every email operation still sends once.
    It asks what an early recovery can do harm to: an attempt that could yet send, or write an older
    reference back, while the reference to be restored would let another attempt do the same. */
module OfficeTiming {
  import opened Common
  import opened OfficeStore
  import opened OfficeProtocol
  import opened OfficeSafety
  import opened OfficeAudit
  import opened OfficeOwnership
  import GraphReference

  // ---------------------------------------------------------------- who can do harm

  predicate SentFor(w: World, o: OperationId, m: Id) {
    IsFor(w, o, m) && m in w.sends
  }

  /** A stored reference that the executor refuses to decode. */
  predicate Unreadable(reference: string) {
    reference != "" && GraphReference.Decode(reference, "message").None?
  }

  /** A reference under which no attempt sends anything: it is refused, or it names a message already sent. */
  predicate Closed(w: World, o: OperationId, reference: string) {
    Unreadable(reference) || NamesSent(w, o, reference)
  }

  /** An attempt that will not send and will write nothing back but a closed reference. */
  predicate Harmless(w: World, x: Attempt) {
    && Closed(w, x.operation, x.latest)
    && (x.phase.Finishing? || (x.phase.LookingUp? && x.phase.message in w.sends))
  }

  predicate Menace(w: World, o: OperationId, a: nat) {
    a in w.attempts && w.attempts[a].operation == o && !Harmless(w, w.attempts[a])
  }

  /** Some attempt at the operation can still do harm. */
  ghost predicate Menacing(w: World, o: OperationId) {
    exists a :: Menace(w, o, a)
  }

  /** The rule for one email operation: while an attempt can do harm only a closed reference may be listed, and
      while one can or a message was sent only a closed reference may be restored. */
  ghost predicate Prudent(w: World, l: Label, o: OperationId) {
    o in w.db.operations && w.db.operations[o].kind == Email ==>
      match l
      case List(_, p, _) => p == o && Menacing(w, o) ==> Closed(w, o, w.db.operations[o].reference)
      case Recover(r, call) =>
        r in w.listed && w.listed[r].operation == o && call != NoEffect && HoldsLease(w.db, o, w.listed[r].owner)
        && (Menacing(w, o) || Delivered(w, o) != [])
        ==> Closed(w, o, w.listed[r].reference)
      case _ => true
  }

  ghost predicate PrudentRun(w: World, labels: seq<Label>, o: OperationId)
    decreases |labels|
  {
    labels == []
    || (Prudent(w, labels[0], o) && (Step(w, labels[0]).Some? ==> PrudentRun(Step(w, labels[0]).value, labels[1..], o)))
  }

  // ---------------------------------------------------------------- the invariant of one operation

  /** Once a message was sent nobody can do harm and the row's reference is closed; it also is whenever a new
      claim could meet an attempt that can do harm. */
  ghost predicate Guarded(w: World, o: OperationId)
    requires o in w.db.operations
  {
    var row := w.db.operations[o];
    && |Delivered(w, o)| <= 1
    && (Delivered(w, o) != [] ==> !Menacing(w, o) && Closed(w, o, row.reference))
    && (Menacing(w, o) && row.status != OpExecuting ==> Closed(w, o, row.reference))
  }

  /** At most one attempt can do harm; its row holds what it last saved, or a closed reference. */
  ghost predicate OneMenace(w: World, o: OperationId)
    requires o in w.db.operations
  {
    && (forall a, b | Menace(w, o, a) && Menace(w, o, b) :: a == b)
    && (forall a | Menace(w, o, a) && w.attempts[a].latest != "" ::
          w.db.operations[o].reference == w.attempts[a].latest || Closed(w, o, w.db.operations[o].reference))
  }

  /** A listing that still describes its row restores a closed reference where an open one could do harm. */
  ghost predicate Covered(w: World, o: OperationId, item: Listed)
    requires o in w.db.operations
  {
    var row := w.db.operations[o];
    row.status == OpExecuting && item.number == row.attempt && (Menacing(w, o) || Delivered(w, o) != [])
    ==> Closed(w, o, item.reference)
  }

  ghost predicate AllCovered(w: World, o: OperationId)
    requires o in w.db.operations
  {
    forall r | r in w.listed && w.listed[r].operation == o :: Covered(w, o, w.listed[r])
  }

  ghost predicate Tame(w: World, o: OperationId)
    requires o in w.db.operations
  {
    Guarded(w, o) && OneMenace(w, o) && AllCovered(w, o)
  }

  /** What a run that is prudent about one operation keeps of it. */
  ghost predicate Kept(w: World, o: OperationId) {
    o in w.db.operations && w.db.operations[o].kind == Email ==> Tame(w, o)
  }

  // ---------------------------------------------------------------- delivered messages

  lemma {:induction false} DeliveredHas(sends: seq<Id>, mailbox: map<Id, Mail>, o: OperationId, m: Id)
    ensures m in DeliveredOf(sends, mailbox, o) <==> m in sends && m in mailbox && mailbox[m].operation == o
  {
    if sends != [] {
      assert sends == [sends[0]] + sends[1..];
      DeliveredHas(sends[1..], mailbox, o, m);
    }
  }

  lemma {:induction false} DeliveredSame(sends: seq<Id>, before: map<Id, Mail>, after: map<Id, Mail>, o: OperationId)
    requires forall m | m in sends :: (m in before && before[m].operation == o) <==>
      (m in after && after[m].operation == o)
    ensures DeliveredOf(sends, before, o) == DeliveredOf(sends, after, o)
  {
    if sends != [] {
      assert sends[0] in sends && forall m | m in sends[1..] :: m in sends;
      DeliveredSame(sends[1..], before, after, o);
    }
  }

  lemma {:induction false} DeliveredAppend(sends: seq<Id>, more: seq<Id>, mailbox: map<Id, Mail>, o: OperationId)
    ensures DeliveredOf(sends + more, mailbox, o) == DeliveredOf(sends, mailbox, o) + DeliveredOf(more, mailbox, o)
  {
    if sends == [] {
      assert sends + more == more;
    } else {
      assert (sends + more)[1..] == sends[1..] + more;
      DeliveredAppend(sends[1..], more, mailbox, o);
    }
  }

  /** One more send adds one delivered message to one operation. */
  lemma DeliveredSent(w: World, next: World, o: OperationId, m: Id)
    requires m in w.mailbox && next.sends == w.sends + [m]
    requires next.mailbox == w.mailbox[m := w.mailbox[m].(isDraft := false)]
    ensures Delivered(next, o) == Delivered(w, o) + if w.mailbox[m].operation == o then [m] else []
  {
    DeliveredAppend(w.sends, [m], next.mailbox, o);
    DeliveredSame(w.sends, w.mailbox, next.mailbox, o);
    assert [m][1..] == [];
    assert DeliveredOf([m], next.mailbox, o) == if w.mailbox[m].operation == o then [m] else [];
  }

  /** What was sent for an operation is what was delivered. */
  lemma SentIsDelivered(w: World, o: OperationId, m: Id)
    ensures m in Delivered(w, o) <==> SentFor(w, o, m)
  {
    DeliveredHas(w.sends, w.mailbox, o, m);
  }

  lemma NamedWasSent(w: World, o: OperationId, reference: string) returns (m: Id)
    requires NamesSent(w, o, reference)
    ensures SentFor(w, o, m) && reference == MessageReference(m) != "" && Delivered(w, o) != []
  {
    hide Delivered;
    m :| m in w.mailbox && w.mailbox[m].operation == o && m in w.sends && reference == MessageReference(m);
    SentIsDelivered(w, o, m);
    ReferenceFacts(m, m);
  }

  lemma SentIsNamed(w: World, o: OperationId, m: Id)
    requires SentFor(w, o, m)
    ensures NamesSent(w, o, MessageReference(m)) && Closed(w, o, MessageReference(m)) && Delivered(w, o) != []
  {
    hide MessageReference, Delivered;
    SentIsDelivered(w, o, m);
  }

  lemma EmptyIsOpen(w: World, o: OperationId)
    ensures !Closed(w, o, "")
  {
    if NamesSent(w, o, "") {
      var m := NamedWasSent(w, o, "");
      assert false;
    }
  }

  // ---------------------------------------------------------------- what closed and harmless depend on

  /** The same messages were sent for the operation. */
  ghost predicate SameSent(w: World, next: World, o: OperationId) {
    && (forall m :: SentFor(next, o, m) <==> SentFor(w, o, m))
    && Delivered(next, o) == Delivered(w, o)
  }

  lemma ClosedAlike(w: World, next: World, o: OperationId, reference: string)
    requires SameSent(w, next, o)
    ensures Closed(next, o, reference) <==> Closed(w, o, reference)
  {
    hide Delivered, Unreadable;
    if NamesSent(w, o, reference) {
      var m := NamedWasSent(w, o, reference);
      SentIsNamed(next, o, m);
    }
    if NamesSent(next, o, reference) {
      var m := NamedWasSent(next, o, reference);
      SentIsNamed(w, o, m);
    }
  }

  /** An attempt looking up a message looks up one of its own. */
  predicate LooksAtOwn(w: World, x: Attempt) {
    x.phase.LookingUp? ==> IsFor(w, x.operation, x.phase.message)
  }

  lemma HarmlessAlike(w: World, next: World, x: Attempt)
    requires SameSent(w, next, x.operation) && LooksAtOwn(w, x) && LooksAtOwn(next, x)
    ensures Harmless(next, x) <==> Harmless(w, x)
  {
    hide Closed, Delivered;
    ClosedAlike(w, next, x.operation, x.latest);
    if x.phase.LookingUp? {
      assert SentFor(w, x.operation, x.phase.message) <==> SentFor(next, x.operation, x.phase.message);
    }
  }

  lemma OwnedLooksAtOwn(w: World, o: OperationId)
    requires Owned(w) && o in w.db.operations && w.db.operations[o].kind == Email
    ensures forall a | a in w.attempts && w.attempts[a].operation == o :: LooksAtOwn(w, w.attempts[a])
  {
    hide OwnReference, OwnListing, MessageReference, Names, NamesSent;
    forall a | a in w.attempts && w.attempts[a].operation == o ensures LooksAtOwn(w, w.attempts[a]) {
      assert Faithful(w, w.attempts[a]);
    }
  }

  /** Messages sent stay sent, so closed references stay closed and harmless attempts harmless. */
  lemma ClosedGrows(w: World, next: World, o: OperationId, reference: string)
    requires Grows(w, next) && Closed(w, o, reference)
    ensures Closed(next, o, reference)
  {
    hide Unreadable, NamesSent;
    OfficeOwnership.NamesGrow(w, next, o, reference);
  }

  lemma HarmlessGrows(w: World, next: World, x: Attempt)
    requires Grows(w, next) && Harmless(w, x)
    ensures Harmless(next, x)
  {
    hide Closed;
    ClosedGrows(w, next, x.operation, x.latest);
  }

  // ---------------------------------------------------------------- steps that leave the operation alone

  /** The same messages sent for an operation whose listings may only have ended. */
  ghost predicate Near(w: World, next: World, o: OperationId) {
    && o in w.db.operations && o in next.db.operations
    && w.db.operations[o].kind == Email && next.db.operations[o].kind == Email && Owned(w) && Owned(next)
    && SameSent(w, next, o)
    && (forall r | r in next.listed && next.listed[r].operation == o :: r in w.listed && w.listed[r] == next.listed[r])
  }

  /** And the same row. */
  ghost predicate Still(w: World, next: World, o: OperationId) {
    Near(w, next, o) && next.db.operations[o] == w.db.operations[o]
  }

  /** And attempts may only have ended. */
  ghost predicate Alone(w: World, next: World, o: OperationId) {
    && Still(w, next, o)
    && (forall a | a in next.attempts && next.attempts[a].operation == o ::
         a in w.attempts && w.attempts[a] == next.attempts[a])
  }

  lemma MenaceBefore(w: World, next: World, o: OperationId, a: nat)
    requires Near(w, next, o) && Menace(next, o, a) && a in w.attempts && w.attempts[a] == next.attempts[a]
    ensures Menace(w, o, a)
  {
    hide Harmless, SameSent, Owned, LooksAtOwn;
    OwnedLooksAtOwn(w, o);
    OwnedLooksAtOwn(next, o);
    HarmlessAlike(w, next, w.attempts[a]);
  }

  /** A listing covered before is covered as long as it describes nothing new and nobody new can do harm. */
  lemma CoveredStays(w: World, next: World, o: OperationId)
    requires Near(w, next, o) && AllCovered(w, o) && (Menacing(next, o) ==> Menacing(w, o))
    requires next.db.operations[o].status == OpExecuting ==>
      w.db.operations[o].status == OpExecuting && w.db.operations[o].attempt == next.db.operations[o].attempt
    ensures AllCovered(next, o)
  {
    hide Menacing, Closed, Delivered, Owned, SentFor;
    forall r | r in next.listed && next.listed[r].operation == o ensures Covered(next, o, next.listed[r]) {
      ClosedAlike(w, next, o, next.listed[r].reference);
      assert Covered(w, o, w.listed[r]);
    }
  }

  lemma StillGuarded(w: World, next: World, o: OperationId)
    requires Still(w, next, o) && Guarded(w, o) && AllCovered(w, o) && (Menacing(next, o) ==> Menacing(w, o))
    ensures Guarded(next, o) && AllCovered(next, o)
  {
    hide Menacing, Closed, Delivered, Owned, SentFor, AllCovered;
    ClosedAlike(w, next, o, w.db.operations[o].reference);
    CoveredStays(w, next, o);
  }

  lemma AloneTame(w: World, next: World, o: OperationId)
    requires Alone(w, next, o) && Tame(w, o)
    ensures Tame(next, o)
  {
    hide Harmless, Closed, Delivered, Owned, SentFor, Guarded, Covered;
    forall a | Menace(next, o, a) ensures Menace(w, o, a) {
      MenaceBefore(w, next, o, a);
    }
    ClosedAlike(w, next, o, w.db.operations[o].reference);
    StillGuarded(w, next, o);
  }

  // ---------------------------------------------------------------- steps on the operation

  /** One attempt goes on without getting more harmful. */
  lemma ReplaceTame(w: World, next: World, a: nat, o: OperationId)
    requires Still(w, next, o) && Tame(w, o) && a in w.attempts && w.attempts[a].operation == o
    requires a in next.attempts && next.attempts == w.attempts[a := next.attempts[a]]
    requires next.attempts[a].latest == w.attempts[a].latest
    requires Menace(next, o, a) ==> Menace(w, o, a)
    ensures Tame(next, o)
  {
    hide Harmless, Closed, Delivered, Owned, SentFor, Guarded, Covered, SameSent;
    forall b | Menace(next, o, b) ensures Menace(w, o, b) {
      if b != a { MenaceBefore(w, next, o, b); }
    }
    ClosedAlike(w, next, o, w.db.operations[o].reference);
    StillGuarded(w, next, o);
  }

  /** The attempt that can do harm, and has saved nothing yet, saves its reference. */
  lemma SavedTame(w: World, next: World, a: nat, o: OperationId, reference: string)
    requires Near(w, next, o) && Tame(w, o) && Menace(w, o, a)
    requires next.db.operations[o] == w.db.operations[o].(reference := reference)
      && w.db.operations[o].status == OpExecuting
    requires a in next.attempts && next.attempts == w.attempts[a := next.attempts[a]]
    requires next.attempts[a].latest in {"", reference}
    ensures Tame(next, o)
  {
    hide Harmless, Closed, Delivered, Owned, SentFor, Covered, AllCovered, SameSent;
    forall b | Menace(next, o, b) ensures b == a {
      if b != a { MenaceBefore(w, next, o, b); }
    }
    SameDelivered(w, next, o);
    CoveredStays(w, next, o);
  }

  lemma SameDelivered(w: World, next: World, o: OperationId)
    requires SameSent(w, next, o)
    ensures Delivered(next, o) == Delivered(w, o)
  {
  }

  /** The attempt that can do harm sends, once, and is harmless from then on. */
  lemma SentTame(w: World, next: World, a: nat, o: OperationId, m: Id)
    requires Owned(w) && Grows(w, next) && o in w.db.operations && Tame(w, o)
    requires Menace(w, o, a) && w.attempts[a].latest == MessageReference(m)
    requires SentFor(next, o, m) && Delivered(next, o) == Delivered(w, o) + [m]
    requires o in next.db.operations && next.db.operations[o] == w.db.operations[o] && next.listed == w.listed
    requires a in next.attempts && next.attempts == w.attempts[a := next.attempts[a]]
    requires next.attempts[a].phase.Finishing? && next.attempts[a].latest == w.attempts[a].latest
      && next.attempts[a].operation == o
    ensures Tame(next, o)
  {
    hide Delivered, Owned, Grows, Unreadable, NamesSent, MessageReference, SentFor;
    ReferenceFacts(m, m);
    SentIsNamed(next, o, m);
    assert Menacing(w, o);
    assert Harmless(next, next.attempts[a]);
    forall b | b in w.attempts && w.attempts[b].operation == o && b != a ensures Harmless(next, w.attempts[b]) {
      assert !Menace(w, o, b);
      HarmlessGrows(w, next, w.attempts[b]);
    }
    hide Harmless;
    assert !Menacing(next, o);
    if Closed(w, o, w.db.operations[o].reference) { ClosedGrows(w, next, o, w.db.operations[o].reference); }
    forall r | r in next.listed && next.listed[r].operation == o ensures Covered(next, o, next.listed[r]) {
      assert Covered(w, o, w.listed[r]);
      if Closed(w, o, w.listed[r].reference) { ClosedGrows(w, next, o, w.listed[r].reference); }
    }
  }

  /** A result is recorded: nobody can do harm and nothing was sent, or its reference is closed. */
  lemma FinishedTame(w: World, next: World, o: OperationId, completed: bool, reference: string)
    requires Near(w, next, o) && Tame(w, o)
    requires next.db.operations[o] == FinishedRow(w.db.operations[o], completed, reference)
    requires forall a | a in next.attempts && next.attempts[a].operation == o ::
      a in w.attempts && w.attempts[a] == next.attempts[a]
    requires Menacing(next, o) || Delivered(w, o) != [] ==> Closed(w, o, reference)
    ensures Tame(next, o)
  {
    hide Harmless, Closed, Delivered, Owned, SentFor, Covered, AllCovered, SameSent;
    forall a | Menace(next, o, a) ensures Menace(w, o, a) {
      MenaceBefore(w, next, o, a);
    }
    SameDelivered(w, next, o);
    ClosedAlike(w, next, o, reference);
    CoveredStays(w, next, o);
  }

  /** What a claim starts with: under a closed reference, an attempt that can do no harm. */
  lemma FirstPhaseIsHarmless(w: World, x: Attempt)
    requires x.phase == FirstPhase(Email, x.latest) && Closed(w, x.operation, x.latest)
    ensures Harmless(w, x)
  {
    hide MessageReference, GraphReference.Decode, Delivered, DeliveredOf;
    EmptyIsOpen(w, x.operation);
    if NamesSent(w, x.operation, x.latest) {
      var m := NamedWasSent(w, x.operation, x.latest);
      ReferenceFacts(m, m);
    }
  }

  lemma ClaimedTame(w: World, next: World, a: nat, o: OperationId, owner: string, until: int)
    requires Near(w, next, o) && Tame(w, o) && w.db.operations[o].status != OpExecuting
    requires next.db.operations[o] == ClaimedRow(w.db.operations[o], owner, until)
    requires
      || next.attempts == w.attempts
      || (a !in w.attempts && a in next.attempts && next.attempts == w.attempts[a := next.attempts[a]]
          && next.attempts[a].operation == o && next.attempts[a].latest == w.db.operations[o].reference
          && next.attempts[a].phase == FirstPhase(Email, next.attempts[a].latest))
    ensures Tame(next, o)
  {
    hide Harmless, Closed, Delivered, SentFor, SameSent, FirstPhase, OwnReference, Faithful, Letters, Names;
    var reference := w.db.operations[o].reference;
    ClosedAlike(w, next, o, reference);
    SameDelivered(w, next, o);
    if Closed(next, o, reference) && next.attempts != w.attempts { FirstPhaseIsHarmless(next, next.attempts[a]); }
    forall b | Menace(next, o, b)
      ensures Menace(w, o, b) || (next.attempts != w.attempts && b == a && !Closed(w, o, reference))
    {
      if b in w.attempts { MenaceBefore(w, next, o, b); }
    }
    forall r | r in next.listed && next.listed[r].operation == o ensures Covered(next, o, next.listed[r]) {
      assert OwnListing(w, w.listed[r]);
    }
  }

  /** Prudence listing an operation covers the new listing. */
  lemma ListedTame(w: World, next: World, r: nat, o: OperationId)
    requires o in w.db.operations && Tame(w, o) && (Menacing(w, o) ==> Closed(w, o, w.db.operations[o].reference))
    requires next == w.(listed := w.listed[r :=
      Listed(o, w.db.operations[o].leaseOwner, w.db.operations[o].attempt, w.db.operations[o].reference)])
    ensures Tame(next, o)
  {
    hide MessageReference, GraphReference.Decode, DeliveredOf;
    assert forall x: Attempt :: Harmless(next, x) <==> Harmless(w, x);
    assert forall reference :: Closed(next, o, reference) <==> Closed(w, o, reference);
    hide Harmless, Closed, IsFor, NamesSent;
    assert forall a :: Menace(next, o, a) <==> Menace(w, o, a);
    assert Menacing(next, o) <==> Menacing(w, o);
    assert Delivered(next, o) == Delivered(w, o);
    hide Menacing, Delivered, Menace;
    forall i | i in next.listed && next.listed[i].operation == o ensures Covered(next, o, next.listed[i]) {
      if i != r { assert Covered(w, o, w.listed[i]); }
    }
  }

  /** There is nothing yet for a new operation. */
  lemma NewTame(w: World, next: World, o: OperationId)
    requires Owned(w) && Licensed(w) && o !in w.db.operations && o in next.db.operations
    requires next == w.(db := next.db)
    ensures Tame(next, o)
  {
    hide Consistent, OnRecord, OwnReference, FaithfulMail, MessageReference, NamesSent, Delivered, Harmless;
    if Delivered(next, o) != [] {
      SentIsDelivered(next, o, Delivered(next, o)[0]);
      assert false;
    }
    assert forall a | a in w.attempts :: Faithful(w, w.attempts[a]);
    assert forall r | r in w.listed :: OwnListing(w, w.listed[r]);
  }
}
