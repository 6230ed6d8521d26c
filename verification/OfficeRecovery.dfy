/** PrepareOperation and RecoverExpiredOperations of internal/office/operation_service.go, as sequential code
    among any other actors: anyone may act between any two of its calls, timely or not, and its own calls may
    fail or lose their reply. */
module OfficeRecovery {
  import opened Common
  import opened OfficeStore
  import opened OfficeProtocol
  import opened OfficeSafety
  import opened OfficeAudit
  import opened OfficeRuns

  const RECOVERY_BATCH_SIZE := 100

  function ExpiredIds(db: Db, now: int): set<OperationId> {
    set o | o in db.operations && Expired(db.operations[o], now)
  }

  function ExecutingIds(db: Db): set<OperationId> {
    set o | o in db.operations && db.operations[o].status == OpExecuting
  }

  // ---------------------------------------------------------------- a schedule of the surroundings

  /** What others do before a call, and how the call goes. */
  datatype Turn = Turn(others: seq<Label>, call: Call)

  const CALM := Turn([], Replied)

  /** One round of the loop: the clock, what happens before the query and whether it succeeds, and the turns of
      the writes that follow. */
  datatype Round = Round(now: int, others: seq<Label>, readable: bool, turns: seq<Turn>) {
    function TurnOf(i: nat): Turn { if i < |turns| then turns[i] else CALM }

    predicate Calm() { others == [] && readable && forall i | 0 <= i < |turns| :: turns[i] == CALM }
  }

  /** Nobody interferes, every call is answered, and the clock does not run backwards. */
  predicate AllCalm(schedule: seq<Round>) {
    && (forall i | 0 <= i < |schedule| :: schedule[i].Calm())
    && (forall i, j | 0 <= i <= j < |schedule| :: schedule[i].now <= schedule[j].now)
  }

  /** The last ends a process whose rounds the schedule does not reach to the end. */
  datatype Outcome = Done | CallFailed | Interrupted

  // ---------------------------------------------------------------- what a history says

  /** Listings from `first` on belong to the call under consideration. */
  predicate Own(l: Label, first: nat) {
    (l.List? || l.Recover?) && l.recoverer >= first
  }

  /** Step i of a history is a write-back of the call's own, accepted under the lease that it had listed. */
  ghost predicate Recovers(history: seq<Label>, i: nat, first: nat) {
    && i < |history| && history[i].Recover? && Own(history[i], first) && history[i].call == Replied
    && Run(START, history[..i]).Some?
    && var w := Run(START, history[..i]).value;
       history[i].recoverer in w.listed
       && HoldsLease(w.db, w.listed[history[i].recoverer].operation, w.listed[history[i].recoverer].owner)
  }

  ghost function Recoveries(history: seq<Label>, start: nat, first: nat): set<nat> {
    set i: nat | start <= i < |history| && Recovers(history, i, first)
  }

  /** At some moment after `start` the owner no longer held the lease of the operation. */
  ghost predicate Released(history: seq<Label>, start: nat, o: OperationId, owner: string) {
    exists i: nat :: start < i <= |history| && ReleasedAt(history, i, o, owner)
  }

  ghost predicate ReleasedAt(history: seq<Label>, i: nat, o: OperationId, owner: string)
    requires i <= |history|
  {
    Run(START, history[..i]).Some? && !HoldsLease(Run(START, history[..i]).value.db, o, owner)
  }

  lemma PrefixOf(history: seq<Label>, more: seq<Label>, i: nat)
    requires i <= |history|
    ensures (history + more)[..i] == history[..i]
  {
  }

  lemma RecoveriesWithin(history: seq<Label>, start: nat, first: nat)
    ensures forall i | i in Recoveries(history, start, first) :: start <= i < |history|
  {
  }

  lemma RecoveriesAppend(history: seq<Label>, l: Label, start: nat, first: nat)
    requires start <= |history|
    ensures Recoveries(history + [l], start, first) ==
      Recoveries(history, start, first) + (if Recovers(history + [l], |history|, first) then {|history|} else {})
  {
    hide Run, Own;
    forall i: nat | i < |history| ensures Recovers(history + [l], i, first) <==> Recovers(history, i, first) {
      PrefixOf(history, [l], i);
    }
  }

  lemma ReleasedStays(history: seq<Label>, longer: seq<Label>, start: nat, o: OperationId, owner: string)
    requires Released(history, start, o, owner) && history <= longer
    ensures Released(longer, start, o, owner)
  {
    hide Run;
    var i: nat :| start < i <= |history| && ReleasedAt(history, i, o, owner);
    assert longer[..i] == history[..i];
    assert ReleasedAt(longer, i, o, owner);
  }

  // ---------------------------------------------------------------- steps of others

  ghost predicate SameListings(w: World, next: World, first: nat) {
    forall r: nat | r >= first :: (r in next.listed <==> r in w.listed)
      && (r in w.listed ==> next.listed[r] == w.listed[r])
  }

  lemma ForeignListings(w: World, l: Label, first: nat)
    requires Step(w, l).Some? && !Own(l, first)
    ensures SameListings(w, Step(w, l).value, first)
  {
    hide MessageReference, EventReference, FirstPhase, ClaimOperation, CheckpointOperation, FinishOperation;
    hide SaveDraft, DeleteDraft, SubmitForConfirmation, Decide, PrepareRequest;
    if l.Claim? || l.SaveReference? || l.Finish? {
      hide StepCreateMail, StepLookUp, StepSend, StepCreateEvent, StepList, StepRecover;
    } else {
      hide StepClaim, StepSaveReference, StepFinish;
    }
  }

  // ---------------------------------------------------------------- what recovery leaves when undisturbed

  /** The row recovery leaves: failed, unleased, its reference kept. */
  function Recovered(row: OperationRow): OperationRow {
    row.(status := OpFailed, leaseOwner := "", leaseUntil := None)
  }

  /** Each row is as it was, or was executing under a lease that ran out by `now` and has been recovered. */
  ghost predicate OnlyRecovered(before: Db, after: Db, now: int) {
    && after.operations.Keys == before.operations.Keys
    && forall o | o in before.operations ::
         after.operations[o] == before.operations[o]
         || (Expired(before.operations[o], now) && after.operations[o] == Recovered(before.operations[o]))
  }

  /** The listed rows are distinct and current. */
  ghost predicate Listing(db: Db, items: seq<(OperationId, OperationRow)>, ids: set<OperationId>) {
    && ids == (set k | 0 <= k < |items| :: items[k].0)
    && |ids| == |items|
    && (forall k | 0 <= k < |items| :: items[k].0 in db.operations && items[k].1 == db.operations[items[k].0])
    && (forall j, k | 0 <= j < k < |items| :: items[j].0 != items[k].0)
  }

  ghost predicate Swept(before: Db, after: Db, ids: set<OperationId>) {
    && after.operations.Keys == before.operations.Keys
    && forall o | o in before.operations ::
         after.operations[o] == if o in ids then Recovered(before.operations[o]) else before.operations[o]
  }

  lemma NothingRecovered(db: Db, now: int)
    ensures OnlyRecovered(db, db, now) && |ExecutingIds(db) - ExecutingIds(db)| == 0
  {
    assert ExecutingIds(db) - ExecutingIds(db) == {};
  }

  lemma ExpiredAreExecuting(db: Db, now: int)
    ensures ExpiredIds(db, now) <= ExecutingIds(db)
  {
  }

  lemma EmptyListing(db: Db)
    ensures Listing(db, [], {})
  {
  }

  lemma ListingExtends(db: Db, items: seq<(OperationId, OperationRow)>, ids: set<OperationId>, o: OperationId)
    requires Listing(db, items, ids) && o in db.operations && o !in ids
    ensures Listing(db, items + [(o, db.operations[o])], ids + {o})
  {
    var next := items + [(o, db.operations[o])];
    IdsExtend(items, (o, db.operations[o]));
    forall k | 0 <= k < |items| ensures items[k].0 != o {
      assert items[k].0 in ids;
    }
  }

  lemma IdsExtend(items: seq<(OperationId, OperationRow)>, item: (OperationId, OperationRow))
    ensures (set k | 0 <= k < |items| + 1 :: (items + [item])[k].0) ==
      (set k | 0 <= k < |items| :: items[k].0) + {item.0}
  {
    var next := items + [item];
    forall k | 0 <= k < |items| ensures items[k].0 in set k | 0 <= k < |next| :: next[k].0 {
      assert next[k] == items[k];
    }
    assert next[|items|] == item;
  }

  lemma BatchAccounts(before: Db, start: Db, after: Db, ids: set<OperationId>, now: int)
    requires OnlyRecovered(before, start, now) && Swept(start, after, ids) && ids <= ExpiredIds(start, now)
    ensures OnlyRecovered(before, after, now)
    ensures ExecutingIds(after) == ExecutingIds(start) - ids && ids <= ExecutingIds(start)
    ensures |ExecutingIds(before) - ExecutingIds(after)| == |ExecutingIds(before) - ExecutingIds(start)| + |ids|
    ensures ids == ExpiredIds(start, now) ==> ExpiredIds(after, now) == {}
  {
    ExpiredAreExecuting(start, now);
    SweptIds(start, after, ids, now);
    RecoveredStopExecuting(before, start, now);
    SweptRecovers(before, start, after, ids, now);
    hide OnlyRecovered, Swept, ExpiredIds, ExecutingIds;
    assert ExecutingIds(before) - ExecutingIds(after) == (ExecutingIds(before) - ExecutingIds(start)) + ids;
  }

  lemma SweptIds(start: Db, after: Db, ids: set<OperationId>, now: int)
    requires Swept(start, after, ids) && ids <= ExpiredIds(start, now)
    ensures ExecutingIds(after) == ExecutingIds(start) - ids
    ensures ids == ExpiredIds(start, now) ==> ExpiredIds(after, now) == {}
  {
  }

  lemma RecoveredStopExecuting(before: Db, start: Db, now: int)
    requires OnlyRecovered(before, start, now)
    ensures ExecutingIds(start) <= ExecutingIds(before)
  {
  }

  lemma SweptRecovers(before: Db, start: Db, after: Db, ids: set<OperationId>, now: int)
    requires OnlyRecovered(before, start, now) && Swept(start, after, ids) && ids <= ExpiredIds(start, now)
    ensures OnlyRecovered(before, after, now)
  {
  }

  lemma OnlyRecoveredLater(before: Db, after: Db, now: int, later: int)
    requires OnlyRecovered(before, after, now) && now <= later
    ensures OnlyRecovered(before, after, later)
  {
  }

  /** No other operation carries the key of a draft that has none. */
  lemma KeyIsFree(db: Db, draftId: DraftId)
    requires Consistent(db) && draftId in db.drafts && !HasOperation(db, draftId)
    ensures !HasKey(db, KeyOf(draftId, db.drafts[draftId]))
  {
    hide AuditedDrafts, AuditedOperations;
  }

  // ---------------------------------------------------------------- listing and writing back

  /** The listings from `base` on hold the items from `from` to `to`. */
  ghost predicate Noted(w: World, base: nat, items: seq<(OperationId, OperationRow)>, from: nat, to: nat)
    requires to <= |items|
  {
    forall k: nat | from <= k < to :: Remembers(w, base + k, items[k])
  }

  /** The row is executing as it was listed. */
  predicate AsListed(db: Db, item: (OperationId, OperationRow)) {
    item.0 in db.operations && db.operations[item.0] == item.1 && item.1.status == OpExecuting
  }

  predicate Remembers(w: World, r: nat, item: (OperationId, OperationRow)) {
    r in w.listed && w.listed[r] == Listed(item.0, item.1.leaseOwner, item.1.attempt, item.1.reference)
  }

  ghost predicate NoneFrom(w: World, first: nat, limit: nat) {
    forall r: nat | r in w.listed && r >= first :: r < limit
  }

  /** The rows whose lease has run out, the earliest first, up to the limit. */
  ghost predicate Earliest(db: Db, now: int, limit: nat, items: seq<(OperationId, OperationRow)>, ids: set<OperationId>)
  {
    && ids <= ExpiredIds(db, now) && |items| <= limit && (|items| < limit ==> ids == ExpiredIds(db, now))
    && ByLeaseEnd(items) && AllLater(db, items, ExpiredIds(db, now) - ids)
  }

  ghost predicate AllLater(db: Db, items: seq<(OperationId, OperationRow)>, others: set<OperationId>) {
    forall o, k | o in others && 0 <= k < |items| ::
      o in db.operations && LeaseEnd(items[k].1) <= LeaseEnd(db.operations[o])
  }

  lemma NoneLater(db: Db, others: set<OperationId>)
    ensures ByLeaseEnd([]) && AllLater(db, [], others)
  {
  }

  lemma LaterExtends(db: Db, items: seq<(OperationId, OperationRow)>, others: set<OperationId>, o: OperationId)
    requires ByLeaseEnd(items) && AllLater(db, items, others) && others <= db.operations.Keys
    requires o in others && forall p | p in others :: LeaseEnd(db.operations[o]) <= LeaseEnd(db.operations[p])
    ensures ByLeaseEnd(items + [(o, db.operations[o])]) && AllLater(db, items + [(o, db.operations[o])], others - {o})
  {
  }

  predicate ByLeaseEnd(items: seq<(OperationId, OperationRow)>) {
    forall j, k | 0 <= j < k < |items| :: LeaseEnd(items[j].1) <= LeaseEnd(items[k].1)
  }

  function LeaseEnd(row: OperationRow): int { if row.leaseUntil.Some? then row.leaseUntil.value else 0 }

  lemma {:induction false} EarliestExists(db: Db, s: set<OperationId>) returns (o: OperationId)
    requires s != {} && s <= db.operations.Keys
    ensures o in s && forall p | p in s :: LeaseEnd(db.operations[o]) <= LeaseEnd(db.operations[p])
    decreases s
  {
    var first :| first in s;
    o := first;
    if s - {first} != {} {
      var p := EarliestExists(db, s - {first});
      if LeaseEnd(db.operations[p]) < LeaseEnd(db.operations[first]) { o := p; }
    }
    forall q | q in s ensures LeaseEnd(db.operations[o]) <= LeaseEnd(db.operations[q]) {
      if q != first { assert q in s - {first}; }
    }
  }

  /** Each of the first n items lost its listed owner at some moment after `start`. */
  ghost predicate AllReleased(history: seq<Label>, start: nat, items: seq<(OperationId, OperationRow)>, n: nat)
    requires n <= |items|
  {
    forall k: nat | k < n :: Released(history, start, items[k].0, items[k].1.leaseOwner)
  }

  lemma AllReleasedStay(history: seq<Label>, longer: seq<Label>, start: nat, items: seq<(OperationId, OperationRow)>,
      n: nat)
    requires n <= |items| && AllReleased(history, start, items, n) && history <= longer
    ensures AllReleased(longer, start, items, n)
  {
    hide Released;
    forall k: nat | k < n ensures Released(longer, start, items[k].0, items[k].1.leaseOwner) {
      ReleasedStays(history, longer, start, items[k].0, items[k].1.leaseOwner);
    }
  }

  lemma NoneReleased(history: seq<Label>, start: nat, items: seq<(OperationId, OperationRow)>)
    ensures AllReleased(history, start, items, 0)
  {
  }

  lemma OneMoreReleased(history: seq<Label>, start: nat, items: seq<(OperationId, OperationRow)>, n: nat)
    requires n < |items| && AllReleased(history, start, items, n)
    requires start < |history| && ReleasedAt(history, |history|, items[n].0, items[n].1.leaseOwner)
    ensures AllReleased(history, start, items, n + 1)
  {
    hide ReleasedAt;
  }

  /** The listings of the call's own that are still open belong to the items from i on. */
  ghost predicate OpenFrom(w: World, first: nat, base: nat, items: seq<(OperationId, OperationRow)>, i: nat)
    requires i <= |items|
  {
    && Noted(w, base, items, i, |items|)
    && forall r: nat | r in w.listed && r >= first :: r < base || base + i <= r < base + |items|
  }

  lemma OpenAll(w: World, first: nat, base: nat, items: seq<(OperationId, OperationRow)>)
    requires Noted(w, base, items, 0, |items|) && NoneFrom(w, first, base + |items|)
    ensures OpenFrom(w, first, base, items, 0)
  {
  }

  lemma OpenNone(w: World, first: nat, base: nat, items: seq<(OperationId, OperationRow)>)
    requires OpenFrom(w, first, base, items, |items|)
    ensures NoneFrom(w, first, base + |items|)
  {
  }

  lemma OpenHas(w: World, first: nat, base: nat, items: seq<(OperationId, OperationRow)>, i: nat)
    requires i < |items| && OpenFrom(w, first, base, items, i)
    ensures Remembers(w, base + i, items[i])
  {
  }

  lemma OpenNext(w: World, next: World, first: nat, base: nat, items: seq<(OperationId, OperationRow)>, i: nat)
    requires i < |items| && first <= base && OpenFrom(w, first, base, items, i)
    requires SameListings(w.(listed := w.listed - {base + i}), next, first)
    ensures OpenFrom(next, first, base, items, i + 1)
  {
  }

  ghost predicate SweptFirst(before: Db, after: Db, items: seq<(OperationId, OperationRow)>, n: nat)
    requires n <= |items|
  {
    Swept(before, after, set k: nat | k < n :: items[k].0)
  }

  lemma SweptNext(before: Db, db: Db, after: Db, items: seq<(OperationId, OperationRow)>, ids: set<OperationId>, n: nat)
    requires Listing(before, items, ids) && n < |items| && SweptFirst(before, db, items, n)
    requires after.operations == db.operations[items[n].0 := Recovered(items[n].1)]
    ensures SweptFirst(before, after, items, n + 1)
  {
    var o := items[n].0;
    assert (set k: nat | k < n + 1 :: items[k].0) == (set k: nat | k < n :: items[k].0) + {o};
  }

  /** An item not written back yet is as it was listed. */
  lemma NotSweptYet(before: Db, db: Db, items: seq<(OperationId, OperationRow)>, ids: set<OperationId>, n: nat)
    requires Listing(before, items, ids) && ids <= ExecutingIds(before) && n < |items|
      && SweptFirst(before, db, items, n)
    ensures AsListed(db, items[n])
  {
    assert items[n].0 in ids;
  }

  lemma SweptNone(db: Db, items: seq<(OperationId, OperationRow)>)
    ensures SweptFirst(db, db, items, 0)
  {
  }

  lemma SweptAll(before: Db, db: Db, items: seq<(OperationId, OperationRow)>, ids: set<OperationId>)
    requires Listing(before, items, ids) && SweptFirst(before, db, items, |items|)
    ensures Swept(before, db, ids)
  {
    assert ids == set k: nat | k < |items| :: items[k].0;
  }

  /** The last query of a finished call, at position `last`: each of its rows lost the owner it was listed with;
      it found fewer than a batch, so all there were, or nothing could be recovered after it. */
  ghost predicate Finished(history: seq<Label>, first: nat, last: nat, now: int,
      items: seq<(OperationId, OperationRow)>)
  {
    && last <= |history| && Run(START, history[..last]).Some?
    && QueryResult(Run(START, history[..last]).value.db, now, items)
    && AllReleased(history, last, items, |items|)
    && (|items| < 100 || Recoveries(history, last, first) == {})
  }

  ghost predicate QueryResult(db: Db, now: int, items: seq<(OperationId, OperationRow)>) {
    exists ids :: Listing(db, items, ids) && Earliest(db, now, 100, items, ids)
  }

  lemma NoneSince(history: seq<Label>, longer: seq<Label>, start: nat, first: nat)
    requires history <= longer && start <= |history|
    requires Recoveries(history, start, first) <= Recoveries(longer, start, first)
    requires |Recoveries(longer, start, first)| == |Recoveries(history, start, first)|
    ensures Recoveries(longer, |history|, first) == {}
  {
    hide Recovers;
    RecoveriesWithin(history, start, first);
    SameSize(Recoveries(history, start, first), Recoveries(longer, start, first));
    assert Recoveries(longer, |history|, first) <= Recoveries(longer, start, first);
    RecoveriesWithin(longer, |history|, first);
  }

  lemma SameSize(s: set<nat>, t: set<nat>)
    requires s <= t && |s| == |t|
    ensures s == t
  {
    assert t == s + (t - s);
  }

  // ---------------------------------------------------------------- undisturbed rounds

  /** After k undisturbed rounds, the last of them at `now`. */
  ghost predicate Calmly(before: Db, db: Db, now: int, k: nat, total: nat) {
    && OnlyRecovered(before, db, now)
    && total == |ExecutingIds(before) - ExecutingIds(db)|
    && |ExecutingIds(db)| + k <= |ExecutingIds(before)|
  }

  /** The clock of a round, or of the last one. */
  function ClockAt(schedule: seq<Round>, k: nat): int {
    if schedule == [] then 0 else if k < |schedule| then schedule[k].now else schedule[|schedule| - 1].now
  }

  lemma CalmlyGives(before: Db, db: Db, now: int, k: nat, total: nat)
    requires Calmly(before, db, now, k, total)
    ensures total == |ExecutingIds(before) - ExecutingIds(db)| && k <= |ExecutingIds(before)|
    ensures OnlyRecovered(before, db, now)
  {
  }

  lemma CalmlyStarts(db: Db, now: int)
    ensures Calmly(db, db, now, 0, 0)
  {
    hide ExecutingIds;
    NothingRecovered(db, now);
  }

  lemma CalmlyLater(before: Db, db: Db, now: int, later: int, k: nat, total: nat)
    requires Calmly(before, db, now, k, total) && now <= later
    ensures Calmly(before, db, later, k, total)
  {
    hide ExecutingIds, OnlyRecovered;
    OnlyRecoveredLater(before, db, now, later);
  }

  lemma CalmlyOn(before: Db, db: Db, after: Db, now: int, k: nat, total: nat, ids: set<OperationId>)
    requires Calmly(before, db, now, k, total) && Swept(db, after, ids) && ids <= ExpiredIds(db, now) && ids != {}
    ensures Calmly(before, after, now, k + 1, total + |ids|)
    ensures ids == ExpiredIds(db, now) ==> ExpiredIds(after, now) == {}
  {
    hide ExecutingIds, OnlyRecovered, Swept, ExpiredIds;
    BatchAccounts(before, db, after, ids, now);
    assert ExecutingIds(db) == ExecutingIds(after) + ids;
  }

  method QueryExpired(db: Db, now: int, limit: nat)
    returns (items: seq<(OperationId, OperationRow)>, ghost ids: set<OperationId>)
    ensures Listing(db, items, ids) && Earliest(db, now, limit, items, ids)
    ensures |items| <= limit && ByLeaseEnd(items)
    ensures forall k | 0 <= k < |items| ::
      items[k].0 in db.operations && items[k].1 == db.operations[items[k].0] && Expired(items[k].1, now)
  {
    hide Listing, Expired, ByLeaseEnd, AllLater;
    items, ids := [], {};
    EmptyListing(db);
    NoneLater(db, ExpiredIds(db, now));
    var remaining := ExpiredIds(db, now);
    while remaining != {} && |items| < limit
      invariant Listing(db, items, ids) && |items| <= limit
      invariant ids + remaining == ExpiredIds(db, now) && ids !! remaining
      invariant ByLeaseEnd(items) && AllLater(db, items, remaining)
      decreases remaining
    {
      ghost var earliest := EarliestExists(db, remaining);
      var o :| o in remaining && forall p | p in remaining :: LeaseEnd(db.operations[o]) <= LeaseEnd(db.operations[p]);
      ListingExtends(db, items, ids, o);
      LaterExtends(db, items, remaining, o);
      items := items + [(o, db.operations[o])];
      ids := ids + {o};
      remaining := remaining - {o};
    }
    assert remaining == ExpiredIds(db, now) - ids;
    forall k | 0 <= k < |items|
      ensures items[k].0 in db.operations && items[k].1 == db.operations[items[k].0] && Expired(items[k].1, now)
    {
      ListedIsExpired(db, now, limit, items, ids, k);
    }
  }

  /** The rows of a query have run out, and fewer than asked for are all there are. */
  lemma QueryFacts(db: Db, now: int, items: seq<(OperationId, OperationRow)>, ids: set<OperationId>)
    requires Listing(db, items, ids) && Earliest(db, now, RECOVERY_BATCH_SIZE, items, ids)
    ensures QueryResult(db, now, items) && |ids| == |items| && ids <= ExpiredIds(db, now) && ids <= ExecutingIds(db)
    ensures |items| < RECOVERY_BATCH_SIZE ==> ids == ExpiredIds(db, now)
    ensures |items| == 0 ==> ExpiredIds(db, now) == {}
  {
    ExpiredAreExecuting(db, now);
  }

  lemma ListedIsExpired(db: Db, now: int, limit: nat, items: seq<(OperationId, OperationRow)>, ids: set<OperationId>,
      k: nat)
    requires Listing(db, items, ids) && Earliest(db, now, limit, items, ids) && k < |items|
    ensures items[k].0 in db.operations && items[k].1 == db.operations[items[k].0] && Expired(items[k].1, now)
  {
    assert items[k].0 in ids;
  }

  /** An approved draft, under an operation id not taken yet, or a draft that has its operation. */
  predicate Preparable(db: Db, newId: OperationId, draftId: DraftId) {
    || HasOperation(db, draftId)
    || (draftId in db.drafts && db.drafts[draftId].status == Approved && newId !in db.operations)
  }

  /** One more than every recovery id that the labels mention. */
  function Above(labels: seq<Label>): nat {
    if labels == [] then 0
    else
      var rest, l := Above(labels[1..]), labels[0];
      if (l.List? || l.Recover?) && l.recoverer >= rest then l.recoverer + 1 else rest
  }

  /** The operation of the draft; there is no other. */
  predicate TheOperation(db: Db, draftId: DraftId, o: OperationId) {
    && o in db.operations && db.operations[o].draftId == draftId
    && forall p | p in db.operations && db.operations[p].draftId == draftId :: p == o
  }

  predicate Inserted(db: Db, next: Db, newId: OperationId) {
    && newId !in db.operations && newId in next.operations && next.operations[newId].status == OpPending
    && next.operations == db.operations[newId := next.operations[newId]]
  }

  /** What an answer says about the database that it is given in. */
  predicate Answers(db: Db, newId: OperationId, draftId: DraftId, answer: Result<OperationId, Error>) {
    match answer
    case Ok(o) => TheOperation(db, draftId, o)
    case Err(NotFound) => draftId !in db.drafts
    case Err(StateConflict) => draftId in db.drafts && db.drafts[draftId].status != Approved
    case Err(UniqueViolation) => newId in db.operations
    case Err(DeleteRefused) => false
  }

  lemma OneOperation(w: World, draftId: DraftId, o: OperationId)
    requires Licensed(w) && o in w.db.operations && w.db.operations[o].draftId == draftId
    ensures TheOperation(w.db, draftId, o)
  {
    hide AuditedDrafts, AuditedOperations;
  }

  /** What the insert does in each case. */
  lemma PrepareStep(w: World, newId: OperationId, draftId: DraftId)
    requires Licensed(w)
    ensures var r := PrepareRequest(w.db, newId, draftId);
      && Step(w, Prepare(newId, draftId)) == Some(if r.Ok? then w.(db := r.value) else w)
      && (HasOperation(w.db, draftId) ==> r == Ok(w.db))
      && (r.Ok? <==> Preparable(w.db, newId, draftId))
      && (r.Ok? && !HasOperation(w.db, draftId) ==>
            Inserted(w.db, r.value, newId) && r.value.operations[newId].draftId == draftId)
      && (r.Err? ==> Answers(w.db, newId, draftId, Err(r.error)))
  {
    hide HasOperation, HasKey, Consistent;
    if draftId in w.db.drafts && !HasOperation(w.db, draftId) {
      assert Consistent(w.db);
      KeyIsFree(w.db, draftId);
    }
  }

  /** How one write-back went: accepted, refused as a conflict, or failed otherwise. */
  datatype Written = Accepted | Conflict | Unclear

  lemma StartLicensed()
    ensures Licensed(START)
  {
  }

  lemma RecoverStep(w: World, r: nat, call: Call)
    requires Licensed(w) && r in w.listed
    ensures var item, next := w.listed[r], Step(w, Recover(r, call));
      && next.Some? && next.value == w.(db := next.value.db, listed := w.listed - {r})
      && FinishOperation(w.db, item.operation, item.owner, false, item.reference).Ok? ==
           HoldsLease(w.db, item.operation, item.owner)
      && (call != NoEffect ==> !HoldsLease(next.value.db, item.operation, item.owner))
      && (call != NoEffect && HoldsLease(w.db, item.operation, item.owner) ==>
            next.value.db.operations == w.db.operations[item.operation :=
              FinishedRow(w.db.operations[item.operation], false, item.reference)])
  {
    hide Consistent, FinishOperation;
    assert Consistent(w.db);
    FinishFacts(w.db, w.listed[r].operation, w.listed[r].owner, false, w.listed[r].reference);
  }

  class Service {
    var world: World
    ghost var history: seq<Label>

    constructor ()
      ensures Valid() && world == START && history == []
    {
      world, history := START, [];
    }

    /** The service works where some run of the protocol, timely or not, has led. */
    ghost predicate Valid()
      reads this
    {
      Run(START, history) == Some(world)
    }

    lemma ValidLicensed()
      requires Valid()
      ensures Licensed(world)
    {
      hide Licensed;
      StartLicensed();
      RunLicensed(START, history);
    }

    method Act(l: Label)
      requires Valid() && Step(world, l).Some?
      modifies this
      ensures Valid() && Some(world) == old(Step(world, l)) && history == old(history) + [l]
    {
      hide Step;
      RunNothing(Step(world, l).value);
      RunCons(world, l, []);
      RunAppend(START, history, [l] + []);
      assert [l] + [] == [l];
      world := Step(world, l).value;
      history := history + [l];
    }

    /** Other actors take any steps the protocol allows. */
    method Yield(ghost start: nat, first: nat, others: seq<Label>)
      requires Valid() && start <= |history|
      modifies this
      ensures Valid() && old(history) <= history
      ensures SameListings(old(world), world, first)
      ensures Recoveries(history, start, first) == old(Recoveries(history, start, first))
      ensures others == [] ==> world == old(world) && history == old(history)
    {
      hide Step, Run, Own, Recoveries;
      for i := 0 to |others|
        invariant Valid() && old(history) <= history
        invariant SameListings(old(world), world, first)
        invariant Recoveries(history, start, first) == old(Recoveries(history, start, first))
        invariant i == 0 ==> world == old(world) && history == old(history)
      {
        var l := others[i];
        if !Own(l, first) && Step(world, l).Some? {
          ForeignListings(world, l, first);
          RecoveriesAppend(history, l, start, first);
          Act(l);
        }
      }
    }

    /** Creates the one operation of an approved draft, or finds it; others may act between the calls.
        Without a usable reply to the insert nothing is known. */
    method PrepareOperation(newId: OperationId, draftId: DraftId, before: seq<Label>, between: seq<Label>, call: Call)
      returns (prepared: Option<Result<OperationId, Error>>)
      requires Valid()
      modifies this
      ensures Valid() && old(history) <= history
      ensures prepared.Some? ==> Answers(world.db, newId, draftId, prepared.value)
      ensures before == [] && between == [] && call == Replied ==>
        && prepared.Some?
        && (prepared.value.Ok? <==> Preparable(old(world).db, newId, draftId))
        && (prepared.value.Err? || HasOperation(old(world).db, draftId) ==> world == old(world))
        && (prepared.value.Ok? && !HasOperation(old(world).db, draftId) ==>
              prepared.value.value == newId && Inserted(old(world).db, world.db, newId))
    {
      hide Run, Step, Own, Licensed, Recoveries, SameListings, Inserted;
      var found := Find(draftId);
      if found.Some? {
        return Some(Ok(found.value));
      }
      Yield(0, Above(before), before);
      if draftId !in world.db.drafts {
        return Some(Err(NotFound));
      }
      if world.db.drafts[draftId].status != Approved {
        return Some(Err(StateConflict));
      }
      Yield(0, Above(between), between);
      prepared := Insert(newId, draftId, call);
    }

    method Find(draftId: DraftId) returns (found: Option<OperationId>)
      requires Valid()
      ensures found.Some? <==> HasOperation(world.db, draftId)
      ensures found.Some? ==> TheOperation(world.db, draftId, found.value)
    {
      hide Run, Licensed;
      ValidLicensed();
      if o :| o in world.db.operations && world.db.operations[o].draftId == draftId {
        OneOperation(world, draftId, o);
        return Some(o);
      }
      return None;
    }

    method Insert(newId: OperationId, draftId: DraftId, call: Call)
      returns (created: Option<Result<OperationId, Error>>)
      requires Valid()
      modifies this
      ensures Valid() && old(history) <= history
      ensures created.Some? ==> Answers(world.db, newId, draftId, created.value)
      ensures call == Replied ==>
        && created.Some?
        && (created.value.Ok? <==> Preparable(old(world).db, newId, draftId))
        && (created.value.Err? || HasOperation(old(world).db, draftId) ==> world == old(world))
        && (created.value.Ok? && !HasOperation(old(world).db, draftId) ==>
              created.value.value == newId && Inserted(old(world).db, world.db, newId))
    {
      hide Run, Step, Licensed, PrepareRequest, HasOperation, TheOperation;
      if call == NoEffect {
        return None;
      }
      ValidLicensed();
      PrepareStep(world, newId, draftId);
      var result := PrepareRequest(world.db, newId, draftId);
      var existing := Find(draftId);
      Act(Prepare(newId, draftId));
      ValidLicensed();
      if call == ReplyLost {
        return None;
      }
      if existing.Some? {
        return Some(Ok(existing.value));
      }
      if result.Err? {
        return Some(Err(result.error));
      }
      OneOperation(world, draftId, newId);
      return Some(Ok(newId));
    }

    /** Runs the query and remembers each row as it was read; nothing is written. */
    method ListExpired(ghost start: nat, first: nat, base: nat, now: int, limit: nat)
      returns (items: seq<(OperationId, OperationRow)>, ghost ids: set<OperationId>)
      requires Valid() && start <= |history| && first <= base && NoneFrom(world, first, base)
      modifies this
      ensures Valid() && old(history) <= history && world.db == old(world.db)
      ensures Recoveries(history, start, first) == old(Recoveries(history, start, first))
      ensures Listing(world.db, items, ids) && Earliest(world.db, now, limit, items, ids)
      ensures Noted(world, base, items, 0, |items|) && NoneFrom(world, first, base + |items|)
    {
      hide Listing, Earliest, Run, Step, Recoveries;
      items, ids := QueryExpired(world.db, now, limit);
      for k := 0 to |items|
        invariant Valid() && old(history) <= history && world.db == old(world.db)
        invariant Recoveries(history, start, first) == old(Recoveries(history, start, first))
        invariant Noted(world, base, items, 0, k) && NoneFrom(world, first, base + k)
      {
        ListedIsExpired(world.db, now, limit, items, ids, k);
        var l := List(base + k, items[k].0, now);
        ListStep(world, base + k, items[k].0, now);
        RecoveriesAppend(history, l, start, first);
        Act(l);
      }
    }

    lemma ListStep(w: World, r: nat, o: OperationId, now: int)
      requires r !in w.listed && o in w.db.operations && Expired(w.db.operations[o], now)
      ensures var row := w.db.operations[o];
        Step(w, List(r, o, now)) == Some(w.(listed :=
          w.listed[r := Listed(o, row.leaseOwner, row.attempt, row.reference)]))
    {
    }

    /** One write-back under the listed lease, after others may have acted. */
    method WriteBack(ghost start: nat, first: nat, r: nat, item: (OperationId, OperationRow), turn: Turn)
      returns (written: Written)
      requires Valid() && start <= |history| && r >= first && Remembers(world, r, item)
      modifies this
      ensures Valid() && old(history) < history
      ensures SameListings(old(world).(listed := old(world).listed - {r}), world, first)
      ensures Recoveries(history, start, first) ==
        old(Recoveries(history, start, first)) + (if written == Accepted then {|history| - 1} else {})
      ensures written != Unclear ==> ReleasedAt(history, |history|, item.0, item.1.leaseOwner)
      ensures turn == CALM && AsListed(old(world).db, item) ==>
        written == Accepted && world.db.operations == old(world).db.operations[item.0 := Recovered(item.1)]
    {
      hide Run, Step, Licensed, Recoveries, FinishOperation;
      Yield(start, first, turn.others);
      ValidLicensed();
      RecoverStep(world, r, turn.call);
      var finished := FinishOperation(world.db, item.0, item.1.leaseOwner, false, item.1.reference);
      var l := Recover(r, turn.call);
      RecoveriesAppend(history, l, start, first);
      LastRecovers(history, l, first);
      Act(l);
      assert history[..|history|] == history;
      if turn.call != Replied {
        return Unclear;
      }
      if finished == Err(StateConflict) {
        return Conflict;
      }
      if finished.Err? {
        return Unclear;
      }
      return Accepted;
    }

    lemma LastRecovers(before: seq<Label>, l: Label, first: nat)
      requires Run(START, before).Some? && l.Recover? && Own(l, first)
      requires l.recoverer in Run(START, before).value.listed
      ensures var w := Run(START, before).value;
        Recovers(before + [l], |before|, first) <==>
          l.call == Replied && HoldsLease(w.db, w.listed[l.recoverer].operation, w.listed[l.recoverer].owner)
    {
      hide Run;
      PrefixOf(before, [l], |before|);
      assert before[..|before|] == before;
    }

    /** One batch: a conflict means that somebody else was faster, and is passed over; any other failure ends it. */
    method RecoverBatch(
        ghost start: nat, first: nat, base: nat, items: seq<(OperationId, OperationRow)>, ghost ids: set<OperationId>,
          round: Round)
      returns (recovered: nat, broken: bool)
      requires Valid() && start <= |history| && first <= base && OpenFrom(world, first, base, items, 0)
      modifies this
      ensures Valid() && old(history) <= history
      ensures old(Recoveries(history, start, first)) <= Recoveries(history, start, first)
      ensures |Recoveries(history, start, first)| == |old(Recoveries(history, start, first))| + recovered
      ensures !broken ==>
        AllReleased(history, |old(history)|, items, |items|) && OpenFrom(world, first, base, items, |items|)
      ensures round.Calm() && Listing(old(world).db, items, ids) && ids <= ExecutingIds(old(world).db) ==>
        !broken && recovered == |items| && Swept(old(world).db, world.db, ids)
    {
      hide Run, Recoveries, AllReleased, OpenFrom, SweptFirst, Swept, Listing, ExecutingIds, ReleasedAt;
      recovered, broken := 0, false;
      ghost var before := world.db;
      ghost var calm := round.Calm() && Listing(before, items, ids) && ids <= ExecutingIds(before);
      SweptNone(before, items);
      NoneReleased(history, |history|, items);
      for i := 0 to |items|
        invariant Valid() && old(history) <= history
        invariant old(Recoveries(history, start, first)) <= Recoveries(history, start, first)
        invariant |Recoveries(history, start, first)| == |old(Recoveries(history, start, first))| + recovered
        invariant AllReleased(history, |old(history)|, items, i) && OpenFrom(world, first, base, items, i)
        invariant calm ==> recovered == i && SweptFirst(before, world.db, items, i)
      {
        ghost var w, h := world, history;
        OpenHas(world, first, base, items, i);
        if calm { NotSweptYet(before, world.db, items, ids, i); }
        var written := WriteBack(start, first, base + i, items[i], round.TurnOf(i));
        RecoveriesWithin(h, start, first);
        OpenNext(w, world, first, base, items, i);
        if calm { SweptNext(before, w.db, world.db, items, ids, i); }
        if written == Unclear {
          return recovered, true;
        }
        AllReleasedStay(h, history, |old(history)|, items, i);
        OneMoreReleased(history, |old(history)|, items, i);
        if written == Conflict {
          continue;
        }
        recovered := recovered + 1;
      }
      if calm { SweptAll(before, world.db, items, ids); }
    }

    /** Fails the operations whose lease has run out, batch by batch, until a query finds less than a full batch
        or nothing of one can be recovered.  The total counts exactly the write-backs that were accepted. */
    method RecoverExpiredOperations(first: nat, schedule: seq<Round>)
      returns (total: nat, outcome: Outcome, ghost round: nat, ghost last: nat, items: seq<(OperationId, OperationRow)>)
      requires Valid() && NoneFrom(world, first, first)
      modifies this
      ensures Valid() && old(history) <= history && round <= |schedule|
      ensures total == |Recoveries(history, |old(history)|, first)|
      ensures outcome == Done ==>
        round < |schedule| && |old(history)| <= last && Finished(history, first, last, schedule[round].now, items)
      ensures AllCalm(schedule) ==>
        && outcome != CallFailed
        && (|schedule| > |ExecutingIds(old(world).db)| ==> outcome == Done)
        && total == |ExecutingIds(old(world).db) - ExecutingIds(world.db)|
        && (outcome == Done ==>
              OnlyRecovered(old(world).db, world.db, schedule[round].now)
                && ExpiredIds(world.db, schedule[round].now) == {})
    {
      hide Run, Recoveries, AllReleased, OpenFrom, Swept, Listing, Earliest, ExecutingIds, ExpiredIds, OnlyRecovered;
      hide Calmly;
      total, round, last, items := 0, 0, |history|, [];
      var base := first;
      ghost var start, before, calm := |history|, world.db, AllCalm(schedule);
      RecoveriesWithin(history, start, first);
      CalmlyStarts(before, if |schedule| > 0 then schedule[0].now else 0);
      for k := 0 to |schedule|
        invariant Valid() && old(history) <= history && first <= base && NoneFrom(world, first, base) && round <= k
        invariant total == |Recoveries(history, start, first)|
        invariant calm ==> Calmly(before, world.db, ClockAt(schedule, k), k, total)
      {
        round := k;
        Yield(start, first, schedule[k].others);
        if !schedule[k].readable {
          return total, CallFailed, round, last, items;
        }
        ghost var ids;
        items, ids := ListExpired(start, first, base, schedule[k].now, RECOVERY_BATCH_SIZE);
        last := |history|;
        ghost var listed, db := history, world.db;
        QueryFacts(db, schedule[k].now, items, ids);
        if calm { CalmlyGives(before, db, schedule[k].now, k, total); }
        if |items| == 0 {
          NoneReleased(history, last, items);
          assert history[..last] == history;
          return total, Done, round, last, items;
        }
        OpenAll(world, first, base, items);
        var recovered, broken := RecoverBatch(start, first, base, items, ids, schedule[k]);
        if calm { CalmlyOn(before, db, world.db, schedule[k].now, k, total, ids); }
        total := total + recovered;
        if calm { CalmlyGives(before, world.db, schedule[k].now, k + 1, total); }
        if broken {
          return total, CallFailed, round, last, items;
        }
        OpenNone(world, first, base, items);
        assert history[..last] == listed;
        if recovered == 0 { NoneSince(listed, history, start, first); }
        base := base + |items|;
        if calm && k + 1 < |schedule| {
          CalmlyLater(before, world.db, schedule[k].now, schedule[k + 1].now, k + 1, total);
        }
        if |items| < RECOVERY_BATCH_SIZE || recovered == 0 {
          return total, Done, round, last, items;
        }
      }
      if calm { CalmlyGives(before, world.db, ClockAt(schedule, |schedule|), |schedule|, total); }
      return total, Interrupted, round, last, items;
    }
  }

  // ---------------------------------------------------------------- what was recovered

  lemma StepListing(w: World, l: Label, r: nat)
    requires Step(w, l).Some? && r in Step(w, l).value.listed
    ensures (r in w.listed && Step(w, l).value.listed[r] == w.listed[r]) || (l.List? && l.recoverer == r)
  {
    hide MessageReference, EventReference, FirstPhase, ClaimOperation, CheckpointOperation, FinishOperation;
    hide SaveDraft, DeleteDraft, SubmitForConfirmation, Decide, PrepareRequest;
    if l.Claim? || l.SaveReference? || l.Finish? {
      hide StepCreateMail, StepLookUp, StepSend, StepCreateEvent, StepList, StepRecover;
    } else {
      hide StepClaim, StepSaveReference, StepFinish;
    }
  }

  /** Step j of a history lists, under id r, an operation whose lease has run out. */
  ghost predicate ListsExpired(history: seq<Label>, j: nat, r: nat, item: Listed) {
    && j < |history| && history[j].List? && history[j].recoverer == r && history[j].operation == item.operation
    && Run(START, history[..j]).Some?
    && var db := Run(START, history[..j]).value.db;
       && item.operation in db.operations && Expired(db.operations[item.operation], history[j].now)
       && item == Listed(item.operation, db.operations[item.operation].leaseOwner,
            db.operations[item.operation].attempt,
                         db.operations[item.operation].reference)
  }

  lemma {:induction false} WhenListed(history: seq<Label>, start: nat, i: nat, r: nat) returns (j: nat)
    requires Run(START, history).Some? && start <= i <= |history|
    requires Run(START, history[..start]).Some? && r !in Run(START, history[..start]).value.listed
    requires Run(START, history[..i]).Some? && r in Run(START, history[..i]).value.listed
    ensures start <= j < i && ListsExpired(history, j, r, Run(START, history[..i]).value.listed[r])
    decreases i
  {
    hide Run, Step;
    RunStep(START, history, i - 1);
    var w := Run(START, history[..i - 1]).value;
    StepListing(w, history[i - 1], r);
    if history[i - 1].List? && history[i - 1].recoverer == r {
      j := i - 1;
      ListsWhat(w, history[i - 1]);
    } else {
      j := WhenListed(history, start, i - 1, r);
    }
  }

  lemma ListsWhat(w: World, l: Label)
    requires l.List? && Step(w, l).Some?
    ensures l.operation in w.db.operations && Expired(w.db.operations[l.operation], l.now)
    ensures var row, next := w.db.operations[l.operation], Step(w, l).value;
      l.recoverer in next.listed && next.listed[l.recoverer] ==
        Listed(l.operation, row.leaseOwner, row.attempt, row.reference)
  {
  }

  /** Each write-back counted was due: since the call began its operation had been listed with an expired lease,
      the listed owner still held the lease, and the row is now failed under the listed reference. */
  lemma RecoveryWasDue(history: seq<Label>, start: nat, first: nat, i: nat) returns (j: nat)
    requires Run(START, history).Some? && i in Recoveries(history, start, first)
    requires Run(START, history[..start]).Some? && NoneFrom(Run(START, history[..start]).value, first, first)
    ensures start <= j < i < |history| && Run(START, history[..i]).Some? && Run(START, history[..i + 1]).Some?
    ensures var w, after := Run(START, history[..i]).value, Run(START, history[..i + 1]).value;
      history[i].Recover? && history[i].recoverer in w.listed
      && var item := w.listed[history[i].recoverer];
         && ListsExpired(history, j, history[i].recoverer, item)
         && HoldsLease(w.db, item.operation, item.owner)
         && after.db.operations == w.db.operations[item.operation :=
              FinishedRow(w.db.operations[item.operation], false, item.reference)]
  {
    hide Run, Step, Consistent, Licensed;
    j := WhenListed(history, start, i, history[i].recoverer);
    RunStep(START, history, i);
    var w := Run(START, history[..i]).value;
    StartLicensed();
    RunLicensed(START, history[..i]);
    RecoverStep(w, history[i].recoverer, Replied);
  }

  // ---------------------------------------------------------------- when recovery itself breaks the timing

  predicate ClaimTakesEffect(w: World, l: Label, o: OperationId) {
    l.Claim? && l.operation == o && l.call != NoEffect && ClaimOperation(w.db, o, l.owner, l.until).Ok?
  }

  ghost predicate ClaimedAt(history: seq<Label>, m: nat, o: OperationId) {
    m < |history| && Run(START, history[..m]).Some? && ClaimTakesEffect(Run(START, history[..m]).value, history[m], o)
  }

  /** Attempt numbers count the claims that take effect, and change with nothing else. */
  lemma StepAttempt(w: World, l: Label, o: OperationId)
    requires Licensed(w) && Step(w, l).Some? && o in w.db.operations
    ensures o in Step(w, l).value.db.operations
    ensures Step(w, l).value.db.operations[o].attempt ==
      w.db.operations[o].attempt + if ClaimTakesEffect(w, l, o) then 1 else 0
  {
    hide Licensed, Consistent, ClaimOperation, CheckpointOperation, FinishOperation;
    hide StepClaim, StepSaveReference, StepCreateMail, StepLookUp, StepSend, StepCreateEvent, StepFinish, StepRecover;
    match l
    case Claim(a, p, owner, until, call) => ClaimAttempt(w, a, p, owner, until, call, o);
    case SaveReference(a, call) => SaveAttempt(w, a, call, o);
    case Finish(a, call) => FinishAttempt(w, a, call, o);
    case Recover(r, call) => RecoverAttempt(w, r, call, o);
    case SaveADraft(_, _, _, _) => RequestAttempt(w, l, o);
    case Submit(_) => RequestAttempt(w, l, o);
    case Confirm(_, _) => RequestAttempt(w, l, o);
    case Delete(_) => RequestAttempt(w, l, o);
    case Prepare(_, _) => RequestAttempt(w, l, o);
    case _ => RemoteAttempt(w, l);
  }

  lemma ClaimAttempt(w: World, a: nat, p: OperationId, owner: string, until: int, call: Call, o: OperationId)
    requires Licensed(w) && StepClaim(w, a, p, owner, until, call).Some? && o in w.db.operations
    ensures var next := StepClaim(w, a, p, owner, until, call).value;
      && o in next.db.operations
      && next.db.operations[o].attempt ==
           w.db.operations[o].attempt
           + if p == o && call != NoEffect && ClaimOperation(w.db, o, owner, until).Ok? then 1 else 0
  {
    hide Consistent, ClaimOperation, FirstPhase;
    assert Consistent(w.db);
    if ClaimOperation(w.db, p, owner, until).Ok? { ClaimFacts(w.db, p, owner, until); }
  }

  lemma SaveAttempt(w: World, a: nat, call: Call, o: OperationId)
    requires Licensed(w) && StepSaveReference(w, a, call).Some? && o in w.db.operations
    ensures var next := StepSaveReference(w, a, call).value;
      o in next.db.operations && next.db.operations[o].attempt == w.db.operations[o].attempt
  {
    hide Consistent, CheckpointOperation, MessageReference, EventReference;
    assert Consistent(w.db);
    var x := w.attempts[a];
    var reference := if x.phase.SavingMail? then MessageReference(x.phase.message) else EventReference(x.phase.event);
    if CheckpointOperation(w.db, x.operation, x.owner, reference).Ok? {
      CheckpointFacts(w.db, x.operation, x.owner, reference);
    }
  }

  lemma FinishAttempt(w: World, a: nat, call: Call, o: OperationId)
    requires Licensed(w) && StepFinish(w, a, call).Some? && o in w.db.operations
    ensures var next := StepFinish(w, a, call).value;
      o in next.db.operations && next.db.operations[o].attempt == w.db.operations[o].attempt
  {
    hide Consistent, FinishOperation;
    assert Consistent(w.db);
    var x := w.attempts[a];
    FinishFacts(w.db, x.operation, x.owner, x.phase.completed, x.phase.result);
  }

  lemma RecoverAttempt(w: World, r: nat, call: Call, o: OperationId)
    requires Licensed(w) && StepRecover(w, r, call).Some? && o in w.db.operations
    ensures var next := StepRecover(w, r, call).value;
      o in next.db.operations && next.db.operations[o].attempt == w.db.operations[o].attempt
  {
    hide Consistent, FinishOperation;
    assert Consistent(w.db);
    FinishFacts(w.db, w.listed[r].operation, w.listed[r].owner, false, w.listed[r].reference);
  }

  lemma RequestAttempt(w: World, l: Label, o: OperationId)
    requires Licensed(w) && Step(w, l).Some? && o in w.db.operations
    requires l.SaveADraft? || l.Submit? || l.Confirm? || l.Delete? || l.Prepare?
    ensures var next := Step(w, l).value;
      o in next.db.operations && next.db.operations[o].attempt == w.db.operations[o].attempt
  {
    hide Consistent, Step;
    RequestDb(w, l);
    RequestUndisturbed(w.db, l);
  }

  lemma RemoteAttempt(w: World, l: Label)
    requires Step(w, l).Some?
    requires l.CreateMail? || l.LookUp? || l.Send? || l.CreateEvent? || l.Crash? || l.List?
    ensures Step(w, l).value.db == w.db
  {
    hide StepClaim, StepSaveReference, StepFinish, StepRecover;
  }

  /** Between two moments of a run the attempt number moves exactly when a claim takes effect. */
  lemma {:induction false} AttemptBetween(history: seq<Label>, j: nat, i: nat, o: OperationId)
    requires Run(START, history).Some? && j <= i <= |history|
    requires Run(START, history[..j]).Some? && o in Run(START, history[..j]).value.db.operations
    ensures Run(START, history[..i]).Some? && o in Run(START, history[..i]).value.db.operations
    ensures var before, after := Run(START, history[..j]).value, Run(START, history[..i]).value;
      && before.db.operations[o].attempt <= after.db.operations[o].attempt
      && (before.db.operations[o].attempt == after.db.operations[o].attempt <==>
            forall m: nat | j <= m < i :: !ClaimedAt(history, m, o))
    decreases i
  {
    hide Run, Step, Licensed, ClaimTakesEffect;
    if j < i {
      AttemptBetween(history, j, i - 1, o);
      RunStep(START, history, i - 1);
      StartLicensed();
      RunLicensed(START, history[..i - 1]);
      var last: nat := i - 1;
      StepAttempt(Run(START, history[..last]).value, history[last], o);
      assert ClaimedAt(history, last, o) <==> ClaimTakesEffect(Run(START, history[..last]).value, history[last], o);
    }
  }

  /** Own step i comes at the wrong time: it lists an operation with an attempt at work, or it writes back, under a
      lease still held by the listed owner, what was listed before a later claim. */
  ghost predicate Late(history: seq<Label>, i: nat) {
    && i < |history| && Run(START, history[..i]).Some?
    && var w, l := Run(START, history[..i]).value, history[i];
       if l.List? then Live(w, l.operation)
       else
         && l.Recover? && l.recoverer in w.listed && l.call != NoEffect
         && HoldsLease(w.db, w.listed[l.recoverer].operation, w.listed[l.recoverer].owner)
         && ClaimedSince(history, i, l.recoverer, w.listed[l.recoverer])
  }

  /** A claim of the operation took effect between its listing and step i. */
  ghost predicate ClaimedSince(history: seq<Label>, i: nat, r: nat, item: Listed) {
    exists j: nat, m: nat :: j <= m < i && ListsExpired(history, j, r, item) && ClaimedAt(history, m, item.operation)
  }

  lemma ListedNumber(history: seq<Label>, start: nat, i: nat, first: nat)
    requires Run(START, history).Some? && start <= i < |history| && Own(history[i], first)
    requires Run(START, history[..start]).Some? && NoneFrom(Run(START, history[..start]).value, first, first)
    requires Run(START, history[..i]).Some? && history[i].recoverer in Run(START, history[..i]).value.listed
    ensures var w, r := Run(START, history[..i]).value, history[i].recoverer;
      && w.listed[r].operation in w.db.operations
      && (ClaimedSince(history, i, r, w.listed[r]) <==>
            w.db.operations[w.listed[r].operation].attempt != w.listed[r].number)
  {
    hide Run, Step, ClaimedAt, ListsExpired;
    var w, r := Run(START, history[..i]).value, history[i].recoverer;
    var item := w.listed[r];
    var j := WhenListed(history, start, i, r);
    ListedThen(history, j, r, item);
    AttemptBetween(history, j, i, item.operation);
    if ClaimedSince(history, i, r, item) {
      var k: nat, m: nat :| k <= m < i && ListsExpired(history, k, r, item) && ClaimedAt(history, m, item.operation);
      ListedThen(history, k, r, item);
      AttemptBetween(history, k, i, item.operation);
    }
  }

  lemma ListedThen(history: seq<Label>, j: nat, r: nat, item: Listed)
    requires ListsExpired(history, j, r, item)
    ensures j < |history| && Run(START, history[..j]).Some?
    ensures item.operation in Run(START, history[..j]).value.db.operations
    ensures Run(START, history[..j]).value.db.operations[item.operation].attempt == item.number
  {
    hide Run;
  }

  lemma OwnIsTimely(history: seq<Label>, start: nat, first: nat, i: nat)
    requires Run(START, history).Some? && start <= i < |history| && Own(history[i], first)
    requires Run(START, history[..start]).Some? && NoneFrom(Run(START, history[..start]).value, first, first)
    ensures Run(START, history[..i]).Some?
    ensures Timely(Run(START, history[..i]).value, history[i]) <==> !Late(history, i)
  {
    hide Run, Step, ClaimedSince;
    RunStep(START, history, i);
    var w, l := Run(START, history[..i]).value, history[i];
    if l.Recover? && l.recoverer in w.listed { ListedNumber(history, start, i, first); }
  }

  /** Which steps of the service can break the timing: as long as the others keep it, a history from `start` on stays
      timely if and only if no listing of the call's own meets an attempt at work, and no write-back of its own comes
      under its listed owner's lease after a later claim. */
  lemma RecoveryIsTimelyExactly(history: seq<Label>, start: nat, first: nat)
    requires Run(START, history).Some? && start <= |history| && TimelyRun(START, history[..start])
    requires Run(START, history[..start]).Some? && NoneFrom(Run(START, history[..start]).value, first, first)
    requires forall i: nat | start <= i < |history| && !Own(history[i], first) ::
      Run(START, history[..i]).Some? && Timely(Run(START, history[..i]).value, history[i])
    ensures TimelyRun(START, history) <==>
      forall i: nat | start <= i < |history| && Own(history[i], first) :: !Late(history, i)
  {
    hide Run, Timely, Every, Late, Own;
    EveryStepwise(Timely, START, history);
    EveryStepwise(Timely, START, history[..start]);
    forall i: nat | i < start
      ensures Run(START, history[..i]).Some? && Timely(Run(START, history[..i]).value, history[i])
    {
      assert history[..start][..i] == history[..i] && history[..start][i] == history[i];
      assert Run(START, history[..start][..i]).Some?
        && Timely(Run(START, history[..start][..i]).value, history[..start][i]);
    }
    forall i: nat | start <= i < |history| && Own(history[i], first)
      ensures Run(START, history[..i]).Some?
      ensures Timely(Run(START, history[..i]).value, history[i]) <==> !Late(history, i)
    {
      OwnIsTimely(history, start, first, i);
    }
  }
}
