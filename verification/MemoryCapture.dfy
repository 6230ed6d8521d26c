/** Long-term memory merging: Capture of internal/memory/service.go plans a batch against one reading of
    the store and then writes it row by row. */
module MemoryCapture {
  import opened Common

  const MAX_CONTENT_RUNES := 2_000
  const MAX_KEY_RUNES := 120

  datatype Memory = Memory(
    id: string, kind: string, key: string, content: string, importance: real, userEdited: bool,
    conversationId: string, messageId: string, createdAt: int, updatedAt: int, expiresAt: Option<int>)

  datatype Candidate = Candidate(kind: string, key: string, content: string, importance: real, expiresAt: Option<int>)

  datatype Source = Source(conversationId: string, messageId: string)

  datatype Slot = Slot(kind: string, key: string)

  /** Text rules that Capture applies but does not own: trimming and key normalisation, and the list of
      sensitive labels. */
  datatype Rules = Rules(normalize: Candidate -> Candidate, sensitive: string -> bool)

  /** One owner's rows by id. */
  type Table = map<string, Memory>

  datatype Change = Change(item: Memory, create: bool)

  function SlotOf(m: Memory): Slot { Slot(m.kind, m.key) }

  function CandidateSlot(c: Candidate): Slot { Slot(c.kind, c.key) }

  /** The primary key and the unique index on non-empty (kind, memory_key). */
  predicate WellFormed(table: Table) {
    && (forall id | id in table :: table[id].id == id)
    && (forall i, j | i in table && j in table && table[i].key != "" && SlotOf(table[i]) == SlotOf(table[j]) :: i == j)
  }

  predicate Valid(rules: Rules, c: Candidate, now: int) {
    && 0 < |c.key| <= MAX_KEY_RUNES
    && !rules.sensitive(c.content)
    && (c.kind == "semantic" || c.kind == "episodic")
    && 0 < |c.content| <= MAX_CONTENT_RUNES
    && 0.0 <= c.importance <= 1.0
    && (c.expiresAt.Some? ==> c.expiresAt.value > now)
  }

  function Max(a: real, b: real): real { if a < b then b else a }

  predicate Unchanged(m: Memory, c: Candidate) {
    m.content == c.content && m.importance >= c.importance && m.expiresAt == c.expiresAt
  }

  function Merge(m: Memory, c: Candidate, source: Source, now: int): Memory {
    m.(content := c.content, importance := Max(m.importance, c.importance), expiresAt := c.expiresAt,
       conversationId := source.conversationId, messageId := source.messageId, updatedAt := now)
  }

  function NewMemory(id: string, c: Candidate, source: Source, now: int): Memory {
    Memory(id, c.kind, c.key, c.content, c.importance, false, source.conversationId, source.messageId, now, now,
      c.expiresAt)
  }

  predicate Holds(table: Table, slot: Slot, m: Memory) {
    m.id in table && table[m.id] == m && SlotOf(m) == slot
  }

  /** GetMemoryByKey: the row of a slot. */
  ghost function Find(table: Table, slot: Slot): (found: Option<Memory>)
    ensures found.Some? ==> found.value in table.Values && SlotOf(found.value) == slot
    ensures found.None? ==> forall id | id in table :: SlotOf(table[id]) != slot
  {
    if id :| id in table && SlotOf(table[id]) == slot then Some(table[id]) else None
  }

  lemma FindHolds(table: Table, slot: Slot)
    requires WellFormed(table) && slot.key != ""
    ensures var found := Find(table, slot);
      match found
      case Some(m) => Holds(table, slot, m) && forall n | Holds(table, slot, n) :: n == m
      case None => forall n :: !Holds(table, slot, n)
  {
    var found := Find(table, slot);
    if found.Some? {
      var id :| id in table && table[id] == found.value;
    }
  }

  // ---------------------------------------------------------------- one candidate at a time

  /** The reference meaning of a capture: each valid candidate is merged into the table by itself. */
  ghost function ApplyOne(table: Table, c: Candidate, id: string, source: Source, now: int): Table {
    match Find(table, CandidateSlot(c))
    case Some(m) => if m.userEdited || Unchanged(m, c) then table else table[m.id := Merge(m, c, source, now)]
    case None => table[id := NewMemory(id, c, source, now)]
  }

  ghost function ApplyAll(rules: Rules, table: Table, candidates: seq<Candidate>, ids: seq<string>, source: Source,
      now: int): Table
    requires |ids| == |candidates|
  {
    if candidates == [] then table
    else
      var last := |candidates| - 1;
      var before := ApplyAll(rules, table, candidates[..last], ids[..last], source, now);
      var c := rules.normalize(candidates[last]);
      if Valid(rules, c, now) then ApplyOne(before, c, ids[last], source, now) else before
  }

  /** A candidate that leaves the table as it is: invalid, for a slot in the user's own words, or nothing new. */
  ghost predicate PassedOver(rules: Rules, table: Table, c: Candidate, now: int) {
    !Valid(rules, c, now)
    || match Find(table, CandidateSlot(c))
       case Some(m) => m.userEdited || Unchanged(m, c)
       case None => false
  }

  /** How many candidates are passed over, each judged against the table that the earlier ones leave. */
  ghost function CountPassedOver(
      rules: Rules, table: Table, candidates: seq<Candidate>, ids: seq<string>, source: Source, now: int): nat
    requires |ids| == |candidates|
  {
    if candidates == [] then 0
    else
      var last := |candidates| - 1;
      var before := ApplyAll(rules, table, candidates[..last], ids[..last], source, now);
      CountPassedOver(rules, table, candidates[..last], ids[..last], source, now)
      + if PassedOver(rules, before, rules.normalize(candidates[last]), now) then 1 else 0
  }

  /** New ids are new. */
  predicate FreshIds(ids: seq<string>, table: Table) {
    && (forall i | 0 <= i < |ids| :: ids[i] !in table)
    && (forall i, j | 0 <= i < j < |ids| :: ids[i] != ids[j])
  }

  // ---------------------------------------------------------------- the batch

  function Written(table: Table, changes: seq<Change>): Table {
    if changes == [] then table
    else Written(table, changes[..|changes| - 1])[changes[|changes| - 1].item.id := changes[|changes| - 1].item]
  }

  /** A plan pending on a table: its changes touch distinct rows of distinct slots, `pending` indexes them by
      slot, and nothing planned is a user's own wording. */
  ghost predicate Planned(table: Table, changes: seq<Change>, pending: map<Slot, nat>) {
    && (forall k | 0 <= k < |changes| ::
          var item := changes[k].item;
          && item.key != "" && !item.userEdited
          && SlotOf(item) in pending && pending[SlotOf(item)] == k
          && (changes[k].create <==> item.id !in table)
          && (item.id in table ==> SlotOf(table[item.id]) == SlotOf(item) && !table[item.id].userEdited)
          && (item.id !in table ==> forall id | id in table :: SlotOf(table[id]) != SlotOf(item)))
    && (forall slot | slot in pending :: pending[slot] < |changes| && SlotOf(changes[pending[slot]].item) == slot)
    && (forall j, k | 0 <= j < k < |changes| :: changes[j].item.id != changes[k].item.id)
  }

  ghost predicate Changes(changes: seq<Change>, id: string) {
    exists k | 0 <= k < |changes| :: changes[k].item.id == id
  }

  lemma {:induction false} WrittenKeys(table: Table, changes: seq<Change>, id: string)
    ensures id in Written(table, changes) <==> id in table || Changes(changes, id)
    ensures !Changes(changes, id) && id in table ==> Written(table, changes)[id] == table[id]
  {
    if changes != [] {
      var last := |changes| - 1;
      WrittenKeys(table, changes[..last], id);
      if Changes(changes[..last], id) {
        var k :| 0 <= k < last && changes[..last][k].item.id == id;
        assert changes[k].item.id == id;
      }
    }
  }

  lemma {:induction false} WrittenAt(table: Table, changes: seq<Change>, k: nat)
    requires k < |changes|
    requires forall i, j | 0 <= i < j < |changes| :: changes[i].item.id != changes[j].item.id
    ensures changes[k].item.id in Written(table, changes)
      && Written(table, changes)[changes[k].item.id] == changes[k].item
  {
    var last := |changes| - 1;
    if k < last {
      WrittenAt(table, changes[..last], k);
    }
  }

  lemma WrittenRows(table: Table, changes: seq<Change>)
    requires forall j, k | 0 <= j < k < |changes| :: changes[j].item.id != changes[k].item.id
    ensures forall id :: id in Written(table, changes) <==> id in table || Changes(changes, id)
    ensures forall k | 0 <= k < |changes| ::
      changes[k].item.id in Written(table, changes) && Written(table, changes)[changes[k].item.id] == changes[k].item
    ensures forall id | id in table && !Changes(changes, id) ::
      id in Written(table, changes) && Written(table, changes)[id] == table[id]
  {
    forall id
      ensures id in Written(table, changes) <==> id in table || Changes(changes, id)
    {
      WrittenKeys(table, changes, id);
    }
    forall id | id in table && !Changes(changes, id)
      ensures id in Written(table, changes) && Written(table, changes)[id] == table[id]
    {
      WrittenKeys(table, changes, id);
    }
    forall k | 0 <= k < |changes|
      ensures changes[k].item.id in Written(table, changes)
        && Written(table, changes)[changes[k].item.id] == changes[k].item
    {
      WrittenAt(table, changes, k);
    }
  }

  lemma ChangeOf(changes: seq<Change>, id: string) returns (k: nat)
    requires Changes(changes, id)
    ensures k < |changes| && changes[k].item.id == id
  {
    k :| 0 <= k < |changes| && changes[k].item.id == id;
  }

  lemma WrittenWellFormed(table: Table, changes: seq<Change>, pending: map<Slot, nat>)
    requires WellFormed(table) && Planned(table, changes, pending)
    ensures WellFormed(Written(table, changes))
  {
    hide Written, Changes;
    WrittenRows(table, changes);
    var after := Written(table, changes);
    forall i | i in after && !Changes(changes, i) ensures i in table && after[i] == table[i] {
    }
    forall i | i in after && Changes(changes, i)
      ensures exists k | 0 <= k < |changes| :: changes[k].item.id == i && after[i] == changes[k].item
    {
      var k := ChangeOf(changes, i);
    }
  }

  /** What the pending plan has in a slot, against what the store has. */
  lemma PlannedSlots(table: Table, changes: seq<Change>, pending: map<Slot, nat>, slot: Slot)
    requires WellFormed(table) && Planned(table, changes, pending) && slot.key != ""
    ensures Find(Written(table, changes), slot) == if slot in pending then Some(changes[pending[slot]].item)
      else Find(table, slot)
  {
    var after := Written(table, changes);
    WrittenWellFormed(table, changes, pending);
    FindHolds(after, slot);
    WrittenRows(table, changes);
    if slot in pending {
      assert Holds(after, slot, changes[pending[slot]].item);
    } else {
      FindHolds(table, slot);
      if Find(after, slot).Some? {
        var m := Find(after, slot).value;
        assert m.id in table && table[m.id] == m by {
          assert forall k | 0 <= k < |changes| :: changes[k].item.id != m.id;
        }
        assert Holds(table, slot, m);
      } else if Find(table, slot).Some? {
        var m := Find(table, slot).value;
        assert forall k | 0 <= k < |changes| :: changes[k].item.id != m.id;
        assert Holds(after, slot, m);
      }
    }
  }

  // ---------------------------------------------------------------- building the plan

  lemma {:induction false} WrittenReplace(table: Table, changes: seq<Change>, k: nat, item: Memory)
    requires k < |changes| && item.id == changes[k].item.id
    requires forall i, j | 0 <= i < j < |changes| :: changes[i].item.id != changes[j].item.id
    ensures Written(table, changes[k := changes[k].(item := item)]) == Written(table, changes)[item.id := item]
  {
    var last := |changes| - 1;
    var replaced := changes[k := changes[k].(item := item)];
    if k == last {
      assert replaced[..last] == changes[..last];
    } else {
      assert replaced[..last] == changes[..last][k := changes[k].(item := item)];
      WrittenReplace(table, changes[..last], k, item);
    }
  }

  lemma WrittenAppend(table: Table, changes: seq<Change>, change: Change)
    ensures Written(table, changes + [change]) == Written(table, changes)[change.item.id := change.item]
  {
    assert (changes + [change])[..|changes|] == changes;
  }

  lemma PlannedReplace(table: Table, changes: seq<Change>, pending: map<Slot, nat>, k: nat, item: Memory)
    requires Planned(table, changes, pending) && k < |changes|
    requires item.id == changes[k].item.id && SlotOf(item) == SlotOf(changes[k].item) && !item.userEdited
    ensures Planned(table, changes[k := changes[k].(item := item)], pending)
  {
  }

  lemma PlannedAppend(table: Table, changes: seq<Change>, pending: map<Slot, nat>, item: Memory)
    requires WellFormed(table) && Planned(table, changes, pending)
    requires item.key != "" && !item.userEdited && SlotOf(item) !in pending
    requires if item.id in table then SlotOf(table[item.id]) == SlotOf(item) && !table[item.id].userEdited
             else (forall id | id in table :: SlotOf(table[id]) != SlotOf(item)) && forall k | 0 <= k < |changes| ::
               changes[k].item.id != item.id
    ensures Planned(table, changes + [Change(item, item.id !in table)], pending[SlotOf(item) := |changes|])
  {
    assert forall k | 0 <= k < |changes| :: SlotOf(changes[k].item) in pending;
  }

  lemma PlannedAt(table: Table, changes: seq<Change>, pending: map<Slot, nat>, slot: Slot)
    requires Planned(table, changes, pending) && slot in pending
    ensures pending[slot] < |changes| && SlotOf(changes[pending[slot]].item) == slot
      && !changes[pending[slot]].item.userEdited
    ensures forall i, j | 0 <= i < j < |changes| :: changes[i].item.id != changes[j].item.id
  {
  }

  lemma NothingPlanned(rules: Rules, table: Table, source: Source, now: int)
    ensures Planned(table, [], map[]) && Written(table, []) == table
      && ApplyAll(rules, table, [], [], source, now) == table
  {
  }

  lemma NothingPassedOver(rules: Rules, table: Table, source: Source, now: int)
    ensures CountPassedOver(rules, table, [], [], source, now) == 0
  {
  }

  lemma ApplyNext(rules: Rules, table: Table, candidates: seq<Candidate>, ids: seq<string>, source: Source, now: int,
      i: nat)
    requires |ids| == |candidates| && i < |candidates|
    ensures var before, c := ApplyAll(rules, table, candidates[..i], ids[..i], source, now),
      rules.normalize(candidates[i]);
      ApplyAll(rules, table, candidates[..i + 1], ids[..i + 1], source, now)
      == if Valid(rules, c, now) then ApplyOne(before, c, ids[i], source, now) else before
  {
    assert candidates[..i + 1][..i] == candidates[..i] && ids[..i + 1][..i] == ids[..i];
  }

  lemma CountNext(rules: Rules, table: Table, candidates: seq<Candidate>, ids: seq<string>, source: Source, now: int,
      i: nat)
    requires |ids| == |candidates| && i < |candidates|
    ensures var before := ApplyAll(rules, table, candidates[..i], ids[..i], source, now);
      CountPassedOver(rules, table, candidates[..i + 1], ids[..i + 1], source, now)
      == CountPassedOver(rules, table, candidates[..i], ids[..i], source, now)
         + if PassedOver(rules, before, rules.normalize(candidates[i]), now) then 1 else 0
  {
    assert candidates[..i + 1][..i] == candidates[..i] && ids[..i + 1][..i] == ids[..i];
  }

  /** The fresh id for a candidate is in no row and no planned change. */
  lemma FreshForPlan(table: Table, changes: seq<Change>, ids: seq<string>, i: nat)
    requires FreshIds(ids, table) && i < |ids|
    requires forall k | 0 <= k < |changes| :: changes[k].item.id in table || changes[k].item.id in ids[..i]
    ensures ids[i] !in table && forall k | 0 <= k < |changes| :: changes[k].item.id != ids[i]
  {
  }

  lemma FoundRow(table: Table, slot: Slot)
    requires WellFormed(table) && slot.key != ""
    ensures var found := Find(table, slot);
      match found
      case Some(m) => m.id in table && table[m.id] == m && SlotOf(m) == slot
      case None => forall id | id in table :: SlotOf(table[id]) != slot
  {
    FindHolds(table, slot);
  }

  /** A valid candidate for the slot of a row, with something new for it. */
  predicate Touches(rules: Rules, m: Memory, c: Candidate, now: int) {
    var given := rules.normalize(c);
    Valid(rules, given, now) && CandidateSlot(given) == SlotOf(m) && !m.userEdited && !Unchanged(m, given)
  }

  ghost predicate Touched(rules: Rules, m: Memory, candidates: seq<Candidate>, now: int) {
    exists i | 0 <= i < |candidates| :: Touches(rules, m, candidates[i], now)
  }

  /** Exactly the rows that a candidate touches are in the plan. */
  ghost predicate PlansTouched(rules: Rules, table: Table, candidates: seq<Candidate>, now: int, changes: seq<Change>) {
    forall id | id in table :: Changes(changes, id) <==> Touched(rules, table[id], candidates, now)
  }

  lemma NothingTouched(rules: Rules, table: Table, now: int)
    ensures PlansTouched(rules, table, [], now, [])
  {
  }

  lemma TouchedNext(rules: Rules, m: Memory, candidates: seq<Candidate>, now: int, i: nat)
    requires i < |candidates|
    ensures Touched(rules, m, candidates[..i + 1], now) <==>
      Touched(rules, m, candidates[..i], now) || Touches(rules, m, candidates[i], now)
  {
    hide Touches;
    var before, after := candidates[..i], candidates[..i + 1];
    assert after == before + [candidates[i]];
    if Touched(rules, m, before, now) {
      var j :| 0 <= j < |before| && Touches(rules, m, before[j], now);
      assert after[j] == before[j];
    }
    if Touches(rules, m, candidates[i], now) { assert after[i] == candidates[i]; }
  }

  lemma PlansNext(rules: Rules, table: Table, candidates: seq<Candidate>, now: int, i: nat,
      changes: seq<Change>, next: seq<Change>)
    requires i < |candidates| && PlansTouched(rules, table, candidates[..i], now, changes)
    requires forall id | id in table ::
      Changes(next, id) <==> Changes(changes, id) || Touches(rules, table[id], candidates[i], now)
    ensures PlansTouched(rules, table, candidates[..i + 1], now, next)
  {
    hide Touches, Changes, Touched;
    forall id | id in table ensures Changes(next, id) <==> Touched(rules, table[id], candidates[..i + 1], now) {
      TouchedNext(rules, table[id], candidates, now, i);
    }
  }

  lemma ChangesReplace(changes: seq<Change>, k: nat, item: Memory, id: string)
    requires k < |changes| && item.id == changes[k].item.id
    ensures Changes(changes[k := changes[k].(item := item)], id) <==> Changes(changes, id)
  {
    var next := changes[k := changes[k].(item := item)];
    assert forall j | 0 <= j < |changes| :: next[j].item.id == changes[j].item.id;
    if Changes(changes, id) {
      var j := ChangeOf(changes, id);
      assert next[j].item.id == id;
    }
    if Changes(next, id) {
      var j := ChangeOf(next, id);
      assert changes[j].item.id == id;
    }
  }

  lemma ChangesAppend(changes: seq<Change>, change: Change, id: string)
    ensures Changes(changes + [change], id) <==> Changes(changes, id) || change.item.id == id
  {
    var next := changes + [change];
    if Changes(changes, id) {
      var j := ChangeOf(changes, id);
      assert next[j].item.id == id;
    }
    if Changes(next, id) {
      var j := ChangeOf(next, id);
      assert j < |changes| ==> changes[j].item.id == id;
    }
    assert next[|changes|] == change;
  }

  lemma InvalidTouches(rules: Rules, c: Candidate, now: int)
    requires !Valid(rules, rules.normalize(c), now)
    ensures forall m :: !Touches(rules, m, c, now)
  {
  }

  /** A candidate for a slot planned already touches no row that is not in the plan. */
  lemma PendingTouches(rules: Rules, table: Table, c: Candidate, now: int, changes: seq<Change>, pending: map<Slot,
      nat>)
    requires WellFormed(table) && Planned(table, changes, pending)
    requires Valid(rules, rules.normalize(c), now) && CandidateSlot(rules.normalize(c)) in pending
    ensures forall id | id in table && Touches(rules, table[id], c, now) :: Changes(changes, id)
  {
    var slot := CandidateSlot(rules.normalize(c));
    PlannedAt(table, changes, pending, slot);
    var k := pending[slot];
    assert changes[k].item.key != "";
    forall id | id in table && Touches(rules, table[id], c, now) ensures Changes(changes, id) {
      assert SlotOf(table[id]) == slot;
      assert changes[k].item.id == id;
    }
  }

  /** Otherwise it touches at most the row that the store has in its slot. */
  lemma StoredTouches(rules: Rules, table: Table, c: Candidate, now: int)
    requires WellFormed(table) && Valid(rules, rules.normalize(c), now)
    ensures var found := Find(table, CandidateSlot(rules.normalize(c)));
      forall id | id in table ::
        Touches(rules, table[id], c, now) <==>
          found.Some? && found.value.id == id && !found.value.userEdited && !Unchanged(found.value, rules.normalize(c))
  {
    var slot := CandidateSlot(rules.normalize(c));
    FoundRow(table, slot);
  }

  /** A row to be written is that of one accepted candidate: it may be stored at all, it is in that candidate's words,
      and it belongs to this conversation and moment.  A stored row keeps its date. */
  predicate Stores(rules: Rules, table: Table, c: Candidate, source: Source, now: int, item: Memory) {
    && item.kind == c.kind && item.key == c.key && item.content == c.content && item.expiresAt == c.expiresAt
    && !rules.sensitive(item.content) && 1 <= |item.content| <= 2_000 && 1 <= |item.key| <= 120
    && item.kind in {"semantic", "episodic"} && (item.expiresAt.Some? ==> item.expiresAt.value > now)
    && 0.0 <= c.importance <= 1.0 && c.importance <= item.importance
    && ((item.id in table ==> table[item.id].importance <= 1.0) ==> item.importance <= 1.0)
    && Source(item.conversationId, item.messageId) == source && item.updatedAt == now && !item.userEdited
    && item.createdAt == if item.id in table then table[item.id].createdAt else now
  }

  ghost predicate StoredFrom(rules: Rules, table: Table, candidates: seq<Candidate>, source: Source, now: int,
      item: Memory)
  {
    exists i | 0 <= i < |candidates| :: Stores(rules, table, rules.normalize(candidates[i]), source, now, item)
  }

  /** Every planned row is that of a candidate. */
  ghost predicate AllStored(rules: Rules, table: Table, candidates: seq<Candidate>, source: Source, now: int,
      changes: seq<Change>)
  {
    forall k | 0 <= k < |changes| :: StoredFrom(rules, table, candidates, source, now, changes[k].item)
  }

  lemma StoredFromMore(rules: Rules, table: Table, candidates: seq<Candidate>, source: Source, now: int, i: nat,
      changes: seq<Change>)
    requires i < |candidates| && AllStored(rules, table, candidates[..i], source, now, changes)
    ensures AllStored(rules, table, candidates[..i + 1], source, now, changes)
  {
    hide Stores;
    forall k | 0 <= k < |changes| ensures StoredFrom(rules, table, candidates[..i + 1], source, now, changes[k].item) {
      assert StoredFrom(rules, table, candidates[..i], source, now, changes[k].item);
      var j :| 0 <= j < i && Stores(rules, table, rules.normalize(candidates[..i][j]), source, now, changes[k].item);
      assert candidates[..i + 1][j] == candidates[..i][j];
    }
  }

  /** A candidate is merged into its pending change. */
  lemma StoredReplace(rules: Rules, table: Table, candidates: seq<Candidate>, source: Source, now: int, i: nat,
      changes: seq<Change>, k: nat)
    requires i < |candidates| && AllStored(rules, table, candidates[..i], source, now, changes) && k < |changes|
    requires Valid(rules, rules.normalize(candidates[i]), now)
      && CandidateSlot(rules.normalize(candidates[i])) == SlotOf(changes[k].item)
    ensures var item := Merge(changes[k].item, rules.normalize(candidates[i]), source, now);
      AllStored(rules, table, candidates[..i + 1], source, now, changes[k := changes[k].(item := item)])
  {
    assert StoredFrom(rules, table, candidates[..i], source, now, changes[k].item);
    var c := rules.normalize(candidates[i]);
    var item := Merge(changes[k].item, c, source, now);
    assert Stores(rules, table, c, source, now, item);
    assert candidates[..i + 1][i] == candidates[i];
    StoredFromMore(rules, table, candidates, source, now, i, changes);
    hide Stores, StoredFrom;
    assert StoredFrom(rules, table, candidates[..i + 1], source, now, item) by {
      StoredNow(rules, table, candidates, source, now, i, item);
    }
  }

  lemma StoredNow(rules: Rules, table: Table, candidates: seq<Candidate>, source: Source, now: int, i: nat,
      item: Memory)
    requires i < |candidates| && Stores(rules, table, rules.normalize(candidates[i]), source, now, item)
    ensures StoredFrom(rules, table, candidates[..i + 1], source, now, item)
  {
    hide Stores;
    assert candidates[..i + 1][i] == candidates[i];
  }

  /** A candidate's change is planned anew. */
  lemma StoredAppend(rules: Rules, table: Table, candidates: seq<Candidate>, source: Source, now: int, i: nat,
      changes: seq<Change>, id: string, current: Option<Memory>, change: Change)
    requires i < |candidates| && AllStored(rules, table, candidates[..i], source, now, changes)
    requires Valid(rules, rules.normalize(candidates[i]), now)
    requires match current
      case Some(m) => m.id in table && table[m.id] == m && SlotOf(m) == CandidateSlot(rules.normalize(candidates[i]))
        && !m.userEdited
      case None => id !in table
    requires var c := rules.normalize(candidates[i]);
      change.item == if current.Some? then Merge(current.value, c, source, now) else NewMemory(id, c, source, now)
    ensures AllStored(rules, table, candidates[..i + 1], source, now, changes + [change])
  {
    var c, item := rules.normalize(candidates[i]), change.item;
    assert Stores(rules, table, c, source, now, item);
    StoredFromMore(rules, table, candidates, source, now, i, changes);
    StoredNow(rules, table, candidates, source, now, i, item);
    hide Stores, StoredFrom;
  }

  lemma NothingStored(rules: Rules, table: Table, source: Source, now: int)
    ensures AllStored(rules, table, [], source, now, [])
  {
  }

  class MemoryService {
    var table: Table

    constructor ()
      ensures table == map[]
    {
      table := map[];
    }

    /** INSERT: refused when it would break a key. */
    method CreateMemory(item: Memory) returns (ok: bool)
      modifies this
      ensures ok <==> item.id !in old(table) && (item.key == "" || forall id | id in old(table) ::
        SlotOf(old(table)[id]) != SlotOf(item))
      ensures table == if ok then old(table)[item.id := item] else old(table)
    {
      if item.id in table || (item.key != "" && exists id | id in table :: SlotOf(table[id]) == SlotOf(item)) {
        return false;
      }
      table := table[item.id := item];
      return true;
    }

    /** UPDATE by id: writes the whole row. */
    method UpdateMemory(item: Memory) returns (ok: bool)
      modifies this
      ensures ok <==> item.id in old(table) && (item.key == "" || forall id | id in old(table) && id != item.id ::
        SlotOf(old(table)[id]) != SlotOf(item))
      ensures table == if ok then old(table)[item.id := item] else old(table)
    {
      if item.id !in table || (item.key != "" && exists id | id in table && id != item.id ::
        SlotOf(table[id]) == SlotOf(item)) {
        return false;
      }
      table := table[item.id := item];
      return true;
    }

    method GetMemoryByKey(slot: Slot) returns (found: Option<Memory>)
      requires WellFormed(table) && slot.key != ""
      ensures found == Find(table, slot)
    {
      FindHolds(table, slot);
      if id :| id in table && SlotOf(table[id]) == slot {
        assert Holds(table, slot, table[id]);
        return Some(table[id]);
      }
      return None;
    }

    /** The planning loop: the plan, once written, is the candidates applied one by one. */
    method Plan(rules: Rules, candidates: seq<Candidate>, ids: seq<string>, source: Source, now: int)
      returns (changes: seq<Change>, skipped: nat, ghost pending: map<Slot, nat>)
      requires WellFormed(table) && |ids| == |candidates| && FreshIds(ids, table)
      ensures Planned(table, changes, pending)
      ensures Written(table, changes) == ApplyAll(rules, table, candidates, ids, source, now)
      ensures skipped == CountPassedOver(rules, table, candidates, ids, source, now)
      ensures PlansTouched(rules, table, candidates, now, changes)
      ensures AllStored(rules, table, candidates, source, now, changes)
    {
      hide Planned, Written, WellFormed, ApplyAll, FreshIds, CountPassedOver, PlansTouched, Touches, Changes;
      hide AllStored;
      changes, skipped := [], 0;
      var pendingBySlot: map<Slot, nat> := map[];
      pending := pendingBySlot;
      NothingPlanned(rules, table, source, now);
      NothingPassedOver(rules, table, source, now);
      NothingTouched(rules, table, now);
      NothingStored(rules, table, source, now);
      for i := 0 to |candidates|
        invariant pending == pendingBySlot && Planned(table, changes, pendingBySlot)
        invariant Written(table, changes) == ApplyAll(rules, table, candidates[..i], ids[..i], source, now)
        invariant forall k | 0 <= k < |changes| :: changes[k].item.id in table || changes[k].item.id in ids[..i]
        invariant skipped == CountPassedOver(rules, table, candidates[..i], ids[..i], source, now)
        invariant PlansTouched(rules, table, candidates[..i], now, changes)
        invariant AllStored(rules, table, candidates[..i], source, now, changes)
      {
        StoredFromMore(rules, table, candidates, source, now, i, changes);
        ApplyNext(rules, table, candidates, ids, source, now, i);
        CountNext(rules, table, candidates, ids, source, now, i);
        FreshForPlan(table, changes, ids, i);
        assert ids[..i + 1] == ids[..i] + [ids[i]];
        var candidate := rules.normalize(candidates[i]);
        if !Valid(rules, candidate, now) {
          InvalidTouches(rules, candidates[i], now);
          PlansNext(rules, table, candidates, now, i, changes, changes);
          skipped := skipped + 1;
          continue;
        }
        var slot := Slot(candidate.kind, candidate.key);
        PlannedSlots(table, changes, pendingBySlot, slot);
        if slot in pendingBySlot {
          PlannedAt(table, changes, pendingBySlot, slot);
          PendingTouches(rules, table, candidates[i], now, changes, pendingBySlot);
          var k := pendingBySlot[slot];
          var current := changes[k].item;
          if Unchanged(current, candidate) {
            PlansNext(rules, table, candidates, now, i, changes, changes);
            skipped := skipped + 1;
            continue;
          }
          var merged := Merge(current, candidate, source, now);
          WrittenReplace(table, changes, k, merged);
          StoredReplace(rules, table, candidates, source, now, i, changes, k);
          PlannedReplace(table, changes, pendingBySlot, k, merged);
          ghost var next := changes[k := changes[k].(item := merged)];
          forall id ensures Changes(next, id) <==> Changes(changes, id) {
            ChangesReplace(changes, k, merged, id);
          }
          PlansNext(rules, table, candidates, now, i, changes, next);
          changes := changes[k := changes[k].(item := merged)];
          continue;
        }
        FoundRow(table, slot);
        StoredTouches(rules, table, candidates[i], now);
        var current := GetMemoryByKey(slot);
        if current.Some? {
          if current.value.userEdited || Unchanged(current.value, candidate) {
            PlansNext(rules, table, candidates, now, i, changes, changes);
            skipped := skipped + 1;
            continue;
          }
        }
        var item := if current.Some? then Merge(current.value, candidate, source, now)
          else NewMemory(ids[i], candidate, source, now);
        var change := Change(item, item.id !in table);
        PlannedAppend(table, changes, pendingBySlot, item);
        WrittenAppend(table, changes, change);
        StoredAppend(rules, table, candidates, source, now, i, changes, ids[i], current, change);
        forall id ensures Changes(changes + [change], id) <==> Changes(changes, id) || item.id == id {
          ChangesAppend(changes, change, id);
        }
        PlansNext(rules, table, candidates, now, i, changes, changes + [change]);
        pendingBySlot := pendingBySlot[slot := |changes|];
        pending := pendingBySlot;
        changes := changes + [change];
      }
      assert candidates[..|candidates|] == candidates && ids[..|ids|] == ids;
    }

    /** Plans and writes.  The process may stop before write number `stop`; before any write another replica may have
        left the table as `others` says, and a write that would break a key is refused and ends the capture.  Left
        alone, the store holds exactly a prefix of the plan, and a capture that runs to its end has applied the
        candidates one by one. */
    method Capture(rules: Rules, candidates: seq<Candidate>, ids: seq<string>, source: Source, now: int,
        stop: Option<nat>, others: map<nat, Table>)
      returns (created: nat, updated: nat, skipped: nat, end: Ending, ghost plan: seq<Change>,
        ghost pending: map<Slot, nat>)
      requires WellFormed(table) && |ids| == |candidates| && FreshIds(ids, table)
      requires forall k | k in others :: WellFormed(others[k])
      modifies this
      ensures WellFormed(table) && Planned(old(table), plan, pending)
      ensures Written(old(table), plan) == ApplyAll(rules, old(table), candidates, ids, source, now)
      ensures created + updated <= |plan| && created == Creations(plan[..created + updated])
      ensures AllAccepted(old(table), plan, others, created + updated)
      ensures match end
        case Completed => created + updated == |plan| && table == Interleaved(old(table), plan, others, |plan|)
        case Stopped => stop == Some(created + updated)
                        && table == Interleaved(old(table), plan, others, created + updated)
        case Refused => created + updated < |plan| && table == FoundAt(old(table), plan, others, created + updated)
                        && !Writable(table, plan[created + updated])
      ensures end.Completed? ==> stop.None? || stop.value >= |plan|
      ensures others == map[] ==>
        && !end.Refused? && table == Written(old(table), plan[..created + updated])
        && created == |table| - |old(table)|
      ensures skipped == CountPassedOver(rules, old(table), candidates, ids, source, now)
      ensures PlansTouched(rules, old(table), candidates, now, plan)
      ensures AllStored(rules, old(table), candidates, source, now, plan)
    {
      hide Planned, Written, WellFormed, Writable, ApplyAll, FreshIds, CountPassedOver, PlansTouched, Creations;
      hide AllAccepted, Interleaved, AllStored, FoundAt;
      var changes;
      changes, skipped, pending := Plan(rules, candidates, ids, source, now);
      plan := changes;
      created, updated, end := WriteAll(changes, pending, stop, others);
    }

    /** The writes of a plan, in order. */
    method WriteAll(changes: seq<Change>, ghost pending: map<Slot, nat>, stop: Option<nat>, others: map<nat, Table>)
      returns (created: nat, updated: nat, end: Ending)
      requires WellFormed(table) && Planned(table, changes, pending)
      requires forall k | k in others :: WellFormed(others[k])
      modifies this
      ensures WellFormed(table)
      ensures created + updated <= |changes| && created == Creations(changes[..created + updated])
      ensures AllAccepted(old(table), changes, others, created + updated)
      ensures match end
        case Completed => created + updated == |changes| && table == Interleaved(old(table), changes, others, |changes|)
        case Stopped => stop == Some(created + updated)
                        && table == Interleaved(old(table), changes, others, created + updated)
        case Refused => created + updated < |changes|
                        && table == FoundAt(old(table), changes, others, created + updated)
                        && !Writable(table, changes[created + updated])
      ensures end.Completed? ==> stop.None? || stop.value >= |changes|
      ensures others == map[] ==>
        && !end.Refused? && table == Written(old(table), changes[..created + updated])
        && created == |table| - |old(table)|
    {
      hide Planned, Written, WellFormed, Writable, Creations, AllAccepted, Interleaved;
      ghost var before := table;
      created, updated := 0, 0;
      EmptyPrefix(before, changes);
      NothingWritten(before, changes, others);
      for i := 0 to |changes|
        invariant created + updated == i && table == Interleaved(before, changes, others, i) && WellFormed(table)
        invariant created == Creations(changes[..i]) && AllAccepted(before, changes, others, i)
        invariant others == map[] ==> table == Written(before, changes[..i]) && created == |table| - |before|
        invariant stop.Some? ==> i <= stop.value
      {
        if stop == Some(i) {
          return created, updated, Stopped;
        }
        if i in others { table := others[i]; }
        PlannedHasKey(before, changes, pending, i);
        if others == map[] { WritePossible(before, changes, pending, i); }
        ghost var found := table;
        var ok := WriteChange(changes[i]);
        if !ok {
          return created, updated, Refused;
        }
        assert changes[..i + 1] == changes[..i] + [changes[i]];
        WrittenAppend(before, changes[..i], changes[i]);
        OneWritten(before, changes, others, i);
        StaysWellFormed(found, changes[i]);
        if changes[i].create {
          created := created + 1;
        } else {
          updated := updated + 1;
        }
      }
      assert changes[..|changes|] == changes;
      end := Completed;
    }

    method WriteChange(change: Change) returns (ok: bool)
      requires change.item.key != ""
      modifies this
      ensures ok <==> Writable(old(table), change)
      ensures table == if ok then old(table)[change.item.id := change.item] else old(table)
      ensures ok ==> |table| == |old(table)| + if change.create then 1 else 0
    {
      if change.create {
        ok := CreateMemory(change.item);
      } else {
        ok := UpdateMemory(change.item);
        if ok {
          assert table.Keys == old(table).Keys;
          assert |table| == |table.Keys| && |old(table)| == |old(table).Keys|;
        }
      }
    }
  }

  datatype Ending = Completed | Stopped | Refused

  function Creations(changes: seq<Change>): nat {
    if changes == [] then 0
    else Creations(changes[..|changes| - 1]) + if changes[|changes| - 1].create then 1 else 0
  }

  /** The table after n writes, with what other replicas left before each. */
  ghost function Interleaved(table: Table, plan: seq<Change>, others: map<nat, Table>, n: nat): Table
    requires n <= |plan|
    decreases n, 0
  {
    if n == 0 then table
    else FoundAt(table, plan, others, n - 1)[plan[n - 1].item.id := plan[n - 1].item]
  }

  /** What write number n finds. */
  ghost function FoundAt(table: Table, plan: seq<Change>, others: map<nat, Table>, n: nat): Table
    requires n <= |plan|
    decreases n, 1
  {
    if n in others then others[n] else Interleaved(table, plan, others, n)
  }

  /** The first n writes broke no key of what they found. */
  ghost predicate AllAccepted(table: Table, plan: seq<Change>, others: map<nat, Table>, n: nat)
    requires n <= |plan|
  {
    forall k: nat | k < n :: Writable(FoundAt(table, plan, others, k), plan[k])
  }

  lemma NothingWritten(table: Table, plan: seq<Change>, others: map<nat, Table>)
    ensures Interleaved(table, plan, others, 0) == table && AllAccepted(table, plan, others, 0)
    ensures Creations(plan[..0]) == 0
  {
  }

  lemma OneWritten(table: Table, plan: seq<Change>, others: map<nat, Table>, n: nat)
    requires n < |plan| && AllAccepted(table, plan, others, n) && Writable(FoundAt(table, plan, others, n), plan[n])
    ensures AllAccepted(table, plan, others, n + 1)
    ensures Interleaved(table, plan, others, n + 1) ==
      FoundAt(table, plan, others, n)[plan[n].item.id := plan[n].item]
    ensures Creations(plan[..n + 1]) == Creations(plan[..n]) + if plan[n].create then 1 else 0
  {
    hide Writable, FoundAt;
    assert plan[..n + 1][..n] == plan[..n];
  }

  lemma PlannedHasKey(table: Table, changes: seq<Change>, pending: map<Slot, nat>, k: nat)
    requires Planned(table, changes, pending) && k < |changes|
    ensures changes[k].item.key != ""
  {
  }

  lemma StaysWellFormed(table: Table, change: Change)
    requires WellFormed(table) && Writable(table, change)
    ensures WellFormed(table[change.item.id := change.item])
  {
  }

  predicate Writable(table: Table, change: Change) {
    && (change.create <==> change.item.id !in table)
    && (forall id | id in table && id != change.item.id :: SlotOf(table[id]) != SlotOf(change.item))
  }

  lemma EmptyPrefix(table: Table, changes: seq<Change>)
    ensures Written(table, changes[..0]) == table
  {
  }

  function PrefixPending(pending: map<Slot, nat>, k: nat): map<Slot, nat> {
    map slot | slot in pending && pending[slot] < k :: pending[slot]
  }

  lemma PrefixPlanned(table: Table, changes: seq<Change>, pending: map<Slot, nat>, k: nat)
    requires Planned(table, changes, pending) && k <= |changes|
    ensures Planned(table, changes[..k], PrefixPending(pending, k))
  {
  }

  /** The next planned write breaks no key of the table the earlier ones have left. */
  lemma WritePossible(table: Table, changes: seq<Change>, pending: map<Slot, nat>, k: nat)
    requires WellFormed(table) && Planned(table, changes, pending) && k < |changes|
    ensures Writable(Written(table, changes[..k]), changes[k])
  {
    WrittenRows(table, changes[..k]);
    var now, item := Written(table, changes[..k]), changes[k].item;
    forall id | id in now && id != item.id ensures SlotOf(now[id]) != SlotOf(item) {
      if Changes(changes[..k], id) {
        var i :| 0 <= i < k && changes[..k][i].item.id == id;
        assert changes[..k][i] == changes[i];
      }
    }
    assert !Changes(changes[..k], item.id);
  }

  // ---------------------------------------------------------------- what a slot holds

  /** What recall and the user see of a slot; times and sources aside. */
  datatype View = View(content: string, importance: real, expiresAt: Option<int>, userEdited: bool)

  function Seen(m: Memory): View { View(m.content, m.importance, m.expiresAt, m.userEdited) }

  ghost function ViewOf(table: Table, slot: Slot): Option<View> {
    match Find(table, slot)
    case Some(m) => Some(Seen(m))
    case None => None
  }

  /** The rule for one slot: a user's wording stays; otherwise the newest content and expiry win and
      importance never falls. */
  function MergeView(v: Option<View>, c: Candidate): Option<View> {
    match v
    case None => Some(View(c.content, c.importance, c.expiresAt, false))
    case Some(held) => if held.userEdited then v
      else Some(View(c.content, Max(held.importance, c.importance), c.expiresAt, false))
  }

  predicate Concerns(rules: Rules, c: Candidate, now: int, slot: Slot) {
    Valid(rules, rules.normalize(c), now) && CandidateSlot(rules.normalize(c)) == slot
  }

  function FoldView(rules: Rules, v: Option<View>, candidates: seq<Candidate>, now: int, slot: Slot): Option<View> {
    if candidates == [] then v
    else
      var last := |candidates| - 1;
      var before := FoldView(rules, v, candidates[..last], now, slot);
      if Concerns(rules, candidates[last], now, slot) then MergeView(before, rules.normalize(candidates[last]))
        else before
  }

  lemma ApplyOneView(table: Table, c: Candidate, id: string, source: Source, now: int, slot: Slot)
    requires WellFormed(table) && c.key != "" && slot.key != "" && id !in table
    ensures var next := ApplyOne(table, c, id, source, now);
      && WellFormed(next)
      && ViewOf(next, slot) == (if slot == CandidateSlot(c) then MergeView(ViewOf(table, slot), c)
           else ViewOf(table, slot))
      && (forall i | i in next :: i in table || i == id)
  {
    var next := ApplyOne(table, c, id, source, now);
    FindHolds(table, CandidateSlot(c));
    FindHolds(table, slot);
    FindHolds(next, slot);
    if slot == CandidateSlot(c) {
      if Find(table, slot).None? {
        assert Holds(next, slot, NewMemory(id, c, source, now));
      } else {
        var m := Find(table, slot).value;
        assert Holds(next, slot, next[m.id]);
      }
    } else if Find(table, slot).Some? {
      assert Holds(next, slot, Find(table, slot).value);
    } else {
      assert forall n | Holds(next, slot, n) :: Holds(table, slot, n);
    }
  }

  lemma {:induction false} ApplyAllRows(rules: Rules, table: Table, candidates: seq<Candidate>, ids: seq<string>,
      source: Source, now: int)
    requires WellFormed(table) && |ids| == |candidates| && FreshIds(ids, table)
    ensures WellFormed(ApplyAll(rules, table, candidates, ids, source, now))
    ensures forall id | id in ApplyAll(rules, table, candidates, ids, source, now) :: id in table || id in ids
  {
    if candidates != [] {
      var last := |candidates| - 1;
      ApplyAllRows(rules, table, candidates[..last], ids[..last], source, now);
      var before := ApplyAll(rules, table, candidates[..last], ids[..last], source, now);
      var c := rules.normalize(candidates[last]);
      assert ids[last] !in ids[..last];
      if Valid(rules, c, now) {
        ApplyOneView(before, c, ids[last], source, now, CandidateSlot(c));
      }
    }
  }

  /** Applying candidates one by one folds each slot by itself. */
  lemma {:induction false} ApplyAllView(rules: Rules, table: Table, candidates: seq<Candidate>, ids: seq<string>,
      source: Source, now: int, slot: Slot)
    requires WellFormed(table) && |ids| == |candidates| && FreshIds(ids, table) && slot.key != ""
    ensures ViewOf(ApplyAll(rules, table, candidates, ids, source, now), slot) ==
      FoldView(rules, ViewOf(table, slot), candidates, now, slot)
  {
    if candidates != [] {
      var last := |candidates| - 1;
      ApplyAllView(rules, table, candidates[..last], ids[..last], source, now, slot);
      ApplyAllRows(rules, table, candidates[..last], ids[..last], source, now);
      var before := ApplyAll(rules, table, candidates[..last], ids[..last], source, now);
      var c := rules.normalize(candidates[last]);
      assert ids[last] !in ids[..last];
      if Valid(rules, c, now) {
        ApplyOneView(before, c, ids[last], source, now, slot);
      }
    }
  }

  lemma {:induction false} EditedStays(rules: Rules, v: View, candidates: seq<Candidate>, now: int, slot: Slot)
    requires v.userEdited
    ensures FoldView(rules, Some(v), candidates, now, slot) == Some(v)
  {
    if candidates != [] {
      EditedStays(rules, v, candidates[..|candidates| - 1], now, slot);
    }
  }

  /** A valid candidate is passed over exactly when merging it would show nothing new. */
  lemma PassedOverIsNothingNew(rules: Rules, table: Table, c: Candidate, now: int)
    requires WellFormed(table) && Valid(rules, c, now)
    ensures var v := ViewOf(table, CandidateSlot(c));
      PassedOver(rules, table, c, now) <==>
        v.Some? && (v.value.userEdited || (c.content == v.value.content && c.expiresAt == v.value.expiresAt
          && c.importance <= v.value.importance))
  {
    FindHolds(table, CandidateSlot(c));
  }

  /** A candidate that may be stored is the last word on its slot, unless the user has had it or a later candidate
      follows. */
  lemma AllowedIsKept(rules: Rules, table: Table, candidates: seq<Candidate>, ids: seq<string>, source: Source,
      now: int, i: nat)
    requires WellFormed(table) && |ids| == |candidates| && FreshIds(ids, table) && i < |candidates|
    requires var c := rules.normalize(candidates[i]);
      && !rules.sensitive(c.content) && 1 <= |c.content| <= 2_000 && 1 <= |c.key| <= 120
      && c.kind in {"semantic", "episodic"} && 0.0 <= c.importance <= 1.0
      && (c.expiresAt.Some? ==> c.expiresAt.value > now)
      && (forall id | id in table && SlotOf(table[id]) == Slot(c.kind, c.key) :: !table[id].userEdited)
      && forall j | i < j < |candidates| :: CandidateSlot(rules.normalize(candidates[j])) != Slot(c.kind, c.key)
    ensures var c, after := rules.normalize(candidates[i]), ApplyAll(rules, table, candidates, ids, source, now);
      exists id | id in after :: SlotOf(after[id]) == Slot(c.kind, c.key) && !after[id].userEdited
        && after[id].content == c.content && after[id].expiresAt == c.expiresAt && after[id].importance >= c.importance
  {
    var c, after := rules.normalize(candidates[i]), ApplyAll(rules, table, candidates, ids, source, now);
    var slot := CandidateSlot(c);
    hide ApplyAll, FreshIds, FoldView;
    ApplyAllView(rules, table, candidates, ids, source, now, slot);
    ApplyAllRows(rules, table, candidates, ids, source, now);
    FindHolds(table, slot);
    FoldIsLastAndMost(rules, ViewOf(table, slot), candidates, now, slot);
    LastIs(rules, candidates, now, slot, i);
    FindHolds(after, slot);
    var m := Find(after, slot).value;
    assert m.id in after && after[m.id] == m;
  }

  lemma {:induction false} LastIs(rules: Rules, candidates: seq<Candidate>, now: int, slot: Slot, i: nat)
    requires i < |candidates| && Concerns(rules, candidates[i], now, slot)
    requires forall j | i < j < |candidates| :: !Concerns(rules, candidates[j], now, slot)
    ensures LastFor(rules, candidates, now, slot) == Some(rules.normalize(candidates[i]))
  {
    hide Concerns;
    if i < |candidates| - 1 {
      LastIs(rules, candidates[..|candidates| - 1], now, slot, i);
    }
  }

  /** The last candidate for a slot. */
  function LastFor(rules: Rules, candidates: seq<Candidate>, now: int, slot: Slot): Option<Candidate> {
    if candidates == [] then None
    else if Concerns(rules, candidates[|candidates| - 1], now, slot)
      then Some(rules.normalize(candidates[|candidates| - 1]))
    else LastFor(rules, candidates[..|candidates| - 1], now, slot)
  }

  /** The importance is that of the view or of a candidate for the slot. */
  ghost predicate ImportanceOf(rules: Rules, v: Option<View>, candidates: seq<Candidate>, now: int, slot: Slot,
      importance: real)
  {
    || (v.Some? && v.value.importance == importance)
    || exists i | 0 <= i < |candidates| :: Concerns(rules, candidates[i], now, slot)
         && rules.normalize(candidates[i]).importance == importance
  }

  /** A slot that the user has not reworded ends up with the content and expiry of its last candidate and
      the greatest importance among what it held and its candidates. */
  lemma {:induction false} FoldIsLastAndMost(rules: Rules, v: Option<View>, candidates: seq<Candidate>, now: int,
      slot: Slot)
    requires Plain(v)
    ensures var after := FoldView(rules, v, candidates, now, slot);
      match LastFor(rules, candidates, now, slot)
      case None => after == v
      case Some(c) =>
        && after.Some? && !after.value.userEdited && after.value.content == c.content
             && after.value.expiresAt == c.expiresAt
        && AtLeast(rules, after.value, candidates, now, slot)
             && (v.Some? ==> v.value.importance <= after.value.importance)
        && ImportanceOf(rules, v, candidates, now, slot, after.value.importance)
    ensures LastFor(rules, candidates, now, slot).None? ==>
      forall i | 0 <= i < |candidates| :: !Concerns(rules, candidates[i], now, slot)
  {
    hide Concerns;
    if candidates != [] {
      var last := |candidates| - 1;
      FoldIsLastAndMost(rules, v, candidates[..last], now, slot);
      var before := FoldView(rules, v, candidates[..last], now, slot);
      if before.Some? && ImportanceOf(rules, v, candidates[..last], now, slot, before.value.importance) {
        ImportanceStays(rules, v, candidates, now, slot, before.value.importance);
      }
    }
  }

  lemma ImportanceStays(rules: Rules, v: Option<View>, candidates: seq<Candidate>, now: int, slot: Slot,
      importance: real)
    requires candidates != [] && ImportanceOf(rules, v, candidates[..|candidates| - 1], now, slot, importance)
    ensures ImportanceOf(rules, v, candidates, now, slot, importance)
  {
    hide Concerns;
    var front := candidates[..|candidates| - 1];
    if !(v.Some? && v.value.importance == importance) {
      var i :| 0 <= i < |front| && Concerns(rules, front[i], now, slot)
        && rules.normalize(front[i]).importance == importance;
      assert candidates[i] == front[i];
    }
  }

  predicate Plain(v: Option<View>) { v.Some? ==> !v.value.userEdited }

  predicate AtLeast(rules: Rules, v: View, candidates: seq<Candidate>, now: int, slot: Slot) {
    forall i | 0 <= i < |candidates| && Concerns(rules, candidates[i], now, slot) ::
      rules.normalize(candidates[i]).importance <= v.importance
  }

  /** Folding over a view that is already as important as the candidates changes content and expiry only,
      and to the same values whatever it started from. */
  lemma {:induction false} FoldForgets(rules: Rules, v: Option<View>, w: View, candidates: seq<Candidate>, now: int,
      slot: Slot)
    requires Plain(v) && !w.userEdited && AtLeast(rules, w, candidates, now, slot)
    ensures var fv, fw := FoldView(rules, v, candidates, now, slot), FoldView(rules, Some(w), candidates, now, slot);
      && Plain(fv)
      && (if exists i | 0 <= i < |candidates| :: Concerns(rules, candidates[i], now, slot)
          then fv.Some? && fw == Some(fv.value.(importance := w.importance))
               && AtLeast(rules, fv.value, candidates, now, slot)
          else fv == v && fw == Some(w))
  {
    if candidates != [] {
      var last := |candidates| - 1;
      FoldForgets(rules, v, w, candidates[..last], now, slot);
      if i :| 0 <= i < last && Concerns(rules, candidates[..last][i], now, slot) {
        assert Concerns(rules, candidates[i], now, slot);
      }
    }
  }

  /** Folding twice is folding once. */
  lemma {:induction false} FoldIdempotent(rules: Rules, v: Option<View>, candidates: seq<Candidate>, now: int,
      slot: Slot)
    ensures FoldView(rules, FoldView(rules, v, candidates, now, slot), candidates, now, slot) ==
      FoldView(rules, v, candidates, now, slot)
  {
    if !Plain(v) {
      EditedStays(rules, v.value, candidates, now, slot);
    } else {
      var top := View("", MaxImportance(rules, candidates, now, slot), None, false);
      FoldForgets(rules, v, top, candidates, now, slot);
      if i :| 0 <= i < |candidates| && Concerns(rules, candidates[i], now, slot) {
        FoldForgets(rules, v, FoldView(rules, v, candidates, now, slot).value, candidates, now, slot);
      } else if v.Some? {
        FoldForgets(rules, v, v.value, candidates, now, slot);
      }
    }
  }

  ghost function MaxImportance(rules: Rules, candidates: seq<Candidate>, now: int, slot: Slot): (top: real)
    ensures forall i | 0 <= i < |candidates| && Concerns(rules, candidates[i], now, slot) ::
      rules.normalize(candidates[i]).importance <= top
  {
    if candidates == [] then 0.0
    else Max(MaxImportance(rules, candidates[..|candidates| - 1], now, slot),
      rules.normalize(candidates[|candidates| - 1]).importance)
  }

  lemma {:induction false} SameValidity(rules: Rules, v: Option<View>, candidates: seq<Candidate>, now: int,
      later: int, slot: Slot)
    requires forall i | 0 <= i < |candidates| :: Valid(rules, rules.normalize(candidates[i]), now) <==>
      Valid(rules, rules.normalize(candidates[i]), later)
    ensures FoldView(rules, v, candidates, now, slot) == FoldView(rules, v, candidates, later, slot)
  {
    if candidates != [] {
      SameValidity(rules, v, candidates[..|candidates| - 1], now, later, slot);
    }
  }

  /** A capture interrupted after any number of writes and then replayed leaves every slot as one clean
      capture does, provided no candidate has expired in between. */
  lemma ReplayConverges(rules: Rules, table: Table, candidates: seq<Candidate>, source: Source,
                        ids: seq<string>, now: int, plan: seq<Change>, pending: map<Slot, nat>, k: nat,
                        again: seq<string>, later: int, slot: Slot)
    requires WellFormed(table) && |ids| == |again| == |candidates| && FreshIds(ids, table) && slot.key != ""
    requires Planned(table, plan, pending)
      && Written(table, plan) == ApplyAll(rules, table, candidates, ids, source, now)
    requires k <= |plan| && FreshIds(again, Written(table, plan[..k]))
    requires forall i | 0 <= i < |candidates| :: Valid(rules, rules.normalize(candidates[i]), now) <==>
      Valid(rules, rules.normalize(candidates[i]), later)
    ensures ViewOf(ApplyAll(rules, Written(table, plan[..k]), candidates, again, source, later), slot)
         == ViewOf(ApplyAll(rules, table, candidates, ids, source, now), slot)
  {
    var partial := Written(table, plan[..k]);
    PrefixPlanned(table, plan, pending, k);
    WrittenWellFormed(table, plan[..k], PrefixPending(pending, k));
    ApplyAllView(rules, partial, candidates, again, source, later, slot);
    ApplyAllView(rules, table, candidates, ids, source, now, slot);
    SameValidity(rules, ViewOf(partial, slot), candidates, now, later, slot);
    PlannedSlots(table, plan, pending, slot);
    PlannedSlots(table, plan[..k], PrefixPending(pending, k), slot);
    FoldIdempotent(rules, ViewOf(table, slot), candidates, now, slot);
  }

  /** What a user has reworded, no later capture changes. */
  lemma UserWordingStays(rules: Rules, table: Table, candidates: seq<Candidate>, ids: seq<string>, source: Source,
      now: int, m: Memory)
    requires WellFormed(table) && |ids| == |candidates| && FreshIds(ids, table)
    requires Holds(table, SlotOf(m), m) && m.userEdited && m.key != ""
    ensures ViewOf(ApplyAll(rules, table, candidates, ids, source, now), SlotOf(m)) == Some(Seen(m))
  {
    FindHolds(table, SlotOf(m));
    ApplyAllView(rules, table, candidates, ids, source, now, SlotOf(m));
    EditedStays(rules, Seen(m), candidates, now, SlotOf(m));
  }

  /** But a rewording that lands between planning and writing survives the writes exactly when its row is
      not in the plan: the update writes whole rows. */
  lemma RewordingDuringWrites(table: Table, plan: seq<Change>, pending: map<Slot, nat>, reworded: Memory)
    requires WellFormed(table) && Planned(table, plan, pending)
    requires reworded.id in table && reworded.userEdited
    ensures var after := Written(table[reworded.id := reworded], plan);
      && reworded.id in after
      && (after[reworded.id] == reworded <==> !Changes(plan, reworded.id))
      && (Changes(plan, reworded.id) ==> !after[reworded.id].userEdited)
  {
    WrittenRows(table[reworded.id := reworded], plan);
    if Changes(plan, reworded.id) {
      var k :| 0 <= k < |plan| && plan[k].item.id == reworded.id;
      assert Written(table[reworded.id := reworded], plan)[plan[k].item.id] == plan[k].item;
    }
  }

  /** On the inputs: a rewording of a stored row that lands between planning and writing survives the writes if and only
      if no valid candidate for its slot had anything new for the row as it was stored. */
  lemma RewordingSurvivesExactly(rules: Rules, table: Table, candidates: seq<Candidate>, now: int,
      plan: seq<Change>, pending: map<Slot, nat>, reworded: Memory)
    requires WellFormed(table) && Planned(table, plan, pending) && PlansTouched(rules, table, candidates, now, plan)
    requires reworded.id in table && reworded.userEdited
    ensures var after := Written(table[reworded.id := reworded], plan);
      reworded.id in after && (after[reworded.id] == reworded <==> !Touched(rules, table[reworded.id], candidates, now))
  {
    hide WellFormed, Planned, Written, Changes, Touched;
    RewordingDuringWrites(table, plan, pending, reworded);
  }
}
