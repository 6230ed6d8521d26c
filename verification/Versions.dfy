/** The version chains of knowledge documents in internal/store/postgres/knowledge.go, transaction by
    transaction. */
module Versions {
  import opened Common

  /** The columns that decide about versions. */
  datatype Document = Document(tenant: string, owner: string, group: string, contentHash: string, version: int,
      latest: bool)

  type Documents = map<string, Document>

  datatype Scope = Scope(tenant: string, id: string)

  datatype StoreError = Conflict | NotFound | AccessDenied

  predicate InGroup(d: Document, tenant: string, owner: string, group: string) {
    d.tenant == tenant && d.owner == owner && d.group == group
  }

  predicate SameGroup(d: Document, e: Document) { InGroup(d, e.tenant, e.owner, e.group) }

  /** One more than the greatest version of the group; 1 for an empty group. */
  predicate IsNextVersion(docs: Documents, tenant: string, owner: string, group: string, v: int) {
    && v >= 1
    && (forall k | k in docs && InGroup(docs[k], tenant, owner, group) :: docs[k].version < v)
    && (v > 1 ==> exists k | k in docs :: InGroup(docs[k], tenant, owner, group) && docs[k].version == v - 1)
  }

  /** The unique indexes on the id and on the content hash of an owner. */
  predicate Conflicts(docs: Documents, scope: Scope, id: string, contentHash: string) {
    id in docs || exists k | k in docs ::
      docs[k].tenant == scope.tenant && docs[k].owner == scope.id && docs[k].contentHash == contentHash
  }

  function Demoted(docs: Documents, tenant: string, owner: string, group: string): Documents {
    map k | k in docs :: if InGroup(docs[k], tenant, owner, group) && docs[k].latest then docs[k].(latest := false)
      else docs[k]
  }

  /** The newest remaining document of a group. */
  predicate IsNewest(docs: Documents, top: string, tenant: string, owner: string, group: string) {
    && top in docs && InGroup(docs[top], tenant, owner, group)
    && forall k | k in docs && InGroup(docs[k], tenant, owner, group) :: docs[k].version <= docs[top].version
  }

  predicate EmptyGroup(docs: Documents, tenant: string, owner: string, group: string) {
    forall k | k in docs :: !InGroup(docs[k], tenant, owner, group)
  }

  /** A delete of a stored document: when it was the latest of its group, the newest remaining one takes over. */
  predicate Deletes(docs: Documents, id: string, after: Documents)
    requires id in docs
  {
    var d, rest := docs[id], docs - {id};
    if d.latest && !EmptyGroup(rest, d.tenant, d.owner, d.group) then
      exists top | top in rest ::
        IsNewest(rest, top, d.tenant, d.owner, d.group) && after == rest[top := rest[top].(latest := true)]
    else after == rest
  }

  class DocumentStore {
    var documents: Documents

    constructor ()
      ensures documents == map[]
    {
      documents := map[];
    }

    /** One more than the greatest version of a group, 1 if there is none. */
    method NextVersion(tenant: string, owner: string, group: string) returns (v: int)
      ensures IsNextVersion(documents, tenant, owner, group, v)
    {
      v := 1;
      var left := documents.Keys;
      while left != {}
        invariant left <= documents.Keys && v >= 1
        invariant forall k | k in documents && k !in left && InGroup(documents[k], tenant, owner, group) ::
          documents[k].version < v
        invariant v > 1 ==> exists k | k in documents ::
          InGroup(documents[k], tenant, owner, group) && documents[k].version == v - 1
        decreases |left|
      {
        var k :| k in left;
        if InGroup(documents[k], tenant, owner, group) && documents[k].version >= v { v := documents[k].version + 1; }
        left := left - {k};
      }
    }

    method CreateDocument(scope: Scope, id: string, group: string, contentHash: string)
      returns (r: Result<Document, StoreError>)
      requires Coherent(documents)
      modifies this
      ensures r == Err(Conflict) <==> Conflicts(old(documents), scope, id, contentHash)
      ensures r.Err? ==> r.error == Conflict && documents == old(documents)
      ensures r.Ok? ==> r.value == Document(scope.tenant, scope.id, group, contentHash, r.value.version, true)
      ensures r.Ok? ==> IsNextVersion(old(documents), scope.tenant, scope.id, group, r.value.version)
      ensures r.Ok? ==> documents == Demoted(old(documents), scope.tenant, scope.id, group)[id := r.value]
      ensures Coherent(documents)
    {
      var v := NextVersion(scope.tenant, scope.id, group);
      if Conflicts(documents, scope, id, contentHash) { return Err(Conflict); }
      var document := Document(scope.tenant, scope.id, group, contentHash, v, true);
      CreateKeeps(documents, id, document);
      documents := Demoted(documents, scope.tenant, scope.id, group);
      documents := documents[id := document];
      r := Ok(document);
    }

    method Newest(docs: Documents, tenant: string, owner: string, group: string) returns (top: Option<string>)
      ensures top.None? <==> EmptyGroup(docs, tenant, owner, group)
      ensures top.Some? ==> IsNewest(docs, top.value, tenant, owner, group)
    {
      top := None;
      var left := docs.Keys;
      while left != {}
        invariant left <= docs.Keys
        invariant top.None? ==> forall k | k in docs && k !in left :: !InGroup(docs[k], tenant, owner, group)
        invariant top.Some? ==> top.value in docs && InGroup(docs[top.value], tenant, owner, group)
        invariant top.Some? ==> forall k | k in docs && k !in left && InGroup(docs[k], tenant, owner, group) ::
          docs[k].version <= docs[top.value].version
        decreases |left|
      {
        var k :| k in left;
        if InGroup(docs[k], tenant, owner, group) && (top == None || docs[k].version > docs[top.value].version) {
          top := Some(k);
        }
        left := left - {k};
      }
    }

    method DeleteDocument(scope: Scope, id: string, principal: string) returns (r: Result<(), StoreError>)
      requires Coherent(documents)
      modifies this
      ensures r == Err(NotFound) <==> id !in old(documents) || old(documents)[id].tenant != scope.tenant
      ensures r == Err(AccessDenied) <==>
        id in old(documents) && old(documents)[id].tenant == scope.tenant && old(documents)[id].owner != principal
      ensures r.Err? ==> documents == old(documents)
      ensures r.Ok? ==> id in old(documents) && Deletes(old(documents), id, documents)
      ensures Coherent(documents)
    {
      if id !in documents || documents[id].tenant != scope.tenant { return Err(NotFound); }
      var d := documents[id];
      if d.owner != principal { return Err(AccessDenied); }
      ghost var before := documents;
      documents := documents - {id};
      if d.latest {
        var top := Newest(documents, scope.tenant, principal, d.group);
        if top.Some? {
          documents := documents[top.value := documents[top.value].(latest := true)];
          assert IsNewest(before - {id}, top.value, d.tenant, d.owner, d.group);
        }
      }
      DeleteKeeps(before, id, documents);
      r := Ok(());
    }
  }

  // ---------------------------------------------------------------- one latest document, and it is the newest

  predicate Positive(docs: Documents) {
    forall k | k in docs :: docs[k].version >= 1
  }

  /** The latest document of a group is newer than all others of the group. */
  predicate LatestIsNewest(docs: Documents) {
    forall j, k | j in docs && k in docs && j != k && SameGroup(docs[j], docs[k]) && docs[k].latest ::
      docs[j].version < docs[k].version
  }

  predicate DistinctVersions(docs: Documents) {
    forall j, k | j in docs && k in docs && j != k && SameGroup(docs[j], docs[k]) :: docs[j].version != docs[k].version
  }

  predicate HasLatest(docs: Documents, d: Document) {
    exists j | j in docs :: SameGroup(docs[j], d) && docs[j].latest
  }

  predicate Led(docs: Documents) {
    forall k | k in docs :: HasLatest(docs, docs[k])
  }

  predicate Coherent(docs: Documents) {
    Positive(docs) && LatestIsNewest(docs) && DistinctVersions(docs) && Led(docs)
  }

  lemma Pick(docs: Documents, d: Document) returns (j: string)
    requires HasLatest(docs, d)
    ensures j in docs && SameGroup(docs[j], d) && docs[j].latest
  {
    j :| j in docs && SameGroup(docs[j], d) && docs[j].latest;
  }

  lemma Leads(docs: Documents, d: Document, j: string)
    requires j in docs && SameGroup(docs[j], d) && docs[j].latest
    ensures HasLatest(docs, d)
  {
  }

  lemma LedAt(docs: Documents, k: string) returns (j: string)
    requires Led(docs) && k in docs
    ensures j in docs && SameGroup(docs[j], docs[k]) && docs[j].latest
  {
    hide HasLatest;
    j := Pick(docs, docs[k]);
  }

  lemma AllLed(docs: Documents)
    requires forall k | k in docs :: HasLatest(docs, docs[k])
    ensures Led(docs)
  {
    hide HasLatest;
  }

  lemma CreateKeeps(docs: Documents, id: string, d: Document)
    requires Coherent(docs) && id !in docs && d.latest && IsNextVersion(docs, d.tenant, d.owner, d.group, d.version)
    ensures Coherent(Demoted(docs, d.tenant, d.owner, d.group)[id := d])
  {
    hide HasLatest, Led;
    var after := Demoted(docs, d.tenant, d.owner, d.group)[id := d];
    assert Led(docs);
    CreateLeads(docs, id, d);
  }

  lemma CreateLeads(docs: Documents, id: string, d: Document)
    requires Led(docs) && id !in docs && d.latest
    ensures Led(Demoted(docs, d.tenant, d.owner, d.group)[id := d])
  {
    hide HasLatest, Led;
    var after := Demoted(docs, d.tenant, d.owner, d.group)[id := d];
    forall k | k in after ensures HasLatest(after, after[k]) {
      if SameGroup(after[k], d) {
        Leads(after, after[k], id);
      } else {
        var j := LedAt(docs, k);
        Leads(after, after[k], j);
      }
    }
    AllLed(after);
  }

  lemma OnlyLatest(docs: Documents, id: string)
    requires LatestIsNewest(docs) && id in docs && docs[id].latest
    ensures forall k | k in docs && k != id && SameGroup(docs[k], docs[id]) ::
      !docs[k].latest && docs[k].version < docs[id].version
  {
  }

  lemma DeleteKeeps(docs: Documents, id: string, after: Documents)
    requires Coherent(docs) && id in docs && Deletes(docs, id, after)
    ensures Coherent(after)
  {
    hide HasLatest, Led, Deletes;
    var d, rest := docs[id], docs - {id};
    assert Led(docs);
    if d.latest && !EmptyGroup(rest, d.tenant, d.owner, d.group) {
      var top := Successor(docs, id, after);
      OnlyLatest(docs, id);
      PromotionLeads(docs, id, top);
    } else {
      RemovalLeads(docs, id);
      NoSuccessor(docs, id, after);
    }
  }

  lemma NoSuccessor(docs: Documents, id: string, after: Documents)
    requires id in docs && Deletes(docs, id, after)
    requires !docs[id].latest || EmptyGroup(docs - {id}, docs[id].tenant, docs[id].owner, docs[id].group)
    ensures after == docs - {id}
  {
  }

  lemma Successor(docs: Documents, id: string, after: Documents) returns (top: string)
    requires id in docs && Deletes(docs, id, after)
    requires docs[id].latest && !EmptyGroup(docs - {id}, docs[id].tenant, docs[id].owner, docs[id].group)
    ensures top in docs && top != id && IsNewest(docs - {id}, top, docs[id].tenant, docs[id].owner, docs[id].group)
    ensures after == (docs - {id})[top := docs[top].(latest := true)]
  {
    var d, rest := docs[id], docs - {id};
    top :| top in rest && IsNewest(rest, top, d.tenant, d.owner, d.group)
      && after == rest[top := rest[top].(latest := true)];
  }

  lemma PromotionLeads(docs: Documents, id: string, top: string)
    requires Led(docs) && id in docs && top in docs && top != id && SameGroup(docs[top], docs[id])
    ensures Led((docs - {id})[top := docs[top].(latest := true)])
  {
    hide HasLatest, Led;
    var after := (docs - {id})[top := docs[top].(latest := true)];
    forall k | k in after ensures HasLatest(after, after[k]) {
      var j := LedAt(docs, k);
      Leads(after, after[k], if j == id then top else j);
    }
    AllLed(after);
  }

  lemma RemovalLeads(docs: Documents, id: string)
    requires Led(docs) && id in docs
    requires !docs[id].latest || EmptyGroup(docs - {id}, docs[id].tenant, docs[id].owner, docs[id].group)
    ensures Led(docs - {id})
  {
    hide HasLatest, Led;
    var after := docs - {id};
    forall k | k in after ensures HasLatest(after, after[k]) {
      var j := LedAt(docs, k);
      assert k in docs - {id} && (docs - {id})[k] == docs[k];
      assert j != id;
      Leads(after, after[k], j);
    }
    AllLed(after);
  }

  /** In every group with documents there is exactly one latest, and no document of the group is newer. */
  lemma OneLatest(docs: Documents, tenant: string, owner: string, group: string) returns (top: string)
    requires Coherent(docs) && !EmptyGroup(docs, tenant, owner, group)
    ensures IsNewest(docs, top, tenant, owner, group) && docs[top].latest
    ensures forall k | k in docs && InGroup(docs[k], tenant, owner, group) && docs[k].latest :: k == top
  {
    hide HasLatest, Led;
    var k :| k in docs && InGroup(docs[k], tenant, owner, group);
    top := LedAt(docs, k);
    OnlyLatest(docs, top);
    forall j | j in docs && InGroup(docs[j], tenant, owner, group) ensures docs[j].version <= docs[top].version {
      assert SameGroup(docs[j], docs[top]);
    }
  }

  // ---------------------------------------------------------------- serial runs

  datatype Operation =
    | Create(scope: Scope, id: string, group: string, contentHash: string)
    | Delete(scope: Scope, id: string, principal: string)

  predicate Creates(docs: Documents, scope: Scope, id: string, group: string, contentHash: string, v: int,
      after: Documents)
  {
    && IsNextVersion(docs, scope.tenant, scope.id, group, v)
    && after == Demoted(docs, scope.tenant, scope.id, group)[id :=
         Document(scope.tenant, scope.id, group, contentHash, v, true)]
  }

  /** What an operation may do to the stored documents; a refused one does nothing. */
  ghost predicate Step(docs: Documents, op: Operation, after: Documents) {
    match op
    case Create(scope, id, group, contentHash) =>
      if Conflicts(docs, scope, id, contentHash) then after == docs
      else exists v: int :: Creates(docs, scope, id, group, contentHash, v, after)
    case Delete(scope, id, principal) =>
      if id !in docs || docs[id].tenant != scope.tenant || docs[id].owner != principal then after == docs
      else Deletes(docs, id, after)
  }

  ghost predicate Run(states: seq<Documents>, ops: seq<Operation>) {
    |states| == |ops| + 1 && forall i | 0 <= i < |ops| :: Step(states[i], ops[i], states[i + 1])
  }

  lemma StepKeeps(docs: Documents, op: Operation, after: Documents)
    requires Coherent(docs) && Step(docs, op, after)
    ensures Coherent(after)
  {
    hide Coherent, Deletes, IsNextVersion;
    match op
    case Create(scope, id, group, contentHash) =>
      if !Conflicts(docs, scope, id, contentHash) {
        var v: int :| Creates(docs, scope, id, group, contentHash, v, after);
        CreateKeeps(docs, id, Document(scope.tenant, scope.id, group, contentHash, v, true));
      }
    case Delete(scope, id, principal) =>
      if id in docs && docs[id].tenant == scope.tenant && docs[id].owner == principal { DeleteKeeps(docs, id, after); }
  }

  /** However creates and deletes follow one another, every state they reach is coherent. */
  lemma {:induction false} EveryStateIsCoherent(states: seq<Documents>, ops: seq<Operation>, n: nat)
    requires Run(states, ops) && Coherent(states[0]) && n < |states|
    ensures Coherent(states[n])
  {
    hide Coherent, Step;
    if n > 0 {
      EveryStateIsCoherent(states, ops, n - 1);
      StepKeeps(states[n - 1], ops[n - 1], states[n - 1 + 1]);
    }
  }

  // ---------------------------------------------------------------- numbers, contents and other groups

  /** The versions of every group count up from one without a gap. */
  ghost predicate Gapless(docs: Documents) {
    forall k, v: int | k in docs && 1 <= v <= docs[k].version :: HasVersion(docs, docs[k], v)
  }

  predicate HasVersion(docs: Documents, d: Document, v: int) {
    exists j | j in docs :: docs[j].tenant == d.tenant && docs[j].owner == d.owner && docs[j].group == d.group
      && docs[j].version == v
  }

  lemma StaysVersioned(docs: Documents, id: string, d: Document, e: Document, v: int)
    requires id !in docs && HasVersion(docs, e, v)
    ensures HasVersion(Demoted(docs, d.tenant, d.owner, d.group)[id := d], e, v)
  {
    var j :| j in docs && docs[j].tenant == e.tenant && docs[j].owner == e.owner && docs[j].group == e.group
      && docs[j].version == v;
    assert j in Demoted(docs, d.tenant, d.owner, d.group)[id := d];
  }

  lemma CreateKeepsGapless(docs: Documents, id: string, d: Document)
    requires Gapless(docs) && id !in docs && IsNextVersion(docs, d.tenant, d.owner, d.group, d.version)
    ensures Gapless(Demoted(docs, d.tenant, d.owner, d.group)[id := d])
  {
    hide HasVersion;
    var after := Demoted(docs, d.tenant, d.owner, d.group)[id := d];
    forall k, v: int | k in after && 1 <= v <= after[k].version ensures HasVersion(after, after[k], v) {
      if k != id {
        StaysVersioned(docs, id, d, docs[k], v);
        SameVersions(after, docs[k], after[k], v);
      } else if v < d.version {
        var j :| j in docs && InGroup(docs[j], d.tenant, d.owner, d.group) && docs[j].version == d.version - 1;
        StaysVersioned(docs, id, d, docs[j], v);
        SameVersions(after, docs[j], d, v);
      } else {
        OwnVersion(after, id);
      }
    }
  }

  lemma SameVersions(docs: Documents, d: Document, e: Document, v: int)
    requires d.tenant == e.tenant && d.owner == e.owner && d.group == e.group && HasVersion(docs, d, v)
    ensures HasVersion(docs, e, v)
  {
  }

  lemma OwnVersion(docs: Documents, k: string)
    requires k in docs
    ensures HasVersion(docs, docs[k], docs[k].version)
  {
  }

  /** As long as nothing is deleted, the documents of a group are numbered from one in the order of their creation. */
  lemma {:induction false} CreatesCountUp(states: seq<Documents>, ops: seq<Operation>, n: nat)
    requires Run(states, ops) && states[0] == map[] && n < |states|
    requires forall op | op in ops :: op.Create?
    ensures Gapless(states[n])
  {
    hide Gapless, Creates;
    if n == 0 {
      NothingIsGapless();
    } else {
      CreatesCountUp(states, ops, n - 1);
      var docs, op, after := states[n - 1], ops[n - 1], states[n - 1 + 1];
      assert op in ops && Step(docs, op, after);
      if !Conflicts(docs, op.scope, op.id, op.contentHash) {
        var v: int :| Creates(docs, op.scope, op.id, op.group, op.contentHash, v, after);
        CreatesIs(docs, op, v, after);
        CreateKeepsGapless(docs, op.id, Document(op.scope.tenant, op.scope.id, op.group, op.contentHash, v, true));
      }
    }
  }

  lemma NothingIsGapless()
    ensures Gapless(map[])
  {
  }

  lemma CreatesIs(docs: Documents, op: Operation, v: int, after: Documents)
    requires op.Create? && Creates(docs, op.scope, op.id, op.group, op.contentHash, v, after)
    ensures var d := Document(op.scope.tenant, op.scope.id, op.group, op.contentHash, v, true);
      IsNextVersion(docs, d.tenant, d.owner, d.group, d.version)
      && after == Demoted(docs, d.tenant, d.owner, d.group)[op.id := d]
  {
  }

  function Place(d: Document): (string, string, string) { (d.tenant, d.owner, d.group) }

  /** An owner has each content once. */
  predicate ContentsDiffer(docs: Documents) {
    forall j, k | j in docs && k in docs && j != k && docs[j].tenant == docs[k].tenant
      && docs[j].owner == docs[k].owner :: docs[j].contentHash != docs[k].contentHash
  }

  /** What one operation leaves alone: contents stay distinct, and nothing changes in another tenant, for another owner
      or in another group. */
  lemma StepMindsItsGroup(docs: Documents, op: Operation, after: Documents, k: string)
    requires Step(docs, op, after) && ContentsDiffer(docs)
    ensures ContentsDiffer(after)
    ensures k in docs && op.Create? && Place(docs[k]) != (op.scope.tenant, op.scope.id, op.group) ==>
      k in after && after[k] == docs[k]
    ensures k in docs && op.Delete? && op.id in docs && Place(docs[k]) != Place(docs[op.id]) ==>
      k in after && after[k] == docs[k]
  {
    hide IsNextVersion, IsNewest;
    if op.Create? && !Conflicts(docs, op.scope, op.id, op.contentHash) {
      var v: int :| Creates(docs, op.scope, op.id, op.group, op.contentHash, v, after);
    } else if op.Delete? && op.id in docs && after != docs && after != docs - {op.id} {
      DeleteMinds(docs, op.id, after, k);
    }
  }

  lemma DeleteMinds(docs: Documents, id: string, after: Documents, k: string)
    requires id in docs && Deletes(docs, id, after) && after != docs - {id}
    ensures ContentsDiffer(docs) ==> ContentsDiffer(after)
    ensures k in docs && Place(docs[k]) != Place(docs[id]) ==> k in after && after[k] == docs[k]
  {
    var top := Successor(docs, id, after);
  }
}
