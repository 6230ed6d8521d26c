/** Reciprocal-rank fusion in internal/knowledge/service.go: over all chunks at once, and over the merged
    candidate lists of internal/store/postgres/knowledge.go. */
module Fusion {

  datatype Chunk = Chunk(id: string, name: string, ordinal: int)

  /** A chunk with its two scores and the score it is finally ranked by. */
  datatype Item = Item(chunk: Chunk, vector: real, keyword: real, fused: real)

  datatype Candidate = Candidate(chunk: Chunk, vectorScore: real, keywordScore: real, vectorRank: nat, keywordRank: nat)

  datatype Signal = Vector | Keyword | Fused

  const LIMIT := 50
  const RRF := 60

  // ---------------------------------------------------------------- the ranking order

  function Score(x: Item, key: Signal): real {
    match key case Vector => x.vector case Keyword => x.keyword case Fused => x.fused
  }

  predicate Lex(a: string, b: string) {
    b != "" && (a == "" || a[0] < b[0] || (a[0] == b[0] && Lex(a[1..], b[1..])))
  }

  /** Higher scores first, then names in lexical order, then ordinals. */
  predicate Comes(x: Item, y: Item, key: Signal) {
    var a, b := Score(x, key), Score(y, key);
    || a > b
    || (a == b && Lex(x.chunk.name, y.chunk.name))
    || (a == b && x.chunk.name == y.chunk.name && x.chunk.ordinal < y.chunk.ordinal)
  }

  predicate SameKey(x: Chunk, y: Chunk) { x.name == y.name && x.ordinal == y.ordinal }

  lemma {:induction false} LexOrder(a: string, b: string, c: string)
    ensures !(Lex(a, b) && Lex(b, a)) && (Lex(a, b) ==> a != b)
    ensures Lex(a, b) || Lex(b, a) || a == b
    ensures Lex(a, b) && Lex(b, c) ==> Lex(a, c)
  {
    if a != "" && b != "" {
      assert a == [a[0]] + a[1..] && b == [b[0]] + b[1..];
      LexOrder(a[1..], b[1..], if c == "" then "" else c[1..]);
    }
  }

  lemma ComesOrder(x: Item, y: Item, z: Item, key: Signal)
    ensures !(Comes(x, y, key) && Comes(y, x, key)) && !Comes(x, x, key)
    ensures !SameKey(x.chunk, y.chunk) ==> Comes(x, y, key) || Comes(y, x, key)
    ensures Comes(x, y, key) && Comes(y, z, key) ==> Comes(x, z, key)
  {
    hide Lex;
    LexOrder(x.chunk.name, y.chunk.name, z.chunk.name);
    LexOrder(x.chunk.name, x.chunk.name, "");
  }

  predicate Ranked(items: seq<Item>, key: Signal) {
    forall i, j | 0 <= i < j < |items| :: Comes(items[i], items[j], key)
  }

  /** No two chunks share an id, or a document name and ordinal. */
  predicate Distinct(items: seq<Item>) {
    forall i, j | 0 <= i < j < |items| ::
      items[i].chunk.id != items[j].chunk.id && !SameKey(items[i].chunk, items[j].chunk)
  }

  ghost predicate SameItems(a: seq<Item>, b: seq<Item>) {
    forall x :: x in a <==> x in b
  }

  function Insert(x: Item, items: seq<Item>, key: Signal): seq<Item> {
    if items == [] || Comes(x, items[0], key) then [x] + items else [items[0]] + Insert(x, items[1..], key)
  }

  /** The items in ranking order. */
  function Sorted(items: seq<Item>, key: Signal): seq<Item> {
    if items == [] then [] else Insert(items[0], Sorted(items[1..], key), key)
  }

  lemma {:induction false} InsertKeepsItems(x: Item, items: seq<Item>, key: Signal)
    ensures |Insert(x, items, key)| == |items| + 1
    ensures forall y :: y in Insert(x, items, key) <==> y == x || y in items
  {
    hide Comes;
    if items != [] && !Comes(x, items[0], key) {
      InsertKeepsItems(x, items[1..], key);
      assert items == [items[0]] + items[1..];
    }
  }

  lemma {:induction false} InsertRanks(x: Item, items: seq<Item>, key: Signal)
    requires Ranked(items, key) && forall y | y in items :: !SameKey(x.chunk, y.chunk)
    ensures Ranked(Insert(x, items, key), key)
  {
    hide Comes, SameKey;
    if items == [] {
    } else if Comes(x, items[0], key) {
      forall j | 0 < j < |items| ensures Comes(x, items[j], key) { ComesOrder(x, items[0], items[j], key); }
    } else {
      var rest := Insert(x, items[1..], key);
      InsertRanks(x, items[1..], key);
      InsertKeepsItems(x, items[1..], key);
      ComesOrder(x, items[0], x, key);
      assert forall y | y in items[1..] :: y in items;
      forall j | 0 <= j < |rest| ensures Comes(items[0], rest[j], key) {
        assert rest[j] in rest;
        if rest[j] != x {
          var k :| 0 <= k < |items[1..]| && items[1..][k] == rest[j];
          assert items[k + 1] == rest[j];
        }
      }
      HeadRanks(items[0], rest, key);
    }
  }

  lemma HeadRanks(x: Item, rest: seq<Item>, key: Signal)
    requires Ranked(rest, key) && forall j | 0 <= j < |rest| :: Comes(x, rest[j], key)
    ensures Ranked([x] + rest, key)
  {
    hide Comes;
  }

  lemma {:induction false} SortedRanks(items: seq<Item>, key: Signal)
    requires Distinct(items)
    ensures Ranked(Sorted(items, key), key) && SameItems(Sorted(items, key), items) && |Sorted(items, key)| == |items|
  {
    hide Comes, SameKey, Insert;
    if items != [] {
      var rest := items[1..];
      SortedRanks(rest, key);
      assert items == [items[0]] + rest;
      forall y | y in Sorted(rest, key) ensures !SameKey(items[0].chunk, y.chunk) {
        var k :| 0 <= k < |rest| && rest[k] == y;
        assert items[k + 1] == y;
      }
      InsertRanks(items[0], Sorted(rest, key), key);
      InsertKeepsItems(items[0], Sorted(rest, key), key);
    }
  }

  // ---------------------------------------------------------------- two rankings of the same scores are equal

  predicate Same(x: Item, y: Item) { x.chunk == y.chunk && x.fused == y.fused }

  predicate Has(x: Item, items: seq<Item>) {
    exists j | 0 <= j < |items| :: Same(x, items[j])
  }

  predicate Covers(a: seq<Item>, b: seq<Item>) {
    forall i | 0 <= i < |a| :: Has(a[i], b)
  }

  predicate Agree(a: seq<Item>, b: seq<Item>) {
    |a| == |b| && forall i | 0 <= i < |a| :: Same(a[i], b[i])
  }

  lemma Find(x: Item, items: seq<Item>) returns (j: nat)
    requires Has(x, items)
    ensures j < |items| && Same(x, items[j])
  {
    j :| 0 <= j < |items| && Same(x, items[j]);
  }

  lemma SameComes(x: Item, x': Item, y: Item, y': Item)
    requires Same(x, x') && Same(y, y')
    ensures Comes(x, y, Fused) <==> Comes(x', y', Fused)
    ensures Same(x', x) && Same(y', y)
  {
  }

  lemma NotBoth(x: Item, x': Item, y: Item, y': Item)
    requires Same(x, x') && Same(y, y') && Comes(x, y, Fused)
    ensures !Comes(y', x', Fused)
  {
    SameComes(x, x', y, y');
    ComesOrder(x', y', x', Fused);
  }

  lemma FirstAgree(a: seq<Item>, b: seq<Item>)
    requires Ranked(a, Fused) && Ranked(b, Fused) && Covers(a, b) && Covers(b, a) && a != []
    ensures b != [] && Same(a[0], b[0])
  {
    hide Comes, Same, Has;
    var j := Find(a[0], b);
    assert Has(b[0], a);
    var i := Find(b[0], a);
    SameComes(a[0], b[j], b[0], a[i]);
    if j > 0 && i > 0 { NotBoth(a[0], b[j], a[i], b[0]); }
  }

  lemma TailHas(x: Item, b: seq<Item>)
    requires b != [] && Has(x, b) && !Same(x, b[0])
    ensures Has(x, b[1..])
  {
    var j := Find(x, b);
    assert b[1..][j - 1] == b[j];
  }

  lemma TailCovers(a: seq<Item>, b: seq<Item>)
    requires Ranked(a, Fused) && Covers(a, b) && a != [] && b != [] && Same(a[0], b[0])
    ensures Covers(a[1..], b[1..])
  {
    hide Comes, Has, Same;
    forall i | 0 <= i < |a[1..]| ensures Has(a[1..][i], b[1..]) {
      assert a[1..][i] == a[i + 1] && Has(a[i + 1], b) && Comes(a[0], a[i + 1], Fused);
      if Same(a[i + 1], b[0]) {
        SameComes(a[i + 1], b[0], a[0], b[0]);
        NotBoth(a[0], b[0], a[i + 1], b[0]);
        SameComes(a[0], b[0], a[i + 1], b[0]);
        assert false;
      }
      TailHas(a[i + 1], b);
    }
  }

  lemma TailRanked(a: seq<Item>, key: Signal)
    requires Ranked(a, key) && a != []
    ensures Ranked(a[1..], key)
  {
    hide Comes;
  }

  lemma TailAgree(a: seq<Item>, b: seq<Item>)
    requires a != [] && b != [] && Same(a[0], b[0]) && Agree(a[1..], b[1..])
    ensures Agree(a, b)
  {
    hide Same;
    assert forall i | 1 <= i < |a| :: a[i] == a[1..][i - 1] && b[i] == b[1..][i - 1];
  }

  /** A ranking is determined by which chunks it holds with which scores. */
  lemma {:induction false} RankingIsUnique(a: seq<Item>, b: seq<Item>)
    requires Ranked(a, Fused) && Ranked(b, Fused) && Covers(a, b) && Covers(b, a)
    ensures Agree(a, b)
  {
    hide Ranked, Same, Agree, Has;
    if a == [] || b == [] {
      NothingCovered(a, b);
    } else {
      FirstAgree(a, b);
      SameComes(a[0], b[0], a[0], b[0]);
      TailCovers(a, b);
      TailCovers(b, a);
      TailRanked(a, Fused);
      TailRanked(b, Fused);
      RankingIsUnique(a[1..], b[1..]);
      TailAgree(a, b);
    }
  }

  lemma NothingCovered(a: seq<Item>, b: seq<Item>)
    requires (a == [] || b == []) && Covers(a, b) && Covers(b, a)
    ensures Agree(a, b)
  {
    assert a != [] ==> Has(a[0], b);
    assert b != [] ==> Has(b[0], a);
  }

  // ---------------------------------------------------------------- fusing ranks

  /** The weight of a rank counted from 1; nothing for no rank. */
  function Weight(rank: nat): real {
    if rank == 0 then 0.0 else 1.0 / (RRF + rank) as real
  }

  /** What the first n ranks of a ranking add to the score of a chunk. */
  function Bonus(ranking: seq<Item>, key: Signal, n: nat, id: string): real
    requires n <= |ranking|
  {
    if n == 0 then 0.0
    else
      var x := ranking[n - 1];
      Bonus(ranking, key, n - 1, id) + (if x.chunk.id == id && Score(x, key) > 0.0 then Weight(n) else 0.0)
  }

  function Top(items: seq<Item>): nat { if |items| < LIMIT then |items| else LIMIT }

  function FusedScore(items: seq<Item>, id: string): real {
    var v, k := Sorted(items, Vector), Sorted(items, Keyword);
    Bonus(v, Vector, Top(v), id) + Bonus(k, Keyword, Top(k), id)
  }

  function Rescored(items: seq<Item>): seq<Item> {
    seq(|items|, i requires 0 <= i < |items| => items[i].(fused := FusedScore(items, items[i].chunk.id)))
  }

  /** The items with a positive fused score, at most topK of them; no limit for 0. */
  function Positives(items: seq<Item>): seq<Item> {
    if items == [] then []
    else if items[0].fused > 0.0 then [items[0]] + Positives(items[1..])
    else Positives(items[1..])
  }

  function Cut(items: seq<Item>, topK: nat): seq<Item> {
    if topK == 0 || |items| <= topK then items else items[..topK]
  }

  function Hits(items: seq<Item>, topK: nat): seq<Item> {
    Cut(Positives(Sorted(items, Fused)), topK)
  }

  lemma PositivesNext(items: seq<Item>, i: nat)
    requires i <= |items|
    ensures Positives(items[i..]) ==
      if i == |items| then [] else (if items[i].fused > 0.0 then [items[i]] else []) + Positives(items[i + 1..])
  {
    if i < |items| { assert items[i..][1..] == items[i + 1..]; }
  }

  /** The loop that collects the hits. */
  method CollectHits(items: seq<Item>, topK: nat) returns (results: seq<Item>)
    ensures results == Cut(Positives(items), topK)
  {
    hide Positives;
    results := [];
    assert items[0..] == items;
    for i := 0 to |items|
      invariant Positives(items) == results + Positives(items[i..])
      invariant topK > 0 ==> |results| < topK
    {
      PositivesNext(items, i);
      if items[i].fused <= 0.0 { continue; }
      results := results + [items[i]];
      if |results| == topK { return; }
    }
    PositivesNext(items, |items|);
  }

  /** Adding up weights in a map, one ranking at a time. */
  method AddWeights(ranking: seq<Item>, key: Signal, before: map<string, real>) returns (fused: map<string, real>)
    ensures forall id ::
      (if id in fused then fused[id] else 0.0) ==
        (if id in before then before[id] else 0.0) + Bonus(ranking, key, Top(ranking), id)
  {
    fused := before;
    for rank := 0 to Top(ranking)
      invariant forall id ::
        (if id in fused then fused[id] else 0.0) ==
          (if id in before then before[id] else 0.0) + Bonus(ranking, key, rank, id)
    {
      hide Weight;
      var x := ranking[rank];
      if Score(x, key) > 0.0 {
        var sum := if x.chunk.id in fused then fused[x.chunk.id] else 0.0;
        fused := fused[x.chunk.id := sum + Weight(rank + 1)];
      }
    }
  }

  /** Hybrid ranking over all chunks. */
  method RankSearch(items: seq<Item>, topK: nat) returns (results: seq<Item>)
    ensures results == Hits(Rescored(items), topK)
  {
    hide Sorted, Bonus, Positives;
    var fused := AddWeights(Sorted(items, Vector), Vector, map[]);
    fused := AddWeights(Sorted(items, Keyword), Keyword, fused);
    var rescored: seq<Item> := [];
    for i := 0 to |items|
      invariant rescored == Rescored(items)[..i]
    {
      var id := items[i].chunk.id;
      rescored := rescored + [items[i].(fused := if id in fused then fused[id] else 0.0)];
    }
    assert Rescored(items)[..|items|] == Rescored(items);
    results := CollectHits(Sorted(rescored, Fused), topK);
  }

  // ---------------------------------------------------------------- candidate lists

  /** The rank of a chunk in a list, counted from 1; 0 when it is not there. */
  function Position(items: seq<Item>, id: string): (n: nat)
    ensures n <= |items| && (n > 0 ==> items[n - 1].chunk.id == id)
  {
    if items == [] then 0
    else if items[|items| - 1].chunk.id == id then |items|
    else Position(items[..|items| - 1], id)
  }

  /** What the two lists say about a chunk that is in one of them. */
  function Merged(v: seq<Item>, k: seq<Item>, id: string): Candidate
    requires Listed(v, k, id)
  {
    var vr, kr := Position(v, id), Position(k, id);
    Candidate(
      if vr > 0 then v[vr - 1].chunk else k[kr - 1].chunk,
      if vr > 0 then v[vr - 1].vector else 0.0,
      if kr > 0 then k[kr - 1].keyword else 0.0,
      vr, kr)
  }

  predicate Listed(v: seq<Item>, k: seq<Item>, id: string) { Position(v, id) > 0 || Position(k, id) > 0 }

  /** The candidates of both lists, each chunk once, in any order. */
  ghost predicate IsMerge(candidates: seq<Candidate>, v: seq<Item>, k: seq<Item>) {
    && (forall c | c in candidates :: Listed(v, k, c.chunk.id) && c == Merged(v, k, c.chunk.id))
    && (forall i, j | 0 <= i < j < |candidates| :: candidates[i].chunk.id != candidates[j].chunk.id)
    && (forall id | Listed(v, k, id) :: Merged(v, k, id) in candidates)
  }

  ghost predicate MapOf(m: map<string, Candidate>, v: seq<Item>, k: seq<Item>) {
    && (forall id :: id in m <==> Listed(v, k, id))
    && (forall id | id in m :: Listed(v, k, id) && m[id] == Merged(v, k, id))
  }

  lemma PositionAppend(items: seq<Item>, x: Item, id: string)
    ensures Position(items + [x], id) == if x.chunk.id == id then |items| + 1 else Position(items, id)
  {
    assert (items + [x])[..|items|] == items;
  }

  lemma AddVector(m: map<string, Candidate>, v: seq<Item>, x: Item)
    requires MapOf(m, v, [])
    ensures MapOf(m[x.chunk.id := Candidate(x.chunk, x.vector, 0.0, |v| + 1, 0)], v + [x], [])
  {
    var next := m[x.chunk.id := Candidate(x.chunk, x.vector, 0.0, |v| + 1, 0)];
    assert forall id :: Position([], id) == 0;
    hide Position;
    forall id ensures id in next <==> Listed(v + [x], [], id) { PositionAppend(v, x, id); }
    forall id | id in next ensures next[id] == Merged(v + [x], [], id) { PositionAppend(v, x, id); }
  }

  /** Chunks are told apart by their ids. */
  predicate IdsAreKeys(items: seq<Item>) {
    forall x, y | x in items && y in items && x.chunk.id == y.chunk.id :: x.chunk == y.chunk
  }

  function WithKeyword(m: map<string, Candidate>, x: Item, rank: nat): map<string, Candidate> {
    var id := x.chunk.id;
    if id in m then m[id := m[id].(keywordScore := x.keyword, keywordRank := rank)]
    else m[id := Candidate(x.chunk, 0.0, x.keyword, 0, rank)]
  }

  lemma MergedOther(v: seq<Item>, k: seq<Item>, x: Item, id: string)
    requires id != x.chunk.id
    ensures Listed(v, k + [x], id) <==> Listed(v, k, id)
    ensures Listed(v, k, id) ==> Merged(v, k + [x], id) == Merged(v, k, id)
  {
    PositionAppend(k, x, id);
    hide Position;
  }

  lemma MergedSame(v: seq<Item>, k: seq<Item>, x: Item)
    requires Position(v, x.chunk.id) == 0 && Position(k, x.chunk.id) > 0 ==>
      k[Position(k, x.chunk.id) - 1].chunk == x.chunk
    ensures var id := x.chunk.id;
      Merged(v, k + [x], id) ==
      if Listed(v, k, id) then Merged(v, k, id).(keywordScore := x.keyword, keywordRank := |k| + 1)
      else Candidate(x.chunk, 0.0, x.keyword, 0, |k| + 1)
  {
    PositionAppend(k, x, x.chunk.id);
    hide Position;
  }

  lemma AddKeyword(m: map<string, Candidate>, v: seq<Item>, k: seq<Item>, x: Item)
    requires MapOf(m, v, k) && forall y | y in k && y.chunk.id == x.chunk.id :: y.chunk == x.chunk
    ensures MapOf(WithKeyword(m, x, |k| + 1), v, k + [x])
  {
    var next := WithKeyword(m, x, |k| + 1);
    PositionAppend(k, x, x.chunk.id);
    MergedSame(v, k, x);
    hide Position, Merged;
    forall id | id != x.chunk.id ensures id in next <==> Listed(v, k + [x], id) { MergedOther(v, k, x, id); }
    forall id | id != x.chunk.id && id in next ensures Listed(v, k + [x], id) && next[id] == Merged(v, k + [x], id) {
      MergedOther(v, k, x, id);
    }
  }

  lemma SameChunk(v: seq<Item>, k: seq<Item>, i: nat)
    requires IdsAreKeys(v + k) && i < |k|
    ensures forall y | y in k[..i] && y.chunk.id == k[i].chunk.id :: y.chunk == k[i].chunk
  {
    assert k[i] in v + k && forall y | y in k[..i] :: y in v + k;
  }

  lemma NothingMerged()
    ensures MapOf(map[], [], [])
  {
  }

  /** Merging the two lists by chunk id; the map is read out in no particular order. */
  method MergeCandidates(v: seq<Item>, k: seq<Item>) returns (candidates: seq<Candidate>)
    requires IdsAreKeys(v + k)
    ensures IsMerge(candidates, v, k)
  {
    hide IdsAreKeys, MapOf, IsMerge, Position;
    NothingMerged();
    var merged: map<string, Candidate> := map[];
    assert v[..0] == [];
    for i := 0 to |v|
      invariant MapOf(merged, v[..i], [])
    {
      var x := v[i];
      AddVector(merged, v[..i], x);
      assert v[..i + 1] == v[..i] + [x];
      merged := merged[x.chunk.id := Candidate(x.chunk, x.vector, 0.0, i + 1, 0)];
    }
    assert v[..|v|] == v && k[..0] == [] && k[..|k|] == k;
    for i := 0 to |k|
      invariant MapOf(merged, v, k[..i])
    {
      var x := k[i];
      assert k[..i + 1] == k[..i] + [x];
      SameChunk(v, k, i);
      AddKeyword(merged, v, k[..i], x);
      if x.chunk.id in merged {
        merged := merged[x.chunk.id := merged[x.chunk.id].(keywordScore := x.keyword, keywordRank := i + 1)];
      } else {
        merged := merged[x.chunk.id := Candidate(x.chunk, 0.0, x.keyword, 0, i + 1)];
      }
    }
    candidates := ReadOut(v, k, merged);
  }

  method ReadOut(ghost v: seq<Item>, ghost k: seq<Item>, merged: map<string, Candidate>)
    returns (candidates: seq<Candidate>)
    requires MapOf(merged, v, k)
    ensures IsMerge(candidates, v, k)
  {
    MergedId(v, k);
    hide Position, Merged, Listed;
    candidates := [];
    var left := merged.Keys;
    while left != {}
      invariant left <= merged.Keys
      invariant forall c | c in candidates :: c.chunk.id in merged && c.chunk.id !in left && c == merged[c.chunk.id]
      invariant forall i, j | 0 <= i < j < |candidates| :: candidates[i].chunk.id != candidates[j].chunk.id
      invariant forall id | id in merged && id !in left :: merged[id] in candidates
      decreases |left|
    {
      var id :| id in left;
      candidates := candidates + [merged[id]];
      left := left - {id};
    }
  }

  lemma MergedId(v: seq<Item>, k: seq<Item>)
    ensures forall id | Listed(v, k, id) :: Merged(v, k, id).chunk.id == id
  {
  }

  function ItemOf(c: Candidate): Item {
    Item(c.chunk, c.vectorScore, c.keywordScore, Weight(c.vectorRank) + Weight(c.keywordRank))
  }

  function ItemsOf(candidates: seq<Candidate>): seq<Item> {
    seq(|candidates|, i requires 0 <= i < |candidates| => ItemOf(candidates[i]))
  }

  /** Hybrid ranking over merged candidates. */
  method RankCandidates(candidates: seq<Candidate>, topK: nat) returns (results: seq<Item>)
    ensures results == Hits(ItemsOf(candidates), topK)
  {
    hide Sorted, Positives;
    var items: seq<Item> := [];
    for i := 0 to |candidates|
      invariant items == ItemsOf(candidates)[..i]
    {
      var c, score := candidates[i], 0.0;
      if c.vectorRank > 0 { score := score + 1.0 / (RRF + c.vectorRank) as real; }
      if c.keywordRank > 0 { score := score + 1.0 / (RRF + c.keywordRank) as real; }
      items := items + [Item(c.chunk, c.vectorScore, c.keywordScore, score)];
    }
    assert ItemsOf(candidates)[..|candidates|] == ItemsOf(candidates);
    results := CollectHits(Sorted(items, Fused), topK);
  }

  // ---------------------------------------------------------------- the two ways agree

  function PositivePart(ranking: seq<Item>, key: Signal): seq<Item> {
    if ranking == [] then []
    else if Score(ranking[0], key) > 0.0 then [ranking[0]] + PositivePart(ranking[1..], key)
    else PositivePart(ranking[1..], key)
  }

  /** The positive-scoring top of a ranking, as a candidate query lists it. */
  function TopList(items: seq<Item>, key: Signal): seq<Item> {
    var positive := PositivePart(Sorted(items, key), key);
    positive[..Top(positive)]
  }

  predicate DistinctIds(items: seq<Item>) {
    forall i, j | 0 <= i < j < |items| :: items[i].chunk.id != items[j].chunk.id
  }

  /** Items of one list are the same when their ids, or their names and ordinals, are. */
  lemma ItemsByKey(items: seq<Item>, x: Item, y: Item)
    requires Distinct(items) && x in items && y in items && (x.chunk.id == y.chunk.id || SameKey(x.chunk, y.chunk))
    ensures x == y
  {
    var i :| 0 <= i < |items| && items[i] == x;
    var j :| 0 <= j < |items| && items[j] == y;
  }

  lemma SortedDistinct(items: seq<Item>, key: Signal)
    requires Distinct(items)
    ensures DistinctIds(Sorted(items, key)) && Ranked(Sorted(items, key), key) && SameItems(Sorted(items, key), items)
  {
    hide Comes, Distinct, Sorted;
    SortedRanks(items, key);
    var s := Sorted(items, key);
    forall i, j | 0 <= i < j < |s| ensures s[i].chunk.id != s[j].chunk.id {
      assert s[i] in s && s[j] in s;
      if s[i].chunk.id == s[j].chunk.id { ItemsByKey(items, s[i], s[j]); }
      ComesOrder(s[i], s[j], s[i], key);
    }
  }

  /** The positive scores are at the front of a ranking. */
  lemma {:induction false} PositiveFirst(ranking: seq<Item>, key: Signal) returns (p: nat)
    requires Ranked(ranking, key)
    ensures p <= |ranking| && PositivePart(ranking, key) == ranking[..p]
    ensures forall i | 0 <= i < |ranking| :: Score(ranking[i], key) > 0.0 <==> i < p
  {
    if ranking == [] {
      p := 0;
    } else {
      assert ranking == [ranking[0]] + ranking[1..];
      p := PositiveFirst(ranking[1..], key);
      assert forall i | 1 <= i < |ranking| :: ranking[i] == ranking[1..][i - 1] && Comes(ranking[0], ranking[i], key);
      if Score(ranking[0], key) > 0.0 {
        p := p + 1;
        assert ranking[..p] == [ranking[0]] + ranking[1..][..p - 1];
      } else {
        assert |ranking| > 1 ==> Score(ranking[1..][0], key) <= Score(ranking[0], key);
      }
    }
  }

  lemma {:induction false} PositionAbsent(items: seq<Item>, id: string)
    requires forall x | x in items :: x.chunk.id != id
    ensures Position(items, id) == 0
  {
    if items != [] { PositionAbsent(items[..|items| - 1], id); }
  }

  lemma {:induction false} PositionOf(items: seq<Item>, i: nat)
    requires DistinctIds(items) && i < |items|
    ensures Position(items, items[i].chunk.id) == i + 1
  {
    if i < |items| - 1 {
      var front := items[..|items| - 1];
      assert front[i] == items[i];
      PositionOf(front, i);
    }
  }

  /** In a ranking whose first p scores are positive, the accumulated weight is that of the rank. */
  lemma {:induction false} BonusIsWeight(ranking: seq<Item>, key: Signal, n: nat, p: nat, id: string)
    requires DistinctIds(ranking) && p <= n <= |ranking|
    requires forall i | 0 <= i < n :: Score(ranking[i], key) > 0.0 <==> i < p
    ensures Bonus(ranking, key, n, id) == Weight(Position(ranking[..p], id))
    decreases n
  {
    if n > 0 {
      var x := ranking[n - 1];
      if p < n {
        BonusIsWeight(ranking, key, n - 1, p, id);
      } else {
        BonusIsWeight(ranking, key, n - 1, n - 1, id);
        assert ranking[..n][..n - 1] == ranking[..n - 1];
        if x.chunk.id == id { PositionAbsent(ranking[..n - 1], id); }
      }
    }
  }

  lemma BonusIsRank(items: seq<Item>, key: Signal, id: string)
    requires Distinct(items)
    ensures Bonus(Sorted(items, key), key, Top(Sorted(items, key)), id) == Weight(Position(TopList(items, key), id))
  {
    hide Sorted, Comes, Bonus, Weight, Position;
    var ranking := Sorted(items, key);
    SortedDistinct(items, key);
    var p := PositiveFirst(ranking, key);
    var m := if p < LIMIT then p else LIMIT;
    assert TopList(items, key) == ranking[..m];
    BonusIsWeight(ranking, key, Top(ranking), m, id);
  }

  /** A chunk's fused score depends only on its ranks in the two lists. */
  lemma FusedByRanks(items: seq<Item>, id: string)
    requires Distinct(items)
    ensures FusedScore(items, id) == Weight(Position(TopList(items, Vector), id)) +
      Weight(Position(TopList(items, Keyword), id))
  {
    BonusIsRank(items, Vector, id);
    BonusIsRank(items, Keyword, id);
    hide Sorted, Bonus, TopList, Weight, Position;
  }

  lemma {:induction false} PositivePartItems(ranking: seq<Item>, key: Signal)
    ensures forall x | x in PositivePart(ranking, key) :: x in ranking && Score(x, key) > 0.0
  {
    if ranking != [] {
      PositivePartItems(ranking[1..], key);
      assert ranking == [ranking[0]] + ranking[1..];
    }
  }

  lemma TopListItems(items: seq<Item>, key: Signal)
    requires Distinct(items)
    ensures forall x | x in TopList(items, key) :: x in items && Score(x, key) > 0.0
  {
    hide Comes;
    SortedRanks(items, key);
    PositivePartItems(Sorted(items, key), key);
  }

  lemma {:induction false} PositivesItems(items: seq<Item>)
    ensures forall x :: x in Positives(items) <==> x in items && x.fused > 0.0
  {
    if items != [] {
      PositivesItems(items[1..]);
      assert items == [items[0]] + items[1..];
    }
  }

  lemma {:induction false} PositivesRanked(items: seq<Item>)
    requires Ranked(items, Fused)
    ensures Ranked(Positives(items), Fused)
  {
    hide Comes;
    if items != [] {
      TailRanked(items, Fused);
      PositivesRanked(items[1..]);
      PositivesItems(items[1..]);
      var rest := Positives(items[1..]);
      forall j | 0 <= j < |rest| ensures Comes(items[0], rest[j], Fused) {
        assert rest[j] in rest;
        var k :| 0 <= k < |items[1..]| && items[1..][k] == rest[j];
        assert items[k + 1] == rest[j];
      }
      HeadRanks(items[0], rest, Fused);
    }
  }

  /** The uncut hits: ranked, and holding the items with a positive score. */
  lemma AllHits(items: seq<Item>)
    requires Distinct(items)
    ensures Ranked(Hits(items, 0), Fused) && forall x :: x in Hits(items, 0) <==> x in items && x.fused > 0.0
  {
    hide Comes, Sorted, Distinct;
    SortedRanks(items, Fused);
    PositivesItems(Sorted(items, Fused));
    PositivesRanked(Sorted(items, Fused));
  }

  lemma HasItem(x: Item, y: Item, items: seq<Item>)
    requires y in items && Same(x, y)
    ensures Has(x, items)
  {
    var j :| 0 <= j < |items| && items[j] == y;
  }

  lemma CutAgrees(a: seq<Item>, b: seq<Item>, topK: nat)
    requires Agree(a, b)
    ensures Agree(Cut(a, topK), Cut(b, topK))
  {
    hide Same;
  }

  /** Both lists hold items of the scored collection. */
  ghost predicate ListsOf(items: seq<Item>, v: seq<Item>, k: seq<Item>) {
    forall x | x in v || x in k :: x in items
  }

  lemma MergedIsItem(items: seq<Item>, v: seq<Item>, k: seq<Item>, id: string) returns (x: Item)
    requires ListsOf(items, v, k) && Listed(v, k, id)
    ensures x in items && x.chunk.id == id && x.chunk == Merged(v, k, id).chunk
  {
    x := if Position(v, id) > 0 then v[Position(v, id) - 1] else k[Position(k, id) - 1];
    assert x in v || x in k;
  }

  lemma CandidatesDistinct(items: seq<Item>, candidates: seq<Candidate>, v: seq<Item>, k: seq<Item>)
    requires Distinct(items) && ListsOf(items, v, k) && IsMerge(candidates, v, k)
    ensures Distinct(ItemsOf(candidates))
  {
    hide Position, Weight, Merged, Distinct, ListsOf, Listed;
    forall i, j | 0 <= i < j < |candidates|
      ensures candidates[i].chunk.id != candidates[j].chunk.id && !SameKey(candidates[i].chunk, candidates[j].chunk)
    {
      assert candidates[i] in candidates && candidates[j] in candidates;
      var x := MergedIsItem(items, v, k, candidates[i].chunk.id);
      var y := MergedIsItem(items, v, k, candidates[j].chunk.id);
      if SameKey(x.chunk, y.chunk) { ItemsByKey(items, x, y); }
    }
    DistinctByChunks(candidates);
  }

  lemma DistinctByChunks(candidates: seq<Candidate>)
    requires forall i, j | 0 <= i < j < |candidates| ::
      candidates[i].chunk.id != candidates[j].chunk.id && !SameKey(candidates[i].chunk, candidates[j].chunk)
    ensures Distinct(ItemsOf(candidates))
  {
    hide Weight;
  }

  lemma RescoredDistinct(items: seq<Item>)
    requires Distinct(items)
    ensures Distinct(Rescored(items))
  {
    hide FusedScore;
  }

  lemma RescoredItem(items: seq<Item>, x: Item)
    requires x in items
    ensures x.(fused := FusedScore(items, x.chunk.id)) in Rescored(items)
  {
    hide FusedScore;
    var i :| 0 <= i < |items| && items[i] == x;
    assert Rescored(items)[i] in Rescored(items);
  }

  lemma RescoredFrom(items: seq<Item>, y: Item) returns (x: Item)
    requires y in Rescored(items)
    ensures x in items && y == x.(fused := FusedScore(items, x.chunk.id))
  {
    hide FusedScore;
    var i :| 0 <= i < |items| && Rescored(items)[i] == y;
    x := items[i];
  }

  lemma CandidateFrom(candidates: seq<Candidate>, y: Item) returns (c: Candidate)
    requires y in ItemsOf(candidates)
    ensures c in candidates && y == ItemOf(c)
  {
    hide Weight;
    var i :| 0 <= i < |candidates| && ItemsOf(candidates)[i] == y;
    c := candidates[i];
  }

  lemma CandidateItem(candidates: seq<Candidate>, c: Candidate)
    requires c in candidates
    ensures ItemOf(c) in ItemsOf(candidates)
  {
    hide Weight;
    var i :| 0 <= i < |candidates| && candidates[i] == c;
    assert ItemsOf(candidates)[i] in ItemsOf(candidates);
  }

  lemma ScoredHitIsCandidate(items: seq<Item>, candidates: seq<Candidate>, y: Item)
    requires Distinct(items) && IsMerge(candidates, TopList(items, Vector), TopList(items, Keyword))
    requires ListsOf(items, TopList(items, Vector), TopList(items, Keyword))
    requires y in Rescored(items) && y.fused > 0.0
    ensures exists z | z in ItemsOf(candidates) :: Same(y, z)
  {
    hide Distinct, TopList, Position, FusedScore, Rescored, ItemsOf, ListsOf;
    var v, k := TopList(items, Vector), TopList(items, Keyword);
    var x := RescoredFrom(items, y);
    FusedByRanks(items, x.chunk.id);
    assert Listed(v, k, x.chunk.id);
    var c := Merged(v, k, x.chunk.id);
    var z := MergedIsItem(items, v, k, x.chunk.id);
    ItemsByKey(items, x, z);
    CandidateItem(candidates, c);
    assert Same(y, ItemOf(c));
  }

  lemma CandidateIsScored(items: seq<Item>, candidates: seq<Candidate>, y: Item)
    requires Distinct(items) && IsMerge(candidates, TopList(items, Vector), TopList(items, Keyword))
    requires ListsOf(items, TopList(items, Vector), TopList(items, Keyword))
    requires y in ItemsOf(candidates)
    ensures exists z | z in Rescored(items) :: Same(y, z)
  {
    hide Distinct, TopList, Position, FusedScore, Rescored, ItemsOf, ListsOf, Weight;
    var v, k := TopList(items, Vector), TopList(items, Keyword);
    var c := CandidateFrom(candidates, y);
    var x := MergedIsItem(items, v, k, c.chunk.id);
    FusedByRanks(items, x.chunk.id);
    RescoredItem(items, x);
    assert Same(y, x.(fused := FusedScore(items, x.chunk.id)));
  }

  /** Ranking the merged candidates gives the same chunks with the same scores in the same order as ranking
      everything, for every order of the merged map and every number of hits. */
  lemma FusionAgrees(items: seq<Item>, candidates: seq<Candidate>, topK: nat)
    requires Distinct(items) && IsMerge(candidates, TopList(items, Vector), TopList(items, Keyword))
    ensures Agree(Hits(Rescored(items), topK), Hits(ItemsOf(candidates), topK))
  {
    hide Distinct, TopList, IsMerge, Rescored, ItemsOf, Same, Ranked, Hits, Has;
    var v, k := TopList(items, Vector), TopList(items, Keyword);
    TopListItems(items, Vector);
    TopListItems(items, Keyword);
    RescoredDistinct(items);
    CandidatesDistinct(items, candidates, v, k);
    AllHits(Rescored(items));
    AllHits(ItemsOf(candidates));
    var a, b := Hits(Rescored(items), 0), Hits(ItemsOf(candidates), 0);
    forall i | 0 <= i < |a| ensures Has(a[i], b) {
      assert a[i] in a;
      ScoredHitIsCandidate(items, candidates, a[i]);
      var z :| z in ItemsOf(candidates) && Same(a[i], z);
      SameScore(a[i], z);
      HasItem(a[i], z, b);
    }
    forall i | 0 <= i < |b| ensures Has(b[i], a) {
      assert b[i] in b;
      CandidateIsScored(items, candidates, b[i]);
      var z :| z in Rescored(items) && Same(b[i], z);
      SameScore(b[i], z);
      HasItem(b[i], z, a);
    }
    RankingIsUnique(a, b);
    CutAgrees(a, b, topK);
    HitsAreCut(Rescored(items), topK);
    HitsAreCut(ItemsOf(candidates), topK);
  }

  lemma SameScore(x: Item, y: Item)
    requires Same(x, y)
    ensures x.fused == y.fused
  {
  }

  lemma HitsAreCut(items: seq<Item>, topK: nat)
    ensures Hits(items, topK) == Cut(Hits(items, 0), topK)
  {
  }

  lemma HitFrom(items: seq<Item>, topK: nat, y: Item)
    requires Distinct(items) && y in Hits(items, topK)
    ensures y in items
  {
    hide Distinct, Positives, Sorted;
    assert y in Hits(items, 0);
    AllHits(items);
  }

  /** What a merged candidate shows for a scored chunk. */
  lemma MergedScores(items: seq<Item>, v: seq<Item>, k: seq<Item>, x: Item)
    requires Distinct(items) && ListsOf(items, v, k) && x in items && Listed(v, k, x.chunk.id)
    ensures var c := Merged(v, k, x.chunk.id);
      c.vectorScore == (if Position(v, x.chunk.id) > 0 then x.vector else 0.0)
      && c.keywordScore == (if Position(k, x.chunk.id) > 0 then x.keyword else 0.0)
  {
    hide Distinct, Position;
    var vr, kr := Position(v, x.chunk.id), Position(k, x.chunk.id);
    if vr > 0 {
      assert v[vr - 1] in v;
      ItemsByKey(items, x, v[vr - 1]);
    }
    if kr > 0 {
      assert k[kr - 1] in k;
      ItemsByKey(items, x, k[kr - 1]);
    }
  }

  /** A hit of the scored collection shows a score that the lists do not carry. */
  predicate ShowsMore(v: seq<Item>, k: seq<Item>, y: Item) {
    (Position(v, y.chunk.id) == 0 && y.vector != 0.0) || (Position(k, y.chunk.id) == 0 && y.keyword != 0.0)
  }

  lemma SameHit(items: seq<Item>, candidates: seq<Candidate>, x: Item, y: Item)
    requires Distinct(items) && IsMerge(candidates, TopList(items, Vector), TopList(items, Keyword))
    requires ListsOf(items, TopList(items, Vector), TopList(items, Keyword))
    requires x in Rescored(items) && y in ItemsOf(candidates) && Same(x, y)
    ensures x == y <==> !ShowsMore(TopList(items, Vector), TopList(items, Keyword), x)
  {
    hide Distinct, TopList, Position, FusedScore, Rescored, ItemsOf, ListsOf, Weight;
    var v, k := TopList(items, Vector), TopList(items, Keyword);
    var x' := RescoredFrom(items, x);
    var c := CandidateFrom(candidates, y);
    MergedScores(items, v, k, x');
  }

  /** The per-signal scores of the hits agree as well, exactly when no hit has a score in a signal whose list
      it did not make. */
  lemma HitsEqualExactly(items: seq<Item>, candidates: seq<Candidate>, topK: nat)
    requires Distinct(items) && IsMerge(candidates, TopList(items, Vector), TopList(items, Keyword))
    ensures Hits(Rescored(items), topK) == Hits(ItemsOf(candidates), topK) <==>
      forall x | x in Hits(Rescored(items), topK) :: !ShowsMore(TopList(items, Vector), TopList(items, Keyword), x)
  {
    hide Distinct, TopList, IsMerge, Rescored, ItemsOf, Same, Hits, ShowsMore;
    var a, b := Hits(Rescored(items), topK), Hits(ItemsOf(candidates), topK);
    TopListItems(items, Vector);
    TopListItems(items, Keyword);
    FusionAgrees(items, candidates, topK);
    RescoredDistinct(items);
    CandidatesDistinct(items, candidates, TopList(items, Vector), TopList(items, Keyword));
    forall i | 0 <= i < |a|
      ensures a[i] == b[i] <==> !ShowsMore(TopList(items, Vector), TopList(items, Keyword), a[i])
    {
      assert a[i] in a && b[i] in b;
      HitFrom(Rescored(items), topK, a[i]);
      HitFrom(ItemsOf(candidates), topK, b[i]);
      SameHit(items, candidates, a[i], b[i]);
    }
  }

  /** The vector query lists its top without looking at the sign of the score. */
  function UnfilteredList(items: seq<Item>, key: Signal): seq<Item> {
    var ranking := Sorted(items, key);
    ranking[..Top(ranking)]
  }

  predicate AllPositive(list: seq<Item>, key: Signal) {
    forall x | x in list :: Score(x, key) > 0.0
  }

  lemma ListsItem(items: seq<Item>, key: Signal, i: nat)
    requires i < Top(Sorted(items, key))
    ensures Sorted(items, key)[i] in UnfilteredList(items, key)
  {
    assert UnfilteredList(items, key)[i] == Sorted(items, key)[i];
  }

  lemma UnfilteredPositive(items: seq<Item>, key: Signal)
    requires Distinct(items) && AllPositive(UnfilteredList(items, key), key)
    ensures UnfilteredList(items, key) == TopList(items, key)
  {
    hide Sorted, Comes;
    var ranking := Sorted(items, key);
    SortedDistinct(items, key);
    var p := PositiveFirst(ranking, key);
    if p < Top(ranking) { ListsItem(items, key, p); }
  }

  lemma WeightsGrow(rank: nat)
    ensures if rank > 0 then Weight(rank) > 0.0 else Weight(rank) == 0.0
  {
  }

  lemma UnfilteredRank(items: seq<Item>, x: Item)
    requires Distinct(items) && x in UnfilteredList(items, Vector) && x.vector <= 0.0
    ensures Position(UnfilteredList(items, Vector), x.chunk.id) > 0 && Position(TopList(items, Vector), x.chunk.id) == 0
    ensures x in items
  {
    hide Sorted, Comes, Distinct;
    SortedDistinct(items, Vector);
    var list := UnfilteredList(items, Vector);
    var i :| 0 <= i < |list| && list[i] == x;
    assert x in Sorted(items, Vector);
    PositionOf(list, i);
    TopListItems(items, Vector);
    forall y | y in TopList(items, Vector) ensures y.chunk.id != x.chunk.id {
      if y.chunk.id == x.chunk.id { ItemsByKey(items, x, y); }
    }
    PositionAbsent(TopList(items, Vector), x.chunk.id);
  }

  /** Below its positive part the unfiltered list goes on; above, the two lists give the same ranks. */
  lemma UnfilteredKeepsRank(items: seq<Item>, id: string)
    requires Distinct(items)
    requires var v := UnfilteredList(items, Vector); Position(v, id) > 0 ==> v[Position(v, id) - 1].vector > 0.0
    ensures Position(TopList(items, Vector), id) == Position(UnfilteredList(items, Vector), id)
  {
    hide Sorted, Comes, Distinct, Position;
    var ranking, v, t := Sorted(items, Vector), UnfilteredList(items, Vector), TopList(items, Vector);
    SortedDistinct(items, Vector);
    var p := PositiveFirst(ranking, Vector);
    assert |t| <= |v| && t == v[..|t|];
    var i := Position(v, id);
    if i > 0 {
      assert v[i - 1] == ranking[i - 1] && t[i - 1] == v[i - 1];
      PositionOf(t, i - 1);
    } else {
      forall x | x in t ensures x.chunk.id != id {
        var j :| 0 <= j < |t| && t[j] == x;
        if x.chunk.id == id { PositionOf(v, j); }
      }
      PositionAbsent(t, id);
    }
  }

  /** A candidate that the vector query lists without a positive score. */
  predicate Overrated(c: Candidate) { c.vectorRank > 0 && c.vectorScore <= 0.0 }

  /** Exactly the overrated candidates have a score that ranking everything does not give them, and it is higher. */
  lemma CandidateScore(items: seq<Item>, candidates: seq<Candidate>, c: Candidate)
    requires Distinct(items) && IsMerge(candidates, UnfilteredList(items, Vector), TopList(items, Keyword))
    requires c in candidates
    ensures if Overrated(c) then ItemOf(c).fused > FusedScore(items, c.chunk.id)
            else ItemOf(c).fused == FusedScore(items, c.chunk.id)
    ensures ItemOf(c).fused > 0.0
  {
    hide Distinct, TopList, UnfilteredList, FusedScore, Position, Weight;
    var v, k, id := UnfilteredList(items, Vector), TopList(items, Keyword), c.chunk.id;
    FusedByRanks(items, id);
    WeightsGrow(Position(v, id));
    WeightsGrow(Position(k, id));
    if Overrated(c) {
      var x := v[Position(v, id) - 1];
      assert x in v;
      UnfilteredRank(items, x);
      WeightsGrow(Position(TopList(items, Vector), id));
    } else {
      UnfilteredKeepsRank(items, id);
    }
  }

  /** Every chunk that ranking everything scores is a candidate, with no lower a score. */
  lemma ScoredIsRaised(items: seq<Item>, candidates: seq<Candidate>, y: Item) returns (c: Candidate)
    requires Distinct(items) && IsMerge(candidates, UnfilteredList(items, Vector), TopList(items, Keyword))
    requires ListsOf(items, UnfilteredList(items, Vector), TopList(items, Keyword))
    requires y in Rescored(items) && y.fused > 0.0
    ensures c in candidates && c.chunk == y.chunk && ItemOf(c).fused >= y.fused
  {
    hide Distinct, TopList, UnfilteredList, FusedScore, Position, Weight, Rescored, ListsOf;
    var v, k := UnfilteredList(items, Vector), TopList(items, Keyword);
    var x := RescoredFrom(items, y);
    var id := x.chunk.id;
    FusedByRanks(items, id);
    WeightsGrow(Position(TopList(items, Vector), id));
    WeightsGrow(Position(k, id));
    if Position(v, id) == 0 { UnfilteredKeepsRank(items, id); }
    c := Merged(v, k, id);
    var z := MergedIsItem(items, v, k, id);
    ItemsByKey(items, x, z);
    CandidateScore(items, candidates, c);
  }

  lemma UnfilteredItems(items: seq<Item>)
    requires Distinct(items)
    ensures ListsOf(items, UnfilteredList(items, Vector), TopList(items, Keyword))
  {
    hide Comes, Sorted, Distinct, TopList;
    SortedRanks(items, Vector);
    TopListItems(items, Keyword);
    forall x | x in UnfilteredList(items, Vector) ensures x in items {
      assert x in Sorted(items, Vector);
    }
  }

  // ---------------------------------------------------------------- the top of two rankings

  /** Everything of a is in b, with no lower a score. */
  ghost predicate Raised(a: seq<Item>, b: seq<Item>) {
    forall y | y in a :: RaisedIn(y, b)
  }

  ghost predicate RaisedIn(y: Item, b: seq<Item>) {
    exists i | 0 <= i < |b| :: b[i].chunk == y.chunk && b[i].fused >= y.fused
  }

  /** Where the first i agree, the next of the raised ranking that is in the other one is next there, too. */
  lemma NextAgrees(a: seq<Item>, b: seq<Item>, i: nat)
    requires Ranked(a, Fused) && Ranked(b, Fused) && DistinctIds(a) && DistinctIds(b) && Raised(a, b)
    requires i < |b| && Has(b[i], a) && i <= |a| && forall m | 0 <= m < i :: Same(a[m], b[m])
    ensures i < |a| && Same(a[i], b[i])
  {
    hide Lex;
    var j := Find(b[i], a);
    if j > i {
      assert RaisedIn(a[i], b);
      var m :| 0 <= m < |b| && b[m].chunk == a[i].chunk && b[m].fused >= a[i].fused;
      assert Comes(a[i], a[j], Fused);
      ComesOrder(b[m], b[i], b[m], Fused);
    }
  }

  lemma {:induction false} TopAgrees(a: seq<Item>, b: seq<Item>, n: nat)
    requires Ranked(a, Fused) && Ranked(b, Fused) && DistinctIds(a) && DistinctIds(b) && Raised(a, b)
    requires n <= |b| && forall i | 0 <= i < n :: Has(b[i], a)
    ensures n <= |a| && forall i | 0 <= i < n :: Same(a[i], b[i])
  {
    hide Ranked, DistinctIds, Raised, Has, Same;
    if n > 0 {
      TopAgrees(a, b, n - 1);
      NextAgrees(a, b, n - 1);
    }
  }

  /** The items before y in the ranking order. */
  ghost function Ahead(items: seq<Item>, y: Item): set<Item> {
    set z | z in items && Comes(z, y, Fused)
  }

  lemma {:induction false} Elements(b: seq<Item>, n: nat)
    requires DistinctIds(b) && n <= |b|
    ensures |set j | 0 <= j < n :: b[j]| == n
  {
    if n > 0 {
      Elements(b, n - 1);
      assert (set j | 0 <= j < n :: b[j]) == (set j | 0 <= j < n - 1 :: b[j]) + {b[n - 1]};
    }
  }

  /** In a ranking, as many items are ahead as the index says. */
  lemma AheadIsIndex(items: seq<Item>, b: seq<Item>, i: nat)
    requires Ranked(b, Fused) && DistinctIds(b) && i < |b| && forall x :: x in b <==> x in items
    ensures |Ahead(items, b[i])| == i
  {
    hide Comes;
    Elements(b, i);
    forall z ensures z in Ahead(items, b[i]) <==> z in set j | 0 <= j < i :: b[j] {
      if z in Ahead(items, b[i]) {
        var j :| 0 <= j < |b| && b[j] == z;
        ComesOrder(b[i], b[j], b[i], Fused);
      }
    }
    assert Ahead(items, b[i]) == set j | 0 <= j < i :: b[j];
  }

  lemma HitsDistinct(items: seq<Item>)
    requires Distinct(items)
    ensures DistinctIds(Hits(items, 0)) && Ranked(Hits(items, 0), Fused)
  {
    hide Comes, Hits, Distinct;
    AllHits(items);
    var a := Hits(items, 0);
    forall i, j | 0 <= i < j < |a| ensures a[i].chunk.id != a[j].chunk.id {
      assert a[i] in a && a[j] in a;
      if a[i].chunk.id == a[j].chunk.id { ItemsByKey(items, a[i], a[j]); }
      ComesOrder(a[i], a[j], a[i], Fused);
    }
  }

  // ---------------------------------------------------------------- the unfiltered list

  /** The uncut hits of ranking everything, and of ranking candidates with the unfiltered vector list. */
  lemma UnfilteredHits(items: seq<Item>, candidates: seq<Candidate>)
    requires Distinct(items) && IsMerge(candidates, UnfilteredList(items, Vector), TopList(items, Keyword))
    ensures var a, b := Hits(Rescored(items), 0), Hits(ItemsOf(candidates), 0);
      && Ranked(a, Fused) && Ranked(b, Fused) && DistinctIds(a) && DistinctIds(b) && Raised(a, b)
      && (forall x :: x in b <==> x in ItemsOf(candidates))
  {
    hide Distinct, TopList, UnfilteredList, IsMerge, Rescored, ItemsOf, Hits, Ranked, DistinctIds, RaisedIn;
    var v, k := UnfilteredList(items, Vector), TopList(items, Keyword);
    UnfilteredItems(items);
    RescoredDistinct(items);
    CandidatesDistinct(items, candidates, v, k);
    HitsDistinct(Rescored(items));
    HitsDistinct(ItemsOf(candidates));
    AllHits(Rescored(items));
    AllHits(ItemsOf(candidates));
    var a, b := Hits(Rescored(items), 0), Hits(ItemsOf(candidates), 0);
    forall x | x in ItemsOf(candidates) ensures x.fused > 0.0 {
      var c := CandidateFrom(candidates, x);
      CandidateScore(items, candidates, c);
    }
    forall y | y in a ensures RaisedIn(y, b) {
      var c := ScoredIsRaised(items, candidates, y);
      CandidateItem(candidates, c);
      IsRaised(y, ItemOf(c), b);
    }
  }

  lemma IsRaised(y: Item, z: Item, b: seq<Item>)
    requires z in b && z.chunk == y.chunk && z.fused >= y.fused
    ensures RaisedIn(y, b)
  {
  }

  /** A candidate that is not overrated is a hit of ranking everything, with the same score. */
  lemma FairIsScored(items: seq<Item>, candidates: seq<Candidate>, c: Candidate)
    requires Distinct(items) && IsMerge(candidates, UnfilteredList(items, Vector), TopList(items, Keyword))
    requires c in candidates && !Overrated(c)
    ensures Has(ItemOf(c), Hits(Rescored(items), 0))
  {
    hide Distinct, TopList, UnfilteredList, Rescored, Hits, FusedScore, Has, Position, Weight, ListsOf;
    var v, k := UnfilteredList(items, Vector), TopList(items, Keyword);
    UnfilteredItems(items);
    var x := MergedIsItem(items, v, k, c.chunk.id);
    var y := x.(fused := FusedScore(items, x.chunk.id));
    CandidateScore(items, candidates, c);
    RescoredItem(items, x);
    RescoredDistinct(items);
    AllHits(Rescored(items));
    HasItem(ItemOf(c), y, Hits(Rescored(items), 0));
  }

  /** An overrated candidate is no hit of ranking everything with the score that it has. */
  lemma OverratedDiffers(items: seq<Item>, candidates: seq<Candidate>, c: Candidate, y: Item)
    requires Distinct(items) && IsMerge(candidates, UnfilteredList(items, Vector), TopList(items, Keyword))
    requires c in candidates && Overrated(c) && y in Rescored(items)
    ensures !Same(y, ItemOf(c))
  {
    hide Distinct, TopList, UnfilteredList, Rescored, IsMerge, FusedScore, Weight, Overrated;
    CandidateScore(items, candidates, c);
    var x := RescoredFrom(items, y);
  }

  /** With the vector list as the query returns it, and for each number of hits that a search can ask for, the two
      ways agree if and only if every candidate listed without a positive vector score has at least that many
      candidates ahead of it. */
  lemma UnfilteredAgreesExactly(items: seq<Item>, candidates: seq<Candidate>, topK: nat)
    requires Distinct(items) && IsMerge(candidates, UnfilteredList(items, Vector), TopList(items, Keyword))
    requires topK >= 1
    ensures Agree(Hits(Rescored(items), topK), Hits(ItemsOf(candidates), topK)) <==>
      forall c | c in candidates && Overrated(c) :: |Ahead(ItemsOf(candidates), ItemOf(c))| >= topK
  {
    hide Distinct, IsMerge, Rescored, ItemsOf, Hits, Agree, Overrated, Ahead;
    if c :| c in candidates && Overrated(c) && |Ahead(ItemsOf(candidates), ItemOf(c))| < topK {
      UnfilteredDisagrees(items, candidates, topK, c);
    } else {
      UnfilteredAgrees(items, candidates, topK);
    }
  }

  lemma IndexOf(items: seq<Item>, b: seq<Item>, z: Item) returns (i: nat)
    requires Ranked(b, Fused) && DistinctIds(b) && (forall x :: x in b <==> x in items) && z in items
    ensures i < |b| && b[i] == z && |Ahead(items, z)| == i
  {
    hide Ranked, DistinctIds, Ahead;
    i :| 0 <= i < |b| && b[i] == z;
    AheadIsIndex(items, b, i);
  }

  lemma UnfilteredDisagrees(items: seq<Item>, candidates: seq<Candidate>, topK: nat, c: Candidate)
    requires Distinct(items) && IsMerge(candidates, UnfilteredList(items, Vector), TopList(items, Keyword))
    requires c in candidates && Overrated(c) && |Ahead(ItemsOf(candidates), ItemOf(c))| < topK
    ensures !Agree(Hits(Rescored(items), topK), Hits(ItemsOf(candidates), topK))
  {
    hide Distinct, IsMerge, Rescored, ItemsOf, Hits, Overrated, Ahead, Same, Ranked, DistinctIds, Raised, ItemOf;
    var a, b := Hits(Rescored(items), 0), Hits(ItemsOf(candidates), 0);
    UnfilteredHits(items, candidates);
    CandidateItem(candidates, c);
    var i := IndexOf(ItemsOf(candidates), b, ItemOf(c));
    HitsAreCut(Rescored(items), topK);
    HitsAreCut(ItemsOf(candidates), topK);
    if i < |a| {
      RescoredDistinct(items);
      assert a[i] in a;
      HitFrom(Rescored(items), 0, a[i]);
      OverratedDiffers(items, candidates, c, a[i]);
    }
  }

  lemma UnfilteredAgrees(items: seq<Item>, candidates: seq<Candidate>, topK: nat)
    requires Distinct(items) && IsMerge(candidates, UnfilteredList(items, Vector), TopList(items, Keyword))
    requires topK >= 1
    requires forall c | c in candidates && Overrated(c) :: |Ahead(ItemsOf(candidates), ItemOf(c))| >= topK
    ensures Agree(Hits(Rescored(items), topK), Hits(ItemsOf(candidates), topK))
  {
    hide Distinct, IsMerge, Rescored, ItemsOf, Hits, Overrated, Ahead, Same, Ranked, DistinctIds, Raised, ItemOf, Has;
    if d :| d in candidates && Overrated(d) {
      var a, b := Hits(Rescored(items), 0), Hits(ItemsOf(candidates), 0);
      UnfilteredHits(items, candidates);
      CandidateItem(candidates, d);
      var last := IndexOf(ItemsOf(candidates), b, ItemOf(d));
      forall i | 0 <= i < topK ensures Has(b[i], a) {
        assert b[i] in b;
        var c := CandidateFrom(candidates, b[i]);
        var at := IndexOf(ItemsOf(candidates), b, b[i]);
        AheadIsIndex(ItemsOf(candidates), b, i);
        FairIsScored(items, candidates, c);
      }
      TopAgrees(a, b, topK);
      HitsAreCut(Rescored(items), topK);
      HitsAreCut(ItemsOf(candidates), topK);
    } else {
      NoneOverrated(items, candidates);
      UnfilteredPositive(items, Vector);
      FusionAgrees(items, candidates, topK);
    }
  }

  /** Without overrated candidates the vector list holds positive scores alone, and the other way round. */
  lemma NoneOverrated(items: seq<Item>, candidates: seq<Candidate>)
    requires Distinct(items) && IsMerge(candidates, UnfilteredList(items, Vector), TopList(items, Keyword))
    ensures AllPositive(UnfilteredList(items, Vector), Vector) <==> forall c | c in candidates :: !Overrated(c)
  {
    hide Distinct, TopList, UnfilteredList, Position;
    var v, k := UnfilteredList(items, Vector), TopList(items, Keyword);
    forall x | x in v && x.vector <= 0.0 ensures exists c | c in candidates :: Overrated(c) {
      UnfilteredRank(items, x);
      var y := v[Position(v, x.chunk.id) - 1];
      assert y in v;
      UnfilteredItems(items);
      ItemsByKey(items, x, y);
      assert Overrated(Merged(v, k, x.chunk.id));
    }
    forall c | c in candidates && Overrated(c) ensures exists x | x in v :: x.vector <= 0.0 {
      assert v[c.vectorRank - 1] in v;
    }
  }

  /** So the two ways agree for every number of hits exactly when every listed chunk has a positive vector score. */
  lemma UnfilteredAgreesAlways(items: seq<Item>, candidates: seq<Candidate>)
    requires Distinct(items) && IsMerge(candidates, UnfilteredList(items, Vector), TopList(items, Keyword))
    ensures AllPositive(UnfilteredList(items, Vector), Vector) <==>
      forall topK: nat | topK >= 1 :: Agree(Hits(Rescored(items), topK), Hits(ItemsOf(candidates), topK))
  {
    hide Distinct, IsMerge, Rescored, ItemsOf, Hits, Agree, Overrated, Ahead, AllPositive, UnfilteredList;
    NoneOverrated(items, candidates);
    if c :| c in candidates && Overrated(c) {
      var topK := |Ahead(ItemsOf(candidates), ItemOf(c))| + 1;
      UnfilteredAgreesExactly(items, candidates, topK);
    } else {
      forall topK: nat | topK >= 1 ensures Agree(Hits(Rescored(items), topK), Hits(ItemsOf(candidates), topK)) {
        UnfilteredAgreesExactly(items, candidates, topK);
      }
    }
  }

  lemma OneRanked(x: Item, key: Signal)
    ensures Sorted([x], key) == [x] && PositivePart([x], key) == (if Score(x, key) > 0.0 then [x] else [])
    ensures Positives([x]) == if x.fused > 0.0 then [x] else []
  {
    assert [x][1..] == [];
    assert Sorted([], key) == [] && Insert(x, [], key) == [x] + [];
  }

  /** An input on which the two ways differ: one chunk with a negative vector score, no keyword and five hits asked
      for.  Ranking everything gives none, and ranking the candidates gives that chunk. */
  lemma UnrelatedChunkIsHit(x: Item, candidates: seq<Candidate>)
    requires x.vector == -1.0 && x.keyword == 0.0
    requires IsMerge(candidates, UnfilteredList([x], Vector), TopList([x], Keyword))
    ensures Hits(Rescored([x]), 5) == []
    ensures |Hits(ItemsOf(candidates), 5)| == 1 && Hits(ItemsOf(candidates), 5)[0].chunk == x.chunk
  {
    hide Sorted, PositivePart, Positives, Position, Bonus, FusedScore;
    OneRanked(x, Vector);
    OneRanked(x, Keyword);
    var v, k, id := UnfilteredList([x], Vector), TopList([x], Keyword), x.chunk.id;
    assert v == [x] && k == [] && TopList([x], Vector) == [];
    FusedByRanks([x], id);
    PositionAbsent([], id);
    var y := x.(fused := FusedScore([x], id));
    OneRanked(y, Fused);
    assert Rescored([x]) == [y];
    PositionOf(v, 0);
    var c := Merged(v, k, id);
    OnlyCandidate(candidates, v, k, c);
    OneRanked(ItemOf(c), Fused);
    assert ItemsOf(candidates) == [ItemOf(c)];
  }

  lemma OnlyCandidate(candidates: seq<Candidate>, v: seq<Item>, k: seq<Item>, c: Candidate)
    requires IsMerge(candidates, v, k) && |v| == 1 && k == [] && c in candidates
    ensures candidates == [c]
  {
    assert forall id | Listed(v, k, id) :: id == v[0].chunk.id;
    assert forall d | d in candidates :: d.chunk.id == v[0].chunk.id;
    var i :| 0 <= i < |candidates| && candidates[i] == c;
    forall j | 0 <= j < |candidates| ensures candidates[j].chunk.id == v[0].chunk.id {
      assert candidates[j] in candidates;
    }
    if |candidates| > 1 {
      FirstTwoDiffer(candidates, v, k);
      assert false;
    }
  }

  lemma FirstTwoDiffer(candidates: seq<Candidate>, v: seq<Item>, k: seq<Item>)
    requires IsMerge(candidates, v, k) && |candidates| > 1
    ensures candidates[0].chunk.id != candidates[1].chunk.id
  {
    hide Merged, Listed;
  }

  // ---------------------------------------------------------------- what ranks and hits are, in numbers

  /** Names are compared character by character, and a name precedes every longer one that begins with it. */
  lemma {:induction false} LexIs(begin: string, a: string, b: string)
    ensures a != "" && b != "" && a[0] < b[0] ==> Lex(begin + a, begin + b)
    ensures b != "" ==> Lex(begin, begin + b)
  {
    if begin == "" {
      assert begin + a == a && begin + b == b;
    } else {
      assert (begin + a)[1..] == begin[1..] + a && (begin + b)[1..] == begin[1..] + b;
      LexIs(begin[1..], a, b);
    }
  }

  /** Ties of two scores are broken by name and then by ordinal. */
  predicate FirstOf(a: real, x: Chunk, b: real, y: Chunk) {
    a > b || (a == b && (Lex(x.name, y.name) || (x.name == y.name && x.ordinal < y.ordinal)))
  }

  function Own(x: Item, vector: bool): real { if vector then x.vector else x.keyword }

  predicate InOrder(list: seq<Item>, vector: bool) {
    forall i, j | 0 <= i < j < |list| ::
      FirstOf(Own(list[i], vector), list[i].chunk, Own(list[j], vector), list[j].chunk)
  }

  lemma TopIsPrefix(items: seq<Item>, key: Signal) returns (m: nat)
    requires Distinct(items)
    ensures m <= 50 && m <= |Sorted(items, key)| && TopList(items, key) == Sorted(items, key)[..m]
    ensures forall k | m <= k < |Sorted(items, key)| && Score(Sorted(items, key)[k], key) > 0.0 :: m == 50
  {
    hide Distinct, Sorted, Comes;
    SortedDistinct(items, key);
    var p := PositiveFirst(Sorted(items, key), key);
    m := if p < LIMIT then p else LIMIT;
  }

  /** The list of a signal holds at most fifty items, all with a positive score and best first; a positive item is
      left out only of a full list whose items all come before it. */
  lemma TopListIs(items: seq<Item>, vector: bool)
    requires Distinct(items)
    ensures var list := TopList(items, if vector then Vector else Keyword);
      && |list| <= 50 && DistinctIds(list) && InOrder(list, vector)
      && (forall x | x in list :: x in items && Own(x, vector) > 0.0)
      && forall x | x in items && x !in list && Own(x, vector) > 0.0 ::
           |list| == 50 && forall y | y in list :: FirstOf(Own(y, vector), y.chunk, Own(x, vector), x.chunk)
  {
    hide Distinct, Sorted, Lex, TopList, FirstOf;
    var key := if vector then Vector else Keyword;
    var ranking, list := Sorted(items, key), TopList(items, key);
    SortedDistinct(items, key);
    TopListItems(items, key);
    var m := TopIsPrefix(items, key);
    forall i, j | 0 <= i < j < |ranking|
      ensures FirstOf(Own(ranking[i], vector), ranking[i].chunk, Own(ranking[j], vector), ranking[j].chunk)
    {
      InRank(ranking, vector, i, j);
    }
    forall x | x in items && x !in list && Own(x, vector) > 0.0
      ensures |list| == 50 && forall y | y in list :: FirstOf(Own(y, vector), y.chunk, Own(x, vector), x.chunk)
    {
      assert forall k | 0 <= k < m :: ranking[k] == list[k] && list[k] in list;
      var k :| 0 <= k < |ranking| && ranking[k] == x;
      forall y | y in list ensures FirstOf(Own(y, vector), y.chunk, Own(x, vector), x.chunk) {
        var i :| 0 <= i < |list| && list[i] == y;
      }
    }
  }

  lemma InRank(ranking: seq<Item>, vector: bool, i: nat, j: nat)
    requires Ranked(ranking, if vector then Vector else Keyword) && i < j < |ranking|
    ensures FirstOf(Own(ranking[i], vector), ranking[i].chunk, Own(ranking[j], vector), ranking[j].chunk)
  {
    hide Lex;
    assert Comes(ranking[i], ranking[j], if vector then Vector else Keyword);
  }

  /** What being at index i of a list adds to a score; a negative index is that of no place. */
  function Share(i: int): real { if i < 0 then 0.0 else 1.0 / (61 + i) as real }

  predicate At(list: seq<Item>, id: string, i: int) {
    if i < 0 then forall x | x in list :: x.chunk.id != id else i < |list| && list[i].chunk.id == id
  }

  lemma WeightIs(list: seq<Item>, id: string, i: int)
    requires DistinctIds(list) && At(list, id, i)
    ensures Weight(Position(list, id)) == Share(i)
  {
    hide Position;
    if i < 0 { PositionAbsent(list, id); } else { PositionOf(list, i); }
  }

  lemma {:induction false} SortedItems(items: seq<Item>, key: Signal)
    ensures forall y :: y in Sorted(items, key) <==> y in items
  {
    hide Comes, Insert;
    if items != [] {
      SortedItems(items[1..], key);
      InsertKeepsItems(items[0], Sorted(items[1..], key), key);
      assert items == [items[0]] + items[1..];
    }
  }

  lemma HitItem(items: seq<Item>, topK: nat, h: Item)
    requires h in Hits(items, topK)
    ensures h in items && h.fused > 0.0
  {
    hide Sorted, Positives;
    SortedItems(items, Fused);
    PositivesItems(Sorted(items, Fused));
  }

  /** A hit's score is the sum of 1/(60 + r) over the lists that its chunk is in, r counting their places from 1. */
  lemma HitScore(items: seq<Item>, topK: nat, h: Item, i: int, j: int)
    requires Distinct(items) && h in Hits(Rescored(items), topK)
    requires At(TopList(items, Vector), h.chunk.id, i) && At(TopList(items, Keyword), h.chunk.id, j)
    ensures h.fused == Share(i) + Share(j)
  {
    hide Distinct, TopList, Hits, Rescored, Weight, Position, At, Share, DistinctIds, FusedScore;
    HitItem(Rescored(items), topK, h);
    var x := RescoredFrom(items, h);
    FusedByRanks(items, h.chunk.id);
    TopListIs(items, true);
    TopListIs(items, false);
    WeightIs(TopList(items, Vector), h.chunk.id, i);
    WeightIs(TopList(items, Keyword), h.chunk.id, j);
  }

  /** The same for a candidate's two ranks, with 0 for none. */
  lemma CandidateHitScore(candidates: seq<Candidate>, topK: nat, h: Item)
    requires h in Hits(ItemsOf(candidates), topK)
    ensures exists c | c in candidates ::
      c.chunk == h.chunk && h.fused == Share(c.vectorRank - 1) + Share(c.keywordRank - 1)
  {
    hide Hits, ItemsOf;
    HitItem(ItemsOf(candidates), topK, h);
    var c := CandidateFrom(candidates, h);
  }

  predicate Better(i: int, j: int) { 0 <= i && (j < 0 || i < j) }

  lemma ShareDrops(i: int, j: int)
    requires Better(i, j)
    ensures Share(i) > Share(j)
  {
    if j >= 0 { assert 1.0 / (61 + i) as real > 1.0 / (61 + j) as real; }
  }

  /** Hits come in the order of their scores, names and ordinals, all positive, and at most as many as asked for; a
      positive chunk is left out only behind as many hits as were asked for. */
  lemma HitsInOrder(items: seq<Item>, topK: nat)
    requires Distinct(items) && topK >= 1
    ensures var hits := Hits(items, topK);
      && |hits| <= topK && (forall h | h in hits :: h in items && h.fused > 0.0)
      && (forall p, q | 0 <= p < q < |hits| :: FirstOf(hits[p].fused, hits[p].chunk, hits[q].fused, hits[q].chunk))
      && forall x | x in items && x.fused > 0.0 && x !in hits ::
           |hits| == topK && forall h | h in hits :: FirstOf(h.fused, h.chunk, x.fused, x.chunk)
  {
    hide Distinct, Lex, Sorted, Positives;
    AllHits(items);
    var all, hits := Hits(items, 0), Hits(items, topK);
    assert forall p | 0 <= p < |hits| :: hits[p] == all[p];
    forall x | x in items && x.fused > 0.0 && x !in hits
      ensures |hits| == topK && forall h | h in hits :: FirstOf(h.fused, h.chunk, x.fused, x.chunk)
    {
      assert x in all;
      assert forall k | 0 <= k < |hits| :: all[k] in hits;
      var k :| 0 <= k < |all| && all[k] == x;
      forall h | h in hits ensures FirstOf(h.fused, h.chunk, x.fused, x.chunk) {
        var p :| 0 <= p < |hits| && hits[p] == h;
        assert Comes(all[p], all[k], Fused);
      }
    }
  }

  /** Of two hits, one that is placed no worse in both lists and better in one comes first. */
  lemma BetterPlacesFirst(items: seq<Item>, topK: nat, p: nat, q: nat, i: int, j: int, i': int, j': int)
    requires Distinct(items) && topK >= 1 && p < |Hits(Rescored(items), topK)| && q < |Hits(Rescored(items), topK)|
    requires var v, k, a, b := TopList(items, Vector), TopList(items, Keyword),
        Hits(Rescored(items), topK)[p].chunk.id, Hits(Rescored(items), topK)[q].chunk.id;
      At(v, a, i) && At(k, a, j) && At(v, b, i') && At(k, b, j')
    requires (Better(i, i') && (j == j' || Better(j, j'))) || (i == i' && Better(j, j'))
    ensures p < q
  {
    hide Distinct, Hits, Rescored, TopList, At, Share, Lex;
    var hits := Hits(Rescored(items), topK);
    HitScore(items, topK, hits[p], i, j);
    HitScore(items, topK, hits[q], i', j');
    if Better(i, i') { ShareDrops(i, i'); }
    if Better(j, j') { ShareDrops(j, j'); }
    RescoredDistinct(items);
    HitsInOrder(Rescored(items), topK);
    assert q < p ==> FirstOf(hits[q].fused, hits[q].chunk, hits[p].fused, hits[p].chunk);
  }
}
