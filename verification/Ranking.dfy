/** Rank fusion (src/catalog/ranking.ts) and the hydrate, filter and top-k loop of the search
    (src/catalog/postgres-repository.ts:379-430, src/catalog/filters.ts). Scores are exact rationals. */
module Ranking {
  import opened Outcomes
  import Json = CanonicalJson

  const RRF_K: nat := 60
  const SEMANTIC_WEIGHT: real := 0.8
  const LEXICAL_WEIGHT: real := 0.2

  function CandidateK(topK: nat): (k: nat)
    ensures 50 <= k <= 200
    ensures topK <= 20 ==> 10 * topK <= k
    ensures topK <= 50 ==> topK <= k
  {
    var least := if 10 * topK >= 50 then 10 * topK else 50;
    if least <= 200 then least else 200
  }

  datatype Ranked = Ranked(id: string, score: real)

  /** What one list adds to the raw score of an id. */
  function Share(ids: seq<string>, weight: real, id: string): real {
    if ids == [] then 0.0
    else Share(ids[..|ids| - 1], weight, id) + if ids[|ids| - 1] == id then weight / (RRF_K + |ids|) as real else 0.0
  }

  datatype Lists = Lists(semantic: seq<string>, lexical: seq<string>)

  function Score(l: Lists, id: string): real {
    (RRF_K + 1) as real * (Share(l.semantic, SEMANTIC_WEIGHT, id) + Share(l.lexical, LEXICAL_WEIGHT, id))
  }

  predicate InUnion(l: Lists, id: string) {
    id in l.semantic || id in l.lexical
  }

  /** compareRanked: higher scores first, ties by id. */
  predicate Precedes(lt: Json.Order, a: Ranked, b: Ranked) {
    a.score > b.score || (a.score == b.score && lt(a.id, b.id))
  }

  ghost predicate Ordered(lt: Json.Order, r: seq<Ranked>) {
    forall i, j | 0 <= i < j < |r| :: Precedes(lt, r[i], r[j])
  }

  ghost predicate Listed(r: seq<Ranked>, id: string) {
    exists i :: 0 <= i < |r| && r[i].id == id
  }

  /** The union of the lists, each id with its score, in strict order. */
  ghost predicate IsFusion(lt: Json.Order, l: Lists, r: seq<Ranked>) {
    && Ordered(lt, r)
    && (forall i | 0 <= i < |r| :: InUnion(l, r[i].id) && r[i].score == Score(l, r[i].id))
    && (forall id | InUnion(l, id) :: Listed(r, id))
  }

  function Lookup(scores: map<string, real>, id: string): real {
    if id in scores then scores[id] else 0.0
  }

  /** `next` is `scores` with the shares of one list added. */
  ghost predicate Adds(scores: map<string, real>, ids: seq<string>, weight: real, next: map<string, real>) {
    forall id: string :: AddsAt(scores, ids, weight, next, id)
  }

  ghost predicate AddsAt(scores: map<string, real>, ids: seq<string>, weight: real, next: map<string, real>, id: string) {
    && Lookup(next, id) == Lookup(scores, id) + Share(ids, weight, id)
    && (id in next <==> id in scores || id in ids)
  }

  method AddScores(scores: map<string, real>, ids: seq<string>, weight: real) returns (next: map<string, real>)
    ensures Adds(scores, ids, weight, next)
  {
    next := scores;
    for index := 0 to |ids|
      invariant Adds(scores, ids[..index], weight, next)
    {
      var id, was := ids[index], next;
      next := was[id := Lookup(was, id) + weight / (RRF_K + index + 1) as real];
      var done := ids[..index + 1];
      assert done[..index] == ids[..index] && done == ids[..index] + [id];
      forall other: string
        ensures AddsAt(scores, done, weight, next, other)
      {
        assert AddsAt(scores, ids[..index], weight, was, other);
      }
    }
    assert ids[..|ids|] == ids;
  }

  method InsertRanked(lt: Json.Order, r: seq<Ranked>, c: Ranked) returns (next: seq<Ranked>)
    requires Json.StrictTotal(lt) && Ordered(lt, r) && forall i | 0 <= i < |r| :: r[i].id != c.id
    ensures Ordered(lt, next)
    ensures forall x :: x in next <==> x in r || x == c
  {
    var k := 0;
    while k < |r| && Precedes(lt, r[k], c)
      invariant 0 <= k <= |r|
      invariant forall i | 0 <= i < k :: Precedes(lt, r[i], c)
    {
      k := k + 1;
    }
    next := r[..k] + [c] + r[k..];
  }

  /** Every entry of the score map once, in strict order. */
  ghost predicate RanksAll(lt: Json.Order, scores: map<string, real>, ids: set<string>, ranked: seq<Ranked>) {
    && Ordered(lt, ranked)
    && (forall x | x in ranked :: x.id in ids && x.id in scores && x.score == (RRF_K + 1) as real * scores[x.id])
    && (forall id | id in ids :: Listed(ranked, id))
  }

  lemma InsertedRanksAll(
    lt: Json.Order, scores: map<string, real>, ids: set<string>, was: seq<Ranked>, next: seq<Ranked>, c: Ranked)
    requires RanksAll(lt, scores, ids, was) && Ordered(lt, next)
    requires c.id in scores && c.score == (RRF_K + 1) as real * scores[c.id]
    requires forall x :: x in next <==> x in was || x == c
    ensures RanksAll(lt, scores, ids + {c.id}, next)
  {
    forall id | id in ids + {c.id}
      ensures Listed(next, id)
    {
      StillListed(was, next, c, id);
    }
  }

  method RankOne(lt: Json.Order, scores: map<string, real>, ghost ids: set<string>, was: seq<Ranked>, id: string)
    returns (ranked: seq<Ranked>)
    requires Json.StrictTotal(lt) && RanksAll(lt, scores, ids, was) && id in scores && id !in ids
    ensures RanksAll(lt, scores, ids + {id}, ranked)
  {
    var c := Ranked(id, (RRF_K + 1) as real * scores[id]);
    forall i | 0 <= i < |was|
      ensures was[i].id != id
    {
      assert was[i] in was;
    }
    ranked := InsertRanked(lt, was, c);
    InsertedRanksAll(lt, scores, ids, was, ranked, c);
  }

  method RankEntries(lt: Json.Order, scores: map<string, real>) returns (ranked: seq<Ranked>)
    requires Json.StrictTotal(lt)
    ensures RanksAll(lt, scores, scores.Keys, ranked)
  {
    ranked := [];
    var left := scores.Keys;
    while left != {}
      invariant left <= scores.Keys && RanksAll(lt, scores, scores.Keys - left, ranked)
      decreases |left|
    {
      var id :| id in left;
      ranked := RankOne(lt, scores, scores.Keys - left, ranked, id);
      assert scores.Keys - (left - {id}) == scores.Keys - left + {id};
      left := left - {id};
    }
    assert scores.Keys - left == scores.Keys;
  }

  /** reciprocalRankFusion, whatever the order in which the map gives back its entries. */
  method Fuse(lt: Json.Order, l: Lists) returns (ranked: seq<Ranked>)
    requires Json.StrictTotal(lt)
    ensures IsFusion(lt, l, ranked)
  {
    var semantic := AddScores(map[], l.semantic, SEMANTIC_WEIGHT);
    var scores := AddScores(semantic, l.lexical, LEXICAL_WEIGHT);
    ranked := RankEntries(lt, scores);
    RankedScoresFuse(lt, l, semantic, scores, ranked);
  }

  lemma ScoreFromMaps(l: Lists, semantic: map<string, real>, scores: map<string, real>, id: string)
    requires AddsAt(map[], l.semantic, SEMANTIC_WEIGHT, semantic, id)
    requires AddsAt(semantic, l.lexical, LEXICAL_WEIGHT, scores, id)
    ensures id in scores <==> InUnion(l, id)
    ensures id in scores ==> (RRF_K + 1) as real * scores[id] == Score(l, id)
  {
  }

  lemma RankedScoresFuse(
    lt: Json.Order, l: Lists, semantic: map<string, real>, scores: map<string, real>, ranked: seq<Ranked>)
    requires Adds(map[], l.semantic, SEMANTIC_WEIGHT, semantic) && Adds(semantic, l.lexical, LEXICAL_WEIGHT, scores)
    requires RanksAll(lt, scores, scores.Keys, ranked)
    ensures IsFusion(lt, l, ranked)
  {
    forall id: string
      ensures id in scores <==> InUnion(l, id)
      ensures id in scores ==> (RRF_K + 1) as real * scores[id] == Score(l, id)
    {
      assert AddsAt(map[], l.semantic, SEMANTIC_WEIGHT, semantic, id);
      assert AddsAt(semantic, l.lexical, LEXICAL_WEIGHT, scores, id);
      ScoreFromMaps(l, semantic, scores, id);
    }
    assert forall i | 0 <= i < |ranked| :: ranked[i] in ranked;
  }

  lemma StillListed(was: seq<Ranked>, next: seq<Ranked>, c: Ranked, id: string)
    requires forall x :: x in next <==> x in was || x == c
    requires Listed(was, id) || id == c.id
    ensures Listed(next, id)
  {
    if Listed(was, id) {
      var i :| 0 <= i < |was| && was[i].id == id;
      assert was[i] in next;
    } else {
      assert c in next;
    }
  }

  // ---------------------------------------------------------------- the ranking is determined

  lemma PrecedesIsStrict(lt: Json.Order, a: Ranked, b: Ranked, c: Ranked)
    requires Json.StrictTotal(lt)
    ensures !Precedes(lt, a, a)
    ensures Precedes(lt, a, b) && Precedes(lt, b, c) ==> Precedes(lt, a, c)
    ensures a.id != b.id ==> Precedes(lt, a, b) || Precedes(lt, b, a)
  {
  }

  /** In a fusion the place of two ids is the order of their scores, ties by id, and nobody is listed twice. */
  lemma FusionOrder(lt: Json.Order, l: Lists, r: seq<Ranked>, i: nat, j: nat)
    requires Json.StrictTotal(lt) && IsFusion(lt, l, r) && i < |r| && j < |r|
    ensures r[i].id == r[j].id <==> i == j
    ensures i < j <==> Precedes(lt, Ranked(r[i].id, Score(l, r[i].id)), Ranked(r[j].id, Score(l, r[j].id)))
  {
    PrecedesIsStrict(lt, r[i], r[j], r[i]);
    assert Precedes(lt, r[i], r[j]) || Precedes(lt, r[j], r[i]) || i == j;
  }

  // ---------------------------------------------------------------- what the scores mean

  predicate Distinct(ids: seq<string>) {
    forall i, j | 0 <= i < j < |ids| :: ids[i] != ids[j]
  }

  lemma {:induction false} ShareAbsent(ids: seq<string>, weight: real, id: string)
    requires id !in ids
    ensures Share(ids, weight, id) == 0.0
  {
    if ids != [] {
      ShareAbsent(ids[..|ids| - 1], weight, id);
    }
  }

  /** In a list without duplicates an id adds its weight over 60 plus its rank. */
  lemma {:induction false} ShareAt(ids: seq<string>, weight: real, i: nat)
    requires Distinct(ids) && i < |ids|
    ensures Share(ids, weight, ids[i]) == weight / (RRF_K + i + 1) as real
  {
    var init := ids[..|ids| - 1];
    if i == |ids| - 1 {
      ShareAbsent(init, weight, ids[i]);
    } else {
      ShareAt(init, weight, i);
    }
  }

  lemma QuotientMono(w: real, m: real, n: real)
    requires w > 0.0 && 0.0 < m <= n
    ensures w / n <= w / m
    ensures m < n ==> w / n < w / m
    ensures w / m > 0.0
  {
    assert (w / m) * m == w && (w / n) * n == w;
  }

  /** `a` comes before `b` in this list, or `b` is not in it. */
  predicate BetterPlaced(ids: seq<string>, a: string, b: string) {
    forall j | 0 <= j < |ids| && ids[j] == b :: exists i :: 0 <= i < j && ids[i] == a
  }

  lemma ShareNonNegative(ids: seq<string>, weight: real, id: string)
    requires Distinct(ids) && weight > 0.0
    ensures Share(ids, weight, id) >= 0.0
  {
    if id in ids {
      var i :| 0 <= i < |ids| && ids[i] == id;
      ShareAt(ids, weight, i);
      QuotientMono(weight, (RRF_K + i + 1) as real, (RRF_K + i + 1) as real);
    } else {
      ShareAbsent(ids, weight, id);
    }
  }

  lemma BetterPlacedScoresMore(ids: seq<string>, weight: real, a: string, b: string)
    requires Distinct(ids) && weight > 0.0 && BetterPlaced(ids, a, b)
    ensures Share(ids, weight, b) <= Share(ids, weight, a)
    ensures b in ids ==> Share(ids, weight, b) < Share(ids, weight, a)
  {
    if b in ids {
      var j :| 0 <= j < |ids| && ids[j] == b;
      var i :| 0 <= i < j && ids[i] == a;
      ShareAt(ids, weight, i);
      ShareAt(ids, weight, j);
      QuotientMono(weight, (RRF_K + i + 1) as real, (RRF_K + j + 1) as real);
    } else {
      ShareAbsent(ids, weight, b);
      ShareNonNegative(ids, weight, a);
    }
  }

  /** An id better placed in every list that contains the other one scores more, so it comes first. */
  lemma BetterPlacedComesFirst(l: Lists, a: string, b: string)
    requires Distinct(l.semantic) && Distinct(l.lexical) && InUnion(l, b)
    requires BetterPlaced(l.semantic, a, b) && BetterPlaced(l.lexical, a, b)
    ensures Score(l, a) > Score(l, b)
  {
    BetterPlacedScoresMore(l.semantic, SEMANTIC_WEIGHT, a, b);
    BetterPlacedScoresMore(l.lexical, LEXICAL_WEIGHT, a, b);
  }

  /** The place after which a semantic hit can no longer be sure to beat a lexical one. */
  lemma SemanticMargin(i: nat, j: nat)
    ensures i + 1 < 184 ==> SEMANTIC_WEIGHT / (RRF_K + i + 1) as real > LEXICAL_WEIGHT / (RRF_K + j + 1) as real
    ensures i + 1 >= 184 ==> SEMANTIC_WEIGHT / (RRF_K + i + 1) as real <= LEXICAL_WEIGHT / (RRF_K + 1) as real
  {
    var m, n := (RRF_K + i + 1) as real, (RRF_K + j + 1) as real;
    QuotientMono(LEXICAL_WEIGHT, 61.0, n);
    if i + 1 < 184 {
      QuotientMono(SEMANTIC_WEIGHT, m, 243.0);
    } else {
      QuotientMono(SEMANTIC_WEIGHT, 244.0, m);
    }
  }

  ghost predicate BeatsLexicalOnly(semantic: seq<string>, a: string, b: string, lexical: seq<string>) {
    Distinct(lexical) && a !in lexical ==> Score(Lists(semantic, lexical), a) > Score(Lists(semantic, lexical), b)
  }

  /** A semantic hit that no lexical list contains beats every id found by words alone, whatever the lexical
      list, exactly when its semantic rank is below 184. */
  lemma SemanticBeatsLexicalIff(semantic: seq<string>, i: nat, b: string)
    requires Distinct(semantic) && i < |semantic| && b !in semantic
    ensures (forall lexical :: BeatsLexicalOnly(semantic, semantic[i], b, lexical)) <==> i + 1 < 184
  {
    var a := semantic[i];
    ShareAt(semantic, SEMANTIC_WEIGHT, i);
    ShareAbsent(semantic, SEMANTIC_WEIGHT, b);
    if i + 1 < 184 {
      forall lexical
        ensures BeatsLexicalOnly(semantic, a, b, lexical)
      {
        if Distinct(lexical) && a !in lexical {
          ShareAbsent(lexical, LEXICAL_WEIGHT, a);
          LexicalShareBelow(lexical, b, i);
        }
      }
    } else {
      SemanticMargin(i, 0);
      ShareAbsent([b], LEXICAL_WEIGHT, a);
      ShareAt([b], LEXICAL_WEIGHT, 0);
      assert !BeatsLexicalOnly(semantic, a, b, [b]);
    }
  }

  lemma LexicalShareBelow(lexical: seq<string>, b: string, i: nat)
    requires Distinct(lexical) && i + 1 < 184
    ensures Share(lexical, LEXICAL_WEIGHT, b) < SEMANTIC_WEIGHT / (RRF_K + i + 1) as real
  {
    if b in lexical {
      var j :| 0 <= j < |lexical| && lexical[j] == b;
      ShareAt(lexical, LEXICAL_WEIGHT, j);
      SemanticMargin(i, j);
    } else {
      ShareAbsent(lexical, LEXICAL_WEIGHT, b);
      QuotientMono(SEMANTIC_WEIGHT, (RRF_K + i + 1) as real, (RRF_K + i + 1) as real);
    }
  }

  // ---------------------------------------------------------------- filters and the top-k loop

  datatype Item = Item(
    id: string, merchantId: string, category: string, currency: string, amountMinor: int, availability: string, score: real)

  /** A hydrated row. `available` and `status` may be unknown. */
  datatype Row = Row(
    tombstoned: bool, available: Option<bool>, status: string, country: string, currency: string, merchantId: string,
    category: string, amountMinor: int)

  /** Empty lists and an absent currency filter nothing. */
  datatype Filters = Filters(
    merchantIds: seq<string>, categories: seq<string>, currency: string, minPrice: Option<int>, maxPrice: Option<int>,
    availability: string)

  predicate MatchesAuthoritativeFilters(item: Item, f: Filters) {
    && (f.merchantIds != [] ==> item.merchantId in f.merchantIds)
    && (f.categories != [] ==> item.category in f.categories)
    && (f.currency != "" ==> item.currency == f.currency)
    && (f.minPrice.Some? ==> f.minPrice.value <= item.amountMinor)
    && (f.maxPrice.Some? ==> item.amountMinor <= f.maxPrice.value)
    && item.availability == f.availability
  }

  predicate Offered(row: Row) {
    !row.tombstoned && row.available != Some(false) && row.status != "discontinued" && row.country == "AR" && row.currency == "ARS"
  }

  function ItemOf(c: Ranked, row: Row): Item {
    Item(c.id, row.merchantId, row.category, row.currency, row.amountMinor,
         if row.status == "in_stock" then "in_stock" else if row.status == "out_of_stock" then "out_of_stock" else "unknown",
         c.score)
  }

  type Rows = map<string, Row>

  predicate Wanted(c: Ranked, rows: Rows, f: Filters) {
    c.id in rows && Offered(rows[c.id]) && MatchesAuthoritativeFilters(ItemOf(c, rows[c.id]), f)
  }

  /** All matching items, best first. */
  function Matching(ranked: seq<Ranked>, rows: Rows, f: Filters): seq<Item> {
    if ranked == [] then []
    else
      var c := ranked[|ranked| - 1];
      Matching(ranked[..|ranked| - 1], rows, f) + if Wanted(c, rows, f) then [ItemOf(c, rows[c.id])] else []
  }

  function Take(items: seq<Item>, k: nat): seq<Item> {
    if |items| <= k then items else items[..k]
  }

  predicate Complete(ranked: seq<Ranked>, rows: Rows) {
    forall i | 0 <= i < |ranked| :: ranked[i].id in rows
  }

  /** The rows were selected by the candidates' ids, so as many rows as candidates means one for each. */
  lemma EnoughRowsAreAll(ranked: seq<Ranked>, rows: Rows)
    requires forall i, j | 0 <= i < j < |ranked| :: ranked[i].id != ranked[j].id
    requires forall id | id in rows :: Listed(ranked, id)
    requires |rows| == |ranked|
    ensures Complete(ranked, rows)
  {
    var ids := Ids(ranked);
    IdsCount(ranked);
    assert rows.Keys <= ids;
    SubsetOfSameSize(rows.Keys, ids);
  }

  function Ids(ranked: seq<Ranked>): set<string> {
    set i | 0 <= i < |ranked| :: ranked[i].id
  }

  lemma {:induction false} IdsCount(ranked: seq<Ranked>)
    requires forall i, j | 0 <= i < j < |ranked| :: ranked[i].id != ranked[j].id
    ensures |Ids(ranked)| == |ranked|
  {
    if ranked != [] {
      var init, last := ranked[..|ranked| - 1], ranked[|ranked| - 1];
      IdsCount(init);
      assert Ids(ranked) == Ids(init) + {last.id};
      assert last.id !in Ids(init);
    }
  }

  lemma {:induction false} SubsetOfSameSize(a: set<string>, b: set<string>)
    requires a <= b && |a| == |b|
    ensures a == b
  {
    if a != {} {
      var x :| x in a;
      SubsetOfSameSize(a - {x}, b - {x});
    } else {
      assert |b| == 0;
    }
  }

  lemma MissingRows(ranked: seq<Ranked>, rows: Rows)
    requires forall i, j | 0 <= i < j < |ranked| :: ranked[i].id != ranked[j].id
    requires forall id | id in rows :: Listed(ranked, id)
    requires |rows| != |ranked|
    ensures !Complete(ranked, rows)
  {
    IdsCount(ranked);
    assert Complete(ranked, rows) ==> Ids(ranked) == rows.Keys;
  }

  lemma MatchingGrows(ranked: seq<Ranked>, rows: Rows, f: Filters, n: nat)
    requires n <= |ranked|
    ensures Matching(ranked[..n], rows, f) <= Matching(ranked, rows, f)
    decreases |ranked|
  {
    if n == |ranked| {
      assert ranked[..n] == ranked;
    } else {
      assert ranked[..|ranked| - 1][..n] == ranked[..n];
      MatchingGrows(ranked[..|ranked| - 1], rows, f, n);
    }
  }

  /** The loop with its early exit returns the best `topK` of all matching items. */
  method TopMatching(ranked: seq<Ranked>, rows: Rows, f: Filters, topK: nat) returns (items: seq<Item>)
    requires Complete(ranked, rows) && topK >= 1
    ensures items == Take(Matching(ranked, rows, f), topK)
  {
    items := [];
    var i := 0;
    while i < |ranked|
      invariant 0 <= i <= |ranked|
      invariant items == Matching(ranked[..i], rows, f) && |items| < topK
    {
      var candidate := ranked[i];
      assert ranked[..i + 1][..i] == ranked[..i];
      var row := rows[candidate.id];
      i := i + 1;
      if !Offered(row) {
        continue;
      }
      if MatchesAuthoritativeFilters(ItemOf(candidate, row), f) {
        items := items + [ItemOf(candidate, row)];
      }
      if |items| == topK {
        MatchingGrows(ranked, rows, f, i);
        return;
      }
    }
    assert ranked[..i] == ranked;
  }

  /** The search is refused exactly when a candidate has no row. The request schema asks for at least one item. */
  method SearchActive(ranked: seq<Ranked>, rows: Rows, f: Filters, topK: nat) returns (r: Option<seq<Item>>)
    requires forall i, j | 0 <= i < j < |ranked| :: ranked[i].id != ranked[j].id
    requires forall id | id in rows :: Listed(ranked, id)
    requires topK >= 1
    ensures r.Some? <==> Complete(ranked, rows)
    ensures r.Some? ==> r.value == Take(Matching(ranked, rows, f), topK)
  {
    if |rows| != |ranked| {
      MissingRows(ranked, rows);
      return None;
    }
    EnoughRowsAreAll(ranked, rows);
    var items := TopMatching(ranked, rows, f, topK);
    return Some(items);
  }
}
