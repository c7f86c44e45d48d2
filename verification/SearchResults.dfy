/** Which items a search returns (src/catalog/postgres-repository.ts:375-432, src/catalog/filters.ts): by the rows and
    the filters alone, and in the order of the ranking. */
module SearchResults {
  import opened Outcomes
  import Json = CanonicalJson
  import opened Ranking

  /** How many candidates are asked for: ten for each result, but at least 50 and at most 200. */
  lemma CandidatesAskedFor(topK: nat)
    ensures CandidateK(topK) == if topK <= 5 then 50 else if topK < 20 then 10 * topK else 200
  {
  }

  /** A row that is offered in the market and passes the filters. */
  predicate Fits(row: Row, f: Filters) {
    && !row.tombstoned && row.available != Some(false) && row.status != "discontinued"
    && row.country == "AR" && row.currency == "ARS" && f.currency in {"", "ARS"}
    && (f.merchantIds == [] || row.merchantId in f.merchantIds) && (f.categories == [] || row.category in f.categories)
    && (f.minPrice.None? || f.minPrice.value <= row.amountMinor) && (f.maxPrice.None? || row.amountMinor <= f.maxPrice.value)
    && f.availability == if row.status in {"in_stock", "out_of_stock"} then row.status else "unknown"
  }

  /** An item says what its row says, under the id and the score of its candidate. */
  predicate Describes(item: Item, c: Ranked, row: Row) {
    && item.id == c.id && item.score == c.score && item.merchantId == row.merchantId && item.category == row.category
    && item.currency == row.currency && item.amountMinor == row.amountMinor
    && item.availability == if row.status in {"in_stock", "out_of_stock"} then row.status else "unknown"
  }

  lemma WantedIff(c: Ranked, rows: Rows, f: Filters)
    ensures Wanted(c, rows, f) <==> c.id in rows && Fits(rows[c.id], f)
    ensures c.id in rows ==> Describes(ItemOf(c, rows[c.id]), c, rows[c.id])
  {
  }

  /** Candidate i is the one that item j describes. */
  ghost predicate IsCandidate(ranked: seq<Ranked>, rows: Rows, f: Filters, items: seq<Item>, j: int, i: int) {
    && 0 <= i < |ranked| && 0 <= j < |items| && ranked[i].id in rows && Fits(rows[ranked[i].id], f)
    && Describes(items[j], ranked[i], rows[ranked[i].id])
  }

  ghost predicate HasItem(ranked: seq<Ranked>, rows: Rows, f: Filters, items: seq<Item>, i: int) {
    exists j :: IsCandidate(ranked, rows, f, items, j, i)
  }

  ghost predicate HasCandidate(ranked: seq<Ranked>, rows: Rows, f: Filters, items: seq<Item>, j: int) {
    exists i :: IsCandidate(ranked, rows, f, items, j, i)
  }

  /** Every candidate that fits has its item, and no other has. */
  ghost predicate ListsFitting(ranked: seq<Ranked>, rows: Rows, f: Filters, items: seq<Item>) {
    && (forall i | 0 <= i < |ranked| && ranked[i].id in rows && Fits(rows[ranked[i].id], f) :: HasItem(ranked, rows, f, items, i))
    && (forall j | 0 <= j < |items| :: HasCandidate(ranked, rows, f, items, j))
  }

  lemma CandidateStays(
    ranked: seq<Ranked>, c: Ranked, rows: Rows, f: Filters, items: seq<Item>, more: seq<Item>, j: int, i: int)
    requires IsCandidate(ranked, rows, f, items, j, i) && items <= more
    ensures IsCandidate(ranked + [c], rows, f, more, j, i)
  {
  }

  lemma ListsOneMore(ranked: seq<Ranked>, c: Ranked, rows: Rows, f: Filters, items: seq<Item>, more: seq<Item>)
    requires ListsFitting(ranked, rows, f, items)
    requires more == items + if Wanted(c, rows, f) then [ItemOf(c, rows[c.id])] else []
    ensures ListsFitting(ranked + [c], rows, f, more)
  {
    var all := ranked + [c];
    WantedIff(c, rows, f);
    forall i | 0 <= i < |all| && all[i].id in rows && Fits(rows[all[i].id], f)
      ensures HasItem(all, rows, f, more, i)
    {
      if i < |ranked| {
        assert HasItem(ranked, rows, f, items, i);
        var j :| IsCandidate(ranked, rows, f, items, j, i);
        CandidateStays(ranked, c, rows, f, items, more, j, i);
      } else {
        assert IsCandidate(all, rows, f, more, |items|, i);
      }
    }
    forall j | 0 <= j < |more|
      ensures HasCandidate(all, rows, f, more, j)
    {
      if j < |items| {
        assert HasCandidate(ranked, rows, f, items, j);
        var i :| IsCandidate(ranked, rows, f, items, j, i);
        CandidateStays(ranked, c, rows, f, items, more, j, i);
      } else {
        assert IsCandidate(all, rows, f, more, j, |ranked|);
      }
    }
  }

  lemma {:induction false} MatchingLists(ranked: seq<Ranked>, rows: Rows, f: Filters)
    ensures ListsFitting(ranked, rows, f, Matching(ranked, rows, f))
  {
    if ranked != [] {
      var init, c := ranked[..|ranked| - 1], ranked[|ranked| - 1];
      MatchingLists(init, rows, f);
      ListsOneMore(init, c, rows, f, Matching(init, rows, f), Matching(ranked, rows, f));
      assert init + [c] == ranked;
    }
  }

  /** The items come in the strict order of the ranking. */
  ghost predicate InOrder(lt: Json.Order, items: seq<Item>) {
    forall i, j | 0 <= i < j < |items| :: Precedes(lt, Ranked(items[i].id, items[i].score), Ranked(items[j].id, items[j].score))
  }

  lemma {:induction false} MatchingInOrder(lt: Json.Order, ranked: seq<Ranked>, rows: Rows, f: Filters)
    requires Ordered(lt, ranked)
    ensures InOrder(lt, Matching(ranked, rows, f))
  {
    if ranked != [] {
      var init, c := ranked[..|ranked| - 1], ranked[|ranked| - 1];
      var items := Matching(init, rows, f);
      MatchingInOrder(lt, init, rows, f);
      MatchingLists(init, rows, f);
      if Wanted(c, rows, f) {
        forall j | 0 <= j < |items|
          ensures Precedes(lt, Ranked(items[j].id, items[j].score), c)
        {
          assert HasCandidate(init, rows, f, items, j);
          var i :| IsCandidate(init, rows, f, items, j, i);
          assert Precedes(lt, ranked[i], ranked[|ranked| - 1]);
        }
      }
    }
  }

  /** What a search returns: every item describes a candidate that fits; the items are in the order of the ranking;
      there are as many as were asked for, or else every candidate that fits is among them; and a candidate that fits and
      is not returned comes after all that are. */
  lemma ResultsAreTheBest(lt: Json.Order, ranked: seq<Ranked>, rows: Rows, f: Filters, topK: nat)
    requires Ordered(lt, ranked)
    ensures var all, items := Matching(ranked, rows, f), Take(Matching(ranked, rows, f), topK);
            && InOrder(lt, items) && |items| <= topK && (|items| < topK ==> items == all)
            && ListsFitting(ranked, rows, f, all)
            && forall i, j | |items| <= i < |all| && 0 <= j < |items| ::
                 Precedes(lt, Ranked(items[j].id, items[j].score), Ranked(all[i].id, all[i].score))
  {
    MatchingInOrder(lt, ranked, rows, f);
    MatchingLists(ranked, rows, f);
  }
}
