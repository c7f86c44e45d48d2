/** Items taken out of the index and put back: which patches queue a Delete job and which an Upsert job
    (src/catalog/ingestion.ts:459-507), and where the index and the rows part. */
module CatalogTombstones {
  import opened Outcomes
  import opened CatalogText
  import opened CatalogIngestion
  import opened CatalogRevisions
  import opened CatalogIndex
  import opened CatalogWork
  import opened CatalogDrain

  /** The newest job of the item is this one, under the item's search revision. */
  ghost predicate NewestAt(outbox: seq<Job>, revisions: Revisions, item: ItemId, operation: Operation, i: nat) {
    && i < |outbox| && item in revisions
    && outbox[i] == Job(item, revisions[item].search, operation, Pending, 0, None)
    && forall k | i < k < |outbox| :: outbox[k].item != item
  }

  ghost predicate Newest(outbox: seq<Job>, revisions: Revisions, item: ItemId, operation: Operation) {
    exists i: nat :: NewestAt(outbox, revisions, item, operation, i)
  }

  function OperationFor(v: Variant): Operation {
    if IsTombstone(v) then Delete else Upsert
  }

  predicate SameProductText(p: Product, q: Product) {
    && p.title.GetOr("") == q.title.GetOr("") && Plain(p.description).GetOr("") == Plain(q.description).GetOr("")
    && p.media.GetOr("[]") == q.media.GetOr("[]")
  }

  predicate SameVariantText(v: Variant, w: Variant) {
    && v.title.GetOr("") == w.title.GetOr("") && Plain(v.description).GetOr("") == Plain(w.description).GetOr("")
    && v.categories.GetOr([]) == w.categories.GetOr([]) && v.options.GetOr([]) == w.options.GetOr([])
  }

  // ---------------------------------------------------------------- one row

  /** A patched row queues no job exactly when it is no tombstone, was there before, and shows the same text as
      before together with its product. So a row that stops being a tombstone with its text unchanged is not queued. */
  lemma RowQueuesIff(s: Progress, pid: string, base: Product, merged: Product, v: VariantPatch)
    requires PatchVariant(s, pid, base, merged, v).ok && s.ok
    ensures var t, item := PatchVariant(s, pid, base, merged, v), (pid, v.id);
            && v.id in t.variants && item in t.revisions
            && (t.revisions[item].tombstoned <==> IsTombstone(t.variants[v.id]))
            && (if !IsTombstone(t.variants[v.id]) && v.id in s.variants
                   && SameProductText(base, merged) && SameVariantText(s.variants[v.id], t.variants[v.id])
                then t.outbox == s.outbox
                else t.outbox == s.outbox + [t.outbox[|s.outbox|]]
                     && NewestAt(t.outbox, t.revisions, item, OperationFor(t.variants[v.id]), |s.outbox|))
  {
  }

  lemma RowLeavesOthers(s: Progress, pid: string, base: Product, merged: Product, v: VariantPatch, vid: string)
    requires PatchVariant(s, pid, base, merged, v).ok && vid != v.id
    ensures var t := PatchVariant(s, pid, base, merged, v);
            && Lookup(t.variants, vid) == Lookup(s.variants, vid)
            && Lookup(t.revisions, (pid, vid)) == Lookup(s.revisions, (pid, vid))
            && (t.outbox == s.outbox
                || (|t.outbox| == |s.outbox| + 1 && t.outbox[..|s.outbox|] == s.outbox && t.outbox[|s.outbox|].item == (pid, v.id)))
  {
  }

  lemma NewestStays(before: seq<Job>, after: seq<Job>, was: Revisions, now: Revisions, item: ItemId, operation: Operation)
    requires Newest(before, was, item, operation) && Lookup(now, item) == Lookup(was, item)
    requires before <= after && forall k | |before| <= k < |after| :: after[k].item != item
    ensures Newest(after, now, item, operation)
  {
    var i: nat :| NewestAt(before, was, item, operation, i);
    assert NewestAt(after, now, item, operation, i);
  }

  /** A row that is a tombstone is marked as one, and its newest job is the Delete job for it. */
  ghost predicate Retired(s: Progress, pid: string, vid: string) {
    && vid in s.variants && (pid, vid) in s.revisions
    && (s.revisions[(pid, vid)].tombstoned <==> IsTombstone(s.variants[vid]))
    && (IsTombstone(s.variants[vid]) ==> Newest(s.outbox, s.revisions, (pid, vid), Delete))
  }

  lemma {:induction false} LoopRetires(
    s: Progress, pid: string, base: Product, merged: Product, vs: seq<VariantPatch>, vid: string)
    requires s.ok && PatchVariants(s, pid, base, merged, vs).ok && Named(vs, vid)
    ensures Retired(PatchVariants(s, pid, base, merged, vs), pid, vid)
  {
    var init, v := vs[..|vs| - 1], vs[|vs| - 1];
    var before, t := PatchVariants(s, pid, base, merged, init), PatchVariants(s, pid, base, merged, vs);
    RowQueuesIff(before, pid, base, merged, v);
    if vid != v.id {
      var k :| 0 <= k < |vs| && vs[k].id == vid;
      assert init[k].id == vid;
      LoopRetires(s, pid, base, merged, init, vid);
      RowLeavesOthers(before, pid, base, merged, v, vid);
      if IsTombstone(t.variants[vid]) {
        NewestStays(before.outbox, t.outbox, before.revisions, t.revisions, (pid, vid), Delete);
      }
    }
  }

  // ---------------------------------------------------------------- one PATCH

  /** After an accepted PATCH, every row it names is marked as a tombstone exactly when it is one, and the newest job
      of a tombstone is its Delete job. */
  lemma NamedTombstoneIsQueued(st: Store, p: ProductPatch, vid: string)
    requires PatchRows(st, p).ok && Named(p.variants, vid)
    ensures var t := PatchProduct(st, p);
            && HasRow(t.products, p.id, vid) && (p.id, vid) in t.revisions
            && var row := t.products[p.id].variants[vid];
            && (t.revisions[(p.id, vid)].tombstoned <==> IsTombstone(row))
            && (IsTombstone(row) ==> Newest(t.outbox, t.revisions, (p.id, vid), Delete))
  {
    var merged := MergedProduct(Lookup(st.products, p.id), p);
    LoopRetires(Start(st, p), p.id, Lookup(st.products, p.id).GetOr(merged), merged, p.variants, vid);
  }

  lemma {:induction false} AllAreQueued(s: Progress, pid: string, ids: seq<string>, vid: string)
    requires vid in ids && vid in s.variants
    ensures var t := EnqueueAll(s, pid, ids);
            Newest(t.outbox, t.revisions, (pid, vid), OperationFor(s.variants[vid]))
  {
    var before, id := EnqueueAll(s, pid, ids[..|ids| - 1]), ids[|ids| - 1];
    var t := EnqueueAll(s, pid, ids);
    EnqueueAllKeepsVariants(s, pid, ids[..|ids| - 1]);
    if id == vid {
      assert NewestAt(t.outbox, t.revisions, (pid, vid), OperationFor(s.variants[vid]), |before.outbox|);
    } else {
      AllAreQueued(s, pid, ids[..|ids| - 1], vid);
      NewestStays(before.outbox, t.outbox, before.revisions, t.revisions, (pid, vid), OperationFor(s.variants[vid]));
    }
  }

  lemma {:induction false} EnqueueAllKeepsVariants(s: Progress, pid: string, ids: seq<string>)
    ensures EnqueueAll(s, pid, ids).variants == s.variants && EnqueueAll(s, pid, ids).ok == s.ok
  {
    if ids != [] {
      EnqueueAllKeepsVariants(s, pid, ids[..|ids| - 1]);
    }
  }

  /** A PATCH without variants queues a job for every row of the product when it changes the text of the product, and
      otherwise none. */
  lemma BarePatchQueuesIff(st: Store, p: ProductPatch)
    requires StoreOk(st) && p.variants == [] && p.id in st.products
    ensures var t, was := PatchProduct(st, p), st.products[p.id];
            if SameProductText(was, t.products[p.id]) then t.outbox == st.outbox && t.revisions == st.revisions
            else forall vid | vid in was.variants ::
                   Newest(t.outbox, t.revisions, (p.id, vid), OperationFor(was.variants[vid]))
  {
    var was := st.products[p.id];
    var merged := MergedProduct(Some(was), p);
    assert PatchVariants(Start(st, p), p.id, was, merged, p.variants) == Start(st, p);
    EnqueueAllKeepsVariants(Start(st, p), p.id, was.ids);
    assert SameProductText(was, PatchProduct(st, p).products[p.id]) <==>
           SearchableFingerprint(was, FirstVariant(was)) == SearchableFingerprint(merged, FirstVariant(was));
    if !SameProductText(was, PatchProduct(st, p).products[p.id]) {
      forall vid | vid in was.variants
        ensures Newest(PatchProduct(st, p).outbox, PatchProduct(st, p).revisions, (p.id, vid), OperationFor(was.variants[vid]))
      {
        assert vid in was.ids;
        AllAreQueued(Start(st, p), p.id, was.ids, vid);
      }
    }
  }

  // ---------------------------------------------------------------- where the index and the rows part

  const PLAIN := Variant(Some("Blue"), None, None, None, None, None)

  function Offering(available: Option<bool>): ProductPatch {
    ProductPatch("mug", None, None, None, [VariantPatch("v", Variant(
      if available.None? then Some("Blue") else None, None, None, None,
      if available.None? then None else Some(Availability(available, None)), None))])
  }

  const ITEM: ItemId := ("mug", "v")

  /** The row is new, is retired, and is offered again. */
  const CREATED := Patch(Offering(None))
  const RETIRED := Patch(Offering(Some(false)))
  const RESTORED := Patch(Offering(Some(true)))

  lemma OneVariant(s: Progress, pid: string, base: Product, merged: Product, v: VariantPatch)
    requires s.ok
    ensures PatchVariants(s, pid, base, merged, [v]) == PatchVariant(s, pid, base, merged, v)
  {
    assert [v][..0] == [];
    assert PatchVariants(s, pid, base, merged, []) == s;
  }

  function Row(available: Option<bool>): Variant {
    PLAIN.(availability := if available.None? then None else Some(Availability(available, None)))
  }

  function Shelf(available: Option<bool>, revision: Revision, outbox: seq<Job>): Store {
    Store(map["mug" := Product(None, None, None, ["v"], map["v" := Row(available)])], map[ITEM := revision], outbox)
  }

  lemma Creating()
    ensures PatchProduct(INITIAL.store, Offering(None))
            == Shelf(None, Revision(1, 1, 0, false), [Job(ITEM, 1, Upsert, Pending, 0, None)])
  {
    var p := Offering(None);
    var merged := MergedProduct(None, p);
    OneVariant(Start(INITIAL.store, p), "mug", merged, merged, p.variants[0]);
    assert merged == Product(None, None, None, [], map[]);
    var t := PatchVariant(Start(INITIAL.store, p), "mug", merged, merged, p.variants[0]);
    assert p.variants[0].row == Row(None);
    assert t.variants == map["v" := Row(None)] && t.ids == ["v"];
    assert t.revisions == map[ITEM := Revision(1, 1, 0, false)];
    assert t.outbox == [Job(ITEM, 1, Upsert, Pending, 0, None)];
    assert PatchRows(INITIAL.store, p) == t;
  }

  lemma Changing(was: Option<bool>, available: bool, r: Revision, outbox: seq<Job>)
    ensures var next := Revision(r.data + 1, r.search, r.index, !available);
            PatchProduct(Shelf(was, r, outbox), Offering(Some(available)))
            == Shelf(Some(available), next, if available then outbox else outbox + [Job(ITEM, r.search, Delete, Pending, 0, None)])
  {
    var st, p := Shelf(was, r, outbox), Offering(Some(available));
    var base := st.products["mug"];
    OneVariant(Start(st, p), "mug", base, base, p.variants[0]);
    assert MergedProduct(Some(base), p) == base;
    var t := PatchVariant(Start(st, p), "mug", base, base, p.variants[0]);
    assert t.variants == map["v" := Row(Some(available))] && t.ids == ["v"];
    assert t.revisions == map[ITEM := Revision(r.data + 1, r.search, r.index, !available)];
    assert PatchRows(st, p) == t;
  }

  lemma OneMore(steps: seq<Step>, last: Step)
    ensures Run(steps + [last]) == Next(Run(steps), last)
  {
    assert (steps + [last])[..|steps|] == steps;
  }

  /** One more job of worker 0, from its claim to its end. */
  lemma OneMoreJob(steps: seq<Step>, a: Step, b: Step)
    ensures Run(steps + [a, b]) == Next(Next(Run(steps), a), b)
  {
    assert steps + [a, b] == steps + [a] + [b];
    OneMore(steps, a);
    OneMore(steps + [a], b);
  }

  function Written(steps: seq<Step>, now: int, vector: Option<seq<real>>): seq<Step> {
    steps + [Claim(0, now, 30000)] + [Embed(0, vector), Settle(0, now, 5)]
  }

  function Deleted(steps: seq<Step>, now: int): seq<Step> {
    steps + [Claim(0, now, 30000), Settle(0, now, 5)]
  }

  lemma WrittenRun(steps: seq<Step>, now: int, vector: Option<seq<real>>)
    ensures Run(Written(steps, now, vector))
            == Next(Next(Next(Run(steps), Claim(0, now, 30000)), Embed(0, vector)), Settle(0, now, 5))
  {
    OneMore(steps, Claim(0, now, 30000));
    OneMoreJob(steps + [Claim(0, now, 30000)], Embed(0, vector), Settle(0, now, 5));
  }

  /** No worker is busy, the store is this one, and the item has a document or not. */
  ghost predicate Is(s: World, store: Store, indexed: bool) {
    s.store == store && s.workers == map[] && (ITEM in s.documents <==> indexed)
  }

  ghost predicate At(steps: seq<Step>, store: Store, indexed: bool) {
    Is(Run(steps), store, indexed)
  }

  lemma DoneOnShelf(
    s: World, t: World, was: Option<bool>, r: Revision, next: Revision, outbox: seq<Job>, i: nat, documents: Documents)
    requires s.store == Shelf(was, r, outbox) && s.workers == map[] && i < |outbox|
    requires JobDone(s, t, 0, i, map[ITEM := next], documents)
    ensures Is(t, Shelf(was, next, outbox[i := outbox[i].(status := Done, leaseUntil := None)]), ITEM in documents)
  {
  }

  lemma FailedOnShelf(s: World, t: World, was: Option<bool>, r: Revision, outbox: seq<Job>, indexed: bool, i: nat, now: int)
    requires Is(s, Shelf(was, r, outbox), indexed) && i < |outbox| && JobFailed(s, t, 0, i, now, 5)
    requires outbox[i].attempts == 0
    ensures Is(t, Shelf(was, r, outbox[i := outbox[i].(status := Pending, attempts := 1, leaseUntil := Some(now + 1000))]), indexed)
  {
    assert t.store.outbox[i] == outbox[i].(status := Pending, attempts := 1, leaseUntil := Some(now + 1000));
  }

  lemma ShelfIsWritable(was: Option<bool>, r: Revision, outbox: seq<Job>, j: Job)
    requires j.item == ITEM && j.searchRevision == r.search && r.index < r.search
    ensures CurrentFields(Shelf(was, r, outbox).products, ITEM).Some? && !NothingToWrite(Shelf(was, r, outbox), j)
  {
  }

  lemma OnlyItemIsWritten(s: World, r: Revision, i: nat, now: int)
    requires s.workers == map[] && s.store.revisions == map[ITEM := r] && FirstTakeable(s.store.outbox, now, i)
    requires s.store.outbox[i].item == ITEM && s.store.outbox[i].searchRevision == r.search
    requires s.store.outbox[i].operation == Upsert && r.index < r.search && CurrentFields(s.store.products, ITEM).Some?
    ensures var t := Next(Next(Next(s, Claim(0, now, 30000)), Embed(0, Some([]))), Settle(0, now, 5));
            JobDone(s, t, 0, i, map[ITEM := r.(index := r.search)], t.documents) && ITEM in t.documents
  {
    WritingJobEnds(s, 0, i, now, 30000, [], now, 5);
    assert map[ITEM := r][ITEM := r.(index := r.search)] == map[ITEM := r.(index := r.search)];
  }

  lemma WrittenOnShelf(s: World, was: Option<bool>, r: Revision, outbox: seq<Job>, indexed: bool, i: nat, now: int)
    requires Is(s, Shelf(was, r, outbox), indexed) && FirstTakeable(outbox, now, i) && r.index < r.search
    requires outbox[i].item == ITEM && outbox[i].searchRevision == r.search && outbox[i].operation == Upsert
    ensures Is(Next(Next(Next(s, Claim(0, now, 30000)), Embed(0, Some([]))), Settle(0, now, 5)),
               Shelf(was, r.(index := r.search), outbox[i := outbox[i].(status := Done, leaseUntil := None)]), true)
  {
    var t := Next(Next(Next(s, Claim(0, now, 30000)), Embed(0, Some([]))), Settle(0, now, 5));
    ShelfIsWritable(was, r, outbox, outbox[i]);
    OnlyItemIsWritten(s, r, i, now);
    DoneOnShelf(s, t, was, r, r.(index := r.search), outbox, i, t.documents);
  }

  lemma WrittenAt(steps: seq<Step>, was: Option<bool>, r: Revision, outbox: seq<Job>, indexed: bool, i: nat, now: int)
    requires At(steps, Shelf(was, r, outbox), indexed) && FirstTakeable(outbox, now, i) && r.index < r.search
    requires outbox[i].item == ITEM && outbox[i].searchRevision == r.search && outbox[i].operation == Upsert
    ensures At(Written(steps, now, Some([])),
               Shelf(was, r.(index := r.search), outbox[i := outbox[i].(status := Done, leaseUntil := None)]), true)
  {
    WrittenRun(steps, now, Some([]));
    WrittenOnShelf(Run(steps), was, r, outbox, indexed, i, now);
  }

  lemma FailingOnShelf(s: World, was: Option<bool>, r: Revision, outbox: seq<Job>, indexed: bool, i: nat, now: int)
    requires Is(s, Shelf(was, r, outbox), indexed) && FirstTakeable(outbox, now, i) && r.index < r.search
    requires outbox[i] == Job(ITEM, r.search, Upsert, outbox[i].status, 0, outbox[i].leaseUntil)
    ensures Is(Next(Next(Next(s, Claim(0, now, 30000)), Embed(0, None)), Settle(0, now, 5)),
               Shelf(was, r, outbox[i := outbox[i].(status := Pending, attempts := 1, leaseUntil := Some(now + 1000))]), indexed)
  {
    ShelfIsWritable(was, r, outbox, outbox[i]);
    FailingJobEnds(s, 0, i, now, 30000, now, 5);
    FailedOnShelf(s, Next(Next(Next(s, Claim(0, now, 30000)), Embed(0, None)), Settle(0, now, 5)), was, r, outbox, indexed, i, now);
  }

  lemma FailedAt(steps: seq<Step>, was: Option<bool>, r: Revision, outbox: seq<Job>, indexed: bool, i: nat, now: int)
    requires At(steps, Shelf(was, r, outbox), indexed) && FirstTakeable(outbox, now, i) && r.index < r.search
    requires outbox[i] == Job(ITEM, r.search, Upsert, outbox[i].status, 0, outbox[i].leaseUntil)
    ensures At(Written(steps, now, None),
               Shelf(was, r, outbox[i := outbox[i].(status := Pending, attempts := 1, leaseUntil := Some(now + 1000))]), indexed)
  {
    WrittenRun(steps, now, None);
    FailingOnShelf(Run(steps), was, r, outbox, indexed, i, now);
  }

  lemma DeletedAt(steps: seq<Step>, was: Option<bool>, r: Revision, outbox: seq<Job>, indexed: bool, i: nat, now: int)
    requires At(steps, Shelf(was, r, outbox), indexed) && FirstTakeable(outbox, now, i)
    requires outbox[i].item == ITEM && outbox[i].operation == Delete
    ensures At(Deleted(steps, now), Shelf(was, r, outbox[i := outbox[i].(status := Done, leaseUntil := None)]), false)
  {
    OneMoreJob(steps, Claim(0, now, 30000), Settle(0, now, 5));
    ShortJobEnds(Run(steps), 0, i, now, 30000, now, 5);
  }

  lemma ChangedAt(steps: seq<Step>, was: Option<bool>, r: Revision, outbox: seq<Job>, indexed: bool, available: bool)
    requires At(steps, Shelf(was, r, outbox), indexed)
    ensures At(steps + [Patch(Offering(Some(available)))],
               Shelf(Some(available), Revision(r.data + 1, r.search, r.index, !available),
                     if available then outbox else outbox + [Job(ITEM, r.search, Delete, Pending, 0, None)]), indexed)
  {
    OneMore(steps, Patch(Offering(Some(available))));
    Changing(was, available, r, outbox);
  }

  const FIRST := Job(ITEM, 1, Upsert, Pending, 0, None)
  const SECOND := Job(ITEM, 1, Delete, Pending, 0, None)

  lemma CreatedAt()
    ensures At([CREATED], Shelf(None, Revision(1, 1, 0, false), [FIRST]), false)
  {
    OneMore([], CREATED);
    assert [] + [CREATED] == [CREATED];
    Creating();
  }

  const INDEXED := Written([CREATED], 0, Some([]))
  const REMOVED := Deleted(INDEXED + [RETIRED], 1)

  /** A row that is offered again with its text unchanged stays out of the index: in this run every job is done, the
      row is there and no tombstone, and the item has no document. */
  lemma LiftedStaysMissing()
    ensures var s := Run(REMOVED + [RESTORED]);
            && Drained(s.store.outbox, ITEM) && s.workers == map[] && CurrentFields(s.store.products, ITEM).Some?
            && ITEM in s.store.revisions && !s.store.revisions[ITEM].tombstoned && ITEM !in s.documents
  {
    var first, second := FIRST.(status := Done), SECOND.(status := Done);
    CreatedAt();
    WrittenAt([CREATED], None, Revision(1, 1, 0, false), [FIRST], false, 0, 0);
    assert [FIRST][0 := first] == [first];
    ChangedAt(INDEXED, None, Revision(1, 1, 1, false), [first], true, false);
    assert [first] + [SECOND] == [first, SECOND];
    DeletedAt(INDEXED + [RETIRED], Some(false), Revision(2, 1, 1, true), [first, SECOND], true, 1, 1);
    assert [first, SECOND][1 := second] == [first, second];
    ChangedAt(REMOVED, Some(false), Revision(2, 1, 1, true), [first, second], false, true);
    assert At(REMOVED + [RESTORED], Shelf(Some(true), Revision(3, 1, 1, false), [first, second]), false);
  }

  const FAILED := Written([CREATED], 0, None)
  const TAKEN_OUT := Deleted(FAILED + [RETIRED], 1)
  const AGAIN := FIRST.(attempts := 1, leaseUntil := Some(1000))

  lemma TakenOutAt()
    ensures At(TAKEN_OUT, Shelf(Some(false), Revision(2, 1, 0, true), [AGAIN, SECOND.(status := Done)]), false)
  {
    CreatedAt();
    FailedAt([CREATED], None, Revision(1, 1, 0, false), [FIRST], false, 0, 0);
    assert [FIRST][0 := AGAIN] == [AGAIN];
    ChangedAt(FAILED, None, Revision(1, 1, 0, false), [AGAIN], false, false);
    assert [AGAIN] + [SECOND] == [AGAIN, SECOND];
    DeletedAt(FAILED + [RETIRED], Some(false), Revision(2, 1, 0, true), [AGAIN, SECOND], false, 1, 1);
    assert [AGAIN, SECOND][1 := SECOND.(status := Done)] == [AGAIN, SECOND.(status := Done)];
  }

  /** A try that was put off brings a retired row into the index: in this run every job is done, the row is a
      tombstone, and the item has a document. */
  lemma RetiredComesBack()
    ensures var s := Run(Written(TAKEN_OUT, 1000, Some([])));
            && Drained(s.store.outbox, ITEM) && s.workers == map[]
            && ITEM in s.store.revisions && s.store.revisions[ITEM].tombstoned && ITEM in s.documents
  {
    var first, second := AGAIN.(status := Done, leaseUntil := None), SECOND.(status := Done);
    TakenOutAt();
    WrittenAt(TAKEN_OUT, Some(false), Revision(2, 1, 0, true), [AGAIN, second], false, 0, 1000);
    assert [AGAIN, second][0 := first] == [first, second];
    assert At(Written(TAKEN_OUT, 1000, Some([])), Shelf(Some(false), Revision(2, 1, 1, true), [first, second]), true);
  }
}
