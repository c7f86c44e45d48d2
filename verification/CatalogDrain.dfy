/** The drained index: once every job of an item is done, the index holds for it what a rebuild from the current rows
    would give, however patches and workers interleaved, unless the item was ever deleted. */
module CatalogDrain {
  import opened Outcomes
  import opened CatalogText
  import opened CatalogIngestion
  import opened CatalogRevisions
  import opened CatalogIndex

  predicate NoDeletes(outbox: seq<Job>, item: ItemId) {
    forall i | 0 <= i < |outbox| && outbox[i].item == item :: outbox[i].operation == Upsert
  }

  // ---------------------------------------------------------------- which runs delete an item

  /** The PATCH gives this item no availability that makes it a tombstone. */
  predicate KeepsAlive(p: ProductPatch, item: ItemId) {
    p.id == item.0 ==> forall i | 0 <= i < |p.variants| && p.variants[i].id == item.1 :: !IsTombstone(p.variants[i].row)
  }

  predicate RowAlive(variants: map<string, Variant>, vid: string) {
    vid in variants ==> !IsTombstone(variants[vid])
  }

  ghost predicate Alive(st: Store, item: ItemId) {
    && (item.0 in st.products ==> RowAlive(st.products[item.0].variants, item.1))
    && NoDeletes(st.outbox, item)
  }

  lemma EnqueueKeepsAlive(s: Progress, pid: string, vid: string, v: Variant, changed: bool, item: ItemId)
    requires NoDeletes(s.outbox, item) && ((pid, vid) == item ==> !IsTombstone(v))
    ensures NoDeletes(Enqueue(s, (pid, vid), v, changed).outbox, item)
  {
  }

  lemma PatchVariantKeepsAlive(s: Progress, pid: string, base: Product, merged: Product, v: VariantPatch, item: ItemId)
    requires pid == item.0 ==> RowAlive(s.variants, item.1) && (v.id == item.1 ==> !IsTombstone(v.row))
    requires NoDeletes(s.outbox, item)
    ensures var t := PatchVariant(s, pid, base, merged, v);
            NoDeletes(t.outbox, item) && (pid == item.0 ==> RowAlive(t.variants, item.1))
  {
  }

  lemma {:induction false} LoopKeepsAlive(
    s: Progress, pid: string, base: Product, merged: Product, vs: seq<VariantPatch>, item: ItemId)
    requires pid == item.0 ==> RowAlive(s.variants, item.1)
    requires pid == item.0 ==> forall i | 0 <= i < |vs| && vs[i].id == item.1 :: !IsTombstone(vs[i].row)
    requires NoDeletes(s.outbox, item)
    ensures var t := PatchVariants(s, pid, base, merged, vs);
            NoDeletes(t.outbox, item) && (pid == item.0 ==> RowAlive(t.variants, item.1))
  {
    if vs != [] {
      LoopKeepsAlive(s, pid, base, merged, vs[..|vs| - 1], item);
      PatchVariantKeepsAlive(PatchVariants(s, pid, base, merged, vs[..|vs| - 1]), pid, base, merged, vs[|vs| - 1], item);
    }
  }

  lemma {:induction false} EnqueueAllKeepsAlive(s: Progress, pid: string, ids: seq<string>, item: ItemId)
    requires NoDeletes(s.outbox, item) && (pid == item.0 ==> RowAlive(s.variants, item.1))
    ensures var t := EnqueueAll(s, pid, ids); t.variants == s.variants && NoDeletes(t.outbox, item)
  {
    if ids != [] {
      var before, id := EnqueueAll(s, pid, ids[..|ids| - 1]), ids[|ids| - 1];
      EnqueueAllKeepsAlive(s, pid, ids[..|ids| - 1], item);
      if id in s.variants {
        EnqueueKeepsAlive(before, pid, id, s.variants[id], true, item);
      }
    }
  }

  lemma PatchKeepsAlive(st: Store, p: ProductPatch, item: ItemId)
    requires Alive(st, item) && KeepsAlive(p, item)
    ensures Alive(PatchProduct(st, p), item)
  {
    var merged := MergedProduct(Lookup(st.products, p.id), p);
    var base := Lookup(st.products, p.id).GetOr(merged);
    LoopKeepsAlive(Start(st, p), p.id, base, merged, p.variants, item);
    EnqueueAllKeepsAlive(Start(st, p), p.id, base.ids, item);
  }

  lemma SameJobsKeepNoDeletes(a: seq<Job>, b: seq<Job>, item: ItemId)
    requires SameJobs(a, b)
    ensures NoDeletes(a, item) <==> NoDeletes(b, item)
  {
    assert forall i | 0 <= i < |a| :: SameJob(a[i], b[i]);
  }

  /** An item has no Delete job in a run whose patches never make it a tombstone. */
  lemma {:induction false} AliveIsNotDeleted(steps: seq<Step>, item: ItemId)
    requires forall i | 0 <= i < |steps| && steps[i].Patch? :: KeepsAlive(steps[i].p, item)
    ensures Alive(Run(steps).store, item)
  {
    if steps != [] {
      var init, last := steps[..|steps| - 1], steps[|steps| - 1];
      AliveIsNotDeleted(init, item);
      RevisionsStayOrdered(init);
      if last.Patch? {
        PatchKeepsAlive(Run(init).store, last.p, item);
      } else if !last.Embed? {
        StatusSteps(Run(init), last);
        SameJobsKeepNoDeletes(Run(init).store.outbox, Run(steps).store.outbox, item);
      }
    }
  }

  // ---------------------------------------------------------------- settled jobs

  /** The job has nothing left to write. */
  ghost predicate SettledJob(revisions: Revisions, j: Job) {
    && j.item in revisions
    && (j.searchRevision < revisions[j.item].search || j.searchRevision <= revisions[j.item].index)
  }

  ghost predicate DoneSettled(st: Store, item: ItemId) {
    forall i | 0 <= i < |st.outbox| && st.outbox[i].item == item && st.outbox[i].status == Done ::
      SettledJob(st.revisions, st.outbox[i])
  }

  ghost predicate PhaseSettled(st: Store, ph: Phase, item: ItemId) {
    ph.Executed? ==> ph.job < |st.outbox| && (st.outbox[ph.job].item == item ==> SettledJob(st.revisions, st.outbox[ph.job]))
  }

  ghost predicate ExecutedSettled(s: World, item: ItemId) {
    forall w | w in s.workers :: PhaseSettled(s.store, s.workers[w], item)
  }

  /** The index revision of the item is the one of its document. */
  ghost predicate Indexed(s: World, item: ItemId) {
    item in s.store.revisions && s.store.revisions[item].index > 0 ==>
      item in s.documents && s.documents[item].indexRevision == s.store.revisions[item].index
  }

  ghost predicate DrainInv(s: World, item: ItemId) {
    Inv(s) && NoDeletes(s.store.outbox, item) && DoneSettled(s.store, item) && ExecutedSettled(s, item) && Indexed(s, item)
  }

  ghost predicate Ahead(before: Revisions, after: Revisions) {
    forall item | item in before ::
      item in after && before[item].search <= after[item].search && before[item].index <= after[item].index
  }

  lemma SettledStays(before: Revisions, after: Revisions, a: Job, b: Job)
    requires Ahead(before, after) && SameJob(a, b) && SettledJob(before, a)
    ensures SettledJob(after, b)
  {
  }

  lemma PatchOnlyAddsJobs(s: World, p: ProductPatch)
    requires Inv(s)
    ensures s.store.outbox <= Next(s, Patch(p)).store.outbox
  {
    if SchemaOk(p) {
      PatchKeepsStoreOk(s.store, p);
    }
  }

  lemma PatchKeepsDrainInv(s: World, p: ProductPatch, item: ItemId)
    requires DrainInv(s, item) && NoDeletes(Next(s, Patch(p)).store.outbox, item)
    ensures DrainInv(Next(s, Patch(p)), item)
  {
    if SchemaOk(p) {
      var t := Next(s, Patch(p));
      NextKeepsInv(s, Patch(p));
      PatchKeepsStoreOk(s.store, p);
      forall other | other in s.store.revisions
        ensures other in t.store.revisions && s.store.revisions[other].search <= t.store.revisions[other].search
                && s.store.revisions[other].index == t.store.revisions[other].index
      {
        assert Grown(Lookup(s.store.revisions, other), Lookup(t.store.revisions, other));
      }
      forall i | 0 <= i < |t.store.outbox| && t.store.outbox[i].item == item && t.store.outbox[i].status == Done
        ensures SettledJob(t.store.revisions, t.store.outbox[i])
      {
        assert i < |s.store.outbox| && t.store.outbox[i] == s.store.outbox[i];
      }
      forall w | w in t.workers
        ensures PhaseSettled(t.store, t.workers[w], item)
      {
        assert PhaseSettled(s.store, s.workers[w], item);
        assert t.workers[w].job < |s.store.outbox|;
        assert t.store.outbox[t.workers[w].job] == s.store.outbox[t.workers[w].job];
      }
      if item in t.store.revisions && t.store.revisions[item].index > 0 {
        assert Grown(Lookup(s.store.revisions, item), Lookup(t.store.revisions, item));
        assert item in s.store.revisions;
      }
    }
  }

  /** A job that execute finishes without a write had nothing to write. */
  lemma FinishedIsSettled(st: Store, documents: Documents, j: Job)
    requires JobOk(st.revisions, j) && j.operation == Upsert
    ensures BeginJob(st, documents, j).Finished? ==> SettledJob(st.revisions, j) && BeginJob(st, documents, j).documents == documents
  {
  }

  /** A Delete job drops the document of its own item only. */
  lemma BeginKeepsOthers(st: Store, documents: Documents, j: Job, item: ItemId)
    requires j.item == item ==> j.operation == Upsert
    ensures var attempt := BeginJob(st, documents, j);
            attempt.Finished? ==> (item in attempt.documents <==> item in documents)
                                  && (item in documents ==> attempt.documents[item] == documents[item])
  {
  }

  lemma SameJobsKeepPhase(st: Store, outbox: seq<Job>, ph: Phase, item: ItemId)
    requires PhaseSettled(st, ph, item) && SameJobs(st.outbox, outbox)
    ensures PhaseSettled(st.(outbox := outbox), ph, item)
  {
    assert ph.Executed? ==> SameJob(st.outbox[ph.job], outbox[ph.job]);
  }

  lemma ClaimSettles(s: World, w: nat, i: nat, until: int, item: ItemId)
    requires i < |s.store.outbox| && JobOk(s.store.revisions, s.store.outbox[i])
    requires s.store.outbox[i].item == item ==> s.store.outbox[i].operation == Upsert
    ensures var t := AfterClaim(s, w, i, until);
            && t.store.revisions == s.store.revisions && PhaseSettled(t.store, t.workers[w], item)
            && (Indexed(s, item) ==> Indexed(t, item))
  {
    var j := Leasing(s.store.outbox[i], until);
    if j.item == item {
      FinishedIsSettled(WithJob(s, i, j).store, s.documents, j);
    }
    BeginKeepsOthers(WithJob(s, i, j).store, s.documents, j, item);
  }

  lemma ClaimKeepsDone(s: World, w: nat, i: nat, until: int, item: ItemId)
    requires i < |s.store.outbox| && DoneSettled(s.store, item)
    ensures DoneSettled(AfterClaim(s, w, i, until).store, item)
  {
  }

  lemma ClaimKeepsPhases(s: World, t: World, w: nat, i: nat, until: int, item: ItemId)
    requires i < |s.store.outbox| && t == AfterClaim(s, w, i, until)
    requires ExecutedSettled(s, item) && StatusOnly(s, t) && PhaseSettled(t.store, t.workers[w], item)
    ensures ExecutedSettled(t, item)
  {
    assert t.store == s.store.(outbox := t.store.outbox);
    forall v | v in t.workers
      ensures PhaseSettled(t.store, t.workers[v], item)
    {
      if v != w {
        assert PhaseSettled(s.store, s.workers[v], item);
        SameJobsKeepPhase(s.store, t.store.outbox, s.workers[v], item);
      }
    }
  }

  lemma StartKeepsDrainInv(s: World, t: World, w: nat, i: nat, until: int, item: ItemId)
    requires DrainInv(s, item) && i < |s.store.outbox| && t == AfterClaim(s, w, i, until)
    ensures DrainInv(t, item)
  {
    ClaimIsStatusOnly(s, w, i, until);
    StatusKeepsInv(s, t);
    assert JobOk(s.store.revisions, s.store.outbox[i]);
    ClaimSettles(s, w, i, until, item);
    ClaimKeepsDone(s, w, i, until, item);
    ClaimKeepsPhases(s, t, w, i, until, item);
    SameJobsKeepNoDeletes(s.store.outbox, t.store.outbox, item);
  }

  lemma ClaimKeepsDrainInv(s: World, w: nat, now: int, leaseMs: nat, item: ItemId)
    requires DrainInv(s, item)
    ensures DrainInv(Next(s, Claim(w, now, leaseMs)), item)
  {
    var t, i := Next(s, Claim(w, now, leaseMs)), FirstReady(s.store.outbox, now, 0);
    if w !in s.workers && i.Some? {
      StartKeepsDrainInv(s, t, w, i.value, now + leaseMs, item);
    } else {
      assert t == s;
    }
  }

  lemma CommitAdvances(revisions: Revisions, j: Job)
    requires RevisionsOk(revisions) && JobOk(revisions, j)
    ensures Ahead(revisions, CommitRevisions(revisions, j)) && SettledJob(CommitRevisions(revisions, j), j)
  {
    assert RevisionOk(revisions[j.item]);
  }

  lemma CommitKeepsDone(st: Store, j: Job, item: ItemId)
    requires DoneSettled(st, item) && Ahead(st.revisions, CommitRevisions(st.revisions, j))
    ensures DoneSettled(st.(revisions := CommitRevisions(st.revisions, j)), item)
  {
    forall i | 0 <= i < |st.outbox| && st.outbox[i].item == item && st.outbox[i].status == Done
      ensures SettledJob(CommitRevisions(st.revisions, j), st.outbox[i])
    {
      SettledStays(st.revisions, CommitRevisions(st.revisions, j), st.outbox[i], st.outbox[i]);
    }
  }

  lemma CommitKeepsPhase(st: Store, j: Job, ph: Phase, item: ItemId)
    requires PhaseSettled(st, ph, item) && Ahead(st.revisions, CommitRevisions(st.revisions, j))
    ensures PhaseSettled(st.(revisions := CommitRevisions(st.revisions, j)), ph, item)
  {
  }

  lemma CommitKeepsIndexed(s: World, w: nat, i: nat, fields: Fields, vector: seq<real>, item: ItemId)
    requires Indexed(s, item) && i < |s.store.outbox|
    ensures Indexed(AfterEmbed(s, w, i, fields, vector), item)
  {
  }

  lemma EmbedKeepsDrainInv(s: World, w: nat, vector: Option<seq<real>>, item: ItemId)
    requires DrainInv(s, item)
    ensures DrainInv(Next(s, Embed(w, vector)), item)
  {
    var t := Next(s, Embed(w, vector));
    EmbedKeepsInv(s, w, vector);
    if w in s.workers && s.workers[w].Embedding? {
      var i := s.workers[w].job;
      var j := s.store.outbox[i];
      assert JobOk(s.store.revisions, j);
      CommitAdvances(s.store.revisions, j);
      CommitKeepsDone(s.store, j, item);
      if vector.Some? {
        CommitKeepsIndexed(s, w, i, s.workers[w].fields, vector.value, item);
      }
      forall v | v in t.workers
        ensures PhaseSettled(t.store, t.workers[v], item)
      {
        if v != w {
          assert PhaseSettled(s.store, s.workers[v], item);
          CommitKeepsPhase(s.store, j, s.workers[v], item);
        }
      }
    }
  }

  lemma SettleKeepsDone(s: World, step: Step, item: ItemId)
    requires DoneSettled(s.store, item) && ExecutedSettled(s, item) && (step.Settle? || step.Release?)
    ensures DoneSettled(Next(s, step).store, item) && Next(s, step).documents == s.documents
    ensures forall v | v in Next(s, step).workers :: v in s.workers && Next(s, step).workers[v] == s.workers[v]
  {
    var t := Next(s, step);
    assert step.Settle? && step.w in s.workers ==> PhaseSettled(s.store, s.workers[step.w], item);
    forall i | 0 <= i < |t.store.outbox| && t.store.outbox[i].item == item && t.store.outbox[i].status == Done
      ensures SettledJob(t.store.revisions, t.store.outbox[i])
    {
      if t.store.outbox[i] == s.store.outbox[i] {
        assert SettledJob(s.store.revisions, s.store.outbox[i]);
      }
    }
  }

  lemma StatusKeepsDrainInv(s: World, step: Step, item: ItemId)
    requires DrainInv(s, item) && (step.Settle? || step.Release?)
    ensures DrainInv(Next(s, step), item)
  {
    var t := Next(s, step);
    NextKeepsInv(s, step);
    StatusSteps(s, step);
    SettleKeepsDone(s, step, item);
    SameJobsKeepNoDeletes(s.store.outbox, t.store.outbox, item);
    assert t.store == s.store.(outbox := t.store.outbox);
    forall v | v in t.workers
      ensures PhaseSettled(t.store, t.workers[v], item)
    {
      assert PhaseSettled(s.store, s.workers[v], item);
      SameJobsKeepPhase(s.store, t.store.outbox, s.workers[v], item);
    }
  }

  /** A Delete job is never taken back. */
  lemma DeletesStay(s: World, step: Step, item: ItemId)
    requires Inv(s) && NoDeletes(Next(s, step).store.outbox, item)
    ensures NoDeletes(s.store.outbox, item)
  {
    var t := Next(s, step);
    if step.Patch? {
      PatchOnlyAddsJobs(s, step.p);
      assert forall i | 0 <= i < |s.store.outbox| :: s.store.outbox[i] == t.store.outbox[i];
    } else if !step.Embed? {
      StatusSteps(s, step);
      SameJobsKeepNoDeletes(s.store.outbox, t.store.outbox, item);
    }
  }

  lemma {:induction false} RunKeepsDrainInv(steps: seq<Step>, item: ItemId)
    requires NoDeletes(Run(steps).store.outbox, item)
    ensures DrainInv(Run(steps), item)
  {
    if steps != [] {
      var init, last := steps[..|steps| - 1], steps[|steps| - 1];
      RevisionsStayOrdered(init);
      DeletesStay(Run(init), last, item);
      RunKeepsDrainInv(init, item);
      match last {
        case Patch(p) => PatchKeepsDrainInv(Run(init), p, item);
        case Claim(w, now, leaseMs) => ClaimKeepsDrainInv(Run(init), w, now, leaseMs, item);
        case Embed(w, vector) => EmbedKeepsDrainInv(Run(init), w, vector, item);
        case Settle(_, _, _) => StatusKeepsDrainInv(Run(init), last, item);
        case Release(_) => StatusKeepsDrainInv(Run(init), last, item);
      }
    }
  }

  // ---------------------------------------------------------------- the drained index

  ghost predicate Drained(outbox: seq<Job>, item: ItemId) {
    forall i | 0 <= i < |outbox| && outbox[i].item == item :: outbox[i].status == Done
  }

  /** What the index holds for an item; CurrentFields is the same for the index rebuilt from the rows. */
  function IndexedFields(documents: Documents, item: ItemId): Option<Fields> {
    if item in documents then Some(documents[item].fields) else None
  }

  /** A settled newest job leaves the item indexed at its search revision. */
  lemma DrainedItemIndexed(s: World, item: ItemId)
    requires DrainInv(s, item) && Drained(s.store.outbox, item) && item in s.store.revisions
    ensures item in s.documents && s.documents[item].indexRevision == s.store.revisions[item].search
  {
    assert RevisionOk(s.store.revisions[item]);
    assert HasJob(s.store.outbox, item, s.store.revisions[item].search);
    var i :| 0 <= i < |s.store.outbox| && s.store.outbox[i].item == item
             && s.store.outbox[i].searchRevision == s.store.revisions[item].search;
    assert s.store.outbox[i].status == Done;
    assert SettledJob(s.store.revisions, s.store.outbox[i]);
  }

  /** In a clean run, once every job of an item that was never deleted is done, the index holds for it the fields
      recomputed from its current row, and nothing when it has no row. */
  lemma DrainedIndexIsFromScratch(steps: seq<Step>, item: ItemId)
    requires CleanRun(steps)
    requires NoDeletes(Run(steps).store.outbox, item) && Drained(Run(steps).store.outbox, item)
    ensures IndexedFields(Run(steps).documents, item) == CurrentFields(Run(steps).store.products, item)
  {
    var s := Run(steps);
    CurrentDocumentsAreFresh(steps);
    RunKeepsDrainInv(steps, item);
    if item in s.documents {
      assert Fresh(s.store, item, s.documents[item].indexRevision, s.documents[item].fields);
      DrainedItemIndexed(s, item);
    } else if CurrentFields(s.store.products, item).Some? {
      assert item == (item.0, item.1);
      DrainedItemIndexed(s, item);
    }
  }
}
