/** What one PATCH does to the revisions, rows and jobs of a feed (src/catalog/ingestion.ts:444-510): every
    row whose search revision it leaves alone keeps its index fields, and every other row gets a job. */
module CatalogRevisions {
  import opened Outcomes
  import opened Text
  import opened CatalogText
  import opened CatalogIngestion

  ghost predicate RevisionOk(r: Revision) {
    1 <= r.search && r.index <= r.search <= r.data
  }

  ghost predicate RevisionsOk(revisions: Revisions) {
    forall item | item in revisions :: RevisionOk(revisions[item])
  }

  ghost predicate Grown(was: Option<Revision>, next: Option<Revision>) {
    && (was.Some? ==> next.Some? && was.value.search <= next.value.search && was.value.data <= next.value.data
                       && next.value.index == was.value.index)
    && (was.None? && next.Some? ==> next.value.index == 0)
    && (next.Some? ==> RevisionOk(next.value))
  }

  ghost predicate AllGrown(before: Revisions, after: Revisions) {
    forall item: ItemId :: Grown(Lookup(before, item), Lookup(after, item))
  }

  ghost predicate OthersKept(before: Revisions, after: Revisions, pid: string) {
    forall item: ItemId | item.0 != pid :: Lookup(after, item) == Lookup(before, item)
  }

  /** The search revision of the item did not move. */
  ghost predicate SearchKept(before: Revisions, after: Revisions, item: ItemId) {
    && item in after && item in before && after[item].search == before[item].search
  }

  predicate Named(vs: seq<VariantPatch>, vid: string) {
    exists i :: 0 <= i < |vs| && vs[i].id == vid
  }

  /** The row of one variant after the loop, when its search revision did not move. */
  ghost predicate RowKept(
    rows: map<string, Variant>, s: Progress, vid: string, base: Product, merged: Product, vs: seq<VariantPatch>)
  {
    && vid in rows && vid in s.variants
    && VariantTextOf(s.variants[vid]) == VariantTextOf(rows[vid])
    && (if Named(vs, vid) then ProductTextOf(merged) == ProductTextOf(base) else s.variants[vid] == rows[vid])
  }

  ghost predicate RowsKept(s0: Progress, s: Progress, pid: string, base: Product, merged: Product, vs: seq<VariantPatch>) {
    && (forall vid | vid in s.variants :: (pid, vid) in s.revisions)
    && (forall vid | vid in s.variants && SearchKept(s0.revisions, s.revisions, (pid, vid)) ::
          RowKept(s0.variants, s, vid, base, merged, vs))
    && (forall vid | vid in s0.variants :: vid in s.variants)
    && (forall vid | vid in s0.variants && !Named(vs, vid) :: s.variants[vid] == s0.variants[vid])
  }

  ghost predicate JobOk(revisions: Revisions, j: Job) {
    j.item in revisions && 1 <= j.searchRevision <= revisions[j.item].search
  }

  ghost predicate JobsOk(revisions: Revisions, outbox: seq<Job>) {
    forall i | 0 <= i < |outbox| :: JobOk(revisions, outbox[i])
  }

  ghost predicate OnlyPendingAdded(before: seq<Job>, after: seq<Job>) {
    && before <= after
    && (forall i | |before| <= i < |after| :: after[i].status == Pending)
  }

  predicate HasJob(outbox: seq<Job>, item: ItemId, search: nat) {
    exists i :: 0 <= i < |outbox| && outbox[i].item == item && outbox[i].searchRevision == search
  }

  /** Every item whose search revision moved has a job for the new one. */
  ghost predicate MovedHaveJobs(before: Revisions, after: Revisions, outbox: seq<Job>) {
    forall item | item in after && !SearchKept(before, after, item) :: HasJob(outbox, item, after[item].search)
  }

  /** What holds of the rows being built, relative to the rows `s0` the PATCH started from. */
  ghost predicate Evolved(s0: Progress, s: Progress, pid: string, base: Product, merged: Product, vs: seq<VariantPatch>) {
    && AllGrown(s0.revisions, s.revisions)
    && OthersKept(s0.revisions, s.revisions, pid)
    && (s.ok ==> RowsKept(s0, s, pid, base, merged, vs))
    && JobsOk(s.revisions, s.outbox)
    && OnlyPendingAdded(s0.outbox, s.outbox)
    && MovedHaveJobs(s0.revisions, s.revisions, s.outbox)
  }

  // ---------------------------------------------------------------- one row

  lemma HasJobGrows(outbox: seq<Job>, more: seq<Job>, item: ItemId, search: nat)
    requires HasJob(outbox, item, search)
    ensures HasJob(outbox + more, item, search)
  {
    var i :| 0 <= i < |outbox| && outbox[i].item == item && outbox[i].searchRevision == search;
    assert (outbox + more)[i] == outbox[i];
  }

  /** Revisions only grow, and the search revision of the enqueued item moves exactly when its text changed. */
  lemma EnqueueGrows(before: Revisions, s: Progress, item: ItemId, v: Variant, changed: bool)
    requires AllGrown(before, s.revisions)
    requires changed || item in s.revisions
    ensures AllGrown(before, Enqueue(s, item, v, changed).revisions)
    ensures var r := Enqueue(s, item, v, changed).revisions;
            forall other | other != item :: Lookup(r, other) == Lookup(s.revisions, other)
    ensures changed ==> !SearchKept(before, Enqueue(s, item, v, changed).revisions, item)
    ensures !changed && SearchKept(before, Enqueue(s, item, v, changed).revisions, item)
            ==> SearchKept(before, s.revisions, item)
  {
    var r := Enqueue(s, item, v, changed).revisions;
    assert Grown(Lookup(before, item), Lookup(s.revisions, item));
    forall other: ItemId
      ensures Grown(Lookup(before, other), Lookup(r, other))
    {
      assert Grown(Lookup(before, other), Lookup(s.revisions, other));
    }
  }

  lemma EnqueueKeepsJobs(before: Revisions, s: Progress, item: ItemId, v: Variant, changed: bool)
    requires AllGrown(before, s.revisions)
    requires changed || item in s.revisions
    requires JobsOk(s.revisions, s.outbox) && MovedHaveJobs(before, s.revisions, s.outbox)
    ensures var t := Enqueue(s, item, v, changed);
            && JobsOk(t.revisions, t.outbox) && MovedHaveJobs(before, t.revisions, t.outbox)
            && OnlyPendingAdded(s.outbox, t.outbox)
  {
    var t := Enqueue(s, item, v, changed);
    EnqueueGrows(before, s, item, v, changed);
    assert Grown(Lookup(before, item), Lookup(s.revisions, item));
    assert Grown(Lookup(before, item), Lookup(t.revisions, item));
    var more := t.outbox[|s.outbox|..];
    assert t.outbox == s.outbox + more;
    forall i | 0 <= i < |t.outbox|
      ensures JobOk(t.revisions, t.outbox[i])
    {
      assert i < |s.outbox| ==> JobOk(s.revisions, s.outbox[i]);
    }
    forall other | other in t.revisions && !SearchKept(before, t.revisions, other)
      ensures HasJob(t.outbox, other, t.revisions[other].search)
    {
      if other == item && changed {
        assert t.outbox[|s.outbox|].item == item;
      } else {
        assert Lookup(s.revisions, other).Some?;
        assert t.revisions[other].search == s.revisions[other].search;
        HasJobGrows(s.outbox, more, other, t.revisions[other].search);
      }
    }
  }

  lemma NamedGrows(vs: seq<VariantPatch>, v: VariantPatch, vid: string)
    ensures Named(vs + [v], vid) <==> Named(vs, vid) || vid == v.id
  {
    if Named(vs, vid) {
      var i :| 0 <= i < |vs| && vs[i].id == vid;
      assert (vs + [v])[i].id == vid;
    }
    assert (vs + [v])[|vs|] == v;
  }

  /** One patched variant, seen from the rows. */
  lemma PatchVariantKeepsRows(
    s0: Progress, s: Progress, t: Progress, pid: string, base: Product, merged: Product, vs: seq<VariantPatch>,
    v: VariantPatch, row: Variant, changed: bool)
    requires AllGrown(s0.revisions, s.revisions) && RowsKept(s0, s, pid, base, merged, vs)
    requires changed == (v.id !in s.variants
                         || SearchableFingerprint(base, s.variants[v.id]) != SearchableFingerprint(merged, row))
    requires t.variants == s.variants[v.id := row] && (pid, v.id) in t.revisions
    requires forall other: ItemId | other != (pid, v.id) :: Lookup(t.revisions, other) == Lookup(s.revisions, other)
    requires changed ==> !SearchKept(s0.revisions, t.revisions, (pid, v.id))
    requires !changed && SearchKept(s0.revisions, t.revisions, (pid, v.id))
             ==> SearchKept(s0.revisions, s.revisions, (pid, v.id))
    ensures RowsKept(s0, t, pid, base, merged, vs + [v])
  {
    forall vid | vid in t.variants
      ensures (pid, vid) in t.revisions
      ensures SearchKept(s0.revisions, t.revisions, (pid, vid)) ==> RowKept(s0.variants, t, vid, base, merged, vs + [v])
    {
      NamedGrows(vs, v, vid);
      if vid != v.id {
        assert Lookup(t.revisions, (pid, vid)) == Lookup(s.revisions, (pid, vid));
      }
      if SearchKept(s0.revisions, t.revisions, (pid, vid)) {
        assert RowKept(s0.variants, s, vid, base, merged, vs);
      }
    }
    forall vid | vid in s0.variants && !Named(vs + [v], vid)
      ensures t.variants[vid] == s0.variants[vid]
    {
      NamedGrows(vs, v, vid);
    }
  }

  /** One patched variant. */
  lemma PatchVariantEvolves(
    s0: Progress, s: Progress, pid: string, base: Product, merged: Product, vs: seq<VariantPatch>, v: VariantPatch)
    requires s.ok && Evolved(s0, s, pid, base, merged, vs)
    ensures Evolved(s0, PatchVariant(s, pid, base, merged, v), pid, base, merged, vs + [v])
  {
    var t := PatchVariant(s, pid, base, merged, v);
    if t.ok {
      var row := t.variants[v.id];
      var changed := v.id !in s.variants
                     || SearchableFingerprint(base, s.variants[v.id]) != SearchableFingerprint(merged, row);
      var s' := s.(ids := t.ids, variants := t.variants);
      assert t == Enqueue(s', (pid, v.id), row, changed);
      EnqueueGrows(s0.revisions, s', (pid, v.id), row, changed);
      EnqueueKeepsJobs(s0.revisions, s', (pid, v.id), row, changed);
      PatchVariantKeepsRows(s0, s, t, pid, base, merged, vs, v, row, changed);
    }
  }

  /** The whole loop over the patched variants. */
  lemma {:induction false} PatchVariantsEvolves(
    s0: Progress, pid: string, base: Product, merged: Product, vs: seq<VariantPatch>)
    requires Evolved(s0, s0, pid, base, merged, [])
    ensures Evolved(s0, PatchVariants(s0, pid, base, merged, vs), pid, base, merged, vs)
  {
    if vs == [] {
    } else {
      var init := vs[..|vs| - 1];
      PatchVariantsEvolves(s0, pid, base, merged, init);
      var s := PatchVariants(s0, pid, base, merged, init);
      assert vs == init + [vs[|vs| - 1]];
      if s.ok {
        PatchVariantEvolves(s0, s, pid, base, merged, init, vs[|vs| - 1]);
      }
    }
  }

  /** A changed product without variants in the PATCH: every row of it gets a new search revision. */
  lemma {:induction false} EnqueueAllMovesAll(s: Progress, pid: string, ids: seq<string>)
    requires RevisionsOk(s.revisions) && JobsOk(s.revisions, s.outbox)
    ensures var t := EnqueueAll(s, pid, ids);
            && AllGrown(s.revisions, t.revisions) && OthersKept(s.revisions, t.revisions, pid)
            && JobsOk(t.revisions, t.outbox) && OnlyPendingAdded(s.outbox, t.outbox)
            && MovedHaveJobs(s.revisions, t.revisions, t.outbox)
            && t.variants == s.variants && t.ids == s.ids && t.ok == s.ok
            && forall id | id in ids && id in s.variants :: !SearchKept(s.revisions, t.revisions, (pid, id))
  {
    if ids == [] {
    } else {
      var init, id := ids[..|ids| - 1], ids[|ids| - 1];
      EnqueueAllMovesAll(s, pid, init);
      var before := EnqueueAll(s, pid, init);
      if id in s.variants {
        EnqueueGrows(s.revisions, before, (pid, id), s.variants[id], true);
        EnqueueKeepsJobs(s.revisions, before, (pid, id), s.variants[id], true);
      }
      var t := EnqueueAll(s, pid, ids);
      forall other | other in ids && other in s.variants
        ensures !SearchKept(s.revisions, t.revisions, (pid, other))
      {
        if other != id {
          assert other in init;
          assert Lookup(t.revisions, (pid, other)) == Lookup(before.revisions, (pid, other));
        }
      }
    }
  }

  // ---------------------------------------------------------------- the rows of a feed

  ghost predicate RowsListed(st: Store) {
    && (forall pid | pid in st.products :: Listed(st.products[pid].variants, st.products[pid].ids))
    && (forall pid, vid | pid in st.products && vid in st.products[pid].variants :: (pid, vid) in st.revisions)
  }

  /** Every revision was reached with a job. */
  ghost predicate Covered(st: Store) {
    forall item | item in st.revisions :: HasJob(st.outbox, item, st.revisions[item].search)
  }

  /** What every store reached by patches satisfies: index <= search <= data above all. */
  ghost predicate StoreOk(st: Store) {
    RevisionsOk(st.revisions) && JobsOk(st.revisions, st.outbox) && Covered(st) && RowsListed(st)
  }

  ghost predicate PatchedFrom(st: Store, next: Store) {
    && AllGrown(st.revisions, next.revisions)
    && OnlyPendingAdded(st.outbox, next.outbox)
  }

  predicate Listed(variants: map<string, Variant>, ids: seq<string>) {
    forall vid | vid in variants :: vid in ids
  }

  lemma AppendedIdsListed(s: Progress, pid: string, base: Product, merged: Product, vs: seq<VariantPatch>)
    requires Listed(s.variants, s.ids)
    ensures var t := PatchVariants(s, pid, base, merged, vs); Listed(t.variants, t.ids)
  {
    if vs != [] {
      AppendedIdsListed(s, pid, base, merged, vs[..|vs| - 1]);
    }
  }

  ghost function Start(st: Store, p: ProductPatch): Progress {
    var merged := MergedProduct(Lookup(st.products, p.id), p);
    var base := Lookup(st.products, p.id).GetOr(merged);
    Progress(st.revisions, st.outbox, base.ids, base.variants, true)
  }

  lemma PatchRowsEvolves(st: Store, p: ProductPatch)
    requires StoreOk(st)
    ensures var s, s0 := PatchRows(st, p), Start(st, p);
            && AllGrown(st.revisions, s.revisions) && OthersKept(st.revisions, s.revisions, p.id)
            && JobsOk(s.revisions, s.outbox) && OnlyPendingAdded(st.outbox, s.outbox)
            && MovedHaveJobs(st.revisions, s.revisions, s.outbox)
            && Listed(s.variants, s.ids)
            && (s.ok ==> forall vid | vid in s.variants :: (p.id, vid) in s.revisions)
  {
    var merged := MergedProduct(Lookup(st.products, p.id), p);
    var base := Lookup(st.products, p.id).GetOr(merged);
    var s0 := Start(st, p);
    PatchVariantsEvolves(s0, p.id, base, merged, p.variants);
    AppendedIdsListed(s0, p.id, base, merged, p.variants);
    if p.variants == [] {
      EnqueueAllMovesAll(s0, p.id, base.ids);
      var t := EnqueueAll(s0, p.id, base.ids);
      assert PatchRows(st, p).variants == s0.variants && PatchRows(st, p).ids == s0.ids;
      forall vid | vid in t.variants
        ensures (p.id, vid) in t.revisions
      {
        assert Grown(Lookup(s0.revisions, (p.id, vid)), Lookup(t.revisions, (p.id, vid)));
      }
    }
  }

  lemma PatchKeepsCovered(st: Store, p: ProductPatch)
    requires StoreOk(st)
    ensures Covered(PatchProduct(st, p))
  {
    PatchRowsEvolves(st, p);
    var next := PatchProduct(st, p);
    var more := next.outbox[|st.outbox|..];
    assert next.outbox == st.outbox + more;
    forall item | item in next.revisions
      ensures HasJob(next.outbox, item, next.revisions[item].search)
    {
      if SearchKept(st.revisions, next.revisions, item) {
        HasJobGrows(st.outbox, more, item, next.revisions[item].search);
      }
    }
  }

  /** Any PATCH, accepted or refused halfway, keeps index <= search <= data and the job bookkeeping. */
  lemma PatchKeepsStoreOk(st: Store, p: ProductPatch)
    requires StoreOk(st)
    ensures StoreOk(PatchProduct(st, p)) && PatchedFrom(st, PatchProduct(st, p))
  {
    PatchRowsEvolves(st, p);
    PatchKeepsCovered(st, p);
    var next := PatchProduct(st, p);
    forall item | item in next.revisions
      ensures RevisionOk(next.revisions[item])
    {
      assert Grown(Lookup(st.revisions, item), Lookup(next.revisions, item));
    }
    forall pid, vid | pid in next.products && vid in next.products[pid].variants
      ensures (pid, vid) in next.revisions
    {
      assert Grown(Lookup(st.revisions, (pid, vid)), Lookup(next.revisions, (pid, vid)));
    }
  }

  // ---------------------------------------------------------------- what stays searchable

  /** The index fields recomputed from the current rows. */
  function CurrentFields(products: map<string, Product>, item: ItemId): Option<Fields> {
    if item.0 in products && item.1 in products[item.0].variants
    then Some(BuildFields(products[item.0], products[item.0].variants[item.1])) else None
  }

  predicate AllTitled(variants: map<string, Variant>) {
    forall vid | vid in variants :: TitleGiven(variants[vid])
  }

  ghost predicate RowsTitled(products: map<string, Product>) {
    forall pid | pid in products :: AllTitled(products[pid].variants)
  }

  predicate SchemaOk(p: ProductPatch) {
    forall i | 0 <= i < |p.variants| :: TitleGiven(p.variants[i].row)
  }

  predicate SameShown(p: Product, q: Product) {
    && p.title.GetOr("") == q.title.GetOr("")
    && Plain(p.description).GetOr("") == Plain(q.description).GetOr("")
  }

  /** A row that is not named does not show what the PATCH changes in the product, and a blank description of a
      named row does not appear or go. */
  predicate Safe(base: Product, merged: Product, vs: seq<VariantPatch>, vid: string, before: Variant, after: Variant) {
    if Named(vs, vid) then !DescriptionFlips(base, before, after) else !ShowsChange(base, merged, before)
  }

  /** Every row of the product is safe, or gets a new search revision anyway. */
  ghost predicate Clean(st: Store, p: ProductPatch) {
    var s := PatchRows(st, p);
    s.ok && p.id in st.products ==>
      var base := st.products[p.id];
      forall vid | vid in base.variants && vid in s.variants && SearchKept(st.revisions, s.revisions, (p.id, vid)) ::
        Safe(base, MergeProduct(base, p), p.variants, vid, base.variants[vid], s.variants[vid])
  }

  lemma PatchedRowsTitled(s: Progress, pid: string, base: Product, merged: Product, vs: seq<VariantPatch>)
    requires AllTitled(s.variants)
    requires forall i | 0 <= i < |vs| :: TitleGiven(vs[i].row)
    ensures AllTitled(PatchVariants(s, pid, base, merged, vs).variants)
  {
    if vs != [] {
      PatchedRowsTitled(s, pid, base, merged, vs[..|vs| - 1]);
    }
  }

  lemma LoopRowsTitled(st: Store, p: ProductPatch)
    requires StoreOk(st) && RowsTitled(st.products) && SchemaOk(p)
    ensures AllTitled(PatchRows(st, p).variants)
  {
    var merged := MergedProduct(Lookup(st.products, p.id), p);
    var base := Lookup(st.products, p.id).GetOr(merged);
    assert AllTitled(base.variants);
    PatchedRowsTitled(Start(st, p), p.id, base, merged, p.variants);
    EnqueueAllMovesAll(Start(st, p), p.id, base.ids);
  }

  lemma PatchKeepsRowsTitled(st: Store, p: ProductPatch)
    requires StoreOk(st) && RowsTitled(st.products) && SchemaOk(p)
    ensures RowsTitled(PatchProduct(st, p).products)
  {
    LoopRowsTitled(st, p);
  }

  /** The rows after the loop, relative to those before it. */
  lemma LoopKeepsRow(st: Store, p: ProductPatch, vid: string)
    requires StoreOk(st) && p.variants != [] && PatchRows(st, p).ok
    requires vid in PatchRows(st, p).variants && SearchKept(st.revisions, PatchRows(st, p).revisions, (p.id, vid))
    ensures p.id in st.products
    ensures RowKept(st.products[p.id].variants, PatchRows(st, p), vid, st.products[p.id],
                    MergeProduct(st.products[p.id], p), p.variants)
  {
    var merged := MergedProduct(Lookup(st.products, p.id), p);
    var base := Lookup(st.products, p.id).GetOr(merged);
    PatchVariantsEvolves(Start(st, p), p.id, base, merged, p.variants);
    assert RowKept(base.variants, PatchRows(st, p), vid, base, merged, p.variants);
  }

  lemma SafeRowIff(
    rows: map<string, Variant>, s: Progress, vid: string, base: Product, merged: Product, vs: seq<VariantPatch>)
    requires RowKept(rows, s, vid, base, merged, vs) && TitleGiven(rows[vid]) && TitleGiven(s.variants[vid])
    ensures BuildFields(merged, s.variants[vid]) == BuildFields(base, rows[vid])
            <==> Safe(base, merged, vs, vid, rows[vid], s.variants[vid])
  {
    if Named(vs, vid) {
      FingerprintDecidesFields(base, rows[vid], merged, s.variants[vid]);
    } else {
      FieldsChangeIffShown(base, merged, rows[vid]);
    }
  }

  /** A row of a patched product whose search revision the loop did not move. */
  lemma LoopKeepsFieldsIff(st: Store, p: ProductPatch, vid: string)
    requires StoreOk(st) && RowsTitled(st.products) && SchemaOk(p) && p.variants != []
    requires PatchRows(st, p).ok && SearchKept(st.revisions, PatchRows(st, p).revisions, (p.id, vid))
    requires vid in PatchRows(st, p).variants
    ensures p.id in st.products && vid in st.products[p.id].variants
    ensures var base, row := st.products[p.id], PatchRows(st, p).variants[vid];
            BuildFields(MergeProduct(base, p), row) == BuildFields(base, base.variants[vid])
            <==> Safe(base, MergeProduct(base, p), p.variants, vid, base.variants[vid], row)
  {
    LoopKeepsRow(st, p, vid);
    LoopRowsTitled(st, p);
    var base := st.products[p.id];
    assert AllTitled(base.variants);
    SafeRowIff(base.variants, PatchRows(st, p), vid, base, MergeProduct(base, p), p.variants);
  }

  lemma SameShownIsNotShown(p: Product, q: Product, v: Variant)
    requires SameShown(p, q)
    ensures !ShowsChange(p, q, v)
  {
    assert NonEmpty([p.title.GetOr(""), v.title.GetOr("")]) == NonEmpty([q.title.GetOr(""), v.title.GetOr("")]);
  }

  /** A PATCH that names no variant leaves a search revision alone only if it changes nothing that is shown. */
  lemma BarePatchIsSafe(st: Store, p: ProductPatch, vid: string)
    requires StoreOk(st)
    requires p.variants == [] && p.id in st.products && vid in st.products[p.id].variants
    requires SearchKept(st.revisions, PatchRows(st, p).revisions, (p.id, vid))
    ensures !ShowsChange(st.products[p.id], MergeProduct(st.products[p.id], p), st.products[p.id].variants[vid])
  {
    var base := st.products[p.id];
    EnqueueAllMovesAll(Start(st, p), p.id, base.ids);
    assert Listed(base.variants, base.ids);
    SameShownIsNotShown(base, MergeProduct(base, p), base.variants[vid]);
  }

  lemma BareKeepsFields(st: Store, p: ProductPatch, vid: string)
    requires StoreOk(st) && p.variants == []
    requires vid in PatchRows(st, p).variants && SearchKept(st.revisions, PatchRows(st, p).revisions, (p.id, vid))
    ensures p.id in st.products && vid in st.products[p.id].variants
    ensures var base, row := st.products[p.id], PatchRows(st, p).variants[vid];
            && row == base.variants[vid] && BuildFields(MergeProduct(base, p), row) == BuildFields(base, row)
            && Safe(base, MergeProduct(base, p), p.variants, vid, row, row)
  {
    EnqueueAllMovesAll(Start(st, p), p.id, Start(st, p).ids);
    BarePatchIsSafe(st, p, vid);
    FieldsChangeIffShown(st.products[p.id], MergeProduct(st.products[p.id], p), st.products[p.id].variants[vid]);
  }

  predicate HasRow(products: map<string, Product>, pid: string, vid: string) {
    pid in products && vid in products[pid].variants
  }

  /** An item whose search revision a PATCH leaves alone keeps its index fields if and only if its row is safe. */
  lemma KeptItemKeepsFieldsIff(st: Store, p: ProductPatch, vid: string)
    requires StoreOk(st) && RowsTitled(st.products) && SchemaOk(p) && PatchRows(st, p).ok
    requires SearchKept(st.revisions, PatchRows(st, p).revisions, (p.id, vid))
    ensures HasRow(st.products, p.id, vid) <==> vid in PatchRows(st, p).variants
    ensures CurrentFields(PatchProduct(st, p).products, (p.id, vid)) == CurrentFields(st.products, (p.id, vid)) <==>
              (HasRow(st.products, p.id, vid) ==>
                 var base := st.products[p.id];
                 Safe(base, MergeProduct(base, p), p.variants, vid, base.variants[vid], PatchRows(st, p).variants[vid]))
  {
    KeepsRowsOf(st, p);
    if vid in PatchRows(st, p).variants {
      if p.variants != [] {
        LoopKeepsFieldsIff(st, p, vid);
      } else {
        BareKeepsFields(st, p, vid);
      }
    }
  }

  /** The heart of the index: after a clean PATCH, an item whose search revision did not move has the index
      fields it had. */
  lemma PatchKeepsFields(st: Store, p: ProductPatch, item: ItemId)
    requires StoreOk(st) && RowsTitled(st.products) && SchemaOk(p) && Clean(st, p)
    requires SearchKept(st.revisions, PatchProduct(st, p).revisions, item)
    ensures CurrentFields(PatchProduct(st, p).products, item) == CurrentFields(st.products, item)
  {
    if PatchRows(st, p).ok && item.0 == p.id {
      KeptItemKeepsFieldsIff(st, p, item.1);
    }
  }

  /** And only after a clean one: otherwise some item goes stale under a search revision that did not move. */
  lemma CleanIff(st: Store, p: ProductPatch)
    requires StoreOk(st) && RowsTitled(st.products) && SchemaOk(p)
    ensures Clean(st, p) <==>
              forall item: ItemId | SearchKept(st.revisions, PatchProduct(st, p).revisions, item) ::
                CurrentFields(PatchProduct(st, p).products, item) == CurrentFields(st.products, item)
  {
    if Clean(st, p) {
      forall item: ItemId | SearchKept(st.revisions, PatchProduct(st, p).revisions, item)
        ensures CurrentFields(PatchProduct(st, p).products, item) == CurrentFields(st.products, item)
      {
        PatchKeepsFields(st, p, item);
      }
    } else {
      var base, s := st.products[p.id], PatchRows(st, p);
      var vid :| vid in base.variants && vid in s.variants && SearchKept(st.revisions, s.revisions, (p.id, vid))
                 && !Safe(base, MergeProduct(base, p), p.variants, vid, base.variants[vid], s.variants[vid]);
      KeptItemKeepsFieldsIff(st, p, vid);
    }
  }

  lemma KeepsRowsOf(st: Store, p: ProductPatch)
    requires StoreOk(st) && PatchRows(st, p).ok
    ensures forall vid | vid in Start(st, p).variants :: vid in PatchRows(st, p).variants
  {
    var merged := MergedProduct(Lookup(st.products, p.id), p);
    PatchVariantsEvolves(Start(st, p), p.id, Lookup(st.products, p.id).GetOr(merged), merged, p.variants);
    EnqueueAllMovesAll(Start(st, p), p.id, Start(st, p).ids);
  }

  lemma OtherVariantUntouched(s: Progress, pid: string, base: Product, merged: Product, v: VariantPatch, vid: string)
    requires vid != v.id
    ensures var t := PatchVariant(s, pid, base, merged, v);
            && Lookup(t.revisions, (pid, vid)) == Lookup(s.revisions, (pid, vid))
            && Lookup(t.variants, vid) == Lookup(s.variants, vid)
  {
  }

  lemma {:induction false} UnnamedUntouched(
    s: Progress, pid: string, base: Product, merged: Product, vs: seq<VariantPatch>, vid: string)
    requires !Named(vs, vid)
    ensures var t := PatchVariants(s, pid, base, merged, vs);
            && Lookup(t.revisions, (pid, vid)) == Lookup(s.revisions, (pid, vid))
            && Lookup(t.variants, vid) == Lookup(s.variants, vid)
  {
    if vs != [] {
      var init := vs[..|vs| - 1];
      assert vs == init + [vs[|vs| - 1]];
      NamedGrows(init, vs[|vs| - 1], vid);
      UnnamedUntouched(s, pid, base, merged, init, vid);
      OtherVariantUntouched(PatchVariants(s, pid, base, merged, init), pid, base, merged, vs[|vs| - 1], vid);
    }
  }

  /** An accepted PATCH that names only some variants leaves the search revision of every other one alone, and
      changes its index fields if and only if it shows the change of the product. */
  lemma UnnamedSiblingStaleIff(st: Store, p: ProductPatch, vid: string)
    requires p.id in st.products && vid in st.products[p.id].variants
    requires p.variants != [] && !Named(p.variants, vid) && PatchRows(st, p).ok
    ensures Lookup(PatchProduct(st, p).revisions, (p.id, vid)) == Lookup(st.revisions, (p.id, vid))
    ensures CurrentFields(PatchProduct(st, p).products, (p.id, vid)) != CurrentFields(st.products, (p.id, vid))
            <==> ShowsChange(st.products[p.id], MergeProduct(st.products[p.id], p), st.products[p.id].variants[vid])
  {
    var base := st.products[p.id];
    UnnamedUntouched(Start(st, p), p.id, base, MergeProduct(base, p), p.variants, vid);
    FieldsChangeIffShown(base, MergeProduct(base, p), base.variants[vid]);
  }
}
