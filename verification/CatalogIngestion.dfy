/** patchProducts of src/catalog/ingestion.ts: merging a PATCH into the rows of one feed, bumping revisions and
    filling the outbox. A PATCH of several products is this operation once for each product. */
module CatalogIngestion {
  import opened Outcomes
  import opened CatalogText

  /** Product and variant id inside the feed. */
  type ItemId = (string, string)

  datatype Revision = Revision(data: nat, search: nat, index: nat, tombstoned: bool)

  datatype Operation = Upsert | Delete

  datatype JobStatus = Pending | Leased | Done | DeadLetter

  datatype Job = Job(
    item: ItemId, searchRevision: nat, operation: Operation, status: JobStatus, attempts: nat, leaseUntil: Option<int>)

  type Revisions = map<ItemId, Revision>

  datatype VariantPatch = VariantPatch(id: string, row: Variant)

  /** A patched product: absent fields are not touched, and variants may repeat an id. */
  datatype ProductPatch = ProductPatch(
    id: string, title: Option<string>, description: Option<Description>, media: Option<string>,
    variants: seq<VariantPatch>)

  datatype Document = Document(fields: Fields, embedding: seq<real>, indexRevision: nat)

  datatype Store = Store(products: map<string, Product>, revisions: Revisions, outbox: seq<Job>)

  function Lookup<K, V>(m: map<K, V>, k: K): Option<V> {
    if k in m then Some(m[k]) else None
  }

  function Over<T>(current: Option<T>, patch: Option<T>): Option<T> {
    if patch.Some? then patch else current
  }

  function MergeProduct(current: Product, p: ProductPatch): Product {
    current.(title := Over(current.title, p.title), description := Over(current.description, p.description),
             media := Over(current.media, p.media))
  }

  function MergeVariant(current: Variant, v: Variant): Variant {
    Variant(Over(current.title, v.title), Over(current.description, v.description),
            Over(current.categories, v.categories), Over(current.options, v.options),
            Over(current.availability, v.availability), Over(current.commerce, v.commerce))
  }

  function Bumped(r: Revision, changed: bool, tombstone: bool): Revision {
    Revision(r.data + 1, if changed then r.data + 1 else r.search, r.index, tombstone)
  }

  /** The rows being built for one product. `ok` turns false when a new variant has no title. */
  datatype Progress = Progress(
    revisions: Revisions, outbox: seq<Job>, ids: seq<string>, variants: map<string, Variant>, ok: bool)

  function Enqueue(s: Progress, item: ItemId, v: Variant, changed: bool): Progress {
    var next := Bumped(Lookup(s.revisions, item).GetOr(Revision(0, 0, 0, false)), changed, IsTombstone(v));
    s.(revisions := s.revisions[item := next],
       outbox := if changed || next.tombstoned
                 then s.outbox + [Job(item, next.search, if next.tombstoned then Delete else Upsert, Pending, 0, None)]
                 else s.outbox)
  }

  function PatchVariant(s: Progress, pid: string, base: Product, merged: Product, v: VariantPatch): Progress {
    if v.id !in s.variants then
      if v.row.title.GetOr("") == "" then s.(ok := false)
      else Enqueue(s.(ids := s.ids + [v.id], variants := s.variants[v.id := v.row]), (pid, v.id), v.row, true)
    else
      var previous, row := s.variants[v.id], MergeVariant(s.variants[v.id], v.row);
      Enqueue(s.(variants := s.variants[v.id := row]), (pid, v.id), row,
              SearchableFingerprint(base, previous) != SearchableFingerprint(merged, row))
  }

  /** The loop over the patched variants: it stops at the first one it refuses. */
  function PatchVariants(s: Progress, pid: string, base: Product, merged: Product, vs: seq<VariantPatch>): Progress {
    if vs == [] then s
    else
      var before := PatchVariants(s, pid, base, merged, vs[..|vs| - 1]);
      if before.ok then PatchVariant(before, pid, base, merged, vs[|vs| - 1]) else before
  }

  function EnqueueAll(s: Progress, pid: string, ids: seq<string>): Progress {
    if ids == [] then s
    else
      var before, id := EnqueueAll(s, pid, ids[..|ids| - 1]), ids[|ids| - 1];
      if id in s.variants then Enqueue(before, (pid, id), s.variants[id], true) else before
  }

  const NO_VARIANT := Variant(None, None, None, None, None, None)

  function FirstVariant(p: Product): Variant {
    if |p.ids| > 0 && p.ids[0] in p.variants then p.variants[p.ids[0]] else NO_VARIANT
  }

  function MergedProduct(existing: Option<Product>, p: ProductPatch): Product {
    if existing.Some? then MergeProduct(existing.value, p) else Product(p.title, p.description, p.media, [], map[])
  }

  function PatchRows(st: Store, p: ProductPatch): Progress {
    var existing := Lookup(st.products, p.id);
    var merged := MergedProduct(existing, p);
    var base := existing.GetOr(merged);
    var s := PatchVariants(Progress(st.revisions, st.outbox, base.ids, base.variants, true), p.id, base, merged, p.variants);
    if p.variants == [] && existing.Some?
       && SearchableFingerprint(base, FirstVariant(base)) != SearchableFingerprint(merged, FirstVariant(base))
    then EnqueueAll(s, p.id, base.ids) else s
  }

  /** A refused PATCH leaves the row of the product alone, but not the revisions and jobs it had already added. */
  function PatchProduct(st: Store, p: ProductPatch): Store {
    var s := PatchRows(st, p);
    var merged := MergedProduct(Lookup(st.products, p.id), p);
    Store(if s.ok then st.products[p.id := merged.(ids := s.ids, variants := s.variants)] else st.products,
          s.revisions, s.outbox)
  }

  class MemoryAcpCatalogStore {
    var products: map<string, Product>
    var revisions: Revisions
    var outbox: seq<Job>
    var documents: map<ItemId, Document>

    function State(): Store
      reads this
    {
      Store(products, revisions, outbox)
    }

    constructor ()
      ensures State() == Store(map[], map[], []) && documents == map[]
    {
      products, revisions, outbox, documents := map[], map[], [], map[];
    }

    method Push(item: ItemId, v: Variant, changed: bool, ghost s: Progress)
      requires s.revisions == revisions && s.outbox == outbox
      modifies this`revisions, this`outbox
      ensures revisions == Enqueue(s, item, v, changed).revisions
      ensures outbox == Enqueue(s, item, v, changed).outbox
    {
      var prev := if item in revisions then revisions[item] else Revision(0, 0, 0, false);
      var next := Revision(prev.data + 1, if changed then prev.data + 1 else prev.search, prev.index, IsTombstone(v));
      revisions := revisions[item := next];
      if changed || next.tombstoned {
        outbox := outbox + [Job(item, next.search, if next.tombstoned then Delete else Upsert, Pending, 0, None)];
      }
    }

    /** The loop over the patched variants. */
    method PatchAll(s: Progress, pid: string, base: Product, merged: Product, vs: seq<VariantPatch>)
      returns (t: Progress)
      requires s.ok && s.revisions == revisions && s.outbox == outbox
      modifies this`revisions, this`outbox
      ensures t == PatchVariants(s, pid, base, merged, vs)
      ensures revisions == t.revisions && outbox == t.outbox
    {
      var ids, variants, ok := s.ids, s.variants, true;
      var i := 0;
      while i < |vs| && ok
        invariant 0 <= i <= |vs|
        invariant Progress(revisions, outbox, ids, variants, ok) == PatchVariants(s, pid, base, merged, vs[..i])
      {
        var v := vs[i];
        assert vs[..i + 1][..i] == vs[..i];
        if v.id !in variants && v.row.title.GetOr("") == "" {
          ok := false;
        } else {
          var row := if v.id in variants then MergeVariant(variants[v.id], v.row) else v.row;
          var changed := v.id !in variants
                         || SearchableFingerprint(base, variants[v.id]) != SearchableFingerprint(merged, row);
          ids := if v.id in variants then ids else ids + [v.id];
          variants := variants[v.id := row];
          Push((pid, v.id), row, changed, Progress(revisions, outbox, ids, variants, true));
        }
        i := i + 1;
      }
      t := Progress(revisions, outbox, ids, variants, ok);
      if ok {
        assert vs[..i] == vs;
      } else {
        StopsWhenRefused(s, pid, base, merged, vs, i);
      }
    }

    /** The loop over all variants of a changed product. */
    method PushAll(s: Progress, pid: string)
      requires s.revisions == revisions && s.outbox == outbox
      modifies this`revisions, this`outbox
      ensures revisions == EnqueueAll(s, pid, s.ids).revisions && outbox == EnqueueAll(s, pid, s.ids).outbox
    {
      var k := 0;
      while k < |s.ids|
        invariant 0 <= k <= |s.ids|
        invariant s.(revisions := revisions, outbox := outbox) == EnqueueAll(s, pid, s.ids[..k])
      {
        assert s.ids[..k + 1][..k] == s.ids[..k];
        if s.ids[k] in s.variants {
          Push((pid, s.ids[k]), s.variants[s.ids[k]], true, s.(revisions := revisions, outbox := outbox));
        }
        k := k + 1;
      }
      assert s.ids[..k] == s.ids;
    }

    method PatchOne(p: ProductPatch) returns (ok: bool)
      modifies this`products, this`revisions, this`outbox
      ensures State() == PatchProduct(old(State()), p)
      ensures ok == PatchRows(old(State()), p).ok
    {
      var existing := if p.id in products then Some(products[p.id]) else None;
      var merged := if existing.Some? then MergeProduct(existing.value, p)
                    else Product(p.title, p.description, p.media, [], map[]);
      var base := existing.GetOr(merged);
      var s := PatchAll(Progress(revisions, outbox, base.ids, base.variants, true), p.id, base, merged, p.variants);
      if !s.ok {
        return false;
      }
      if p.variants == [] && existing.Some?
         && SearchableFingerprint(base, FirstVariant(base)) != SearchableFingerprint(merged, FirstVariant(base))
      {
        PushAll(s, p.id);
        EnqueueAllKeepsRows(s, p.id, s.ids);
      }
      products := products[p.id := merged.(ids := s.ids, variants := s.variants)];
      return true;
    }
  }

  lemma {:induction false} EnqueueAllKeepsRows(s: Progress, pid: string, ids: seq<string>)
    ensures var t := EnqueueAll(s, pid, ids); t.ids == s.ids && t.variants == s.variants && t.ok == s.ok
  {
    if ids != [] {
      EnqueueAllKeepsRows(s, pid, ids[..|ids| - 1]);
    }
  }

  lemma StopsWhenRefused(s: Progress, pid: string, base: Product, merged: Product, vs: seq<VariantPatch>, i: nat)
    requires i <= |vs|
    requires !PatchVariants(s, pid, base, merged, vs[..i]).ok
    ensures PatchVariants(s, pid, base, merged, vs) == PatchVariants(s, pid, base, merged, vs[..i])
    decreases |vs|
  {
    if i == |vs| {
      assert vs[..i] == vs;
    } else {
      assert vs[..|vs| - 1][..i] == vs[..i];
      StopsWhenRefused(s, pid, base, merged, vs[..|vs| - 1], i);
    }
  }
}
