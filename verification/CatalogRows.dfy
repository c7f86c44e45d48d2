/** What a PATCH leaves in the rows of its feed (src/catalog/ingestion.ts:178-185 and 444-510): the patched values
    win, everything else stays, and new variants come last, in their order. */
module CatalogRows {
  import opened Outcomes
  import opened CatalogText
  import opened CatalogIngestion
  import opened CatalogRevisions

  /** A patched field has the value of the PATCH if it gives one, and its old value otherwise. */
  predicate Patched<T(==)>(was: Option<T>, given: Option<T>, now: Option<T>) {
    if given.Some? then now == given else now == was
  }

  /** Occurrence `k` is the last one of the variant that gives this field. */
  ghost predicate LastGiver<T>(vs: seq<VariantPatch>, vid: string, field: Variant -> Option<T>, k: nat) {
    && k < |vs| && vs[k].id == vid && field(vs[k].row).Some?
    && forall m | k < m < |vs| && vs[m].id == vid :: field(vs[m].row).None?
  }

  ghost predicate NobodyGives<T>(vs: seq<VariantPatch>, vid: string, field: Variant -> Option<T>) {
    forall k | 0 <= k < |vs| && vs[k].id == vid :: field(vs[k].row).None?
  }

  /** Among repeated ids the last given value wins. */
  ghost predicate LastGiven<T>(
    vs: seq<VariantPatch>, vid: string, field: Variant -> Option<T>, was: Option<T>, now: Option<T>)
  {
    && (forall k: nat | LastGiver(vs, vid, field, k) :: now == field(vs[k].row))
    && (NobodyGives(vs, vid, field) ==> now == was)
  }

  function TitleOf(v: Variant): Option<string> { v.title }
  function DescriptionOf(v: Variant): Option<Description> { v.description }
  function CategoriesOf(v: Variant): Option<seq<Category>> { v.categories }
  function OptionsOf(v: Variant): Option<seq<VariantOption>> { v.options }
  function AvailabilityOf(v: Variant): Option<Availability> { v.availability }
  function CommerceOf(v: Variant): Option<string> { v.commerce }

  /** Every field of the row is the last one given, or the old one. */
  ghost predicate RowPatched(vs: seq<VariantPatch>, vid: string, was: Variant, now: Variant) {
    && LastGiven(vs, vid, TitleOf, was.title, now.title)
    && LastGiven(vs, vid, DescriptionOf, was.description, now.description)
    && LastGiven(vs, vid, CategoriesOf, was.categories, now.categories)
    && LastGiven(vs, vid, OptionsOf, was.options, now.options)
    && LastGiven(vs, vid, AvailabilityOf, was.availability, now.availability)
    && LastGiven(vs, vid, CommerceOf, was.commerce, now.commerce)
  }

  /** A variant that was not there before counts as one without fields. */
  function RowBefore(rows: map<string, Variant>, vid: string): Variant {
    if vid in rows then rows[vid] else NO_VARIANT
  }

  ghost predicate RowsPatched(was: map<string, Variant>, now: map<string, Variant>, vs: seq<VariantPatch>) {
    && (forall vid :: vid in now <==> vid in was || Named(vs, vid))
    && (forall vid | vid in now :: RowPatched(vs, vid, RowBefore(was, vid), now[vid]))
  }

  // ---------------------------------------------------------------- one more occurrence

  lemma OneMoreGiven<T>(
    vs: seq<VariantPatch>, v: VariantPatch, vid: string, field: Variant -> Option<T>, was: Option<T>, mid: Option<T>, now: Option<T>)
    requires LastGiven(vs, vid, field, was, mid)
    requires if v.id == vid && field(v.row).Some? then now == field(v.row) else now == mid
    ensures LastGiven(vs + [v], vid, field, was, now)
  {
    var all := vs + [v];
    forall k: nat | LastGiver(all, vid, field, k)
      ensures now == field(all[k].row)
    {
      if k < |vs| {
        assert all[|vs|] == v;
        assert LastGiver(vs, vid, field, k) by {
          assert forall m | k < m < |vs| :: all[m] == vs[m];
        }
      }
    }
    if NobodyGives(all, vid, field) {
      assert all[|vs|] == v;
      assert NobodyGives(vs, vid, field) by {
        assert forall m | 0 <= m < |vs| :: all[m] == vs[m];
      }
    }
  }

  /** The row after one more occurrence, given all six fields. */
  predicate RowStep(v: VariantPatch, vid: string, mid: Variant, now: Variant) {
    if v.id != vid then now == mid
    else
      && Patched(mid.title, v.row.title, now.title) && Patched(mid.description, v.row.description, now.description)
      && Patched(mid.categories, v.row.categories, now.categories) && Patched(mid.options, v.row.options, now.options)
      && Patched(mid.availability, v.row.availability, now.availability)
      && Patched(mid.commerce, v.row.commerce, now.commerce)
  }

  lemma OneMoreRow(vs: seq<VariantPatch>, v: VariantPatch, vid: string, was: Variant, mid: Variant, now: Variant)
    requires RowPatched(vs, vid, was, mid) && RowStep(v, vid, mid, now)
    ensures RowPatched(vs + [v], vid, was, now)
  {
    OneMoreGiven(vs, v, vid, TitleOf, was.title, mid.title, now.title);
    OneMoreGiven(vs, v, vid, DescriptionOf, was.description, mid.description, now.description);
    OneMoreGiven(vs, v, vid, CategoriesOf, was.categories, mid.categories, now.categories);
    OneMoreGiven(vs, v, vid, OptionsOf, was.options, mid.options, now.options);
    OneMoreGiven(vs, v, vid, AvailabilityOf, was.availability, mid.availability, now.availability);
    OneMoreGiven(vs, v, vid, CommerceOf, was.commerce, mid.commerce, now.commerce);
  }

  lemma UnnamedRow(vs: seq<VariantPatch>, vid: string, was: Variant)
    requires !Named(vs, vid)
    ensures RowPatched(vs, vid, was, was)
  {
    UnnamedField(vs, vid, TitleOf, was.title);
    UnnamedField(vs, vid, DescriptionOf, was.description);
    UnnamedField(vs, vid, CategoriesOf, was.categories);
    UnnamedField(vs, vid, OptionsOf, was.options);
    UnnamedField(vs, vid, AvailabilityOf, was.availability);
    UnnamedField(vs, vid, CommerceOf, was.commerce);
  }

  lemma UnnamedField<T>(vs: seq<VariantPatch>, vid: string, field: Variant -> Option<T>, was: Option<T>)
    requires !Named(vs, vid)
    ensures LastGiven(vs, vid, field, was, was) && NobodyGives(vs, vid, field)
  {
    assert forall k | 0 <= k < |vs| :: vs[k].id != vid;
  }

  /** One occurrence merges its own row, and refuses exactly a new variant without a title. */
  lemma OneVariantStep(s: Progress, pid: string, base: Product, merged: Product, v: VariantPatch)
    ensures var t := PatchVariant(s, pid, base, merged, v);
            && (t.ok <==> s.ok && (v.id in s.variants || v.row.title.GetOr("") != ""))
            && (v.id in s.variants || v.row.title.GetOr("") != "" ==>
                  && t.variants.Keys == s.variants.Keys + {v.id}
                  && t.ids == (if v.id in s.variants then s.ids else s.ids + [v.id])
                  && forall vid | vid in t.variants :: RowStep(v, vid, RowBefore(s.variants, vid), t.variants[vid]))
  {
  }

  lemma OneVariantId(s: Progress, pid: string, base: Product, merged: Product, v: VariantPatch)
    requires PatchVariant(s, pid, base, merged, v).ok
    ensures PatchVariant(s, pid, base, merged, v).ids == if v.id in s.variants then s.ids else s.ids + [v.id]
  {
    OneVariantStep(s, pid, base, merged, v);
  }

  lemma OneVariantAccepted(s: Progress, pid: string, base: Product, merged: Product, v: VariantPatch)
    requires s.ok
    ensures PatchVariant(s, pid, base, merged, v).ok <==> v.id in s.variants || v.row.title.GetOr("") != ""
  {
    OneVariantStep(s, pid, base, merged, v);
  }

  lemma OneMoreVariant(
    was: map<string, Variant>, s: Progress, pid: string, base: Product, merged: Product, vs: seq<VariantPatch>, v: VariantPatch)
    requires s.ok && RowsPatched(was, s.variants, vs) && PatchVariant(s, pid, base, merged, v).ok
    ensures RowsPatched(was, PatchVariant(s, pid, base, merged, v).variants, vs + [v])
  {
    var t := PatchVariant(s, pid, base, merged, v);
    OneVariantStep(s, pid, base, merged, v);
    forall vid
      ensures vid in t.variants <==> vid in was || Named(vs + [v], vid)
      ensures vid in t.variants ==> RowPatched(vs + [v], vid, RowBefore(was, vid), t.variants[vid])
    {
      NamedGrows(vs, v, vid);
      if vid in t.variants {
        if vid !in s.variants {
          UnnamedRow(vs, vid, NO_VARIANT);
        }
        OneMoreRow(vs, v, vid, RowBefore(was, vid), RowBefore(s.variants, vid), t.variants[vid]);
      }
    }
  }

  lemma {:induction false} LoopPatchesRows(s: Progress, pid: string, base: Product, merged: Product, vs: seq<VariantPatch>)
    requires PatchVariants(s, pid, base, merged, vs).ok && s.ok
    ensures RowsPatched(s.variants, PatchVariants(s, pid, base, merged, vs).variants, vs)
  {
    if vs == [] {
      forall vid | vid in s.variants
        ensures RowPatched(vs, vid, s.variants[vid], s.variants[vid])
      {
        UnnamedRow(vs, vid, s.variants[vid]);
      }
    } else {
      var init, v := vs[..|vs| - 1], vs[|vs| - 1];
      LoopPatchesRows(s, pid, base, merged, init);
      OneMoreVariant(s.variants, PatchVariants(s, pid, base, merged, init), pid, base, merged, init, v);
      assert init + [v] == vs;
    }
  }

  lemma LoopRowKeys(s: Progress, pid: string, base: Product, merged: Product, vs: seq<VariantPatch>)
    requires PatchVariants(s, pid, base, merged, vs).ok && s.ok
    ensures forall vid :: vid in PatchVariants(s, pid, base, merged, vs).variants <==> vid in s.variants || Named(vs, vid)
  {
    LoopPatchesRows(s, pid, base, merged, vs);
  }

  // ---------------------------------------------------------------- the list of ids

  /** Occurrence `k` is the first one of a variant that was not there before. */
  ghost predicate Introduces(was: map<string, Variant>, vs: seq<VariantPatch>, k: nat) {
    k < |vs| && vs[k].id !in was && forall m | 0 <= m < k :: vs[m].id != vs[k].id
  }

  /** The ids of the new variants in the order in which they first occur. */
  function NewIds(was: set<string>, vs: seq<VariantPatch>): seq<string>
    decreases |vs|
  {
    if vs == [] then []
    else if vs[0].id in was then NewIds(was, vs[1..])
    else [vs[0].id] + NewIds(was + {vs[0].id}, vs[1..])
  }

  lemma {:induction false} NewIdsOfMore(was: set<string>, vs: seq<VariantPatch>, v: VariantPatch)
    ensures NewIds(was, vs + [v]) == NewIds(was, vs) + if v.id in was || Named(vs, v.id) then [] else [v.id]
    decreases |vs|
  {
    if vs == [] {
      assert ([] + [v])[1..] == [];
      assert NewIds(was, [v]) == if v.id in was then [] else [v.id];
      assert vs + [v] == [v];
    } else {
      var rest, more := vs[1..], was + {vs[0].id};
      assert (vs + [v])[1..] == rest + [v] && (vs + [v])[0] == vs[0];
      assert Named(vs, v.id) <==> vs[0].id == v.id || Named(rest, v.id) by {
        assert forall i | 0 <= i < |rest| :: rest[i] == vs[i + 1];
        if Named(vs, v.id) {
          var i :| 0 <= i < |vs| && vs[i].id == v.id;
          assert i > 0 ==> rest[i - 1].id == v.id;
        }
      }
      NewIdsOfMore(if vs[0].id in was then was else more, rest, v);
    }
  }

  lemma {:induction false} LoopAppendsIds(s: Progress, pid: string, base: Product, merged: Product, vs: seq<VariantPatch>)
    requires PatchVariants(s, pid, base, merged, vs).ok && s.ok
    ensures PatchVariants(s, pid, base, merged, vs).ids == s.ids + NewIds(s.variants.Keys, vs)
  {
    if vs != [] {
      var init, v := vs[..|vs| - 1], vs[|vs| - 1];
      var before := PatchVariants(s, pid, base, merged, init);
      LoopAppendsIds(s, pid, base, merged, init);
      LoopRowKeys(s, pid, base, merged, init);
      OneVariantId(before, pid, base, merged, v);
      NewIdsOfMore(s.variants.Keys, init, v);
      assert init + [v] == vs;
    }
  }

  /** Each new variant comes with a title where it first occurs. */
  ghost predicate NewTitled(was: map<string, Variant>, vs: seq<VariantPatch>) {
    forall k: nat | Introduces(was, vs, k) :: vs[k].row.title.GetOr("") != ""
  }

  lemma NewTitledOfMore(was: map<string, Variant>, vs: seq<VariantPatch>, v: VariantPatch)
    ensures NewTitled(was, vs + [v])
            <==> NewTitled(was, vs) && (v.id !in was && !Named(vs, v.id) ==> v.row.title.GetOr("") != "")
  {
    var all := vs + [v];
    forall k: nat | k < |vs|
      ensures Introduces(was, all, k) <==> Introduces(was, vs, k)
      ensures all[k] == vs[k]
    {
      assert forall m | 0 <= m <= k :: all[m] == vs[m];
    }
    assert Introduces(was, all, |vs|) <==> v.id !in was && !Named(vs, v.id) by {
      assert all[|vs|] == v && forall m | 0 <= m < |vs| :: all[m] == vs[m];
    }
    if !NewTitled(was, vs) {
      var k: nat :| Introduces(was, vs, k) && vs[k].row.title.GetOr("") == "";
      assert Introduces(was, all, k);
    }
  }

  /** The loop refuses exactly a PATCH with a new variant whose first occurrence has no title. */
  lemma {:induction false} LoopAcceptsIff(s: Progress, pid: string, base: Product, merged: Product, vs: seq<VariantPatch>)
    requires s.ok
    ensures PatchVariants(s, pid, base, merged, vs).ok <==> NewTitled(s.variants, vs)
  {
    if vs != [] {
      var init, v := vs[..|vs| - 1], vs[|vs| - 1];
      LoopAcceptsIff(s, pid, base, merged, init);
      NewTitledOfMore(s.variants, init, v);
      assert init + [v] == vs;
      var before := PatchVariants(s, pid, base, merged, init);
      if before.ok {
        LoopRowKeys(s, pid, base, merged, init);
        OneVariantAccepted(before, pid, base, merged, v);
      }
    }
  }

  // ---------------------------------------------------------------- the whole PATCH

  const NO_PRODUCT := Product(None, None, None, [], map[])

  function ProductBefore(st: Store, pid: string): Product {
    if pid in st.products then st.products[pid] else NO_PRODUCT
  }

  lemma RowsOfPatch(st: Store, p: ProductPatch)
    ensures var s, was := PatchRows(st, p), ProductBefore(st, p.id);
            && (s.ok <==> NewTitled(was.variants, p.variants))
            && (s.ok ==> RowsPatched(was.variants, s.variants, p.variants)
                         && s.ids == was.ids + NewIds(was.variants.Keys, p.variants))
  {
    var merged := MergedProduct(Lookup(st.products, p.id), p);
    var base := Lookup(st.products, p.id).GetOr(merged);
    var s0 := Start(st, p);
    LoopAcceptsIff(s0, p.id, base, merged, p.variants);
    if PatchVariants(s0, p.id, base, merged, p.variants).ok {
      LoopPatchesRows(s0, p.id, base, merged, p.variants);
      LoopAppendsIds(s0, p.id, base, merged, p.variants);
    }
    EnqueueAllKeepsRows(s0, p.id, base.ids);
  }

  /** A PATCH is accepted exactly when each new variant comes with a title, and then: title, description and media
      of its product are the given ones, or the old ones; every field of every variant is the last one given, or the
      old one; the variants are the old ones and the named ones; the list of ids gains the new ones in the order in
      which they first occur; and no other product changes. A refused PATCH changes no row. */
  lemma PatchedRows(st: Store, p: ProductPatch)
    ensures var was, next := ProductBefore(st, p.id), PatchProduct(st, p).products;
            if NewTitled(was.variants, p.variants) then
              && next.Keys == st.products.Keys + {p.id}
              && (forall pid | pid in st.products && pid != p.id :: next[pid] == st.products[pid])
              && var now := next[p.id];
              && Patched(was.title, p.title, now.title) && Patched(was.description, p.description, now.description)
              && Patched(was.media, p.media, now.media)
              && RowsPatched(was.variants, now.variants, p.variants)
              && now.ids == was.ids + NewIds(was.variants.Keys, p.variants)
            else next == st.products
  {
    RowsOfPatch(st, p);
  }

  /** So a variant the PATCH does not name stays as it is. */
  lemma UnnamedRowStays(st: Store, p: ProductPatch, vid: string)
    requires p.id in st.products && vid in st.products[p.id].variants && !Named(p.variants, vid)
    ensures HasRow(PatchProduct(st, p).products, p.id, vid)
    ensures PatchProduct(st, p).products[p.id].variants[vid] == st.products[p.id].variants[vid]
  {
    PatchedRows(st, p);
    if PatchRows(st, p).ok {
      RowsOfPatch(st, p);
      SameRow(p.variants, vid, st.products[p.id].variants[vid], PatchProduct(st, p).products[p.id].variants[vid]);
    }
  }

  lemma SameRow(vs: seq<VariantPatch>, vid: string, was: Variant, now: Variant)
    requires RowPatched(vs, vid, was, now) && !Named(vs, vid)
    ensures now == was
  {
    UnnamedField(vs, vid, TitleOf, was.title);
    UnnamedField(vs, vid, DescriptionOf, was.description);
    UnnamedField(vs, vid, CategoriesOf, was.categories);
    UnnamedField(vs, vid, OptionsOf, was.options);
    UnnamedField(vs, vid, AvailabilityOf, was.availability);
    UnnamedField(vs, vid, CommerceOf, was.commerce);
  }
}
