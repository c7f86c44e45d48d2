/** The text of catalog rows: what the search index holds (src/catalog/projection.ts), and the fingerprint that
    decides whether a change must be indexed (src/catalog/ingestion.ts). */
module CatalogText {
  import opened Outcomes
  import opened Text

  datatype Description = Description(plain: Option<string>)

  datatype Category = Category(value: string, taxonomy: Option<string>)

  datatype VariantOption = VariantOption(name: string, value: string)

  datatype Availability = Availability(available: Option<bool>, status: Option<string>)

  /** `commerce` stands for price, media and the other fields that are never indexed. */
  datatype Variant = Variant(
    title: Option<string>, description: Option<Description>, categories: Option<seq<Category>>,
    options: Option<seq<VariantOption>>, availability: Option<Availability>, commerce: Option<string>)

  /** The variants by id; `ids` lists them in the order they came. */
  datatype Product = Product(
    title: Option<string>, description: Option<Description>, media: Option<string>,
    ids: seq<string>, variants: map<string, Variant>)

  function Plain(d: Option<Description>): Option<string> {
    if d.Some? then d.value.plain else None
  }

  /** `a ?? b` for an absent left operand. */
  function Else(a: Option<string>, b: Option<string>): Option<string> {
    if a.Some? then a else b
  }

  // ---------------------------------------------------------------- what is indexed

  function Join(parts: seq<string>, sep: string): string {
    if parts == [] then "" else if |parts| == 1 then parts[0] else parts[0] + sep + Join(parts[1..], sep)
  }

  function NonEmpty(parts: seq<string>): seq<string> {
    if parts == [] then [] else (if parts[0] == "" then [] else [parts[0]]) + NonEmpty(parts[1..])
  }

  function Spaced(s: string): string {
    if s == "" then "" else [if s[0] == '-' then ' ' else s[0]] + Spaced(s[1..])
  }

  function CategoryTexts(cs: seq<Category>): seq<string> {
    if cs == [] then [] else [Trim(Spaced(cs[0].value))] + CategoryTexts(cs[1..])
  }

  function OptionTexts(os: seq<VariantOption>): seq<string> {
    if os == [] then [] else [Trim(os[0].name + " " + os[0].value)] + OptionTexts(os[1..])
  }

  function ItemInfo(v: Variant): string {
    Join(NonEmpty(CategoryTexts(v.categories.GetOr([]))) + NonEmpty(OptionTexts(v.options.GetOr([]))), ", ")
  }

  function SearchText(name: string, description: string, itemInfo: string): string {
    Join(NonEmpty([Trim(name), Trim(description), Trim(itemInfo)]), "\n")
  }

  datatype Fields = Fields(name: string, description: string, itemInfo: string, searchText: string)

  function Name(p: Product, v: Variant): string {
    Trim(Else(v.title, p.title).GetOr(""))
  }

  /** The titles as the search text has them. */
  function Heading(p: Product, v: Variant): string {
    var titles := Trim(Join(NonEmpty([p.title.GetOr(""), v.title.GetOr("")]), " "));
    if titles == "" then Name(p, v) else titles
  }

  function BuildFields(p: Product, v: Variant): Fields {
    var description := Trim(Else(Plain(v.description), Plain(p.description)).GetOr(""));
    Fields(Name(p, v), description, ItemInfo(v), SearchText(Heading(p, v), description, ItemInfo(v)))
  }

  // ---------------------------------------------------------------- what a product shows through a variant

  /** A variant without a description shows the one of the product, and every variant shows its title. */
  predicate ShowsChange(p: Product, q: Product, v: Variant) {
    || (Plain(v.description).None? && Trim(Plain(p.description).GetOr("")) != Trim(Plain(q.description).GetOr("")))
    || Heading(p, v) != Heading(q, v)
  }

  lemma HeadingIsTrimmed(p: Product, v: Variant)
    ensures Trim(Heading(p, v)) == Heading(p, v)
  {
    TrimIsIdempotent(Else(v.title, p.title).GetOr(""));
    TrimIsIdempotent(Join(NonEmpty([p.title.GetOr(""), v.title.GetOr("")]), " "));
  }

  /** What follows the heading in a search text. */
  function Tail(rest: seq<string>): string {
    if rest == [] then "" else "\n" + Join(rest, "\n")
  }

  lemma SearchTextParts(h: string, d: string, i: string)
    ensures var rest := NonEmpty([Trim(d), Trim(i)]);
            SearchText(h, d, i) == if Trim(h) == "" then Join(rest, "\n") else Trim(h) + Tail(rest)
  {
    var parts, rest := [Trim(h), Trim(d), Trim(i)], NonEmpty([Trim(d), Trim(i)]);
    assert parts[1..] == [Trim(d), Trim(i)];
    if Trim(h) != "" {
      assert NonEmpty(parts) == [Trim(h)] + rest;
      assert ([Trim(h)] + rest)[1..] == rest;
    } else {
      assert NonEmpty(parts) == rest;
    }
  }

  lemma HeadingsBeforeTail(g: string, h: string, tail: string)
    requires g + tail == h + tail
    ensures g == h
  {
    assert |g| == |h|;
    assert g == (g + tail)[..|g|] && h == (h + tail)[..|h|];
  }

  /** With the same description and item info, the search text changes exactly with the heading. */
  lemma SearchTextDecidesHeading(g: string, h: string, d: string, i: string)
    ensures SearchText(g, d, i) == SearchText(h, d, i) <==> Trim(g) == Trim(h)
  {
    SearchTextParts(g, d, i);
    SearchTextParts(h, d, i);
    var rest := NonEmpty([Trim(d), Trim(i)]);
    assert |Tail(rest)| >= |Join(rest, "\n")|;
    if SearchText(g, d, i) == SearchText(h, d, i) && Trim(g) != "" && Trim(h) != "" {
      HeadingsBeforeTail(Trim(g), Trim(h), Tail(rest));
    }
  }

  lemma UntitledShowsTheProduct(p: Product, v: Variant)
    requires v.title.None?
    ensures Heading(p, v) == Name(p, v)
  {
    var t := p.title.GetOr("");
    assert [t, ""][1..] == [""] && [""][1..] == [];
    assert NonEmpty([t, ""]) == if t == "" then [] else [t];
    assert Trim("") == "";
  }

  /** A change of the product alone changes the index fields of a row exactly when the row shows the change. */
  lemma FieldsChangeIffShown(p: Product, q: Product, v: Variant)
    ensures BuildFields(p, v) != BuildFields(q, v) <==> ShowsChange(p, q, v)
  {
    HeadingIsTrimmed(p, v);
    HeadingIsTrimmed(q, v);
    SearchTextDecidesHeading(Heading(p, v), Heading(q, v), BuildFields(p, v).description, ItemInfo(v));
    if v.title.None? {
      UntitledShowsTheProduct(p, v);
      UntitledShowsTheProduct(q, v);
    }
  }

  // ---------------------------------------------------------------- what is compared

  datatype ProductText = ProductText(title: string, description: string, media: string)

  datatype VariantText = VariantText(
    title: string, description: string, categories: seq<Category>, options: seq<VariantOption>)

  /** JSON.stringify of the fingerprint object, as the object itself. Absent text and empty text are alike. */
  datatype Fingerprint = Fingerprint(product: ProductText, variant: VariantText)

  function ProductTextOf(p: Product): ProductText {
    ProductText(p.title.GetOr(""), Plain(p.description).GetOr(""), p.media.GetOr("[]"))
  }

  function VariantTextOf(v: Variant): VariantText {
    VariantText(v.title.GetOr(""), Plain(v.description).GetOr(""), v.categories.GetOr([]), v.options.GetOr([]))
  }

  function SearchableFingerprint(p: Product, v: Variant): Fingerprint {
    Fingerprint(ProductTextOf(p), VariantTextOf(v))
  }

  predicate IsTombstone(v: Variant) {
    v.availability.Some? &&
    (v.availability.value.status == Some("discontinued") || v.availability.value.available == Some(false))
  }

  /** The request schema rejects an empty variant title. */
  predicate TitleGiven(v: Variant) {
    v.title != Some("")
  }

  predicate BlankDescription(v: Variant) {
    Plain(v.description) == Some("")
  }

  /** A blank description hides the one of the product, which an absent description shows. */
  predicate DescriptionFlips(p: Product, v: Variant, w: Variant) {
    && (BlankDescription(v) != BlankDescription(w))
    && Trim(Plain(p.description).GetOr("")) != ""
  }

  /** The fingerprint is fine enough for the index, except in one case: rows with equal fingerprints have
      equal index fields exactly when no blank description flips between hiding and showing the product's. */
  lemma FingerprintDecidesFields(p: Product, v: Variant, q: Product, w: Variant)
    requires TitleGiven(v) && TitleGiven(w)
    requires SearchableFingerprint(p, v) == SearchableFingerprint(q, w)
    ensures BuildFields(p, v) == BuildFields(q, w) <==> !DescriptionFlips(p, v, w)
  {
    assert v.title == w.title;
    assert ItemInfo(v) == ItemInfo(w);
    assert NonEmpty([p.title.GetOr(""), v.title.GetOr("")]) == NonEmpty([q.title.GetOr(""), w.title.GetOr("")]);
    if BlankDescription(v) == BlankDescription(w) {
      assert Plain(v.description) == Plain(w.description);
    } else {
      assert Plain(v.description).GetOr("") == "" && Plain(w.description).GetOr("") == "";
      assert Trim("") == "";
    }
  }
}
