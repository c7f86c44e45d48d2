/** What the index fields of a row say (src/catalog/projection.ts:40-92), part by part: blank parts leave no trace, and
    the rest stand in order. */
module CatalogFields {
  import opened Outcomes
  import opened Text
  import opened CatalogText

  /** Two texts with a separator between them, if neither is empty. */
  function Beside(a: string, sep: string, b: string): string {
    if a == "" then b else if b == "" then a else a + sep + b
  }

  /** All texts in order, with the separator between those that are not empty. */
  function InOrder(parts: seq<string>, sep: string): string {
    if parts == [] then "" else Beside(parts[0], sep, InOrder(parts[1..], sep))
  }

  lemma {:induction false} JoinIsInOrder(parts: seq<string>, sep: string)
    ensures Join(NonEmpty(parts), sep) == InOrder(parts, sep)
    ensures InOrder(parts, sep) == "" <==> NonEmpty(parts) == []
    ensures forall i | 0 <= i < |NonEmpty(parts)| :: NonEmpty(parts)[i] != ""
  {
    if parts != [] {
      JoinIsInOrder(parts[1..], sep);
      if parts[0] != "" {
        assert NonEmpty(parts) == [parts[0]] + NonEmpty(parts[1..]);
        assert NonEmpty(parts)[1..] == NonEmpty(parts[1..]);
      } else {
        assert NonEmpty(parts) == NonEmpty(parts[1..]);
      }
    }
  }

  lemma {:induction false} NonEmptyOfBoth(a: seq<string>, b: seq<string>)
    ensures NonEmpty(a + b) == NonEmpty(a) + NonEmpty(b)
  {
    if a != [] {
      NonEmptyOfBoth(a[1..], b);
      assert (a + b)[1..] == a[1..] + b;
    } else {
      assert a + b == b;
    }
  }

  // ---------------------------------------------------------------- categories and options

  /** A category with blanks for hyphens, and an option with its value, both trimmed. */
  ghost predicate ShownAs(cs: seq<Category>, os: seq<VariantOption>, parts: seq<string>) {
    && |parts| == |cs| + |os|
    && (forall i | 0 <= i < |cs| :: parts[i] == Trim(Dashless(cs[i].value)))
    && (forall i | 0 <= i < |os| :: parts[|cs| + i] == Trim(os[i].name + " " + os[i].value))
  }

  function Dashless(s: string): string {
    seq(|s|, i requires 0 <= i < |s| => if s[i] == '-' then ' ' else s[i])
  }

  lemma {:induction false} SpacedIsDashless(s: string)
    ensures Spaced(s) == Dashless(s)
  {
    if s != "" {
      SpacedIsDashless(s[1..]);
    }
  }

  lemma {:induction false} CategoriesShown(cs: seq<Category>)
    ensures |CategoryTexts(cs)| == |cs|
    ensures forall i | 0 <= i < |cs| :: CategoryTexts(cs)[i] == Trim(Dashless(cs[i].value))
  {
    if cs != [] {
      CategoriesShown(cs[1..]);
      SpacedIsDashless(cs[0].value);
    }
  }

  lemma {:induction false} OptionsShown(os: seq<VariantOption>)
    ensures |OptionTexts(os)| == |os|
    ensures forall i | 0 <= i < |os| :: OptionTexts(os)[i] == Trim(os[i].name + " " + os[i].value)
  {
    if os != [] {
      OptionsShown(os[1..]);
    }
  }

  lemma PartsShown(cs: seq<Category>, os: seq<VariantOption>)
    ensures ShownAs(cs, os, CategoryTexts(cs) + OptionTexts(os))
  {
    var parts := CategoryTexts(cs) + OptionTexts(os);
    CategoriesShown(cs);
    OptionsShown(os);
    forall i | 0 <= i < |cs|
      ensures parts[i] == Trim(Dashless(cs[i].value))
    {
      assert parts[i] == CategoryTexts(cs)[i];
    }
    forall i | 0 <= i < |os|
      ensures parts[|cs| + i] == Trim(os[i].name + " " + os[i].value)
    {
      assert parts[|cs| + i] == OptionTexts(os)[i];
    }
  }

  /** The item info lists the categories and then the options. */
  lemma ItemInfoSays(v: Variant)
    ensures exists parts :: ShownAs(v.categories.GetOr([]), v.options.GetOr([]), parts) && ItemInfo(v) == InOrder(parts, ", ")
  {
    var a, b := CategoryTexts(v.categories.GetOr([])), OptionTexts(v.options.GetOr([]));
    PartsShown(v.categories.GetOr([]), v.options.GetOr([]));
    NonEmptyOfBoth(a, b);
    JoinIsInOrder(a + b, ", ");
  }

  // ---------------------------------------------------------------- the fields

  lemma PairInOrder(a: string, b: string, sep: string)
    ensures Join(NonEmpty([a, b]), sep) == Beside(a, sep, b)
  {
    JoinIsInOrder([a, b], sep);
    assert [a, b][1..] == [b] && [b][1..] == [];
    assert InOrder([b], sep) == b;
  }

  lemma TripleInOrder(a: string, b: string, c: string, sep: string)
    ensures Join(NonEmpty([a, b, c]), sep) == Beside(a, sep, Beside(b, sep, c))
  {
    JoinIsInOrder([a, b, c], sep);
    assert [a, b, c][1..] == [b, c] && [b, c][1..] == [c] && [c][1..] == [];
    assert InOrder([c], sep) == c && InOrder([b, c], sep) == Beside(b, sep, c);
  }

  lemma {:induction false} BlankBeside(a: string, b: string)
    requires Trim(Beside(a, " ", b)) == ""
    ensures Trim(a) == "" && Trim(b) == ""
  {
    AllSpacesIff(Beside(a, " ", b));
    AllSpacesIff(a);
    AllSpacesIff(b);
    if a != "" && b != "" {
      var s := a + " " + b;
      assert forall i | 0 <= i < |a| :: a[i] == s[i];
      assert forall i | 0 <= i < |b| :: b[i] == s[|a| + 1 + i];
    }
  }

  predicate AllSpaces(s: string) {
    forall i | 0 <= i < |s| :: IsSpace(s[i])
  }

  lemma {:induction false} AllSpacesIff(s: string)
    ensures Trim(s) == "" <==> AllSpaces(s)
  {
    if s != "" {
      if IsSpace(s[0]) {
        AllSpacesIff(s[1..]);
        assert forall i | 0 <= i < |s| - 1 :: s[1..][i] == s[i + 1];
        assert s == [s[0]] + s[1..];
      } else {
        NotBlank(s);
      }
    }
  }

  /** The name is the title of the variant, or else of the product; the description likewise, and a blank one of the
      variant hides the product's; the search text has both titles on its first line, then the description, then the item
      info, and no line for what is blank. */
  lemma FieldsSay(p: Product, v: Variant)
    ensures var f := BuildFields(p, v);
            && f.name == Trim(if v.title.Some? then v.title.value else if p.title.Some? then p.title.value else "")
            && f.description == Trim(if Plain(v.description).Some? then Plain(v.description).value
                                     else if Plain(p.description).Some? then Plain(p.description).value else "")
            && f.itemInfo == ItemInfo(v)
            && f.searchText == Beside(Trim(Beside(p.title.GetOr(""), " ", v.title.GetOr(""))), "\n",
                                      Beside(f.description, "\n", Trim(f.itemInfo)))
  {
    var a, b := p.title.GetOr(""), v.title.GetOr("");
    var f := BuildFields(p, v);
    PairInOrder(a, b, " ");
    if Trim(Beside(a, " ", b)) == "" {
      BlankBeside(a, b);
    }
    assert Heading(p, v) == Trim(Beside(a, " ", b));
    TrimIsIdempotent(Beside(a, " ", b));
    TrimIsIdempotent(Else(Plain(v.description), Plain(p.description)).GetOr(""));
    TripleInOrder(Heading(p, v), f.description, Trim(f.itemInfo), "\n");
  }
}
