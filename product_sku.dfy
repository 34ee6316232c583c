/** The SKU that the product screen derives while the form is edited:
    `generateSKU` and the part of `handleFormChange` that calls it. The random
    suffix `Math.floor(Math.random() * 1000)` is a parameter `0 <= suffix < 1000`. */
module ProductSku {
  import opened Wrappers
  import opened Decimal
  import opened JsValues
  import opened JsStrings
  import opened Api

  /** `categories.find((cat) => cat.id === categoryId)`: the first record whose
      id is strictly equal to `id`. `===` on the model's values is `==`. */
  function FindById(categories: seq<Resource>, id: Value): (r: Option<Resource>)
    ensures r.None? <==> forall i :: 0 <= i < |categories| ==> categories[i].id != id
    ensures r.Some? ==> r.value.id == id && exists i :: (0 <= i < |categories| && categories[i] == r.value
                          && forall j :: 0 <= j < i ==> categories[j].id != id)
  {
    if categories == [] then None
    else if categories[0].id == id then Some(categories[0])
    else
      var rest := FindById(categories[1..], id);
      if rest.Some? then
        var i :| 0 <= i < |categories| - 1 && categories[1..][i] == rest.value
          && forall j :: 0 <= j < i ==> categories[1..][j].id != id;
        assert categories[i + 1] == rest.value;
        rest
      else
        rest
  }

  /** `find(...)?.name?.slice(0, 3).toUpperCase() || "GEN"`. */
  function CategoryPrefix(categories: seq<Resource>, categoryId: Value): (p: string)
    ensures 1 <= |p| <= 3
  {
    match FindById(categories, categoryId)
    case None => "GEN"
    case Some(cat) =>
      if cat.topName.Some? && cat.topName.value != "" then Upper(Take(cat.topName.value, 3)) else "GEN"
  }

  /** `${categoryPrefix}-${name.slice(0, 3).toUpperCase()}-${suffix}`. */
  function GenerateSku(name: string, categoryId: Value, categories: seq<Resource>, suffix: nat): (sku: string)
    requires suffix < 1000
    ensures |sku| <= 11
  {
    NatTextLength(suffix, 3);
    CategoryPrefix(categories, categoryId) + "-" + Upper(Take(name, 3)) + "-" + NatText(suffix)
  }

  /** The category prefix is the upper-cased first three characters of the
      first category with a strictly equal id, and "GEN" when there is no such
      category or it has no (or an empty) top-level `name`. */
  lemma CategoryPrefixCases(categories: seq<Resource>, categoryId: Value)
    ensures (forall i :: 0 <= i < |categories| ==> categories[i].id != categoryId)
      ==> CategoryPrefix(categories, categoryId) == "GEN"
    ensures forall i :: (0 <= i < |categories| && categories[i].id == categoryId
                         && (forall j :: 0 <= j < i ==> categories[j].id != categoryId)) ==>
      CategoryPrefix(categories, categoryId) ==
        if categories[i].topName.Some? && categories[i].topName.value != ""
        then Upper(Take(categories[i].topName.value, 3)) else "GEN"
  {
  }

  /** The API's category records carry their name under `attributes` only, so
      the lookup of `cat.name` finds nothing and every SKU starts with "GEN". */
  lemma PrefixFromApiRecords(categories: seq<Resource>, categoryId: Value)
    requires forall i :: 0 <= i < |categories| ==> categories[i].topName.None?
    ensures CategoryPrefix(categories, categoryId) == "GEN"
  {
    var found := FindById(categories, categoryId);
    if found.Some? {
      var i :| 0 <= i < |categories| && categories[i] == found.value;
    }
  }

  /** A `<select>` hands over its value as text, so against numeric record ids
      the strict comparison never matches and the prefix is "GEN". */
  lemma PrefixFromSelectedText(categories: seq<Resource>, selected: string)
    requires forall i :: 0 <= i < |categories| ==> categories[i].id.Num?
    ensures CategoryPrefix(categories, Str(selected)) == "GEN"
  {
  }

  /** The last dash-separated piece of `a + "-" + b` is `b` when `b` itself has no dash. */
  lemma {:induction false} LastPiece(a: string, b: string)
    requires Free(b, '-')
    ensures var parts := Split(a + "-" + b, '-'); parts[|parts| - 1] == b
    decreases |a|
  {
    var s := a + "-" + b;
    var k := IndexOf(s, '-');
    assert s[|a|] == '-';
    if k == |a| {
      assert s[k + 1..] == b;
      SplitFree(b, '-');
    } else {
      assert k < |a|;
      assert s[k + 1..] == a[k + 1..] + "-" + b;
      LastPiece(a[k + 1..], b);
    }
  }

  lemma NatTextDashFree(n: nat)
    ensures Free(NatText(n), '-')
  {
    var t := NatText(n);
    forall i | 0 <= i < |t| ensures t[i] != '-' {
      assert IsDigit(t[i]);
    }
  }

  /** The random suffix can be read back from the generated SKU: it is the
      text after the last dash, at most three digits, and `parseInt` of it is
      the number drawn. */
  lemma SkuSuffixReadsBack(name: string, categoryId: Value, categories: seq<Resource>, suffix: nat)
    requires suffix < 1000
    ensures var parts := Split(GenerateSku(name, categoryId, categories, suffix), '-');
      var last := parts[|parts| - 1];
      last == NatText(suffix) && 1 <= |last| <= 3 && ParseInt(last) == Some(suffix)
  {
    var head := CategoryPrefix(categories, categoryId) + "-" + Upper(Take(name, 3));
    assert GenerateSku(name, categoryId, categories, suffix) == head + "-" + NatText(suffix);
    NatTextDashFree(suffix);
    LastPiece(head, NatText(suffix));
    NatTextLength(suffix, 3);
    IntTextRoundTrip(suffix);
  }

  /** When neither the category prefix nor the name prefix holds a dash, the
      SKU splits into exactly those two prefixes and the suffix. */
  lemma SkuPieces(name: string, categoryId: Value, categories: seq<Resource>, suffix: nat)
    requires suffix < 1000
    requires Free(CategoryPrefix(categories, categoryId), '-') && Free(Take(name, 3), '-')
    ensures Split(GenerateSku(name, categoryId, categories, suffix), '-') ==
      [CategoryPrefix(categories, categoryId), Upper(Take(name, 3)), NatText(suffix)]
  {
    var p := CategoryPrefix(categories, categoryId);
    var q := Upper(Take(name, 3));
    assert Free(q, '-') by {
      forall i | 0 <= i < |q| ensures q[i] != '-' {
        assert q[i] == UpperChar(Take(name, 3)[i]);
      }
    }
    NatTextDashFree(suffix);
    assert GenerateSku(name, categoryId, categories, suffix) == p + ['-'] + (q + ['-'] + NatText(suffix));
    SplitJoined(p, '-', q + ['-'] + NatText(suffix));
    SplitJoined(q, '-', NatText(suffix));
    SplitFree(NatText(suffix), '-');
  }

  /** `handleFormChange` of the product screen: the changed field takes the
      input's text, and a change of `name` or `category_id` regenerates `SKU`
      from the new name and category. The source reads `name.slice` here, so
      the name must be text for a category change. */
  function ChangedProductForm(form: map<string, Value>, field: string, value: string,
                              categories: seq<Resource>, suffix: nat): (r: map<string, Value>)
    requires suffix < 1000
    requires field == "category_id" ==> Prop(form, "name").Str?
    ensures r.Keys == form.Keys + {field} + (if field == "name" || field == "category_id" then {"SKU"} else {})
    ensures field != "SKU" ==> r[field] == Str(value)
    ensures forall k :: k in form && k != field && k != "SKU" ==> r[k] == form[k]
    ensures field != "name" && field != "category_id" ==> Prop(r, "SKU") == (if field == "SKU" then Str(value) else Prop(form, "SKU"))
    ensures field == "name" || field == "category_id" ==>
      Prop(r, "SKU") == Str(GenerateSku(Prop(r, "name").s, Prop(r, "category_id"), categories, suffix))
  {
    var changed := form[field := Str(value)];
    if field == "name" || field == "category_id" then
      changed["SKU" := Str(GenerateSku(Prop(changed, "name").s, Prop(changed, "category_id"), categories, suffix))]
    else
      changed
  }
}
