/** The purchase form of pages/purchase.js as a value: its top-level fields
    (`supplier_id`, `purchase_date`, ...) and its line items, each row a
    `{product_id, quantity, unit_price}` object. The screen's handlers replace
    this value; the functions here say what each replacement is. */
module PurchaseItems {
  import opened Wrappers
  import opened Decimal
  import opened JsValues
  import opened JsStrings
  import opened Api

  type Row = map<string, Value>

  /** `{product_id: "", quantity: "", unit_price: ""}`. */
  const BlankRow: Row := map["product_id" := Str(""), "quantity" := Str(""), "unit_price" := Str("")]

  /** `top` holds every key of `formPurchase` except `items`. */
  datatype PurchaseForm = PurchaseForm(top: map<string, Value>, items: seq<Row>)

  predicate NoItemsKey(form: PurchaseForm) {
    "items" !in form.top
  }

  /** The form Add starts from: no supplier, the given date, one blank row. */
  function InitialForm(today: string): (f: PurchaseForm)
    ensures f.top.Keys == {"supplier_id", "purchase_date"} && NoItemsKey(f)
    ensures f.top["supplier_id"] == Str("") && f.top["purchase_date"] == Str(today)
    ensures f.items == [BlankRow]
  {
    PurchaseForm(map["supplier_id" := Str(""), "purchase_date" := Str(today)], [BlankRow])
  }

  /** `item.quantity * item.unit_price`, both read through `Number`. */
  function Amount(row: Row): Option<real> {
    Times(ToNumber(Prop(row, "quantity")), ToNumber(Prop(row, "unit_price")))
  }

  lemma BlankRowAmount()
    ensures Amount(BlankRow) == Some(0.0)
  {
  }

  /** `items.reduce((sum, item) => sum + amount(item), acc)`, left to right. */
  function TotalFrom(acc: Option<real>, items: seq<Row>): Option<real>
    decreases |items|
  {
    if items == [] then acc else TotalFrom(Plus(acc, Amount(items[0])), items[1..])
  }

  /** The total `calculateTotal` shows and `handleSubmit` sends. */
  function Total(items: seq<Row>): Option<real> {
    TotalFrom(Some(0.0), items)
  }

  /** The sum of the rows' amounts, as a reference definition. */
  function Sum(items: seq<Row>): Option<real> {
    if items == [] then Some(0.0) else Plus(Amount(items[0]), Sum(items[1..]))
  }

  lemma {:induction false} TotalFromIsSum(acc: Option<real>, items: seq<Row>)
    ensures TotalFrom(acc, items) == Plus(acc, Sum(items))
    decreases |items|
  {
    if items != [] {
      TotalFromIsSum(Plus(acc, Amount(items[0])), items[1..]);
      PlusAssociative(acc, Amount(items[0]), Sum(items[1..]));
    }
  }

  /** The left-to-right reduce is the sum of quantity times unit price over
      the rows; it is 0 for no rows. */
  lemma TotalIsSum(items: seq<Row>)
    ensures Total(items) == Sum(items)
    ensures items == [] ==> Total(items) == Some(0.0)
  {
    TotalFromIsSum(Some(0.0), items);
  }

  /** The total is a number (not NaN) exactly when every row's amount is. */
  lemma {:induction false} SumDefined(items: seq<Row>)
    ensures Sum(items).Some? <==> forall i :: 0 <= i < |items| ==> Amount(items[i]).Some?
  {
    if items != [] {
      SumDefined(items[1..]);
      assert forall i :: 1 <= i < |items| ==> items[i] == items[1..][i - 1];
    }
  }

  lemma {:induction false} SumAppend(a: seq<Row>, b: seq<Row>)
    ensures Sum(a + b) == Plus(Sum(a), Sum(b))
    decreases |a|
  {
    if a == [] {
      assert a + b == b;
    } else {
      assert (a + b)[1..] == a[1..] + b;
      SumAppend(a[1..], b);
      PlusAssociative(Amount(a[0]), Sum(a[1..]), Sum(b));
    }
  }

  /** `handleAddItem`: one blank row appended at the end. */
  function WithBlankRow(form: PurchaseForm): (r: PurchaseForm)
    ensures r.top == form.top
    ensures |r.items| == |form.items| + 1 && r.items[..|form.items|] == form.items
    ensures r.items[|form.items|] == BlankRow
  {
    form.(items := form.items + [BlankRow])
  }

  /** A blank row adds nothing to the total. */
  lemma AddItemKeepsTotal(form: PurchaseForm)
    ensures Total(WithBlankRow(form).items) == Total(form.items)
  {
    TotalIsSum(form.items);
    TotalIsSum(form.items + [BlankRow]);
    SumAppend(form.items, [BlankRow]);
    assert Sum([BlankRow]) == Some(0.0) by {
      BlankRowAmount();
    }
  }

  /** `items.filter((_, i) => i !== index)`, the rows scanned with their
      positions counted from `start`. */
  function KeepOthers(items: seq<Row>, index: int, start: int): seq<Row>
    decreases |items|
  {
    if items == [] then []
    else (if start == index then [] else [items[0]]) + KeepOthers(items[1..], index, start + 1)
  }

  function WithoutItem(items: seq<Row>, index: int): seq<Row> {
    KeepOthers(items, index, 0)
  }

  lemma {:induction false} KeepOthersIsSlice(items: seq<Row>, index: int, start: int)
    ensures KeepOthers(items, index, start) ==
      if start <= index < start + |items| then items[..index - start] + items[index - start + 1..] else items
    decreases |items|
  {
    if items != [] {
      KeepOthersIsSlice(items[1..], index, start + 1);
      if start == index {
        assert items[..0] + items[1..] == items[1..];
        assert KeepOthers(items[1..], index, start + 1) == items[1..];
      } else if start < index < start + |items| {
        assert [items[0]] + (items[1..][..index - start - 1] + items[1..][index - start..])
          == items[..index - start] + items[index - start + 1..];
      } else {
        assert [items[0]] + items[1..] == items;
      }
    }
  }

  /** `handleRemoveItem(index)` drops exactly the row at `index` and keeps the
      others in order; any other index keeps every row. The last remaining
      row can be removed. */
  lemma RemoveItemRows(items: seq<Row>, index: int)
    ensures 0 <= index < |items| ==> WithoutItem(items, index) == items[..index] + items[index + 1..]
    ensures 0 <= index < |items| ==> |WithoutItem(items, index)| == |items| - 1
    ensures !(0 <= index < |items|) ==> WithoutItem(items, index) == items
  {
    KeepOthersIsSlice(items, index, 0);
  }

  /** Removing a row takes exactly its amount out of the total. */
  lemma RemoveItemTotal(items: seq<Row>, index: int)
    requires 0 <= index < |items|
    ensures Plus(Total(WithoutItem(items, index)), Amount(items[index])) == Total(items)
  {
    RemoveItemRows(items, index);
    var before, after := items[..index], items[index + 1..];
    assert items == before + ([items[index]] + after);
    TotalIsSum(items);
    TotalIsSum(before + after);
    SumAppend(before, [items[index]] + after);
    SumAppend(before, after);
    assert Sum([items[index]] + after) == Plus(Amount(items[index]), Sum(after)) by {
      assert ([items[index]] + after)[1..] == after;
    }
    PlusAssociative(Sum(before), Sum(after), Amount(items[index]));
    PlusCommutative(Sum(after), Amount(items[index]));
  }

  /** The name the form gives the control of `field` in row `i`: `items-${i}-${field}`. */
  function ItemName(i: nat, field: string): string {
    "items" + "-" + NatText(i) + "-" + field
  }

  /** `const [_, index, field] = name.split("-")` and `parseInt(index, 10)`:
      None where the index is missing or not a number, "undefined" where the
      field is missing. */
  function ItemsTarget(name: string): (Option<int>, string) {
    var parts := Split(name, '-');
    (if |parts| >= 2 then ParseInt(parts[1]) else None,
     if |parts| >= 3 then parts[2] else "undefined")
  }

  /** `handleFormChange` on the purchase form. A name starting with "items"
      sets one field of the row it names; an index that names no row changes
      no row. Any other name sets that top-level field. */
  function AfterChange(form: PurchaseForm, name: string, value: string): (r: PurchaseForm)
    ensures StartsWith(name, "items") ==> r.top == form.top && |r.items| == |form.items|
    ensures StartsWith(name, "items") ==> forall i :: 0 <= i < |form.items| ==>
      r.items[i] == if ItemsTarget(name).0 == Some(i) then form.items[i][ItemsTarget(name).1 := Str(value)] else form.items[i]
    ensures !StartsWith(name, "items") ==> r.items == form.items && r.top == form.top[name := Str(value)]
    ensures NoItemsKey(form) ==> NoItemsKey(r)
  {
    if StartsWith(name, "items") then
      var (index, field) := ItemsTarget(name);
      if index.Some? && 0 <= index.value < |form.items| then
        form.(items := form.items[index.value := form.items[index.value][field := Str(value)]])
      else
        form
    else
      form.(top := form.top[name := Str(value)])
  }

  lemma ItemNameParts(i: nat, field: string)
    requires Free(field, '-')
    ensures Split(ItemName(i, field), '-') == ["items", NatText(i), field]
  {
    assert Free(NatText(i), '-') by {
      forall j | 0 <= j < |NatText(i)| ensures NatText(i)[j] != '-' {
        assert IsDigit(NatText(i)[j]);
      }
    }
    assert ItemName(i, field) == "items" + ['-'] + (NatText(i) + ['-'] + field);
    SplitJoined("items", '-', NatText(i) + ['-'] + field);
    SplitJoined(NatText(i), '-', field);
    SplitFree(field, '-');
  }

  /** The name of row i's control for `field` reads back as index i and that
      field: `split("-")` and `parseInt` undo the name's construction. */
  lemma ItemsTargetOfItemName(i: nat, field: string)
    requires Free(field, '-')
    ensures ItemsTarget(ItemName(i, field)) == (Some(i as int), field)
  {
    ItemNameParts(i, field);
    IntTextRoundTrip(i);
  }

  /** A change from the control the form renders for `field` of row `i` sets
      that field of that row to the input's text and nothing else: the other
      fields of the row, the other rows, the number of rows and the top-level
      fields are kept. */
  lemma ChangeOfRenderedControl(form: PurchaseForm, i: nat, field: string, value: string)
    requires i < |form.items| && Free(field, '-')
    ensures var r := AfterChange(form, ItemName(i, field), value);
      r.top == form.top && |r.items| == |form.items|
      && r.items[i].Keys == form.items[i].Keys + {field}
      && r.items[i][field] == Str(value)
      && (forall k :: k in form.items[i] && k != field ==> r.items[i][k] == form.items[i][k])
      && forall j :: 0 <= j < |form.items| && j != i ==> r.items[j] == form.items[j]
  {
    ItemsTargetOfItemName(i, field);
    assert StartsWith(ItemName(i, field), "items");
  }

  /** The request body of `handleSubmit`: the form with its `total_amount`,
      the same sum the modal shows (before `toFixed(2)`). */
  function Payload(form: PurchaseForm): (b: Body)
    ensures b.PurchaseBody? && b.items == form.items
    ensures b.totalAmount == Total(form.items) == Sum(form.items)
    ensures b.fields.Keys == form.top.Keys - {"total_amount"}
    ensures forall k :: k in b.fields ==> b.fields[k] == form.top[k]
  {
    TotalIsSum(form.items);
    PurchaseBody(form.top - {"total_amount"}, form.items, Total(form.items))
  }

  /** `item.attributes.product_id`, `.quantity` and `.unit_price` of one fetched item. */
  function SeedRow(item: Resource): (row: Row)
    ensures row.Keys == {"product_id", "quantity", "unit_price"}
    ensures forall k :: k in row ==> row[k] == Prop(item.attributes, k)
  {
    map["product_id" := Prop(item.attributes, "product_id"),
        "quantity" := Prop(item.attributes, "quantity"),
        "unit_price" := Prop(item.attributes, "unit_price")]
  }

  /** `attributes.items.map(...)`: one row per fetched item, in order. */
  function SeedItems(items: seq<Resource>): (rows: seq<Row>)
    ensures |rows| == |items|
    ensures forall i :: 0 <= i < |items| ==> rows[i] == SeedRow(items[i])
  {
    if items == [] then [] else [SeedRow(items[0])] + SeedItems(items[1..])
  }

  /** The form Edit builds from a fetched purchase. */
  function EditForm(attributes: map<string, Value>, items: seq<Resource>): (f: PurchaseForm)
    ensures f.top.Keys == {"supplier_id", "purchase_date"} && NoItemsKey(f)
    ensures f.top["supplier_id"] == Prop(attributes, "supplier_id")
    ensures f.top["purchase_date"] == Prop(attributes, "purchase_date")
    ensures f.items == SeedItems(items)
  {
    PurchaseForm(map["supplier_id" := Prop(attributes, "supplier_id"),
                     "purchase_date" := Prop(attributes, "purchase_date")], SeedItems(items))
  }

  lemma WholeNumberText(s: string, n: nat)
    requires s == NatText(n)
    ensures ToNumber(Str(s)) == Some(n as real)
  {
    IntTextRoundTrip(n);
  }

  lemma TenPointZeroZero(s: string)
    requires s == "10.00"
    ensures ToNumber(Str(s)) == Some(10.0)
  {
    var whole, frac := "10", "00";
    assert s == whole + "." + frac;
    assert whole[..1] == "1" && frac[..1] == "0";
    assert DigitsValue(whole) == 10;
    assert DigitsValue(frac) == 0;
    ParseDecimalOfPoint(s, whole, frac);
  }

  lemma FivePointFiveZero(s: string)
    requires s == "5.50"
    ensures ToNumber(Str(s)) == Some(5.5)
  {
    var whole, frac := "5", "50";
    assert s == whole + "." + frac;
    assert frac[..1] == "5";
    assert DigitsValue(whole) == 5;
    assert DigitsValue(frac) == 50;
    assert Pow10(|frac|) == 100;
    ParseDecimalOfPoint(s, whole, frac);
  }

  /** A row as the form holds it after its three controls were filled in. */
  function FilledRow(product: string, quantity: string, price: string): Row {
    map["product_id" := Str(product), "quantity" := Str(quantity), "unit_price" := Str(price)]
  }

  lemma FilledRowAmount(product: string, quantity: string, price: string)
    ensures Amount(FilledRow(product, quantity, price)) == Times(ToNumber(Str(quantity)), ToNumber(Str(price)))
  {
    var row := FilledRow(product, quantity, price);
    assert row["quantity"] == Str(quantity);
    assert row["unit_price"] == Str(price);
  }

  lemma FirstRowAmount(q: string, u: string)
    requires q == "2" && u == "10.00"
    ensures Amount(FilledRow("P1", q, u)) == Some(20.0)
  {
    WholeNumberText(q, 2);
    TenPointZeroZero(u);
    FilledRowAmount("P1", q, u);
  }

  lemma SecondRowAmount(q: string, u: string)
    requires q == "1" && u == "5.50"
    ensures Amount(FilledRow("P2", q, u)) == Some(5.5)
  {
    WholeNumberText(q, 1);
    FivePointFiveZero(u);
    FilledRowAmount("P2", q, u);
  }

  lemma TotalOfTwo(a: Row, b: Row)
    ensures Total([a, b]) == Plus(Plus(Some(0.0), Amount(a)), Amount(b))
  {
    var first := Plus(Some(0.0), Amount(a));
    assert [a, b][1..] == [b] && [b][1..] == [];
    assert Total([a, b]) == TotalFrom(first, [b]);
    assert TotalFrom(first, [b]) == TotalFrom(Plus(first, Amount(b)), []);
  }

  /** Two rows, 2 x "10.00" and 1 x "5.50", total 25.5. */
  lemma TwoRowTotal()
    ensures Total([FilledRow("P1", "2", "10.00"), FilledRow("P2", "1", "5.50")]) == Some(25.5)
  {
    FirstRowAmount("2", "10.00");
    SecondRowAmount("1", "5.50");
    TotalOfTwo(FilledRow("P1", "2", "10.00"), FilledRow("P2", "1", "5.50"));
    assert Plus(Plus(Some(0.0), Some(20.0)), Some(5.5)) == Some(25.5);
  }
}
