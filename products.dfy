/** A stocked product and its dictionary form, as saved to and loaded from
    the shop's JSON file. */
module ProductRecords {

  datatype Option<+T> = None | Some(value: T)

  datatype Result<+R, +E> = Success(value: R) | Failure(error: E)

  /** One stock-keeping unit. Prices are exact reals rather than floats. */
  datatype Product = Product(name: string, quantity: int, sellingPrice: real, purchasePrice: real)

  /** The JSON values a product record can hold. */
  datatype Json = JString(s: string) | JInt(i: int) | JReal(r: real)

  /** A product record: a JSON object keyed by field name. */
  type Record = map<string, Json>

  /** Why a record could not be turned back into a product. */
  datatype FieldError =
    | MissingField(key: string)   // the lookup that raises KeyError
    | WrongKind(key: string)      // a field with a JSON value of the wrong kind

  const NameKey := "name"
  const QuantityKey := "quantity"
  const SellingKey := "selling_price"
  const PurchaseKey := "purchase_price"

  /** The four keys in the order the constructor call reads them. */
  const FieldKeys: seq<string> := [NameKey, QuantityKey, SellingKey, PurchaseKey]

  predicate IsNumber(v: Json) {
    v.JInt? || v.JReal?
  }

  function AsReal(v: Json): real
    requires IsNumber(v)
  {
    if v.JInt? then v.i as real else v.r
  }

  /** The record of a product: exactly the four fields, prices as JSON numbers. */
  function ToDict(p: Product): (d: Record)
    ensures d.Keys == {NameKey, QuantityKey, SellingKey, PurchaseKey}
    ensures d[NameKey] == JString(p.name) && d[QuantityKey] == JInt(p.quantity)
    ensures d[SellingKey] == JReal(p.sellingPrice) && d[PurchaseKey] == JReal(p.purchasePrice)
  {
    map[NameKey := JString(p.name), QuantityKey := JInt(p.quantity),
        SellingKey := JReal(p.sellingPrice), PurchaseKey := JReal(p.purchasePrice)]
  }

  /** The index of the first of the four keys the record lacks, or 4 if it has them all. */
  function FirstMissing(d: Record): (i: nat)
    ensures i <= |FieldKeys|
    ensures forall j :: 0 <= j < i ==> FieldKeys[j] in d
    ensures i < |FieldKeys| ==> FieldKeys[i] !in d
  {
    if NameKey !in d then 0
    else if QuantityKey !in d then 1
    else if SellingKey !in d then 2
    else if PurchaseKey !in d then 3
    else 4
  }

  /** Rebuild a product from its record. Extra keys are ignored; the first
      missing key (in the order the fields are read) is reported. */
  function FromDict(d: Record): (r: Result<Product, FieldError>)
    ensures r.Success? <==>
              && NameKey in d && d[NameKey].JString?
              && QuantityKey in d && d[QuantityKey].JInt?
              && SellingKey in d && IsNumber(d[SellingKey])
              && PurchaseKey in d && IsNumber(d[PurchaseKey])
    ensures r.Success? ==>
              && r.value.name == d[NameKey].s
              && r.value.quantity == d[QuantityKey].i
              && r.value.sellingPrice == AsReal(d[SellingKey])
              && r.value.purchasePrice == AsReal(d[PurchaseKey])
    ensures r.Failure? && r.error.MissingField? ==>
              exists i :: 0 <= i < |FieldKeys| && r.error.key == FieldKeys[i] && FieldKeys[i] !in d &&
                          forall j :: 0 <= j < i ==> FieldKeys[j] in d
    ensures r.Failure? && r.error.WrongKind? ==> forall k :: k in FieldKeys ==> k in d
  {
    var i := FirstMissing(d);
    if i < |FieldKeys| then Failure(MissingField(FieldKeys[i]))
    else if !d[NameKey].JString? then Failure(WrongKind(NameKey))
    else if !d[QuantityKey].JInt? then Failure(WrongKind(QuantityKey))
    else if !IsNumber(d[SellingKey]) then Failure(WrongKind(SellingKey))
    else if !IsNumber(d[PurchaseKey]) then Failure(WrongKind(PurchaseKey))
    else Success(Product(d[NameKey].s, d[QuantityKey].i, AsReal(d[SellingKey]), AsReal(d[PurchaseKey])))
  }

  /** Saving then loading a product gives back all four of its fields. */
  lemma DictRoundTrip(p: Product)
    ensures FromDict(ToDict(p)) == Success(p)
  {
  }

  /** The other direction: a record that holds exactly the four fields, with
      real prices, is the record of the product it loads as. */
  lemma RecordRoundTrip(d: Record)
    requires d.Keys == {NameKey, QuantityKey, SellingKey, PurchaseKey}
    requires d[NameKey].JString? && d[QuantityKey].JInt?
    requires d[SellingKey].JReal? && d[PurchaseKey].JReal?
    ensures FromDict(d).Success? && ToDict(FromDict(d).value) == d
  {
    var p := FromDict(d).value;
    assert ToDict(p).Keys == d.Keys;
    assert forall k :: k in d ==> ToDict(p)[k] == d[k];
  }

  /** The comprehension that builds the saved JSON object: one record per name. */
  function ToRecords(m: map<string, Product>): (data: map<string, Record>)
    ensures data.Keys == m.Keys
    ensures forall k :: k in m ==> FromDict(data[k]) == Success(m[k])
  {
    map k | k in m :: ToDict(m[k])
  }

  /** The comprehension that rebuilds the product map from a loaded JSON
      object. It fails, producing nothing, as soon as one record fails. */
  function FromRecords(data: map<string, Record>): (r: Option<map<string, Product>>)
    ensures r.Some? <==> forall k :: k in data ==> FromDict(data[k]).Success?
    ensures r.Some? ==> r.value.Keys == data.Keys
    ensures r.Some? ==> forall k :: k in data ==> FromDict(data[k]) == Success(r.value[k])
  {
    if forall k :: k in data ==> FromDict(data[k]).Success? then
      Some(map k | k in data :: FromDict(data[k]).value)
    else
      None
  }

  /** Saving a product map and loading the result reproduces the same map. */
  lemma RecordsRoundTrip(m: map<string, Product>)
    ensures FromRecords(ToRecords(m)) == Some(m)
  {
    var data := ToRecords(m);
    var r := FromRecords(data);
    assert r.Some?;
    assert r.value.Keys == m.Keys;
    forall k | k in m
      ensures r.value[k] == m[k]
    {
      assert FromDict(data[k]) == Success(m[k]);
    }
    assert r.value == m;
  }

  /** Loading the empty JSON object (also what an empty or new file gives)
      yields the empty product map. */
  lemma EmptyRecordsLoadEmpty()
    ensures FromRecords(map[]) == Some(map[])
  {
  }
}
