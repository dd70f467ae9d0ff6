/** The product map of a shop: what adding stock and recording a sale do to
    it, and the profit figures computed over the stock it holds. */
module Inventory {
  import opened ProductRecords

  type Stock = map<string, Product>

  /** Every entry is filed under its own name and holds no negative quantity. */
  predicate Valid(m: Stock) {
    forall k :: k in m ==> m[k].name == k && m[k].quantity >= 0
  }

  // ---------------------------------------------------------------------------
  // Adding stock and recording a sale

  /** The map after `add_product`: an existing entry only gains `quantity`
      and keeps its name and prices; a new name gets a fresh entry. */
  function Restocked(m: Stock, name: string, quantity: int, selling: real, purchase: real): (r: Stock)
    ensures r.Keys == m.Keys + {name}
    ensures forall k :: k in m && k != name ==> r[k] == m[k]
    ensures name in m ==> r[name] == m[name].(quantity := m[name].quantity + quantity)
    ensures name !in m ==> r[name] == Product(name, quantity, selling, purchase)
    ensures Valid(m) && quantity >= 0 ==> Valid(r)
  {
    if name in m then m[name := m[name].(quantity := m[name].quantity + quantity)]
    else m[name := Product(name, quantity, selling, purchase)]
  }

  /** The error `record_sale` raises ("quantity exceeds availability"). */
  datatype SaleError = InsufficientStock

  /** The map after `record_sale`, or the error it raises. A sale succeeds
      exactly when the name is stocked with at least `quantity` units. */
  function Sold(m: Stock, name: string, quantity: int): (r: Result<Stock, SaleError>)
    ensures r.Success? <==> name in m && m[name].quantity >= quantity
    ensures r.Success? ==> r.value.Keys == m.Keys
    ensures r.Success? ==> forall k :: k in m && k != name ==> r.value[k] == m[k]
    ensures r.Success? ==> r.value[name] == m[name].(quantity := m[name].quantity - quantity)
    ensures r.Success? ==> r.value[name].quantity >= 0
    ensures r.Success? && Valid(m) ==> Valid(r.value)
  {
    if name in m && m[name].quantity >= quantity then
      Success(m[name := m[name].(quantity := m[name].quantity - quantity)])
    else
      Failure(InsufficientStock)
  }

  /** Selling back what was just added to a stocked name restores the map. */
  lemma RestockThenSell(m: Stock, name: string, quantity: int, selling: real, purchase: real)
    requires name in m && m[name].quantity >= 0
    ensures Sold(Restocked(m, name, quantity, selling, purchase), name, quantity) == Success(m)
  {
    var r := Restocked(m, name, quantity, selling, purchase);
    assert r[name := r[name].(quantity := r[name].quantity - quantity)] == m;
  }

  /** Adding back what was just sold restores the map, whatever prices come with it. */
  lemma SellThenRestock(m: Stock, name: string, quantity: int, selling: real, purchase: real)
    requires Sold(m, name, quantity).Success?
    ensures Restocked(Sold(m, name, quantity).value, name, quantity, selling, purchase) == m
  {
    var s := Sold(m, name, quantity).value;
    assert s[name := s[name].(quantity := s[name].quantity + quantity)] == m;
  }

  /** Once a sale has emptied a product, every further sale of a positive
      quantity of it fails and leaves the map as it is. */
  lemma EmptiedStockRefusesSales(m: Stock, name: string, quantity: int, more: int)
    requires Sold(m, name, quantity).Success?
    requires Sold(m, name, quantity).value[name].quantity == 0
    requires more > 0
    ensures Sold(Sold(m, name, quantity).value, name, more) == Failure(InsufficientStock)
  {
  }

  /** One call of `add_product` in a sequence of calls for the same name. */
  datatype Delivery = Delivery(quantity: int, sellingPrice: real, purchasePrice: real)

  /** The map after adding every delivery, in order, under `name`. */
  function RestockedAll(m: Stock, name: string, ds: seq<Delivery>): Stock
    decreases |ds|
  {
    if ds == [] then m
    else RestockedAll(Restocked(m, name, ds[0].quantity, ds[0].sellingPrice, ds[0].purchasePrice), name, ds[1..])
  }

  function TotalQuantity(ds: seq<Delivery>): int
    decreases |ds|
  {
    if ds == [] then 0 else ds[0].quantity + TotalQuantity(ds[1..])
  }

  /** Repeated adds to a stocked name sum their quantities; the entry keeps its prices. */
  lemma {:induction false} RestockedAllStocked(m: Stock, name: string, ds: seq<Delivery>)
    requires name in m
    ensures RestockedAll(m, name, ds) == m[name := m[name].(quantity := m[name].quantity + TotalQuantity(ds))]
    decreases |ds|
  {
    if ds == [] {
      assert m[name := m[name]] == m;
    } else {
      var m1 := Restocked(m, name, ds[0].quantity, ds[0].sellingPrice, ds[0].purchasePrice);
      RestockedAllStocked(m1, name, ds[1..]);
      assert m1[name := m1[name].(quantity := m1[name].quantity + TotalQuantity(ds[1..]))]
          == m[name := m[name].(quantity := m[name].quantity + TotalQuantity(ds))];
    }
  }

  /** Repeated adds of a new name: the quantity is the sum of all of them,
      the prices are those of the first add, and no other entry changes. */
  lemma {:induction false} RepeatedAddsKeepFirstPrices(m: Stock, name: string, ds: seq<Delivery>)
    requires name !in m
    requires ds != []
    ensures RestockedAll(m, name, ds)
         == m[name := Product(name, TotalQuantity(ds), ds[0].sellingPrice, ds[0].purchasePrice)]
  {
    var m1 := Restocked(m, name, ds[0].quantity, ds[0].sellingPrice, ds[0].purchasePrice);
    RestockedAllStocked(m1, name, ds[1..]);
    assert m1[name := m1[name].(quantity := m1[name].quantity + TotalQuantity(ds[1..]))]
        == m[name := Product(name, TotalQuantity(ds), ds[0].sellingPrice, ds[0].purchasePrice)];
  }

  // ---------------------------------------------------------------------------
  // Profit over the stock currently held

  /** Value of a product's stock at its selling price. */
  function SaleValue(p: Product): real {
    p.sellingPrice * p.quantity as real
  }

  /** Value of a product's stock at its purchase price. */
  function CostValue(p: Product): real {
    p.purchasePrice * p.quantity as real
  }

  /** Margin of a product's stock: what selling it all would earn over its cost. */
  function MarginValue(p: Product): real {
    (p.sellingPrice - p.purchasePrice) * p.quantity as real
  }

  /** The sum of `f` over the entries of `m`, taken in no particular order. */
  ghost function Sum(m: Stock, f: Product -> real): real
    decreases |m|
  {
    if m == map[] then 0.0
    else
      var k :| k in m;
      assert |(m - {k}).Keys| < |m.Keys| by { assert (m - {k}).Keys == m.Keys - {k}; }
      f(m[k]) + Sum(m - {k}, f)
  }

  /** Gross revenue: Σ selling price × quantity, over the products in any order. */
  ghost function Revenue(m: Stock): (r: real)
    ensures m == map[] ==> r == 0.0
    ensures forall k {:trigger Sum(m - {k}, SaleValue)} :: k in m ==> r == SaleValue(m[k]) + Sum(m - {k}, SaleValue)
  {
    SumSplit(m, SaleValue);
    Sum(m, SaleValue)
  }

  /** Total cost: Σ purchase price × quantity, over the products in any order. */
  ghost function Cost(m: Stock): (r: real)
    ensures m == map[] ==> r == 0.0
    ensures forall k {:trigger Sum(m - {k}, CostValue)} :: k in m ==> r == CostValue(m[k]) + Sum(m - {k}, CostValue)
  {
    SumSplit(m, CostValue);
    Sum(m, CostValue)
  }

  lemma SumSplit(m: Stock, f: Product -> real)
    ensures forall k :: k in m ==> Sum(m, f) == f(m[k]) + Sum(m - {k}, f)
  {
    forall k | k in m
      ensures Sum(m, f) == f(m[k]) + Sum(m - {k}, f)
    {
      SumRemove(m, f, k);
    }
  }

  /** The sum may be split at any entry, not only the one its definition picks. */
  lemma {:induction false} SumRemove(m: Stock, f: Product -> real, k: string)
    requires k in m
    ensures Sum(m, f) == f(m[k]) + Sum(m - {k}, f)
    decreases |m|
  {
    var j :| j in m && Sum(m, f) == f(m[j]) + Sum(m - {j}, f);
    if j != k {
      assert (m - {j}).Keys == m.Keys - {j};
      SumRemove(m - {j}, f, k);
      assert (m - {k}).Keys == m.Keys - {k};
      SumRemove(m - {k}, f, j);
      assert (m - {j}) - {k} == (m - {k}) - {j};
    }
  }

  /** Replacing or inserting one entry changes the sum by the difference at that entry. */
  lemma SumUpdate(m: Stock, f: Product -> real, k: string, p: Product)
    ensures Sum(m[k := p], f) == Sum(m, f) - (if k in m then f(m[k]) else 0.0) + f(p)
  {
    SumRemove(m[k := p], f, k);
    assert m[k := p] - {k} == m - {k};
    if k in m {
      SumRemove(m, f, k);
    } else {
      assert m - {k} == m;
    }
  }

  /** Net profit is the sum of the margins: Σ sp·q − Σ pp·q = Σ (sp − pp)·q. */
  lemma {:induction false} NetIsMarginSum(m: Stock)
    ensures Revenue(m) - Cost(m) == Sum(m, MarginValue)
    decreases |m|
  {
    if m != map[] {
      var k :| k in m;
      SumRemove(m, SaleValue, k);
      SumRemove(m, CostValue, k);
      SumRemove(m, MarginValue, k);
      assert (m - {k}).Keys == m.Keys - {k};
      NetIsMarginSum(m - {k});
    }
  }

  /** The empty shop has neither revenue nor profit. */
  lemma EmptyStockNoProfit()
    ensures Revenue(map[]) == 0.0 && Revenue(map[]) - Cost(map[]) == 0.0
  {
  }

  /** Changing a product's quantity by `d` changes its stock value by its price times `d`. */
  lemma QuantityChange(p: Product, d: int)
    ensures SaleValue(p.(quantity := p.quantity + d)) == SaleValue(p) + p.sellingPrice * d as real
    ensures CostValue(p.(quantity := p.quantity + d)) == CostValue(p) + p.purchasePrice * d as real
  {
    assert (p.quantity + d) as real == p.quantity as real + d as real;
  }

  /** The distributive step of the net-profit lemmas, kept apart so that the
      nonlinear real arithmetic is proved in a small context. */
  lemma MarginSplit(selling: real, purchase: real, q: real)
    ensures (selling - purchase) * q == selling * q - purchase * q
  {
  }

  /** Putting `p` under `name` changes gross revenue and total cost by the
      difference between `p`'s value and the value of the entry it replaces. */
  lemma EntryValues(m: Stock, name: string, p: Product)
    ensures Revenue(m[name := p]) == Revenue(m) - (if name in m then SaleValue(m[name]) else 0.0) + SaleValue(p)
    ensures Cost(m[name := p]) == Cost(m) - (if name in m then CostValue(m[name]) else 0.0) + CostValue(p)
  {
    SumUpdate(m, SaleValue, name, p);
    SumUpdate(m, CostValue, name, p);
  }

  /** Adding stock raises gross revenue by the entry's selling price times the
      added quantity, and net profit by the entry's margin on it. The entry's
      prices are its old ones for a stocked name and the given ones otherwise. */
  lemma RestockedProfit(m: Stock, name: string, quantity: int, selling: real, purchase: real)
    ensures var r := Restocked(m, name, quantity, selling, purchase);
            && Revenue(r) == Revenue(m) + r[name].sellingPrice * quantity as real
            && Revenue(r) - Cost(r) == Revenue(m) - Cost(m) + (r[name].sellingPrice - r[name].purchasePrice) * quantity as real
  {
    var r := Restocked(m, name, quantity, selling, purchase);
    var p := r[name];
    assert r == m[name := p];
    EntryShift(m, name, p, quantity);
    ProfitShift(Revenue(m), Revenue(r), Cost(m), Cost(r), p.sellingPrice, p.purchasePrice, quantity as real);
  }

  /** Putting `p` under `name`, where `p` holds `d` more units than the entry
      it replaces (or is new with `d` units), raises gross revenue by sp·d and
      total cost by pp·d. */
  lemma EntryShift(m: Stock, name: string, p: Product, d: int)
    requires name in m ==> p == m[name].(quantity := m[name].quantity + d)
    requires name !in m ==> p.quantity == d
    ensures Revenue(m[name := p]) == Revenue(m) + p.sellingPrice * d as real
    ensures Cost(m[name := p]) == Cost(m) + p.purchasePrice * d as real
  {
    EntryValues(m, name, p);
    if name in m {
      QuantityChange(m[name], d);
    }
  }

  /** If gross moves by sp·q and costs by pp·q, net moves by (sp − pp)·q. */
  lemma ProfitShift(gross0: real, gross1: real, cost0: real, cost1: real, selling: real, purchase: real, q: real)
    requires gross1 == gross0 + selling * q
    requires cost1 == cost0 + purchase * q
    ensures gross1 - cost1 == gross0 - cost0 + (selling - purchase) * q
  {
    MarginSplit(selling, purchase, q);
  }

  /** A sale lowers gross revenue by the selling price times the quantity
      sold, and net profit by the margin on it. */
  lemma SoldProfit(m: Stock, name: string, quantity: int)
    requires Sold(m, name, quantity).Success?
    ensures var r := Sold(m, name, quantity).value;
            && Revenue(r) == Revenue(m) - m[name].sellingPrice * quantity as real
            && Revenue(r) - Cost(r) == Revenue(m) - Cost(m) - (m[name].sellingPrice - m[name].purchasePrice) * quantity as real
  {
    var r := Sold(m, name, quantity).value;
    var held := m[name];
    var p := r[name];
    assert r == m[name := p];
    EntryShift(m, name, p, -quantity);
    Negate(held.sellingPrice, quantity);
    Negate(held.purchasePrice, quantity);
    ProfitShift(Revenue(r), Revenue(m), Cost(r), Cost(m), held.sellingPrice, held.purchasePrice, quantity as real);
  }

  /** The sign step of `SoldProfit`, kept apart so that the nonlinear real
      arithmetic is proved in a small context. */
  lemma Negate(price: real, q: int)
    ensures price * (-q) as real == -(price * q as real)
  {
  }

  /** Two products, {A: 2 at 10 bought at 6} and {B: 1 at 5 bought at 5},
      give gross 25 and net 25 − (12 + 5) = 8. */
  lemma TwoProductExample()
    ensures var m := map["a" := Product("a", 2, 10.0, 6.0), "b" := Product("b", 1, 5.0, 5.0)];
            Revenue(m) == 25.0 && Revenue(m) - Cost(m) == 8.0
  {
    var a := Product("a", 2, 10.0, 6.0);
    var b := Product("b", 1, 5.0, 5.0);
    var one: Stock := map["a" := a];
    SumUpdate(map[], SaleValue, "a", a);
    SumUpdate(map[], CostValue, "a", a);
    assert map[][ "a" := a] == one;
    SumUpdate(one, SaleValue, "b", b);
    SumUpdate(one, CostValue, "b", b);
    assert one["b" := b] == map["a" := a, "b" := b];
  }
}
