/** The shop object: a product map that adding stock and recording sales
    update in place, with its profit report and its save/load conversion. */
module ShopModel {
  import opened ProductRecords
  import opened Inventory

  /** The sum of `f` over the entries of `m`, one entry at a time, as a
      generator passed to `sum` does. */
  method Accumulate(m: Stock, f: Product -> real) returns (total: real)
    ensures total == Sum(m, f)
  {
    total := 0.0;
    var rest := m;
    while rest != map[]
      invariant total + Sum(rest, f) == Sum(m, f)
      decreases |rest|
    {
      var k :| k in rest;
      SumRemove(rest, f, k);
      total := total + f(rest[k]);
      assert (rest - {k}).Keys == rest.Keys - {k};
      rest := rest - {k};
    }
  }

  class Shop {
    /** Products by name. */
    var products: Stock

    /** A new shop holds no products, so its revenue and profit are zero. */
    constructor ()
      ensures products == map[]
      ensures Valid(products)
      ensures Revenue(products) == 0.0 && Revenue(products) - Cost(products) == 0.0
    {
      products := map[];
    }

    /** Add stock. The caller has checked that `quantity` is positive. */
    method AddProduct(name: string, quantity: int, selling: real, purchase: real)
      requires quantity > 0
      modifies this
      ensures products == Restocked(old(products), name, quantity, selling, purchase)
      ensures name in old(products) ==> products[name].quantity == old(products)[name].quantity + quantity
      ensures old(Valid(products)) ==> Valid(products)
    {
      if name in products {
        var p := products[name];
        products := products[name := p.(quantity := p.quantity + quantity)];
      } else {
        products := products[name := Product(name, quantity, selling, purchase)];
      }
    }

    /** Record a sale: decrement the stock of `name` by `quantity` if it has
        that many units, and otherwise report InsufficientStock and change nothing. */
    method RecordSale(name: string, quantity: int) returns (outcome: Result<(), SaleError>)
      modifies this
      ensures outcome.Success? <==> name in old(products) && old(products)[name].quantity >= quantity
      ensures outcome.Success? ==> products == Sold(old(products), name, quantity).value
      ensures outcome.Success? ==> products[name].quantity == old(products)[name].quantity - quantity >= 0
      ensures outcome.Failure? ==> outcome.error == InsufficientStock && products == old(products)
      ensures old(Valid(products)) ==> Valid(products)
    {
      if name in products && products[name].quantity >= quantity {
        var p := products[name];
        products := products[name := p.(quantity := p.quantity - quantity)];
        outcome := Success(());
      } else {
        outcome := Failure(InsufficientStock);
      }
    }

    /** Gross revenue and net profit over the stock currently held. */
    method CalculateProfit() returns (gross: real, net: real)
      ensures gross == Revenue(products)
      ensures net == Revenue(products) - Cost(products)
      ensures net == Sum(products, MarginValue)
    {
      gross := Accumulate(products, SaleValue);
      var costs := Accumulate(products, CostValue);
      net := gross - costs;
      NetIsMarginSum(products);
    }

    /** The JSON object written to the data file: one record per product,
        from which loading gives back exactly this product map. */
    method SaveData() returns (data: map<string, Record>)
      ensures data == ToRecords(products)
      ensures FromRecords(data) == Some(products)
    {
      data := ToRecords(products);
      RecordsRoundTrip(products);
    }

    /** Replace the products by those of a loaded JSON object. A record that
        cannot be read leaves the products as they were. */
    method LoadData(data: map<string, Record>) returns (loaded: bool)
      modifies this
      ensures loaded == FromRecords(data).Some?
      ensures loaded ==> products == FromRecords(data).value
      ensures !loaded ==> products == old(products)
    {
      var r := FromRecords(data);
      loaded := r.Some?;
      if loaded {
        products := r.value;
      }
    }
  }

  /** Saving a shop's products and loading them into another shop gives the
      second shop the same products. */
  method SaveThenLoad(from: Shop, into: Shop)
    modifies into
    ensures into.products == from.products
  {
    var data := from.SaveData();
    var loaded := into.LoadData(data);
  }
}
