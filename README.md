# Shop inventory ledger — Dafny model

This project models the in-memory inventory of a small shop. The shop keeps a
map from product name to product. Each product has a name, a quantity in stock,
a selling price and a purchase price. Adding stock for a name that is already
present only raises its quantity. The existing prices are kept, so the first
add wins. Adding a new name creates an entry. A sale decrements the stock of a
name when it holds enough units. Otherwise the sale fails with an
"insufficient stock" error and nothing changes. The profit report gives gross
revenue (Σ selling price × quantity) and net profit (gross minus Σ purchase
price × quantity), both over the stock currently held. The data file holds one
JSON record per product, and loading it rebuilds the map.

`negozio.py` and `Shop.py` contain the same `Product` and `Shop` core. Only
`negozio.py` adds saving and loading. One model covers both files. The table
cites whichever file states the property being modelled.

Files:

- `products.dfy` (module `ProductRecords`): the `Product` datatype, whose
  constructor is `Product.__init__` (negozio.py:5-13, Shop.py:5-12), and its
  JSON record. `ToDict` and
  `FromDict` convert one product. `ToRecords` and `FromRecords` are the map
  comprehensions of `save_data` and `load_data`. The module also holds the
  round-trip lemmas.
- `inventory.dfy` (module `Inventory`): the specification functions.
  `Restocked` is the map after `add_product`. `Sold` is the map after
  `record_sale`, or its error. `Sum`, `Revenue` and `Cost` are the profit sums.
  The module also holds the lemmas relating them.
- `shop.dfy` (module `ShopModel`): the `Shop` class. Its `products` field is
  the map that the methods update in place. `CalculateProfit` computes the two
  generator sums with a loop, proved against `Revenue` and `Cost`.

Modelling decisions:

- Prices are exact `real`s instead of floats, so the profit identities hold
  exactly. Quantities are unbounded `int`s, as Python integers are.
- A product is a value. The source mutates `product.quantity` in place, but no
  reference to a `Product` escapes the map. Replacing the map entry is
  therefore equivalent.
- `record_sale` raises an exception in the source. Here it returns
  `Failure(InsufficientStock)` and leaves the map unchanged.
- The docstring of `record_sale` says a sale decreases the available
  quantity (negozio.py:63, Shop.py:57). But the code (negozio.py:66-67,
  Shop.py:59-60) and its caller (negozio.py:162) accept any integer. A
  negative sale therefore succeeds and raises the stock. The model follows the code: `Sold` and
  `RecordSale` take any `int`. The stock left after a successful sale is still
  never negative.
- `add_product` accepts any quantity. The command loop rejects quantities that
  are not positive before calling it (negozio.py:140-148). `Shop.AddProduct`
  states that check as `requires quantity > 0`. The pure `Restocked` takes any
  `int` and keeps `Valid` whenever the quantity is not negative.
- There is no class invariant. `load_data` installs whatever map the file
  holds, and a file's keys need not match its records' names. So `Valid`
  (every entry filed under its own name, no negative stock) is stated as
  preserved: `old(Valid(products)) ==> Valid(products)`.
- A JSON record is a `map<string, Json>`. `from_dict` reads `name`,
  `quantity`, `selling_price` and `purchase_price` in that order, and the
  first missing key raises `KeyError`. That exception is not caught in
  `load_data` and leaves `self.products` unchanged. `FromDict` returns
  `MissingField` with that key, and `LoadData` then returns `false` and keeps
  the old products. A price may be a JSON integer or a JSON real.

## Model

| member | source | states |
|---|---|---|
| `ProductRecords.ToDict` | negozio.py:15-25 | the record has exactly the four keys `name`, `quantity`, `selling_price`, `purchase_price`, holding the product's four fields |
| `ProductRecords.FromDict` | negozio.py:27-33 | loading succeeds iff all four keys are present with values of the right kind. It then yields those four values as the product's fields. A missing key is reported as the first one absent, in the order the constructor reads them |
| `ProductRecords.DictRoundTrip` | Shop.py:14-30 | `from_dict(to_dict(p))` gives back all four fields of `p` |
| `ProductRecords.RecordRoundTrip` | negozio.py:15-33 | the converse: a record with exactly the four fields and real prices loads as a product whose record is that record |
| `ProductRecords.ToRecords` | negozio.py:102 | the saved object has one record per product name, and each record loads back as that product |
| `ProductRecords.FromRecords` | negozio.py:121 | the load comprehension succeeds iff every record loads. It then keeps the same keys, with each entry being its record's product |
| `ProductRecords.RecordsRoundTrip` | negozio.py:102-121 | loading the object built by save reproduces the product map exactly |
| `ProductRecords.EmptyRecordsLoadEmpty` | negozio.py:110-121 | the empty object (what a new or empty file yields) loads as the empty map |
| `Inventory.Restocked` | negozio.py:43-51 | a stocked name gains exactly `quantity` and keeps its name and prices. A new name gets `Product(name, quantity, sp, pp)`. No other entry changes, and `Valid` is kept for a non-negative quantity |
| `Inventory.Sold` | negozio.py:61-69 | succeeds iff the name is present with stock ≥ `quantity`. On success the stock drops by exactly `quantity` and stays ≥ 0, the keys and all other entries are unchanged, and `Valid` is kept. Otherwise it returns `InsufficientStock` |
| `Inventory.RestockThenSell` | Shop.py:43-60 | selling back what was just added to a stocked name restores the map |
| `Inventory.SellThenRestock` | negozio.py:48-67 | adding back what was just sold restores the map, whatever prices accompany the add |
| `Inventory.EmptiedStockRefusesSales` | Shop.py:59-62 | after a sale leaves a product at 0, every further sale of a positive quantity of it fails |
| `Inventory.RestockedAllStocked` | Shop.py:43-44 | repeated adds to a stocked name add the sum of their quantities and keep the entry's prices |
| `Inventory.RepeatedAddsKeepFirstPrices` | Shop.py:43-46 | repeated adds of a new name leave one entry whose quantity is the sum of all the adds and whose prices are those of the first add. Every other entry is unchanged |
| `Inventory.Revenue` | negozio.py:78 | gross revenue is 0 with no products, and is any one product's sp·q plus the sum over the others, whichever product is taken first |
| `Inventory.Cost` | negozio.py:79 | total cost is 0 with no products, and is any one product's pp·q plus the sum over the others, whichever product is taken first |
| `Inventory.SumRemove` | negozio.py:78-79 | the sum over the products may be split at any entry, so its value does not depend on iteration order |
| `Inventory.NetIsMarginSum` | Shop.py:68-71 | net = Σ sp·q − Σ pp·q = Σ (sp − pp)·q |
| `Inventory.EmptyStockNoProfit` | Shop.py:64-71 | with no products, gross and net are both 0 |
| `Inventory.RestockedProfit` | Shop.py:39-71 | an add raises gross by the entry's selling price × the added quantity, and net by (sp − pp) × the added quantity. For a new name these are the given prices |
| `Inventory.SoldProfit` | negozio.py:61-81 | a successful sale lowers gross by sp × quantity and net by (sp − pp) × quantity |
| `Inventory.TwoProductExample` | negozio.py:73-81 | {A: 2 at 10, bought at 6} and {B: 1 at 5, bought at 5} give gross 25 and net 8 |
| `ShopModel.Accumulate` | negozio.py:78-79 | the generator sum over the products equals `Sum` of the per-product value |
| `ShopModel.Shop.constructor` | negozio.py:36-41 | a new shop has an empty, valid product map with revenue and profit 0 |
| `ShopModel.Shop.AddProduct` | negozio.py:43-51 | the new map is `Restocked` of the old one. A stocked name's quantity grows by exactly `quantity`, and `Valid` is preserved |
| `ShopModel.Shop.RecordSale` | negozio.py:61-69 | succeeds iff the name is present with enough stock, and the new map is then `Sold` of the old one with the stock ≥ 0. On failure it reports `InsufficientStock` and leaves the map unchanged. `Valid` is preserved |
| `ShopModel.Shop.CalculateProfit` | negozio.py:73-81 | returns gross = Σ sp·q and net = gross − Σ pp·q, which also equals Σ (sp − pp)·q |
| `ShopModel.Shop.SaveData` | negozio.py:96-103 | the saved object is the record map of the products, and loading it gives back the same products |
| `ShopModel.Shop.LoadData` | negozio.py:105-124 | the products become the loaded map when every record loads. Otherwise they are unchanged |
| `ShopModel.SaveThenLoad` | negozio.py:96-124 | saving one shop and loading the result into another gives the second the same products |

## Left out

- The command loop `main` is not modelled: its prompts, `input`/`print` and the catch-all `try/except` (negozio.py:126-187) are console I/O. Its positive-quantity check for adds becomes the precondition of `Shop.AddProduct`.
- `show_list` and `help_command` are not modelled; they only print.
- File handling in `save_data`/`load_data` is not modelled: `open`, `os.path.exists`, writing `{}` into a missing file, the empty-file check and the `FileNotFoundError` catch. The model starts from the JSON object those steps produce; a missing or empty file yields the empty object (see `EmptyRecordsLoadEmpty`).
- JSON text encoding and decoding (`json.dump`, `json.loads`) are not modelled; records are already-parsed JSON values.
- Floating-point behaviour of prices and profit sums is not modelled; prices are exact reals.
- The `str.lower` name normalisation happens in the command loop and is not modelled; names are opaque strings.
- Exception message texts are not modelled; the error is the single value `InsufficientStock`.
- ProductRecords.FromDict: reports `WrongKind` for a field of the wrong JSON kind (a non-string name, a non-integer quantity, a non-numeric price). The source does not check types and would build a product holding that value. Dynamic typing is not modelled.
- ProductRecords.FromRecords: reports only that some record failed, not which key raised, because the source's choice depends on dictionary iteration order.
- The insertion order of the product map is not modelled. It affects only the order of `show_list` and the summation order of float addition, neither of which is part of the model.
