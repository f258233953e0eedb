/** The six collections of the browser-local database (users, categories,
    flavours, inventory movements, sales and sale details) as records, and
    the store that holds them as sequences. Identifiers are opaque strings
    (random UUIDs in the database layer); timestamps are integers. */
module Records {
  import opened Js

  datatype User = User(id: string, name: string)

  /** A category; basePrice None is the database's null. */
  datatype Category = Category(id: string, name: string, basePrice: Option<Num>)

  datatype Flavor = Flavor(
    id: string,
    name: string,
    categoryId: string,
    price: real,
    color: string,
    active: bool,
    imageUrl: string)

  /** One ledger entry. The sign of its effect on stock is inferred from
      `kind` by each screen's own rule (see Pos, Flavors and Reports). */
  datatype Movement = Movement(flavorId: string, kind: string, qty: int, note: string)

  datatype SaleKind = Normal | Descuento | Donacion

  datatype Sale = Sale(
    id: string,
    kind: SaleKind,
    total: real,
    received: real,
    change: real,
    discountPct: real,
    fixedDiscount: real,
    timestamp: int,
    userId: Option<string>)

  datatype Detail = Detail(saleId: string, flavorId: string, qty: int, subtotal: real)

  /** getDetalleByVenta: the details of one sale, in store order. */
  function DetailsOf(details: seq<Detail>, saleId: string): (r: seq<Detail>)
    ensures |r| <= |details|
    ensures forall d :: d in r <==> d in details && d.saleId == saleId
  {
    if details == [] then []
    else
      var last := details[|details| - 1];
      DetailsOf(details[..|details| - 1], saleId) + (if last.saleId == saleId then [last] else [])
  }

  /** The details of a sale in a store built from two parts are its details
      in the first part followed by those in the second. */
  lemma {:induction false} DetailsOfAppend(a: seq<Detail>, b: seq<Detail>, saleId: string)
    ensures DetailsOf(a + b, saleId) == DetailsOf(a, saleId) + DetailsOf(b, saleId)
  {
    if b != [] {
      assert (a + b)[..|a + b| - 1] == a + b[..|b| - 1];
      DetailsOfAppend(a, b[..|b| - 1], saleId);
    } else {
      assert a + b == a;
    }
  }

  /** `dets.reduce((s, d) => s + (d.Subtotal || 0), 0)`. */
  function SubtotalSum(dets: seq<Detail>): real
  {
    if dets == [] then 0.0 else SubtotalSum(dets[..|dets| - 1]) + dets[|dets| - 1].subtotal
  }

  function CategoryId(c: Category): string { c.id }

  function FlavorId(f: Flavor): string { f.id }

  /** The record of `rs` whose key `id(x)` is that of `x` replaced by `x`,
      the others kept: an update by primary key, which does nothing when the
      key is absent. */
  function ReplaceById<T>(rs: seq<T>, id: T -> string, x: T): (r: seq<T>)
    ensures |r| == |rs|
    ensures forall i :: 0 <= i < |rs| ==> r[i] == if id(rs[i]) == id(x) then x else rs[i]
  {
    seq(|rs|, i requires 0 <= i < |rs| => if id(rs[i]) == id(x) then x else rs[i])
  }

  /** The database: each collection is a sequence that the write operations
      append to or update in place by id. */
  class Store {
    var categories: seq<Category>
    var flavors: seq<Flavor>
    var movements: seq<Movement>
    var sales: seq<Sale>
    var details: seq<Detail>

    constructor ()
      ensures categories == [] && flavors == [] && movements == []
      ensures sales == [] && details == []
    {
      categories, flavors, movements, sales, details := [], [], [], [], [];
    }

    method AddCategory(c: Category)
      modifies this`categories
      ensures categories == old(categories) + [c]
    {
      categories := categories + [c];
    }

    method UpdateCategory(c: Category)
      modifies this`categories
      ensures categories == ReplaceById(old(categories), CategoryId, c)
    {
      categories := ReplaceById(categories, CategoryId, c);
    }

    method AddFlavor(f: Flavor)
      modifies this`flavors
      ensures flavors == old(flavors) + [f]
    {
      flavors := flavors + [f];
    }

    method UpdateFlavor(f: Flavor)
      modifies this`flavors
      ensures flavors == ReplaceById(old(flavors), FlavorId, f)
    {
      flavors := ReplaceById(flavors, FlavorId, f);
    }

    method AddMovement(m: Movement)
      modifies this`movements
      ensures movements == old(movements) + [m]
    {
      movements := movements + [m];
    }

    method AddSale(s: Sale)
      modifies this`sales
      ensures sales == old(sales) + [s]
    {
      sales := sales + [s];
    }

    method AddDetail(d: Detail)
      modifies this`details
      ensures details == old(details) + [d]
    {
      details := details + [d];
    }
  }
}
