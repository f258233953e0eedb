/** The reports screen: read-only totals over the loaded flavours,
    categories, movements, sales and sale details. */
module Reports {
  import opened Js
  import opened Records
  import Ledger

  // ------------------------------------------------------------------
  // Stock

  /** This screen's sign rule: a kind starting with "Entrada" adds, every
      other kind subtracts. */
  function Delta(m: Movement): int
  {
    if StartsWith(m.kind, "Entrada") then m.qty else -m.qty
  }

  /** getInventoryForFlavor. */
  function Stock(movs: seq<Movement>, id: string): int
  {
    Ledger.Projection(movs, id, Delta)
  }

  /** Stock moves by +qty for an "Entrada…" movement of this flavour, by
      -qty for any other movement of it, and not for other flavours. */
  lemma StockStep(movs: seq<Movement>, m: Movement, id: string)
    ensures Stock(movs + [m], id) == Stock(movs, id)
      + (if m.flavorId != id then 0 else if StartsWith(m.kind, "Entrada") then m.qty else -m.qty)
  {
    Ledger.ProjectionStep(movs, m, id, Delta);
  }

  /** totalGlobalStock. */
  function GlobalStock(flavors: seq<Flavor>, movs: seq<Movement>): int
  {
    if flavors == [] then 0
    else GlobalStock(flavors[..|flavors| - 1], movs) + Stock(movs, flavors[|flavors| - 1].id)
  }

  /** The stock of the flavours filed under category `catId`. */
  function CategoryStock(flavors: seq<Flavor>, movs: seq<Movement>, catId: string): int
  {
    if flavors == [] then 0
    else
      var f := flavors[|flavors| - 1];
      CategoryStock(flavors[..|flavors| - 1], movs, catId) + (if f.categoryId == catId then Stock(movs, f.id) else 0)
  }

  /** totalByCategory: keyed by category name, so a later category with the
      same name overwrites an earlier one. */
  function ByCategory(cats: seq<Category>, flavors: seq<Flavor>, movs: seq<Movement>): (r: map<string, int>)
    ensures forall name :: name in r <==> exists c :: c in cats && c.name == name
    ensures |cats| > 0 ==> r[cats[|cats| - 1].name] == CategoryStock(flavors, movs, cats[|cats| - 1].id)
  {
    if cats == [] then map[]
    else
      var c := cats[|cats| - 1];
      var rest := ByCategory(cats[..|cats| - 1], flavors, movs);
      assert forall d :: d in cats <==> d in cats[..|cats| - 1] || d == c;
      rest[c.name := CategoryStock(flavors, movs, c.id)]
  }

  /** The last category leaves the entries of other names as they were. */
  lemma ByCategoryKeeps(cats: seq<Category>, flavors: seq<Flavor>, movs: seq<Movement>, k: nat)
    requires k < |cats| - 1 && cats[k].name != cats[|cats| - 1].name
    ensures var init := cats[..|cats| - 1];
      && cats[k].name in ByCategory(init, flavors, movs)
      && ByCategory(cats, flavors, movs)[cats[k].name] == ByCategory(init, flavors, movs)[cats[k].name]
  {
    var init := cats[..|cats| - 1];
    assert init[k] in init;
  }

  /** No two categories share a name. */
  predicate DistinctNames(cats: seq<Category>)
  {
    forall i, j :: 0 <= i < j < |cats| ==> cats[i].name != cats[j].name
  }

  /** Under distinct names, one category's entry is that category's stock. */
  lemma {:induction false} ByCategoryEntry(cats: seq<Category>, flavors: seq<Flavor>, movs: seq<Movement>, k: nat)
    requires DistinctNames(cats) && k < |cats|
    ensures ByCategory(cats, flavors, movs)[cats[k].name] == CategoryStock(flavors, movs, cats[k].id)
    decreases |cats|
  {
    if k < |cats| - 1 {
      var init := cats[..|cats| - 1];
      assert DistinctNames(init) by {
        forall i, j | 0 <= i < j < |init| ensures init[i].name != init[j].name {
          assert init[i] == cats[i] && init[j] == cats[j];
        }
      }
      ByCategoryKeeps(cats, flavors, movs, k);
      ByCategoryEntry(init, flavors, movs, k);
      assert init[k] == cats[k];
    }
  }

  /** Under distinct names, each category's entry is that category's stock. */
  lemma ByCategoryEntries(cats: seq<Category>, flavors: seq<Flavor>, movs: seq<Movement>)
    requires DistinctNames(cats)
    ensures forall k :: 0 <= k < |cats| ==> ByCategory(cats, flavors, movs)[cats[k].name] == CategoryStock(flavors, movs, cats[k].id)
  {
    forall k | 0 <= k < |cats|
      ensures ByCategory(cats, flavors, movs)[cats[k].name] == CategoryStock(flavors, movs, cats[k].id)
    {
      ByCategoryEntry(cats, flavors, movs, k);
    }
  }

  /** How many of the categories carry this id. */
  function IdCount(cats: seq<Category>, id: string): nat
  {
    if cats == [] then 0 else IdCount(cats[..|cats| - 1], id) + (if cats[|cats| - 1].id == id then 1 else 0)
  }

  /** The sum of the per-category stocks. */
  function CategoriesTotal(cats: seq<Category>, flavors: seq<Flavor>, movs: seq<Movement>): int
  {
    if cats == [] then 0
    else CategoriesTotal(cats[..|cats| - 1], flavors, movs) + CategoryStock(flavors, movs, cats[|cats| - 1].id)
  }

  lemma {:induction false} CategoriesTotalStep(cats: seq<Category>, flavors: seq<Flavor>, f: Flavor, movs: seq<Movement>)
    ensures CategoriesTotal(cats, flavors + [f], movs)
         == CategoriesTotal(cats, flavors, movs) + IdCount(cats, f.categoryId) * Stock(movs, f.id)
  {
    assert (flavors + [f])[..|flavors + [f]| - 1] == flavors;
    if cats != [] {
      var init, c := cats[..|cats| - 1], cats[|cats| - 1];
      var n := Stock(movs, f.id);
      CategoriesTotalStep(init, flavors, f, movs);
      assert CategoryStock(flavors + [f], movs, c.id)
          == CategoryStock(flavors, movs, c.id) + (if f.categoryId == c.id then n else 0);
      AddTimes(IdCount(init, f.categoryId), if c.id == f.categoryId then 1 else 0, n);
    }
  }

  lemma AddTimes(a: int, b: int, n: int)
    ensures (a + b) * n == a * n + b * n
  {
  }

  /** When every flavour's category id is carried by exactly one category,
      the per-category stocks add up to the global stock. */
  lemma {:induction false} CategoriesCoverGlobal(cats: seq<Category>, flavors: seq<Flavor>, movs: seq<Movement>)
    requires forall k :: 0 <= k < |flavors| ==> IdCount(cats, flavors[k].categoryId) == 1
    ensures CategoriesTotal(cats, flavors, movs) == GlobalStock(flavors, movs)
  {
    if flavors == [] {
      CategoriesTotalEmpty(cats, movs);
    } else {
      var init := flavors[..|flavors| - 1];
      var f := flavors[|flavors| - 1];
      CategoriesCoverGlobal(cats, init, movs);
      assert flavors == init + [f];
      CategoriesTotalStep(cats, init, f, movs);
    }
  }

  lemma {:induction false} CategoriesTotalEmpty(cats: seq<Category>, movs: seq<Movement>)
    ensures CategoriesTotal(cats, [], movs) == 0
  {
    if cats != [] {
      CategoriesTotalEmpty(cats[..|cats| - 1], movs);
    }
  }

  // ------------------------------------------------------------------
  // Money

  /** Whether totalMoneyGenerated counts a sale. */
  predicate Counted(s: Sale)
  {
    s.kind == Normal || s.kind == Descuento || s.total > 0.0
  }

  /** totalMoneyGenerated. */
  function MoneyGenerated(sales: seq<Sale>): real
  {
    if sales == [] then 0.0
    else
      var s := sales[|sales| - 1];
      MoneyGenerated(sales[..|sales| - 1]) + (if Counted(s) then s.total else 0.0)
  }

  function TotalSales(sales: seq<Sale>): real
  {
    if sales == [] then 0.0 else TotalSales(sales[..|sales| - 1]) + sales[|sales| - 1].total
  }

  /** Only non-positive donation totals are left out of the revenue, so
      with non-negative totals it is the sum of all sale totals. */
  lemma {:induction false} MoneyGeneratedAll(sales: seq<Sale>)
    requires forall k :: 0 <= k < |sales| ==> sales[k].total >= 0.0
    ensures MoneyGenerated(sales) == TotalSales(sales)
  {
    if sales != [] {
      MoneyGeneratedAll(sales[..|sales| - 1]);
    }
  }

  /** totalMoneyInStock. */
  function MoneyInStock(flavors: seq<Flavor>, movs: seq<Movement>): real
  {
    if flavors == [] then 0.0
    else
      var f := flavors[|flavors| - 1];
      MoneyInStock(flavors[..|flavors| - 1], movs) + Worth(f, movs)
  }

  /** One flavour's stock valued at its price. */
  function Worth(f: Flavor, movs: seq<Movement>): real
  {
    Stock(movs, f.id) as real * f.price
  }

  /** With no negative stock and no negative price the stock is worth at
      least nothing. */
  lemma {:induction false} MoneyInStockNonNegative(flavors: seq<Flavor>, movs: seq<Movement>)
    requires forall k :: 0 <= k < |flavors| ==> Stock(movs, flavors[k].id) >= 0 && flavors[k].price >= 0.0
    ensures MoneyInStock(flavors, movs) >= 0.0
  {
    if flavors != [] {
      var f := flavors[|flavors| - 1];
      MoneyInStockNonNegative(flavors[..|flavors| - 1], movs);
      NonNegativeProduct(Stock(movs, f.id) as real, f.price);
    }
  }

  lemma NonNegativeProduct(a: real, b: real)
    requires 0.0 <= a && 0.0 <= b
    ensures 0.0 <= a * b
  {
  }

  /** The stock value of two lists of flavours is the sum of their values. */
  lemma {:induction false} MoneyInStockAppend(a: seq<Flavor>, b: seq<Flavor>, movs: seq<Movement>)
    ensures MoneyInStock(a + b, movs) == MoneyInStock(a, movs) + MoneyInStock(b, movs)
  {
    if b != [] {
      var init, last := b[..|b| - 1], b[|b| - 1];
      assert (a + b)[..|a + b| - 1] == a + init;
      assert MoneyInStock(a + b, movs) == MoneyInStock(a + init, movs) + Worth(last, movs);
      assert MoneyInStock(b, movs) == MoneyInStock(init, movs) + Worth(last, movs);
      MoneyInStockAppend(a, init, movs);
    } else {
      assert a + b == a;
    }
  }

  // ------------------------------------------------------------------
  // Losses

  /** The sales whose loss formula divides by 1 - pct/100. */
  predicate DividesByShare(s: Sale)
  {
    s.kind == Descuento && !(s.fixedDiscount > 0.0)
  }

  /** One sale's contribution to totalDiscountLoss: its fixed discount, or
      the undiscounted amount reconstructed from the percentage minus the
      total; 0 for sales that are not "Descuento". */
  function SaleDiscountLoss(s: Sale): real
    requires DividesByShare(s) ==> s.discountPct != 100.0
  {
    if s.kind != Descuento then 0.0
    else if s.fixedDiscount > 0.0 then s.fixedDiscount
    else s.total / (1.0 - s.discountPct / 100.0) - s.total
  }

  lemma DivThenMul(x: real, q: real)
    requires q != 0.0
    ensures (x / q) * q == x
  {
  }

  lemma Cancel(x: real, y: real, q: real, m: real)
    requires q != 0.0 && x * q == m && y * q == m
    ensures x == y
  {
    assert (x - y) * q == x * q - y * q;
  }

  /** A percentage discount's loss is what was taken off the subtotal
      the total was computed from; a 0% discount loses nothing. */
  lemma SaleDiscountLossReconstructs(s: Sale, sub: real)
    requires DividesByShare(s) && s.discountPct != 100.0
    requires s.total == sub * (1.0 - s.discountPct / 100.0)
    ensures SaleDiscountLoss(s) == sub - s.total
    ensures s.discountPct == 0.0 ==> SaleDiscountLoss(s) == 0.0
  {
    var q := 1.0 - s.discountPct / 100.0;
    var orig := s.total / q;
    DivThenMul(s.total, q);
    Cancel(orig, sub, q, s.total);
  }

  predicate LossDefined(sales: seq<Sale>)
  {
    forall k :: 0 <= k < |sales| && DividesByShare(sales[k]) ==> sales[k].discountPct != 100.0
  }

  /** totalDiscountLoss. */
  function DiscountLoss(sales: seq<Sale>): real
    requires LossDefined(sales)
  {
    if sales == [] then 0.0
    else DiscountLoss(sales[..|sales| - 1]) + SaleDiscountLoss(sales[|sales| - 1])
  }

  /** Sales that are not "Descuento" add nothing to the discount loss. */
  lemma {:induction false} DiscountLossWithoutDiscounts(sales: seq<Sale>)
    requires forall k :: 0 <= k < |sales| ==> sales[k].kind != Descuento
    ensures LossDefined(sales) && DiscountLoss(sales) == 0.0
  {
    if sales != [] {
      DiscountLossWithoutDiscounts(sales[..|sales| - 1]);
    }
  }

  /** One sale's contribution to totalDonationLoss: the subtotals of its
      details when it is a donation. */
  function SaleDonationLoss(s: Sale, details: seq<Detail>): real
  {
    if s.kind == Donacion then SubtotalSum(DetailsOf(details, s.id)) else 0.0
  }

  /** totalDonationLoss. */
  function DonationLoss(sales: seq<Sale>, details: seq<Detail>): real
  {
    if sales == [] then 0.0
    else DonationLoss(sales[..|sales| - 1], details) + SaleDonationLoss(sales[|sales| - 1], details)
  }

  /** totalLoss. */
  function TotalLoss(sales: seq<Sale>, details: seq<Detail>): real
    requires LossDefined(sales)
  {
    DiscountLoss(sales) + DonationLoss(sales, details)
  }

  /** A sale whose recorded discount is sane: a positive fixed amount, or a
      percentage in [0, 100) on a non-negative total. */
  predicate SaneDiscount(s: Sale)
  {
    s.kind == Descuento ==> s.fixedDiscount > 0.0 || (0.0 <= s.discountPct < 100.0 && s.total >= 0.0)
  }

  lemma SaleDiscountLossNonNegative(s: Sale)
    requires SaneDiscount(s) && (DividesByShare(s) ==> s.discountPct != 100.0)
    ensures SaleDiscountLoss(s) >= 0.0
  {
    if DividesByShare(s) {
      var q := 1.0 - s.discountPct / 100.0;
      var orig := s.total / q;
      assert 0.0 < q <= 1.0;
      DivThenMul(s.total, q);
      NonNegativeQuotient(s.total, q);
      assert orig - s.total == orig * (1.0 - q);
      NonNegativeProduct(orig, 1.0 - q);
    }
  }

  lemma NonNegativeQuotient(x: real, q: real)
    requires 0.0 <= x && 0.0 < q
    ensures 0.0 <= x / q
  {
  }

  lemma {:induction false} SubtotalSumNonNegative(dets: seq<Detail>)
    requires forall k :: 0 <= k < |dets| ==> dets[k].subtotal >= 0.0
    ensures SubtotalSum(dets) >= 0.0
  {
    if dets != [] {
      SubtotalSumNonNegative(dets[..|dets| - 1]);
    }
  }

  /** With sane discounts and non-negative subtotals the total loss is
      never negative. */
  lemma {:induction false} TotalLossNonNegative(sales: seq<Sale>, details: seq<Detail>)
    requires LossDefined(sales)
    requires forall k :: 0 <= k < |sales| ==> SaneDiscount(sales[k])
    requires forall k :: 0 <= k < |details| ==> details[k].subtotal >= 0.0
    ensures DiscountLoss(sales) >= 0.0 && DonationLoss(sales, details) >= 0.0
    ensures TotalLoss(sales, details) >= 0.0
  {
    if sales != [] {
      var init := sales[..|sales| - 1];
      var s := sales[|sales| - 1];
      assert LossDefined(init) by {
        forall k | 0 <= k < |init| && DividesByShare(init[k]) ensures init[k].discountPct != 100.0 {
          assert init[k] == sales[k];
        }
      }
      TotalLossNonNegative(init, details);
      SaleDiscountLossNonNegative(s);
      var own := DetailsOf(details, s.id);
      forall k | 0 <= k < |own| ensures own[k].subtotal >= 0.0 {
        assert own[k] in details;
      }
      SubtotalSumNonNegative(own);
    }
  }

  // ------------------------------------------------------------------
  // Sales history rows

  /** A row's `original`: the sum of the sale's detail subtotals. */
  function RowOriginal(s: Sale, details: seq<Detail>): real
  {
    SubtotalSum(DetailsOf(details, s.id))
  }

  /** A row's `discountAmt`: for a "Descuento" sale its fixed amount when
      that is not 0, otherwise the percentage of the original; 0 for other
      sales. */
  function RowDiscount(s: Sale, original: real): (r: real)
    ensures s.kind != Descuento ==> r == 0.0
    ensures s.kind == Descuento && s.fixedDiscount != 0.0 ==> r == s.fixedDiscount
    ensures s.kind == Descuento && s.fixedDiscount == 0.0 ==> r * 100.0 == original * s.discountPct
  {
    if s.kind != Descuento then 0.0
    else if s.fixedDiscount != 0.0 then s.fixedDiscount
    else original * s.discountPct / 100.0
  }

  /** The row's discount agrees with the sale's contribution to the
      discount loss when the total is the original less the row's
      discount. */
  lemma RowDiscountMatchesLoss(s: Sale, original: real)
    requires s.kind == Descuento && (s.fixedDiscount > 0.0 || (s.fixedDiscount == 0.0 && s.discountPct != 100.0))
    requires s.fixedDiscount == 0.0 ==> s.total == original * (1.0 - s.discountPct / 100.0)
    ensures RowDiscount(s, original) == SaleDiscountLoss(s)
  {
    if s.fixedDiscount == 0.0 {
      SaleDiscountLossReconstructs(s, original);
      assert original - original * (1.0 - s.discountPct / 100.0) == original * s.discountPct / 100.0;
    }
  }

  /** A row's user name: the name of the first user with the sale's user
      id, "Desconocido" when there is none, when the name is empty, or when
      the sale records no user. */
  function RowUserName(users: seq<User>, uid: Option<string>): (name: string)
    ensures uid.None? ==> name == "Desconocido"
    ensures forall i :: 0 <= i < |users| && Some(users[i].id) == uid && (forall j :: 0 <= j < i ==> Some(users[j].id) != uid) ==>
      name == if users[i].name != "" then users[i].name else "Desconocido"
    ensures (forall i :: 0 <= i < |users| ==> Some(users[i].id) != uid) ==> name == "Desconocido"
  {
    if users == [] then "Desconocido"
    else if Some(users[0].id) == uid then (if users[0].name != "" then users[0].name else "Desconocido")
    else RowUserName(users[1..], uid)
  }
}
