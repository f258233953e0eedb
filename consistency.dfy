/** How the screens see each other's writes. Every screen reads the same
    movement ledger, but each applies its own sign rule: the checkout
    subtracts kinds starting with "Salida", the catalogue adds only kinds
    exactly "Entrada", the reports add kinds starting with "Entrada". These
    lemmas state where the rules agree and where they do not, and what a
    committed sale does to the figures the other screens show. */
module Consistency {
  import opened Js
  import opened Records
  import Ledger
  import Pos
  import Flavors
  import Reports
  import Trends

  // ------------------------------------------------------------------
  // Catalogue adjustments

  /** How each sign rule reads the kinds the screens write. */
  lemma KindsRead()
    ensures StartsWith("Entrada", "Entrada") && !StartsWith("Entrada", "Salida")
    ensures StartsWith(SaleKindText, "Salida") && !StartsWith(SaleKindText, "Entrada") && SaleKindText != "Entrada"
    ensures !StartsWith("Ajuste", "Salida") && !StartsWith("Ajuste", "Entrada") && "Ajuste" != "Entrada"
  {
    FirstCharDiffers("Entrada", "Salida");
    FirstCharDiffers(SaleKindText, "Entrada");
    FirstCharDiffers("Ajuste", "Salida");
    FirstCharDiffers("Ajuste", "Entrada");
  }

  /** The kind of the movement a sale writes per line. */
  const SaleKindText: string := "Salida automática por venta"

  /** An edit's movement is an "Entrada" of the difference up, or a
      "Salida automática por venta" of the difference down. */
  lemma AdjustmentKind(id: string, stock: int, target: int)
    ensures var m := Flavors.Adjustment(id, stock, target);
      m.Some? ==> (
        && m.value.flavorId == id && m.value.qty == Flavors.Abs(target - stock)
        && (target > stock ==> m.value.kind == "Entrada")
        && (target < stock ==> m.value.kind == SaleKindText))
  {
  }

  /** The movement an edit writes moves the stock by the same amount under
      all three sign rules, so the other screens see the same change the
      catalogue made. */
  lemma AdjustmentSameEverywhere(movs: seq<Movement>, id: string, target: int)
    ensures var stock := Flavors.Stock(movs, id);
      var m := Flavors.AsSeq(Flavors.Adjustment(id, stock, target));
      && Flavors.Stock(movs + m, id) == target
      && Pos.Stock(movs + m, id) == Pos.Stock(movs, id) + (target - stock)
      && Reports.Stock(movs + m, id) == Reports.Stock(movs, id) + (target - stock)
  {
    var stock := Flavors.Stock(movs, id);
    var adj := Flavors.Adjustment(id, stock, target);
    Flavors.AdjustmentReachesTarget(movs, id, target);
    AdjustmentKind(id, stock, target);
    KindsRead();
    if adj.Some? {
      Pos.StockStep(movs, adj.value, id);
      Reports.StockStep(movs, adj.value, id);
    } else {
      assert movs + [] == movs;
    }
  }

  // ------------------------------------------------------------------
  // Inventory adjustments

  /** An "Ajuste" movement written from the inventory screen adds its
      quantity at the checkout but subtracts it in the catalogue and the
      reports, so a non-zero adjustment moves the screens apart. */
  lemma AjusteDisagrees(movs: seq<Movement>, m: Movement)
    requires m.kind == "Ajuste"
    ensures Pos.Stock(movs + [m], m.flavorId) == Pos.Stock(movs, m.flavorId) + m.qty
    ensures Flavors.Stock(movs + [m], m.flavorId) == Flavors.Stock(movs, m.flavorId) - m.qty
    ensures Reports.Stock(movs + [m], m.flavorId) == Reports.Stock(movs, m.flavorId) - m.qty
  {
    Pos.StockStep(movs, m, m.flavorId);
    Flavors.StockStep(movs, m, m.flavorId);
    Reports.StockStep(movs, m, m.flavorId);
    KindsRead();
  }

  // ------------------------------------------------------------------
  // Sale movements

  /** The units of flavour `id` over all the ticket's lines. */
  function SoldOf(t: seq<Pos.Line>, id: string): int
  {
    if t == [] then 0
    else SoldOf(t[..|t| - 1], id) + (if t[|t| - 1].flavorId == id then t[|t| - 1].qty else 0)
  }

  /** With one line per flavour, the units sold are that line's quantity. */
  lemma {:induction false} SoldOfUnique(t: seq<Pos.Line>, id: string)
    requires Pos.UniqueLines(t)
    ensures SoldOf(t, id) == Pos.QtyOf(t, id)
  {
    if t != [] {
      var init := t[..|t| - 1];
      var last := t[|t| - 1];
      assert Pos.UniqueLines(init);
      SoldOfUnique(init, id);
      var i := Pos.FindLine(t, id);
      var j := Pos.FindLine(init, id);
      if last.flavorId == id {
        assert forall k :: 0 <= k < |init| ==> init[k].flavorId != id;
        assert j == -1;
        assert i == |t| - 1;
      } else {
        assert i == j;
      }
    }
  }

  /** The sale movements of a ticket move the stock of `id`, under a sign
      rule that reads each of them as +qty, up by the units sold. */
  lemma {:induction false} SaleMovementsUnder(movs: seq<Movement>, saleId: string, t: seq<Pos.Line>, id: string,
                                              delta: Movement -> int)
    requires forall k :: 0 <= k < |t| ==> delta(Pos.SaleMovement(saleId, t[k])) == t[k].qty
    ensures Ledger.Projection(movs + Pos.SaleMovements(saleId, t), id, delta)
         == Ledger.Projection(movs, id, delta) + SoldOf(t, id)
  {
    if t != [] {
      var init := t[..|t| - 1];
      var last := t[|t| - 1];
      SaleMovementsUnder(movs, saleId, init, id, delta);
      assert movs + Pos.SaleMovements(saleId, t)
          == (movs + Pos.SaleMovements(saleId, init)) + [Pos.SaleMovement(saleId, last)];
      Ledger.ProjectionStep(movs + Pos.SaleMovements(saleId, init), Pos.SaleMovement(saleId, last), id, delta);
    } else {
      assert movs + [] == movs;
    }
  }

  /** A committed sale writes "Salida automática por venta" with quantity
      -qty per line. The checkout negates "Salida…" quantities and the other
      two screens negate everything but "Entrada", so all three read +qty:
      the stock of every sold flavour rises by the units sold instead of
      falling. */
  lemma SaleRaisesStock(movs: seq<Movement>, saleId: string, t: seq<Pos.Line>, id: string)
    requires Pos.UniqueLines(t)
    ensures var after := movs + Pos.SaleMovements(saleId, t);
      && Pos.Stock(after, id) == Pos.Stock(movs, id) + Pos.QtyOf(t, id)
      && Flavors.Stock(after, id) == Flavors.Stock(movs, id) + Pos.QtyOf(t, id)
      && Reports.Stock(after, id) == Reports.Stock(movs, id) + Pos.QtyOf(t, id)
  {
    KindsRead();
    SaleMovementsUnder(movs, saleId, t, id, Pos.Delta);
    SaleMovementsUnder(movs, saleId, t, id, Flavors.Delta);
    SaleMovementsUnder(movs, saleId, t, id, Reports.Delta);
    SoldOfUnique(t, id);
  }

  /** Whatever the ledger: a flavour the screens show with five units, of
      which two are sold, is then shown with seven. */
  lemma SaleExample(movs: seq<Movement>, saleId: string, id: string, name: string, price: real)
    requires Pos.Stock(movs, id) == 5 && Flavors.Stock(movs, id) == 5 && Reports.Stock(movs, id) == 5
    ensures var after := movs + Pos.SaleMovements(saleId, [Pos.Line(id, name, 2, price, 2.0 * price)]);
      && Pos.Stock(after, id) == 7
      && Flavors.Stock(after, id) == 7
      && Reports.Stock(after, id) == 7
  {
    var t := [Pos.Line(id, name, 2, price, 2.0 * price)];
    SaleRaisesStock(movs, saleId, t, id);
    assert Pos.FindLine(t, id) == 0;
  }

  // ------------------------------------------------------------------
  // What the reports make of a committed sale

  /** The details a commit writes are exactly what the reports read back
      for that sale, and their sum is the ticket's subtotal, provided no
      earlier detail carries the new sale's id. The sequence equality is in
      the store's write order; the multiset equality holds in whatever
      order the database returns them. */
  lemma CommitDetailsReadBack(details: seq<Detail>, s: Sale, t: seq<Pos.Line>)
    requires forall k :: 0 <= k < |details| ==> details[k].saleId != s.id
    ensures DetailsOf(details + Pos.SaleDetails(s.id, t), s.id) == Pos.SaleDetails(s.id, t)
    ensures multiset(DetailsOf(details + Pos.SaleDetails(s.id, t), s.id)) == multiset(Pos.SaleDetails(s.id, t))
    ensures Reports.RowOriginal(s, details + Pos.SaleDetails(s.id, t)) == Pos.Subtotal(t)
  {
    DetailsOfAppend(details, Pos.SaleDetails(s.id, t), s.id);
    DetailsOfNone(details, s.id);
    DetailsOfOwn(Pos.SaleDetails(s.id, t), s.id);
    SubtotalOfDetails(s.id, t);
  }

  lemma {:induction false} DetailsOfNone(details: seq<Detail>, saleId: string)
    requires forall k :: 0 <= k < |details| ==> details[k].saleId != saleId
    ensures DetailsOf(details, saleId) == []
  {
    if details != [] {
      DetailsOfNone(details[..|details| - 1], saleId);
    }
  }

  lemma {:induction false} DetailsOfOwn(details: seq<Detail>, saleId: string)
    requires forall k :: 0 <= k < |details| ==> details[k].saleId == saleId
    ensures DetailsOf(details, saleId) == details
  {
    if details != [] {
      DetailsOfOwn(details[..|details| - 1], saleId);
      assert details == details[..|details| - 1] + [details[|details| - 1]];
    }
  }

  lemma {:induction false} SubtotalOfDetails(saleId: string, t: seq<Pos.Line>)
    ensures SubtotalSum(Pos.SaleDetails(saleId, t)) == Pos.Subtotal(t)
  {
    if t != [] {
      SubtotalOfDetails(saleId, t[..|t| - 1]);
    }
  }

  /** Details of another sale do not change an earlier sale's donation loss. */
  lemma {:induction false} DonationLossIgnoresOthers(sales: seq<Sale>, details: seq<Detail>, extra: seq<Detail>, saleId: string)
    requires forall k :: 0 <= k < |sales| ==> sales[k].id != saleId
    requires forall k :: 0 <= k < |extra| ==> extra[k].saleId == saleId
    ensures Reports.DonationLoss(sales, details + extra) == Reports.DonationLoss(sales, details)
  {
    if sales != [] {
      var s := sales[|sales| - 1];
      DonationLossIgnoresOthers(sales[..|sales| - 1], details, extra, saleId);
      DetailsOfAppend(details, extra, s.id);
      forall k | 0 <= k < |extra| ensures extra[k].saleId != s.id {
      }
      DetailsOfNone(extra, s.id);
      assert DetailsOf(details, s.id) + [] == DetailsOf(details, s.id);
    }
  }

  /** Committing a donation under a new sale id raises the reports'
      donation loss by the ticket's subtotal, whatever was received. */
  lemma CommitDonationLoss(sales: seq<Sale>, details: seq<Detail>, saleId: string, t: seq<Pos.Line>,
                           d: Pos.PaymentDetails, now: int)
    requires forall k :: 0 <= k < |sales| ==> sales[k].id != saleId
    requires forall k :: 0 <= k < |details| ==> details[k].saleId != saleId
    ensures var s := Pos.SaleHeader(saleId, Donacion, d, now);
      Reports.DonationLoss(sales + [s], details + Pos.SaleDetails(saleId, t))
        == Reports.DonationLoss(sales, details) + Pos.Subtotal(t)
  {
    var s := Pos.SaleHeader(saleId, Donacion, d, now);
    var extra := Pos.SaleDetails(saleId, t);
    assert (sales + [s])[..|sales + [s]| - 1] == sales;
    DonationLossIgnoresOthers(sales, details, extra, saleId);
    CommitDetailsReadBack(details, s, t);
  }

  /** For a discount sale committed with the terms the discount dialog
      computed, the history row's discount and the reports' discount loss
      are the same amount, and it is what was taken off the subtotal. */
  lemma CommitDiscountAgrees(saleId: string, sub: real, fix: Option<real>, pct: real, received: real, now: int)
    requires sub >= 0.0
    requires fix.Some? ==> 0.0 < fix.value <= sub
    requires fix.None? ==> 0.0 <= pct < 100.0
    ensures var s := Pos.SaleHeader(saleId, Descuento, Pos.DiscountTerms(sub, fix, pct, received), now);
      && (Reports.DividesByShare(s) ==> s.discountPct != 100.0)
      && Reports.RowDiscount(s, sub) == Reports.SaleDiscountLoss(s)
      && Reports.SaleDiscountLoss(s) == sub - s.total
  {
    var d := Pos.DiscountTerms(sub, fix, pct, received);
    var s := Pos.SaleHeader(saleId, Descuento, d, now);
    if fix.None? {
      var q := 1.0 - pct / 100.0;
      assert q > 0.0;
      assert sub * q >= 0.0;
      assert s.total == sub * q;
      Reports.RowDiscountMatchesLoss(s, sub);
      Reports.SaleDiscountLossReconstructs(s, sub);
    }
  }

  /** No sale the checkout writes names a user, so the trends screen's
      best seller stays "N/A" while every sale comes from the checkout. */
  lemma CheckoutSalesHaveNoUser(sales: seq<Sale>, users: seq<User>)
    requires forall k :: 0 <= k < |sales| ==> sales[k].userId.None?
    ensures Trends.UserItems(sales) == []
  {
    assert forall k :: 0 <= k < |sales| ==> !Trends.HasUser(sales[k]);
  }
}
