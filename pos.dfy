/** The point-of-sale screen: stock as this screen computes it, the ticket
    and its updaters, the totals with the discount rule, the payment numpad,
    and the checkout session that commits a sale. */
module Pos {
  import opened Js
  import opened Records
  import Ledger

  // ------------------------------------------------------------------
  // Stock

  /** This screen's sign rule: a kind starting with "Salida" subtracts its
      quantity, every other kind (including "Ajuste") adds it. */
  function Delta(m: Movement): int
  {
    if StartsWith(m.kind, "Salida") then -m.qty else m.qty
  }

  /** getInventoryForProduct. */
  function Stock(movs: seq<Movement>, id: string): int
  {
    Ledger.Projection(movs, id, Delta)
  }

  /** Stock moves by -qty for a "Salida…" movement of this flavour, by +qty
      for any other movement of this flavour, and not for other flavours. */
  lemma StockStep(movs: seq<Movement>, m: Movement, id: string)
    ensures Stock(movs + [m], id) == Stock(movs, id)
      + (if m.flavorId != id then 0 else if StartsWith(m.kind, "Salida") then -m.qty else m.qty)
  {
    Ledger.ProjectionStep(movs, m, id, Delta);
  }

  /** `products.filter(p => p.Activo && stock(p) > 0)`. */
  function Available(products: seq<Flavor>, movs: seq<Movement>): (r: seq<Flavor>)
    ensures forall p :: p in r <==> p in products && p.active && Stock(movs, p.id) > 0
  {
    if products == [] then []
    else
      var p := products[0];
      (if p.active && Stock(movs, p.id) > 0 then [p] else []) + Available(products[1..], movs)
  }

  function InCategory(ps: seq<Flavor>, catId: string): (r: seq<Flavor>)
    ensures forall p :: p in r <==> p in ps && p.categoryId == catId
  {
    if ps == [] then []
    else (if ps[0].categoryId == catId then [ps[0]] else []) + InCategory(ps[1..], catId)
  }

  /** groupedProducts: for each category in order, its available products,
      keeping only the categories that have some. */
  function Grouped(cats: seq<Category>, available: seq<Flavor>): (r: seq<(string, seq<Flavor>)>)
    ensures forall g :: g in r ==> g.1 != [] && forall p :: p in g.1 <==> p in available && p.categoryId == g.0
    ensures forall p, c :: p in available && c in cats && c.id == p.categoryId ==>
      exists g :: g in r && g.0 == c.id && p in g.1
  {
    if cats == [] then []
    else
      var prods := InCategory(available, cats[0].id);
      var rest := Grouped(cats[1..], available);
      assert forall c :: c in cats ==> c == cats[0] || c in cats[1..];
      if prods != [] then [(cats[0].id, prods)] + rest else rest
  }

  // ------------------------------------------------------------------
  // Ticket

  /** A ticket line; the unit price is taken from the product when the
      line is created. */
  datatype Line = Line(flavorId: string, name: string, qty: int, unitPrice: real, subtotal: real)

  /** `ticket.findIndex(i => i.ID_Sabor === id)`. */
  function FindLine(t: seq<Line>, id: string): (i: int)
    ensures -1 <= i < |t|
    ensures 0 <= i ==> t[i].flavorId == id
    ensures forall j :: 0 <= j < |t| && (i < 0 || j < i) ==> t[j].flavorId != id
  {
    if t == [] then -1
    else if t[0].flavorId == id then 0
    else
      var k := FindLine(t[1..], id);
      if k < 0 then -1 else k + 1
  }

  /** At most one line per flavour. */
  predicate UniqueLines(t: seq<Line>)
  {
    forall i, j :: 0 <= i < j < |t| ==> t[i].flavorId != t[j].flavorId
  }

  /** The quantity of flavour `id` on the ticket (0 when it has no line). */
  function QtyOf(t: seq<Line>, id: string): int
  {
    var i := FindLine(t, id);
    if i < 0 then 0 else t[i].qty
  }

  /** `cantidad * precio`: what a quantity of units costs. */
  function Amount(qty: int, price: real): real
  {
    qty as real * price
  }

  /** A line's subtotal is its quantity times its unit price. */
  predicate Priced(l: Line)
  {
    l.subtotal == Amount(l.qty, l.unitPrice)
  }

  /** addToTicket's updater, with `stock` the stock computed when the
      product was clicked. */
  function AddToTicket(t: seq<Line>, p: Flavor, stock: int): (r: seq<Line>)
    ensures |r| == |t| || r == t + [Line(p.id, p.name, 1, p.price, p.price)]
    ensures forall j :: 0 <= j < |t| && t[j].flavorId != p.id ==> r[j] == t[j]
  {
    var i := FindLine(t, p.id);
    if 0 <= i then
      var q := t[i].qty + 1;
      if q > stock then t else t[i := t[i].(qty := q, subtotal := Amount(q, p.price))]
    else if stock <= 0 then t
    else t + [Line(p.id, p.name, 1, p.price, p.price)]
  }

  /** addToTicket accepts exactly when one more unit fits in the stock; an
      accepted add raises this flavour's quantity by one, to at most the
      stock, appending a fresh line at the end when it had none, and leaves
      every other flavour's quantity alone. */
  lemma AddToTicketOutcome(t: seq<Line>, p: Flavor, stock: int)
    ensures var r := AddToTicket(t, p, stock);
      && (r != t <==> QtyOf(t, p.id) + 1 <= stock)
      && (r != t ==> QtyOf(r, p.id) == QtyOf(t, p.id) + 1 <= stock)
      && (r != t && FindLine(t, p.id) < 0 ==> r == t + [Line(p.id, p.name, 1, p.price, p.price)])
      && (forall id :: id != p.id ==> QtyOf(r, id) == QtyOf(t, id))
  {
    var r := AddToTicket(t, p, stock);
    var i := FindLine(t, p.id);
    if 0 <= i && t[i].qty + 1 <= stock {
      assert r[i].qty != t[i].qty;
      FindLineUpdate(t, i, r[i]);
    } else if i < 0 && stock > 0 {
      assert |r| != |t|;
      FindLineAppend(t, r[|t|]);
    }
  }

  /** FindLine is characterised by its contract: any index that is a first
      match (or -1 when nothing matches) is the one it returns. */
  lemma {:induction false} FindLineIs(t: seq<Line>, id: string, i: int)
    requires -1 <= i < |t|
    requires 0 <= i ==> t[i].flavorId == id
    requires forall j :: 0 <= j < |t| && (i < 0 || j < i) ==> t[j].flavorId != id
    ensures FindLine(t, id) == i
  {
    if t != [] && t[0].flavorId != id {
      var i' := if i < 0 then -1 else i - 1;
      forall j | 0 <= j < |t[1..]| && (i' < 0 || j < i') ensures t[1..][j].flavorId != id {
        assert t[1..][j] == t[j + 1];
      }
      FindLineIs(t[1..], id, i');
    }
  }

  lemma FindLineUpdate(t: seq<Line>, i: nat, l: Line)
    requires i < |t| && l.flavorId == t[i].flavorId
    ensures forall id :: FindLine(t[i := l], id) == FindLine(t, id)
  {
    forall id ensures FindLine(t[i := l], id) == FindLine(t, id) {
      FindLineIs(t[i := l], id, FindLine(t, id));
    }
  }

  lemma FindLineAppend(t: seq<Line>, l: Line)
    requires FindLine(t, l.flavorId) < 0
    ensures FindLine(t + [l], l.flavorId) == |t|
    ensures forall id :: id != l.flavorId ==> FindLine(t + [l], id) == FindLine(t, id)
  {
    FindLineIs(t + [l], l.flavorId, |t|);
    forall id | id != l.flavorId ensures FindLine(t + [l], id) == FindLine(t, id) {
      FindLineIs(t + [l], id, FindLine(t, id));
    }
  }

  lemma AddToTicketKeepsUnique(t: seq<Line>, p: Flavor, stock: int)
    requires UniqueLines(t)
    ensures UniqueLines(AddToTicket(t, p, stock))
  {
  }

  /** An accepted add to an existing line raises its quantity by one and
      reprices it. */
  lemma AddToTicketExisting(t: seq<Line>, p: Flavor, stock: int)
    requires 0 <= FindLine(t, p.id) && QtyOf(t, p.id) + 1 <= stock
    ensures var i := FindLine(t, p.id);
      var q := t[i].qty + 1;
      AddToTicket(t, p, stock) == t[i := t[i].(qty := q, subtotal := Amount(q, p.price))]
  {
  }

  /** One more unit costs one more price. */
  lemma OneMoreUnit(n: int, price: real)
    ensures Amount(n + 1, price) == Amount(n, price) + price
  {
  }

  /** Adding a unit of a product whose existing line is priced at the
      product's price raises the subtotal by exactly that price. */
  lemma AddToTicketSubtotal(t: seq<Line>, p: Flavor, stock: int)
    requires var i := FindLine(t, p.id); 0 <= i ==> t[i].unitPrice == p.price && Priced(t[i])
    requires QtyOf(t, p.id) + 1 <= stock
    ensures Subtotal(AddToTicket(t, p, stock)) == Subtotal(t) + p.price
  {
    var i := FindLine(t, p.id);
    if 0 <= i {
      var q := t[i].qty + 1;
      var l := t[i].(qty := q, subtotal := Amount(q, p.price));
      AddToTicketExisting(t, p, stock);
      SubtotalUpdate(t, i, l);
      OneMoreUnit(t[i].qty, p.price);
    } else {
      var l := Line(p.id, p.name, 1, p.price, p.price);
      assert AddToTicket(t, p, stock) == t + [l];
      SubtotalAppend(t, [l]);
      assert Subtotal([l]) == Subtotal([]) + l.subtotal;
    }
  }

  /** The lines of `t` whose flavour is `id`, with quantity q and the
      subtotal recomputed from their own unit price. */
  function SetLines(t: seq<Line>, id: string, q: int): (r: seq<Line>)
    ensures |r| == |t|
    ensures forall j :: 0 <= j < |t| ==>
      r[j] == if t[j].flavorId == id then t[j].(qty := q, subtotal := Amount(q, t[j].unitPrice)) else t[j]
  {
    if t == [] then []
    else
      var l := t[0];
      [if l.flavorId == id then l.(qty := q, subtotal := Amount(q, l.unitPrice)) else l] + SetLines(t[1..], id, q)
  }

  /** removeTicketItem's updater, `ticket.filter(i => i.ID_Sabor !== id)`. */
  function RemoveLines(t: seq<Line>, id: string): (r: seq<Line>)
    ensures |r| <= |t|
    ensures forall l :: l in r <==> l in t && l.flavorId != id
  {
    if t == [] then []
    else (if t[0].flavorId == id then [] else [t[0]]) + RemoveLines(t[1..], id)
  }

  /** Removing keeps the other lines in their order. */
  lemma {:induction false} RemoveLinesAppend(a: seq<Line>, b: seq<Line>, id: string)
    ensures RemoveLines(a + b, id) == RemoveLines(a, id) + RemoveLines(b, id)
  {
    if a != [] {
      assert (a + b)[1..] == a[1..] + b;
      RemoveLinesAppend(a[1..], b, id);
    } else {
      assert a + b == b;
    }
  }

  lemma {:induction false} RemoveLinesAbsent(t: seq<Line>, id: string)
    requires FindLine(t, id) < 0
    ensures RemoveLines(t, id) == t
  {
    if t != [] {
      RemoveLinesAbsent(t[1..], id);
    }
  }

  /** updateTicketItemQuantity: a quantity of 0 or less removes the
      flavour's lines, one above the stock is refused, otherwise every line
      of the flavour takes the new quantity. */
  function SetQuantity(t: seq<Line>, id: string, q: int, stock: int): (r: seq<Line>)
    ensures q <= 0 ==> r == RemoveLines(t, id)
    ensures 0 < q && stock < q ==> r == t
    ensures 0 < q <= stock ==> r == SetLines(t, id, q)
  {
    if q <= 0 then RemoveLines(t, id)
    else if q > stock then t
    else SetLines(t, id, q)
  }

  /** After an accepted update the flavour's quantity is the requested one,
      within the stock; removal leaves no line of it; other flavours keep
      their quantities; the ticket stays one line per flavour. */
  lemma SetQuantityOutcome(t: seq<Line>, id: string, q: int, stock: int)
    requires UniqueLines(t)
    ensures var r := SetQuantity(t, id, q, stock);
      && UniqueLines(r)
      && (q <= 0 ==> QtyOf(r, id) == 0 && FindLine(r, id) < 0)
      && (0 < q <= stock && FindLine(t, id) >= 0 ==> QtyOf(r, id) == q <= stock)
      && (forall id' :: id' != id ==> QtyOf(r, id') == QtyOf(t, id'))
  {
    var r := SetQuantity(t, id, q, stock);
    if q <= 0 {
      RemoveLinesUnique(t, id);
      forall id' | id' != id ensures QtyOf(r, id') == QtyOf(t, id') {
        RemoveLinesFind(t, id, id');
      }
    } else if q <= stock {
      forall id' ensures FindLine(r, id') == FindLine(t, id') {
        FindLineIs(r, id', FindLine(t, id'));
      }
    }
  }

  lemma RemoveLinesUnique(t: seq<Line>, id: string)
    requires UniqueLines(t)
    ensures UniqueLines(RemoveLines(t, id))
    ensures FindLine(RemoveLines(t, id), id) < 0
  {
    var r := RemoveLines(t, id);
    if t != [] {
      RemoveLinesUnique(t[1..], id);
      var rest := RemoveLines(t[1..], id);
      forall j | 0 <= j < |rest| ensures rest[j].flavorId != t[0].flavorId {
        assert rest[j] in t[1..];
      }
    }
  }

  lemma {:induction false} RemoveLinesFind(t: seq<Line>, id: string, id': string)
    requires id' != id
    ensures QtyOf(RemoveLines(t, id), id') == QtyOf(t, id')
  {
    if t != [] {
      RemoveLinesFind(t[1..], id, id');
      var rest := RemoveLines(t[1..], id);
      if t[0].flavorId == id {
        assert RemoveLines(t, id) == rest;
      } else {
        assert RemoveLines(t, id) == [t[0]] + rest;
        assert ([t[0]] + rest)[1..] == rest;
      }
    }
  }

  /** calculateSubtotal: the sum of the line subtotals. */
  function Subtotal(t: seq<Line>): real
  {
    if t == [] then 0.0 else Subtotal(t[..|t| - 1]) + t[|t| - 1].subtotal
  }

  lemma {:induction false} SubtotalAppend(a: seq<Line>, b: seq<Line>)
    ensures Subtotal(a + b) == Subtotal(a) + Subtotal(b)
  {
    if b != [] {
      assert (a + b)[..|a + b| - 1] == a + b[..|b| - 1];
      SubtotalAppend(a, b[..|b| - 1]);
    } else {
      assert a + b == a;
    }
  }

  /** Replacing one line changes the subtotal by the difference of the two
      lines' subtotals. */
  lemma SubtotalUpdate(t: seq<Line>, i: nat, l: Line)
    requires i < |t|
    ensures Subtotal(t[i := l]) == Subtotal(t) - t[i].subtotal + l.subtotal
  {
    assert t == t[..i] + [t[i]] + t[i + 1..];
    assert t[i := l] == t[..i] + [l] + t[i + 1..];
    SubtotalAppend(t[..i] + [t[i]], t[i + 1..]);
    SubtotalAppend(t[..i] + [l], t[i + 1..]);
    SubtotalAppend(t[..i], [t[i]]);
    SubtotalAppend(t[..i], [l]);
    assert Subtotal([l]) == Subtotal([]) + l.subtotal;
    assert Subtotal([t[i]]) == Subtotal([]) + t[i].subtotal;
  }

  // ------------------------------------------------------------------
  // Totals and discounts

  /** `manualFixedDiscount && parseFloat(manualFixedDiscount) > 0`, with the
      amount when it holds. */
  function FixedDiscount(text: string): (r: Option<real>)
    ensures r.Some? <==> text != "" && ParseFloat(text).Finite? && ParseFloat(text).value > 0.0
    ensures r.Some? ==> r.value > 0.0 && r.value == ParseFloat(text).value
  {
    if text != "" && ParseFloat(text).Finite? && ParseFloat(text).value > 0.0
    then Some(ParseFloat(text).value) else None
  }

  /** Math.max(0, x). */
  function Max0(x: real): (r: real)
    ensures r >= 0.0 && r >= x && (r == x || r == 0.0)
  {
    if x > 0.0 then x else 0.0
  }

  /** The discounted amount: a positive fixed discount takes precedence
      over a positive percentage, and the result is floored at 0. */
  function Discounted(sub: real, fix: Option<real>, pct: real): (r: real)
    ensures fix.None? && pct <= 0.0 ==> r == sub
    ensures fix.Some? || pct > 0.0 ==> r >= 0.0
  {
    match fix
    case Some(f) => Max0(sub - f)
    case None => if pct > 0.0 then Max0(sub * (1.0 - pct / 100.0)) else sub
  }

  /** calculateLiveTotalToPay: the subtotal, discounted only for a
      "Descuento" sale. */
  function TotalToPay(sub: real, kind: SaleKind, fixedText: string, pct: real): (r: real)
    ensures kind != Descuento ==> r == sub
    ensures kind == Descuento ==> r == Discounted(sub, FixedDiscount(fixedText), pct)
  {
    if kind == Descuento then Discounted(sub, FixedDiscount(fixedText), pct) else sub
  }

  lemma ScaleMonotone(x: real, a: real, b: real)
    requires x >= 0.0 && a <= b
    ensures x * a <= x * b
  {
    assert x * b - x * a == x * (b - a);
  }

  /** A positive discount never raises the amount due on a non-negative
      subtotal. */
  lemma DiscountedBounds(sub: real, fix: Option<real>, pct: real)
    requires sub >= 0.0 && (fix.Some? ==> fix.value > 0.0)
    ensures 0.0 <= Discounted(sub, fix, pct) <= sub
  {
    if fix.None? && pct > 0.0 {
      ScaleMonotone(sub, 1.0 - pct / 100.0, 1.0);
    }
  }

  /** A larger fixed discount never gives a larger total, and with a fixed
      discount the percentage is ignored. */
  lemma DiscountedMonotoneInFixed(sub: real, f1: real, f2: real, p1: real, p2: real)
    requires f1 <= f2
    ensures Discounted(sub, Some(f2), p2) <= Discounted(sub, Some(f1), p1)
  {
  }

  /** On a non-negative subtotal a larger percentage never gives a larger total. */
  lemma DiscountedMonotoneInPct(sub: real, p1: real, p2: real)
    requires sub >= 0.0 && 0.0 <= p1 <= p2
    ensures Discounted(sub, None, p2) <= Discounted(sub, None, p1)
  {
    DiscountedBounds(sub, None, p2);
    if p1 > 0.0 {
      ScaleMonotone(sub, 1.0 - p2 / 100.0, 1.0 - p1 / 100.0);
    }
  }

  /** calculateLiveChange; it is non-negative exactly when the amount
      entered covers the total (the screen then shows "Cambio", otherwise
      "Faltante"). */
  function LiveChange(sub: real, kind: SaleKind, fixedText: string, pct: real, payment: string): (r: real)
    ensures r >= 0.0 <==> ParseFloatOrZero(payment) >= TotalToPay(sub, kind, fixedText, pct)
    ensures payment == "" ==> r == -TotalToPay(sub, kind, fixedText, pct)
  {
    ParseFloatOrZero(payment) - TotalToPay(sub, kind, fixedText, pct)
  }

  /** The payment terms shown in the confirmation dialog. */
  datatype PaymentDetails = PaymentDetails(
    total: real, received: real, change: real, discount: real, fixedDiscount: real)

  const NoDetails: PaymentDetails := PaymentDetails(0.0, 0.0, 0.0, 0.0, 0.0)

  /** What handleProcessPayment does. */
  datatype PaymentStep =
    | EmptyTicket
    | NotPositive
    | DiscountDialog
    | ConfirmDialog(details: PaymentDetails)

  /** handleProcessPayment: an empty ticket is refused, and so is a
      subtotal of 0 or less unless the sale is a donation; a discount sale
      goes to the discount dialog; any other sale goes to confirmation with
      the subtotal as total and no discount. */
  function ProcessPayment(t: seq<Line>, kind: SaleKind, fixedText: string, pct: real, payment: string): (r: PaymentStep)
    ensures r == EmptyTicket <==> t == []
    ensures r == NotPositive <==> t != [] && Subtotal(t) <= 0.0 && kind != Donacion
    ensures r == DiscountDialog <==> t != [] && Subtotal(t) > 0.0 && kind == Descuento
    ensures r.ConfirmDialog? ==> kind != Descuento && r.details == PaymentDetails(
      Subtotal(t), ParseFloatOrZero(payment), ParseFloatOrZero(payment) - Subtotal(t), 0.0, 0.0)
  {
    var sub := Subtotal(t);
    if t == [] then EmptyTicket
    else if sub <= 0.0 && kind != Donacion then NotPositive
    else if kind == Descuento then DiscountDialog
    else ConfirmDialog(PaymentDetails(sub, ParseFloatOrZero(payment),
                                      LiveChange(sub, kind, fixedText, pct, payment), 0.0, 0.0))
  }

  /** The discount dialog's "Aplicar" button is disabled while the fixed
      discount typed exceeds the subtotal. */
  predicate FixedExceedsSubtotal(fixedText: string, sub: real)
  {
    fixedText != "" && ParseFloat(fixedText).Finite? && ParseFloat(fixedText).value > sub
  }

  /** While the button is enabled, a fixed discount in force is at most
      the subtotal. */
  lemma EnabledFixedWithinSubtotal(fixedText: string, sub: real)
    requires !FixedExceedsSubtotal(fixedText, sub)
    ensures FixedDiscount(fixedText).Some? ==> 0.0 < FixedDiscount(fixedText).value <= sub
  {
  }

  /** The percentage a fixed discount represents of the subtotal. */
  lemma FixedShare(fix: real, sub: real)
    requires 0.0 < fix <= sub
    ensures fix / sub * 100.0 * sub == fix * 100.0
    ensures 0.0 < fix / sub * 100.0 <= 100.0
  {
    var q := fix / sub;
    assert q * sub == fix;
    assert q <= 1.0 by {
      if q > 1.0 { ScaleMonotone(sub, 1.0, q); }
    }
  }

  /** `(fix / sub) * 100`. */
  function Share(fix: real, sub: real): (p: real)
    requires 0.0 < fix <= sub
    ensures p * sub == fix * 100.0 && 0.0 < p <= 100.0
  {
    FixedShare(fix, sub);
    fix / sub * 100.0
  }

  /** applyDiscount's payment terms, for the fixed discount in force (if
      any) and the amount received: a fixed discount is recorded with its
      percentage of the subtotal; otherwise the selected percentage applies.
      On a non-negative subtotal the total is the one the screen displayed. */
  function DiscountTerms(sub: real, fix: Option<real>, pct: real, received: real): (r: PaymentDetails)
    requires fix.Some? ==> 0.0 < fix.value <= sub
    ensures r.received == received && r.change == received - r.total
    ensures fix.Some? ==> (
      && r.fixedDiscount == fix.value
      && r.total == sub - fix.value
      && r.discount * sub == fix.value * 100.0
      && 0.0 < r.discount <= 100.0)
    ensures fix.None? ==>
      r.fixedDiscount == 0.0 && r.discount == pct && r.total == Max0(sub * (1.0 - pct / 100.0))
    ensures sub >= 0.0 && pct >= 0.0 ==> r.total == Discounted(sub, fix, pct)
  {
    match fix
    case Some(f) =>
      PaymentDetails(sub - f, received, received - (sub - f), Share(f, sub), f)
    case None =>
      assert pct == 0.0 ==> sub * (1.0 - pct / 100.0) == sub;
      var fin := Max0(sub * (1.0 - pct / 100.0));
      PaymentDetails(fin, received, received - fin, pct, 0.0)
  }

  // ------------------------------------------------------------------
  // Payment numpad

  /** The keys whose presses reach onInput: the ten digits and ".". */
  predicate IsKey(v: char)
  {
    IsDigit(v) || v == '.'
  }

  /** `prev.split(".")[1]`: the text after the first "." up to the next one. */
  function Decimals(prev: string): string
    requires '.' in prev
  {
    var rest := prev[IndexOf(prev, '.') + 1..];
    rest[..IndexOf(rest, '.')]
  }

  /** The numpad's onInput updater. */
  function NumpadInput(prev: string, v: char): string
    requires IsKey(v)
  {
    if v == '.' && '.' in prev then prev
    else if '.' in prev && |Decimals(prev)| >= 2 then prev
    else if prev == "0" then [v]
    else prev + [v]
  }

  /** The numpad's onDelete updater, `prev.slice(0, -1)`. */
  function NumpadDelete(prev: string): (r: string)
    ensures prev != "" ==> r + [prev[|prev| - 1]] == prev
    ensures prev == "" ==> r == ""
  {
    if prev == "" then "" else prev[..|prev| - 1]
  }

  /** Number of "." characters in s. */
  function Dots(s: string): nat
  {
    if s == [] then 0 else Dots(s[..|s| - 1]) + (if s[|s| - 1] == '.' then 1 else 0)
  }

  /** The shape of every amount the numpad builds: at most one ".", and at
      most two characters after it. */
  predicate AmountShape(s: string)
  {
    Dots(s) <= 1 && ('.' in s ==> |s| - 1 - IndexOf(s, '.') <= 2)
  }

  lemma {:induction false} DotsZero(s: string)
    ensures Dots(s) == 0 <==> '.' !in s
  {
    if s != [] {
      DotsZero(s[..|s| - 1]);
      assert s == s[..|s| - 1] + [s[|s| - 1]];
    }
  }

  lemma IndexOfAppend(s: string, c: char)
    ensures '.' in s ==> IndexOf(s + [c], '.') == IndexOf(s, '.')
    ensures '.' !in s && c == '.' ==> IndexOf(s + [c], '.') == |s|
  {
    if '.' in s {
      var j := IndexOf(s, '.');
      assert (s + [c])[j] == '.';
    } else if c == '.' {
      assert (s + [c])[|s|] == '.';
    }
  }

  /** The dots of a string split around one of its dots. */
  lemma DotsAround(s: string, k: nat)
    requires k < |s| && s[k] == '.'
    ensures Dots(s) == Dots(s[..k]) + 1 + Dots(s[k + 1..])
  {
    assert s == (s[..k] + ['.']) + s[k + 1..];
    DotsAppend(s[..k] + ['.'], s[k + 1..]);
    DotsAppend(s[..k], ['.']);
    assert Dots(['.']) == Dots([]) + 1;
  }

  /** With at most one ".", the split's second field is all that follows it. */
  lemma DecimalsOfShaped(s: string)
    requires '.' in s && Dots(s) <= 1
    ensures Decimals(s) == s[IndexOf(s, '.') + 1..]
  {
    var k := IndexOf(s, '.');
    var rest := s[k + 1..];
    DotsAround(s, k);
    assert '.' !in s[..k];
    DotsZero(s[..k]);
    DotsZero(rest);
    assert IndexOf(rest, '.') == |rest|;
    assert rest[..|rest|] == rest;
  }

  lemma {:induction false} DotsAppend(a: string, b: string)
    ensures Dots(a + b) == Dots(a) + Dots(b)
  {
    if b != [] {
      assert (a + b)[..|a + b| - 1] == a + b[..|b| - 1];
      DotsAppend(a, b[..|b| - 1]);
    } else {
      assert a + b == a;
    }
  }

  /** Key presses never produce a second "." or a third decimal. */
  lemma NumpadInputKeepsShape(prev: string, v: char)
    requires IsKey(v) && AmountShape(prev)
    ensures AmountShape(NumpadInput(prev, v))
  {
    var r := NumpadInput(prev, v);
    if r == prev + [v] {
      DotsAppend(prev, [v]);
      assert Dots([v]) == Dots([]) + (if v == '.' then 1 else 0);
      IndexOfAppend(prev, v);
      DotsZero(prev);
      if '.' in prev {
        DecimalsOfShaped(prev);
      }
    } else if r == [v] {
      assert Dots([v]) == Dots([]) + (if v == '.' then 1 else 0);
    }
  }

  /** A key pressed on the initial "0" replaces it. */
  lemma NumpadInputOnZero(v: char)
    requires IsKey(v)
    ensures NumpadInput("0", v) == [v]
  {
  }

  /** Deleting keeps the shape. */
  lemma NumpadDeleteKeepsShape(prev: string)
    requires AmountShape(prev)
    ensures AmountShape(NumpadDelete(prev))
  {
    if prev != "" {
      var r := NumpadDelete(prev);
      var c := prev[|prev| - 1];
      assert prev == r + [c];
      DotsAppend(r, [c]);
      IndexOfAppend(r, c);
      DotsZero(r);
    }
  }

  // ------------------------------------------------------------------
  // Sale commit

  /** The sale header handleConfirmSale writes. A donation records what was
      received as its total and gives no change. No user is recorded. */
  function SaleHeader(saleId: string, kind: SaleKind, d: PaymentDetails, now: int): (s: Sale)
    ensures s.kind == kind && s.received == d.received && s.userId.None?
    ensures kind == Donacion ==> s.total == d.received && s.change == 0.0
    ensures kind != Donacion ==> s.total == d.total && s.total + s.change == s.received
    ensures s.discountPct == d.discount && s.fixedDiscount == d.fixedDiscount
  {
    Sale(saleId, kind,
         if kind == Donacion then d.received else d.total,
         d.received,
         if kind == Donacion then 0.0 else d.received - d.total,
         d.discount, d.fixedDiscount, now, None)
  }

  function SaleDetail(saleId: string, l: Line): Detail
  {
    Detail(saleId, l.flavorId, l.qty, l.subtotal)
  }

  /** The movement written per sold line: kind "Salida automática por
      venta" with quantity -qty. */
  function SaleMovement(saleId: string, l: Line): Movement
  {
    Movement(l.flavorId, "Salida automática por venta", -l.qty, "Venta #" + saleId)
  }

  /** One detail per ticket line, in ticket order, copying flavour,
      quantity and subtotal. */
  function SaleDetails(saleId: string, t: seq<Line>): (r: seq<Detail>)
    ensures |r| == |t|
    ensures forall k :: 0 <= k < |t| ==>
      r[k].saleId == saleId && r[k].flavorId == t[k].flavorId && r[k].qty == t[k].qty && r[k].subtotal == t[k].subtotal
  {
    if t == [] then [] else SaleDetails(saleId, t[..|t| - 1]) + [SaleDetail(saleId, t[|t| - 1])]
  }

  /** One deduction movement per ticket line, in ticket order. */
  function SaleMovements(saleId: string, t: seq<Line>): (r: seq<Movement>)
    ensures |r| == |t|
    ensures forall k :: 0 <= k < |t| ==>
      r[k].flavorId == t[k].flavorId && r[k].qty == -t[k].qty && r[k].kind == "Salida automática por venta"
  {
    if t == [] then [] else SaleMovements(saleId, t[..|t| - 1]) + [SaleMovement(saleId, t[|t| - 1])]
  }

  /** The records of one more line follow those of the lines before it. */
  lemma SaleRecordsStep(saleId: string, t: seq<Line>, i: nat)
    requires i < |t|
    ensures SaleDetails(saleId, t[..i + 1]) == SaleDetails(saleId, t[..i]) + [SaleDetail(saleId, t[i])]
    ensures SaleMovements(saleId, t[..i + 1]) == SaleMovements(saleId, t[..i]) + [SaleMovement(saleId, t[i])]
  {
    assert t[..i + 1][..i] == t[..i];
  }

  /** The checkout screen's state. The catalogue and the movement list are
      loaded once when the screen mounts and are not reloaded after a sale,
      so every stock check of a session uses the same movements. */
  class Session {
    const store: Store
    const products: seq<Flavor>
    const categories: seq<Category>
    const movements: seq<Movement>
    var ticket: seq<Line>
    var payment: string
    var saleType: SaleKind
    var percentage: real
    var fixedText: string
    var details: PaymentDetails

    /** One line per flavour, each with a quantity from 1 to its stock; the
      amount entered has the shape the numpad builds, and stays empty for a
      donation, whose numpad is not shown. */
    ghost predicate Valid()
      reads this`ticket, this`payment, this`saleType
    {
      && UniqueLines(ticket)
      && (forall j :: 0 <= j < |ticket| ==> 1 <= ticket[j].qty <= Stock(movements, ticket[j].flavorId))
      && AmountShape(payment)
      && (saleType == Donacion ==> payment == "")
    }

    constructor (db: Store)
      ensures store == db && products == db.flavors && categories == db.categories
      ensures movements == Ledger.NewestFirst(db.movements)
      ensures ticket == [] && payment == "" && saleType == Normal
      ensures percentage == 0.0 && fixedText == "" && details == NoDetails
      ensures Valid()
    {
      store := db;
      products, categories, movements := db.flavors, db.categories, Ledger.NewestFirst(db.movements);
      ticket, payment, saleType := [], "", Normal;
      percentage, fixedText, details := 0.0, "", NoDetails;
    }

    /** addToTicket. */
    method AddProduct(p: Flavor)
      requires Valid()
      modifies this`ticket
      ensures Valid()
      ensures ticket == AddToTicket(old(ticket), p, Stock(movements, p.id))
    {
      var stock := Stock(movements, p.id);
      ghost var t := ticket;
      ticket := AddToTicket(ticket, p, stock);
      AddToTicketKeepsUnique(t, p, stock);
      AddToTicketOutcome(t, p, stock);
      forall j | 0 <= j < |ticket| ensures 1 <= ticket[j].qty <= Stock(movements, ticket[j].flavorId) {
        if j < |t| && t[j].flavorId != p.id {
        } else if j < |t| && t[j].flavorId == p.id {
          assert FindLine(t, p.id) == j;
        }
      }
    }

    /** updateTicketItemQuantity. */
    method UpdateQuantity(id: string, q: int)
      requires Valid()
      modifies this`ticket
      ensures Valid()
      ensures ticket == SetQuantity(old(ticket), id, q, Stock(movements, id))
    {
      var stock := Stock(movements, id);
      ghost var t := ticket;
      ticket := SetQuantity(ticket, id, q, stock);
      SetQuantityOutcome(t, id, q, stock);
      forall j | 0 <= j < |ticket| ensures 1 <= ticket[j].qty <= Stock(movements, ticket[j].flavorId) {
        if q <= 0 {
          assert ticket[j] in t;
        }
      }
    }

    /** removeTicketItem. */
    method RemoveItem(id: string)
      requires Valid()
      modifies this`ticket
      ensures Valid()
      ensures ticket == RemoveLines(old(ticket), id)
    {
      ghost var t := ticket;
      ticket := RemoveLines(ticket, id);
      RemoveLinesUnique(t, id);
      forall j | 0 <= j < |ticket| ensures 1 <= ticket[j].qty <= Stock(movements, ticket[j].flavorId) {
        assert ticket[j] in t;
      }
    }

    /** handleSaleTypeChange: both discounts and the amount entered are cleared. */
    method ChangeSaleType(k: SaleKind)
      requires Valid()
      modifies this`saleType, this`percentage, this`fixedText, this`payment
      ensures Valid()
      ensures saleType == k && percentage == 0.0 && fixedText == "" && payment == ""
    {
      saleType, percentage, fixedText, payment := k, 0.0, "", "";
    }

    /** A percentage button of the discount dialog clears the fixed discount. */
    method SelectPercentage(p: real)
      requires Valid()
      modifies this`percentage, this`fixedText
      ensures Valid()
      ensures percentage == p && fixedText == ""
      ensures FixedDiscount(fixedText).None?
    {
      percentage, fixedText := p, "";
    }

    /** Typing a fixed discount clears the percentage. */
    method TypeFixedDiscount(text: string)
      requires Valid()
      modifies this`percentage, this`fixedText
      ensures Valid()
      ensures fixedText == text && percentage == 0.0
    {
      fixedText, percentage := text, 0.0;
    }

    /** The discount dialog's "Cancelar" clears both discounts. */
    method CancelDiscount()
      requires Valid()
      modifies this`percentage, this`fixedText
      ensures Valid()
      ensures fixedText == "" && percentage == 0.0
    {
      fixedText, percentage := "", 0.0;
    }

    /** A numpad key; the numpad is shown only outside donations. */
    method PressKey(v: char)
      requires Valid() && saleType != Donacion && IsKey(v)
      modifies this`payment
      ensures Valid()
      ensures payment == NumpadInput(old(payment), v)
    {
      NumpadInputKeepsShape(payment, v);
      payment := NumpadInput(payment, v);
    }

    /** The numpad's delete key. */
    method PressDelete()
      requires Valid() && saleType != Donacion
      modifies this`payment
      ensures Valid()
      ensures payment == NumpadDelete(old(payment))
    {
      NumpadDeleteKeepsShape(payment);
      payment := NumpadDelete(payment);
    }

    /** The numpad's clear key. */
    method PressClear()
      requires Valid() && saleType != Donacion
      modifies this`payment
      ensures Valid()
      ensures payment == ""
    {
      payment := "";
    }

    /** "Ir a Pagar". */
    method Pay() returns (step: PaymentStep)
      requires Valid()
      modifies this`details
      ensures Valid()
      ensures saleType == Donacion && step.ConfirmDialog? ==> step.details.received == 0.0
      ensures step == ProcessPayment(ticket, saleType, fixedText, percentage, payment)
      ensures details == if step.ConfirmDialog? then step.details else old(details)
    {
      step := ProcessPayment(ticket, saleType, fixedText, percentage, payment);
      if step.ConfirmDialog? {
        details := step.details;
      }
    }

    /** "Aplicar Descuento"; refused while the fixed discount exceeds the subtotal. */
    method ApplyDiscount() returns (applied: bool)
      requires Valid()
      modifies this`details
      ensures Valid()
      ensures applied == !FixedExceedsSubtotal(fixedText, Subtotal(ticket))
      ensures applied ==> details == DiscountTerms(
        Subtotal(ticket), FixedDiscount(fixedText), percentage, ParseFloatOrZero(payment))
      ensures applied && Subtotal(ticket) >= 0.0 && percentage >= 0.0 ==>
        details.total == TotalToPay(Subtotal(ticket), Descuento, fixedText, percentage)
      ensures !applied ==> details == old(details)
    {
      var sub := Subtotal(ticket);
      applied := !FixedExceedsSubtotal(fixedText, sub);
      if applied {
        EnabledFixedWithinSubtotal(fixedText, sub);
        details := DiscountTerms(sub, FixedDiscount(fixedText), percentage, ParseFloatOrZero(payment));
      }
    }

    /** The per-line loop of handleConfirmSale: for each ticket line in
      order, one detail and one deduction movement. */
    method WriteLines(saleId: string)
      modifies store`details, store`movements
      ensures store.details == old(store.details) + SaleDetails(saleId, ticket)
      ensures store.movements == old(store.movements) + SaleMovements(saleId, ticket)
    {
      var i := 0;
      while i < |ticket|
        invariant 0 <= i <= |ticket|
        invariant store.details == old(store.details) + SaleDetails(saleId, ticket[..i])
        invariant store.movements == old(store.movements) + SaleMovements(saleId, ticket[..i])
      {
        SaleRecordsStep(saleId, ticket, i);
        store.AddDetail(SaleDetail(saleId, ticket[i]));
        store.AddMovement(SaleMovement(saleId, ticket[i]));
        i := i + 1;
      }
      assert ticket[..i] == ticket;
    }

    /** handleConfirmSale: refused without writing when a non-donation sale
      is underpaid; otherwise one sale header, then per ticket line in order
      one detail and one deduction movement, then the ticket, the amount,
      the sale type and both discounts are reset. */
    method ConfirmSale(saleId: string, now: int) returns (committed: bool)
      requires Valid()
      modifies this`ticket, this`payment, this`saleType, this`percentage, this`fixedText
      modifies store`sales, store`details, store`movements
      ensures committed == (old(saleType) == Donacion || old(details).received >= old(details).total)
      ensures !committed ==> unchanged(this) && unchanged(store)
      ensures committed ==>
        && store.sales == old(store.sales) + [SaleHeader(saleId, old(saleType), old(details), now)]
        && store.details == old(store.details) + SaleDetails(saleId, old(ticket))
        && store.movements == old(store.movements) + SaleMovements(saleId, old(ticket))
        && ticket == [] && payment == "" && saleType == Normal && percentage == 0.0 && fixedText == ""
      ensures Valid()
    {
      if saleType != Donacion && details.received < details.total {
        return false;
      }
      store.AddSale(SaleHeader(saleId, saleType, details, now));
      WriteLines(saleId);
      ticket, payment, saleType := [], "", Normal;
      percentage, fixedText := 0.0, "";
      committed := true;
    }
  }
}
