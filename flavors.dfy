/** The catalogue screen: the flavour form and its validation, the
    category forms with their duplicate-name checks, and the saves, which
    write the flavour and then a movement that sets or adjusts its stock. */
module Flavors {
  import opened Js
  import opened Records
  import Ledger

  // ------------------------------------------------------------------
  // Stock

  /** This screen's sign rule: only a kind exactly "Entrada" adds, every
      other kind subtracts. */
  function Delta(m: Movement): int
  {
    if m.kind == "Entrada" then m.qty else -m.qty
  }

  /** getInventoryForFlavor. */
  function Stock(movs: seq<Movement>, id: string): int
  {
    Ledger.Projection(movs, id, Delta)
  }

  /** Stock moves by +qty for an "Entrada" movement of this flavour, by
      -qty for any other movement of it, and not for other flavours. */
  lemma StockStep(movs: seq<Movement>, m: Movement, id: string)
    ensures Stock(movs + [m], id) == Stock(movs, id)
      + (if m.flavorId != id then 0 else if m.kind == "Entrada" then m.qty else -m.qty)
  {
    Ledger.ProjectionStep(movs, m, id, Delta);
  }

  // ------------------------------------------------------------------
  // The flavour form

  /** The Precio field: text typed into it, or a number put there by
      selecting a category with a base price or by opening a flavour for
      editing. */
  datatype PriceField = PriceText(text: string) | PriceNum(num: Num)

  /** The Initial_Inventario field: empty, or the number it was converted to. */
  datatype StockField = Blank | Count(n: int)

  datatype FlavorForm = FlavorForm(
    name: string,
    categoryId: string,
    price: PriceField,
    color: string,
    active: bool,
    categoryName: string,
    initial: StockField,
    imageUrl: string)

  /** resetFlavorForm. */
  const EmptyForm: FlavorForm := FlavorForm("", "", PriceText(""), "#ffffff", true, "", Blank, "")

  /** The flavour form's inputs that go through handleFlavorChange. */
  datatype TextField = NameInput | PriceInput | ColorInput | ImageInput

  datatype FormEvent =
    | TextChanged(field: TextField, value: string)
    | InitialChanged(value: string)
    | ActiveChanged(checked: bool)

  /** handleFlavorChange. */
  function ChangeField(f: FlavorForm, e: FormEvent): (r: FlavorForm)
    ensures r.categoryId == f.categoryId && r.categoryName == f.categoryName
    ensures e.TextChanged? && e.field == NameInput ==> r == f.(name := e.value)
    ensures e.TextChanged? && e.field == PriceInput ==> r == f.(price := PriceText(e.value))
    ensures e.TextChanged? && e.field == ColorInput ==> r == f.(color := e.value)
    ensures e.TextChanged? && e.field == ImageInput ==> r == f.(imageUrl := e.value)
    ensures e.ActiveChanged? ==> r == f.(active := e.checked)
    ensures e.InitialChanged? ==> r.(initial := f.initial) == f
    ensures e.InitialChanged? && e.value == "" ==> r.initial == Blank
    ensures e.InitialChanged? && e.value != "" && ParseIntAuto(e.value).Some? ==> r.initial == Count(ParseIntAuto(e.value).value)
    ensures e.InitialChanged? && e.value != "" && ParseIntAuto(e.value).None? ==> r.initial == Count(0)
  {
    match e
    case TextChanged(NameInput, v) => f.(name := v)
    case TextChanged(PriceInput, v) => f.(price := PriceText(v))
    case TextChanged(ColorInput, v) => f.(color := v)
    case TextChanged(ImageInput, v) => f.(imageUrl := v)
    case InitialChanged(v) => f.(initial := if v == "" then Blank else Count(ParseIntAutoOrZero(v)))
    case ActiveChanged(c) => f.(active := c)
  }

  /** The index of the first category with this id, |cats| when none has it. */
  function CategoryIndex(cats: seq<Category>, id: string): (k: nat)
    ensures k <= |cats|
    ensures forall j :: 0 <= j < k ==> cats[j].id != id
    ensures k < |cats| ==> cats[k].id == id
  {
    if cats == [] || cats[0].id == id then 0 else 1 + CategoryIndex(cats[1..], id)
  }

  /** `categories.find(c => c.ID_Categoria === id)`: the first category
      with this id, None when there is none. */
  function FindCategory(cats: seq<Category>, id: string): (r: Option<Category>)
    ensures r.None? <==> forall c :: c in cats ==> c.id != id
    ensures r.Some? ==> r.value.id == id && r.value == cats[CategoryIndex(cats, id)]
  {
    var k := CategoryIndex(cats, id);
    if k < |cats| then Some(cats[k]) else None
  }

  /** handleCategorySelect: "_new_" only changes the category id (and opens
      the category dialog); any other id is selected together with the name
      of the first category that has it, and that category's base price
      replaces the price when it is not null. */
  function SelectCategory(f: FlavorForm, cats: seq<Category>, cid: string): (r: FlavorForm)
    ensures cid == "_new_" ==> r == f.(categoryId := "_new_")
    ensures cid != "_new_" ==> r.categoryId == cid && r.(categoryId := f.categoryId, categoryName := f.categoryName, price := f.price) == f
    ensures cid != "_new_" && FindCategory(cats, cid).None? ==> r.categoryName == "" && r.price == f.price
    ensures cid != "_new_" && FindCategory(cats, cid).Some? ==>
      var c := FindCategory(cats, cid).value;
      r.categoryName == c.name && r.price == (if c.basePrice.Some? then PriceNum(c.basePrice.value) else f.price)
  {
    if cid == "_new_" then f.(categoryId := "_new_")
    else
      var cat := FindCategory(cats, cid);
      f.(categoryId := cid,
         categoryName := if cat.Some? then cat.value.name else "",
         price := if cat.Some? && cat.value.basePrice.Some? then PriceNum(cat.value.basePrice.value) else f.price)
  }

  /** `f.Precio && !isNaN(parseFloat(f.Precio))`. A number in the field is
      converted back by parseFloat unchanged; a number 0 is falsy. */
  predicate PriceOk(p: PriceField)
  {
    match p
    case PriceText(s) => s != "" && ParseFloat(s).Finite?
    case PriceNum(n) => n.Finite? && n.value != 0.0
  }

  /** `parseFloat(f.Precio)` for a price that passed validation. */
  function PriceValue(p: PriceField): real
    requires PriceOk(p)
  {
    match p
    case PriceText(s) => ParseFloat(s).value
    case PriceNum(n) => n.value
  }

  /** The validation at the top of handleAddOrUpdateFlavor: a name, a real
      category (not empty, not "_new_") and a price. The name is not trimmed. */
  predicate ValidForm(f: FlavorForm)
  {
    f.name != "" && f.categoryId != "" && f.categoryId != "_new_" && PriceOk(f.price)
  }

  /** The record a valid form saves. */
  function FlavorOf(id: string, f: FlavorForm): (fl: Flavor)
    requires ValidForm(f)
    ensures fl.id == id && fl.name == f.name && fl.categoryId == f.categoryId
    ensures fl.color == f.color && fl.active == f.active && fl.imageUrl == f.imageUrl
  {
    Flavor(id, f.name, f.categoryId, PriceValue(f.price), f.color, f.active, f.imageUrl)
  }

  /** The saved price is what parseFloat reads from the typed text, or the
      number itself when the field holds one. */
  lemma FlavorOfPrice(id: string, f: FlavorForm)
    requires ValidForm(f)
    ensures f.price.PriceText? ==> FlavorOf(id, f).price == ParseFloat(f.price.text).value
    ensures f.price.PriceNum? ==> FlavorOf(id, f).price == f.price.num.value
  {
  }

  /** A price typed as "0" passes validation while the number 0 does not. */
  lemma ZeroPriceTextAccepted()
    ensures PriceOk(PriceText("0")) && !PriceOk(PriceNum(Finite(0.0)))
    ensures PriceValue(PriceText("0")) == 0.0
  {
    assert DigitRun("0") == 1;
    assert "0"[..1] == "0";
    assert DigitsValue("0") == 0;
  }

  /** `parseInt(f.Initial_Inventario) || 0`, with no radix. A number in the
      field is read back from its decimal text. */
  function InitialTarget(s: StockField): int
  {
    match s
    case Blank => ParseIntAutoOrZero("")
    case Count(n) => ParseIntAutoOrZero(IntToString(n))
  }

  /** The stock target is the number in the field, 0 when it is empty. */
  lemma InitialTargetValue(s: StockField)
    ensures InitialTarget(s) == if s.Blank? then 0 else s.n
  {
    if s.Count? {
      ParseIntAutoRoundTrip(s.n);
    }
  }

  function Abs(x: int): nat
  {
    if x < 0 then -x else x
  }

  /** The movement an edit appends to bring the stock from `stock` to
      `target`, if any. */
  function Adjustment(id: string, stock: int, target: int): Option<Movement>
  {
    var delta := target - stock;
    if delta == 0 then None
    else Some(Movement(id, if delta > 0 then "Entrada" else "Salida automática por venta", Abs(delta),
                       "Ajuste manual (" + IntToString(stock) + "→" + IntToString(target) + ")"))
  }

  function AsSeq(m: Option<Movement>): seq<Movement>
  {
    if m.Some? then [m.value] else []
  }

  /** An edit appends a movement exactly when the target differs from the
      stock, an "Entrada" exactly when it is higher, of the difference's
      size, and afterwards this screen's stock is the target. */
  lemma AdjustmentReachesTarget(movs: seq<Movement>, id: string, target: int)
    ensures var stock := Stock(movs, id);
      var m := Adjustment(id, stock, target);
      && (m.Some? <==> target != stock)
      && (m.Some? ==> m.value.flavorId == id && (m.value.kind == "Entrada" <==> target > stock)
                      && m.value.qty == Abs(target - stock))
      && Stock(movs + AsSeq(m), id) == target
  {
    var m := Adjustment(id, Stock(movs, id), target);
    if m.Some? {
      StockStep(movs, m.value, id);
    } else {
      assert movs + [] == movs;
    }
  }

  /** The movement a creation appends for the initial stock, if any. */
  function InitialMovement(id: string, init: int): Option<Movement>
  {
    if init > 0 then Some(Movement(id, "Entrada", init, "Inventario inicial")) else None
  }

  /** A creation appends an "Entrada" of `init` exactly when it is positive,
      so the new flavour's stock rises by init, or by 0 when init <= 0. */
  lemma InitialMovementStock(movs: seq<Movement>, id: string, init: int)
    ensures InitialMovement(id, init).Some? <==> init > 0
    ensures Stock(movs + AsSeq(InitialMovement(id, init)), id) == Stock(movs, id) + (if init > 0 then init else 0)
  {
    if init > 0 {
      StockStep(movs, InitialMovement(id, init).value, id);
    } else {
      assert movs + [] == movs;
    }
  }

  // ------------------------------------------------------------------
  // The category forms

  /** `newCategoryPrice === "" ? null : parseFloat(newCategoryPrice)`. */
  function CategoryPrice(text: string): (r: Option<Num>)
    ensures r.None? <==> text == ""
    ensures text != "" ==> r == Some(ParseFloat(text))
  {
    if text == "" then None else Some(ParseFloat(text))
  }

  datatype CategoryOutcome = EmptyName | Duplicate | Accepted

  predicate NameTaken(cats: seq<Category>, name: string)
  {
    exists c :: c in cats && c.name == name
  }

  /** handleSaveCategory's checks: the trimmed name must not be empty and,
      when adding, must not equal an existing category's name. */
  function SaveCategoryCheck(nameInput: string, cats: seq<Category>, editing: bool): (r: CategoryOutcome)
    ensures r == EmptyName <==> Trim(nameInput) == ""
    ensures r == Duplicate <==> Trim(nameInput) != "" && !editing && NameTaken(cats, Trim(nameInput))
  {
    var name := Trim(nameInput);
    if name == "" then EmptyName
    else if !editing && NameTaken(cats, name) then Duplicate
    else Accepted
  }

  /** handleQuickAddCategory's checks: the name must not be blank, and its
      untrimmed text must not equal an existing category's name. */
  function QuickAddCheck(nameInput: string, cats: seq<Category>): (r: CategoryOutcome)
    ensures r == EmptyName <==> Trim(nameInput) == ""
    ensures r == Duplicate <==> Trim(nameInput) != "" && NameTaken(cats, nameInput)
  {
    if Trim(nameInput) == "" then EmptyName
    else if NameTaken(cats, nameInput) then Duplicate
    else Accepted
  }

  /** The two checks disagree on surrounding blanks: a name typed with a
      leading blank is a duplicate of the stored name for the category
      dialog, which trims it, but not for quick-add, which then stores the
      name with its blank. */
  lemma QuickAddKeepsBlanks(cats: seq<Category>, name: string)
    requires name != "" && !IsSpace(name[0]) && !IsSpace(name[|name| - 1])
    requires NameTaken(cats, name) && !NameTaken(cats, " " + name)
    ensures SaveCategoryCheck(" " + name, cats, false) == Duplicate
    ensures QuickAddCheck(" " + name, cats) == Accepted
  {
    var s := " " + name;
    assert IsSpace(s[0]) && s[1..] == name;
    assert LeadingSpaces(s) == 1 + LeadingSpaces(name) == 1;
    TrimKeeps(name);
    assert Trim(s) == name by {
      assert TrailingSpaces(name) == 0;
      assert name[..|name|] == name;
    }
  }

  /** The stock seen after writing `extra` and reloading the store newest
      first is the stock of the list seen before, followed by `extra`. */
  lemma ReloadedStock(seen: seq<Movement>, stored: seq<Movement>, extra: seq<Movement>, id: string)
    requires multiset(seen) == multiset(stored)
    ensures Stock(Ledger.NewestFirst(stored + extra), id) == Stock(seen + extra, id)
  {
    Ledger.ProjectionAppend(seen, extra, id, Delta);
    Ledger.ProjectionAppend(stored, extra, id, Delta);
    Ledger.ProjectionPermutation(seen, stored, id, Delta);
    Ledger.NewestFirstPermutes(stored + extra);
    Ledger.ProjectionPermutation(Ledger.NewestFirst(stored + extra), stored + extra, id, Delta);
  }

  /** The screen's state: the lists loaded from the store, the flavour
      form, the category fields shared by quick-add and the category
      dialog, and what is being edited. */
  class CatalogScreen {
    const store: Store
    var categories: seq<Category>
    var flavors: seq<Flavor>
    var movements: seq<Movement>
    var form: FlavorForm
    var editingFlavor: Option<Flavor>
    var categoryName: string
    var categoryPrice: string
    var editingCategory: Option<Category>

    /** The loaded lists are the store's, the movements possibly in
        another order. */
    ghost predicate Valid()
      reads this`categories, this`movements, store`categories, store`movements
    {
      categories == store.categories && multiset(movements) == multiset(store.movements)
    }

    /** The initial load. */
    constructor (db: Store)
      ensures store == db && categories == db.categories && flavors == db.flavors
      ensures movements == Ledger.NewestFirst(db.movements)
      ensures form == EmptyForm && editingFlavor.None? && editingCategory.None?
      ensures categoryName == "" && categoryPrice == ""
      ensures Valid()
    {
      store := db;
      categories, flavors := db.categories, db.flavors;
      movements := Ledger.NewestFirst(db.movements);
      form, editingFlavor := EmptyForm, None;
      categoryName, categoryPrice, editingCategory := "", "", None;
      Ledger.NewestFirstPermutes(db.movements);
    }

    /** Any reordering of the loaded movements shows the store's stock. */
    lemma LoadedStock(id: string)
      requires Valid()
      ensures Stock(movements, id) == Stock(store.movements, id)
    {
      Ledger.ProjectionPermutation(movements, store.movements, id, Delta);
    }

    method Change(e: FormEvent)
      modifies this`form
      ensures form == ChangeField(old(form), e)
    {
      form := ChangeField(form, e);
    }

    method ChooseCategory(cid: string)
      modifies this`form
      ensures form == SelectCategory(old(form), categories, cid)
    {
      form := SelectCategory(form, categories, cid);
    }

    /** "Añadir Sabor": a blank form in creation mode. */
    method NewFlavor()
      modifies this`form, this`editingFlavor
      ensures form == EmptyForm && editingFlavor.None?
    {
      form, editingFlavor := EmptyForm, None;
    }

    /** handleEditFlavor: the form shows the flavour with its current stock
      as the stock target. The flavour records hold no category name, so
      that field is left empty. */
    method EditFlavor(fl: Flavor)
      modifies this`form, this`editingFlavor
      ensures editingFlavor == Some(fl)
      ensures form == FlavorForm(fl.name, fl.categoryId, PriceNum(Finite(fl.price)), fl.color,
                                 fl.active, "", Count(Stock(movements, fl.id)), fl.imageUrl)
    {
      editingFlavor := Some(fl);
      form := FlavorForm(fl.name, fl.categoryId, PriceNum(Finite(fl.price)), fl.color,
                         fl.active, "", Count(Stock(movements, fl.id)), fl.imageUrl);
    }

    /** The writes of an edit, the reload and the reset: the flavour is
      updated, the adjustment that takes the stock this screen shows to
      `target` is appended, and the lists are read back, so the screen shows
      `target`. */
    method WriteEdit(cur: Flavor, fl: Flavor, target: int)
      requires Valid()
      modifies this`flavors, this`movements, this`form, this`editingFlavor
      modifies store`flavors, store`movements
      ensures Valid()
      ensures form == EmptyForm && editingFlavor.None?
      ensures store.flavors == ReplaceById(old(store.flavors), FlavorId, fl)
      ensures store.movements == old(store.movements) + AsSeq(Adjustment(cur.id, Stock(old(movements), cur.id), target))
      ensures flavors == store.flavors && movements == Ledger.NewestFirst(store.movements)
      ensures Stock(movements, cur.id) == target
    {
      var m := Adjustment(cur.id, Stock(movements, cur.id), target);
      AdjustmentReachesTarget(movements, cur.id, target);
      store.UpdateFlavor(fl);
      AppendAndReload(m, cur.id);
      form, editingFlavor := EmptyForm, None;
    }

    /** The writes of a creation, the reload and the reset: the flavour is
      added, its initial stock appended, and the lists are read back. */
    method WriteNew(fl: Flavor, init: int)
      requires Valid()
      modifies this`flavors, this`movements, this`form, this`editingFlavor
      modifies store`flavors, store`movements
      ensures Valid()
      ensures form == EmptyForm && editingFlavor.None?
      ensures store.flavors == old(store.flavors) + [fl]
      ensures store.movements == old(store.movements) + AsSeq(InitialMovement(fl.id, init))
      ensures flavors == store.flavors && movements == Ledger.NewestFirst(store.movements)
      ensures Stock(movements, fl.id) == Stock(old(movements), fl.id) + (if init > 0 then init else 0)
    {
      var m := InitialMovement(fl.id, init);
      InitialMovementStock(movements, fl.id, init);
      store.AddFlavor(fl);
      AppendAndReload(m, fl.id);
      form, editingFlavor := EmptyForm, None;
    }

    /** The movement write, if any, then `setFlavors(await db.getSabores())`
      and `setInventoryMovements(await db.getMovimientos())`: the stock of
      `id` read back is that of the shown list with the write appended. */
    method AppendAndReload(m: Option<Movement>, id: string)
      requires Valid()
      modifies this`flavors, this`movements, store`movements
      ensures Valid()
      ensures store.movements == old(store.movements) + AsSeq(m)
      ensures flavors == store.flavors && movements == Ledger.NewestFirst(store.movements)
      ensures Stock(movements, id) == Stock(old(movements) + AsSeq(m), id)
    {
      ghost var seen, stored := movements, store.movements;
      ReloadedStock(seen, stored, AsSeq(m), id);
      if m.Some? {
        store.AddMovement(m.value);
      } else {
        assert stored + [] == stored;
      }
      flavors := store.flavors;
      movements := Ledger.NewestFirst(store.movements);
      Ledger.NewestFirstPermutes(store.movements);
    }

    /** handleAddOrUpdateFlavor. An invalid form writes nothing. An edit
      updates the flavour and appends the adjustment that takes the stock
      this screen shows to the target; a creation adds the flavour under
      `freshId` and appends the initial stock. Then the lists are reloaded
      and the form is reset. */
    method SaveFlavor(freshId: string) returns (saved: bool)
      requires Valid()
      modifies this`flavors, this`movements, this`form, this`editingFlavor
      modifies store`flavors, store`movements
      ensures Valid()
      ensures saved == ValidForm(old(form))
      ensures !saved ==> unchanged(this) && unchanged(store)
      ensures saved && old(editingFlavor).Some? ==>
        var id := old(editingFlavor).value.id;
        var target := InitialTarget(old(form).initial);
        && store.flavors == ReplaceById(old(store.flavors), FlavorId, FlavorOf(id, old(form)))
        && store.movements == old(store.movements) + AsSeq(Adjustment(id, Stock(old(movements), id), target))
        && Stock(movements, id) == target
      ensures saved && old(editingFlavor).None? ==>
        var init := InitialTarget(old(form).initial);
        && store.flavors == old(store.flavors) + [FlavorOf(freshId, old(form))]
        && store.movements == old(store.movements) + AsSeq(InitialMovement(freshId, init))
        && Stock(movements, freshId) == Stock(old(movements), freshId) + (if init > 0 then init else 0)
      ensures saved ==>
        && flavors == store.flavors && movements == Ledger.NewestFirst(store.movements)
        && form == EmptyForm && editingFlavor.None?
    {
      if !ValidForm(form) {
        return false;
      }
      var target := InitialTarget(form.initial);
      if editingFlavor.Some? {
        WriteEdit(editingFlavor.value, FlavorOf(editingFlavor.value.id, form), target);
      } else {
        WriteNew(FlavorOf(freshId, form), target);
      }
      saved := true;
    }

    /** "Gestionar Categorías" and the dialog's "Cancelar": resetCategoryForm. */
    method ResetCategoryForm()
      modifies this`categoryName, this`categoryPrice, this`editingCategory
      ensures categoryName == "" && categoryPrice == "" && editingCategory.None?
    {
      categoryName, categoryPrice, editingCategory := "", "", None;
    }

    /** handleEditCategory; `shown` is the base price as the price field
      displays it. */
    method EditCategory(c: Category, shown: string)
      requires c.basePrice.None? ==> shown == ""
      modifies this`categoryName, this`categoryPrice, this`editingCategory
      ensures categoryName == c.name && categoryPrice == shown && editingCategory == Some(c)
    {
      categoryName, categoryPrice, editingCategory := c.name, shown, Some(c);
    }

    /** handleSaveCategory: the trimmed name and the parsed price are
      written, updating the category being edited or adding one under
      `freshId`; a rejected save writes nothing. */
    method SaveCategory(freshId: string) returns (outcome: CategoryOutcome)
      requires Valid()
      modifies this`categories, this`categoryName, this`categoryPrice, this`editingCategory
      modifies store`categories
      ensures Valid()
      ensures outcome == SaveCategoryCheck(old(categoryName), old(categories), old(editingCategory).Some?)
      ensures outcome != Accepted ==> unchanged(this) && unchanged(store)
      ensures outcome == Accepted ==>
        var c := Category("", Trim(old(categoryName)), CategoryPrice(old(categoryPrice)));
        && (old(editingCategory).Some? ==>
              store.categories == ReplaceById(old(store.categories), CategoryId, c.(id := old(editingCategory).value.id)))
        && (old(editingCategory).None? ==> store.categories == old(store.categories) + [c.(id := freshId)])
        && categoryName == "" && categoryPrice == "" && editingCategory.None?
    {
      outcome := SaveCategoryCheck(categoryName, categories, editingCategory.Some?);
      if outcome != Accepted {
        return;
      }
      var c := Category("", Trim(categoryName), CategoryPrice(categoryPrice));
      if editingCategory.Some? {
        store.UpdateCategory(c.(id := editingCategory.value.id));
      } else {
        store.AddCategory(c.(id := freshId));
      }
      categories := store.categories;
      categoryName, categoryPrice, editingCategory := "", "", None;
    }

    /** handleQuickAddCategory: the category is added under `freshId` with
      the name as typed and selected in the flavour form, whose price
      becomes the category's when one was given. */
    method QuickAddCategory(freshId: string) returns (outcome: CategoryOutcome)
      requires Valid()
      modifies this`categories, this`categoryName, this`categoryPrice, this`form
      modifies store`categories
      ensures Valid()
      ensures outcome == QuickAddCheck(old(categoryName), old(categories))
      ensures outcome != Accepted ==> unchanged(this) && unchanged(store)
      ensures outcome == Accepted ==>
        var price := CategoryPrice(old(categoryPrice));
        && store.categories == old(store.categories) + [Category(freshId, old(categoryName), price)]
        && form == old(form).(categoryId := freshId, categoryName := old(categoryName),
                              price := if price.Some? then PriceNum(price.value) else old(form).price)
        && categoryName == "" && categoryPrice == ""
    {
      outcome := QuickAddCheck(categoryName, categories);
      if outcome != Accepted {
        return;
      }
      WriteQuickAdd(freshId);
    }

    /** The accepted branch of handleQuickAddCategory. */
    method WriteQuickAdd(freshId: string)
      requires Valid()
      modifies this`categories, this`categoryName, this`categoryPrice, this`form
      modifies store`categories
      ensures Valid()
      ensures var price := CategoryPrice(old(categoryPrice));
        && store.categories == old(store.categories) + [Category(freshId, old(categoryName), price)]
        && form == old(form).(categoryId := freshId, categoryName := old(categoryName),
                              price := if price.Some? then PriceNum(price.value) else old(form).price)
        && categoryName == "" && categoryPrice == ""
    {
      var price := CategoryPrice(categoryPrice);
      store.AddCategory(Category(freshId, categoryName, price));
      form := form.(categoryId := freshId, categoryName := categoryName,
                    price := if price.Some? then PriceNum(price.value) else form.price);
      categories := store.categories;
      categoryName, categoryPrice := "", "";
    }
  }
}
