/** The manual movement screen: a four-field form whose submission is
    validated, appended to the ledger as one movement, and reset. */
module Inventory {
  import opened Js
  import opened Records
  import Ledger

  datatype MovementForm = MovementForm(flavorId: string, kind: string, qty: string, note: string)

  /** The form as it starts and as it is reset after a submission. */
  const EmptyForm: MovementForm := MovementForm("", "Entrada", "", "")

  datatype Field = FlavorField | KindField | QtyField | NoteField

  /** handleChange: only the named field takes the new value. */
  function ChangeField(f: MovementForm, field: Field, value: string): (r: MovementForm)
    ensures field == FlavorField ==> r.flavorId == value && r.(flavorId := f.flavorId) == f
    ensures field == KindField ==> r.kind == value && r.(kind := f.kind) == f
    ensures field == QtyField ==> r.qty == value && r.(qty := f.qty) == f
    ensures field == NoteField ==> r.note == value && r.(note := f.note) == f
  {
    match field
    case FlavorField => f.(flavorId := value)
    case KindField => f.(kind := value)
    case QtyField => f.(qty := value)
    case NoteField => f.(note := value)
  }

  datatype Submission =
    | MissingInput
    | BadQuantity
    | Accepted(movement: Movement)

  /** handleSubmit's checks: a flavour must be chosen and a quantity typed;
      parseInt must read a number other than 0 from it. The movement keeps
      the chosen flavour, kind and note and the parsed (possibly negative)
      quantity. */
  function Check(f: MovementForm): (r: Submission)
    ensures r == MissingInput <==> f.flavorId == "" || f.qty == ""
    ensures r == BadQuantity <==> f.flavorId != "" && f.qty != "" && (ParseInt(f.qty).None? || ParseInt(f.qty).value == 0)
    ensures r.Accepted? ==> ParseInt(f.qty).Some? && r.movement == Movement(f.flavorId, f.kind, ParseInt(f.qty).value, f.note)
    ensures r.Accepted? ==> r.movement.qty != 0
  {
    if f.flavorId == "" || f.qty == "" then MissingInput
    else
      match ParseInt(f.qty)
      case None => BadQuantity
      case Some(n) => if n == 0 then BadQuantity else Accepted(Movement(f.flavorId, f.kind, n, f.note))
  }

  /** A quantity written out as a non-zero integer, possibly followed by a
      fraction or other text, is accepted with that integer. */
  lemma CheckAcceptsWritten(id: string, kind: string, n: int, tail: string, note: string)
    requires id != "" && n != 0
    requires tail == [] || !IsDigit(tail[0])
    ensures Check(MovementForm(id, kind, IntToString(n) + tail, note)) == Accepted(Movement(id, kind, n, note))
  {
    ParseIntRoundTrip(n, tail);
  }

  /** "0" and "-0" are refused just like text that is not a number, such
      as "abc". */
  lemma CheckRefusesZero(id: string, kind: string, note: string)
    requires id != ""
    ensures Check(MovementForm(id, kind, "0", note)) == BadQuantity
    ensures Check(MovementForm(id, kind, "-0", note)) == BadQuantity
    ensures Check(MovementForm(id, kind, "abc", note)) == BadQuantity
  {
    ParseIntZeroes();
  }

  /** The screen's state: the movement list it shows and the form. */
  class MovementScreen {
    const store: Store
    var movements: seq<Movement>
    var form: MovementForm

    ghost predicate Valid()
      reads this, store
    {
      multiset(movements) == multiset(store.movements)
    }

    constructor (db: Store)
      ensures store == db && movements == Ledger.NewestFirst(db.movements) && form == EmptyForm
      ensures Valid()
    {
      store := db;
      movements := Ledger.NewestFirst(db.movements);
      form := EmptyForm;
      Ledger.NewestFirstPermutes(db.movements);
    }

    method Change(field: Field, value: string)
      modifies this`form
      ensures form == ChangeField(old(form), field, value)
    {
      form := ChangeField(form, field, value);
    }

    /** handleSubmit: a refused submission writes nothing and keeps the
      form; an accepted one appends exactly its movement, resets the form
      and reloads the list. */
    method Submit() returns (r: Submission)
      requires Valid()
      modifies this`form, this`movements, store`movements
      ensures Valid()
      ensures r == Check(old(form))
      ensures !r.Accepted? ==> unchanged(this) && unchanged(store)
      ensures r.Accepted? ==>
        && store.movements == old(store.movements) + [r.movement]
        && form == EmptyForm
        && movements == Ledger.NewestFirst(store.movements)
    {
      r := Check(form);
      if r.Accepted? {
        store.AddMovement(r.movement);
        form := EmptyForm;
        movements := Ledger.NewestFirst(store.movements);
        Ledger.NewestFirstPermutes(store.movements);
      }
    }
  }
}
