/**
 * The add-product form: six text fields, a required-field check on five of
 * them, the record built on a valid submit, and the reset that follows.
 *
 * The clock reading used as the id and the conversions `Number(quantity)`
 * and the date text to a day are parameters.
 */
module AddProductForm {
  import opened Strings
  import opened UseInventory

  datatype Field = Name | Category | Quantity | Batch | ExpiryDate | Temperature

  /** `formData`: every field is the text typed so far. */
  datatype FormData = FormData(
    name: string,
    category: string,
    quantity: string,
    batch: string,
    expiryDate: string,
    temperature: string)

  const EmptyForm: FormData := FormData("", "", "", "", "", "")

  const RequiredMessage: string := "Please fill all required fields."

  function Get(f: FormData, field: Field): string
  {
    match field
    case Name => f.name
    case Category => f.category
    case Quantity => f.quantity
    case Batch => f.batch
    case ExpiryDate => f.expiryDate
    case Temperature => f.temperature
  }

  /** `{ ...formData, [name]: value }`: the named field takes the value, the others stay. */
  function With(f: FormData, field: Field, value: string): (r: FormData)
    ensures Get(r, field) == value
    ensures forall other :: other != field ==> Get(r, other) == Get(f, other)
  {
    match field
    case Name => f.(name := value)
    case Category => f.(category := value)
    case Quantity => f.(quantity := value)
    case Batch => f.(batch := value)
    case ExpiryDate => f.(expiryDate := value)
    case Temperature => f.(temperature := value)
  }

  /**
   * The validation: a required field is empty. Every field but the
   * temperature is required, and the temperature never blocks a submit.
   */
  predicate MissingRequired(f: FormData)
    ensures MissingRequired(f) <==> exists field :: field != Temperature && Get(f, field) == ""
  {
    var r := f.name == "" || f.category == "" || f.quantity == "" || f.batch == "" || f.expiryDate == "";
    assert r ==> exists field :: field != Temperature && Get(f, field) == "" by {
      if f.name == "" { assert Get(f, Name) == ""; }
      else if f.category == "" { assert Get(f, Category) == ""; }
      else if f.quantity == "" { assert Get(f, Quantity) == ""; }
      else if f.batch == "" { assert Get(f, Batch) == ""; }
      else if f.expiryDate == "" { assert Get(f, ExpiryDate) == ""; }
    }
    r
  }

  /**
   * `{ id: Date.now(), store: selectedStore, ...formData, quantity: Number(formData.quantity) }`:
   * the clock reading as id, the store it is filed for, the quantity as a
   * number, the expiry text read as a day, and every other field as typed.
   */
  function BuildRecord(f: FormData, selectedStore: string, clock: Id, number: string -> int, date: string -> Day): (p: Product)
    ensures p.id == clock && p.store == Some(selectedStore)
    ensures p.quantity == number(f.quantity) && p.expiryDate == date(f.expiryDate)
    ensures p.name == f.name && p.category == f.category && p.batch == f.batch && p.temperature == f.temperature
  {
    Product(clock, Some(selectedStore), f.name, f.category, number(f.quantity), f.batch, date(f.expiryDate), f.temperature)
  }

  /** One call `onAdd(store, product)`. */
  datatype AddCall = AddCall(store: string, product: Product)

  /** What one submit leaves behind: the form, the error text and the call made, if any. */
  datatype Outcome = Outcome(formData: FormData, error: string, sent: Option<AddCall>)

  /**
   * `handleSubmit`: a form with a required field empty shows the error, calls
   * nothing and keeps what was typed; a complete form calls `onAdd` once with
   * the selected store and the built record, then clears every field and the
   * error.
   */
  function Submit(f: FormData, selectedStore: string, clock: Id, number: string -> int, date: string -> Day): (r: Outcome)
    ensures r.sent.None? <==> MissingRequired(f)
    ensures MissingRequired(f) ==> r.formData == f && r.error == RequiredMessage
    ensures !MissingRequired(f) ==>
              && r.formData == EmptyForm && r.error == ""
              && r.sent.value.store == selectedStore
              && r.sent.value.product.store == Some(selectedStore)
              && r.sent.value.product.quantity == number(f.quantity)
              && r.sent.value.product.name == f.name
    ensures !MissingRequired(f) ==> r.sent == Some(AddCall(selectedStore, BuildRecord(f, selectedStore, clock, number, date)))
  {
    if MissingRequired(f) then Outcome(f, RequiredMessage, None)
    else Outcome(EmptyForm, "", Some(AddCall(selectedStore, BuildRecord(f, selectedStore, clock, number, date))))
  }

  /** After a successful submit the cleared form is refused until filled in again. */
  lemma {:induction false} ResubmitRefused(f: FormData, selectedStore: string, clock: Id, number: string -> int, date: string -> Day)
    requires !MissingRequired(f)
    ensures Submit(Submit(f, selectedStore, clock, number, date).formData, selectedStore, clock, number, date).sent == None
  {
    assert Get(EmptyForm, Name) == "";
  }

  /** The form component's state. */
  class Form {
    var formData: FormData
    var error: string

    constructor ()
      ensures formData == EmptyForm && error == ""
    {
      formData := EmptyForm;
      error := "";
    }

    /** `handleChange`: one field takes the typed value. */
    method HandleChange(field: Field, value: string)
      modifies this`formData
      ensures formData == With(old(formData), field, value)
    {
      formData := With(formData, field, value);
    }

    /** `handleSubmit`, returning the `onAdd` call it makes, if any. */
    method HandleSubmit(selectedStore: string, clock: Id, number: string -> int, date: string -> Day)
      returns (sent: Option<AddCall>)
      modifies this
      ensures Outcome(formData, error, sent) == Submit(old(formData), selectedStore, clock, number, date)
    {
      if MissingRequired(formData) {
        error := RequiredMessage;
        return None;
      }
      var product := BuildRecord(formData, selectedStore, clock, number, date);
      sent := Some(AddCall(selectedStore, product));
      formData := EmptyForm;
      error := "";
    }
  }
}
