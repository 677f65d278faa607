/** The invoice draft held by the Invoice component: its line items, its
    top-level form fields, and the pure edits the event handlers apply to it. */
module Draft {

  datatype Option<+T> = None | Some(value: T)

  /** The text held by an `<input type="number">`: either empty, or a number.
      The component stores it as entered and coerces it only where it is used. */
  datatype Field = Blank | Num(x: real)

  /** The number a field stands for in arithmetic: ECMAScript's ToNumber turns
      the empty string into 0 (StringToNumber, section 7.1.4.1.1 of ECMA-262). */
  function Val(f: Field): real
  {
    match f
    case Blank => 0.0
    case Num(x) => x
  }

  datatype LineItem = LineItem(description: string, quantity: Field, price: Field, tax: Field)

  /** The row that the draft starts with and that "Add New Line" appends. */
  const BlankItem: LineItem := LineItem("", Blank, Blank, Blank)

  /** The whole `invoiceDetails` state object. */
  datatype InvoiceDetails = InvoiceDetails(
    recipient: string,
    email: string,
    subject: string,
    dueDate: string,
    currency: string,
    items: seq<LineItem>,
    discount: Field)

  /** The state the component is mounted with: empty text fields, currency
      "INR", one blank row, and the number 0 as discount. */
  const InitialDetails: InvoiceDetails :=
    InvoiceDetails("", "", "", "", "INR", [BlankItem], Num(0.0))

  /** The `name` attributes of the three number inputs of a row. */
  datatype NumericName = Quantity | Price | Tax

  function Get(item: LineItem, name: NumericName): Field
  {
    match name
    case Quantity => item.quantity
    case Price => item.price
    case Tax => item.tax
  }

  /** What one `onChange` event of a row carries: the text input `description`,
      or one of the number inputs with its new value. */
  datatype ItemEdit = EditDescription(text: string) | EditNumber(name: NumericName, value: Field)

  /** `item[name] = value`: exactly the named field takes the new value. */
  function UpdateItem(item: LineItem, edit: ItemEdit): (r: LineItem)
    ensures edit.EditDescription? ==>
      r.description == edit.text && forall n :: Get(r, n) == Get(item, n)
    ensures edit.EditNumber? ==>
      r.description == item.description && Get(r, edit.name) == edit.value &&
      forall n :: n != edit.name ==> Get(r, n) == Get(item, n)
  {
    match edit
    case EditDescription(text) => item.(description := text)
    case EditNumber(Quantity, v) => item.(quantity := v)
    case EditNumber(Price, v) => item.(price := v)
    case EditNumber(Tax, v) => item.(tax := v)
  }

  /** The row edit of `handleItemChange` on a copy of the items. An index that
      names no row makes `items[index]` undefined, and assigning a property of
      undefined throws a TypeError before any state is set: that is `None`. */
  function ChangeItem(items: seq<LineItem>, index: int, edit: ItemEdit): (r: Option<seq<LineItem>>)
    ensures r.Some? <==> 0 <= index < |items|
    ensures r.Some? ==>
      |r.value| == |items| &&
      r.value[index] == UpdateItem(items[index], edit) &&
      forall k :: 0 <= k < |items| && k != index ==> r.value[k] == items[k]
  {
    if 0 <= index < |items| then Some(items[index := UpdateItem(items[index], edit)]) else None
  }

  /** Where `splice(start, 1)` starts on an array of length `len`
      (Array.prototype.splice, section 23.1.3.31 of ECMA-262): a negative start
      counts from the end, and the result is clamped to `0..len`. */
  function SpliceStart(start: int, len: nat): (s: nat)
    ensures s <= len
  {
    if start < 0 then (if len + start < 0 then 0 else len + start)
    else if start < len then start else len
  }

  /** `items.splice(index, 1)` on a copy of the items: removes the element at the
      clamped start, if there is one. */
  function RemoveAt(items: seq<LineItem>, index: int): (r: seq<LineItem>)
    ensures 0 <= index < |items| ==>
      |r| == |items| - 1 &&
      (forall k :: 0 <= k < index ==> r[k] == items[k]) &&
      (forall k :: index <= k < |r| ==> r[k] == items[k + 1])
    ensures 0 <= index < |items| ==> multiset(r) + multiset{items[index]} == multiset(items)
    ensures |items| <= index ==> r == items
  {
    var s := SpliceStart(index, |items|);
    if s < |items| then
      assert items == items[..s] + [items[s]] + items[s + 1..];
      items[..s] + items[s + 1..]
    else
      items
  }

  /** The `name` attributes of the top-level text inputs and the currency select. */
  datatype TextName = Recipient | Email | Subject | DueDate | Currency

  function GetText(d: InvoiceDetails, name: TextName): string
  {
    match name
    case Recipient => d.recipient
    case Email => d.email
    case Subject => d.subject
    case DueDate => d.dueDate
    case Currency => d.currency
  }

  /** What one `onChange` event of a top-level input carries. */
  datatype DraftEdit = EditText(name: TextName, text: string) | EditDiscount(value: Field)

  /** `{...prevDetails, [name]: value}`: exactly the named field takes the new value. */
  function UpdateDetails(d: InvoiceDetails, edit: DraftEdit): (r: InvoiceDetails)
    ensures r.items == d.items
    ensures edit.EditText? ==>
      GetText(r, edit.name) == edit.text && r.discount == d.discount &&
      forall n :: n != edit.name ==> GetText(r, n) == GetText(d, n)
    ensures edit.EditDiscount? ==>
      r.discount == edit.value && forall n :: GetText(r, n) == GetText(d, n)
  {
    match edit
    case EditText(Recipient, t) => d.(recipient := t)
    case EditText(Email, t) => d.(email := t)
    case EditText(Subject, t) => d.(subject := t)
    case EditText(DueDate, t) => d.(dueDate := t)
    case EditText(Currency, t) => d.(currency := t)
    case EditDiscount(v) => d.(discount := v)
  }

  /** A negative index to `splice` counts from the end of the rows; one before
      the first row removes the first row. */
  lemma NegativeIndexCountsFromEnd(items: seq<LineItem>, index: int)
    requires index < 0
    ensures -|items| <= index ==> RemoveAt(items, index) == RemoveAt(items, |items| + index)
    ensures index < -|items| ==> RemoveAt(items, index) == RemoveAt(items, 0)
  {
  }

  /** Removing a row and then appending a blank one keeps the number of rows:
      the other rows close up in order and the blank row comes last. */
  lemma RemoveThenAdd(items: seq<LineItem>, i: int)
    requires 0 <= i < |items|
    ensures RemoveAt(items, i) + [BlankItem] == items[..i] + items[i + 1..] + [BlankItem]
    ensures |RemoveAt(items, i) + [BlankItem]| == |items|
  {
  }
}
