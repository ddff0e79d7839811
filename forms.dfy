/**
 Saving the expense and provision forms. A form holds whatever fields the
 user filled in (a partial record); saving builds a full record, taking the
 id of the record being edited, or a fresh id for a new one, and replacing
 every missing or empty field by its default. The current date and the
 fresh id come from the platform and are parameters here.

 The defaults follow the `a || b` fallbacks of the save handlers, which fall back on
 `b` when `a` is missing or "falsy": an empty string, 0 or NaN. A number
 field that is missing or NaN is None here; a number field holding 0 falls
 back on 0, which is the same value.
 */
module Forms {
  import opened Wrappers
  import opened Records

  const DefaultProductName: string := "Produit sans nom"

  /** The two record kinds: the names of the two stores. */
  datatype Kind = Expenses | Alimentation

  /** The record being edited, if any (editingRecord). */
  datatype Editing = Editing(kind: Kind, id: string)

  /** Partial<ExpenseRecord>: the expense form. */
  datatype ExpenseForm = ExpenseForm(
    id: Option<string>,
    date: Option<Date>,
    productName: Option<string>,
    price: Option<real>,
    photo: Option<string>)

  /** Partial<AlimentationRecord>: the provision form. */
  datatype AlimentationForm = AlimentationForm(id: Option<string>, date: Option<Date>, amount: Option<real>)

  /** The empty form that resetForms installs. */
  const EmptyExpenseForm: ExpenseForm := ExpenseForm(None, None, None, None, None)
  const EmptyAlimentationForm: AlimentationForm := AlimentationForm(None, None, None)

  /** `s || fallback` for an optional string. */
  function TextOr(s: Option<string>, fallback: string): string {
    if s.Some? && s.value != "" then s.value else fallback
  }

  /** `date || today` for an optional date: a date whose text is empty is falsy too. */
  function DateOr(d: Option<Date>, today: Date): Date {
    if d.Some? && d.value.text != "" then d.value else today
  }

  /** `editingRecord?.id || freshId`. */
  function RecordId(editing: Option<Editing>, freshId: string): string {
    if editing.Some? then TextOr(Some(editing.value.id), freshId) else freshId
  }

  /** handleSaveExpense: the record that is written to the expense store. */
  function BuildExpense(form: ExpenseForm, editing: Option<Editing>, today: Date, freshId: string): (r: ExpenseRecord)
    ensures editing.Some? && editing.value.id != "" ==> r.id == editing.value.id
    ensures editing.None? || editing.value.id == "" ==> r.id == freshId
    ensures freshId != "" ==> r.id != ""
    ensures form.date.Some? && form.date.value.text != "" ==> r.date == form.date.value
    ensures form.date.None? || form.date.value.text == "" ==> r.date == today
    ensures today.text != "" ==> r.date.text != ""
    ensures form.productName.Some? && form.productName.value != "" ==> r.productName == form.productName.value
    ensures form.productName.None? || form.productName.value == "" ==> r.productName == DefaultProductName
    ensures r.productName != ""
    ensures form.price.Some? ==> r.price == form.price.value
    ensures form.price.None? ==> r.price == 0.0
    ensures r.photo == form.photo
  {
    ExpenseRecord(
      RecordId(editing, freshId),
      DateOr(form.date, today),
      TextOr(form.productName, DefaultProductName),
      form.price.GetOr(0.0),
      form.photo)
  }

  /** handleSaveAlimentation: the record that is written to the provision store. */
  function BuildAlimentation(form: AlimentationForm, editing: Option<Editing>, today: Date, freshId: string): (r: AlimentationRecord)
    ensures editing.Some? && editing.value.id != "" ==> r.id == editing.value.id
    ensures editing.None? || editing.value.id == "" ==> r.id == freshId
    ensures freshId != "" ==> r.id != ""
    ensures form.date.Some? && form.date.value.text != "" ==> r.date == form.date.value
    ensures form.date.None? || form.date.value.text == "" ==> r.date == today
    ensures today.text != "" ==> r.date.text != ""
    ensures form.amount.Some? ==> r.amount == form.amount.value
    ensures form.amount.None? ==> r.amount == 0.0
  {
    AlimentationRecord(RecordId(editing, freshId), DateOr(form.date, today), form.amount.GetOr(0.0))
  }

  /** startEdit for an expense: the form is filled with the record itself. */
  function ExpenseFormOf(e: ExpenseRecord): ExpenseForm {
    ExpenseForm(Some(e.id), Some(e.date), Some(e.productName), Some(e.price), e.photo)
  }

  /** startEdit for a provision: the form is filled with the record itself. */
  function AlimentationFormOf(a: AlimentationRecord): AlimentationForm {
    AlimentationForm(Some(a.id), Some(a.date), Some(a.amount))
  }

  /**
   Opening a record for editing and saving it unchanged writes back the same
   record under the same id, so the store's upsert replaces it by itself.
   A record with an empty name or date text would come back with the
   defaults instead.
   */
  lemma EditUnchangedRoundTrip(e: ExpenseRecord, a: AlimentationRecord, today: Date, freshId: string)
    requires e.id != "" && e.date.text != "" && e.productName != ""
    requires a.id != "" && a.date.text != ""
    ensures BuildExpense(ExpenseFormOf(e), Some(Editing(Expenses, e.id)), today, freshId) == e
    ensures BuildAlimentation(AlimentationFormOf(a), Some(Editing(Alimentation, a.id)), today, freshId) == a
  {
  }

  /** A new record saved from an empty form gets the fresh id, today's date and every default. */
  lemma NewFromEmptyForm(today: Date, freshId: string)
    ensures BuildExpense(EmptyExpenseForm, None, today, freshId)
         == ExpenseRecord(freshId, today, DefaultProductName, 0.0, None)
    ensures BuildAlimentation(EmptyAlimentationForm, None, today, freshId)
         == AlimentationRecord(freshId, today, 0.0)
  {
  }
}
