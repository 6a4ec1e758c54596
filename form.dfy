/** The entry form (components/TransactionForm.tsx): five fields edited by
    handlers, and a guarded submit. `Number(amount)` is a parameter of the
    submit, `None` standing for NaN. */
module Form {
  import opened Types
  import opened Constants

  /** The categories the drop-down offers for a type (TransactionForm.tsx:31). */
  function OfferedCategories(kind: TransactionType): (r: seq<Category>)
    ensures r != [] && NoDuplicates(r)
    ensures Others in r
    ensures Salary in r <==> kind == INCOME
    ensures Food in r <==> kind == EXPENSE
  {
    match kind
    case INCOME => IncomeCategories
    case EXPENSE => ExpenseCategories
  }

  class TransactionForm {
    var kind: TransactionType
    var amount: string
    var category: Category
    var date: string
    var note: string

    /** The selected category is one the drop-down offers for the type. */
    ghost predicate Consistent()
      reads this
    {
      category in OfferedCategories(kind)
    }

    /** A fresh form: expense, Food, today's date, empty amount and note
        (TransactionForm.tsx:13-17). Today's date is a parameter. */
    constructor (today: string)
      ensures kind == EXPENSE && category == Food
      ensures amount == "" && note == "" && date == today
      ensures Consistent()
    {
      kind := EXPENSE;
      amount := "";
      category := Food;
      date := today;
      note := "";
    }

    /** The Expense and Income buttons as written (TransactionForm.tsx:46, 53):
        only the type changes; the selected category is kept even when the
        new type does not offer it. */
    method SetKind(k: TransactionType)
      modifies this
      ensures kind == k
      ensures category == old(category) && amount == old(amount)
      ensures date == old(date) && note == old(note)
    {
      kind := k;
    }

    /** The type buttons as evidently intended: a category the new type does
        not offer is replaced by the first offered one, which is the option
        the drop-down shows in that case. */
    method ChooseKind(k: TransactionType)
      modifies this
      ensures kind == k
      ensures Consistent()
      ensures old(category) in OfferedCategories(k) ==> category == old(category)
      ensures old(category) !in OfferedCategories(k) ==> category == OfferedCategories(k)[0]
      ensures amount == old(amount) && date == old(date) && note == old(note)
    {
      kind := k;
      var offered := OfferedCategories(k);
      if category !in offered {
        category := offered[0];
      }
    }

    /** Typing an amount (TransactionForm.tsx:66). */
    method SetAmount(s: string)
      modifies this
      ensures amount == s
      ensures kind == old(kind) && category == old(category) && date == old(date) && note == old(note)
    {
      amount := s;
    }

    /** Picking a category from the drop-down (TransactionForm.tsx:77). */
    method SetCategory(c: Category)
      modifies this
      ensures category == c
      ensures c in OfferedCategories(kind) ==> Consistent()
      ensures kind == old(kind) && amount == old(amount) && date == old(date) && note == old(note)
    {
      category := c;
    }

    /** Picking a date (TransactionForm.tsx:92). */
    method SetDate(d: string)
      modifies this
      ensures date == d
      ensures kind == old(kind) && amount == old(amount) && category == old(category) && note == old(note)
    {
      date := d;
    }

    /** Typing a note (TransactionForm.tsx:102). */
    method SetNote(n: string)
      modifies this
      ensures note == n
      ensures kind == old(kind) && amount == old(amount) && category == old(category) && date == old(date)
    {
      note := n;
    }

    /** Submitting (TransactionForm.tsx:19-29): an empty amount or one that
        does not parse as a number submits nothing; otherwise exactly one
        entry is submitted, carrying the parsed amount and the type,
        category, date and note as they stand. The form never sets a
        creation time. */
    method HandleSubmit(number: string -> Option<real>) returns (payload: Option<Entry>)
      ensures payload.None? <==> amount == "" || number(amount).None?
      ensures payload.Some? ==>
        payload.value == Entry(number(amount).value, kind, category, date, None, note)
      ensures payload.Some? && Consistent() ==> payload.value.category in OfferedCategories(payload.value.kind)
    {
      if amount == "" || number(amount).None? {
        return None;
      }
      payload := Some(Entry(number(amount).value, kind, category, date, None, note));
    }
  }

  /** Switching a fresh form to Income and saving 12 submits an income
      entry filed under Food, a category the income list does not offer. */
  method StaleCategoryAfterSwitch() returns (payload: Option<Entry>)
    ensures payload.Some?
    ensures payload.value.kind == INCOME && payload.value.category == Food
    ensures payload.value.category !in IncomeCategories
  {
    var form := new TransactionForm("2026-01-15");
    form.SetKind(INCOME);
    form.SetAmount("12");
    payload := form.HandleSubmit(s => if s == "12" then Some(12.0) else None);
  }

  /** With the corrected type buttons the same steps submit an income entry
      under a category the income list offers. */
  method CategoryFollowsSwitch() returns (payload: Option<Entry>)
    ensures payload.Some?
    ensures payload.value.kind == INCOME && payload.value.category in IncomeCategories
  {
    var form := new TransactionForm("2026-01-15");
    form.ChooseKind(INCOME);
    form.SetAmount("12");
    payload := form.HandleSubmit(s => if s == "12" then Some(12.0) else None);
  }
}
