# Daily Expense App — a verified model of its core

Daily Expense App is a single-page expense tracker. A user signs in with a
name and an e-mail and keeps a ledger of income and expense records. The
dashboard shows total income, total expense, the balance and the expense
ratio. A pie chart breaks spending down by category, and a bar chart shows
income against expense per month. An entry form creates new records. The
ledger and the signed-in user live in the browser's local storage.

This project models that core in Dafny. The modules follow the source
files, with two exceptions: `App.tsx` is split into `Stats` (its pure
figures and ledger edits) and `App` (its state and handlers), and
`Grouping` holds folds shared by `Stats` and `Charts` that have no
source file of their own.

- `types.dfy` (`Types`): the records of `types.ts`. The source's `type`
  field is called `kind`, because `type` is a Dafny keyword.
- `constants.dfy` (`Constants`): the colour of each category and the two
  category lists of `constants.ts`.
- `grouping.dfy` (`Grouping`): the left-to-right folds that the totals and
  the charts share: summing, keys in first-seen order and per-key totals.
  Each fold runs from the front of the list to the back, as
  `Array.prototype.reduce` does, so each is defined by peeling off the
  last element.
- `stats.dfy` (`Stats`): the filter by type, the dashboard figures, the
  width of the spending bar, and deletion by id from `App.tsx`, all as
  functions on the ledger.
- `charts.dfy` (`Charts`): the two chart aggregations of
  `components/Charts.tsx`. Each is a method with a loop, and each is proved
  equal to a reference definition. The reference definitions are then
  proved to conserve the dashboard totals, to keep names distinct and in
  first-seen order, and to leave no empty or missing group.
- `app.dfy` (`App`): the `App` component's state as a class, with the
  sign-in, sign-out, add, delete and form-toggle handlers. Local storage
  is kept as two ghost fields, and every handler keeps them equal to the
  state. The ledger field follows the ledger through the save effect of
  `App.tsx:38-40`. The user field is written by `storage.setUser` at
  sign-in (`App.tsx:47`), and `storage.clearAll` removes both at sign-out
  (`App.tsx:51`).
- `form.dfy` (`Form`): the entry form of
  `components/TransactionForm.tsx` as a class with its five fields, its
  handlers and its guarded submit.

Amounts are Dafny `real`s. JavaScript numbers are floating point, so
sums in the app may round where the model's sums are exact.

Four of the core's calls to the outside world become parameters. Local
storage is not one of them: it is the two ghost fields described above.

- `Number(amount)`, which checks the typed amount, is a function
  `string -> Option<real>` passed to the submit; `None` stands for NaN.
  The model uses the same function for the value that `parseFloat`
  produces. On arbitrary strings the two differ: `Number("")` and
  `Number(" ")` are 0 while `parseFloat` gives NaN, and `Number` reads
  the `0x`, `0b` and `0o` prefixes while `parseFloat` stops at the `x`,
  `b` or `o`. None of these strings reaches the handler. The amount
  input has `type="number"` (components/TransactionForm.tsx:63), so the
  browser hands over either an empty string, which the guard rejects
  first, or a plain decimal numeral, on which the two agree.
- The month label that `toLocaleString` derives from a date is a
  function `string -> string`.
- The record id drawn from `Math.random` is an argument of
  `AddTransaction`.
- Today's date, which fills the form's date field, is an argument of the
  form's constructor.

## Model

| member | source | states |
|---|---|---|
| Constants.ColorsTotal | constants.ts:4-15 | every one of the ten categories has a colour |
| Constants.IncomeCategoriesExact | constants.ts:17 | the income list holds Salary, Freelance, Investment and Others, each once, and nothing else |
| Constants.ExpenseCategoriesExact | constants.ts:18 | the expense list holds every category except the three income-only ones, each once |
| Constants.ListsOverlapAndCover | constants.ts:17-18 | Others is the only category in both lists, and together the lists cover all ten categories |
| Stats.OfType | App.tsx:27 | the filter keeps no more records than the ledger has |
| Stats.TotalOf | App.tsx:26-31 | filter-then-sum equals a single pass over the ledger that adds exactly the amounts of the records of that type |
| Stats.OfTypeMembers | App.tsx:27 | a record is kept by the type filter exactly when it is in the ledger and has the requested type |
| Stats.ComputeStats | App.tsx:25-36 | the totals are the sums over income and over expense records; balance = income − expense; with positive income, ratio × income = 100 × expense; otherwise the ratio is 0 (no division by zero) |
| Stats.TotalsPartition | App.tsx:26-31 | every record counts in exactly one of the two totals: together they are the sum of all amounts |
| Stats.EmptyLedgerStats | App.tsx:25-36 | an empty ledger shows 0 for all four figures |
| Stats.StatsAfterAdd | App.tsx:25-36 | a record added in front raises its own type's total by its amount, leaves the other total unchanged, and moves the balance by plus or minus that amount |
| Stats.NonNegativeAmounts | App.tsx:25-36 | with no negative amounts, both totals and the ratio are non-negative, and the bar width lies between 0 and 100 |
| Stats.SalaryAndRent | App.tsx:25-36 | income 1000 against expense 850 gives a balance of 150 and a ratio of 85 |
| Stats.BarWidth | App.tsx:292 | the bar width is at most 100 and at most the ratio: the ratio when below 100, else 100 |
| Stats.Without | App.tsx:66 | deletion keeps no more records than the ledger has |
| Stats.WithoutMembers | App.tsx:66 | a record survives deletion exactly when it was in the ledger and has a different id |
| Stats.WithoutAbsent | App.tsx:65-67 | deleting an id that no record carries leaves the ledger unchanged |
| Stats.WithoutIdempotent | App.tsx:65-67 | deleting the same id twice equals deleting it once |
| Stats.WithoutAppend | App.tsx:65-67 | deletion works piece by piece over a split ledger, so the survivors keep their relative order |
| Charts.Breakdown | components/Charts.tsx:16-26 | the reference breakdown, one slice per first-seen expense category holding that category's sum, has no more slices than the ledger has records |
| Charts.Monthly | components/Charts.tsx:29-39 | the reference bars, one bucket per first-seen month holding its income and expense sums, have no more buckets than the ledger has records |
| Charts.Opened | components/Charts.tsx:32-35 | when the month was found nothing is pushed; when its index is past the end exactly one empty bucket for that month is pushed; the existing buckets are kept as they were, and the index is then in range |
| Charts.Credit | components/Charts.tsx:36-37 | crediting keeps the number of buckets and the credited bucket's name, and raises that bucket's income plus expense by the amount |
| Charts.CreditAt | components/Charts.tsx:36-37 | the credited bucket gains the amount on its income side for income and on its expense side otherwise; every other bucket is unchanged |
| Charts.FindFirst | components/Charts.tsx:19 | returns the index of the first entry with the sought name, or the length when no entry has it |
| Charts.ExpenseBreakdown | components/Charts.tsx:16-26 | the loop over the expense records builds exactly the reference breakdown: one slice per category, in first-seen order, holding that category's sum |
| Charts.MonthlyTotals | components/Charts.tsx:29-39 | the loop over all records builds exactly the reference list of monthly buckets |
| Charts.AddToCategory | components/Charts.tsx:18-25 | the reduce callback, applied to the breakdown of the expenses so far, gives the breakdown of one more expense |
| Charts.GroupedSnoc | components/Charts.tsx:19-24 | one reduce step adds the amount to the slice of a category already present, or else appends a new slice holding the amount |
| Charts.AddToMonth | components/Charts.tsx:29-38 | the reduce callback, applied to the bars of the records so far, gives the bars of one more record |
| Charts.MonthlySnoc | components/Charts.tsx:30-37 | one reduce step opens a zero bucket for a new month, then credits the amount to that month's income if the record is income, else to its expense |
| Charts.BreakdownConserves | components/Charts.tsx:16-26 | the pie slices sum to the dashboard's total expense |
| Charts.BreakdownDistinct | components/Charts.tsx:18-24 | no category has two slices; each slice holds the sum of the expense amounts filed under its category |
| Charts.BreakdownCovers | components/Charts.tsx:16-24 | a category has a slice exactly when an expense record is filed under it: income records never make a slice, and unused categories are left out rather than shown as zero |
| Charts.BreakdownOrder | components/Charts.tsx:19-23 | slices appear in the order in which their categories first occur among the expense records |
| Charts.MonthlyConserves | components/Charts.tsx:29-39 | the income bars sum to total income and the expense bars to total expense; there are no more buckets than records |
| Charts.MonthlyDistinct | components/Charts.tsx:31-37 | no month label has two buckets; each bucket holds its month's income amounts and, as expense, all of its other amounts |
| Charts.MonthlyCovers | components/Charts.tsx:30-35 | every record's month label has a bucket |
| Charts.MonthlyFromRecords | components/Charts.tsx:32-35 | every bucket is named after the month of some record |
| Charts.MonthlyOrder | components/Charts.tsx:31-34 | buckets appear in the order in which their months first occur in the ledger |
| Charts.EmptyCharts | components/Charts.tsx:16-39 | no records give no slices and no bars |
| App.WithId | App.tsx:57-60 | the new record carries the given id, and dropping the id gives back exactly the submitted entry |
| App.AppState.constructor | App.tsx:17-22 | the user and the ledger are read from storage, and a missing ledger reads as empty; the form is closed and the sign-in fields are empty; storage mirrors the state |
| App.AppState.SetAuthName | App.tsx:100 | only the name field changes |
| App.AppState.SetAuthEmail | App.tsx:111 | only the e-mail field changes |
| App.AppState.HandleLogin | App.tsx:42-48 | an empty name or e-mail changes nothing; otherwise the user becomes exactly that name and e-mail and is stored; the ledger is not touched |
| App.AppState.HandleLogout | App.tsx:50-54 | the user is cleared and the ledger emptied; storage then holds no user and an empty ledger |
| App.AppState.AddTransaction | App.tsx:56-63 | the new record, with the given id, goes in front; all older records follow unchanged and in order; the form closes; storage follows |
| App.AppState.DeleteTransaction | App.tsx:65-67 | the ledger becomes the ledger without the id: exactly the records with other ids stay, in order; storage follows |
| App.AppState.OpenForm | App.tsx:310 | the form opens and nothing else changes |
| App.AppState.CloseForm | App.tsx:319 | the form closes and nothing else changes |
| Form.OfferedCategories | components/TransactionForm.tsx:31 | the offered list is never empty and never repeats a category; Others is always offered; Salary is offered exactly for income and Food exactly for expense |
| Form.TransactionForm.constructor | components/TransactionForm.tsx:13-17 | a new form is an expense filed under Food, with today's date and an empty amount and note |
| Form.TransactionForm.SetKind | components/TransactionForm.tsx:46-53 | as written: the type changes and the selected category is kept |
| Form.TransactionForm.ChooseKind | components/TransactionForm.tsx:46-53 | corrected: the type changes, and the category is kept if the new type offers it, else it becomes the first offered one; the selection is then always offered |
| Form.TransactionForm.SetAmount | components/TransactionForm.tsx:66 | only the amount changes |
| Form.TransactionForm.SetCategory | components/TransactionForm.tsx:77 | only the category changes |
| Form.TransactionForm.SetDate | components/TransactionForm.tsx:92 | only the date changes |
| Form.TransactionForm.SetNote | components/TransactionForm.tsx:102 | only the note changes |
| Form.TransactionForm.HandleSubmit | components/TransactionForm.tsx:19-29 | nothing is submitted exactly when the amount is empty or not a number; otherwise exactly one entry goes out, with the parsed amount and the current type, category, date and note, and no creation time |
| Form.StaleCategoryAfterSwitch | components/TransactionForm.tsx:53 | as written: switching a fresh form to Income and saving submits an income entry under Food, which the income list does not offer |
| Form.CategoryFollowsSwitch | components/TransactionForm.tsx:53 | corrected: the same steps submit an income entry under an offered income category |

## Left out

- Local storage is not serialised. JSON encoding and decoding of the
  stored values is not modelled, and `utils/storage.ts` appears only as
  the two ghost fields of `App.AppState`.
- The sign-in / sign-up toggle (`authMode`) and all rendering are left
  out. This covers lists, icons, `toFixed` and `toLocaleString`
  formatting, the red bar above a ratio of 80, and the "you are saving"
  text.
- The spreadsheet export and the Drive sync placeholder (App.tsx:69-79)
  are left out, because they call external libraries and the browser.
- `components/FinancialTips.tsx` and `services/geminiService.ts` are not
  part of this model, because they only call a remote language model.
- Floating point is not modelled: amounts are exact reals, and NaN
  appears only as the `None` of the `Number` parameter.
- Stats.ComputeStats: the ratio is stated through
  `ratio × income = 100 × expense`, not as floating-point division.
- Negative amounts are accepted. The form checks only that the amount
  is a number, so the model does not assume amounts are positive.
  `Stats.NonNegativeAmounts` states what holds when they are.
- Charts.ExpenseBreakdown and Charts.MonthlyTotals keep their
  accumulators as sequences of values, not arrays of shared objects. The
  objects the source mutates in place are all created inside the fold,
  so no aliasing is lost.
- The month label is a caller-supplied function of the date. Because
  the runtime's short month name ignores the year, records from the
  same month of different years share a bucket.
- App.AppState.AddTransaction: the id is an argument and is not checked
  for uniqueness, as in the source. The random generator itself is not
  modelled.

## Findings

| source | as written | input that shows it | evidently intended | confidence | as-written member | corrected member |
|---|---|---|---|---|---|---|
| components/TransactionForm.tsx:53 | the Income button sets only the type, so the category chosen for expenses stays selected | open a new form (category Food), press Income, type 12, save | the selected category follows the offered list, as the drop-down shows its first option when the value is not offered | high; not executed | Form.StaleCategoryAfterSwitch | Form.TransactionForm.ChooseKind |
