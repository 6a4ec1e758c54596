/** Fixed category tables (constants.ts). */
module Constants {
  import opened Types

  /** The colour each category is drawn in. */
  const CategoryColors: map<Category, string> := map[
    Salary := "#10b981",
    Freelance := "#34d399",
    Investment := "#059669",
    Food := "#f87171",
    Transport := "#60a5fa",
    Rent := "#818cf8",
    Shopping := "#fbbf24",
    Entertainment := "#c084fc",
    Health := "#f472b6",
    Others := "#94a3b8"
  ]

  /** Categories offered for income records, in display order. */
  const IncomeCategories: seq<Category> := [Salary, Freelance, Investment, Others]

  /** Categories offered for expense records, in display order. */
  const ExpenseCategories: seq<Category> :=
    [Food, Transport, Rent, Shopping, Entertainment, Health, Others]

  /** The colour map is total: every category can be drawn. */
  lemma ColorsTotal(c: Category)
    ensures c in CategoryColors
  {
  }

  /** The income list is exactly Salary, Freelance, Investment and Others, once each. */
  lemma IncomeCategoriesExact(c: Category)
    ensures NoDuplicates(IncomeCategories)
    ensures c in IncomeCategories <==> c == Salary || c == Freelance || c == Investment || c == Others
  {
  }

  /** The expense list is exactly the six spending categories and Others, once each. */
  lemma ExpenseCategoriesExact(c: Category)
    ensures NoDuplicates(ExpenseCategories)
    ensures c in ExpenseCategories <==> !(c == Salary || c == Freelance || c == Investment)
  {
  }

  /** Others is the one category both lists share, and together they cover every category. */
  lemma ListsOverlapAndCover(c: Category)
    ensures c in IncomeCategories && c in ExpenseCategories <==> c == Others
    ensures c in IncomeCategories || c in ExpenseCategories
  {
  }
}
