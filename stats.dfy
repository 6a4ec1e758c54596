/** The dashboard figures and the ledger edits of App.tsx, as functions on
    the list of records. */
module Stats {
  import opened Types
  import opened Grouping

  function AmountOf(t: Transaction): real { t.amount }

  function KindOf(t: Transaction): TransactionType { t.kind }

  /** The records of one type, in ledger order (App.tsx:27, 30). */
  function OfType(ts: seq<Transaction>, ty: TransactionType): (r: seq<Transaction>)
    ensures |r| <= |ts|
  {
    if ts == [] then []
    else OfType(Init(ts), ty) + (if Last(ts).kind == ty then [Last(ts)] else [])
  }

  /** Filter by type, then add up the amounts from 0 (App.tsx:26-31).
      The result is what a single pass over the ledger collects when it
      adds exactly the amounts of the records of that type. */
  function TotalOf(ts: seq<Transaction>, ty: TransactionType): (r: real)
    ensures r == KeyTotal(ts, KindOf, AmountOf, ty)
  {
    FilterThenSum(ts, ty);
    Total(OfType(ts, ty), AmountOf)
  }

  /** The four dashboard figures (App.tsx:25-36). The ratio is the expense
      as a percentage of the income, and 0 when there is no positive income. */
  function ComputeStats(ts: seq<Transaction>): (s: FinancialStats)
    ensures s.totalIncome == TotalOf(ts, INCOME) && s.totalExpense == TotalOf(ts, EXPENSE)
    ensures s.balance == s.totalIncome - s.totalExpense
    ensures s.totalIncome > 0.0 ==> s.expenseRatio * s.totalIncome == 100.0 * s.totalExpense
    ensures s.totalIncome <= 0.0 ==> s.expenseRatio == 0.0
  {
    var totalIncome := TotalOf(ts, INCOME);
    var totalExpense := TotalOf(ts, EXPENSE);
    var balance := totalIncome - totalExpense;
    var expenseRatio := if totalIncome > 0.0 then (totalExpense / totalIncome) * 100.0 else 0.0;
    FinancialStats(totalIncome, totalExpense, balance, expenseRatio)
  }

  /** Width in percent of the summary bar: the ratio, capped at 100 (App.tsx:292). */
  function BarWidth(ratio: real): (w: real)
    ensures w <= 100.0 && w <= ratio
    ensures w == ratio || w == 100.0
  {
    if ratio < 100.0 then ratio else 100.0
  }

  /** The ledger without the records carrying `id` (App.tsx:65-67). */
  function Without(ts: seq<Transaction>, id: string): (r: seq<Transaction>)
    ensures |r| <= |ts|
  {
    if ts == [] then []
    else (if ts[0].id == id then [] else [ts[0]]) + Without(ts[1..], id)
  }

  /** A record is kept by the type filter exactly when it is in the ledger
      and has that type. */
  lemma {:induction false} OfTypeMembers(ts: seq<Transaction>, ty: TransactionType)
    ensures forall t :: t in OfType(ts, ty) <==> t in ts && t.kind == ty
  {
    if ts != [] {
      OfTypeMembers(Init(ts), ty);
      assert ts == Init(ts) + [Last(ts)];
    }
  }

  /** A record survives deletion exactly when it is in the ledger and
      carries another id. */
  lemma {:induction false} WithoutMembers(ts: seq<Transaction>, id: string)
    ensures forall t :: t in Without(ts, id) <==> t in ts && t.id != id
  {
    if ts != [] {
      WithoutMembers(ts[1..], id);
      assert ts == [ts[0]] + ts[1..];
    }
  }

  /** Filtering by type splits over concatenation. */
  lemma {:induction false} OfTypeAppend(a: seq<Transaction>, b: seq<Transaction>, ty: TransactionType)
    ensures OfType(a + b, ty) == OfType(a, ty) + OfType(b, ty)
  {
    if b != [] {
      assert a + b != [] && Init(a + b) == a + Init(b) && Last(a + b) == Last(b);
      OfTypeAppend(a, Init(b), ty);
      var tail := if Last(b).kind == ty then [Last(b)] else [];
      calc {
        OfType(a + b, ty);
        OfType(a + Init(b), ty) + tail;
        OfType(a, ty) + OfType(Init(b), ty) + tail;
        OfType(a, ty) + OfType(b, ty);
      }
    } else {
      assert a + b == a;
    }
  }

  /** A type total over two lists is the sum of their type totals. */
  lemma TotalOfAppend(a: seq<Transaction>, b: seq<Transaction>, ty: TransactionType)
    ensures TotalOf(a + b, ty) == TotalOf(a, ty) + TotalOf(b, ty)
  {
    OfTypeAppend(a, b, ty);
    TotalAppend(OfType(a, ty), OfType(b, ty), AmountOf);
  }

  /** Filter-then-sum agrees with the one-pass grouped total keyed by type:
      exactly the records of that type contribute, each with its amount. */
  lemma {:induction false} FilterThenSum(ts: seq<Transaction>, ty: TransactionType)
    ensures Total(OfType(ts, ty), AmountOf) == KeyTotal(ts, KindOf, AmountOf, ty)
  {
    if ts != [] {
      var t := Last(ts);
      var tail := if t.kind == ty then [t] else [];
      FilterThenSum(Init(ts), ty);
      TotalAppend(OfType(Init(ts), ty), tail, AmountOf);
      if t.kind == ty {
        assert Init(tail) == [];
      }
    }
  }

  /** Every record is either income or expense, so the two totals add up to
      the sum of all amounts. */
  lemma {:induction false} TotalsPartition(ts: seq<Transaction>)
    ensures TotalOf(ts, INCOME) + TotalOf(ts, EXPENSE) == Total(ts, AmountOf)
  {
    if ts != [] {
      var t := Last(ts);
      var inc := if t.kind == INCOME then [t] else [];
      var exp := if t.kind == EXPENSE then [t] else [];
      TotalsPartition(Init(ts));
      TotalAppend(OfType(Init(ts), INCOME), inc, AmountOf);
      TotalAppend(OfType(Init(ts), EXPENSE), exp, AmountOf);
      assert Init([t]) == [];
      assert Total(inc, AmountOf) + Total(exp, AmountOf) == t.amount;
    }
  }

  /** An empty ledger shows all four figures as zero. */
  lemma EmptyLedgerStats()
    ensures ComputeStats([]) == FinancialStats(0.0, 0.0, 0.0, 0.0)
  {
  }

  /** Adding a record in front moves its own type's total by its amount, and
      the balance up for income or down for expense. */
  lemma StatsAfterAdd(t: Transaction, ts: seq<Transaction>)
    ensures var s, s' := ComputeStats(ts), ComputeStats([t] + ts);
      && s'.totalIncome == s.totalIncome + (if t.kind == INCOME then t.amount else 0.0)
      && s'.totalExpense == s.totalExpense + (if t.kind == EXPENSE then t.amount else 0.0)
      && s'.balance == s.balance + (if t.kind == INCOME then t.amount else -t.amount)
  {
    TotalOfAppend([t], ts, INCOME);
    TotalOfAppend([t], ts, EXPENSE);
    assert Init([t]) == [];
  }

  /** With no negative amounts the totals and the ratio are non-negative and
      the summary bar is between 0 and 100 percent wide. */
  lemma {:induction false} NonNegativeAmounts(ts: seq<Transaction>)
    requires forall t :: t in ts ==> t.amount >= 0.0
    ensures var s := ComputeStats(ts);
      && s.totalIncome >= 0.0 && s.totalExpense >= 0.0
      && s.expenseRatio >= 0.0
      && 0.0 <= BarWidth(s.expenseRatio) <= 100.0
  {
    TypeTotalNonNegative(ts, INCOME);
    TypeTotalNonNegative(ts, EXPENSE);
    var s := ComputeStats(ts);
    if s.totalIncome > 0.0 {
      assert s.expenseRatio == (s.totalExpense / s.totalIncome) * 100.0;
    }
  }

  /** A type total over non-negative amounts is non-negative. */
  lemma TypeTotalNonNegative(ts: seq<Transaction>, ty: TransactionType)
    requires forall t :: t in ts ==> t.amount >= 0.0
    ensures TotalOf(ts, ty) >= 0.0
  {
    OfTypeMembers(ts, ty);
    TotalNonNegative(OfType(ts, ty));
  }

  lemma {:induction false} TotalNonNegative(ts: seq<Transaction>)
    requires forall t :: t in ts ==> t.amount >= 0.0
    ensures Total(ts, AmountOf) >= 0.0
  {
    if ts != [] {
      assert Last(ts) in ts;
      TotalNonNegative(Init(ts));
    }
  }

  /** A salary of 1000 against a rent of 850 gives a balance of 150 and a
      ratio of 85 percent. */
  lemma SalaryAndRent(salary: Transaction, rent: Transaction)
    requires salary.kind == INCOME && salary.amount == 1000.0
    requires rent.kind == EXPENSE && rent.amount == 850.0
    ensures ComputeStats([salary, rent]) == FinancialStats(1000.0, 850.0, 150.0, 85.0)
  {
    assert Init([salary, rent]) == [salary] && Init([salary]) == [];
    assert OfType([salary, rent], INCOME) == [salary];
    assert OfType([salary, rent], EXPENSE) == [rent];
    assert Init([rent]) == [];
    assert Total([salary], AmountOf) == Total([], AmountOf) + 1000.0;
    assert Total([rent], AmountOf) == Total([], AmountOf) + 850.0;
    assert TotalOf([salary, rent], EXPENSE) == 850.0;
  }

  /** Deleting an id no record carries changes nothing. */
  lemma {:induction false} WithoutAbsent(ts: seq<Transaction>, id: string)
    requires forall t :: t in ts ==> t.id != id
    ensures Without(ts, id) == ts
  {
    if ts != [] {
      assert ts[0] in ts;
      assert forall t :: t in ts[1..] ==> t in ts;
      WithoutAbsent(ts[1..], id);
    }
  }

  /** Deleting the same id twice is the same as deleting it once. */
  lemma WithoutIdempotent(ts: seq<Transaction>, id: string)
    ensures Without(Without(ts, id), id) == Without(ts, id)
  {
    WithoutMembers(ts, id);
    WithoutAbsent(Without(ts, id), id);
  }

  /** Deleting works piecewise over concatenation, so the surviving records
      keep their relative order. */
  lemma {:induction false} WithoutAppend(a: seq<Transaction>, b: seq<Transaction>, id: string)
    ensures Without(a + b, id) == Without(a, id) + Without(b, id)
  {
    if a != [] {
      assert a + b != [] && (a + b)[0] == a[0] && (a + b)[1..] == a[1..] + b;
      WithoutAppend(a[1..], b, id);
    } else {
      assert a + b == b;
    }
  }
}
