/** The two chart aggregations of components/Charts.tsx: the expense
    breakdown by category and the income/expense bars by month. Both walk
    the records once, look the current key up in the list built so far,
    and either add to the entry found or append a new entry. */
module Charts {
  import opened Types
  import opened Grouping
  import opened Stats

  /** A pie slice: a category and the expense filed under it. */
  datatype Slice = Slice(name: Category, value: real)

  /** A bar group: a month label with the income and expense of that month. */
  datatype Bucket = Bucket(name: string, income: real, expense: real)

  function CategoryOf(t: Transaction): Category { t.category }

  function SliceName(s: Slice): Category { s.name }

  function BucketName(b: Bucket): string { b.name }

  /** What a record adds to its month's income bar (nothing unless it is income). */
  function IncomeShare(t: Transaction): real { if t.kind == INCOME then t.amount else 0.0 }

  /** What a record adds to its month's expense bar (everything that is not income). */
  function ExpenseShare(t: Transaction): real { if t.kind == INCOME then 0.0 else t.amount }

  /** The month label of a record. `monthOf` stands for the short month name
      that the runtime derives from the date string; it ignores the year. */
  function MonthKey(monthOf: string -> string): Transaction -> string
  {
    (t: Transaction) => monthOf(t.date)
  }

  // ----- reference definitions -----

  /** One slice per listed category, holding the sum of that category's records. */
  function Slices(ks: seq<Category>, es: seq<Transaction>): (r: seq<Slice>)
    ensures |r| == |ks|
  {
    if ks == [] then []
    else Slices(Init(ks), es) + [Slice(Last(ks), KeyTotal(es, CategoryOf, AmountOf, Last(ks)))]
  }

  /** Slices for every category of `es`, in first-seen order. */
  function Grouped(es: seq<Transaction>): seq<Slice>
  {
    Slices(FirstSeen(Keys(es, CategoryOf)), es)
  }

  /** The expense breakdown the pie chart shows. */
  function Breakdown(ts: seq<Transaction>): (r: seq<Slice>)
    ensures |r| <= |ts|
  {
    Grouped(OfType(ts, EXPENSE))
  }

  /** One bucket per listed month, holding that month's income and expense sums. */
  function Buckets(ms: seq<string>, ts: seq<Transaction>, key: Transaction -> string): (r: seq<Bucket>)
    ensures |r| == |ms|
  {
    if ms == [] then []
    else
      Buckets(Init(ms), ts, key) + [Bucket(Last(ms), KeyTotal(ts, key, IncomeShare, Last(ms)), KeyTotal(ts, key, ExpenseShare, Last(ms)))]
  }

  /** The monthly bars, one per month label in first-seen order. */
  function Monthly(ts: seq<Transaction>, monthOf: string -> string): (r: seq<Bucket>)
    ensures |r| <= |ts|
  {
    Buckets(FirstSeen(Keys(ts, MonthKey(monthOf))), ts, MonthKey(monthOf))
  }

  /** The bucket list with a fresh, empty bucket for `month` appended when
      `j` is past the end (components/Charts.tsx:32-35). */
  function Opened(bs: seq<Bucket>, j: nat, month: string): (r: seq<Bucket>)
    requires j <= |bs|
    ensures j < |r| && |bs| <= |r| && r[..|bs|] == bs
    ensures |r| == if j < |bs| then |bs| else |bs| + 1
    ensures j == |bs| ==> r[j] == Bucket(month, 0.0, 0.0)
  {
    if j < |bs| then bs else bs + [Bucket(month, 0.0, 0.0)]
  }

  /** Bucket `j` credited with record `t`: income to the income side,
      anything else to the expense side (components/Charts.tsx:36-37). */
  function Credit(bs: seq<Bucket>, j: nat, t: Transaction): (r: seq<Bucket>)
    requires j < |bs|
    ensures |r| == |bs| && r[j].name == bs[j].name
    ensures r[j].income + r[j].expense == bs[j].income + bs[j].expense + t.amount
  {
    if t.kind == INCOME then bs[j := bs[j].(income := bs[j].income + t.amount)]
    else bs[j := bs[j].(expense := bs[j].expense + t.amount)]
  }

  /** Crediting bucket `j` adds the record's income share and expense share
      to that bucket and leaves every other bucket as it was. */
  lemma CreditAt(bs: seq<Bucket>, j: nat, t: Transaction, m: nat)
    requires j < |bs| && m < |bs|
    ensures Credit(bs, j, t)[m] ==
      if m == j then Bucket(bs[j].name, bs[j].income + IncomeShare(t), bs[j].expense + ExpenseShare(t))
      else bs[m]
  {
  }

  function SumValues(ss: seq<Slice>): real
  {
    if ss == [] then 0.0 else SumValues(Init(ss)) + Last(ss).value
  }

  function SumIncome(bs: seq<Bucket>): real
  {
    if bs == [] then 0.0 else SumIncome(Init(bs)) + Last(bs).income
  }

  function SumExpense(bs: seq<Bucket>): real
  {
    if bs == [] then 0.0 else SumExpense(Init(bs)) + Last(bs).expense
  }

  // ----- the aggregations as the component runs them -----

  /** `acc.find(item => item.name === k)`: the first entry named `k`, or
      `|xs|` when there is none. */
  method FindFirst<E, K(==)>(xs: seq<E>, nameOf: E -> K, k: K) returns (j: nat)
    ensures j <= |xs|
    ensures forall m :: 0 <= m < j ==> nameOf(xs[m]) != k
    ensures j < |xs| ==> nameOf(xs[j]) == k
  {
    j := 0;
    while j < |xs| && nameOf(xs[j]) != k
      invariant j <= |xs|
      invariant forall m :: 0 <= m < j ==> nameOf(xs[m]) != k
    {
      j := j + 1;
    }
  }

  /** The reduce callback of `expenseData` (components/Charts.tsx:18-25):
      the slice of the record's category grows by its amount, or a new
      slice is pushed. Folded over the expenses so far, it yields the
      breakdown of one more expense. */
  method AddToCategory(ghost done: seq<Transaction>, acc: seq<Slice>, t: Transaction) returns (r: seq<Slice>)
    requires acc == Grouped(done)
    ensures r == Grouped(done + [t])
  {
    var j := FindFirst(acc, SliceName, t.category);
    assert forall m :: 0 <= m < j ==> acc[m].name != t.category by {
      forall m | 0 <= m < j ensures acc[m].name != t.category {
        assert SliceName(acc[m]) != t.category;
      }
    }
    GroupedSnoc(done, t, j);
    if j < |acc| {
      assert acc[j].name == t.category;
      r := acc[j := Slice(acc[j].name, acc[j].value + t.amount)];
    } else {
      r := acc + [Slice(t.category, t.amount)];
    }
  }

  /** `expenseData` (components/Charts.tsx:16-26). */
  method ExpenseBreakdown(ts: seq<Transaction>) returns (acc: seq<Slice>)
    ensures acc == Breakdown(ts)
  {
    var expenses := OfType(ts, EXPENSE);
    acc := [];
    var i := 0;
    while i < |expenses|
      invariant i <= |expenses|
      invariant acc == Grouped(expenses[..i])
    {
      acc := AddToCategory(expenses[..i], acc, expenses[i]);
      assert expenses[..i + 1] == expenses[..i] + [expenses[i]];
      i := i + 1;
    }
    assert expenses[..i] == expenses;
  }

  /** The reduce callback of `monthlyData` (components/Charts.tsx:29-38):
      the bucket of the record's month is found or pushed empty, then the
      amount goes to its income side for income and to its expense side
      otherwise. Folded over the records so far, it yields the bars of one
      more record. */
  method AddToMonth(ghost done: seq<Transaction>, acc: seq<Bucket>, t: Transaction, monthOf: string -> string)
    returns (r: seq<Bucket>)
    requires acc == Monthly(done, monthOf)
    ensures r == Monthly(done + [t], monthOf)
  {
    var month := monthOf(t.date);
    var j := FindFirst(acc, BucketName, month);
    MonthlySnoc(done, t, monthOf, j);
    r := acc;
    if j == |r| {
      r := r + [Bucket(month, 0.0, 0.0)];
    }
    assert r == Opened(acc, j, month);
    if t.kind == INCOME {
      r := r[j := r[j].(income := r[j].income + t.amount)];
    } else {
      r := r[j := r[j].(expense := r[j].expense + t.amount)];
    }
  }

  /** `monthlyData` (components/Charts.tsx:29-39). */
  method MonthlyTotals(ts: seq<Transaction>, monthOf: string -> string) returns (acc: seq<Bucket>)
    ensures acc == Monthly(ts, monthOf)
  {
    acc := [];
    var i := 0;
    while i < |ts|
      invariant i <= |ts|
      invariant acc == Monthly(ts[..i], monthOf)
    {
      acc := AddToMonth(ts[..i], acc, ts[i], monthOf);
      assert ts[..i + 1] == ts[..i] + [ts[i]];
      i := i + 1;
    }
    assert ts[..i] == ts;
  }

  // ----- one step of each fold -----

  /** Slice `i` names the `i`-th listed category and holds the sum of the
      amounts filed under it. */
  lemma {:induction false} SlicesAt(ks: seq<Category>, es: seq<Transaction>, i: nat)
    requires i < |ks|
    ensures Slices(ks, es)[i] == Slice(ks[i], KeyTotal(es, CategoryOf, AmountOf, ks[i]))
  {
    if i < |ks| - 1 {
      SlicesAt(Init(ks), es, i);
    }
  }

  /** Bucket `i` names the `i`-th listed month and holds that month's income
      and expense sums. */
  lemma {:induction false} BucketsAt(ms: seq<string>, ts: seq<Transaction>, key: Transaction -> string, i: nat)
    requires i < |ms|
    ensures Buckets(ms, ts, key)[i] ==
      Bucket(ms[i], KeyTotal(ts, key, IncomeShare, ms[i]), KeyTotal(ts, key, ExpenseShare, ms[i]))
  {
    if i < |ms| - 1 {
      BucketsAt(Init(ms), ts, key, i);
    }
  }

  /** An appended expense whose category is not listed leaves the listed slices alone. */
  lemma SlicesKeep(fs: seq<Category>, p: seq<Transaction>, t: Transaction)
    requires t.category !in fs
    ensures Slices(fs, p + [t]) == Slices(fs, p)
  {
    forall m | 0 <= m < |fs| ensures Slices(fs, p + [t])[m] == Slices(fs, p)[m] {
      SlicesAt(fs, p, m);
      SlicesAt(fs, p + [t], m);
      KeyTotalSnoc(p, t, CategoryOf, AmountOf, fs[m]);
    }
    SameElements(Slices(fs, p + [t]), Slices(fs, p));
  }

  /** An expense under a category not seen before appends a slice holding
      just its amount. */
  lemma GroupedNew(p: seq<Transaction>, t: Transaction)
    requires t.category !in FirstSeen(Keys(p, CategoryOf))
    ensures Grouped(p + [t]) == Grouped(p) + [Slice(t.category, t.amount)]
  {
    var c := t.category;
    var fs := FirstSeen(Keys(p, CategoryOf));
    FirstSeenHas(Keys(p, CategoryOf), c);
    KeysSnoc(p, t, CategoryOf);
    FirstSeenSnoc(Keys(p, CategoryOf), c);
    assert FirstSeen(Keys(p + [t], CategoryOf)) == fs + [c];
    SlicesKeep(fs, p, t);
    KeyTotalSnoc(p, t, CategoryOf, AmountOf, c);
    KeyTotalAbsent(p, CategoryOf, AmountOf, c);
    assert Init(fs + [c]) == fs && Last(fs + [c]) == c;
  }

  /** An expense under a category already seen, at position `j`, grows that
      slice by its amount. */
  lemma GroupedBump(p: seq<Transaction>, t: Transaction, j: nat)
    requires j < |FirstSeen(Keys(p, CategoryOf))|
    requires FirstSeen(Keys(p, CategoryOf))[j] == t.category
    ensures Grouped(p + [t]) == Grouped(p)[j := Slice(t.category, Grouped(p)[j].value + t.amount)]
  {
    var fs := FirstSeen(Keys(p, CategoryOf));
    FirstSeenOnce(Keys(p, CategoryOf), j);
    GroupedKeepsKeys(p, t, j);
    var r := Grouped(p)[j := Slice(t.category, Grouped(p)[j].value + t.amount)];
    forall m | 0 <= m < |fs| ensures Grouped(p + [t])[m] == r[m] {
      SlicesAt(fs, p, m);
      SlicesAt(fs, p + [t], m);
      KeyTotalSnoc(p, t, CategoryOf, AmountOf, fs[m]);
    }
    SameElements(Grouped(p + [t]), r);
  }

  /** An expense under a category already seen leaves the list of categories as it was. */
  lemma GroupedKeepsKeys(p: seq<Transaction>, t: Transaction, j: nat)
    requires j < |FirstSeen(Keys(p, CategoryOf))|
    requires FirstSeen(Keys(p, CategoryOf))[j] == t.category
    ensures FirstSeen(Keys(p + [t], CategoryOf)) == FirstSeen(Keys(p, CategoryOf))
  {
    KeysSnoc(p, t, CategoryOf);
    FirstSeenSnoc(Keys(p, CategoryOf), t.category);
  }

  /** Folding one more expense into the breakdown: if its category is listed
      at `j` that slice grows by the amount, otherwise a new slice holding
      just the amount is appended; no other slice changes. */
  lemma GroupedSnoc(p: seq<Transaction>, t: Transaction, j: nat)
    requires j <= |Grouped(p)|
    requires forall m :: 0 <= m < j ==> Grouped(p)[m].name != t.category
    requires j < |Grouped(p)| ==> Grouped(p)[j].name == t.category
    ensures j < |Grouped(p)| ==>
      Grouped(p + [t]) == Grouped(p)[j := Slice(t.category, Grouped(p)[j].value + t.amount)]
    ensures j == |Grouped(p)| ==> Grouped(p + [t]) == Grouped(p) + [Slice(t.category, t.amount)]
  {
    var c := t.category;
    var fs := FirstSeen(Keys(p, CategoryOf));
    if j < |fs| {
      SlicesAt(fs, p, j);
      GroupedBump(p, t, j);
    } else {
      forall m | 0 <= m < |fs| ensures fs[m] != c {
        SlicesAt(fs, p, m);
      }
      GroupedNew(p, t);
    }
  }

  /** An appended record whose month is not listed leaves the listed buckets alone. */
  lemma BucketsKeep(ms: seq<string>, p: seq<Transaction>, t: Transaction, key: Transaction -> string)
    requires key(t) !in ms
    ensures Buckets(ms, p + [t], key) == Buckets(ms, p, key)
  {
    forall m | 0 <= m < |ms| ensures Buckets(ms, p + [t], key)[m] == Buckets(ms, p, key)[m] {
      BucketsAt(ms, p, key, m);
      BucketsAt(ms, p + [t], key, m);
      KeyTotalSnoc(p, t, key, IncomeShare, ms[m]);
      KeyTotalSnoc(p, t, key, ExpenseShare, ms[m]);
    }
    SameElements(Buckets(ms, p + [t], key), Buckets(ms, p, key));
  }

  /** An appended record whose month is listed once, at `j`, credits
      bucket `j` and leaves the other buckets alone. */
  lemma BucketsCredit(ms: seq<string>, p: seq<Transaction>, t: Transaction, key: Transaction -> string, j: nat)
    requires j < |ms| && ms[j] == key(t)
    requires forall m :: 0 <= m < |ms| && m != j ==> ms[m] != ms[j]
    ensures Buckets(ms, p + [t], key) == Credit(Buckets(ms, p, key), j, t)
  {
    var r := Credit(Buckets(ms, p, key), j, t);
    forall m | 0 <= m < |ms| ensures Buckets(ms, p + [t], key)[m] == r[m] {
      BucketsAt(ms, p, key, m);
      BucketsAt(ms, p + [t], key, m);
      KeyTotalSnoc(p, t, key, IncomeShare, ms[m]);
      KeyTotalSnoc(p, t, key, ExpenseShare, ms[m]);
      CreditAt(Buckets(ms, p, key), j, t, m);
    }
    SameElements(Buckets(ms, p + [t], key), r);
  }

  /** An appended record whose month is new adds a bucket at the end
      holding just that record's shares; the listed buckets stay as they were. */
  lemma BucketsOpen(ms: seq<string>, p: seq<Transaction>, t: Transaction, key: Transaction -> string)
    requires key(t) !in ms
    requires KeyTotal(p, key, IncomeShare, key(t)) == 0.0 && KeyTotal(p, key, ExpenseShare, key(t)) == 0.0
    ensures Buckets(ms + [key(t)], p + [t], key) == Buckets(ms, p, key) + [Bucket(key(t), IncomeShare(t), ExpenseShare(t))]
  {
    var c := key(t);
    BucketsKeep(ms, p, t, key);
    KeyTotalSnoc(p, t, key, IncomeShare, c);
    KeyTotalSnoc(p, t, key, ExpenseShare, c);
    assert Init(ms + [c]) == ms && Last(ms + [c]) == c;
  }

  /** Opening an empty bucket and crediting it equals appending a bucket
      that holds the record's shares. */
  lemma OpenThenCredit(g: seq<Bucket>, c: string, t: Transaction)
    ensures Credit(Opened(g, |g|, c), |g|, t) == g + [Bucket(c, IncomeShare(t), ExpenseShare(t))]
  {
    var o := g + [Bucket(c, 0.0, 0.0)];
    assert Opened(g, |g|, c) == o;
    var r := Credit(o, |g|, t);
    SameElements(r, g + [Bucket(c, IncomeShare(t), ExpenseShare(t))]);
  }

  /** A record of a month already seen leaves the list of months as it was. */
  lemma MonthlyKeepsKeys(p: seq<Transaction>, t: Transaction, monthOf: string -> string, j: nat)
    requires j < |FirstSeen(Keys(p, MonthKey(monthOf)))|
    requires FirstSeen(Keys(p, MonthKey(monthOf)))[j] == monthOf(t.date)
    ensures FirstSeen(Keys(p + [t], MonthKey(monthOf))) == FirstSeen(Keys(p, MonthKey(monthOf)))
  {
    var key := MonthKey(monthOf);
    assert key(t) == monthOf(t.date);
    KeysSnoc(p, t, key);
    FirstSeenSnoc(Keys(p, key), key(t));
  }

  /** A record of a month already seen, at position `j`, is credited to
      that bucket and to no other. */
  lemma MonthlyCredit(p: seq<Transaction>, t: Transaction, monthOf: string -> string, j: nat)
    requires j < |FirstSeen(Keys(p, MonthKey(monthOf)))|
    requires FirstSeen(Keys(p, MonthKey(monthOf)))[j] == monthOf(t.date)
    ensures j < |Monthly(p, monthOf)|
    ensures Monthly(p + [t], monthOf) == Credit(Monthly(p, monthOf), j, t)
  {
    var key := MonthKey(monthOf);
    var fs := FirstSeen(Keys(p, key));
    assert key(t) == monthOf(t.date);
    FirstSeenOnce(Keys(p, key), j);
    MonthlyKeepsKeys(p, t, monthOf, j);
    BucketsCredit(fs, p, t, key, j);
  }

  /** A record of a month not seen before appends a bucket holding just
      that record's shares. */
  lemma MonthlyNew(p: seq<Transaction>, t: Transaction, monthOf: string -> string)
    requires monthOf(t.date) !in FirstSeen(Keys(p, MonthKey(monthOf)))
    ensures Monthly(p + [t], monthOf) ==
      Monthly(p, monthOf) + [Bucket(monthOf(t.date), IncomeShare(t), ExpenseShare(t))]
  {
    var key := MonthKey(monthOf);
    var c := monthOf(t.date);
    var fs := FirstSeen(Keys(p, key));
    assert key(t) == c;
    FirstSeenHas(Keys(p, key), c);
    KeysSnoc(p, t, key);
    FirstSeenSnoc(Keys(p, key), c);
    assert FirstSeen(Keys(p + [t], key)) == fs + [c];
    KeyTotalAbsent(p, key, IncomeShare, c);
    KeyTotalAbsent(p, key, ExpenseShare, c);
    BucketsOpen(fs, p, t, key);
  }

  /** Folding one more record into the monthly bars: the bucket of its month
      (found at `j`, or opened at the end with zero income and expense) gets
      the amount on its income side if the record is income and on its
      expense side otherwise; no other bucket changes. */
  lemma MonthlySnoc(p: seq<Transaction>, t: Transaction, monthOf: string -> string, j: nat)
    requires j <= |Monthly(p, monthOf)|
    requires forall m :: 0 <= m < j ==> Monthly(p, monthOf)[m].name != monthOf(t.date)
    requires j < |Monthly(p, monthOf)| ==> Monthly(p, monthOf)[j].name == monthOf(t.date)
    ensures Monthly(p + [t], monthOf) == Credit(Opened(Monthly(p, monthOf), j, monthOf(t.date)), j, t)
  {
    var key := MonthKey(monthOf);
    var c := monthOf(t.date);
    var fs := FirstSeen(Keys(p, key));
    if j < |fs| {
      BucketsAt(fs, p, key, j);
      MonthlyCredit(p, t, monthOf, j);
    } else {
      forall m | 0 <= m < |fs| ensures fs[m] != c {
        BucketsAt(fs, p, key, m);
      }
      MonthlyNew(p, t, monthOf);
      OpenThenCredit(Monthly(p, monthOf), c, t);
    }
  }

  // ----- what the charts promise -----

  lemma {:induction false} SumValuesSlices(ks: seq<Category>, es: seq<Transaction>)
    ensures SumValues(Slices(ks, es)) == SumOver(ks, es, CategoryOf, AmountOf)
  {
    if ks != [] {
      SumValuesSlices(Init(ks), es);
      var r := Slices(ks, es);
      assert Init(r) == Slices(Init(ks), es);
    }
  }

  lemma {:induction false} SumBuckets(ms: seq<string>, ts: seq<Transaction>, key: Transaction -> string)
    ensures SumIncome(Buckets(ms, ts, key)) == SumOver(ms, ts, key, IncomeShare)
    ensures SumExpense(Buckets(ms, ts, key)) == SumOver(ms, ts, key, ExpenseShare)
  {
    if ms != [] {
      SumBuckets(Init(ms), ts, key);
      var r := Buckets(ms, ts, key);
      assert Init(r) == Buckets(Init(ms), ts, key);
    }
  }

  lemma {:induction false} IncomeSharesAreKeyTotal(ts: seq<Transaction>)
    ensures Total(ts, IncomeShare) == KeyTotal(ts, KindOf, AmountOf, INCOME)
  {
    if ts != [] {
      IncomeSharesAreKeyTotal(Init(ts));
    }
  }

  lemma {:induction false} ExpenseSharesAreKeyTotal(ts: seq<Transaction>)
    ensures Total(ts, ExpenseShare) == KeyTotal(ts, KindOf, AmountOf, EXPENSE)
  {
    if ts != [] {
      ExpenseSharesAreKeyTotal(Init(ts));
    }
  }

  /** Crediting income shares over a ledger totals its income, and expense
      shares its expense. */
  lemma SharesTotal(ts: seq<Transaction>)
    ensures Total(ts, IncomeShare) == TotalOf(ts, INCOME)
    ensures Total(ts, ExpenseShare) == TotalOf(ts, EXPENSE)
  {
    IncomeSharesAreKeyTotal(ts);
    ExpenseSharesAreKeyTotal(ts);
  }

  /** The pie slices add up to the dashboard's total expense. */
  lemma BreakdownConserves(ts: seq<Transaction>)
    ensures SumValues(Breakdown(ts)) == ComputeStats(ts).totalExpense
  {
    var es := OfType(ts, EXPENSE);
    SumValuesSlices(FirstSeen(Keys(es, CategoryOf)), es);
    GroupedTotalsConserve(es, CategoryOf, AmountOf);
  }

  /** The income bars add up to the dashboard's total income and the expense
      bars to its total expense; there are never more bars than records. */
  lemma MonthlyConserves(ts: seq<Transaction>, monthOf: string -> string)
    ensures SumIncome(Monthly(ts, monthOf)) == ComputeStats(ts).totalIncome
    ensures SumExpense(Monthly(ts, monthOf)) == ComputeStats(ts).totalExpense
    ensures |Monthly(ts, monthOf)| <= |ts|
  {
    var key := MonthKey(monthOf);
    SumBuckets(FirstSeen(Keys(ts, key)), ts, key);
    GroupedTotalsConserve(ts, key, IncomeShare);
    GroupedTotalsConserve(ts, key, ExpenseShare);
    SharesTotal(ts);
    FirstSeenFacts(Keys(ts, key));
  }

  /** Each category has at most one slice, and the slice holds the sum of
      the amounts of the expense records filed under it. */
  lemma BreakdownDistinct(ts: seq<Transaction>)
    ensures var b := Breakdown(ts);
      forall i, j :: 0 <= i < j < |b| ==> b[i].name != b[j].name
    ensures var b := Breakdown(ts);
      forall i :: 0 <= i < |b| ==> b[i].value == KeyTotal(OfType(ts, EXPENSE), CategoryOf, AmountOf, b[i].name)
  {
    var es := OfType(ts, EXPENSE);
    var fs := FirstSeen(Keys(es, CategoryOf));
    var b := Breakdown(ts);
    FirstSeenFacts(Keys(es, CategoryOf));
    forall i | 0 <= i < |b| ensures b[i] == Slice(fs[i], KeyTotal(es, CategoryOf, AmountOf, fs[i])) {
      SlicesAt(fs, es, i);
    }
  }

  /** A category has a slice exactly when some expense record is filed under
      it: income records never make a slice, and unused categories are
      absent rather than shown as zero. */
  lemma BreakdownCovers(ts: seq<Transaction>, c: Category)
    ensures (exists i :: 0 <= i < |Breakdown(ts)| && Breakdown(ts)[i].name == c) <==>
            (exists t :: t in ts && t.kind == EXPENSE && t.category == c)
  {
    var es := OfType(ts, EXPENSE);
    var fs := FirstSeen(Keys(es, CategoryOf));
    var b := Breakdown(ts);
    FirstSeenFacts(Keys(es, CategoryOf));
    InKeys(es, CategoryOf, c);
    OfTypeMembers(ts, EXPENSE);
    if c in fs {
      var i :| 0 <= i < |fs| && fs[i] == c;
      SlicesAt(fs, es, i);
      assert b[i].name == c;
    }
    if exists i :: 0 <= i < |b| && b[i].name == c {
      var i :| 0 <= i < |b| && b[i].name == c;
      SlicesAt(fs, es, i);
      assert fs[i] in fs;
    }
  }

  /** Slices appear in the order in which their category first occurs among
      the expense records. */
  lemma BreakdownOrder(ts: seq<Transaction>, i: nat, j: nat)
    requires i < j < |Breakdown(ts)|
    ensures var ks, b := Keys(OfType(ts, EXPENSE), CategoryOf), Breakdown(ts);
      b[i].name in ks && b[j].name in ks && FirstIndex(ks, b[i].name) < FirstIndex(ks, b[j].name)
  {
    var es := OfType(ts, EXPENSE);
    var fs := FirstSeen(Keys(es, CategoryOf));
    SlicesAt(fs, es, i);
    SlicesAt(fs, es, j);
    FirstSeenOrder(Keys(es, CategoryOf), i, j);
  }

  /** Month labels are pairwise distinct, and each bucket holds the income
      of that month's income records and the amounts of all its other
      records as expense. */
  lemma MonthlyDistinct(ts: seq<Transaction>, monthOf: string -> string)
    ensures var b := Monthly(ts, monthOf);
      forall i, j :: 0 <= i < j < |b| ==> b[i].name != b[j].name
    ensures var b := Monthly(ts, monthOf);
      forall i :: 0 <= i < |b| ==>
        b[i].income == KeyTotal(ts, MonthKey(monthOf), IncomeShare, b[i].name) &&
        b[i].expense == KeyTotal(ts, MonthKey(monthOf), ExpenseShare, b[i].name)
  {
    var key := MonthKey(monthOf);
    var fs := FirstSeen(Keys(ts, key));
    var b := Monthly(ts, monthOf);
    FirstSeenFacts(Keys(ts, key));
    forall i | 0 <= i < |b|
      ensures b[i] == Bucket(fs[i], KeyTotal(ts, key, IncomeShare, fs[i]), KeyTotal(ts, key, ExpenseShare, fs[i]))
    {
      BucketsAt(fs, ts, key, i);
    }
  }

  /** Every record's month label names a bucket (exactly one, the labels
      being distinct), so records from the same month of different years
      share a bucket. */
  lemma MonthlyCovers(ts: seq<Transaction>, monthOf: string -> string, t: Transaction)
    requires t in ts
    ensures exists i :: 0 <= i < |Monthly(ts, monthOf)| && Monthly(ts, monthOf)[i].name == monthOf(t.date)
  {
    var key := MonthKey(monthOf);
    var fs := FirstSeen(Keys(ts, key));
    FirstSeenFacts(Keys(ts, key));
    var c := monthOf(t.date);
    assert key(t) == c;
    InKeys(ts, key, c);
    assert c in Keys(ts, key);
    assert c in fs;
    var i :| 0 <= i < |fs| && fs[i] == c;
    BucketsAt(fs, ts, key, i);
    assert Monthly(ts, monthOf)[i].name == c;
  }

  /** Every bucket is named after the month label of some record: no empty
      months are filled in. */
  lemma MonthlyFromRecords(ts: seq<Transaction>, monthOf: string -> string, i: nat)
    requires i < |Monthly(ts, monthOf)|
    ensures exists t :: t in ts && monthOf(t.date) == Monthly(ts, monthOf)[i].name
  {
    var key := MonthKey(monthOf);
    var fs := FirstSeen(Keys(ts, key));
    FirstSeenFacts(Keys(ts, key));
    BucketsAt(fs, ts, key, i);
    assert fs[i] in fs;
    InKeys(ts, key, fs[i]);
    var t :| t in ts && key(t) == fs[i];
    assert monthOf(t.date) == key(t);
  }

  /** Buckets appear in the order in which their label first occurs among the
      records, not in calendar order. */
  lemma MonthlyOrder(ts: seq<Transaction>, monthOf: string -> string, i: nat, j: nat)
    requires i < j < |Monthly(ts, monthOf)|
    ensures var ks, b := Keys(ts, MonthKey(monthOf)), Monthly(ts, monthOf);
      b[i].name in ks && b[j].name in ks && FirstIndex(ks, b[i].name) < FirstIndex(ks, b[j].name)
  {
    var key := MonthKey(monthOf);
    var fs := FirstSeen(Keys(ts, key));
    BucketsAt(fs, ts, key, i);
    BucketsAt(fs, ts, key, j);
    FirstSeenOrder(Keys(ts, key), i, j);
  }

  /** No records: no slices and no bars. */
  lemma EmptyCharts(monthOf: string -> string)
    ensures Breakdown([]) == [] && Monthly([], monthOf) == []
  {
  }
}
