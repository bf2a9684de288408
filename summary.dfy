/** The per-category breakdown of a month's expenses computed for the summary
    chart (`components/expense-summary.tsx`, the `categoryData` memo). */
module ExpenseSummary {
  import opened Wrappers
  import opened Types
  import opened Sequences
  import opened Store

  // ---------------------------------------------------------------------------
  // The `categoryTotals` record

  /** A property value of `categoryTotals`: a number, or `NaN`, which stands for any
      non-number the `+=` can leave under a key that was never initialised
      (`undefined + amount` is NaN; a name inherited from `Object.prototype`
      reads a function and leaves a string). None of them is `> 0`. */
  datatype Total = Num(value: real) | NaN

  /** `current + amount`, where `current` is the property read (`None` is `undefined`). */
  function Plus(current: Option<Total>, amount: real): Total {
    match current
    case Some(Num(v)) => Num(v + amount)
    case _ => NaN
  }

  /** One property of `categoryTotals`. A record is a sequence of them in
      insertion order, the order `Object.entries` reports. */
  datatype Entry = Entry(key: string, total: Total)

  predicate DistinctKeys(d: seq<Entry>) {
    forall i, j :: 0 <= i < j < |d| ==> d[i].key != d[j].key
  }

  /** Where the property `key` is stored, if it exists. */
  function KeyIndex(d: seq<Entry>, key: string): (r: Option<nat>)
    ensures r.Some? ==> r.value < |d| && d[r.value].key == key
    ensures r.None? ==> forall i :: 0 <= i < |d| ==> d[i].key != key
  {
    if d == [] then None
    else if d[0].key == key then Some(0)
    else match KeyIndex(d[1..], key)
      case None => None
      case Some(i) => Some(i + 1)
  }

  /** Reading `record[key]`. */
  function Get(d: seq<Entry>, key: string): Option<Total> {
    match KeyIndex(d, key)
    case Some(i) => Some(d[i].total)
    case None => None
  }

  /** Assigning `record[key] = v`: an existing property keeps its place, a new
      one goes last. */
  function Put(d: seq<Entry>, key: string, v: Total): (r: seq<Entry>)
    requires DistinctKeys(d)
    ensures DistinctKeys(r)
    ensures KeyIndex(d, key).Some? ==> |r| == |d| && r[KeyIndex(d, key).value] == Entry(key, v)
    ensures KeyIndex(d, key).None? ==> r == d + [Entry(key, v)]
    ensures forall i :: 0 <= i < |d| && d[i].key != key ==> r[i] == d[i]
  {
    match KeyIndex(d, key)
    case Some(i) => d[i := Entry(key, v)]
    case None => d + [Entry(key, v)]
  }

  lemma GetAt(d: seq<Entry>, key: string, i: nat)
    requires DistinctKeys(d)
    requires i < |d| && d[i].key == key
    ensures KeyIndex(d, key) == Some(i)
    ensures Get(d, key) == Some(d[i].total)
  {
  }

  // ---------------------------------------------------------------------------
  // Per-category sums

  function InCategory(category: string): Expense -> bool {
    (e: Expense) => e.category == category
  }

  /** The amount spent on one category. */
  function CategorySum(s: seq<Expense>, category: string): real {
    SumAmounts(Filter(s, InCategory(category)))
  }

  /** Counting one more expense adds its amount to its own category only. */
  lemma CategorySumAppend(s: seq<Expense>, e: Expense, category: string)
    ensures CategorySum(s + [e], category)
         == CategorySum(s, category) + (if e.category == category then e.amount else 0.0)
  {
    var keep := InCategory(category);
    FilterSnoc(s, e, keep);
    SumAppend(Filter(s, keep), if keep(e) then [e] else []);
  }

  lemma CategorySumNonNegative(s: seq<Expense>, category: string)
    requires forall i :: 0 <= i < |s| ==> s[i].amount >= 0.0
    ensures CategorySum(s, category) >= 0.0
  {
    var r := Filter(s, InCategory(category));
    FilterMembers(s, InCategory(category));
    forall k | 0 <= k < |r|
      ensures r[k].amount >= 0.0
    {
      assert r[k] in s;
    }
    SumNonNegative(r);
  }

  // ---------------------------------------------------------------------------
  // Building the record

  /** The record for `cats` with each category's sum, in the order of `cats`. */
  function TotalsFor(s: seq<Expense>, cats: seq<string>): (r: seq<Entry>)
    ensures |r| == |cats|
    ensures forall i :: 0 <= i < |cats| ==> r[i] == Entry(cats[i], Num(CategorySum(s, cats[i])))
  {
    if cats == [] then []
    else TotalsFor(s, cats[..|cats| - 1]) + [Entry(cats[|cats| - 1], Num(CategorySum(s, cats[|cats| - 1])))]
  }

  /** `EXPENSE_CATEGORIES.forEach(cat => { categoryTotals[cat] = 0; })`. */
  method InitialTotals() returns (totals: seq<Entry>)
    ensures |totals| == |ExpenseCategories|
    ensures forall i :: 0 <= i < |totals| ==> totals[i] == Entry(ExpenseCategories[i], Num(0.0))
  {
    CategoriesListedOnce();
    totals := [];
    for i := 0 to |ExpenseCategories|
      invariant |totals| == i
      invariant forall k :: 0 <= k < i ==> totals[k] == Entry(ExpenseCategories[k], Num(0.0))
    {
      totals := Put(totals, ExpenseCategories[i], Num(0.0));
    }
  }

  /** What the record holds once the expenses `s` have been counted: the ten
      categories first, in list order, each with its sum over `s`; after them
      only keys outside the ten, each NaN; every such key of `s` present. */
  ghost predicate Accumulated(totals: seq<Entry>, s: seq<Expense>) {
    && DistinctKeys(totals)
    && |totals| >= |ExpenseCategories|
    && (forall k :: 0 <= k < |ExpenseCategories| ==>
          totals[k] == Entry(ExpenseCategories[k], Num(CategorySum(s, ExpenseCategories[k]))))
    && (forall k :: |ExpenseCategories| <= k < |totals| ==> totals[k].total == NaN && !IsExpenseCategory(totals[k].key))
    && (forall i :: 0 <= i < |s| && !IsExpenseCategory(s[i].category) ==> Get(totals, s[i].category) == Some(NaN))
  }

  /** `categoryTotals[e.category] += e.amount` keeps the record accumulated. */
  lemma AccumulateStep(totals: seq<Entry>, s: seq<Expense>, e: Expense)
    requires Accumulated(totals, s)
    ensures Accumulated(Put(totals, e.category, Plus(Get(totals, e.category), e.amount)), s + [e])
  {
    var next := Put(totals, e.category, Plus(Get(totals, e.category), e.amount));
    StepKeepsSums(totals, s, e);
    StepKeepsTail(totals, s, e);
    StepKeepsUnknown(totals, s, e);
  }

  /** Positions below the ten hold categories, so an unknown key sits after them. */
  lemma UnknownKeyAfterCategories(totals: seq<Entry>, s: seq<Expense>, key: string)
    requires Accumulated(totals, s)
    requires !IsExpenseCategory(key)
    ensures KeyIndex(totals, key).Some? ==> KeyIndex(totals, key).value >= |ExpenseCategories|
  {
  }

  lemma StepKeepsSums(totals: seq<Entry>, s: seq<Expense>, e: Expense)
    requires Accumulated(totals, s)
    ensures var next := Put(totals, e.category, Plus(Get(totals, e.category), e.amount));
      forall k :: 0 <= k < |ExpenseCategories| ==>
        next[k] == Entry(ExpenseCategories[k], Num(CategorySum(s + [e], ExpenseCategories[k])))
  {
    var n := |ExpenseCategories|;
    var next := Put(totals, e.category, Plus(Get(totals, e.category), e.amount));
    forall k | 0 <= k < n
      ensures next[k] == Entry(ExpenseCategories[k], Num(CategorySum(s + [e], ExpenseCategories[k])))
    {
      StepAt(totals, s, e, k, ExpenseCategories[k]);
    }
  }

  /** The step on one position that holds a category's running sum. */
  lemma StepAt(totals: seq<Entry>, s: seq<Expense>, e: Expense, k: nat, c: string)
    requires DistinctKeys(totals)
    requires k < |totals| && totals[k] == Entry(c, Num(CategorySum(s, c)))
    ensures Put(totals, e.category, Plus(Get(totals, e.category), e.amount))[k] == Entry(c, Num(CategorySum(s + [e], c)))
  {
    var next := Put(totals, e.category, Plus(Get(totals, e.category), e.amount));
    var sum := CategorySum(s, c);
    if e.category == c {
      GetAt(totals, c, k);
      assert next[k] == Entry(c, Num(sum + e.amount));
    } else {
      assert next[k] == Entry(c, Num(sum));
    }
    CategorySumAppend(s, e, c);
  }

  lemma StepKeepsTail(totals: seq<Entry>, s: seq<Expense>, e: Expense)
    requires Accumulated(totals, s)
    ensures var next := Put(totals, e.category, Plus(Get(totals, e.category), e.amount));
      forall k :: |ExpenseCategories| <= k < |next| ==> next[k].total == NaN && !IsExpenseCategory(next[k].key)
  {
    if !IsExpenseCategory(e.category) {
      UnknownKeyAfterCategories(totals, s, e.category);
    } else {
      CategoriesListedOnce();
      var k :| 0 <= k < |ExpenseCategories| && ExpenseCategories[k] == e.category;
      GetAt(totals, e.category, k);
    }
  }

  lemma StepKeepsUnknown(totals: seq<Entry>, s: seq<Expense>, e: Expense)
    requires Accumulated(totals, s)
    ensures var next := Put(totals, e.category, Plus(Get(totals, e.category), e.amount));
      forall i :: 0 <= i < |s + [e]| && !IsExpenseCategory((s + [e])[i].category) ==>
        Get(next, (s + [e])[i].category) == Some(NaN)
  {
    var next := Put(totals, e.category, Plus(Get(totals, e.category), e.amount));
    forall i | 0 <= i < |s + [e]| && !IsExpenseCategory((s + [e])[i].category)
      ensures Get(next, (s + [e])[i].category) == Some(NaN)
    {
      var key := (s + [e])[i].category;
      if i < |s| {
        assert key == s[i].category;
        UnknownKeyAfterCategories(totals, s, key);
        var j := KeyIndex(totals, key).value;
        assert next[j].total == NaN;
        GetAt(next, key, j);
      } else {
        assert key == e.category;
        UnknownKeyAfterCategories(totals, s, key);
        match KeyIndex(totals, key)
        case Some(j) =>
          assert next[j] == Entry(key, NaN);
          GetAt(next, key, j);
        case None =>
          assert next[|totals|] == Entry(key, NaN);
          GetAt(next, key, |totals|);
      }
    }
  }

  /** The initial record then `monthlyExpenses.forEach(e => { categoryTotals[e.category] += e.amount; })`.
      The ten categories hold their sums in list order; every other key is a
      category outside the ten and holds NaN. */
  method CategoryTotals(monthly: seq<Expense>) returns (totals: seq<Entry>)
    ensures DistinctKeys(totals)
    ensures |totals| >= |ExpenseCategories|
    ensures totals[..|ExpenseCategories|] == TotalsFor(monthly, ExpenseCategories)
    ensures forall k :: |ExpenseCategories| <= k < |totals| ==> totals[k].total == NaN && !IsExpenseCategory(totals[k].key)
    ensures forall i :: 0 <= i < |monthly| && !IsExpenseCategory(monthly[i].category) ==> Get(totals, monthly[i].category) == Some(NaN)
  {
    totals := InitialTotals();
    NothingAccumulated(totals);
    for j := 0 to |monthly|
      invariant Accumulated(totals, monthly[..j])
    {
      AccumulateAt(totals, monthly, j);
      totals := Put(totals, monthly[j].category, Plus(Get(totals, monthly[j].category), monthly[j].amount));
    }
    AccumulatedHead(totals, monthly[..|monthly|], monthly);
  }

  /** The initial record is the record for no expenses. */
  lemma NothingAccumulated(totals: seq<Entry>)
    requires |totals| == |ExpenseCategories|
    requires forall i :: 0 <= i < |totals| ==> totals[i] == Entry(ExpenseCategories[i], Num(0.0))
    ensures Accumulated(totals, [])
  {
    CategoriesListedOnce();
  }

  /** Counting the expense at position `j` of `monthly`. */
  lemma AccumulateAt(totals: seq<Entry>, monthly: seq<Expense>, j: nat)
    requires j < |monthly| && Accumulated(totals, monthly[..j])
    ensures Accumulated(Put(totals, monthly[j].category, Plus(Get(totals, monthly[j].category), monthly[j].amount)), monthly[..j + 1])
  {
    var s, e := monthly[..j], monthly[j];
    assert monthly[..j + 1] == s + [e];
    AccumulateStep(totals, s, e);
  }

  /** The first ten properties of an accumulated record are the category sums. */
  lemma AccumulatedHead(totals: seq<Entry>, s: seq<Expense>, monthly: seq<Expense>)
    requires s == monthly[..|monthly|] && Accumulated(totals, s)
    ensures DistinctKeys(totals)
    ensures |totals| >= |ExpenseCategories|
    ensures totals[..|ExpenseCategories|] == TotalsFor(monthly, ExpenseCategories)
    ensures forall k :: |ExpenseCategories| <= k < |totals| ==> totals[k].total == NaN && !IsExpenseCategory(totals[k].key)
    ensures forall i :: 0 <= i < |monthly| && !IsExpenseCategory(monthly[i].category) ==> Get(totals, monthly[i].category) == Some(NaN)
  {
    assert s == monthly;
  }

  // ---------------------------------------------------------------------------
  // The chart data

  /** One chart entry: a display name and a positive amount. */
  datatype Slice = Slice(name: string, value: real)

  /** `c.toUpperCase()` on a single character, for the ASCII letters the
      category tags are made of. */
  function UpperCase(c: char): char {
    if 'a' <= c <= 'z' then (c as int - 32) as char else c
  }

  /** `name.charAt(0).toUpperCase() + name.slice(1)`; the empty name stays empty. */
  function DisplayName(name: string): (r: string)
    ensures |r| == |name|
    ensures name != [] ==> r[1..] == name[1..]
    ensures name != [] && 'a' <= name[0] <= 'z' ==> 'A' <= r[0] <= 'Z' && r[0] as int == name[0] as int - 32
    ensures name != [] && !('a' <= name[0] <= 'z') ==> r[0] == name[0]
  {
    if name == [] then [] else [UpperCase(name[0])] + name[1..]
  }

  /** `Object.entries(categoryTotals).filter(([_, v]) => v > 0).map(...)`:
      NaN fails the test, as it does in JavaScript. */
  function ChartData(totals: seq<Entry>): (r: seq<Slice>)
    ensures |r| <= |totals|
    ensures forall k :: 0 <= k < |r| ==> r[k].value > 0.0
  {
    if totals == [] then []
    else
      var last := totals[|totals| - 1];
      ChartData(totals[..|totals| - 1])
        + (if last.total.Num? && last.total.value > 0.0 then [Slice(DisplayName(last.key), last.total.value)] else [])
  }

  /** The categories with spending in `monthly`, in list order. */
  function Spent(monthly: seq<Expense>): string -> bool {
    (c: string) => CategorySum(monthly, c) > 0.0
  }

  function SpentCategories(monthly: seq<Expense>): seq<string> {
    Filter<string>(ExpenseCategories, Spent(monthly))
  }

  /** One slice per category in `cats`. */
  function SlicesFor(monthly: seq<Expense>, cats: seq<string>): (r: seq<Slice>)
    ensures |r| == |cats|
    ensures forall k :: 0 <= k < |cats| ==> r[k] == Slice(DisplayName(cats[k]), CategorySum(monthly, cats[k]))
  {
    if cats == [] then []
    else SlicesFor(monthly, cats[..|cats| - 1]) + [Slice(DisplayName(cats[|cats| - 1]), CategorySum(monthly, cats[|cats| - 1]))]
  }

  /** The breakdown the chart shows, stated directly: for each category in list
      order whose spending is positive, its display name and its sum. */
  function Breakdown(monthly: seq<Expense>): seq<Slice> {
    SlicesFor(monthly, SpentCategories(monthly))
  }

  lemma {:induction false} ChartDataAppend(a: seq<Entry>, b: seq<Entry>)
    ensures ChartData(a + b) == ChartData(a) + ChartData(b)
    decreases |b|
  {
    if b == [] {
      assert a + b == a;
    } else {
      assert (a + b)[..|a + b| - 1] == a + b[..|b| - 1];
      ChartDataAppend(a, b[..|b| - 1]);
    }
  }

  lemma {:induction false} ChartDataOfNaN(d: seq<Entry>)
    requires forall k :: 0 <= k < |d| ==> d[k].total == NaN
    ensures ChartData(d) == []
  {
    if d != [] {
      ChartDataOfNaN(d[..|d| - 1]);
    }
  }

  lemma ChartDataSnoc(d: seq<Entry>, x: Entry)
    ensures ChartData(d + [x]) == ChartData(d)
      + (if x.total.Num? && x.total.value > 0.0 then [Slice(DisplayName(x.key), x.total.value)] else [])
  {
    assert (d + [x])[..|d|] == d;
  }

  lemma SlicesForSnoc(monthly: seq<Expense>, cats: seq<string>, c: string)
    ensures SlicesFor(monthly, cats + [c]) == SlicesFor(monthly, cats) + [Slice(DisplayName(c), CategorySum(monthly, c))]
  {
    assert (cats + [c])[..|cats|] == cats;
  }

  lemma {:induction false} ChartDataOfTotals(monthly: seq<Expense>, cats: seq<string>)
    ensures ChartData(TotalsFor(monthly, cats)) == SlicesFor(monthly, Filter(cats, Spent(monthly)))
  {
    if cats != [] {
      var init, c := cats[..|cats| - 1], cats[|cats| - 1];
      assert cats == init + [c];
      ChartDataOfTotals(monthly, init);
      var sum := CategorySum(monthly, c);
      assert TotalsFor(monthly, cats) == TotalsFor(monthly, init) + [Entry(c, Num(sum))];
      ChartDataSnoc(TotalsFor(monthly, init), Entry(c, Num(sum)));
      FilterSnoc(init, c, Spent(monthly));
      if sum > 0.0 {
        SlicesForSnoc(monthly, Filter(init, Spent(monthly)), c);
      }
    }
  }

  /** `categoryData`: the record built by the two loops, then filtered and
      mapped; it is exactly the breakdown. */
  method CategoryBreakdown(monthly: seq<Expense>) returns (data: seq<Slice>)
    ensures data == Breakdown(monthly)
  {
    var totals := CategoryTotals(monthly);
    data := ChartData(totals);
    ChartDataOfCategoryTotals(monthly, totals, |ExpenseCategories|);
  }

  /** The chart data of a record whose head is the category sums and whose
      tail is NaN is the breakdown. */
  lemma ChartDataOfCategoryTotals(monthly: seq<Expense>, totals: seq<Entry>, n: nat)
    requires n == |ExpenseCategories| <= |totals|
    requires totals[..n] == TotalsFor(monthly, ExpenseCategories)
    requires forall k :: n <= k < |totals| ==> totals[k].total == NaN
    ensures ChartData(totals) == Breakdown(monthly)
  {
    var head, tail := totals[..n], totals[n..];
    assert totals == head + tail;
    ChartDataAppend(head, tail);
    forall k | 0 <= k < |tail|
      ensures tail[k].total == NaN
    {
      assert tail[k] == totals[n + k];
    }
    ChartDataOfNaN(tail);
    ChartDataOfTotals(monthly, ExpenseCategories);
  }

  // ---------------------------------------------------------------------------
  // Properties of the breakdown

  /** The breakdown lists, in the order of the category list and each at most
      once, exactly the categories with positive spending, each with its sum. */
  lemma BreakdownShape(monthly: seq<Expense>)
    ensures var idx := KeptIndices<string>(ExpenseCategories, Spent(monthly));
      && |Breakdown(monthly)| == |idx|
      && (forall k :: 0 <= k < |idx| ==>
            Breakdown(monthly)[k] == Slice(DisplayName(ExpenseCategories[idx[k]]), CategorySum(monthly, ExpenseCategories[idx[k]])))
      && (forall k, l :: 0 <= k < l < |idx| ==> idx[k] < idx[l])
      && (forall i :: 0 <= i < |ExpenseCategories| && CategorySum(monthly, ExpenseCategories[i]) > 0.0 ==> i in idx)
      && (forall k :: 0 <= k < |Breakdown(monthly)| ==> Breakdown(monthly)[k].value > 0.0)
  {
    FilterAt<string>(ExpenseCategories, Spent(monthly));
  }

  /** Distinct categories get distinct display names, so no name repeats. */
  lemma DisplayNamesDistinct(c: string, d: string)
    requires IsExpenseCategory(c) && IsExpenseCategory(d) && c != d
    ensures DisplayName(c) != DisplayName(d)
  {
    DisplayNameInjective(c, d);
  }

  /** Names that start with a lower-case letter are told apart by their display names. */
  lemma DisplayNameInjective(a: string, b: string)
    requires a != [] && 'a' <= a[0] <= 'z'
    requires b != [] && 'a' <= b[0] <= 'z'
    ensures DisplayName(a) == DisplayName(b) ==> a == b
  {
    if DisplayName(a) == DisplayName(b) {
      assert DisplayName(a)[0] == DisplayName(b)[0];
      assert a[1..] == DisplayName(a)[1..] == DisplayName(b)[1..] == b[1..];
      assert a == [a[0]] + a[1..] && b == [b[0]] + b[1..];
    }
  }

  /** Capitalising a name a second time changes nothing. */
  lemma DisplayNameIdempotent(name: string)
    ensures DisplayName(DisplayName(name)) == DisplayName(name)
  {
  }

  function SumValues(slices: seq<Slice>): real {
    if slices == [] then 0.0 else SumValues(slices[..|slices| - 1]) + slices[|slices| - 1].value
  }

  /** The sums of the categories in `cats`. */
  function SumCategories(monthly: seq<Expense>, cats: seq<string>): real {
    if cats == [] then 0.0 else SumCategories(monthly, cats[..|cats| - 1]) + CategorySum(monthly, cats[|cats| - 1])
  }

  lemma {:induction false} SumValuesOfSlices(monthly: seq<Expense>, cats: seq<string>)
    ensures SumValues(SlicesFor(monthly, cats)) == SumCategories(monthly, cats)
  {
    if cats != [] {
      var init := cats[..|cats| - 1];
      SumValuesOfSlices(monthly, init);
      assert SlicesFor(monthly, cats)[..|cats| - 1] == SlicesFor(monthly, init);
    }
  }

  lemma SumCategoriesSnoc(monthly: seq<Expense>, cats: seq<string>, c: string)
    ensures SumCategories(monthly, cats + [c]) == SumCategories(monthly, cats) + CategorySum(monthly, c)
  {
    assert (cats + [c])[..|cats|] == cats;
  }

  /** Dropping categories with nothing spent does not change the sum when no
      amount is negative. */
  lemma {:induction false} SumCategoriesSpent(monthly: seq<Expense>, cats: seq<string>)
    requires forall i :: 0 <= i < |monthly| ==> monthly[i].amount >= 0.0
    ensures SumCategories(monthly, Filter(cats, Spent(monthly))) == SumCategories(monthly, cats)
  {
    if cats != [] {
      var init, c := cats[..|cats| - 1], cats[|cats| - 1];
      assert cats == init + [c];
      SumCategoriesSpent(monthly, init);
      FilterSnoc(init, c, Spent(monthly));
      SumCategoriesSnoc(monthly, init, c);
      CategorySumNonNegative(monthly, c);
      var f := Filter(init, Spent(monthly));
      if CategorySum(monthly, c) > 0.0 {
        assert Filter(cats, Spent(monthly)) == f + [c];
        SumCategoriesSnoc(monthly, f, c);
      } else {
        assert Filter(cats, Spent(monthly)) == f;
      }
    }
  }

  /** Counting one more expense adds its amount once, provided its category
      appears once among `cats`, and not at all otherwise. */
  lemma {:induction false} SumCategoriesAppend(monthly: seq<Expense>, e: Expense, cats: seq<string>)
    requires forall i, j :: 0 <= i < j < |cats| ==> cats[i] != cats[j]
    ensures SumCategories(monthly + [e], cats)
         == SumCategories(monthly, cats) + (if e.category in cats then e.amount else 0.0)
  {
    if cats != [] {
      var init, c := cats[..|cats| - 1], cats[|cats| - 1];
      SumCategoriesAppend(monthly, e, init);
      CategorySumAppend(monthly, e, c);
      assert e.category in cats <==> e.category in init || e.category == c;
      assert e.category == c ==> e.category !in init;
    }
  }

  /** When every expense carries a category listed once in `cats`, the
      category sums add up to the sum of all amounts. */
  lemma {:induction false} CategoriesCoverAll(monthly: seq<Expense>, cats: seq<string>)
    requires forall i, j :: 0 <= i < j < |cats| ==> cats[i] != cats[j]
    requires forall i :: 0 <= i < |monthly| ==> monthly[i].category in cats
    ensures SumCategories(monthly, cats) == SumAmounts(monthly)
  {
    if monthly == [] {
      ZeroCategories(cats);
    } else {
      var init, e := monthly[..|monthly| - 1], monthly[|monthly| - 1];
      forall i | 0 <= i < |init| ensures init[i].category in cats {
        assert init[i] == monthly[i];
      }
      CategoriesCoverAll(init, cats);
      assert init + [e] == monthly;
      SumCategoriesAppend(init, e, cats);
    }
  }

  lemma {:induction false} ZeroCategories(cats: seq<string>)
    ensures SumCategories([], cats) == 0.0
  {
    if cats != [] {
      ZeroCategories(cats[..|cats| - 1]);
    }
  }

  /** The chart's slices add up to the month's total, provided no amount is
      negative and every expense of the month carries one of the ten categories. */
  lemma BreakdownSumsToTotal(expenses: seq<Expense>, month: int, year: int)
    requires NoNegativeAmounts(expenses)
    requires KnownCategoriesIn(expenses, month, year)
    ensures SumValues(Breakdown(MonthlyExpenses(expenses, month, year))) == MonthlyTotal(expenses, month, year)
  {
    var monthly := MonthlyExpenses(expenses, month, year);
    forall k | 0 <= k < |monthly|
      ensures monthly[k].amount >= 0.0 && IsExpenseCategory(monthly[k].category)
    {
      assert monthly[k] in expenses;
    }
    SumValuesOfSlices(monthly, SpentCategories(monthly));
    SumCategoriesSpent(monthly, ExpenseCategories);
    CategoriesListedOnce();
    CategoriesCoverAll(monthly, ExpenseCategories);
  }

  // ---------------------------------------------------------------------------
  // The component

  /** Every expense of (month, year) carries one of the ten categories. */
  predicate KnownCategoriesIn(expenses: seq<Expense>, month: int, year: int) {
    forall i :: 0 <= i < |expenses| && expenses[i].date.month == month && expenses[i].date.year == year
      ==> IsExpenseCategory(expenses[i].category)
  }

  predicate NoNegativeAmounts(expenses: seq<Expense>) {
    forall i :: 0 <= i < |expenses| ==> expenses[i].amount >= 0.0
  }

  /** `ExpenseSummary` for the month of `currentDate`: the breakdown of the
      store's expenses of that month. With no negative amount and only known
      categories in that month, the slices add up to the month's total. */
  method SummaryData(store: BudgetStore, currentDate: CalendarDate) returns (data: seq<Slice>)
    ensures data == Breakdown(store.GetMonthlyExpenses(currentDate.month, currentDate.year))
    ensures NoNegativeAmounts(store.expenses) && KnownCategoriesIn(store.expenses, currentDate.month, currentDate.year)
      ==> SumValues(data) == store.GetTotalExpenses(currentDate.month, currentDate.year)
  {
    var month, year := currentDate.month, currentDate.year;
    var monthly := store.GetMonthlyExpenses(month, year);
    data := CategoryBreakdown(monthly);
    if NoNegativeAmounts(store.expenses) && KnownCategoriesIn(store.expenses, month, year) {
      BreakdownSumsToTotal(store.expenses, month, year);
    }
  }
}
