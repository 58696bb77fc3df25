/**
 * The Expenses page: the category and search filters over all expenses,
 * the category lookups for each row, and the grouping of the filtered
 * expenses by month, latest month first.
 */
module ExpensesPage {
  import opened Wrappers
  import opened Seqs
  import opened Text
  import opened Schema
  import opened Grouping
  import opened Sorting

  // ---------------------------------------------------------------------------
  // filteredExpenses

  /** The category filter: "all", or the category id written in decimal. */
  function MatchesCategory(filterCategory: string, e: Expense): bool
  {
    filterCategory == "all" || IntToString(e.categoryId) == filterCategory
  }

  /** The search: empty, or found case-insensitively in the name or in non-empty notes. */
  function MatchesSearch(searchTerm: string, e: Expense): bool
  {
    searchTerm == "" ||
    Contains(ToLower(e.name), ToLower(searchTerm)) ||
    (e.notes.Some? && e.notes.value != "" && Contains(ToLower(e.notes.value), ToLower(searchTerm)))
  }

  function Shown(filterCategory: string, searchTerm: string): Expense -> bool
  {
    (e: Expense) => MatchesCategory(filterCategory, e) && MatchesSearch(searchTerm, e)
  }

  /** filteredExpenses: empty while the expenses are not loaded. */
  function FilteredExpenses(expenses: Option<seq<Expense>>, filterCategory: string, searchTerm: string): (r: seq<Expense>)
    ensures expenses.None? ==> r == []
  {
    match expenses
    case None => []
    case Some(s) => Filter(s, Shown(filterCategory, searchTerm))
  }

  /**
   * An expense is listed exactly when both filters accept it; the filter
   * "all" accepts every category, and a category id is accepted only by
   * its own decimal text.
   */
  lemma FilteredExpensesSpec(s: seq<Expense>, filterCategory: string, searchTerm: string)
    ensures forall e | e in s :: (e in FilteredExpenses(Some(s), filterCategory, searchTerm) <==>
      MatchesCategory(filterCategory, e) && MatchesSearch(searchTerm, e))
    ensures forall e | e in FilteredExpenses(Some(s), filterCategory, searchTerm) :: e in s
    ensures filterCategory == "all" && searchTerm == "" ==> FilteredExpenses(Some(s), filterCategory, searchTerm) == s
  {
    var p := Shown(filterCategory, searchTerm);
    forall e | e in s ensures e in FilteredExpenses(Some(s), filterCategory, searchTerm) <==> p(e) {
      FilterMember(s, p, e);
    }
    forall e | e in FilteredExpenses(Some(s), filterCategory, searchTerm) ensures e in s {
      FilterMember(s, p, e);
    }
    if filterCategory == "all" && searchTerm == "" {
      FilterAll(s, p);
    }
  }

  /** The category filter tells categories apart: the text of one id matches no other id. */
  lemma CategoryFilterExact(e: Expense, categoryId: int)
    ensures MatchesCategory(IntToString(categoryId), e) <==> e.categoryId == categoryId
  {
    IntToStringInjective(e.categoryId, categoryId);
    if categoryId >= 0 {
      assert IntToString(categoryId)[0] != 'a';
    } else {
      assert IntToString(categoryId)[0] == '-';
    }
  }

  // ---------------------------------------------------------------------------
  // getCategoryIcon and getCategoryDetails

  const IconMap: map<string, string> := map[
    "Rent" := "home",
    "Utilities" := "bolt",
    "Groceries" := "shopping-basket",
    "Internet" := "wifi",
    "Subscriptions" := "tv",
    "Takeout" := "utensils",
    "Transportation" := "car",
    "Entertainment" := "film",
    "Other" := "tag"
  ]

  /** getCategoryIcon: the listed icon of a known category name, and "tag" for any other. */
  function GetCategoryIcon(categoryName: string): (icon: string)
    ensures categoryName in IconMap ==> icon == IconMap[categoryName]
    ensures categoryName !in IconMap ==> icon == "tag"
    ensures icon in IconMap.Values
  {
    if categoryName in IconMap && IconMap[categoryName] != "" then IconMap[categoryName]
    else assert IconMap["Other"] == "tag"; "tag"
  }

  /** getCategoryDetails: the first category with that id, if the categories are loaded. */
  function GetCategoryDetails(categories: Option<seq<Category>>, categoryId: int): (r: Option<Category>)
    ensures r.Some? ==> r.value.id == categoryId
  {
    match categories
    case None => None
    case Some(s) => Find(s, HasKey(CategoryId, categoryId))
  }

  /**
   * The lookup finds nothing exactly when the categories are not loaded or
   * none has that id; otherwise it finds the first one that has it.
   */
  lemma GetCategoryDetailsSpec(categories: Option<seq<Category>>, categoryId: int)
    ensures GetCategoryDetails(categories, categoryId).None? <==>
      categories.None? || forall c | c in categories.value :: c.id != categoryId
    ensures GetCategoryDetails(categories, categoryId).Some? ==> exists i | 0 <= i < |categories.value| ::
      categories.value[i] == GetCategoryDetails(categories, categoryId).value &&
      forall j | 0 <= j < i :: categories.value[j].id != categoryId
  {
    if categories.Some? {
      var s := categories.value;
      var p := HasKey(CategoryId, categoryId);
      var n := FindIndex(s, p);
      assert Find(s, p) == if n < |s| then Some(s[n]) else None;
      if n < |s| {
        assert s[n] in s && CategoryId(s[n]) == categoryId;
        forall j | 0 <= j < n ensures s[j].id != categoryId {
          assert !p(s[j]);
          assert p(s[j]) <==> s[j].id == categoryId;
        }
      } else {
        forall c | c in s ensures c.id != categoryId {
          var j :| 0 <= j < |s| && s[j] == c;
          assert !p(s[j]);
          assert p(c) <==> c.id == categoryId;
        }
      }
    }
  }

  // ---------------------------------------------------------------------------
  // groupedExpenses and sortedMonths

  /** The month an expense falls in; the month of a later date is a larger number. */
  function MonthOfExpense(monthOf: Timestamp -> int): Expense -> int
  {
    (e: Expense) => monthOf(e.date)
  }

  function Identity(m: int): int { m }

  /**
   * Groups the filtered expenses by month (the `forEach` loop) and lists
   * the months latest first (the `sort` of the dictionary's keys).
   */
  method GroupByMonth(filtered: seq<Expense>, monthOf: Timestamp -> int)
    returns (groups: map<int, seq<Expense>>, sortedMonths: seq<int>)
    ensures forall e | e in filtered :: monthOf(e.date) in groups
    ensures forall m | m in groups :: groups[m] != [] && groups[m] == Filter(filtered, OfKey(MonthOfExpense(monthOf), m))
    ensures forall m | m in groups :: multiset(sortedMonths)[m] == 1
    ensures forall i | 0 <= i < |sortedMonths| :: sortedMonths[i] in groups
    ensures forall i, j | 0 <= i < j < |sortedMonths| :: sortedMonths[i] > sortedMonths[j]
  {
    var keys;
    groups, keys := GroupBy(filtered, MonthOfExpense(monthOf));
    var months := new int[|keys|](i requires 0 <= i < |keys| => keys[i]);
    assert months[..] == keys;
    SortDescInPlace(months, Identity);
    sortedMonths := months[..];
    MonthsListed(keys, groups, sortedMonths);
  }

  /** Sorting the distinct month keys lists each month once, latest first. */
  lemma MonthsListed(keys: seq<int>, groups: map<int, seq<Expense>>, sortedMonths: seq<int>)
    requires forall m | m in groups :: m in keys
    requires forall i | 0 <= i < |keys| :: keys[i] in groups
    requires forall i, j | 0 <= i < j < |keys| :: keys[i] != keys[j]
    requires sortedMonths == SortDesc(keys, Identity)
    ensures forall m | m in groups :: multiset(sortedMonths)[m] == 1
    ensures forall i | 0 <= i < |sortedMonths| :: sortedMonths[i] in groups
    ensures forall i, j | 0 <= i < j < |sortedMonths| :: sortedMonths[i] > sortedMonths[j]
  {
    SortDescPermutation(keys, Identity);
    SortDescSorted(keys, Identity);
    forall m | m in keys ensures multiset(keys)[m] == 1 {
      DistinctCount(keys, m);
    }
    forall i | 0 <= i < |sortedMonths| ensures sortedMonths[i] in groups {
      assert sortedMonths[i] in multiset(sortedMonths);
    }
    forall i, j | 0 <= i < j < |sortedMonths| ensures sortedMonths[i] > sortedMonths[j] {
      assert Identity(sortedMonths[i]) >= Identity(sortedMonths[j]);
      assert sortedMonths[i] in multiset(keys);
      if sortedMonths[i] == sortedMonths[j] {
        TwiceCounted(sortedMonths, i, j);
        assert false;
      }
    }
  }

  lemma {:induction false} DistinctCount(s: seq<int>, x: int)
    requires forall i, j | 0 <= i < j < |s| :: s[i] != s[j]
    requires x in s
    ensures multiset(s)[x] == 1
  {
    assert s == [s[0]] + s[1..];
    if s[0] == x {
      assert x !in s[1..];
    } else {
      DistinctCount(s[1..], x);
    }
  }

  lemma {:induction false} TwiceCounted(s: seq<int>, i: int, j: int)
    requires 0 <= i < j < |s| && s[i] == s[j]
    ensures multiset(s)[s[i]] >= 2
  {
    assert s == s[..j] + [s[j]] + s[j + 1..];
    assert s[i] in s[..j];
  }
}
