/**
 * The Split Bills page: the user's splits (each joined with its expense and
 * user) as the server lists them, the three totals at the top, the tab
 * filter, the grouping by expense and the "Mark as Paid" button of a group.
 */
module SplitBills {
  import opened Wrappers
  import opened Seqs
  import opened Schema
  import opened Storage
  import opened Grouping
  import opened Participants

  // ---------------------------------------------------------------------------
  // getTotalAmount

  datatype TotalKind = All | Pending | Paid

  /** Whether the reduce of `getTotalAmount(kind)` adds this split. */
  function Counted(kind: TotalKind, d: SplitWithDetails): bool
  {
    kind == All || (kind == Pending && !d.split.isPaid) || (kind == Paid && d.split.isPaid)
  }

  /** What one split adds to the running sum. */
  function Addend(kind: TotalKind): SplitWithDetails -> int
  {
    (d: SplitWithDetails) => if Counted(kind, d) then d.split.amount else 0
  }

  /** getTotalAmount: 0 while the splits are not loaded. */
  function TotalAmount(userSplits: Option<seq<SplitWithDetails>>, kind: TotalKind): (r: Cents)
    ensures userSplits.None? ==> r == 0
  {
    match userSplits
    case None => 0
    case Some(s) => Sum(s, Addend(kind))
  }

  /**
   * The pending total sums the unpaid splits, the paid total the paid ones,
   * and the two make up the overall total.
   */
  lemma TotalsAddUp(userSplits: Option<seq<SplitWithDetails>>)
    ensures TotalAmount(userSplits, All) == TotalAmount(userSplits, Pending) + TotalAmount(userSplits, Paid)
    ensures userSplits.Some? ==>
      TotalAmount(userSplits, Pending) == Sum(Filter(userSplits.value, DetailUnpaid), DetailAmount) &&
      TotalAmount(userSplits, Paid) == Sum(Filter(userSplits.value, DetailPaid), DetailAmount) &&
      TotalAmount(userSplits, All) == Sum(userSplits.value, DetailAmount)
  {
    if userSplits.Some? {
      var s := userSplits.value;
      SumPointwise(s, Addend(All), Addend(Pending), Addend(Paid));
      SumMasked(s, DetailAmount, DetailUnpaid, Addend(Pending));
      SumMasked(s, DetailAmount, DetailPaid, Addend(Paid));
      SumPointwise(s, DetailAmount, Addend(All), (d: SplitWithDetails) => 0);
      SumZero(s);
    }
  }

  lemma {:induction false} SumZero(s: seq<SplitWithDetails>)
    ensures Sum(s, (d: SplitWithDetails) => 0) == 0
  {
    if s != [] {
      SumZero(s[1..]);
    }
  }

  // ---------------------------------------------------------------------------
  // filteredSplits

  /** The tab filter; a tab other than "pending" and "paid" keeps every split. */
  function OnTab(activeTab: string): SplitWithDetails -> bool
  {
    (d: SplitWithDetails) =>
      if activeTab == "all" then true
      else if activeTab == "pending" then !d.split.isPaid
      else if activeTab == "paid" then d.split.isPaid
      else true
  }

  function FilteredSplits(userSplits: Option<seq<SplitWithDetails>>, activeTab: string): Option<seq<SplitWithDetails>>
  {
    match userSplits
    case None => None
    case Some(s) => Some(Filter(s, OnTab(activeTab)))
  }

  /**
   * "pending" keeps exactly the unpaid splits and "paid" exactly the paid
   * ones, in order; any other tab keeps the list as it is.
   */
  lemma FilteredSplitsSpec(s: seq<SplitWithDetails>, activeTab: string)
    ensures activeTab == "pending" ==> FilteredSplits(Some(s), activeTab) == Some(Filter(s, DetailUnpaid))
    ensures activeTab == "paid" ==> FilteredSplits(Some(s), activeTab) == Some(Filter(s, DetailPaid))
    ensures activeTab != "pending" && activeTab != "paid" ==> FilteredSplits(Some(s), activeTab) == Some(s)
    ensures forall d | d in s :: (d in FilteredSplits(Some(s), activeTab).value <==>
      (activeTab == "pending" ==> !d.split.isPaid) && (activeTab == "paid" ==> d.split.isPaid))
  {
    if activeTab == "pending" {
      FilterCongruent(s, OnTab(activeTab), DetailUnpaid);
    } else if activeTab == "paid" {
      FilterCongruent(s, OnTab(activeTab), DetailPaid);
    } else {
      FilterAll(s, OnTab(activeTab));
    }
    forall d | d in s ensures d in FilteredSplits(Some(s), activeTab).value <==>
      (activeTab == "pending" ==> !d.split.isPaid) && (activeTab == "paid" ==> d.split.isPaid)
    {
      FilterMember(s, OnTab(activeTab), d);
    }
  }

  // ---------------------------------------------------------------------------
  // groupedSplits

  function DetailExpenseId(d: SplitWithDetails): int { d.split.expenseId }

  /**
   * The `forEach` that fills `groupedSplits`: one group per expense, holding
   * that expense's filtered splits in order.
   */
  method GroupSplits(filtered: seq<SplitWithDetails>) returns (groups: map<int, seq<SplitWithDetails>>)
    ensures forall d | d in filtered :: d.split.expenseId in groups
    ensures forall k | k in groups :: groups[k] != [] && groups[k] == Filter(filtered, OfKey(DetailExpenseId, k))
    ensures forall k, d | k in groups && d in filtered :: d in groups[k] <==> d.split.expenseId == k
  {
    var keys;
    groups, keys := GroupBy(filtered, DetailExpenseId);
    forall k, d | k in groups && d in filtered ensures d in groups[k] <==> d.split.expenseId == k {
      GroupsPartition(filtered, DetailExpenseId, groups, keys, d, k);
    }
  }

  // ---------------------------------------------------------------------------
  // One group on screen

  /** The amount shown for a group: the expense amount carried by its first split. */
  function GroupTotal(group: seq<SplitWithDetails>): Cents
    requires group != []
  {
    group[0].expense.amount
  }

  /** Splits of the same expense carry the same joined expense, as the server's join does. */
  ghost predicate SameExpensePerId(s: seq<SplitWithDetails>)
  {
    forall d, e | d in s && e in s && d.split.expenseId == e.split.expenseId :: d.expense == e.expense
  }

  /** The splits the server lists for a user are joined consistently. */
  lemma SplitsByUserConsistent(L: Ledger, userId: int)
    ensures SameExpensePerId(SplitsByUser(L, userId))
  {
    SplitsByUserSpec(L, userId);
  }

  /**
   * Since a group holds splits of one expense only, the total it shows is
   * that expense's amount, whichever split happens to come first.
   */
  lemma GroupTotalSpec(filtered: seq<SplitWithDetails>, groups: map<int, seq<SplitWithDetails>>, k: int)
    requires SameExpensePerId(filtered)
    requires k in groups && groups[k] != [] && groups[k] == Filter(filtered, OfKey(DetailExpenseId, k))
    ensures forall d | d in groups[k] :: GroupTotal(groups[k]) == d.expense.amount
  {
    var first := groups[k][0];
    assert first in groups[k];
    FilterMember(filtered, OfKey(DetailExpenseId, k), first);
    assert first in filtered && first.split.expenseId == k;
    forall d | d in groups[k] ensures GroupTotal(groups[k]) == d.expense.amount {
      FilterMember(filtered, OfKey(DetailExpenseId, k), d);
      assert OfKey(DetailExpenseId, k)(d) <==> d.split.expenseId == k;
      assert d in filtered && d.split.expenseId == k;
      assert d.expense == first.expense;
    }
  }

  function DetailUserId(d: SplitWithDetails): int { d.split.userId }

  /** The body PATCHed to /api/splits/:id by "Mark as Paid". */
  datatype PaymentUpdate = PaymentUpdate(splitId: int, isPaid: bool)

  /**
   * The "Mark as Paid" button of a group: shown only when the user's first
   * split in the group is unpaid, and it always sends `isPaid: true`.
   */
  function MarkAsPaid(group: seq<SplitWithDetails>): (r: Option<PaymentUpdate>)
    ensures r.Some? ==> r.value.isPaid
  {
    match Find(group, HasKey(DetailUserId, CurrentUserId))
    case Some(yours) => if !yours.split.isPaid then Some(PaymentUpdate(yours.split.id, true)) else None
    case None => None
  }

  /**
   * The button is there exactly when the user has a split in the group and
   * the first of them is unpaid; it marks that split.
   */
  lemma MarkAsPaidSpec(group: seq<SplitWithDetails>)
    ensures MarkAsPaid(group).Some? <==> exists i | 0 <= i < |group| ::
      group[i].split.userId == CurrentUserId && !group[i].split.isPaid &&
      forall j | 0 <= j < i :: group[j].split.userId != CurrentUserId
    ensures MarkAsPaid(group).Some? ==> exists i | 0 <= i < |group| ::
      group[i].split.id == MarkAsPaid(group).value.splitId &&
      group[i].split.userId == CurrentUserId && !group[i].split.isPaid
  {
    var p := HasKey(DetailUserId, CurrentUserId);
    var n := FindIndex(group, p);
    if exists i | 0 <= i < |group| ::
      group[i].split.userId == CurrentUserId && !group[i].split.isPaid &&
      forall j | 0 <= j < i :: group[j].split.userId != CurrentUserId
    {
      var i :| 0 <= i < |group| &&
        group[i].split.userId == CurrentUserId && !group[i].split.isPaid &&
        forall j | 0 <= j < i :: group[j].split.userId != CurrentUserId;
      assert group[i].split.userId == CurrentUserId;
      assert DetailUserId(group[i]) == CurrentUserId;
      assert p(group[i]);
      forall j | 0 <= j < i ensures !p(group[j]) {
        assert DetailUserId(group[j]) != CurrentUserId;
      }
      assert n == i;
    }
    assert Find(group, p) == if n < |group| then Some(group[n]) else None;
    if n < |group| {
      assert DetailUserId(group[n]) == CurrentUserId;
      forall j | 0 <= j < n ensures group[j].split.userId != CurrentUserId {
        assert !p(group[j]);
        assert p(group[j]) <==> group[j].split.userId == CurrentUserId;
      }
    }
  }
}
