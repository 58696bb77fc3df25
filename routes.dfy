/**
 * The HTTP handlers whose logic goes beyond forwarding to the store: the
 * dashboard summary, the split payment-status PATCH, login, and the two user
 * routes that strip the password.
 *
 * Request parsing is an input: a path id that `parseInt` cannot read is
 * `None`, and a body the zod schema rejects is `None`.
 */
module Routes {
  import opened Wrappers
  import opened Seqs
  import opened Schema
  import opened Storage
  import opened Sorting

  /** The outcome of a handler: a JSON body with status 200 or 201, or an error status. */
  datatype Response<T> = Ok(value: T) | Created(value: T) | BadRequest | Unauthorized | NotFound

  function StatusCode<T>(r: Response<T>): int
  {
    match r
    case Ok(_) => 200
    case Created(_) => 201
    case BadRequest => 400
    case Unauthorized => 401
    case NotFound => 404
  }

  // ---------------------------------------------------------------------------
  // Users without their password

  /** A user as the API sends it: every field except `password`. */
  datatype PublicUser = PublicUser(id: int, username: string, email: string,
                                   displayName: string, avatarInitials: string)

  /** `const { password, ...userWithoutPassword } = user`. */
  function WithoutPassword(u: User): PublicUser
  {
    PublicUser(u.id, u.username, u.email, u.displayName, u.avatarInitials)
  }

  function WithPassword(p: PublicUser, password: string): User
  {
    User(p.id, p.username, password, p.email, p.displayName, p.avatarInitials)
  }

  /** Stripping the password loses that field and nothing else. */
  lemma WithoutPasswordKeepsRest(u: User)
    ensures WithPassword(WithoutPassword(u), u.password) == u
    ensures forall p: string :: WithoutPassword(WithPassword(WithoutPassword(u), p)) == WithoutPassword(u)
  {
  }

  /** GET /api/users/:id */
  function GetUserRoute(L: Ledger, userId: Option<int>): (r: Response<PublicUser>)
    ensures StatusCode(r) == 400 <==> userId.None?
    ensures StatusCode(r) == 404 <==> userId.Some? && userId.value !in L.users
    ensures r.Ok? <==> userId.Some? && userId.value in L.users
    ensures r.Ok? ==> r.value == WithoutPassword(L.users[userId.value])
  {
    match userId
    case None => BadRequest
    case Some(id) =>
      match Lookup(L.users, id)
      case None => NotFound
      case Some(user) => Ok(WithoutPassword(user))
  }

  /** POST /api/users */
  method CreateUserRoute(store: MemStorage, body: Option<NewUser>) returns (r: Response<PublicUser>)
    requires store.Valid()
    modifies store
    ensures store.Valid()
    ensures body.None? ==> r == BadRequest && store.State() == old(store.State())
    ensures body.Some? ==> r == Created(WithoutPassword(UserFrom(body.value, old(store.userIdCounter))))
    ensures body.Some? ==> store.State() == old(store.State()).(
      users := old(store.users)[old(store.userIdCounter) := UserFrom(body.value, old(store.userIdCounter))],
      userIdCounter := old(store.userIdCounter) + 1)
  {
    if body.None? {
      return BadRequest;
    }
    var user := store.CreateUser(body.value);
    return Created(WithoutPassword(user));
  }

  /** The fields of a login request body. */
  datatype Credentials = Credentials(username: string, password: string)

  /** POST /api/login: only the first user with the username is tried. */
  function Login(L: Ledger, body: Option<Credentials>): (r: Response<PublicUser>)
    ensures body.None? <==> r == BadRequest
    ensures body.Some? ==>
      (r == Unauthorized <==>
         GetUserByUsername(L, body.value.username).None? ||
         GetUserByUsername(L, body.value.username).value.password != body.value.password)
    ensures r.Ok? ==>
      body.Some? && GetUserByUsername(L, body.value.username).Some? &&
      r.value == WithoutPassword(GetUserByUsername(L, body.value.username).value)
    ensures r.Ok? || r == Unauthorized || r == BadRequest
  {
    match body
    case None => BadRequest
    case Some(creds) =>
      match GetUserByUsername(L, creds.username)
      case None => Unauthorized
      case Some(user) =>
        if user.password != creds.password then Unauthorized else Ok(WithoutPassword(user))
  }

  // ---------------------------------------------------------------------------
  // PATCH /api/splits/:id

  /** The answer to a payment-status PATCH, in the order the handler checks. */
  function PatchSplitOutcome(L: Ledger, splitId: Option<int>, isPaid: Option<bool>): Response<Split>
  {
    if splitId.None? || isPaid.None? then BadRequest
    else if splitId.value !in L.splits then NotFound
    else Ok(L.splits[splitId.value].(isPaid := isPaid.value))
  }

  /**
   * 400 for an unreadable id or body, 404 when no split is stored under the
   * id, otherwise 200 with the record stored under that key carrying the new
   * status. The record answers to the requested id only where every split
   * sits under its own id; on the store as seeded it need not (see
   * `PatchSeededSplitSeven`).
   */
  lemma PatchSplitStatus(L: Ledger, splitId: Option<int>, isPaid: Option<bool>)
    ensures StatusCode(PatchSplitOutcome(L, splitId, isPaid)) == 400 <==> splitId.None? || isPaid.None?
    ensures StatusCode(PatchSplitOutcome(L, splitId, isPaid)) == 404 <==>
      splitId.Some? && isPaid.Some? && splitId.value !in L.splits
    ensures StatusCode(PatchSplitOutcome(L, splitId, isPaid)) == 200 <==>
      splitId.Some? && isPaid.Some? && splitId.value in L.splits
    ensures PatchSplitOutcome(L, splitId, isPaid).Ok? ==>
      PatchSplitOutcome(L, splitId, isPaid).value == L.splits[splitId.value].(isPaid := isPaid.value) &&
      PatchSplitOutcome(L, splitId, isPaid).value.isPaid == isPaid.value
    ensures L.SplitsKeyed() && PatchSplitOutcome(L, splitId, isPaid).Ok? ==>
      PatchSplitOutcome(L, splitId, isPaid).value.id == splitId.value
  {
  }

  /**
   * On the store as seeded, PATCH /api/splits/7, the id listed for user 1's
   * electricity split, answers 200 with a different split: user 2's
   * electricity split, whose id is 8, stored under key 7.
   */
  lemma PatchSeededSplitSeven(monthStart: Timestamp)
    ensures 6 in SeedAsWritten(monthStart).splits
    ensures SeedAsWritten(monthStart).splits[6].id == 7 && SeedAsWritten(monthStart).splits[6].userId == 1
    ensures PatchSplitOutcome(SeedAsWritten(monthStart), Some(7), Some(true)).Ok?
    ensures PatchSplitOutcome(SeedAsWritten(monthStart), Some(7), Some(true)).value.id == 8
    ensures PatchSplitOutcome(SeedAsWritten(monthStart), Some(7), Some(true)).value.userId == 2
    ensures PatchSplitOutcome(SeedAsWritten(monthStart), Some(7), Some(true)).value.expenseId == 3
  {
    SeedSplitsAt(monthStart, 11, true);
  }

  method PatchSplit(store: MemStorage, splitId: Option<int>, isPaid: Option<bool>) returns (r: Response<Split>)
    requires store.Valid()
    modifies store
    ensures store.Valid()
    ensures r == PatchSplitOutcome(old(store.State()), splitId, isPaid)
    ensures store.State() == if r.Ok? then SetPaid(old(store.State()), splitId.value, isPaid.value)
                             else old(store.State())
  {
    if splitId.None? {
      return BadRequest;
    }
    if isPaid.None? {
      return BadRequest;
    }
    var updated := store.UpdateSplitPaymentStatus(splitId.value, isPaid.value);
    if updated.None? {
      return NotFound;
    }
    return Ok(updated.value);
  }

  // ---------------------------------------------------------------------------
  // GET /api/users/:userId/dashboard

  /** One row of the per-category breakdown. */
  datatype CategoryTotal = CategoryTotal(category: Category, total: Cents, percentage: int)

  datatype DashboardSummary = DashboardSummary(
    totalExpenses: Cents, userShare: Cents, outstandingAmount: Cents, roommateCount: nat,
    recentExpenses: seq<ExpenseWithDetails>, expensesByCategory: seq<CategoryTotal>)

  /**
   * `Math.round(total / grand * 100)` when `grand > 0`, else 0. `Math.round`
   * rounds to the nearest integer and halves upwards.
   */
  function Percentage(total: Cents, grand: Cents): (p: int)
    ensures grand > 0 ==> 2 * grand * p <= 200 * total + grand < 2 * grand * (p + 1)
    ensures grand <= 0 ==> p == 0
  {
    if grand > 0 then (200 * total + grand) / (2 * grand) else 0
  }

  /** A share of a positive whole lies between 0 and 100 percent. */
  lemma PercentageBounds(total: Cents, grand: Cents)
    requires 0 <= total <= grand
    ensures 0 <= Percentage(total, grand) <= 100
  {
    if grand > 0 {
      var p := Percentage(total, grand);
      assert 2 * grand * (p + 1) > 0;
      MulPositive(2 * grand, p + 1);
      assert 2 * grand * p <= 2 * grand * 100 + grand;
      MulAtMost(2 * grand, p, 100);
    }
  }

  lemma MulPositive(a: int, b: int)
    requires a > 0 && a * b > 0
    ensures b > 0
  {
  }

  lemma MulAtMost(a: int, b: int, c: int)
    requires a > 0 && a * b < a * (c + 1)
    ensures b <= c
  {
  }

  function CreatedHousehold(userId: int): Household -> bool { (h: Household) => h.createdById == userId }
  function InCategory(categoryId: int): Expense -> bool { (e: Expense) => e.categoryId == categoryId }
  function CategoryTotalKey(c: CategoryTotal): int { c.total }
  function PositiveTotal(c: CategoryTotal): bool { c.total > 0 }

  /** The breakdown row of one category over the given expenses. */
  function CategoryTotalOf(expenses: seq<Expense>, totalExpenses: Cents): Category -> CategoryTotal
  {
    (c: Category) =>
      var total := Sum(Filter(expenses, InCategory(c.id)), ExpenseAmount);
      CategoryTotal(c, total, Percentage(total, totalExpenses))
  }

  function DetailsOf(L: Ledger): Expense -> Option<ExpenseWithDetails>
  {
    (e: Expense) => GetExpenseWithDetails(L, e.id)
  }

  /** The member count of the first household the user created, or 0. */
  function RoommateCount(L: Ledger, userId: int): nat
  {
    var userHouseholds := Filter(Households(L), CreatedHousehold(userId));
    if |userHouseholds| > 0 then |RoommatesByHousehold(L, userHouseholds[0].id)| else 0
  }

  /** Categories with a positive total, largest total first. */
  function ExpensesByCategory(categories: seq<Category>, expenses: seq<Expense>, totalExpenses: Cents): seq<CategoryTotal>
  {
    SortDesc(Filter(MapSeq(categories, CategoryTotalOf(expenses, totalExpenses)), PositiveTotal),
             CategoryTotalKey)
  }

  function TotalExpenses(L: Ledger, userId: int): Cents
  {
    Sum(ExpensesByUser(L, userId), ExpenseAmount)
  }

  function UserShare(L: Ledger, userId: int): Cents
  {
    Sum(SplitsByUser(L, userId), DetailAmount)
  }

  function OutstandingAmount(L: Ledger, userId: int): Cents
  {
    Sum(Filter(SplitsByUser(L, userId), DetailUnpaid), DetailAmount)
  }

  /** The user's expenses, most recent first, as `expenses.sort(...)` leaves them. */
  function ByDate(L: Ledger, userId: int): seq<Expense>
  {
    SortDesc(ExpensesByUser(L, userId), ExpenseDate)
  }

  function RecentExpenses(L: Ledger, userId: int): seq<ExpenseWithDetails>
  {
    FilterMap(Take(ByDate(L, userId), 5), DetailsOf(L))
  }

  function CategoryBreakdown(L: Ledger, userId: int): seq<CategoryTotal>
  {
    ExpensesByCategory(Categories(L), ByDate(L, userId), TotalExpenses(L, userId))
  }

  /** The dashboard summary of an existing user. */
  function DashboardOf(L: Ledger, userId: int): DashboardSummary
  {
    DashboardSummary(TotalExpenses(L, userId), UserShare(L, userId), OutstandingAmount(L, userId),
                     RoommateCount(L, userId), RecentExpenses(L, userId), CategoryBreakdown(L, userId))
  }

  function DashboardRoute(L: Ledger, userId: Option<int>): Response<DashboardSummary>
  {
    if userId.None? then BadRequest
    else if userId.value !in L.users then NotFound
    else Ok(DashboardOf(L, userId.value))
  }

  /** GET /api/users/:userId/dashboard */
  method Dashboard(store: MemStorage, userIdParam: Option<int>) returns (r: Response<DashboardSummary>)
    ensures r == DashboardRoute(store.State(), userIdParam)
  {
    if userIdParam.None? {
      return BadRequest;
    }
    var userId := userIdParam.value;
    var L := store.State();
    if Lookup(L.users, userId).None? {
      return NotFound;
    }

    var expenses := ExpensesByUser(L, userId);
    var splits := SplitsByUser(L, userId);
    var totalExpenses := Sum(expenses, ExpenseAmount);
    var userShare := Sum(splits, DetailAmount);
    var outstandingAmount := Sum(Filter(splits, DetailUnpaid), DetailAmount);

    var userHouseholds := Filter(Households(L), CreatedHousehold(userId));
    var roommateCount := 0;
    if |userHouseholds| > 0 {
      var roommates := RoommatesByHousehold(L, userHouseholds[0].id);
      roommateCount := |roommates|;
    }
    assert roommateCount == RoommateCount(L, userId);

    // `expenses.sort(...)` reorders the array that the category totals read next.
    var sortedExpenses := SortedCopy(expenses, ExpenseDate);
    var recentExpenses := Take(sortedExpenses[..], 5);
    var expensesWithDetails := FilterMap(recentExpenses, DetailsOf(L));

    var rows := Filter(MapSeq(Categories(L), CategoryTotalOf(sortedExpenses[..], totalExpenses)), PositiveTotal);
    var byCategory := SortedCopy(rows, CategoryTotalKey);

    return Ok(DashboardSummary(totalExpenses, userShare, outstandingAmount, roommateCount,
                               expensesWithDetails, byCategory[..]));
  }

  // ---------------------------------------------------------------------------
  // What the dashboard summary means

  /** An expense the user created or holds a split in. */
  function Involves(L: Ledger, userId: int): Expense -> bool
  {
    (e: Expense) => e.createdById == userId || e.id in SplitExpenseIds(L, userId)
  }

  /**
   * totalExpenses adds up each expense the user created or holds a split in
   * exactly once, however many of the user's splits point at it.
   */
  lemma TotalExpensesCountsOnce(L: Ledger, userId: int)
    requires L.Valid()
    ensures TotalExpenses(L, userId) ==
      Sum(Filter(Expenses(L), Involves(L, userId)), ExpenseAmount)
  {
    var all := Expenses(L);
    var inv := Filter(all, Involves(L, userId));
    forall x | x in inv ensures SharedWith(L, userId)(x) == !CreatedBy(userId)(x) {
      FilterMember(all, Involves(L, userId), x);
    }
    SumPartition(inv, ExpenseAmount, CreatedBy(userId), SharedWith(L, userId));
    FilterFilter(all, Involves(L, userId), CreatedBy(userId), CreatedBy(userId));
    FilterFilter(all, Involves(L, userId), SharedWith(L, userId), SharedWith(L, userId));
    ExpensesByUserSpec(L, userId);
    SumAppend(Filter(all, CreatedBy(userId)), Filter(all, SharedWith(L, userId)), ExpenseAmount);
  }

  function SplitUnpaid(s: Split): bool { !s.isPaid }

  /**
   * userShare is the sum of the user's splits whose expense and user exist;
   * outstandingAmount is the unpaid part of that sum, and the paid part
   * makes up the rest.
   */
  lemma ShareAndOutstanding(L: Ledger, userId: int)
    ensures UserShare(L, userId) ==
      Sum(Filter(Splits(L), LiveSplitOf(L, userId)), SplitAmount)
    ensures OutstandingAmount(L, userId) ==
      Sum(Filter(Filter(Splits(L), LiveSplitOf(L, userId)), SplitUnpaid), SplitAmount)
    ensures UserShare(L, userId) ==
      OutstandingAmount(L, userId) + Sum(Filter(SplitsByUser(L, userId), DetailPaid), DetailAmount)
  {
    var splits := SplitsByUser(L, userId);
    SplitsByUserSpec(L, userId);
    SumMapSeq(splits, SplitPart, SplitAmount, DetailAmount);
    MapSeqFilter(splits, SplitPart, SplitUnpaid, DetailUnpaid);
    SumMapSeq(Filter(splits, DetailUnpaid), SplitPart, SplitAmount, DetailAmount);
    SumPartition(splits, DetailAmount, DetailUnpaid, DetailPaid);
  }

  /** With no negative split amounts, the outstanding amount is part of the user's share. */
  lemma OutstandingWithinShare(L: Ledger, userId: int)
    requires forall s | s in Splits(L) :: s.amount >= 0
    ensures 0 <= OutstandingAmount(L, userId) <= UserShare(L, userId)
  {
    var live := Filter(Splits(L), LiveSplitOf(L, userId));
    forall s | s in live ensures SplitAmount(s) >= 0 {
      FilterMember(Splits(L), LiveSplitOf(L, userId), s);
    }
    ShareAndOutstanding(L, userId);
    SumFilterAtMost(live, SplitAmount, SplitUnpaid);
  }

  /**
   * roommateCount is 0 when the user created no household, and otherwise
   * the number of live memberships of the first household the user created.
   */
  lemma RoommateCountSpec(L: Ledger, userId: int)
    requires L.Valid()
    ensures Filter(Households(L), CreatedHousehold(userId)) == [] ==>
      RoommateCount(L, userId) == 0
    ensures Filter(Households(L), CreatedHousehold(userId)) != [] ==>
      var h := Filter(Households(L), CreatedHousehold(userId))[0];
      h in Households(L) && h.createdById == userId &&
      RoommateCount(L, userId) == |Filter(Roommates(L), LiveMember(L, h.id))|
  {
    var mine := Filter(Households(L), CreatedHousehold(userId));
    if mine != [] {
      FilterMember(Households(L), CreatedHousehold(userId), mine[0]);
      RoommatesByHouseholdSpec(L, mine[0].id);
    }
  }

  function DetailExpense(d: ExpenseWithDetails): Expense { d.expense }

  function HasDetails(L: Ledger): Expense -> bool
  {
    (e: Expense) => GetExpenseWithDetails(L, e.id).Some?
  }

  /**
   * recentExpenses: at most five, the most recent of the user's expenses
   * whose category and creator exist, newest first; no expense left out of
   * the first five is more recent than one kept.
   */
  lemma RecentExpensesSpec(L: Ledger, userId: int)
    requires L.Valid()
    ensures |RecentExpenses(L, userId)| <= 5
    ensures MapSeq(RecentExpenses(L, userId), DetailExpense) ==
      Filter(Take(ByDate(L, userId), 5), HasDetails(L))
    ensures SortedDesc(MapSeq(RecentExpenses(L, userId), DetailExpense), ExpenseDate)
    ensures forall e, r | e in ExpensesByUser(L, userId) && e !in Take(ByDate(L, userId), 5) &&
      r in Take(ByDate(L, userId), 5) :: ExpenseDate(r) >= ExpenseDate(e)
  {
    var first := Take(ByDate(L, userId), 5);
    TakeTop(ExpensesByUser(L, userId), ExpenseDate, 5);
    RecentDetailsKept(L, userId);
    FilterSorted(first, HasDetails(L), ExpenseDate);
  }

  /** Joining details onto the first five drops exactly those whose category or creator is missing. */
  lemma RecentDetailsKept(L: Ledger, userId: int)
    requires L.Valid()
    ensures MapSeq(RecentExpenses(L, userId), DetailExpense) ==
      Filter(Take(ByDate(L, userId), 5), HasDetails(L))
  {
    var expenses := ExpensesByUser(L, userId);
    var first := Take(ByDate(L, userId), 5);
    SortDescPermutation(expenses, ExpenseDate);
    ExpensesByUserSpec(L, userId);
    forall x | x in first
      ensures DetailsOf(L)(x).Some? ==> DetailExpense(DetailsOf(L)(x).value) == x
    {
      assert x in multiset(ByDate(L, userId));
      ListingMember(L.expenses, L.expenseIdCounter, ExpenseId, x);
    }
    FilterMapKept(first, DetailsOf(L), DetailExpense, HasDetails(L));
  }

  function CategoryOfRow(x: CategoryTotal): Category { x.category }

  /** A row of the breakdown is the positive row of one of the categories. */
  lemma BreakdownRow(categories: seq<Category>, expenses: seq<Expense>, totalExpenses: Cents, x: CategoryTotal)
    ensures x in ExpensesByCategory(categories, expenses, totalExpenses) <==>
      x.category in categories && x.total > 0 && x == CategoryTotalOf(expenses, totalExpenses)(x.category)
  {
    var rows0 := MapSeq(categories, CategoryTotalOf(expenses, totalExpenses));
    var rows := Filter(rows0, PositiveTotal);
    SortDescPermutation(rows, CategoryTotalKey);
    FilterMember(rows0, PositiveTotal, x);
    if x in ExpensesByCategory(categories, expenses, totalExpenses) {
      assert x in multiset(rows);
      var i :| 0 <= i < |rows0| && rows0[i] == x;
      assert categories[i] == x.category;
    }
    if x.category in categories && x.total > 0 && x == CategoryTotalOf(expenses, totalExpenses)(x.category) {
      var i :| 0 <= i < |categories| && categories[i] == x.category;
      assert rows0[i] == x;
      assert x in multiset(rows);
    }
  }

  function CategoryTotalIn(expenses: seq<Expense>, categoryId: int): Cents
  {
    Sum(Filter(expenses, InCategory(categoryId)), ExpenseAmount)
  }

  /**
   * expensesByCategory: one row for each category whose expenses add up to
   * more than zero, holding that sum and its rounded percentage of
   * totalExpenses, largest sum first. The sums are those of the user's
   * expenses; sorting them by date beforehand changes none of them.
   */
  lemma ExpensesByCategorySpec(L: Ledger, userId: int)
    ensures SortedDesc(CategoryBreakdown(L, userId), CategoryTotalKey)
    ensures forall x | x in CategoryBreakdown(L, userId) ::
      x.category in Categories(L) && x.total > 0 &&
      x.total == CategoryTotalIn(ExpensesByUser(L, userId), x.category.id) &&
      x.percentage == Percentage(x.total, TotalExpenses(L, userId))
    ensures forall c | c in Categories(L) && CategoryTotalIn(ExpensesByUser(L, userId), c.id) > 0 ::
      CategoryTotal(c, CategoryTotalIn(ExpensesByUser(L, userId), c.id),
                    Percentage(CategoryTotalIn(ExpensesByUser(L, userId), c.id), TotalExpenses(L, userId)))
        in CategoryBreakdown(L, userId)
  {
    var expenses := ExpensesByUser(L, userId);
    var sorted := ByDate(L, userId);
    var T := Sum(expenses, ExpenseAmount);
    var rows := Filter(MapSeq(Categories(L), CategoryTotalOf(sorted, T)), PositiveTotal);
    SortDescSorted(rows, CategoryTotalKey);
    forall c: Category ensures CategoryTotalIn(sorted, c.id) == CategoryTotalIn(expenses, c.id) {
      SortDescSum(expenses, ExpenseDate, InCategory(c.id), ExpenseAmount);
    }
    forall x | x in CategoryBreakdown(L, userId)
      ensures x.category in Categories(L) && x.total > 0 &&
        x.total == CategoryTotalIn(expenses, x.category.id) && x.percentage == Percentage(x.total, T)
    {
      BreakdownRow(Categories(L), sorted, T, x);
    }
    forall c | c in Categories(L) && CategoryTotalIn(expenses, c.id) > 0
      ensures CategoryTotal(c, CategoryTotalIn(expenses, c.id), Percentage(CategoryTotalIn(expenses, c.id), T))
        in CategoryBreakdown(L, userId)
    {
      BreakdownRow(Categories(L), sorted, T, CategoryTotalOf(sorted, T)(c));
    }
  }

  function InAnyCategory(categories: seq<Category>): Expense -> bool
  {
    (e: Expense) => e.categoryId in MapSeq(categories, CategoryId)
  }

  /**
   * With distinct category ids, the per-category sums add up to the sum of
   * the expenses filed under one of the categories: none is counted twice.
   */
  lemma {:induction false} CategoryTotalsPartition(categories: seq<Category>, expenses: seq<Expense>, T: Cents)
    requires DistinctIds(categories, CategoryId)
    ensures Sum(MapSeq(categories, CategoryTotalOf(expenses, T)), CategoryTotalKey)
         == Sum(Filter(expenses, InAnyCategory(categories)), ExpenseAmount)
  {
    if categories == [] {
      FilterNone(expenses, InAnyCategory(categories));
    } else {
      var c, rest := categories[0], categories[1..];
      var ids, restIds := MapSeq(categories, CategoryId), MapSeq(rest, CategoryId);
      assert ids == [c.id] + restIds;
      assert c.id !in restIds by {
        forall k | 0 <= k < |restIds| ensures restIds[k] != c.id {
          assert CategoryId(categories[0]) != CategoryId(categories[k + 1]);
        }
      }
      CategoryTotalsPartition(rest, expenses, T);
      assert MapSeq(categories, CategoryTotalOf(expenses, T))[1..] == MapSeq(rest, CategoryTotalOf(expenses, T));
      var any := Filter(expenses, InAnyCategory(categories));
      forall x | x in any ensures InAnyCategory(rest)(x) == !InCategory(c.id)(x) {
        FilterMember(expenses, InAnyCategory(categories), x);
      }
      SumPartition(any, ExpenseAmount, InCategory(c.id), InAnyCategory(rest));
      FilterFilter(expenses, InAnyCategory(categories), InCategory(c.id), InCategory(c.id));
      FilterFilter(expenses, InAnyCategory(categories), InAnyCategory(rest), InAnyCategory(rest));
    }
  }

  function AnyRow(x: CategoryTotal): bool { true }
  function AnyExpense(e: Expense): bool { true }

  /**
   * With no negative amounts, the category sums together stay within
   * totalExpenses and every percentage lies between 0 and 100.
   */
  lemma CategorySharesBounded(L: Ledger, userId: int)
    requires L.Valid()
    requires forall e | e in Expenses(L) :: e.amount >= 0
    ensures Sum(CategoryBreakdown(L, userId), CategoryTotalKey) <= TotalExpenses(L, userId)
    ensures forall x | x in CategoryBreakdown(L, userId) :: 0 <= x.percentage <= 100
  {
    var expenses := ExpensesByUser(L, userId);
    var sorted := ByDate(L, userId);
    ExpensesByUserSpec(L, userId);
    SortDescPermutation(expenses, ExpenseDate);
    forall e | e in sorted ensures e.amount >= 0 {
      assert e in multiset(sorted);
    }
    // the date sort keeps the grand total
    SortDescSum(expenses, ExpenseDate, AnyExpense, ExpenseAmount);
    FilterAll(expenses, AnyExpense);
    FilterAll(sorted, AnyExpense);
    ListingAscending(L.categories, L.categoryIdCounter, CategoryId);
    BreakdownBounded(Categories(L), sorted, TotalExpenses(L, userId));
  }

  lemma BreakdownBounded(categories: seq<Category>, expenses: seq<Expense>, T: Cents)
    requires DistinctIds(categories, CategoryId)
    requires forall e | e in expenses :: e.amount >= 0
    requires T == Sum(expenses, ExpenseAmount)
    ensures Sum(ExpensesByCategory(categories, expenses, T), CategoryTotalKey) <= T
    ensures forall x | x in ExpensesByCategory(categories, expenses, T) :: 0 <= x.percentage <= 100
  {
    var rows0 := MapSeq(categories, CategoryTotalOf(expenses, T));
    var rows := Filter(rows0, PositiveTotal);
    var byCategory := SortDesc(rows, CategoryTotalKey);
    RowsBounded(categories, expenses, T);
    // the breakdown keeps the positive sums, in another order
    SortDescSum(rows, CategoryTotalKey, AnyRow, CategoryTotalKey);
    FilterAll(rows, AnyRow);
    FilterAll(byCategory, AnyRow);
    SumFilterAtMost(rows0, CategoryTotalKey, PositiveTotal);
    CategoryTotalsPartition(categories, expenses, T);
    SumFilterAtMost(expenses, ExpenseAmount, InAnyCategory(categories));
    forall x | x in byCategory ensures 0 <= x.percentage <= 100 {
      BreakdownRow(categories, expenses, T, x);
      SumFilterAtMost(expenses, ExpenseAmount, InCategory(x.category.id));
      PercentageBounds(x.total, T);
    }
  }

  /** Every category sum lies between 0 and the grand total. */
  lemma RowsBounded(categories: seq<Category>, expenses: seq<Expense>, T: Cents)
    requires forall e | e in expenses :: e.amount >= 0
    requires T == Sum(expenses, ExpenseAmount)
    ensures forall x | x in MapSeq(categories, CategoryTotalOf(expenses, T)) :: 0 <= x.total <= T
  {
    var rows0 := MapSeq(categories, CategoryTotalOf(expenses, T));
    forall x | x in rows0 ensures 0 <= x.total <= T {
      var i :| 0 <= i < |rows0| && rows0[i] == x;
      SumFilterAtMost(expenses, ExpenseAmount, InCategory(categories[i].id));
    }
  }
}
