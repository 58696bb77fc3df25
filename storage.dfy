/**
 * The in-memory ledger store: six tables keyed by id, six id counters, the
 * `create*` operations that allocate ids, the one in-place update (a split's
 * payment status), the joins and sums the queries compute, and the seed data.
 *
 * A JavaScript `Map` lists its values in insertion order, and setting a key
 * that is already present keeps its position. Every key here is taken from a
 * counter that only grows, so the listing of a table is its values in
 * ascending key order; `Listing` states that directly.
 */
module Storage {
  import opened Wrappers
  import opened Seqs
  import opened Schema

  // ---------------------------------------------------------------------------
  // Tables

  /** `Array.from(m.values())` for a map whose keys were all drawn below `next`. */
  function Listing<R>(m: map<int, R>, next: int): seq<R>
    decreases next
  {
    if next <= 1 then []
    else Listing(m, next - 1) + (if next - 1 in m then [m[next - 1]] else [])
  }

  /** Every key lies in `[1, next)` and is the id of the record stored under it. */
  ghost predicate Keyed<R>(m: map<int, R>, next: int, idOf: R -> int)
  {
    forall k | k in m :: 1 <= k < next && idOf(m[k]) == k
  }

  /** Every key lies in `[1, next)`. */
  ghost predicate KeysBelow<R>(m: map<int, R>, next: int)
  {
    forall k | k in m :: 1 <= k < next
  }

  /** `m.get(k)`. */
  function Lookup<R>(m: map<int, R>, k: int): Option<R>
  {
    if k in m then Some(m[k]) else None
  }

  lemma {:induction false} ListingMemberAt<R>(m: map<int, R>, next: int, x: R)
    ensures x in Listing(m, next) <==> exists k :: 1 <= k < next && k in m && m[k] == x
    decreases next
  {
    if next > 1 {
      ListingMemberAt(m, next - 1, x);
    }
  }

  /** A record is listed exactly when it is stored under its own id. */
  lemma ListingMember<R>(m: map<int, R>, next: int, idOf: R -> int, x: R)
    requires Keyed(m, next, idOf)
    ensures x in Listing(m, next) <==> idOf(x) in m && m[idOf(x)] == x
  {
    ListingMemberAt(m, next, x);
    if x in Listing(m, next) {
      var k :| 1 <= k < next && k in m && m[k] == x;
    }
    if idOf(x) in m && m[idOf(x)] == x {
      assert 1 <= idOf(x) < next;
    }
  }

  lemma {:induction false} ListingBelow<R>(m: map<int, R>, next: int, idOf: R -> int, n: int)
    requires Keyed(m, next, idOf) && n <= next
    ensures forall i, j :: 0 <= i < j < |Listing(m, n)| ==>
      idOf(Listing(m, n)[i]) < idOf(Listing(m, n)[j])
    ensures forall x | x in Listing(m, n) :: idOf(x) < n
    decreases n
  {
    if n > 1 {
      ListingBelow(m, next, idOf, n - 1);
    }
  }

  /** The listing is in ascending id order, so no id is listed twice. */
  lemma ListingAscending<R>(m: map<int, R>, next: int, idOf: R -> int)
    requires Keyed(m, next, idOf)
    ensures forall i, j :: 0 <= i < j < |Listing(m, next)| ==>
      idOf(Listing(m, next)[i]) < idOf(Listing(m, next)[j])
    ensures DistinctIds(Listing(m, next), idOf)
  {
    ListingBelow(m, next, idOf, next);
  }

  lemma {:induction false} ListingAgree<R>(m1: map<int, R>, m2: map<int, R>, n: int)
    requires forall k | 1 <= k < n :: (k in m1 <==> k in m2) && (k in m1 ==> m1[k] == m2[k])
    ensures Listing(m1, n) == Listing(m2, n)
    decreases n
  {
    if n > 1 {
      ListingAgree(m1, m2, n - 1);
    }
  }

  /** A record stored under a fresh key at the counter is listed last. */
  lemma ListingAppend<R>(m: map<int, R>, next: int, r: R)
    requires 1 <= next && forall k | k in m :: k < next
    ensures Listing(m[next := r], next + 1) == Listing(m, next) + [r]
  {
    ListingAgree(m[next := r], m, next);
    assert Listing(m[next := r], next + 1) == Listing(m[next := r], next) + [r];
  }

  /** The record `Lookup` finds is the one with the requested id, and it is listed. */
  lemma LookupById<R>(m: map<int, R>, next: int, idOf: R -> int, k: int)
    requires Keyed(m, next, idOf)
    ensures Lookup(m, k).Some? <==> k in m
    ensures Lookup(m, k).Some? ==>
      idOf(Lookup(m, k).value) == k && Lookup(m, k).value in Listing(m, next)
  {
    if k in m {
      ListingMember(m, next, idOf, m[k]);
    }
  }

  // ---------------------------------------------------------------------------
  // The store's state as a value

  datatype Ledger = Ledger(
    users: map<int, User>, categories: map<int, Category>, expenses: map<int, Expense>,
    roommates: map<int, Roommate>, households: map<int, Household>, splits: map<int, Split>,
    userIdCounter: int, categoryIdCounter: int, expenseIdCounter: int,
    roommateIdCounter: int, householdIdCounter: int, splitIdCounter: int)
  {
    /**
     * Every key lies below its table's counter, and every user, category,
     * expense, membership and household sits under its own id. A split need
     * not: the seeding code files six of them under a key one below their id
     * (`SeedAsWritten`), and nothing afterwards repairs that.
     */
    ghost predicate Valid()
    {
      && userIdCounter >= 1 && categoryIdCounter >= 1 && expenseIdCounter >= 1
      && roommateIdCounter >= 1 && householdIdCounter >= 1 && splitIdCounter >= 1
      && Keyed(users, userIdCounter, UserId)
      && Keyed(categories, categoryIdCounter, CategoryId)
      && Keyed(expenses, expenseIdCounter, ExpenseId)
      && Keyed(roommates, roommateIdCounter, RoommateId)
      && Keyed(households, householdIdCounter, HouseholdId)
      && KeysBelow(splits, splitIdCounter)
    }

    /** Every split sits under its own id, as `createSplit` files the splits it adds. */
    ghost predicate SplitsKeyed()
    {
      Keyed(splits, splitIdCounter, SplitId)
    }
  }

  /** The store before seeding: empty tables, every counter at 1. */
  function EmptyLedger(): Ledger
  {
    Ledger(map[], map[], map[], map[], map[], map[], 1, 1, 1, 1, 1, 1)
  }

  function Users(L: Ledger): seq<User> { Listing(L.users, L.userIdCounter) }
  /** getCategories */
  function Categories(L: Ledger): seq<Category> { Listing(L.categories, L.categoryIdCounter) }
  /** getExpenses */
  function Expenses(L: Ledger): seq<Expense> { Listing(L.expenses, L.expenseIdCounter) }
  /** getRoommates */
  function Roommates(L: Ledger): seq<Roommate> { Listing(L.roommates, L.roommateIdCounter) }
  /** getHouseholds */
  function Households(L: Ledger): seq<Household> { Listing(L.households, L.householdIdCounter) }
  function Splits(L: Ledger): seq<Split> { Listing(L.splits, L.splitIdCounter) }

  // ---------------------------------------------------------------------------
  // Queries

  function HasUsername(name: string): User -> bool { (u: User) => u.username == name }

  /** getUserByUsername: the first user, in id order, with that username. */
  function GetUserByUsername(L: Ledger, name: string): (r: Option<User>)
    ensures r.Some? ==> r.value in Users(L) && r.value.username == name
    ensures r.None? ==> forall u | u in Users(L) :: u.username != name
    ensures r.Some? ==> exists i | 0 <= i < |Users(L)| ::
      Users(L)[i] == r.value && forall j | 0 <= j < i :: Users(L)[j].username != name
  {
    var i := FindIndex(Users(L), HasUsername(name));
    assert forall j | 0 <= j < i :: !HasUsername(name)(Users(L)[j]);
    Find(Users(L), HasUsername(name))
  }

  function CreatedBy(userId: int): Expense -> bool { (e: Expense) => e.createdById == userId }
  function SplitOf(userId: int): Split -> bool { (s: Split) => s.userId == userId }
  function SplitExpenseId(s: Split): int { s.expenseId }
  function IdIn(ids: seq<int>): Expense -> bool { (e: Expense) => e.id in ids }

  /** The expense ids of the user's splits. */
  function SplitExpenseIds(L: Ledger, userId: int): seq<int>
  {
    MapSeq(Filter(Splits(L), SplitOf(userId)), SplitExpenseId)
  }

  /**
   * getExpensesByUserId: the user's own expenses followed by the expenses
   * they have a split in, deduplicated through a Map keyed by id.
   */
  function ExpensesByUser(L: Ledger, userId: int): seq<Expense>
  {
    var all := Expenses(L);
    var userExpenses := Filter(all, CreatedBy(userId));
    var splitExpenses := Filter(all, IdIn(SplitExpenseIds(L, userId)));
    Dedup(userExpenses + splitExpenses, ExpenseId)
  }

  /** An expense someone else created in which the user has a split. */
  function SharedWith(L: Ledger, userId: int): Expense -> bool
  {
    (e: Expense) => e.id in SplitExpenseIds(L, userId) && e.createdById != userId
  }

  lemma SplitExpenseIdsMember(L: Ledger, userId: int, k: int)
    ensures k in SplitExpenseIds(L, userId) <==>
      exists s :: s in Splits(L) && s.userId == userId && s.expenseId == k
  {
    var own := Filter(Splits(L), SplitOf(userId));
    if k in SplitExpenseIds(L, userId) {
      var i :| 0 <= i < |own| && SplitExpenseIds(L, userId)[i] == k;
      FilterMember(Splits(L), SplitOf(userId), own[i]);
    }
    if exists s :: s in Splits(L) && s.userId == userId && s.expenseId == k {
      var s :| s in Splits(L) && s.userId == userId && s.expenseId == k;
      FilterMember(Splits(L), SplitOf(userId), s);
      var i :| 0 <= i < |own| && own[i] == s;
      assert SplitExpenseIds(L, userId)[i] == k;
    }
  }

  /** A subsequence of a sequence with distinct ids has distinct ids. */
  lemma {:induction false} FilterDistinct<T>(s: seq<T>, p: T -> bool, idOf: T -> int)
    requires DistinctIds(s, idOf)
    ensures DistinctIds(Filter(s, p), idOf)
  {
    if s != [] {
      FilterDistinct(s[1..], p, idOf);
      var rest := Filter(s[1..], p);
      forall j | 0 <= j < |rest| ensures idOf(s[0]) != idOf(rest[j]) {
        assert rest[j] in rest;
        FilterMember(s[1..], p, rest[j]);
        var i :| 0 <= i < |s[1..]| && s[1..][i] == rest[j];
        assert s[i + 1] == rest[j];
      }
      var head := if p(s[0]) then [s[0]] else [];
      assert Filter(s, p) == head + rest;
    }
  }

  /**
   * getExpensesByUserId returns the user's own expenses, in id order,
   * followed by the other expenses in which the user has a split, in id
   * order: each expense once, exactly when the user created it or has a
   * split in it.
   */
  lemma ExpensesByUserSpec(L: Ledger, userId: int)
    requires L.Valid()
    ensures ExpensesByUser(L, userId) ==
      Filter(Expenses(L), CreatedBy(userId)) + Filter(Expenses(L), SharedWith(L, userId))
    ensures DistinctIds(ExpensesByUser(L, userId), ExpenseId)
    ensures forall e :: e in ExpensesByUser(L, userId) <==>
      e in Expenses(L) && (e.createdById == userId || e.id in SplitExpenseIds(L, userId))
  {
    var all := Expenses(L);
    var a := Filter(all, CreatedBy(userId));
    var b := Filter(all, IdIn(SplitExpenseIds(L, userId)));
    ListingAscending(L.expenses, L.expenseIdCounter, ExpenseId);
    FilterDistinct(all, CreatedBy(userId), ExpenseId);
    FilterDistinct(all, IdIn(SplitExpenseIds(L, userId)), ExpenseId);
    assert IdConsistent(a + b, ExpenseId) by {
      forall x: Expense, y: Expense | x in a + b && y in a + b && x.id == y.id ensures x == y {
        FilterMember(all, CreatedBy(userId), x);
        FilterMember(all, IdIn(SplitExpenseIds(L, userId)), x);
        FilterMember(all, CreatedBy(userId), y);
        FilterMember(all, IdIn(SplitExpenseIds(L, userId)), y);
        ListingMember(L.expenses, L.expenseIdCounter, ExpenseId, x);
        ListingMember(L.expenses, L.expenseIdCounter, ExpenseId, y);
      }
    }
    DedupAppend(a, b, ExpenseId);
    forall x | x in all
      ensures SharedWith(L, userId)(x) ==
        (IdIn(SplitExpenseIds(L, userId))(x) && NewId(a, ExpenseId)(x))
    {
      FilterMember(all, CreatedBy(userId), x);
      if HasId(a, ExpenseId, x.id) {
        var z :| z in a && z.id == x.id;
        FilterMember(all, CreatedBy(userId), z);
        ListingMember(L.expenses, L.expenseIdCounter, ExpenseId, x);
        ListingMember(L.expenses, L.expenseIdCounter, ExpenseId, z);
      }
    }
    FilterFilter(all, IdIn(SplitExpenseIds(L, userId)), NewId(a, ExpenseId), SharedWith(L, userId));
    DedupDistinct(a + b, ExpenseId);
    forall e ensures e in ExpensesByUser(L, userId) <==>
      e in all && (e.createdById == userId || e.id in SplitExpenseIds(L, userId))
    {
      FilterMember(all, CreatedBy(userId), e);
      FilterMember(all, SharedWith(L, userId), e);
    }
  }

  function UnpaidOf(userId: int): Split -> bool { (s: Split) => s.userId == userId && !s.isPaid }

  /** The sum of all the user's unpaid splits, over every expense. */
  function OwedAmount(L: Ledger, userId: int): Cents
  {
    Sum(Filter(Splits(L), UnpaidOf(userId)), SplitAmount)
  }

  /** A user with no unpaid split owes nothing. */
  lemma OwedAmountNone(L: Ledger, userId: int)
    requires forall s | s in Splits(L) :: s.userId != userId || s.isPaid
    ensures OwedAmount(L, userId) == 0
  {
    FilterNone(Splits(L), UnpaidOf(userId));
  }

  function InHousehold(householdId: int): Roommate -> bool { (r: Roommate) => r.householdId == householdId }

  /** `{ ...roommate, user, owedAmount }`, or nothing when the user is missing. */
  function JoinRoommate(L: Ledger): Roommate -> Option<RoommateWithUser>
  {
    (r: Roommate) =>
      if r.userId in L.users then
        var user := L.users[r.userId];
        Some(RoommateWithUser(r, user, OwedAmount(L, user.id)))
      else None
  }

  /** getRoommatesByHouseholdId */
  function RoommatesByHousehold(L: Ledger, householdId: int): seq<RoommateWithUser>
  {
    FilterMap(Filter(Roommates(L), InHousehold(householdId)), JoinRoommate(L))
  }

  function MembershipOf(r: RoommateWithUser): Roommate { r.roommate }

  /** A membership of the household whose user exists. */
  function LiveMember(L: Ledger, householdId: int): Roommate -> bool
  {
    (r: Roommate) => r.householdId == householdId && r.userId in L.users
  }

  /**
   * getRoommatesByHouseholdId returns exactly the memberships of that
   * household whose user exists, in id order, each with its user and the
   * sum of that user's unpaid splits.
   */
  lemma RoommatesByHouseholdSpec(L: Ledger, householdId: int)
    requires L.Valid()
    ensures MapSeq(RoommatesByHousehold(L, householdId), MembershipOf) ==
      Filter(Roommates(L), LiveMember(L, householdId))
    ensures forall x | x in RoommatesByHousehold(L, householdId) ::
      x.roommate.userId in L.users && x.user == L.users[x.roommate.userId] &&
      x.owedAmount == OwedAmount(L, x.roommate.userId)
  {
    var mine := Filter(Roommates(L), InHousehold(householdId));
    var hasUser := (r: Roommate) => r.userId in L.users;
    FilterMapKept(mine, JoinRoommate(L), MembershipOf, hasUser);
    FilterFilter(Roommates(L), InHousehold(householdId), hasUser, LiveMember(L, householdId));
    forall x | x in RoommatesByHousehold(L, householdId)
      ensures x.roommate.userId in L.users && x.user == L.users[x.roommate.userId] &&
              x.owedAmount == OwedAmount(L, x.roommate.userId)
    {
      FilterMapMember(mine, JoinRoommate(L), x);
    }
  }

  /** `{ ...split, expense, user }`, or nothing when either is missing. */
  function JoinSplit(L: Ledger): Split -> Option<SplitWithDetails>
  {
    (s: Split) =>
      if s.expenseId in L.expenses && s.userId in L.users then
        Some(SplitWithDetails(s, L.expenses[s.expenseId], L.users[s.userId]))
      else None
  }

  /** getSplitsByUserId */
  function SplitsByUser(L: Ledger, userId: int): seq<SplitWithDetails>
  {
    FilterMap(Filter(Splits(L), SplitOf(userId)), JoinSplit(L))
  }

  function SplitPart(d: SplitWithDetails): Split { d.split }

  /** A split of the user whose expense and user both exist. */
  function LiveSplitOf(L: Ledger, userId: int): Split -> bool
  {
    (s: Split) => s.userId == userId && s.expenseId in L.expenses && s.userId in L.users
  }

  /**
   * getSplitsByUserId returns exactly the user's splits whose expense and
   * user both exist, in id order, each joined with that expense and user.
   */
  lemma SplitsByUserSpec(L: Ledger, userId: int)
    ensures MapSeq(SplitsByUser(L, userId), SplitPart) == Filter(Splits(L), LiveSplitOf(L, userId))
    ensures forall d | d in SplitsByUser(L, userId) ::
      d.split.expenseId in L.expenses && d.split.userId in L.users &&
      d.expense == L.expenses[d.split.expenseId] && d.user == L.users[d.split.userId]
  {
    var mine := Filter(Splits(L), SplitOf(userId));
    var live := (s: Split) => s.expenseId in L.expenses && s.userId in L.users;
    FilterMapKept(mine, JoinSplit(L), SplitPart, live);
    FilterFilter(Splits(L), SplitOf(userId), live, LiveSplitOf(L, userId));
    forall d | d in SplitsByUser(L, userId)
      ensures d.split.expenseId in L.expenses && d.split.userId in L.users &&
              d.expense == L.expenses[d.split.expenseId] && d.user == L.users[d.split.userId]
    {
      FilterMapMember(mine, JoinSplit(L), d);
    }
  }

  function ForExpense(expenseId: int): Split -> bool { (s: Split) => s.expenseId == expenseId }

  /** getSplitsByExpenseId */
  function SplitsByExpense(L: Ledger, expenseId: int): seq<Split>
  {
    Filter(Splits(L), ForExpense(expenseId))
  }

  /** getSplitsByExpenseId returns exactly the splits of that expense. */
  lemma SplitsByExpenseMember(L: Ledger, expenseId: int, s: Split)
    ensures s in SplitsByExpense(L, expenseId) <==> s in Splits(L) && s.expenseId == expenseId
  {
    FilterMember(Splits(L), ForExpense(expenseId), s);
  }

  /** `{ ...split, user }`, or nothing when the user is missing. */
  function JoinSplitUser(L: Ledger): Split -> Option<SplitWithUser>
  {
    (s: Split) => if s.userId in L.users then Some(SplitWithUser(s, L.users[s.userId])) else None
  }

  /** getExpenseWithDetails */
  function GetExpenseWithDetails(L: Ledger, id: int): Option<ExpenseWithDetails>
  {
    if id !in L.expenses then None
    else
      var expense := L.expenses[id];
      if expense.categoryId !in L.categories || expense.createdById !in L.users then None
      else
        var splits := FilterMap(Filter(Splits(L), ForExpense(id)), JoinSplitUser(L));
        Some(ExpenseWithDetails(expense, L.categories[expense.categoryId],
                                L.users[expense.createdById], splits))
  }

  function SplitOfUser(d: SplitWithUser): Split { d.split }

  /** A split of the expense whose user exists. */
  function LiveSplitFor(L: Ledger, expenseId: int): Split -> bool
  {
    (s: Split) => s.expenseId == expenseId && s.userId in L.users
  }

  /**
   * getExpenseWithDetails is undefined exactly when the expense, its
   * category or its creator is missing; otherwise it carries that expense,
   * its category, its creator and exactly the splits of the expense whose
   * user exists, each with that user.
   */
  lemma ExpenseWithDetailsSpec(L: Ledger, id: int)
    requires L.Valid()
    ensures GetExpenseWithDetails(L, id).None? <==>
      id !in L.expenses || L.expenses[id].categoryId !in L.categories ||
      L.expenses[id].createdById !in L.users
    ensures GetExpenseWithDetails(L, id).Some? ==>
      var d := GetExpenseWithDetails(L, id).value;
      && d.expense.id == id && d.expense == L.expenses[id]
      && d.category.id == d.expense.categoryId && d.createdBy.id == d.expense.createdById
      && MapSeq(d.splits, SplitOfUser) == Filter(Splits(L), LiveSplitFor(L, id))
      && forall x | x in d.splits :: x.split.userId in L.users && x.user == L.users[x.split.userId]
  {
    if GetExpenseWithDetails(L, id).Some? {
      var d := GetExpenseWithDetails(L, id).value;
      var ofId := Filter(Splits(L), ForExpense(id));
      var hasUser := (s: Split) => s.userId in L.users;
      FilterMapKept(ofId, JoinSplitUser(L), SplitOfUser, hasUser);
      FilterFilter(Splits(L), ForExpense(id), hasUser, LiveSplitFor(L, id));
      forall x | x in d.splits
        ensures x.split.userId in L.users && x.user == L.users[x.split.userId]
      {
        FilterMapMember(ofId, JoinSplitUser(L), x);
      }
    }
  }

  // ---------------------------------------------------------------------------
  // The payment-status update, as a function of the state

  /** The state after `updateSplitPaymentStatus(id, isPaid)`. */
  function SetPaid(L: Ledger, id: int, isPaid: bool): Ledger
  {
    if id in L.splits then L.(splits := L.splits[id := L.splits[id].(isPaid := isPaid)]) else L
  }

  /**
   * The update changes nothing for a missing id; otherwise it changes only
   * the `isPaid` field of that one split, keeps the store valid, and
   * repeating it changes nothing further.
   */
  lemma SetPaidSpec(L: Ledger, id: int, isPaid: bool)
    requires L.Valid()
    ensures id !in L.splits ==> SetPaid(L, id, isPaid) == L
    ensures SetPaid(L, id, isPaid).Valid()
    ensures L.SplitsKeyed() ==> SetPaid(L, id, isPaid).SplitsKeyed()
    ensures SetPaid(L, id, isPaid).splits.Keys == L.splits.Keys
    ensures forall k | k in L.splits && k != id :: SetPaid(L, id, isPaid).splits[k] == L.splits[k]
    ensures id in L.splits ==>
      SetPaid(L, id, isPaid).splits[id] == L.splits[id].(isPaid := isPaid) &&
      SetPaid(L, id, isPaid) == L.(splits := SetPaid(L, id, isPaid).splits)
    ensures SetPaid(SetPaid(L, id, isPaid), id, isPaid) == SetPaid(L, id, isPaid)
  {
  }

  // ---------------------------------------------------------------------------
  // The store object

  class MemStorage {
    var users: map<int, User>
    var categories: map<int, Category>
    var expenses: map<int, Expense>
    var roommates: map<int, Roommate>
    var households: map<int, Household>
    var splits: map<int, Split>

    var userIdCounter: int
    var categoryIdCounter: int
    var expenseIdCounter: int
    var roommateIdCounter: int
    var householdIdCounter: int
    var splitIdCounter: int

    function State(): Ledger
      reads this
    {
      Ledger(users, categories, expenses, roommates, households, splits,
             userIdCounter, categoryIdCounter, expenseIdCounter,
             roommateIdCounter, householdIdCounter, splitIdCounter)
    }

    ghost predicate Valid()
      reads this
    {
      State().Valid()
    }

    /** Empty tables, counters at 1, then the seed data as the seeding code files it. */
    constructor (monthStart: Timestamp)
      ensures Valid()
      ensures State() == SeedAsWritten(monthStart)
    {
      users, categories, expenses := map[], map[], map[];
      roommates, households, splits := map[], map[], map[];
      userIdCounter, categoryIdCounter, expenseIdCounter := 1, 1, 1;
      roommateIdCounter, householdIdCounter, splitIdCounter := 1, 1, 1;
      new;
      InitializeDefaultData(monthStart);
      SeedValid(monthStart);
    }

    method CreateUser(insertUser: NewUser) returns (user: User)
      requires Valid()
      modifies this
      ensures Valid()
      ensures user == UserFrom(insertUser, old(userIdCounter))
      ensures forall k | k in old(users) :: k < user.id
      ensures State() == old(State()).(users := old(users)[user.id := user],
                                        userIdCounter := old(userIdCounter) + 1)
      ensures Users(State()) == Users(old(State())) + [user]
    {
      var id := userIdCounter;
      userIdCounter := userIdCounter + 1;
      user := UserFrom(insertUser, id);
      ListingAppend(users, id, user);
      users := users[id := user];
    }

    method CreateCategory(insertCategory: NewCategory) returns (category: Category)
      requires Valid()
      modifies this
      ensures Valid()
      ensures category == CategoryFrom(insertCategory, old(categoryIdCounter))
      ensures forall k | k in old(categories) :: k < category.id
      ensures State() == old(State()).(categories := old(categories)[category.id := category],
                                        categoryIdCounter := old(categoryIdCounter) + 1)
      ensures Categories(State()) == Categories(old(State())) + [category]
    {
      var id := categoryIdCounter;
      categoryIdCounter := categoryIdCounter + 1;
      category := CategoryFrom(insertCategory, id);
      ListingAppend(categories, id, category);
      categories := categories[id := category];
    }

    method CreateExpense(insertExpense: NewExpense) returns (expense: Expense)
      requires Valid()
      modifies this
      ensures Valid()
      ensures expense == ExpenseFrom(insertExpense, old(expenseIdCounter))
      ensures forall k | k in old(expenses) :: k < expense.id
      ensures State() == old(State()).(expenses := old(expenses)[expense.id := expense],
                                        expenseIdCounter := old(expenseIdCounter) + 1)
      ensures Expenses(State()) == Expenses(old(State())) + [expense]
    {
      var id := expenseIdCounter;
      expenseIdCounter := expenseIdCounter + 1;
      expense := ExpenseFrom(insertExpense, id);
      ListingAppend(expenses, id, expense);
      expenses := expenses[id := expense];
    }

    method CreateRoommate(insertRoommate: NewRoommate) returns (roommate: Roommate)
      requires Valid()
      modifies this
      ensures Valid()
      ensures roommate == RoommateFrom(insertRoommate, old(roommateIdCounter))
      ensures forall k | k in old(roommates) :: k < roommate.id
      ensures State() == old(State()).(roommates := old(roommates)[roommate.id := roommate],
                                        roommateIdCounter := old(roommateIdCounter) + 1)
      ensures Roommates(State()) == Roommates(old(State())) + [roommate]
    {
      var id := roommateIdCounter;
      roommateIdCounter := roommateIdCounter + 1;
      roommate := RoommateFrom(insertRoommate, id);
      ListingAppend(roommates, id, roommate);
      roommates := roommates[id := roommate];
    }

    method CreateHousehold(insertHousehold: NewHousehold) returns (household: Household)
      requires Valid()
      modifies this
      ensures Valid()
      ensures household == HouseholdFrom(insertHousehold, old(householdIdCounter))
      ensures forall k | k in old(households) :: k < household.id
      ensures State() == old(State()).(households := old(households)[household.id := household],
                                        householdIdCounter := old(householdIdCounter) + 1)
      ensures Households(State()) == Households(old(State())) + [household]
    {
      var id := householdIdCounter;
      householdIdCounter := householdIdCounter + 1;
      household := HouseholdFrom(insertHousehold, id);
      ListingAppend(households, id, household);
      households := households[id := household];
    }

    method CreateSplit(insertSplit: NewSplit) returns (split: Split)
      requires Valid()
      modifies this
      ensures Valid()
      ensures split == SplitFrom(insertSplit, old(splitIdCounter))
      ensures forall k | k in old(splits) :: k < split.id
      ensures old(State().SplitsKeyed()) ==> State().SplitsKeyed()
      ensures State() == old(State()).(splits := old(splits)[split.id := split],
                                        splitIdCounter := old(splitIdCounter) + 1)
      ensures Splits(State()) == Splits(old(State())) + [split]
    {
      var id := splitIdCounter;
      splitIdCounter := splitIdCounter + 1;
      split := SplitFrom(insertSplit, id);
      ListingAppend(splits, id, split);
      splits := splits[id := split];
    }

    method UpdateSplitPaymentStatus(id: int, isPaid: bool) returns (updated: Option<Split>)
      requires Valid()
      modifies this
      ensures Valid()
      ensures old(State().SplitsKeyed()) ==> State().SplitsKeyed()
      ensures updated.Some? <==> id in old(splits)
      ensures updated.Some? ==> updated.value == old(splits)[id].(isPaid := isPaid)
      ensures State() == SetPaid(old(State()), id, isPaid)
    {
      if id !in splits {
        return None;
      }
      var split := splits[id];
      var updatedSplit := split.(isPaid := isPaid);
      splits := splits[id := updatedSplit];
      SetPaidSpec(old(State()), id, isPaid);
      return Some(updatedSplit);
    }

    /**
     * initializeDefaultData: three users, one household holding all three,
     * the five default categories, then four expenses, each followed by its
     * splits. The rent and grocery splits are filed under their own id, the
     * electricity and internet splits under a key one below it.
     */
    method InitializeDefaultData(monthStart: Timestamp)
      requires State() == EmptyLedger()
      modifies this
      ensures State() == SeedAsWritten(monthStart)
    {
      SeedPeople();
      SeedCategoryRows();
      SeedExpense(monthStart, 0, 0, 3, false);   // rent, split three ways
      SeedExpense(monthStart, 1, 3, 5, false);   // groceries, split two ways
      SeedExpense(monthStart, 2, 5, 8, true);    // electricity, split three ways
      SeedExpense(monthStart, 3, 8, 11, true);   // internet, split three ways
    }

    /** The five default categories, stored under ids 1 to 5. */
    method SeedCategoryRows()
      requires categories == map[] && categoryIdCounter == 1
      modifies this
      ensures State() == old(State()).(categories := SeededCategories(|DefaultCategories|),
                                        categoryIdCounter := |DefaultCategories| + 1)
    {
      for i := 0 to |DefaultCategories|
        invariant State() == old(State()).(categories := categories, categoryIdCounter := categoryIdCounter)
        invariant categoryIdCounter == i + 1
        invariant categories == SeededCategories(i)
      {
        var category := CategoryFrom(DefaultCategories[i], categoryIdCounter);
        categoryIdCounter := categoryIdCounter + 1;
        categories := categories[category.id := category];
      }
    }

    /** The three users, their household, and one membership per user. */
    method SeedPeople()
      requires State() == EmptyLedger()
      modifies this
      ensures State() == EmptyLedger().(users := SeedUsers(), households := SeedHouseholds(),
                                         roommates := SeedRoommates(),
                                         userIdCounter := 4, householdIdCounter := 2, roommateIdCounter := 4)
    {
      SeedUserRows();
      var household := Household(householdIdCounter, "Our Apartment", 1);
      householdIdCounter := householdIdCounter + 1;
      households := households[household.id := household];
      SeedMemberships();
    }

    /** The three seeded users, stored under ids 1 to 3. */
    method SeedUserRows()
      requires users == map[] && userIdCounter == 1
      modifies this
      ensures State() == old(State()).(users := SeedUsers(), userIdCounter := 4)
    {
      var user := User(userIdCounter, "jamie", "password123", "jamie@remote.co", "Jamie Smith", "JS");
      userIdCounter := userIdCounter + 1;
      users := users[user.id := user];
      var user2 := User(userIdCounter, "kim", "password123", "kim@example.com", "Kim Lee", "KL");
      userIdCounter := userIdCounter + 1;
      users := users[user2.id := user2];
      var user3 := User(userIdCounter, "mike", "password123", "mike@example.com", "Mike Rodriguez", "MR");
      userIdCounter := userIdCounter + 1;
      users := users[user3.id := user3];
      assert users == SeedUsers();
    }

    /** One membership of household 1 for each of users 1 to 3, stored under ids 1 to 3. */
    method SeedMemberships()
      requires roommates == map[] && roommateIdCounter == 1
      modifies this
      ensures State() == old(State()).(roommates := SeedRoommates(), roommateIdCounter := 4)
    {
      var roommate1 := Roommate(roommateIdCounter, 1, 1);
      roommateIdCounter := roommateIdCounter + 1;
      roommates := roommates[roommate1.id := roommate1];
      var roommate2 := Roommate(roommateIdCounter, 2, 1);
      roommateIdCounter := roommateIdCounter + 1;
      roommates := roommates[roommate2.id := roommate2];
      var roommate3 := Roommate(roommateIdCounter, 3, 1);
      roommateIdCounter := roommateIdCounter + 1;
      roommates := roommates[roommate3.id := roommate3];
      assert roommates == SeedRoommates();
    }

    /**
     * Seeded expense number `k` (0-based), stored under the counter, followed
     * by seeded splits `from..to-1`, filed as `SeedSplitRange` says.
     */
    method SeedExpense(monthStart: Timestamp, k: nat, from: nat, to: nat, keyBeforeId: bool)
      requires k < |SeedExpenseRows(monthStart)| && from <= to <= |SplitSeeds|
      requires if keyBeforeId then 5 <= from else to <= 5
      requires expenseIdCounter == k + 1 && expenses == SeedExpenses(monthStart, k)
      requires splitIdCounter == from + 1 && splits == SeedSplits(monthStart, from, true)
      modifies this
      ensures State() == old(State()).(expenses := SeedExpenses(monthStart, k + 1), expenseIdCounter := k + 2,
                                        splits := SeedSplits(monthStart, to, true), splitIdCounter := to + 1)
    {
      var expense := ExpenseFrom(SeedExpenseRows(monthStart)[k], expenseIdCounter);
      expenseIdCounter := expenseIdCounter + 1;
      expenses := expenses[expense.id := expense];
      SeedSplitRange(monthStart, from, to, keyBeforeId);
    }

    /**
     * Seeded splits `from..to-1`. Without `keyBeforeId` each split takes the
     * counter as its id and is stored under that id; with it, the key is the
     * counter read before the increment and the id the counter read after.
     */
    method SeedSplitRange(monthStart: Timestamp, from: nat, to: nat, keyBeforeId: bool)
      requires from <= to <= |SplitSeeds|
      requires if keyBeforeId then 5 <= from else to <= 5
      requires splitIdCounter == from + 1 && splits == SeedSplits(monthStart, from, true)
      modifies this
      ensures State() == old(State()).(splits := SeedSplits(monthStart, to, true), splitIdCounter := to + 1)
    {
      for i := from to to
        invariant State() == old(State()).(splits := splits, splitIdCounter := splitIdCounter)
        invariant splitIdCounter == i + 1 && splits == SeedSplits(monthStart, i, true)
      {
        var row := SeedSplitRow(monthStart, SplitSeeds[i]);
        if keyBeforeId {
          var key := splitIdCounter;
          splitIdCounter := splitIdCounter + 1;
          splits := splits[key := SplitFrom(row, splitIdCounter)];
        } else {
          var split := SplitFrom(row, splitIdCounter);
          splitIdCounter := splitIdCounter + 1;
          splits := splits[split.id := split];
        }
      }
    }
  }

  // ---------------------------------------------------------------------------
  // Seed data

  const MsPerDay: int := 86400000

  /**
   * `new Date(year, month, d)` for the month starting at `monthStart`; a day
   * past the end of the month rolls into the next one, as `Date` does.
   */
  function Day(monthStart: Timestamp, d: int): Timestamp
  {
    monthStart + (d - 1) * MsPerDay
  }

  const DefaultCategories: seq<NewCategory> := [
    NewCategory("Rent", "home", "#6366f1"),
    NewCategory("Utilities", "bolt", "#8b5cf6"),
    NewCategory("Groceries", "shopping-basket", "#f97316"),
    NewCategory("Internet", "wifi", "#22c55e"),
    NewCategory("Subscriptions", "tv", "#ef4444")
  ]

  /** The first `n` default categories, with ids 1..n. */
  function SeededCategories(n: nat): map<int, Category>
    requires n <= |DefaultCategories|
  {
    if n == 0 then map[] else SeededCategories(n - 1)[n := CategoryFrom(DefaultCategories[n - 1], n)]
  }

  /** The seeded expenses in creation order, as inserts; all are created by user 1. */
  function SeedExpenseRows(monthStart: Timestamp): seq<NewExpense>
  {
    [
      NewExpense("May Rent", 180000, Day(monthStart, 1), Some("Monthly rent payment"), 1, 1),
      NewExpense("Costco Run", 15688, Day(monthStart, 18), Some("Weekly grocery shopping"), 1, 3),
      NewExpense("Electricity Bill", 12487, Day(monthStart, 12), Some("Monthly electricity bill"), 1, 2),
      NewExpense("Internet Service", 7999, Day(monthStart, 10), Some("Monthly internet service"), 1, 4)
    ]
  }

  /** The first `n` seeded expenses, each stored under its own id `1..n`. */
  function SeedExpenses(monthStart: Timestamp, n: nat): map<int, Expense>
    requires n <= |SeedExpenseRows(monthStart)|
  {
    if n == 0 then map[]
    else SeedExpenses(monthStart, n - 1)[n := ExpenseFrom(SeedExpenseRows(monthStart)[n - 1], n)]
  }

  /** One seeded split: its expense, its user, its amount, whether it is paid, its due day. */
  datatype SplitSeed = SplitSeed(expenseId: int, userId: int, amount: Cents, isPaid: bool, dueDay: int)

  /** The seeded splits in creation order. */
  const SplitSeeds: seq<SplitSeed> := [
    SplitSeed(1, 1, 60000, true, 31),
    SplitSeed(1, 2, 60000, true, 31),
    SplitSeed(1, 3, 60000, false, 31),
    SplitSeed(2, 1, 7844, true, 25),
    SplitSeed(2, 2, 7844, false, 25),
    SplitSeed(3, 1, 4162, true, 20),
    SplitSeed(3, 2, 4162, true, 20),
    SplitSeed(3, 3, 4163, true, 20),
    SplitSeed(4, 1, 2666, true, 15),
    SplitSeed(4, 2, 2666, true, 15),
    SplitSeed(4, 3, 2667, true, 15)
  ]

  /** The insert for a seeded split, due on its day of the month starting at `monthStart`. */
  function SeedSplitRow(monthStart: Timestamp, r: SplitSeed): NewSplit
  {
    NewSplit(r.expenseId, r.userId, r.amount, Some(r.isPaid), Some(Day(monthStart, r.dueDay)))
  }

  /**
   * The id of the seeded split stored under key `k`. As written, the
   * electricity and internet splits (keys 6 to 11) are stored with
   * `this.splits.set(this.splitIdCounter++, { id: this.splitIdCounter, ... })`:
   * the key is read before the increment and the id after it. Corrected,
   * every split has its key as its id.
   */
  function SeedSplitId(k: int, asWritten: bool): int
  {
    if asWritten && k > 5 then k + 1 else k
  }

  /** The first `n` seeded splits, stored under keys `1..n`. */
  function SeedSplits(monthStart: Timestamp, n: nat, asWritten: bool): map<int, Split>
    requires n <= |SplitSeeds|
  {
    if n == 0 then map[]
    else
      SeedSplits(monthStart, n - 1, asWritten)[n := SplitFrom(SeedSplitRow(monthStart, SplitSeeds[n - 1]),
                                                               SeedSplitId(n, asWritten))]
  }

  function SeedUsers(): map<int, User>
  {
    map[
      1 := User(1, "jamie", "password123", "jamie@remote.co", "Jamie Smith", "JS"),
      2 := User(2, "kim", "password123", "kim@example.com", "Kim Lee", "KL"),
      3 := User(3, "mike", "password123", "mike@example.com", "Mike Rodriguez", "MR")
    ]
  }

  function SeedHouseholds(): map<int, Household>
  {
    map[1 := Household(1, "Our Apartment", 1)]
  }

  /** Every seeded user is a member of the seeded household. */
  function SeedRoommates(): map<int, Roommate>
  {
    map[1 := Roommate(1, 1, 1), 2 := Roommate(2, 2, 1), 3 := Roommate(3, 3, 1)]
  }

  /** The store right after seeding, with the splits filed as written or as corrected. */
  function SeedLedger(monthStart: Timestamp, asWritten: bool): Ledger
  {
    Ledger(
      SeedUsers(),
      SeededCategories(5),
      SeedExpenses(monthStart, 4),
      SeedRoommates(),
      SeedHouseholds(),
      SeedSplits(monthStart, 11, asWritten),
      4, 6, 5, 4, 2, 12)
  }

  /** The store the seeding code builds, which the constructor leaves. */
  function SeedAsWritten(monthStart: Timestamp): Ledger
  {
    SeedLedger(monthStart, true)
  }

  /** The seed with every split filed under its own id. */
  function Seed(monthStart: Timestamp): Ledger
  {
    SeedLedger(monthStart, false)
  }

  lemma {:induction false} SeededCategoriesKeyed(n: nat)
    requires n <= |DefaultCategories|
    ensures Keyed(SeededCategories(n), n + 1, CategoryId)
  {
    if n > 0 {
      SeededCategoriesKeyed(n - 1);
    }
  }

  lemma {:induction false} SeedExpensesKeyed(monthStart: Timestamp, n: nat)
    requires n <= |SeedExpenseRows(monthStart)|
    ensures Keyed(SeedExpenses(monthStart, n), n + 1, ExpenseId)
  {
    if n > 0 {
      SeedExpensesKeyed(monthStart, n - 1);
    }
  }

  lemma {:induction false} SeedSplitsKeyed(monthStart: Timestamp, n: nat)
    requires n <= |SplitSeeds|
    ensures Keyed(SeedSplits(monthStart, n, false), n + 1, SplitId)
  {
    if n > 0 {
      SeedSplitsKeyed(monthStart, n - 1);
    }
  }

  /** The seeded splits occupy keys `1..n`, each holding its seed row with the id `SeedSplitId` gives. */
  lemma {:induction false} SeedSplitsAt(monthStart: Timestamp, n: nat, asWritten: bool)
    requires n <= |SplitSeeds|
    ensures forall k :: k in SeedSplits(monthStart, n, asWritten) <==> 1 <= k <= n
    ensures forall k | 1 <= k <= n ::
      SeedSplits(monthStart, n, asWritten)[k] ==
        SplitFrom(SeedSplitRow(monthStart, SplitSeeds[k - 1]), SeedSplitId(k, asWritten))
  {
    if n > 0 {
      SeedSplitsAt(monthStart, n - 1, asWritten);
    }
  }

  /**
   * The store the seeding code builds is valid: every key lies below its
   * counter and every record other than a split sits under its own id. With
   * the splits filed under their own ids, the splits are keyed as well.
   */
  lemma SeedValid(monthStart: Timestamp)
    ensures SeedAsWritten(monthStart).Valid()
    ensures Seed(monthStart).Valid() && Seed(monthStart).SplitsKeyed()
  {
    SeededCategoriesKeyed(5);
    SeedExpensesKeyed(monthStart, 4);
    SeedSplitsAt(monthStart, 11, true);
    SeedSplitsKeyed(monthStart, 11);
  }

  /** The amounts of the first `n` seeded splits that belong to expense `e`, summed. */
  function SeedRowTotal(n: nat, e: int): Cents
    requires n <= |SplitSeeds|
  {
    if n == 0 then 0
    else SeedRowTotal(n - 1, e) + (if SplitSeeds[n - 1].expenseId == e then SplitSeeds[n - 1].amount else 0)
  }

  /** The seeded split amounts per expense, row by row. */
  lemma SeedRowTotals()
    ensures SeedRowTotal(11, 1) == 180000 && SeedRowTotal(11, 2) == 15688
    ensures SeedRowTotal(11, 3) == 12487 && SeedRowTotal(11, 4) == 7999
  {
  }

  lemma {:induction false} SeedSplitTotals(monthStart: Timestamp, n: nat, e: int, asWritten: bool)
    requires n <= |SplitSeeds|
    ensures Sum(Filter(Listing(SeedSplits(monthStart, n, asWritten), n + 1), ForExpense(e)), SplitAmount)
         == SeedRowTotal(n, e)
  {
    if n > 0 {
      SeedSplitTotals(monthStart, n - 1, e, asWritten);
      var split := SeedSplitsListingStep(monthStart, n, asWritten);
      SumForExpenseSnoc(Listing(SeedSplits(monthStart, n - 1, asWritten), n), split, e);
    }
  }

  /** Seeding split number `n` appends it to the split listing. */
  lemma SeedSplitsListingStep(monthStart: Timestamp, n: nat, asWritten: bool) returns (split: Split)
    requires 0 < n <= |SplitSeeds|
    ensures split.expenseId == SplitSeeds[n - 1].expenseId && split.amount == SplitSeeds[n - 1].amount
    ensures Listing(SeedSplits(monthStart, n, asWritten), n + 1) ==
      Listing(SeedSplits(monthStart, n - 1, asWritten), n) + [split]
  {
    SeedSplitsAt(monthStart, n - 1, asWritten);
    var prev := SeedSplits(monthStart, n - 1, asWritten);
    split := SplitFrom(SeedSplitRow(monthStart, SplitSeeds[n - 1]), SeedSplitId(n, asWritten));
    ListingAppend(prev, n, split);
  }

  /** Listing one more split adds its amount to the total of its own expense only. */
  lemma SumForExpenseSnoc(s: seq<Split>, x: Split, e: int)
    ensures Sum(Filter(s + [x], ForExpense(e)), SplitAmount) ==
      Sum(Filter(s, ForExpense(e)), SplitAmount) + (if x.expenseId == e then x.amount else 0)
  {
    FilterAppend(s, [x], ForExpense(e));
    assert Filter([x], ForExpense(e)) == if x.expenseId == e then [x] else [];
    SumAppend(Filter(s, ForExpense(e)), Filter([x], ForExpense(e)), SplitAmount);
  }

  /**
   * The seeded splits of every seeded expense add up exactly to its amount:
   * 1800.00 = 3 x 600.00, 156.88 = 2 x 78.44, 124.87 = 41.62 + 41.62 + 41.63
   * and 79.99 = 26.66 + 26.66 + 26.67.
   */
  lemma {:induction false} SeedExpensesAt(monthStart: Timestamp, n: nat)
    requires n <= |SeedExpenseRows(monthStart)|
    ensures forall k | k in SeedExpenses(monthStart, n) :: 1 <= k <= n
    ensures forall k | 1 <= k <= n ::
      k in SeedExpenses(monthStart, n) &&
      SeedExpenses(monthStart, n)[k] == ExpenseFrom(SeedExpenseRows(monthStart)[k - 1], k)
  {
    if n > 0 {
      SeedExpensesAt(monthStart, n - 1);
    }
  }

  lemma SeedSplitsCoverAmounts(monthStart: Timestamp, asWritten: bool)
    ensures forall e | e in SeedLedger(monthStart, asWritten).expenses ::
      Sum(SplitsByExpense(SeedLedger(monthStart, asWritten), e), SplitAmount) ==
        SeedLedger(monthStart, asWritten).expenses[e].amount
  {
    forall e | e in SeedLedger(monthStart, asWritten).expenses
      ensures Sum(SplitsByExpense(SeedLedger(monthStart, asWritten), e), SplitAmount) ==
        SeedLedger(monthStart, asWritten).expenses[e].amount
    {
      SeedExpenseSplitsCover(monthStart, e, asWritten);
    }
  }

  /** One seeded expense: its splits add up to its amount. */
  lemma SeedExpenseSplitsCover(monthStart: Timestamp, e: int, asWritten: bool)
    requires e in SeedExpenses(monthStart, 4)
    ensures Sum(Filter(Listing(SeedSplits(monthStart, 11, asWritten), 12), ForExpense(e)), SplitAmount) ==
      SeedExpenses(monthStart, 4)[e].amount
  {
    SeedExpensesAt(monthStart, 4);
    SeedRowTotals();
    SeedSplitTotals(monthStart, 11, e, asWritten);
    SeedExpenseCovered(monthStart, e);
  }

  /** One seeded expense: its amount is its row total. */
  lemma SeedExpenseCovered(monthStart: Timestamp, e: int)
    requires 1 <= e <= 4
    requires SeedRowTotal(11, 1) == 180000 && SeedRowTotal(11, 2) == 15688
    requires SeedRowTotal(11, 3) == 12487 && SeedRowTotal(11, 4) == 7999
    ensures SeedExpenseRows(monthStart)[e - 1].amount == SeedRowTotal(11, e)
  {
  }

  /**
   * As written, the split listed with id 12 is stored under key 11 and no
   * record is stored under key 12, so updating the payment status of split
   * 12 finds nothing and changes nothing; the record under key 6 claims id
   * 7, so the splits are not keyed by id; and the next split created takes
   * id 12, which the record under key 11 already carries.
   */
  lemma SeedAsWrittenMisfiled(monthStart: Timestamp)
    ensures 11 in SeedAsWritten(monthStart).splits && SeedAsWritten(monthStart).splits[11].id == 12
    ensures 12 !in SeedAsWritten(monthStart).splits
    ensures forall b: bool :: SetPaid(SeedAsWritten(monthStart), 12, b) == SeedAsWritten(monthStart)
    ensures 6 in SeedAsWritten(monthStart).splits && SeedAsWritten(monthStart).splits[6].id == 7
    ensures !SeedAsWritten(monthStart).SplitsKeyed()
    ensures forall x: NewSplit :: SplitFrom(x, SeedAsWritten(monthStart).splitIdCounter).id == 12
  {
    SeedSplitsAt(monthStart, 11, true);
  }

  /**
   * With ids equal to keys, every listed split can be found by its id, so a
   * payment update addressed by the id shown to the client reaches exactly
   * that split.
   */
  lemma SeedSplitsFindable(monthStart: Timestamp)
    ensures forall s | s in Splits(Seed(monthStart)) ::
      s.id in Seed(monthStart).splits && Seed(monthStart).splits[s.id] == s &&
      SetPaid(Seed(monthStart), s.id, true).splits[s.id] == s.(isPaid := true)
  {
    SeedValid(monthStart);
    forall s | s in Splits(Seed(monthStart))
      ensures s.id in Seed(monthStart).splits && Seed(monthStart).splits[s.id] == s
    {
      ListingMember(Seed(monthStart).splits, 12, SplitId, s);
    }
  }
}
