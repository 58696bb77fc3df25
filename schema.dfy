/**
 * The six record kinds of the ledger, their insert shapes (the record without
 * its `id`), and the joined shapes the server returns.
 *
 * Amounts are whole cents (the database column is a double; the model keeps
 * money exact), timestamps are integers. Only `Expense.notes` and
 * `Split.dueDate` are nullable columns, so only they are `Option`s; every
 * other column is required.
 */
module Schema {
  import opened Wrappers

  /** Money in cents. */
  type Cents = int
  /** A point in time (milliseconds since the epoch). */
  type Timestamp = int

  // ---------------------------------------------------------------------------
  // Table records

  datatype User = User(id: int, username: string, password: string, email: string,
                       displayName: string, avatarInitials: string)

  datatype Category = Category(id: int, name: string, icon: string, color: string)

  datatype Expense = Expense(id: int, name: string, amount: Cents, date: Timestamp,
                             notes: Option<string>, createdById: int, categoryId: int)

  datatype Roommate = Roommate(id: int, userId: int, householdId: int)

  datatype Household = Household(id: int, name: string, createdById: int)

  datatype Split = Split(id: int, expenseId: int, userId: int, amount: Cents,
                         isPaid: bool, dueDate: Option<Timestamp>)

  // ---------------------------------------------------------------------------
  // Insert shapes: each table's columns except `id`. For a split, `isPaid`
  // has a column default and so may be left out of the insert.

  datatype NewUser = NewUser(username: string, password: string, email: string,
                             displayName: string, avatarInitials: string)

  datatype NewCategory = NewCategory(name: string, icon: string, color: string)

  datatype NewExpense = NewExpense(name: string, amount: Cents, date: Timestamp,
                                   notes: Option<string>, createdById: int, categoryId: int)

  datatype NewRoommate = NewRoommate(userId: int, householdId: int)

  datatype NewHousehold = NewHousehold(name: string, createdById: int)

  datatype NewSplit = NewSplit(expenseId: int, userId: int, amount: Cents,
                               isPaid: Option<bool>, dueDate: Option<Timestamp>)

  // `{ ...insert, id }`: the record stored for an insert shape under a given id.

  function UserFrom(n: NewUser, id: int): User
  {
    User(id, n.username, n.password, n.email, n.displayName, n.avatarInitials)
  }

  function CategoryFrom(n: NewCategory, id: int): Category
  {
    Category(id, n.name, n.icon, n.color)
  }

  function ExpenseFrom(n: NewExpense, id: int): Expense
  {
    Expense(id, n.name, n.amount, n.date, n.notes, n.createdById, n.categoryId)
  }

  function RoommateFrom(n: NewRoommate, id: int): Roommate
  {
    Roommate(id, n.userId, n.householdId)
  }

  function HouseholdFrom(n: NewHousehold, id: int): Household
  {
    Household(id, n.name, n.createdById)
  }

  /** A split inserted without `isPaid` takes the column default, `false`. */
  function SplitFrom(n: NewSplit, id: int): Split
  {
    Split(id, n.expenseId, n.userId, n.amount, n.isPaid.GetOr(false), n.dueDate)
  }

  // The insert shape of a stored record: the record minus its `id`.

  function UserFields(u: User): NewUser
  {
    NewUser(u.username, u.password, u.email, u.displayName, u.avatarInitials)
  }

  function CategoryFields(c: Category): NewCategory
  {
    NewCategory(c.name, c.icon, c.color)
  }

  function ExpenseFields(e: Expense): NewExpense
  {
    NewExpense(e.name, e.amount, e.date, e.notes, e.createdById, e.categoryId)
  }

  function RoommateFields(r: Roommate): NewRoommate
  {
    NewRoommate(r.userId, r.householdId)
  }

  function HouseholdFields(h: Household): NewHousehold
  {
    NewHousehold(h.name, h.createdById)
  }

  function SplitFields(s: Split): NewSplit
  {
    NewSplit(s.expenseId, s.userId, s.amount, Some(s.isPaid), s.dueDate)
  }

  /**
   * Every insert shape is exactly its record minus `id`: adding an id and
   * removing it again gives back the insert, and removing the id of a record
   * and adding it back gives back the record.
   */
  lemma InsertShapesOmitId()
    ensures forall n: NewUser, id: int :: UserFields(UserFrom(n, id)) == n && UserFrom(n, id).id == id
    ensures forall u: User :: UserFrom(UserFields(u), u.id) == u
    ensures forall n: NewCategory, id: int :: CategoryFields(CategoryFrom(n, id)) == n && CategoryFrom(n, id).id == id
    ensures forall c: Category :: CategoryFrom(CategoryFields(c), c.id) == c
    ensures forall n: NewExpense, id: int :: ExpenseFields(ExpenseFrom(n, id)) == n && ExpenseFrom(n, id).id == id
    ensures forall e: Expense :: ExpenseFrom(ExpenseFields(e), e.id) == e
    ensures forall n: NewRoommate, id: int :: RoommateFields(RoommateFrom(n, id)) == n && RoommateFrom(n, id).id == id
    ensures forall r: Roommate :: RoommateFrom(RoommateFields(r), r.id) == r
    ensures forall n: NewHousehold, id: int :: HouseholdFields(HouseholdFrom(n, id)) == n && HouseholdFrom(n, id).id == id
    ensures forall h: Household :: HouseholdFrom(HouseholdFields(h), h.id) == h
    ensures forall s: Split :: SplitFrom(SplitFields(s), s.id) == s
  {
  }

  /**
   * A split insert round-trips when it states `isPaid`; when it leaves
   * `isPaid` out, the stored split is unpaid.
   */
  lemma SplitInsertDefaultsUnpaid(n: NewSplit, id: int)
    ensures SplitFrom(n, id).id == id
    ensures SplitFrom(n, id).isPaid == (n.isPaid == Some(true))
    ensures n.isPaid.Some? ==> SplitFields(SplitFrom(n, id)) == n
    ensures n.isPaid.None? ==> SplitFields(SplitFrom(n, id)) == n.(isPaid := Some(false))
  {
  }

  // ---------------------------------------------------------------------------
  // Joined shapes returned by the server. `A & { b: B }` is modelled as a pair
  // of the base record and the added parts.

  /** `Split & { user: User }`. */
  datatype SplitWithUser = SplitWithUser(split: Split, user: User)

  /** `Expense & { category, createdBy, splits }`. */
  datatype ExpenseWithDetails = ExpenseWithDetails(expense: Expense, category: Category,
                                                   createdBy: User, splits: seq<SplitWithUser>)

  /** `Roommate & { user, owedAmount }`. */
  datatype RoommateWithUser = RoommateWithUser(roommate: Roommate, user: User, owedAmount: Cents)

  /** `Split & { expense, user }`. */
  datatype SplitWithDetails = SplitWithDetails(split: Split, expense: Expense, user: User)

  // Field selectors as function values, for the sequence combinators.

  function UserId(u: User): int { u.id }
  function CategoryId(c: Category): int { c.id }
  function ExpenseId(e: Expense): int { e.id }
  function RoommateId(r: Roommate): int { r.id }
  function HouseholdId(h: Household): int { h.id }
  function SplitId(s: Split): int { s.id }
  function ExpenseAmount(e: Expense): int { e.amount }
  function ExpenseDate(e: Expense): int { e.date }
  function SplitAmount(s: Split): int { s.amount }
  function DetailAmount(d: SplitWithDetails): Cents { d.split.amount }
  function DetailUnpaid(d: SplitWithDetails): bool { !d.split.isPaid }
  function DetailPaid(d: SplitWithDetails): bool { d.split.isPaid }
}
