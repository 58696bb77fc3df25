/**
 * The "Add New Expense" dialog: the participant list it keeps, the expense
 * it creates, and the equal, unrounded split it then requests for each
 * participant.
 */
module AddExpense {
  import opened Wrappers
  import opened Seqs
  import opened Schema
  import opened Storage
  import opened Participants

  /**
   * The body POSTed to /api/expenses: the form's fields, created by the
   * current user.
   */
  function ExpenseBody(name: string, amount: Cents, date: Timestamp, notes: Option<string>, categoryId: int): NewExpense
  {
    NewExpense(name, amount, date, notes, CurrentUserId, categoryId)
  }

  /**
   * Once POST /api/expenses has stored the body under the next expense id,
   * the new expense is one of the current user's expenses, as
   * GET /api/users/1/expenses lists them, and it is listed last among all
   * expenses.
   */
  lemma CreatedExpenseListedForUser(L: Ledger, name: string, amount: Cents, date: Timestamp,
                                    notes: Option<string>, categoryId: int)
    requires L.Valid()
    ensures var e := ExpenseFrom(ExpenseBody(name, amount, date, notes, categoryId), L.expenseIdCounter);
      var after := L.(expenses := L.expenses[e.id := e], expenseIdCounter := L.expenseIdCounter + 1);
      && after.Valid()
      && Expenses(after) == Expenses(L) + [e]
      && e in ExpensesByUser(after, CurrentUserId)
  {
    var e := ExpenseFrom(ExpenseBody(name, amount, date, notes, categoryId), L.expenseIdCounter);
    var after := L.(expenses := L.expenses[e.id := e], expenseIdCounter := L.expenseIdCounter + 1);
    assert Keyed(after.expenses, after.expenseIdCounter, ExpenseId);
    ListingAppend(L.expenses, L.expenseIdCounter, e);
    ExpensesByUserSpec(after, CurrentUserId);
  }

  /**
   * The body POSTed to /api/splits by this dialog. The amount is
   * `amount / splitWith.length` with no rounding, kept here as an exact
   * number of cents.
   */
  datatype ShareRequest = ShareRequest(expenseId: int, userId: int, amount: real, isPaid: bool, dueDate: Timestamp)

  function ShareFor(expenseId: int, amount: Cents, n: nat, date: Timestamp, userId: int): (r: ShareRequest)
    requires n > 0
    ensures r.amount * (n as real) == amount as real
  {
    ShareRequest(expenseId, userId, amount as real / n as real, userId == CurrentUserId, date)
  }

  /** `participants.map(...)`, each share taken against all `n` participants. */
  function SharesFrom(participants: seq<int>, n: nat, expenseId: int, amount: Cents, date: Timestamp): (r: seq<ShareRequest>)
    requires |participants| <= n
    ensures |r| == |participants|
    ensures forall i | 0 <= i < |participants| :: r[i] == ShareFor(expenseId, amount, n, date, participants[i])
  {
    if participants == [] then []
    else [ShareFor(expenseId, amount, n, date, participants[0])] + SharesFrom(participants[1..], n, expenseId, amount, date)
  }

  /** The split requests sent once the expense came back with id `expenseId`. */
  function ShareRequests(expenseId: int, amount: Cents, date: Timestamp, splitWith: seq<int>): seq<ShareRequest>
  {
    SharesFrom(splitWith, |splitWith|, expenseId, amount, date)
  }

  /**
   * One request per participant, in order, all for the new expense and due
   * on the expense date; only the current user's is paid; every share is
   * the same and `n` of them make up the amount exactly.
   */
  lemma ShareRequestsSpec(expenseId: int, amount: Cents, date: Timestamp, splitWith: seq<int>)
    ensures var r := ShareRequests(expenseId, amount, date, splitWith);
      && |r| == |splitWith|
      && (forall i | 0 <= i < |r| ::
            && r[i].expenseId == expenseId && r[i].userId == splitWith[i]
            && (r[i].isPaid <==> splitWith[i] == CurrentUserId)
            && r[i].dueDate == date
            && r[i].amount * (|splitWith| as real) == amount as real)
      && (forall i, j | 0 <= i < |r| && 0 <= j < |r| :: r[i].amount == r[j].amount)
  {
  }

  /** The dialog's form state that changes step by step. */
  class AddExpenseForm {
    var date: Timestamp
    var splitWith: seq<int>

    /** The current user is always a participant, so there is at least one. */
    ghost predicate Valid()
      reads this
    {
      CurrentUserId in splitWith
    }

    /** The form's default values, dated `today`. */
    constructor (today: Timestamp)
      ensures Valid()
      ensures date == today && splitWith == [CurrentUserId]
    {
      date := today;
      splitWith := [CurrentUserId];
    }

    /** Opening the dialog dates the expense today and resets the participants to the current user. */
    method Open(today: Timestamp)
      modifies this
      ensures Valid()
      ensures date == today && splitWith == [CurrentUserId]
    {
      date := today;
      splitWith := [CurrentUserId];
    }

    /**
     * handleRoommateSelection. The current user is never offered a
     * checkbox, so a toggle never removes them.
     */
    method HandleRoommateSelection(roommateId: int, checked: bool)
      modifies this
      ensures splitWith == Toggled(old(splitWith), roommateId, checked)
      ensures date == old(date)
      ensures old(Valid()) && roommateId != CurrentUserId ==> Valid()
    {
      splitWith := Toggled(splitWith, roommateId, checked);
      if old(Valid()) && roommateId != CurrentUserId {
        ToggledKeepsCurrentUser(old(splitWith), roommateId, checked);
      }
    }

    /**
     * The split requests of a submit. In a valid form there is at least one
     * participant, so the share is a finite amount.
     */
    method SplitRequests(expenseId: int, amount: Cents) returns (r: seq<ShareRequest>)
      requires Valid()
      ensures |splitWith| > 0 && |r| == |splitWith|
      ensures forall i | 0 <= i < |r| ::
        r[i].userId == splitWith[i] && r[i].dueDate == date &&
        r[i].amount * (|splitWith| as real) == amount as real
    {
      r := ShareRequests(expenseId, amount, date, splitWith);
    }
  }
}
