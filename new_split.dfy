/**
 * The "Create New Split" dialog: the form state behind the participant
 * checkboxes and the custom amount fields, the validity check on custom
 * amounts, and the split requests the submit sends for a new expense.
 */
module NewSplit {
  import opened Wrappers
  import opened Seqs
  import opened Schema
  import opened Money
  import opened Participants

  datatype SplitType = Equal | Custom

  /** A custom amount field: never typed into or emptied, or holding text that `parseFloat` reads. */
  datatype CustomEntry = Blank | Entered(value: Number)

  /** One entry of `customSplits`, keyed by the participant's user id. */
  datatype CustomSplit = CustomSplit(userId: int, entry: CustomEntry)

  function CustomUserId(c: CustomSplit): int { c.userId }

  /** `customSplits[userId.toString()]`, if there is one. */
  function CustomEntryOf(customSplits: seq<CustomSplit>, userId: int): Option<CustomEntry>
  {
    match Find(customSplits, HasKey(CustomUserId, userId))
    case None => None
    case Some(c) => Some(c.entry)
  }

  /** The body POSTed to /api/splits for one participant. */
  datatype SplitRequest = SplitRequest(expenseId: int, userId: int, amount: Number,
                                       isPaid: bool, dueDate: Option<Timestamp>)

  /**
   * The amount sent for one of `n` participants: `parseFloat(x.toFixed(2))`
   * of the equal share, or of a non-blank custom entry in custom mode.
   */
  function ShareOf(splitType: SplitType, amount: Cents, n: nat, customSplits: seq<CustomSplit>, userId: int): Number
    requires n > 0
  {
    var equal := Num(RoundCents(amount, n));
    if splitType == Equal then equal
    else match CustomEntryOf(customSplits, userId)
      case Some(Entered(value)) => value
      case _ => equal
  }

  function RequestFor(expenseId: int, amount: Cents, splitType: SplitType, n: nat,
                      customSplits: seq<CustomSplit>, dueDate: Option<Timestamp>, userId: int): SplitRequest
    requires n > 0
  {
    SplitRequest(expenseId, userId, ShareOf(splitType, amount, n, customSplits, userId),
                 userId == CurrentUserId, dueDate)
  }

  /** `participants.map(...)`, each share computed against all `n` participants. */
  function RequestsFrom(participants: seq<int>, n: nat, expenseId: int, amount: Cents, splitType: SplitType,
                        customSplits: seq<CustomSplit>, dueDate: Option<Timestamp>): (r: seq<SplitRequest>)
    requires |participants| <= n
    ensures |r| == |participants|
    ensures forall i | 0 <= i < |participants| ::
      r[i] == RequestFor(expenseId, amount, splitType, n, customSplits, dueDate, participants[i])
  {
    if participants == [] then []
    else [RequestFor(expenseId, amount, splitType, n, customSplits, dueDate, participants[0])] +
         RequestsFrom(participants[1..], n, expenseId, amount, splitType, customSplits, dueDate)
  }

  /**
   * The split requests of the submit, after the expense came back with id
   * `expenseId`. A blank due date is `None` and is sent as `null`.
   */
  function SplitRequests(expenseId: int, amount: Cents, splitType: SplitType, splitWith: seq<int>,
                         customSplits: seq<CustomSplit>, dueDate: Option<Timestamp>): seq<SplitRequest>
  {
    RequestsFrom(splitWith, |splitWith|, expenseId, amount, splitType, customSplits, dueDate)
  }

  /**
   * One request per entry of splitWith, in order, all for the new expense;
   * only the current user's split is marked paid; in equal mode everyone
   * gets the rounded equal share, and in custom mode a participant with a
   * non-blank entry gets that entry instead.
   */
  lemma SplitRequestsSpec(expenseId: int, amount: Cents, splitType: SplitType, splitWith: seq<int>,
                          customSplits: seq<CustomSplit>, dueDate: Option<Timestamp>)
    ensures var r := SplitRequests(expenseId, amount, splitType, splitWith, customSplits, dueDate);
      && |r| == |splitWith|
      && (forall i | 0 <= i < |r| ::
            && r[i].expenseId == expenseId && r[i].userId == splitWith[i]
            && (r[i].isPaid <==> splitWith[i] == CurrentUserId)
            && r[i].dueDate == dueDate)
      && (forall i | 0 <= i < |r| && splitType == Equal ::
            r[i].amount == Num(RoundCents(amount, |splitWith|)))
      && (forall i | 0 <= i < |r| && splitType == Custom ::
            r[i].amount == match CustomEntryOf(customSplits, splitWith[i])
                           case Some(Entered(value)) => value
                           case _ => Num(RoundCents(amount, |splitWith|)))
  {
  }

  function RequestAmount(r: SplitRequest): int { OrZero(r.amount) }

  /**
   * No residual is handed out: the equal shares add up to `n` times the
   * rounded share, which misses the amount by at most half a cent per
   * participant.
   */
  lemma {:induction false} EqualSharesResidual(expenseId: int, amount: Cents, splitWith: seq<int>,
                                               customSplits: seq<CustomSplit>, dueDate: Option<Timestamp>)
    requires |splitWith| > 0
    ensures var n := |splitWith|;
      var total := Sum(SplitRequests(expenseId, amount, Equal, splitWith, customSplits, dueDate), RequestAmount);
      total == n * RoundCents(amount, n) && -n <= 2 * (total - amount) <= n
  {
    var n := |splitWith|;
    var r := SplitRequests(expenseId, amount, Equal, splitWith, customSplits, dueDate);
    var share := RoundCents(amount, n);
    EqualRequestAmounts(expenseId, amount, splitWith, customSplits, dueDate);
    SumConstant(r, RequestAmount, share);
    RoundCentsNearest(amount, n);
    ResidualBound(n, share, amount);
  }

  /** In equal mode every request carries the rounded equal share. */
  lemma EqualRequestAmounts(expenseId: int, amount: Cents, splitWith: seq<int>,
                            customSplits: seq<CustomSplit>, dueDate: Option<Timestamp>)
    requires |splitWith| > 0
    ensures forall x | x in SplitRequests(expenseId, amount, Equal, splitWith, customSplits, dueDate) ::
      RequestAmount(x) == RoundCents(amount, |splitWith|)
  {
  }

  lemma ResidualBound(n: int, share: int, amount: int)
    requires -n <= 2 * n * share - 2 * amount <= n
    ensures -n <= 2 * (n * share - amount) <= n
  {
  }

  lemma {:induction false} SumConstant<T>(s: seq<T>, f: T -> int, c: int)
    requires forall x | x in s :: f(x) == c
    ensures Sum(s, f) == |s| * c
  {
    if s != [] {
      SumConstant(s[1..], f, c);
    }
  }

  /** 100.00 split three ways sends 33.33 three times, one cent short. */
  lemma ThreeWayHundred()
    ensures SplitRequests(7, 10000, Equal, [1, 2, 3], [], None) ==
      [SplitRequest(7, 1, Num(3333), true, None), SplitRequest(7, 2, Num(3333), false, None),
       SplitRequest(7, 3, Num(3333), false, None)]
    ensures Sum(SplitRequests(7, 10000, Equal, [1, 2, 3], [], None), RequestAmount) == 9999
  {
    var r := SplitRequests(7, 10000, Equal, [1, 2, 3], [], None);
    assert RoundCents(10000, 3) == 3333;
    assert r[1..][1..] == [r[2]];
  }

  // ---------------------------------------------------------------------------
  // The custom total and the submit check

  /** `parseFloat(val) || 0` for one stored entry. */
  function EntryValue(c: CustomSplit): int
  {
    match c.entry
    case Blank => 0
    case Entered(value) => OrZero(value)
  }

  /**
   * getTotalCustomSplits: every stored entry counts, unreadable ones as 0,
   * including entries of participants deselected since.
   */
  function CustomSplitsTotal(customSplits: seq<CustomSplit>): int
  {
    Sum(customSplits, EntryValue)
  }

  /**
   * Editing one entry moves the total by the difference between the new
   * and the old value of that entry.
   */
  lemma {:induction false} CustomTotalAfterChange(customSplits: seq<CustomSplit>, c: CustomSplit)
    ensures CustomSplitsTotal(Upsert(customSplits, c, CustomUserId)) ==
      CustomSplitsTotal(customSplits) + EntryValue(c) - PreviousValue(customSplits, c.userId)
  {
    var r := Upsert(customSplits, c, CustomUserId);
    if customSplits == [] {
      assert r == [c] && r[1..] == [];
      assert CustomSplitsTotal(r) == EntryValue(c) + CustomSplitsTotal([]);
      assert Find(customSplits, HasKey(CustomUserId, c.userId)) == None;
    } else {
      FindCons(customSplits, HasKey(CustomUserId, c.userId));
      if customSplits[0].userId != c.userId {
        CustomTotalAfterChange(customSplits[1..], c);
        assert r == [customSplits[0]] + Upsert(customSplits[1..], c, CustomUserId);
        assert r[1..] == Upsert(customSplits[1..], c, CustomUserId);
      } else {
        assert r[1..] == customSplits[1..];
      }
    }
  }

  /** The value the entry of `userId` had, or 0 when there was none. */
  function PreviousValue(customSplits: seq<CustomSplit>, userId: int): int
  {
    match Find(customSplits, HasKey(CustomUserId, userId))
    case Some(previous) => EntryValue(previous)
    case None => 0
  }

  /** `Math.abs(customSplitsTotal - totalAmount) < 0.01`, with both sides in cents. */
  function IsCustomSplitsValid(customSplitsTotal: int, totalAmount: Number): (valid: bool)
    ensures valid <==> totalAmount == Num(customSplitsTotal)
  {
    totalAmount.Num? && -1 < customSplitsTotal - totalAmount.cents < 1
  }

  /** The submit button is disabled while saving, and in custom mode while the totals disagree. */
  function SubmitEnabled(splitType: SplitType, pending: bool, customSplitsTotal: int, totalAmount: Number): (ok: bool)
    ensures ok <==> !pending && (splitType == Equal || totalAmount == Num(customSplitsTotal))
  {
    !(pending || (splitType == Custom && !IsCustomSplitsValid(customSplitsTotal, totalAmount)))
  }

  /** The share shown next to each participant in equal mode. */
  function EqualSplitDisplay(totalAmount: Number, selected: nat): (text: string)
    ensures selected == 0 ==> text == "0.00"
    ensures selected > 0 && totalAmount.NaN? ==> text == "NaN"
    ensures selected > 0 && totalAmount.Num? ==> text == FixedText(totalAmount.cents, selected)
  {
    if selected > 0 then
      match totalAmount
      case Num(c) => FixedText(c, selected)
      case NaN => "NaN"
    else "0.00"
  }

  /** A typed -0.01 shared three ways shows "-0.00": the sign survives the rounding. */
  lemma EqualSplitDisplaySigned()
    ensures EqualSplitDisplay(Num(-1), 3) == "-0.00"
  {
    assert RoundCents(-1, 3) == 0;
  }

  // ---------------------------------------------------------------------------
  // Form state

  class NewSplitForm {
    var splitType: SplitType
    var splitWith: seq<int>
    var customSplits: seq<CustomSplit>

    /** The current user takes part in every split. */
    ghost predicate Valid()
      reads this
    {
      CurrentUserId in splitWith
    }

    /** The dialog's default values. */
    constructor ()
      ensures Valid()
      ensures splitType == Equal && splitWith == [CurrentUserId] && customSplits == []
    {
      splitType := Equal;
      splitWith := [CurrentUserId];
      customSplits := [];
    }

    /** Opening the dialog resets the form: equal mode, only the current user, no custom amounts. */
    method Open()
      modifies this
      ensures Valid()
      ensures splitType == Equal && splitWith == [CurrentUserId] && customSplits == []
    {
      splitType := Equal;
      splitWith := [CurrentUserId];
      customSplits := [];
    }

    /**
     * handleRoommateSelection. Custom entries stay, even those of a
     * participant being unchecked.
     */
    method HandleRoommateSelection(roommateId: int, checked: bool)
      modifies this
      ensures splitWith == Toggled(old(splitWith), roommateId, checked)
      ensures splitType == old(splitType) && customSplits == old(customSplits)
      ensures old(Valid()) && roommateId != CurrentUserId ==> Valid()
    {
      splitWith := Toggled(splitWith, roommateId, checked);
      if old(Valid()) && roommateId != CurrentUserId {
        ToggledKeepsCurrentUser(old(splitWith), roommateId, checked);
      }
    }

    /** handleCustomSplitChange: sets one participant's entry, keeping the others. */
    method HandleCustomSplitChange(userId: int, entry: CustomEntry)
      modifies this
      ensures customSplits == Upsert(old(customSplits), CustomSplit(userId, entry), CustomUserId)
      ensures CustomEntryOf(customSplits, userId) == Some(entry)
      ensures forall other | other != userId :: CustomEntryOf(customSplits, other) == CustomEntryOf(old(customSplits), other)
      ensures splitType == old(splitType) && splitWith == old(splitWith)
    {
      customSplits := Upsert(customSplits, CustomSplit(userId, entry), CustomUserId);
      UpsertLookup(old(customSplits), CustomSplit(userId, entry), CustomUserId, userId);
      forall other | other != userId
        ensures CustomEntryOf(customSplits, other) == CustomEntryOf(old(customSplits), other)
      {
        UpsertLookup(old(customSplits), CustomSplit(userId, entry), CustomUserId, other);
      }
    }

    /** The split-type radio buttons; switching to equal clears the custom amounts. */
    method ChooseSplitType(t: SplitType)
      modifies this
      ensures splitType == t && splitWith == old(splitWith)
      ensures customSplits == if t == Equal then [] else old(customSplits)
    {
      splitType := t;
      if t == Equal {
        customSplits := [];
      }
    }
  }
}
