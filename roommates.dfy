/**
 * The Roommates page: the search over household members and the figures
 * it shows for each member and for the household.
 */
module Roommates {
  import opened Wrappers
  import opened Seqs
  import opened Text
  import opened Schema
  import opened Participants

  /** The search: the lowercased term occurs in the lowercased display name or email. */
  function MatchesSearch(searchTerm: string): RoommateWithUser -> bool
  {
    (r: RoommateWithUser) =>
      Contains(ToLower(r.user.displayName), ToLower(searchTerm)) ||
      Contains(ToLower(r.user.email), ToLower(searchTerm))
  }

  /** filteredRoommates: nothing while the list is not loaded. */
  function FilteredRoommates(roommates: Option<seq<RoommateWithUser>>, searchTerm: string): Option<seq<RoommateWithUser>>
  {
    match roommates
    case None => None
    case Some(s) => Some(Filter(s, MatchesSearch(searchTerm)))
  }

  /**
   * A member is listed exactly when the search matches their name or email,
   * in the original order; an empty search lists everyone.
   */
  lemma FilteredRoommatesSpec(s: seq<RoommateWithUser>, searchTerm: string)
    ensures forall r | r in s :: (r in FilteredRoommates(Some(s), searchTerm).value <==>
      Contains(ToLower(r.user.displayName), ToLower(searchTerm)) ||
      Contains(ToLower(r.user.email), ToLower(searchTerm)))
    ensures searchTerm == "" ==> FilteredRoommates(Some(s), searchTerm) == Some(s)
  {
    forall r | r in s ensures r in FilteredRoommates(Some(s), searchTerm).value <==> MatchesSearch(searchTerm)(r) {
      FilterMember(s, MatchesSearch(searchTerm), r);
    }
    if searchTerm == "" {
      forall r | r in s ensures MatchesSearch(searchTerm)(r) {
        ContainsEmpty(ToLower(r.user.displayName));
      }
      FilterAll(s, MatchesSearch(searchTerm));
    }
  }

  function OwedAmount(r: RoommateWithUser): Cents { r.owedAmount }

  /** "Total Outstanding": the sum of what every member owes, 0 with no data. */
  function TotalOutstanding(roommates: Option<seq<RoommateWithUser>>): (total: Cents)
    ensures roommates.None? ==> total == 0
  {
    match roommates
    case None => 0
    case Some(s) => Sum(s, OwedAmount)
  }

  /** With nothing owed negatively, the household total covers what each member owes. */
  lemma {:induction false} TotalOutstandingCovers(s: seq<RoommateWithUser>)
    requires forall r | r in s :: r.owedAmount >= 0
    ensures TotalOutstanding(Some(s)) >= 0
    ensures forall r | r in s :: r.owedAmount <= TotalOutstanding(Some(s))
  {
    if s != [] {
      TotalOutstandingCovers(s[1..]);
      assert forall r | r in s && r != s[0] :: r in s[1..];
    }
  }

  /** What a member's row shows on the right. */
  datatype Standing = Owes(amount: Cents) | SettledSelf | Settled

  /** The "Owes" badge with its amount, or one of the two "All settled up" texts. */
  function StandingOf(r: RoommateWithUser): (st: Standing)
    ensures st.Owes? <==> r.owedAmount > 0 && r.user.id != CurrentUserId
    ensures st.Owes? ==> st.amount == r.owedAmount
    ensures st == SettledSelf <==> r.user.id == CurrentUserId
  {
    if r.owedAmount > 0 && r.user.id != CurrentUserId then Owes(r.owedAmount)
    else if r.user.id == CurrentUserId then SettledSelf
    else Settled
  }

  /** "Total Members": the number of members, 0 with no data. */
  function TotalMembers(roommates: Option<seq<RoommateWithUser>>): (n: nat)
    ensures roommates.None? ==> n == 0
    ensures roommates.Some? ==> n == |roommates.value|
  {
    match roommates
    case None => 0
    case Some(s) => |s|
  }

  /** "Your Share Ratio": `1/n` for `n` members, "N/A" for none. */
  function ShareRatio(roommates: Option<seq<RoommateWithUser>>): string
  {
    if roommates.Some? && |roommates.value| > 0 then "1/" + NatToString(|roommates.value|) else "N/A"
  }

  /** The ratio reads back as one over the member count, and is "N/A" only without members. */
  lemma ShareRatioSpec(roommates: Option<seq<RoommateWithUser>>)
    ensures ShareRatio(roommates) == "N/A" <==> TotalMembers(roommates) == 0
    ensures TotalMembers(roommates) > 0 ==>
      ShareRatio(roommates)[..2] == "1/" && ParseDigits(ShareRatio(roommates)[2..]) == TotalMembers(roommates)
  {
    if TotalMembers(roommates) > 0 {
      var text := ShareRatio(roommates);
      assert text[2..] == NatToString(|roommates.value|);
      ParseNatToString(|roommates.value|);
      assert text[0] == '1';
    }
  }
}
