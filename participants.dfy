/**
 * The participant list both split dialogs keep: the ids of the users taking
 * part, edited through one checkbox per roommate.
 */
module Participants {
  import opened Seqs

  /** The signed-in user, hard-wired as user 1 throughout the client. */
  const CurrentUserId: int := 1

  function NotId(id: int): int -> bool { (x: int) => x != id }

  /**
   * handleRoommateSelection: checking appends the id (even if present
   * already); unchecking drops every occurrence of it.
   */
  function Toggled(splitWith: seq<int>, id: int, checked: bool): seq<int>
  {
    if checked then splitWith + [id] else Filter(splitWith, NotId(id))
  }

  /**
   * Toggling changes the presence of that one id: every other id stays
   * exactly as often as before, and the toggled id is present afterwards
   * exactly when it was checked.
   */
  lemma ToggledSpec(splitWith: seq<int>, id: int, checked: bool)
    ensures id in Toggled(splitWith, id, checked) <==> checked
    ensures forall x | x != id :: multiset(Toggled(splitWith, id, checked))[x] == multiset(splitWith)[x]
    ensures checked ==> multiset(Toggled(splitWith, id, checked))[id] == multiset(splitWith)[id] + 1
  {
    FilterMember(splitWith, NotId(id), id);
    forall x | x != id ensures multiset(Toggled(splitWith, id, checked))[x] == multiset(splitWith)[x] {
      FilterCount(splitWith, NotId(id), x);
    }
  }

  /** The current user's checkbox is disabled, so toggling any other id keeps the current user in. */
  lemma ToggledKeepsCurrentUser(splitWith: seq<int>, id: int, checked: bool)
    requires CurrentUserId in splitWith
    requires id != CurrentUserId
    ensures CurrentUserId in Toggled(splitWith, id, checked)
  {
    FilterMember(splitWith, NotId(id), CurrentUserId);
  }

  lemma {:induction false} FilterCount(s: seq<int>, p: int -> bool, x: int)
    requires p(x)
    ensures multiset(Filter(s, p))[x] == multiset(s)[x]
  {
    if s != [] {
      FilterCount(s[1..], p, x);
      assert s == [s[0]] + s[1..];
    }
  }
}
