/**
 * The client's small helpers: a user's initials, shortened text, the
 * percentage change between two figures and the share link of an item.
 */
module Utils {
  import opened Seqs
  import opened Text

  // ---------------------------------------------------------------------------
  // createUserInitials

  /** What evaluating the expression gives: a string, or a thrown `TypeError`. */
  datatype Outcome = Text(value: string) | Throws

  /** `s.substring(0, n)` for `n >= 0`. */
  function Prefix(s: string, n: nat): (r: string)
    ensures |r| <= n && r <= s
  {
    if |s| <= n then s else s[..n]
  }

  /** `word[0]` as it behaves under `+` with a string: its first character, or "undefined". */
  function FirstOrUndefined(word: string): string
  {
    if word == "" then "undefined" else [word[0]]
  }

  /**
   * createUserInitials as written. A name that starts or ends with a space
   * has an empty first or last piece, whose `[0]` is `undefined`: it is
   * spelt out into the result, and with both ends empty the sum is `NaN`,
   * whose `toUpperCase` throws.
   */
  function CreateUserInitialsAsWritten(displayName: string): Outcome
  {
    if displayName == "" then Text("??")
    else
      var names := SplitOnSpace(displayName);
      if |names| == 1 then Text(ToUpper(Prefix(names[0], 2)))
      else if names[0] == "" && names[|names| - 1] == "" then Throws
      else Text(ToUpper(FirstOrUndefined(names[0]) + FirstOrUndefined(names[|names| - 1])))
  }

  /** "Jamie " comes out as "JUNDEFINED", and a lone space throws. */
  lemma InitialsAsWrittenCounterexample()
    ensures CreateUserInitialsAsWritten("Jamie ") == Text("JUNDEFINED")
    ensures CreateUserInitialsAsWritten(" ") == Throws
  {
    SplitTrailingSpace();
    SplitLoneSpace();
  }

  /** "Jamie ".split(' ') is ["Jamie", ""]. */
  lemma SplitTrailingSpace()
    ensures SplitOnSpace("Jamie ") == ["Jamie", ""]
  {
    assert SpaceIndex("Jamie ") == 5 by {
      assert SpaceIndex("e ") == 1;
      assert SpaceIndex("ie ") == 2;
      assert SpaceIndex("mie ") == 3;
      assert SpaceIndex("amie ") == 4;
    }
    assert "Jamie "[..5] == "Jamie" && "Jamie "[6..] == "";
  }

  /** " ".split(' ') is ["", ""]. */
  lemma SplitLoneSpace()
    ensures SplitOnSpace(" ") == ["", ""]
  {
    assert SpaceIndex(" ") == 0;
    assert " "[1..] == "";
  }

  function NonEmpty(word: string): bool { word != "" }

  /**
   * createUserInitials as intended: the initials of the first and last
   * words, where a word is a non-empty run of characters without spaces;
   * a single word gives its first two characters, and a name without words
   * gives "??".
   */
  function CreateUserInitials(displayName: string): (r: string)
    ensures 1 <= |r| <= 2
  {
    var words := Filter(SplitOnSpace(displayName), NonEmpty);
    if words == [] then "??"
    else if |words| == 1 then
      FilterMember(SplitOnSpace(displayName), NonEmpty, words[0]);
      ToUpper(Prefix(words[0], 2))
    else
      FilterMember(SplitOnSpace(displayName), NonEmpty, words[0]);
      FilterMember(SplitOnSpace(displayName), NonEmpty, words[|words| - 1]);
      ToUpper([words[0][0], words[|words| - 1][0]])
  }

  /** The intended initials of "Jamie ": the trailing space is ignored. */
  lemma InitialsCorrected()
    ensures CreateUserInitials("Jamie ") == "JA"
  {
    SplitTrailingSpace();
    var tail := ["Jamie", ""][1..];
    assert tail == [""] && tail[1..] == [];
    assert Filter(tail, NonEmpty) == [];
    var words := Filter(["Jamie", ""], NonEmpty);
    assert words == ["Jamie"];
    assert Prefix("Jamie", 2) == "Ja";
    var up := ToUpper("Ja");
    assert up[0] == UpperChar('J') == 'J' && up[1] == UpperChar('a') == 'A';
    assert up == "JA";
  }

  /** A name with no words at all gets "??" rather than an exception. */
  lemma InitialsOfBlank()
    ensures CreateUserInitials(" ") == "??"
    ensures CreateUserInitials("") == "??"
  {
    SplitLoneSpace();
    var tail := ["", ""][1..];
    assert tail == [""] && tail[1..] == [];
    assert Filter(tail, NonEmpty) == [];
    assert Filter(["", ""], NonEmpty) == [];
    assert SplitOnSpace("") == [""];
  }

  /**
   * On a name with no leading, trailing or doubled space the two agree:
   * "??" for the empty name, the first two letters of a single word, and
   * the first letters of the first and last words otherwise.
   */
  lemma InitialsAgree(displayName: string)
    requires displayName != ""
    requires forall k | 0 <= k < |SplitOnSpace(displayName)| :: SplitOnSpace(displayName)[k] != ""
    ensures CreateUserInitialsAsWritten(displayName) == Text(CreateUserInitials(displayName))
  {
    var names := SplitOnSpace(displayName);
    FilterAll(names, NonEmpty);
  }

  // ---------------------------------------------------------------------------
  // truncateText

  /**
   * truncateText. `slice(0, maxLength)` with a negative `maxLength` drops
   * that many characters from the end instead.
   */
  function TruncateText(text: string, maxLength: int): string
  {
    if |text| <= maxLength then text
    else if maxLength >= 0 then text[..maxLength] + "..."
    else if |text| + maxLength > 0 then text[..|text| + maxLength] + "..."
    else "..."
  }

  /**
   * Text that fits is returned unchanged; longer text keeps its first
   * `maxLength` characters and gains "...", for `maxLength + 3` in all.
   */
  lemma TruncateTextSpec(text: string, maxLength: int)
    ensures |text| <= maxLength ==> TruncateText(text, maxLength) == text
    ensures |text| > maxLength >= 0 ==>
      |TruncateText(text, maxLength)| == maxLength + 3 &&
      TruncateText(text, maxLength)[..maxLength] == text[..maxLength] &&
      TruncateText(text, maxLength)[maxLength..] == "..."
    ensures |text| > maxLength ==> TruncateText(text, maxLength)[..|TruncateText(text, maxLength)| - 3] <= text
  {
  }

  // ---------------------------------------------------------------------------
  // calculatePercentageChange

  /** calculatePercentageChange, in exact arithmetic. */
  function CalculatePercentageChange(current: real, previous: real): (r: real)
    ensures previous == 0.0 ==> (r == if current > 0.0 then 100.0 else 0.0)
  {
    if previous == 0.0 then (if current > 0.0 then 100.0 else 0.0)
    else (current - previous) / previous * 100.0
  }

  /**
   * Growing `previous` by the percentage gives back `current`; a rise from
   * a positive figure is a positive change, and from a negative figure it
   * reads as a negative one.
   */
  lemma PercentageChangeInverse(current: real, previous: real)
    requires previous != 0.0
    ensures previous + previous * CalculatePercentageChange(current, previous) / 100.0 == current
    ensures previous > 0.0 ==> (CalculatePercentageChange(current, previous) > 0.0 <==> current > previous)
    ensures previous < 0.0 ==> (CalculatePercentageChange(current, previous) > 0.0 <==> current < previous)
    ensures CalculatePercentageChange(current, previous) == 0.0 <==> current == previous
  {
    var q := (current - previous) / previous;
    assert q * previous == current - previous;
    if previous > 0.0 {
      assert q > 0.0 <==> current - previous > 0.0;
    } else {
      assert q > 0.0 <==> current - previous < 0.0;
    }
  }

  // ---------------------------------------------------------------------------
  // generateShareableLink

  /** generateShareableLink, with the page's origin as a parameter. */
  function GenerateShareableLink(origin: string, itemType: string, itemId: int): (link: string)
    ensures origin + "/share/" + itemType + "/" <= link
  {
    origin + "/share/" + itemType + "/" + IntToString(itemId)
  }

  /** Links to two different items of one type differ. */
  lemma ShareableLinkInjective(origin: string, itemType: string, a: int, b: int)
    ensures GenerateShareableLink(origin, itemType, a) == GenerateShareableLink(origin, itemType, b) <==> a == b
  {
    var prefix := origin + "/share/" + itemType + "/";
    if GenerateShareableLink(origin, itemType, a) == GenerateShareableLink(origin, itemType, b) {
      assert GenerateShareableLink(origin, itemType, a)[|prefix|..] == IntToString(a);
      assert GenerateShareableLink(origin, itemType, b)[|prefix|..] == IntToString(b);
      IntToStringInjective(a, b);
    }
  }
}
