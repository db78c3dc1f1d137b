/**
 * Display helpers of the RSVP page (app/page.tsx lines 516-564): ordinal numbers, the
 * label of a friend's name field, the day text and the greeting of the success screen.
 */
module Labels {
  import opened Text
  import opened Entries

  /** The English ordinal suffix `getOrdinalSuffix` picks from the last two digits. */
  function Suffix(num: nat): string {
    var j, k := num % 10, num % 100;
    if j == 1 && k != 11 then "st"
    else if j == 2 && k != 12 then "nd"
    else if j == 3 && k != 13 then "rd"
    else "th"
  }

  /** `getOrdinalSuffix`: the number followed by its suffix. */
  function Ordinal(num: nat): (r: string)
    ensures StartsWith(r, NatToString(num)) && |r| == |NatToString(num)| + 2
    ensures r[|r| - 2..] in {"st", "nd", "rd", "th"}
  {
    NatToString(num) + Suffix(num)
  }

  /** The suffix depends only on the last two digits, and 11, 12 and 13 take "th". */
  lemma SuffixIsPeriodic(num: nat)
    ensures Suffix(num) == Suffix(num % 100)
    ensures num % 100 in {11, 12, 13} ==> Suffix(num) == "th"
  {
  }

  /** The ordinals of the friend steps 1 to 4. */
  lemma SmallOrdinals()
    ensures Ordinal(1) == "1st" && Ordinal(2) == "2nd" && Ordinal(3) == "3rd" && Ordinal(4) == "4th"
  {
    assert NatToString(1) == "1" && NatToString(2) == "2" && NatToString(3) == "3" && NatToString(4) == "4";
  }

  /** 11, 12 and 13 take "th"; 21 and 101 take "st" again. */
  lemma TeenOrdinals()
    ensures Ordinal(11) == "11th" && Ordinal(12) == "12th" && Ordinal(13) == "13th"
    ensures Ordinal(21) == "21st" && Ordinal(101) == "101st"
  {
    assert NatToString(1) == "1" && NatToString(2) == "2" && NatToString(3) == "3";
    assert NatToString(11) == "11" && NatToString(12) == "12" && NatToString(13) == "13";
    assert NatToString(21) == "21";
    assert NatToString(10) == "10";
    assert NatToString(101) == "101";
  }

  /** The last friend step: five guests are the primary contact and four friends. */
  const MaxFriendStep := 4

  const FriendSuffix := " friend's name"

  /** `getFriendLabel`: the label of the name field on the friend form at `index`. The
      single friend of a two-guest day is "your friend's name"; any other label carries
      the friend's ordinal between "your " and " friend's name". */
  function FriendLabel(index: nat, totalCount: int): (r: string)
    ensures StartsWith(r, "your") && |r| >= 4 + |FriendSuffix| && r[|r| - |FriendSuffix|..] == FriendSuffix
    ensures r == "your friend's name" <==> index == 1 && totalCount == 2
    ensures !(index == 1 && totalCount == 2) ==> r[5..|r| - |FriendSuffix|] == Ordinal(index)
  {
    if index == 1 && totalCount == 2 then "your friend's name"
    else
      var r := "your " + Ordinal(index) + FriendSuffix;
      assert |r| > |"your friend's name"|;
      assert r[5..|r| - |FriendSuffix|] == Ordinal(index);
      r
  }

  /** Different friends on the same day get different labels. */
  lemma FriendLabelsDistinct(i: nat, j: nat, totalCount: int)
    requires i != j
    ensures FriendLabel(i, totalCount) != FriendLabel(j, totalCount)
  {
    var li, lj := FriendLabel(i, totalCount), FriendLabel(j, totalCount);
    if li == lj && !(i == 1 && totalCount == 2) && !(j == 1 && totalCount == 2) {
      assert Ordinal(i) == Ordinal(j);
      assert NatToString(i) == Ordinal(i)[..|Ordinal(i)| - 2];
      assert NatToString(j) == Ordinal(j)[..|Ordinal(j)| - 2];
      DecimalRoundTrip(i);
      DecimalRoundTrip(j);
    }
  }

  /** With at most five guests the friend forms are steps 1 to 4; their labels. */
  lemma FriendLabelsForFiveGuests(index: nat, totalCount: int)
    requires 1 <= index <= MaxFriendStep
    ensures FriendLabel(index, totalCount) ==
      if index == 1 && totalCount == 2 then "your friend's name"
      else "your " + ["1st", "2nd", "3rd", "4th"][index - 1] + " friend's name"
  {
    SmallOrdinals();
  }

  /** `getDayText`: the phrase of the success screen. */
  function DayText(d: Day): (r: string)
    ensures r == DayName(d) + " morning"
  {
    match d
    case Thursday => "thursday morning"
    case Friday => "friday morning"
    case Saturday => "saturday morning"
  }

  /** `formData[day][0]?.name.split(" ")[0] || "you"`: whom the success screen greets. */
  function GreetingName(forms: seq<GuestEntry>): (r: string)
    ensures r != ""
    ensures r == "you" || (forms != [] && StartsWith(forms[0].name, r) && forall i :: 0 <= i < |r| ==> r[i] != ' ')
    ensures forms != [] && forms[0].name != "" && forms[0].name[0] != ' ' ==> r == FirstWord(forms[0].name)
  {
    if forms == [] then "you"
    else
      var w := FirstWord(forms[0].name);
      if w == "" then "you" else w
  }
}
