/**
 * The two prompts of the main loop: what the program does with one line typed
 * at the state-name prompt, and with one line typed at the "Choose the number
 * for detail search" prompt.
 */
module Menu {
  import opened Wrappers
  import opened Text
  import opened Web
  import opened Directory

  /** What a line typed at the state prompt leads to. */
  datatype StateChoice = Quit | UnknownState | StatePage(url: string)

  /**
   * The state prompt: the line is lowered, "exit" ends the program, a key of
   * the state dictionary selects that state's page, anything else is an error.
   */
  function ClassifyState(typed: string, stateUrls: map<string, string>): (c: StateChoice)
    ensures c == Quit <==> Lower(typed) == "exit"
    ensures c.StatePage? <==> Lower(typed) != "exit" && Lower(typed) in stateUrls
    ensures c.StatePage? ==> c.url == stateUrls[Lower(typed)]
  {
    var lowered := Lower(typed);
    if lowered == "exit" then Quit
    else if lowered in stateUrls then StatePage(stateUrls[lowered])
    else UnknownState
  }

  /** Lowering first makes the state prompt case-insensitive: two spellings that lower alike are classified alike. */
  lemma {:induction false} StatePromptIgnoresCase(typed: string, other: string, stateUrls: map<string, string>)
    requires |typed| == |other|
    requires forall k :: 0 <= k < |typed| ==> LowerChar(typed[k]) == LowerChar(other[k])
    ensures ClassifyState(typed, stateUrls) == ClassifyState(other, stateUrls)
  {
    assert Lower(typed) == Lower(other);
  }

  /**
   * Typing the text of a state link, in any case, opens the page that link
   * points to, as long as no later link lowers to the same text and the text
   * is not "exit".
   */
  lemma StateLinkSelectsItsPage(anchors: seq<Anchor>, i: nat, typed: string)
    requires i < |anchors|
    requires StateUrls(anchors, |anchors|).Ok?
    requires anchors[i].text.Some? && Lower(typed) == Lower(anchors[i].text.value) && Lower(typed) != "exit"
    requires forall j :: i < j < |anchors| && anchors[j].text.Some? ==> Lower(anchors[j].text.value) != Lower(typed)
    ensures ClassifyState(typed, StateUrls(anchors, |anchors|).value) == StatePage(BaseUrl + anchors[i].href)
  {
    StateUrlsLastWins(anchors, |anchors|, i);
  }


  /**
   * Leave: the empty line ends the detail loop; Back and Exit are the two
   * commands; Invalid prints the error and prompts again; Pick(k) looks up
   * the nearby places of the site at 0-based position k.
   */
  datatype Choice = Leave | Back | Exit | Invalid | Pick(index: nat)

  /**
   * The test of line 210: digits only, and a number between 1 and the list
   * length. No command is a valid selection, and none exists for an empty list.
   */
  predicate ValidSelection(input: string, count: nat): (b: bool)
    ensures b ==> input != "" && input != "back" && input != "exit" && count >= 1
  {
    assert !IsDigit('b') && !IsDigit('e');
    IsDigits(input) && 1 <= DigitsValue(input) <= count
  }

  function Classify(input: string, count: nat): (c: Choice)
    ensures c.Pick? <==> ValidSelection(input, count)
    ensures c.Pick? ==> c.index < count && c.index == DigitsValue(input) - 1
    ensures c == Invalid <==> input !in {"", "back", "exit"} && !ValidSelection(input, count)
    ensures input == "" ==> c == Leave
    ensures input == "back" ==> c == Back
    ensures input == "exit" ==> c == Exit
  {
    if input == "" then Leave
    else if input == "back" then Back
    else if input == "exit" then Exit
    else if !IsDigits(input) || DigitsValue(input) > count || DigitsValue(input) <= 0 then Invalid
    else Pick(DigitsValue(input) - 1)
  }

  /** The site list is numbered from 1; typing the number shown beside a site selects that site. */
  lemma ShownNumberSelects(k: nat, count: nat)
    requires k < count
    ensures Classify(ShowNat(k + 1), count) == Pick(k)
  {
    ShowNatRoundTrip(k + 1);
    assert ShowNat(k + 1) != "" && ShowNat(k + 1) != "back" && ShowNat(k + 1) != "exit" by {
      assert IsDigit(ShowNat(k + 1)[0]);
    }
  }

  /** Zero, a negative number, a word and a number past the end are all rejected. */
  lemma InvalidSelections(count: nat)
    ensures Classify("0", count) == Invalid
    ensures Classify("-1", count) == Invalid
    ensures Classify("abc", count) == Invalid
    ensures Classify(ShowNat(count + 1), count) == Invalid
  {
    assert !IsDigit('-') && !IsDigit('a');
    ShowNatRoundTrip(count + 1);
    assert IsDigit(ShowNat(count + 1)[0]);
  }
}
