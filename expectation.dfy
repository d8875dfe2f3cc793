/** The expected-value step of `calcEV`: which outcome a typed selection
    names, and the value per unit stake of taking given odds on it. */
module Expectation {
  import opened Text
  import opened Margin

  /** The outcome captions shown under the fair odds of each market; any
      tab other than the first two gets the Over/Under captions. */
  function OutcomeLabels(tab: string): (labels: seq<string>)
    ensures |labels| == if tab == "1x2" then 3 else 2
  {
    if tab == "1x2" then ["1", "X", "2"]
    else if tab == "asian" then ["Home", "Away"]
    else ["Over", "Under"]
  }

  /** The index `calcEV` reads for the typed selection `pick`: the first
      outcome's caption picks it, in 1X2 the second caption picks the
      draw, and every other text falls through to the last outcome. A tab
      outside the three markets keeps the initial index 0. */
  function PickIndex(tab: string, pick: string): (i: nat)
    ensures tab == "1x2" ==> i < 3
    ensures tab != "1x2" ==> i < 2
    ensures tab == "asian" || tab == "ou" || tab == "1x2" ==> (i == 0 <==> pick == OutcomeLabels(tab)[0])
  {
    if tab == "1x2" then (if pick == "1" then 0 else if pick == "X" then 1 else 2)
    else if tab == "asian" then (if pick == "Home" then 0 else 1)
    else if tab == "ou" then (if pick == "Over" then 0 else 1)
    else 0
  }

  /** Typing a caption of the active market selects that caption's outcome. */
  lemma PickIndexOfLabel(tab: string, k: nat)
    requires tab == "1x2" || tab == "asian" || tab == "ou"
    requires k < |OutcomeLabels(tab)|
    ensures PickIndex(tab, OutcomeLabels(tab)[k]) == k
  {
  }

  /** Text that is no caption of the active market selects its last
      outcome: nothing reports an unknown selection. */
  lemma PickIndexFallThrough(tab: string, pick: string)
    requires tab == "1x2" || tab == "asian" || tab == "ou"
    requires pick !in OutcomeLabels(tab)
    ensures PickIndex(tab, pick) == |OutcomeLabels(tab)| - 1
  {
  }

  /** `userOdds * (1 / fairOdds) - 1`: the expected profit per unit staked
      at `userOdds` on an outcome whose fair odds are `fairOdds`. */
  function ExpectedValue(userOdds: real, fairOdds: real): (ev: real)
    requires fairOdds > 0.0
    ensures (ev + 1.0) * fairOdds == userOdds
  {
    userOdds * (1.0 / fairOdds) - 1.0
  }

  /** The bet is favourable exactly when it pays more than the fair odds,
      break-even exactly at the fair odds. */
  lemma ExpectedValueSign(userOdds: real, fairOdds: real)
    requires fairOdds > 0.0
    ensures ExpectedValue(userOdds, fairOdds) > 0.0 <==> userOdds > fairOdds
    ensures ExpectedValue(userOdds, fairOdds) == 0.0 <==> userOdds == fairOdds
    ensures ExpectedValue(userOdds, fairOdds) < 0.0 <==> userOdds < fairOdds
  {
  }

  lemma QuotientAtLeast(u: real, f: real, c: real)
    requires f > 0.0
    ensures u * (1.0 / f) >= c <==> u >= c * f
  {
  }

  /** Measured against a computed book, the expected value is the user's
      odds times the outcome's fair probability, minus the stake. */
  lemma ExpectedValueOfFairOutcome(p: seq<real>, i: nat, userOdds: real)
    requires |p| > 0 && AllPositive(p) && i < |p|
    ensures ExpectedValue(userOdds, FairFrom(p).fairO[i]) == userOdds * FairFrom(p).fairP[i] - 1.0
  {
  }

  /** The value `calcEV` stores: the expected value against the fair odds
      as shown with two decimals, itself rounded to three decimals. The
      message beside it calls the bet favourable when that stored value is
      above 0, which happens exactly when the user's odds beat the shown
      fair odds by at least a factor 2001/2000. */
  lemma ShownExpectedValueFavourable(userOdds: real, fairOdds: real)
    requires fairOdds >= 1.0
    ensures ToFixed(fairOdds, 2) >= 1.0
    ensures ToFixed(ExpectedValue(userOdds, ToFixed(fairOdds, 2)), 3) > 0.0
        <==> 2000.0 * userOdds >= 2001.0 * ToFixed(fairOdds, 2)
  {
    var f := ToFixed(fairOdds, 2);
    var e := ExpectedValue(userOdds, f);
    assert Pow10(3) == 1000 by {
      assert Pow10(0) == 1;
    }
    ToFixedPositive(e, 3);
    assert e * 1000.0 >= 0.5 <==> userOdds * (1.0 / f) >= 2001.0 / 2000.0;
    QuotientAtLeast(userOdds, f, 2001.0 / 2000.0);
  }

  /** Fair odds of 2.00 taken at 2.20: a tenth of the stake expected back,
      stored as 0.100 and called favourable. */
  lemma EvenMoneyExample()
    ensures ToFixed(ExpectedValue(2.20, ToFixed(2.00, 2)), 3) == 0.1
  {
  }
}
