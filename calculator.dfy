/** The state of the fair odds calculator component and its two actions:
    `Calc` (margin removal for the active market) and `CalcEV` (expected
    value of the typed selection at the user's odds). */
module Calculator {
  import opened Text
  import opened Margin
  import opened Expectation

  datatype Option<T> = None | Some(value: T)

  class FairOddsCalculator {
    /** The active market: "1x2", "asian" or "ou". */
    var tab: string
    /** The odds texts typed for each market. */
    var home: string
    var draw: string
    var away: string
    var asianHome: string
    var asianAway: string
    var over: string
    var under: string
    /** The last computed book, `null` until the first calculation. */
    var results: Option<FairResult>
    /** The typed selection and the user's own odds text. */
    var pick: string
    var myOdds: string
    /** The last expected value, as rounded to three decimals. */
    var ev: Option<real>

    /** Every stored book was computed from positive odds, so its fair odds
        are at least 1 and can be read back and divided by. */
    ghost predicate Valid()
      reads this`results
    {
      results.Some? ==>
        forall i :: 0 <= i < |results.value.fairO| ==> results.value.fairO[i] >= 1.0
    }

    /** The component's initial state. */
    constructor ()
      ensures Valid()
      ensures tab == "1x2" && pick == "1" && myOdds == ""
      ensures home == "1.66" && draw == "3.80" && away == "5.00"
      ensures asianHome == "1.90" && asianAway == "1.90"
      ensures over == "1.85" && under == "1.95"
      ensures results == None && ev == None
    {
      tab := "1x2";
      home, draw, away := "1.66", "3.80", "5.00";
      asianHome, asianAway := "1.90", "1.90";
      over, under := "1.85", "1.95";
      results := None;
      pick := "1";
      myOdds := "";
      ev := None;
    }

    /** The parsed odds `calc` reads for the active market: three for 1X2,
        two for Asian handicap and for Over/Under, none for any other tab. */
    function MarketOdds(parse: string -> real): (odds: Option<seq<real>>)
      reads this`tab, this`home, this`draw, this`away, this`asianHome, this`asianAway, this`over, this`under
      ensures odds.Some? <==> tab == "1x2" || tab == "asian" || tab == "ou"
      ensures odds.Some? ==> |odds.value| == |OutcomeLabels(tab)|
    {
      if tab == "1x2" then Some([ToNum(parse, home), ToNum(parse, draw), ToNum(parse, away)])
      else if tab == "asian" then Some([ToNum(parse, asianHome), ToNum(parse, asianAway)])
      else if tab == "ou" then Some([ToNum(parse, over), ToNum(parse, under)])
      else None
    }

    /** `calc`: implied probabilities of the active market's odds, their
        sum, the overround and payout, and the fair probabilities and fair
        odds; an unknown tab leaves the stored book as it was. */
    method Calc(parse: string -> real)
      requires Valid()
      requires MarketOdds(parse).Some? ==> AllPositive(MarketOdds(parse).value)
      modifies this`results
      ensures Valid()
      ensures MarketOdds(parse).None? ==> results == old(results)
      ensures MarketOdds(parse).Some? ==>
        results == Some(FairFrom(Implied(MarketOdds(parse).value)))
    {
      ghost var market := MarketOdds(parse);
      // The handler's own dispatch and arithmetic, written out as it is;
      // the assertions tie each step to `MarketOdds` and `FairFrom`.
      var odds: seq<real>;
      if tab == "1x2" {
        odds := [ToNum(parse, home), ToNum(parse, draw), ToNum(parse, away)];
      } else if tab == "asian" {
        odds := [ToNum(parse, asianHome), ToNum(parse, asianAway)];
      } else if tab == "ou" {
        odds := [ToNum(parse, over), ToNum(parse, under)];
      } else {
        return;
      }
      assert market == Some(odds) && AllPositive(odds);
      var p := seq(|odds|, i requires 0 <= i < |odds| => 1.0 / odds[i]);
      assert p == Implied(odds);
      SumPositive(p);

      var sum := Sum(p);
      var overRound := sum - 1.0;
      var fairP := Scale(p, sum);
      assert fairP == FairFrom(p).fairP;
      var fairO := Reciprocals(fairP);
      results := Some(FairResult(sum, overRound, 1.0 - overRound, fairP, fairO));
      assert results.value == FairFrom(p);
    }

    /** `calcEV`: with a stored book and a non-empty odds text, the expected
        value of the selected outcome at the user's odds, measured against
        its fair odds as shown with two decimals, is stored rounded to three
        decimals. Without a book, without odds text, or when the selection
        lies past the stored book's outcomes, nothing changes. */
    method CalcEV(parse: string -> real)
      requires Valid()
      modifies this`ev
      ensures results == old(results)
      ensures results.None? || myOdds == "" || PickIndex(tab, pick) >= |results.value.fairO| ==>
        ev == old(ev)
      ensures results.Some? && myOdds != "" && PickIndex(tab, pick) < |results.value.fairO| ==>
        var shown := ToFixed(results.value.fairO[PickIndex(tab, pick)], 2);
        shown >= 1.0 && ev == Some(ToFixed(ExpectedValue(ToNum(parse, myOdds), shown), 3))
    {
      if results.None? || myOdds == "" {
        return;
      }
      // The handler's own selection chain, written out as it is; the
      // assertion after it ties it to `PickIndex`.
      var selectedIndex := 0;
      if tab == "1x2" {
        selectedIndex := if pick == "1" then 0 else if pick == "X" then 1 else 2;
      } else if tab == "asian" {
        selectedIndex := if pick == "Home" then 0 else 1;
      } else if tab == "ou" {
        selectedIndex := if pick == "Over" then 0 else 1;
      }
      assert selectedIndex == PickIndex(tab, pick);

      if selectedIndex >= |results.value.fairO| {
        return;
      }

      var fairOdds := ToFixed(results.value.fairO[selectedIndex], 2);
      var fairP := 1.0 / fairOdds;
      var value := ToNum(parse, myOdds) * fairP - 1.0;
      assert value == ExpectedValue(ToNum(parse, myOdds), fairOdds);
      ev := Some(ToFixed(value, 3));
    }
  }

  /** What the result card shows for the opening book 1.66 / 3.80 / 5.00:
      a margin of 6.56% and fair odds 1.77, 4.05 and 5.33. */
  lemma OpeningBookShown()
    ensures ToFixed(FairFrom(Implied([1.66, 3.80, 5.00])).overRound * 100.0, 2) == 6.56
    ensures ToFixed(FairFrom(Implied([1.66, 3.80, 5.00])).fairO[0], 2) == 1.77
    ensures ToFixed(FairFrom(Implied([1.66, 3.80, 5.00])).fairO[1], 2) == 4.05
    ensures ToFixed(FairFrom(Implied([1.66, 3.80, 5.00])).fairO[2], 2) == 5.33
  {
    OpeningBook();
    assert Pow10(2) == 100 by {
      assert Pow10(0) == 1;
    }
  }

  /** An example client session, not a model of a handler: a book computed
      on the Asian handicap tab has two outcomes, so after switching to 1X2
      the away selection "2" reads past it and `CalcEV` leaves the expected
      value alone; the home selection "1" reads the Asian home price
      instead. */
  method SwitchedMarketSession()
  {
    var parse := (s: string) => 1.90;
    var c := new FairOddsCalculator();
    c.tab := "asian";
    c.Calc(parse);
    assert c.results == Some(FairFrom(Implied([1.90, 1.90])));
    c.tab := "1x2";
    c.pick := "2";
    c.myOdds := "2.10";
    c.CalcEV(parse);
    assert c.ev == None;
    c.pick := "1";
    c.CalcEV(parse);
    assert c.ev.Some?;
  }
}
