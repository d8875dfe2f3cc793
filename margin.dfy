/** Margin removal: from the bookmaker's implied probabilities to fair
    probabilities and fair odds (the arithmetic of `calc`), over exact
    reals. */
module Margin {

  predicate AllPositive(s: seq<real>)
  {
    forall i :: 0 <= i < |s| ==> s[i] > 0.0
  }

  /** Implied probabilities `1 / odds[i]`, one per outcome. */
  function Implied(odds: seq<real>): (p: seq<real>)
    requires AllPositive(odds)
    ensures |p| == |odds| && AllPositive(p)
    ensures forall i :: 0 <= i < |p| ==> p[i] * odds[i] == 1.0
  {
    seq(|odds|, i requires 0 <= i < |odds| => 1.0 / odds[i])
  }

  /** `s.reduce((a, b) => a + b, 0)`: a left fold from 0. */
  function Sum(s: seq<real>): real
  {
    if s == [] then 0.0 else Sum(s[..|s| - 1]) + s[|s| - 1]
  }

  /** `s.map((x) => x / c)`. */
  function Scale(s: seq<real>, c: real): (r: seq<real>)
    requires c != 0.0
    ensures |r| == |s|
    ensures forall i :: 0 <= i < |s| ==> r[i] * c == s[i]
  {
    seq(|s|, i requires 0 <= i < |s| => s[i] / c)
  }

  /** `s.map((x) => 1 / x)`. */
  function Reciprocals(s: seq<real>): (r: seq<real>)
    requires AllPositive(s)
    ensures |r| == |s| && AllPositive(r)
    ensures forall i :: 0 <= i < |s| ==> r[i] * s[i] == 1.0
  {
    seq(|s|, i requires 0 <= i < |s| => 1.0 / s[i])
  }

  /** The numbers `calc` derives from the implied probabilities: their sum
      (the book's total), the overround, the payout it shows, and the fair
      probabilities and fair odds per outcome. */
  datatype FairResult = FairResult(sum: real, overRound: real, payout: real, fairP: seq<real>, fairO: seq<real>)

  /** The result `calc` computes from implied probabilities `p`. */
  function FairFrom(p: seq<real>): (r: FairResult)
    requires |p| > 0 && AllPositive(p)
    ensures r.sum > 0.0 && r.overRound == r.sum - 1.0
    ensures |r.fairP| == |p| && |r.fairO| == |p|
    ensures forall i :: 0 <= i < |p| ==> 0.0 < r.fairP[i] <= 1.0 && r.fairO[i] >= 1.0
  {
    SumPositive(p);
    EveryElementAtMostSum(p);
    var sum := Sum(p);
    var overRound := sum - 1.0;
    var fairP := Scale(p, sum);
    assert forall i :: 0 <= i < |p| ==> 0.0 < fairP[i] <= 1.0 by {
      forall i | 0 <= i < |p| ensures 0.0 < fairP[i] <= 1.0 {
        ShareOfTotal(p[i], sum, fairP[i]);
      }
    }
    var fairO := Reciprocals(fairP);
    assert forall i :: 0 <= i < |p| ==> fairO[i] >= 1.0 by {
      forall i | 0 <= i < |p| ensures fairO[i] >= 1.0 {
        InverseAtLeastOne(fairP[i], fairO[i]);
      }
    }
    FairResult(sum, overRound, 1.0 - overRound, fairP, fairO)
  }

  lemma ShareOfTotal(a: real, s: real, q: real)
    requires 0.0 < a <= s && q * s == a
    ensures 0.0 < q <= 1.0
    ensures a < s ==> q < 1.0
  {
  }

  lemma InverseAtLeastOne(q: real, o: real)
    requires 0.0 < q <= 1.0 && o * q == 1.0
    ensures o >= 1.0
  {
  }

  /** A book of positive probabilities has a positive total. */
  lemma {:induction false} SumPositive(p: seq<real>)
    requires AllPositive(p)
    ensures Sum(p) >= 0.0
    ensures p != [] ==> Sum(p) > 0.0
  {
    if p != [] {
      SumPositive(p[..|p| - 1]);
    }
  }

  lemma {:induction false} ElementAtMostSum(p: seq<real>, i: nat)
    requires AllPositive(p) && i < |p|
    ensures p[i] <= Sum(p)
  {
    var n := |p| - 1;
    SumPositive(p[..n]);
    if i < n {
      ElementAtMostSum(p[..n], i);
    }
  }

  lemma EveryElementAtMostSum(p: seq<real>)
    requires AllPositive(p)
    ensures forall i :: 0 <= i < |p| ==> p[i] <= Sum(p)
  {
    forall i | 0 <= i < |p| ensures p[i] <= Sum(p) {
      ElementAtMostSum(p, i);
    }
  }

  /** With two outcomes or more, no single outcome carries the whole book. */
  lemma ElementBelowSum(p: seq<real>, i: nat)
    requires AllPositive(p) && |p| >= 2 && i < |p|
    ensures p[i] < Sum(p)
  {
    var n := |p| - 1;
    SumPositive(p[..n]);
    if i < n {
      ElementAtMostSum(p[..n], i);
    }
  }

  /** Dividing every term by `c` divides the total by `c`. */
  lemma {:induction false} SumScale(s: seq<real>, c: real)
    requires c != 0.0
    ensures Sum(Scale(s, c)) == Sum(s) / c
  {
    if s != [] {
      var n := |s| - 1;
      assert Scale(s, c)[..n] == Scale(s[..n], c);
      SumScale(s[..n], c);
    }
  }

  /** The fair probabilities form a distribution: they add up to exactly 1. */
  lemma FairProbabilitiesSumToOne(p: seq<real>)
    requires |p| > 0 && AllPositive(p)
    ensures Sum(FairFrom(p).fairP) == 1.0
  {
    SumPositive(p);
    var sum := Sum(p);
    assert FairFrom(p).fairP == Scale(p, sum);
    SumScale(p, sum);
    assert sum / sum == 1.0;
  }

  /** With two outcomes or more, every fair probability lies strictly
      between 0 and 1. */
  lemma FairProbabilitiesBelowOne(p: seq<real>, i: nat)
    requires |p| >= 2 && AllPositive(p) && i < |p|
    ensures 0.0 < FairFrom(p).fairP[i] < 1.0
  {
    SumPositive(p);
    ElementBelowSum(p, i);
    ShareOfTotal(p[i], Sum(p), FairFrom(p).fairP[i]);
  }

  /** Fair odds and fair probability of an outcome are reciprocal. */
  lemma FairOddsInverse(p: seq<real>, i: nat)
    requires |p| > 0 && AllPositive(p) && i < |p|
    ensures FairFrom(p).fairO[i] * FairFrom(p).fairP[i] == 1.0
  {
  }

  /** Removing the margin multiplies each bookmaker price by the book's
      total; so fair odds are at least the quoted odds exactly when the
      total implied probability is at least 1. */
  lemma FairOddsFromQuoted(odds: seq<real>, i: nat)
    requires |odds| > 0 && AllPositive(odds) && i < |odds|
    ensures FairFrom(Implied(odds)).fairO[i] == odds[i] * FairFrom(Implied(odds)).sum
    ensures FairFrom(Implied(odds)).fairO[i] >= odds[i] <==> FairFrom(Implied(odds)).sum >= 1.0
  {
    var p := Implied(odds);
    var r := FairFrom(p);
    assert r.fairP[i] * r.sum == p[i];
    assert r.fairO[i] * p[i] == r.sum by {
      calc {
        r.fairO[i] * p[i];
        r.fairO[i] * (r.fairP[i] * r.sum);
        (r.fairO[i] * r.fairP[i]) * r.sum;
      }
    }
    assert p[i] * odds[i] == 1.0;
    assert r.fairO[i] == odds[i] * r.sum by {
      calc {
        r.fairO[i];
        r.fairO[i] * (p[i] * odds[i]);
        (r.fairO[i] * p[i]) * odds[i];
      }
    }
    assert odds[i] * r.sum - odds[i] == odds[i] * (r.sum - 1.0);
    ProductSign(odds[i], r.sum - 1.0);
  }

  lemma ProductSign(a: real, b: real)
    requires a > 0.0
    ensures a * b >= 0.0 <==> b >= 0.0
    ensures a * b > 0.0 <==> b > 0.0
  {
  }

  /** Rescaling keeps the bookmaker's relative prices: the ratio of any two
      fair probabilities is the ratio of the implied ones. */
  lemma RatiosPreserved(p: seq<real>, i: nat, j: nat)
    requires |p| > 0 && AllPositive(p) && i < |p| && j < |p|
    ensures FairFrom(p).fairP[i] / FairFrom(p).fairP[j] == p[i] / p[j]
  {
  }

  /** The payout shown is `1 - overRound`, that is `2 - sum`, and not the
      reciprocal `1 / sum`: it never exceeds the reciprocal and equals it
      only for a book with no margin. */
  lemma PayoutAgainstReciprocal(p: seq<real>)
    requires |p| > 0 && AllPositive(p)
    ensures FairFrom(p).payout == 2.0 - FairFrom(p).sum
    ensures FairFrom(p).payout <= 1.0 / FairFrom(p).sum
    ensures FairFrom(p).payout == 1.0 / FairFrom(p).sum <==> FairFrom(p).sum == 1.0
  {
    TwoMinusAgainstReciprocal(FairFrom(p).sum);
  }

  lemma TwoMinusAgainstReciprocal(s: real)
    requires s > 0.0
    ensures 2.0 - s <= 1.0 / s
    ensures 2.0 - s == 1.0 / s <==> s == 1.0
  {
    ReciprocalSide(s);
    NumberPlusReciprocal(s, 1.0 / s);
  }

  /** `s + 1/s >= 2`, with equality only at `s == 1`. */
  lemma NumberPlusReciprocal(s: real, t: real)
    requires s > 0.0 && s * t == 1.0
    requires s > 1.0 ==> t < 1.0
    requires s < 1.0 ==> t > 1.0
    ensures s + t >= 2.0
    ensures s + t == 2.0 <==> s == 1.0
  {
    if s > 1.0 {
      var u, v := s - 1.0, 1.0 - t;
      ProductSign(u, v);
      CrossTerm(s, t, u, v);
    } else if s < 1.0 {
      var u, v := 1.0 - s, t - 1.0;
      ProductSign(u, v);
      CrossTerm(s, t, u, v);
    }
  }

  lemma ReciprocalSide(s: real)
    requires s > 0.0
    ensures s * (1.0 / s) == 1.0
    ensures s > 1.0 ==> 1.0 / s < 1.0
    ensures s < 1.0 ==> 1.0 / s > 1.0
  {
  }

  /** `(s - 1) * (1 - t) == (1 - s) * (t - 1) == s + t - 2` when `s * t == 1`. */
  lemma CrossTerm(s: real, t: real, u: real, v: real)
    requires s * t == 1.0
    requires (u == s - 1.0 && v == 1.0 - t) || (u == 1.0 - s && v == t - 1.0)
    ensures u * v == s + t - 2.0
  {
  }

  /** The book the calculator opens with, 1.66 / 3.80 / 5.00: the implied
      probabilities add up to 8402/7885, an overround of about 6.56%, and
      the fair odds are 1.66, 3.80 and 5.00 each multiplied by that total. */
  lemma OpeningBook()
    ensures FairFrom(Implied([1.66, 3.80, 5.00])).sum == 8402.0 / 7885.0
    ensures FairFrom(Implied([1.66, 3.80, 5.00])).fairO
         == [1.66 * (8402.0 / 7885.0), 3.80 * (8402.0 / 7885.0), 5.00 * (8402.0 / 7885.0)]
  {
    var odds := [1.66, 3.80, 5.00];
    var p := Implied(odds);
    assert p == [50.0 / 83.0, 5.0 / 19.0, 1.0 / 5.0];
    assert p[..2][..1] == [p[0]] && p[..2] == [p[0], p[1]];
    assert [p[0]][..0] == [];
    assert Sum([p[0]]) == p[0];
    assert Sum(p[..2]) == p[0] + p[1];
    assert Sum(p) == p[0] + p[1] + p[2];
    FairOddsFromQuoted(odds, 0);
    FairOddsFromQuoted(odds, 1);
    FairOddsFromQuoted(odds, 2);
  }
}
