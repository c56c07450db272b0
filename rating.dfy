/** How the report labels the scorer's result: an integer score falls in
    one of three bands; any other result is shown as it is. */
module Rating {
  import opened Fundamentals
  import opened Scoring

  datatype Band = Strong | Moderate | Weak

  const StrongFrom := 75
  const ModerateFrom := 50

  /** The band of an integer score. */
  function BandOf(score: int): (b: Band)
    ensures b == Strong <==> score >= StrongFrom
    ensures b == Moderate <==> ModerateFrom <= score < StrongFrom
    ensures b == Weak <==> score < ModerateFrom
  {
    if score >= StrongFrom then Strong
    else if score >= ModerateFrom then Moderate
    else Weak
  }

  /** Bands ordered from weakest to strongest. */
  function Rank(b: Band): nat {
    match b
    case Weak => 0
    case Moderate => 1
    case Strong => 2
  }

  /** A higher score never falls in a weaker band. */
  lemma BandMonotone(score1: int, score2: int)
    requires score1 <= score2
    ensures Rank(BandOf(score1)) <= Rank(BandOf(score2))
  {
  }

  /** What the report shows for a scorer result. */
  datatype Verdict = Banded(points: int, band: Band) | Shown(text: string)

  /** An integer score is shown with its band; an "N/A (…)" result is
      shown as it is, with no band. */
  function Present(result: ScoreResult): (v: Verdict)
    ensures v.Banded? <==> result.Score?
    ensures result.Score? ==> v.points == result.points && v.band == BandOf(result.points)
    ensures result.Unavailable? ==> v.text == result.text
  {
    match result
    case Score(points) => Banded(points, BandOf(points))
    case Unavailable(text) => Shown(text)
  }

  /** Without a positive int net income a company earns no profitability
      points and only 5 strength points, so its score is at most
      25 + 0 + 5 + 20 + 15 = 65 and it is never rated Strong. */
  lemma NoProfitNeverStrong(s: Summary)
    requires !s.netIncome.IsPositiveInt()
    ensures Total(s) <= 65
    ensures BandOf(Total(s)) != Strong
  {
  }

  /** Each of the three bands is reached by some summary. */
  lemma EveryBandReached()
    ensures exists t :: BandOf(Total(t)) == Strong
    ensures exists t :: BandOf(Total(t)) == Moderate
    ensures exists t :: BandOf(Total(t)) == Weak
  {
    var strong := Summary(IntV(1_000_000_000), IntV(5), IntV(11_000_000_000), IntV(2_000_000_000));
    ValuationTiers(strong.peRatio);
    ProfitabilityTiers(2_000_000_000, 11_000_000_000);
    GrowthTiers(11_000_000_000);
    OpportunityTiers(1_000_000_000);
    assert Total(strong) == 95;
    var moderate := Summary(Other, Other, IntV(11_000_000_000), IntV(2_000_000_000));
    ProfitabilityTiers(2_000_000_000, 11_000_000_000);
    assert Total(moderate) == 10 + 25 + 10 + 20 + 5;
    var weak := Summary(Other, Other, Other, Other);
    assert Total(weak) == 10 + 0 + 5 + 5 + 5;
  }
}
