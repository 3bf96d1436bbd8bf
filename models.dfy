/** A player's stored statistics snapshot and its two derived ratios. */
module Models {
  import opened Numbers

  /** One row of the statistics table: when it was fetched (a timestamp) and
      the four counters, each an integer column defaulting to 0. */
  datatype StatSession = StatSession(
    dateFetched: int,
    totalKills: int,
    totalDeaths: int,
    totalTimePlayed: int,
    totalHeadshots: int)

  /** A snapshot created without counter values: every counter takes its
      column default. */
  function NewSession(dateFetched: int): (s: StatSession)
    ensures s.dateFetched == dateFetched
    ensures s.totalKills == 0 && s.totalDeaths == 0 && s.totalTimePlayed == 0 && s.totalHeadshots == 0
  {
    StatSession(dateFetched, 0, 0, 0, 0)
  }

  /** Kills per death rounded to hundredths; with no deaths recorded the raw
      kill count stands in for the ratio. */
  function KdRatio(s: StatSession): (r: real)
    ensures s.totalDeaths > 0 ==>
      var q := s.totalKills as real / s.totalDeaths as real;
      -0.005 <= r - q <= 0.005 && 100.0 * r == Steps(q, 2) as real
    ensures s.totalDeaths <= 0 ==> r == s.totalKills as real
  {
    if s.totalDeaths > 0 then
      var q := s.totalKills as real / s.totalDeaths as real;
      RoundHundredthsClose(q);
      Round(q, 2)
    else s.totalKills as real
  }

  /** Headshots as a percentage of kills rounded to hundredths; 0.0 when
      there are no kills. */
  function HeadshotPercentage(s: StatSession): (r: real)
    ensures s.totalKills > 0 ==>
      var p := (s.totalHeadshots as real / s.totalKills as real) * 100.0;
      -0.005 <= r - p <= 0.005 && 100.0 * r == Steps(p, 2) as real
    ensures s.totalKills <= 0 ==> r == 0.0
  {
    if s.totalKills > 0 then
      var p := (s.totalHeadshots as real / s.totalKills as real) * 100.0;
      RoundHundredthsClose(p);
      Round(p, 2)
    else 0.0
  }

  /** With non-negative counters neither ratio is negative. */
  lemma RatiosNonNegative(s: StatSession)
    requires s.totalKills >= 0 && s.totalDeaths >= 0 && s.totalHeadshots >= 0
    ensures KdRatio(s) >= 0.0
    ensures HeadshotPercentage(s) >= 0.0
  {
    if s.totalDeaths > 0 {
      QuotientNonNegative(s.totalKills, s.totalDeaths);
    }
    if s.totalKills > 0 {
      QuotientNonNegative(s.totalHeadshots, s.totalKills);
    }
  }

  lemma QuotientNonNegative(a: int, b: int)
    requires a >= 0 && b > 0
    ensures a as real / b as real >= 0.0
  {
  }

  /** When headshots never exceed kills, the percentage lies in [0, 100]. */
  lemma HeadshotPercentageBounded(s: StatSession)
    requires 0 <= s.totalHeadshots <= s.totalKills
    ensures 0.0 <= HeadshotPercentage(s) <= 100.0
  {
    if s.totalKills > 0 {
      var q := s.totalHeadshots as real / s.totalKills as real;
      assert q * s.totalKills as real == s.totalHeadshots as real;
      assert 0.0 <= q <= 1.0;
      RoundHundredthsWithin(q * 100.0, 0, 100);
    }
  }

  /** A fresh snapshot reports K/D 0 and HS% 0.0. */
  lemma FreshSessionRatios(dateFetched: int)
    ensures KdRatio(NewSession(dateFetched)) == 0.0
    ensures HeadshotPercentage(NewSession(dateFetched)) == 0.0
  {
  }

  /** 10 kills and no deaths: the K/D is the kill count, 10. */
  lemma ZeroDeathsExample(dateFetched: int)
    ensures KdRatio(StatSession(dateFetched, 10, 0, 0, 5)) == 10.0
  {
  }

  /** 100 kills, 50 deaths, 40 headshots: K/D 2.0 and HS% 40.0. */
  lemma RatioExamples(dateFetched: int)
    ensures KdRatio(StatSession(dateFetched, 100, 50, 0, 40)) == 2.0
    ensures HeadshotPercentage(StatSession(dateFetched, 100, 50, 0, 40)) == 40.0
  {
    assert 100.0 / 50.0 == 2.0;
    RoundOfInt(2, 2);
    assert (40.0 / 100.0) * 100.0 == 40.0;
    RoundOfInt(40, 2);
  }
}
