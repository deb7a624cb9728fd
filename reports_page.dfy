/**
 * The reports page of the Next.js build: the same two rounded averages as
 * the dashboard, a session total summed over the daily data, and the
 * sign-in guard.
 */
module ReportsPage {
  import opened Wrappers
  import opened Aggregates
  import opened SampleData
  import opened PageGuard

  /** The three figures of the page's cards. An average is `None` over an empty series. */
  datatype ReportStats = ReportStats(avgLoad: Option<int>, avgEngagement: Option<int>, totalSessions: int)

  /** `avgLoad`, `avgEngagement` and `totalSessions`. */
  function Stats(series: seq<LoadSample>, days: seq<DailyEngagement>): (s: ReportStats)
    ensures s.avgLoad.Some? <==> series != []
    ensures s.avgEngagement.Some? <==> series != []
    ensures days == [] ==> s.totalSessions == 0
  {
    ReportStats(RoundedMean(Loads(series)), RoundedMean(Engagements(series)), Sum(Sessions(days)))
  }

  /** `avgLoad` and `avgEngagement` are the column means rounded half up. */
  lemma AveragesRound(series: seq<LoadSample>, days: seq<DailyEngagement>)
    requires series != []
    ensures var xs, r := Loads(series), Stats(series, days).avgLoad.value;
      |xs| * (2 * r - 1) <= 2 * Sum(xs) < |xs| * (2 * r + 1)
    ensures var xs, r := Engagements(series), Stats(series, days).avgEngagement.value;
      |xs| * (2 * r - 1) <= 2 * Sum(xs) < |xs| * (2 * r + 1)
  {
    RoundedMeanBounds(Loads(series), |Loads(series)|, Stats(series, days).avgLoad.value);
    RoundedMeanBounds(Engagements(series), |Engagements(series)|, Stats(series, days).avgEngagement.value);
  }

  /** Both averages lie between the smallest and the largest value of their column. */
  lemma AveragesWithinRange(series: seq<LoadSample>, days: seq<DailyEngagement>)
    requires series != []
    ensures Min(Loads(series)) <= Stats(series, days).avgLoad.value <= Max(Loads(series))
    ensures Min(Engagements(series)) <= Stats(series, days).avgEngagement.value <= Max(Engagements(series))
  {
    MeanWithinRange(Loads(series));
    MeanWithinRange(Engagements(series));
  }

  /** Adding a day adds its sessions to the total. */
  lemma TotalAddsDay(series: seq<LoadSample>, days: seq<DailyEngagement>, day: DailyEngagement)
    ensures Stats(series, days + [day]).totalSessions == Stats(series, days).totalSessions + day.sessions
  {
    assert Sessions(days + [day])[..|days|] == Sessions(days);
  }

  /** With no negative session count, no single day exceeds the total. */
  lemma DayAtMostTotal(series: seq<LoadSample>, days: seq<DailyEngagement>, k: nat)
    requires forall j :: 0 <= j < |days| ==> 0 <= days[j].sessions
    requires k < |days|
    ensures days[k].sessions <= Stats(series, days).totalSessions
  {
    TermAtMostSum(Sessions(days), k);
  }

  /** On the shipped data the cards read 61, 76 and 49. */
  lemma StatsOnSample()
    ensures Stats(CognitiveLoadTimeSeries, DailyEngagementData) == ReportStats(Some(61), Some(76), 49)
  {
    SampleLoadSum();
    SampleEngagementSum();
    SampleSessionSum();
  }

  /** The page: nothing for a signed-out visitor, otherwise the three figures. */
  function View(isAuthenticated: bool, series: seq<LoadSample>, days: seq<DailyEngagement>): (v: PageView<ReportStats>)
    ensures v.Shows? <==> isAuthenticated
    ensures v.Shows? ==> v.content == Stats(series, days)
    ensures v.Nothing? ==> v.navigateTo == "/signin"
  {
    Guard(isAuthenticated, Stats(series, days))
  }
}
