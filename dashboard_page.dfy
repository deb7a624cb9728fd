/**
 * The dashboard page of the Next.js build: the summary figures it derives
 * from the cognitive-load data, the first name in its greeting, the colour
 * classes of its stat cards, and its sign-in guard.
 */
module DashboardPage {
  import opened Wrappers
  import opened Text
  import opened UserStore
  import opened Aggregates
  import opened SampleData
  import opened PageGuard

  /** The three computed figures. An average is `None` over an empty series (NaN on the page). */
  datatype DashboardStats = DashboardStats(avgLoad: Option<int>, avgEngagement: Option<int>, totalSessions: nat)

  /** `avgLoad`, `avgEngagement` and `totalSessions`. */
  function Stats(series: seq<LoadSample>, logs: seq<SessionLog>): (s: DashboardStats)
    ensures s.avgLoad.Some? <==> series != []
    ensures s.avgEngagement.Some? <==> series != []
    ensures s.totalSessions == |logs|
  {
    DashboardStats(RoundedMean(Loads(series)), RoundedMean(Engagements(series)), |logs|)
  }

  /** `avgLoad` is the mean load rounded half up: within half a point of the exact mean. */
  lemma AvgLoadRounds(series: seq<LoadSample>, logs: seq<SessionLog>)
    requires series != []
    ensures var xs, r := Loads(series), Stats(series, logs).avgLoad.value;
      |xs| * (2 * r - 1) <= 2 * Sum(xs) < |xs| * (2 * r + 1)
  {
    RoundedMeanBounds(Loads(series), |Loads(series)|, Stats(series, logs).avgLoad.value);
  }

  /** `avgEngagement` is the mean engagement rounded half up. */
  lemma AvgEngagementRounds(series: seq<LoadSample>, logs: seq<SessionLog>)
    requires series != []
    ensures var xs, r := Engagements(series), Stats(series, logs).avgEngagement.value;
      |xs| * (2 * r - 1) <= 2 * Sum(xs) < |xs| * (2 * r + 1)
  {
    RoundedMeanBounds(Engagements(series), |Engagements(series)|, Stats(series, logs).avgEngagement.value);
  }

  /** Both averages lie between the smallest and the largest value of their column. */
  lemma AveragesWithinRange(series: seq<LoadSample>, logs: seq<SessionLog>)
    requires series != []
    ensures Min(Loads(series)) <= Stats(series, logs).avgLoad.value <= Max(Loads(series))
    ensures Min(Engagements(series)) <= Stats(series, logs).avgEngagement.value <= Max(Engagements(series))
  {
    MeanWithinRange(Loads(series));
    MeanWithinRange(Engagements(series));
  }

  /** On the shipped data: loads sum to 919 and engagement to 1145 over 15 points, ten log rows. */
  lemma StatsOnSample()
    ensures Stats(CognitiveLoadTimeSeries, SessionLogs) == DashboardStats(Some(61), Some(76), 10)
  {
    SampleLoadSum();
    SampleEngagementSum();
  }

  /** `name.split(' ')[0]`: the text before the first space, or all of it. */
  function FirstToken(name: string): (t: string)
    ensures ' ' !in t && t <= name
    ensures t == name || name[|t|] == ' '
  {
    if ' ' in name then name[..IndexOf(name, ' ')] else name
  }

  /** Splitting "first rest" at its first space gives back "first". */
  lemma FirstTokenOfJoin(first: string, rest: string)
    requires ' ' !in first
    ensures FirstToken(first + " " + rest) == first
  {
    var name := first + " " + rest;
    assert name[..|first|] == first;
    IndexOfIs(name, ' ', |first|);
  }

  /** The greeting name: the first token of the user's full name, or "User" when there is none. */
  function GreetingName(user: Option<UserRecord>): (name: string)
    ensures user.None? || user.value.fullName.None? ==> name == "User"
    ensures user.Some? && user.value.fullName.Some? ==>
      var t := FirstToken(user.value.fullName.value);
      if t == "" then name == "User" else name == t
  {
    match user
    case None => "User"
    case Some(u) =>
      match u.fullName
      case None => "User"
      case Some(full) => if FirstToken(full) == "" then "User" else FirstToken(full)
  }

  /** The greeting never comes out empty and never holds a space. */
  lemma GreetingIsOneWord(user: Option<UserRecord>)
    ensures GreetingName(user) != "" && ' ' !in GreetingName(user)
  {
  }

  /** A full name that starts with a space greets as "User". */
  lemma LeadingSpaceGreetsUser(u: UserRecord, rest: string)
    requires u.fullName == Some(" " + rest)
    ensures GreetingName(Some(u)) == "User"
  {
    FirstTokenOfJoin("", rest);
    assert "" + " " + rest == " " + rest;
  }

  const DefaultColorClass := "bg-gray-100 text-gray-600"

  /** `colorClasses`: the card colours the page knows. */
  const ColorClasses: map<string, string> := map[
    "indigo" := "bg-indigo-100 text-indigo-600",
    "green" := "bg-green-100 text-green-600",
    "blue" := "bg-blue-100 text-blue-600",
    "purple" := "bg-purple-100 text-purple-600"]

  /** `colorClasses[color] || 'bg-gray-100 text-gray-600'`. */
  function ColorClass(color: string): (c: string)
    ensures color in ColorClasses ==> c == ColorClasses[color]
    ensures color !in ColorClasses ==> c == DefaultColorClass
  {
    if color in ColorClasses then ColorClasses[color] else DefaultColorClass
  }

  /** Only an unknown colour falls back to the grey classes. */
  lemma GreyOnlyForUnknownColors(color: string)
    ensures ColorClass(color) == DefaultColorClass <==> color !in ColorClasses
  {
    assert ColorClasses.Values == {ColorClasses["indigo"], ColorClasses["green"], ColorClasses["blue"], ColorClasses["purple"]};
  }

  const UpClass := "bg-green-100 text-green-700"
  const DownClass := "bg-red-100 text-red-700"
  const NeutralClass := "bg-gray-100 text-gray-700"

  /** The badge classes for a card's trend. */
  function TrendClass(trend: string): (c: string)
    ensures c == UpClass <==> trend == "up"
    ensures c == DownClass <==> trend == "down"
    ensures c == NeutralClass <==> trend != "up" && trend != "down"
  {
    if trend == "up" then UpClass else if trend == "down" then DownClass else NeutralClass
  }

  /** One stat card, as far as its classes and its figure go. */
  datatype StatCard = StatCard(title: string, trend: string, color: string)

  /** The four cards of `statsCards`, in order. */
  const StatsCards: seq<StatCard> := [
    StatCard("Average Load", "up", "indigo"),
    StatCard("Avg Engagement", "up", "green"),
    StatCard("Total Sessions", "neutral", "blue"),
    StatCard("Active Monitoring", "up", "purple")]

  /** Every card has a known colour; only "Total Sessions" wears the neutral badge. */
  lemma StatsCardsClasses()
    ensures forall k :: 0 <= k < |StatsCards| ==> ColorClass(StatsCards[k].color) != DefaultColorClass
    ensures forall k :: 0 <= k < |StatsCards| ==>
      (TrendClass(StatsCards[k].trend) == NeutralClass <==> StatsCards[k].title == "Total Sessions")
  {
    forall k | 0 <= k < |StatsCards|
      ensures ColorClass(StatsCards[k].color) != DefaultColorClass
    {
      GreyOnlyForUnknownColors(StatsCards[k].color);
    }
  }

  /** What the page shows once past its guard. */
  datatype Dashboard = Dashboard(greeting: string, stats: DashboardStats)

  /** The page: nothing for a signed-out visitor, otherwise the greeting and the figures. */
  function View(isAuthenticated: bool, user: Option<UserRecord>, series: seq<LoadSample>, logs: seq<SessionLog>): (v: PageView<Dashboard>)
    ensures v.Shows? <==> isAuthenticated
    ensures v.Shows? ==> v.content.greeting == GreetingName(user) && v.content.stats == Stats(series, logs)
  {
    Guard(isAuthenticated, Dashboard(GreetingName(user), Stats(series, logs)))
  }
}
