/**
 * The records the dashboard and the reports page read, and the sample values
 * the web client ships with.
 */
module SampleData {
  import opened Aggregates

  /** One point of the cognitive-load time series. */
  datatype LoadSample = LoadSample(time: string, load: int, engagement: int)

  /** One bar of the daily engagement chart. */
  datatype DailyEngagement = DailyEngagement(day: string, engagement: int, sessions: int)

  /** One row of the session log table. */
  datatype SessionLog = SessionLog(id: int, time: string, cognitiveLoad: string, engagement: string, duration: string)

  /** The `load` column of a series, in order. */
  function Loads(series: seq<LoadSample>): (r: seq<int>)
    ensures |r| == |series| && forall k :: 0 <= k < |r| ==> r[k] == series[k].load
  {
    if series == [] then [] else Loads(series[..|series| - 1]) + [series[|series| - 1].load]
  }

  /** The `engagement` column of a series, in order. */
  function Engagements(series: seq<LoadSample>): (r: seq<int>)
    ensures |r| == |series| && forall k :: 0 <= k < |r| ==> r[k] == series[k].engagement
  {
    if series == [] then [] else Engagements(series[..|series| - 1]) + [series[|series| - 1].engagement]
  }

  /** The `sessions` column of the daily data, in order. */
  function Sessions(days: seq<DailyEngagement>): (r: seq<int>)
    ensures |r| == |days| && forall k :: 0 <= k < |r| ==> r[k] == days[k].sessions
  {
    if days == [] then [] else Sessions(days[..|days| - 1]) + [days[|days| - 1].sessions]
  }

  const CognitiveLoadTimeSeries: seq<LoadSample> := [
    LoadSample("Mon 09:00", 45, 85),
    LoadSample("Mon 12:00", 62, 78),
    LoadSample("Mon 15:00", 78, 65),
    LoadSample("Tue 09:00", 42, 88),
    LoadSample("Tue 12:00", 58, 82),
    LoadSample("Tue 15:00", 71, 70),
    LoadSample("Wed 09:00", 48, 86),
    LoadSample("Wed 12:00", 65, 75),
    LoadSample("Wed 15:00", 82, 60),
    LoadSample("Thu 09:00", 40, 90),
    LoadSample("Thu 12:00", 55, 85),
    LoadSample("Thu 15:00", 68, 72),
    LoadSample("Fri 09:00", 50, 84),
    LoadSample("Fri 12:00", 70, 70),
    LoadSample("Fri 15:00", 85, 55)
  ]

  const DailyEngagementData: seq<DailyEngagement> := [
    DailyEngagement("Monday", 76, 8),
    DailyEngagement("Tuesday", 80, 9),
    DailyEngagement("Wednesday", 74, 7),
    DailyEngagement("Thursday", 82, 10),
    DailyEngagement("Friday", 70, 6),
    DailyEngagement("Saturday", 65, 4),
    DailyEngagement("Sunday", 68, 5)
  ]

  const SessionLogs: seq<SessionLog> := [
    SessionLog(1, "2024-01-15 09:15:23", "Low", "High", "45 min"),
    SessionLog(2, "2024-01-15 10:30:12", "Medium", "Medium", "38 min"),
    SessionLog(3, "2024-01-15 14:20:45", "High", "Low", "25 min"),
    SessionLog(4, "2024-01-15 16:10:30", "Medium", "High", "52 min"),
    SessionLog(5, "2024-01-16 09:00:15", "Low", "High", "48 min"),
    SessionLog(6, "2024-01-16 11:25:20", "Medium", "Medium", "42 min"),
    SessionLog(7, "2024-01-16 15:40:10", "High", "Low", "30 min"),
    SessionLog(8, "2024-01-17 09:30:00", "Low", "High", "50 min"),
    SessionLog(9, "2024-01-17 13:15:35", "Medium", "Medium", "40 min"),
    SessionLog(10, "2024-01-17 17:00:50", "High", "Low", "28 min")
  ]



  lemma LoadColumn()
    ensures Loads(CognitiveLoadTimeSeries) == [45, 62, 78, 42, 58, 71, 48, 65, 82, 40, 55, 68, 50, 70, 85]
  {
  }

  /** The sample loads add up to 919. */
  lemma SampleLoadSum()
    ensures Sum(Loads(CognitiveLoadTimeSeries)) == 919
  {
    LoadColumn();
    var xs := [45, 62, 78, 42, 58, 71, 48, 65, 82, 40, 55, 68, 50, 70, 85];
    assert xs[..0] == [];
    SumStep(xs, 0);
    SumStep(xs, 1);
    SumStep(xs, 2);
    SumStep(xs, 3);
    SumStep(xs, 4);
    SumStep(xs, 5);
    SumStep(xs, 6);
    SumStep(xs, 7);
    SumStep(xs, 8);
    SumStep(xs, 9);
    SumStep(xs, 10);
    SumStep(xs, 11);
    SumStep(xs, 12);
    SumStep(xs, 13);
    SumStep(xs, 14);
    assert xs[..15] == xs;
  }

  lemma EngagementColumn()
    ensures Engagements(CognitiveLoadTimeSeries) == [85, 78, 65, 88, 82, 70, 86, 75, 60, 90, 85, 72, 84, 70, 55]
  {
  }

  /** The sample engagement values add up to 1145. */
  lemma SampleEngagementSum()
    ensures Sum(Engagements(CognitiveLoadTimeSeries)) == 1145
  {
    EngagementColumn();
    var xs := [85, 78, 65, 88, 82, 70, 86, 75, 60, 90, 85, 72, 84, 70, 55];
    assert xs[..0] == [];
    SumStep(xs, 0);
    SumStep(xs, 1);
    SumStep(xs, 2);
    SumStep(xs, 3);
    SumStep(xs, 4);
    SumStep(xs, 5);
    SumStep(xs, 6);
    SumStep(xs, 7);
    SumStep(xs, 8);
    SumStep(xs, 9);
    SumStep(xs, 10);
    SumStep(xs, 11);
    SumStep(xs, 12);
    SumStep(xs, 13);
    SumStep(xs, 14);
    assert xs[..15] == xs;
  }

  lemma SessionColumn()
    ensures Sessions(DailyEngagementData) == [8, 9, 7, 10, 6, 4, 5]
  {
  }

  /** The sample days hold 49 sessions between them. */
  lemma SampleSessionSum()
    ensures Sum(Sessions(DailyEngagementData)) == 49
  {
    SessionColumn();
    var xs := [8, 9, 7, 10, 6, 4, 5];
    assert xs[..0] == [];
    SumStep(xs, 0);
    SumStep(xs, 1);
    SumStep(xs, 2);
    SumStep(xs, 3);
    SumStep(xs, 4);
    SumStep(xs, 5);
    SumStep(xs, 6);
    assert xs[..7] == xs;
  }
}
