/** The two views that feed the report and the K/D chart: the report view
    builds the K/D history from the newest sessions, the dashboard lists
    every session's date label and K/D. A player's sessions are given as the
    date-ascending sequence the `order_by('date_fetched')` query returns. */
module Views {
  import opened Wrappers
  import opened Seqs
  import opened Models
  import opened LlmApi

  const NoProfileMessage := "Brak przypisanego profilu Steam."
  const NoSessionsMessage := "Brak wystarczających danych do analizy (potrzebna co najmniej jedna sesja)."

  /** At most this many sessions feed the trend analysis. */
  const WindowSize := 5

  /** What a view renders: the error template with a message, or the report
      template with the report text. */
  datatype Page = ErrorPage(message: string) | ReportPage(report: string)

  /** Sessions in non-decreasing fetch-date order. */
  predicate ByDate(sessions: seq<StatSession>) {
    forall i, j :: 0 <= i < j < |sessions| ==> sessions[i].dateFetched <= sessions[j].dateFetched
  }

  function Min(a: int, b: int): int {
    if a < b then a else b
  }

  // ---- report view ----

  /** `order_by('-date_fetched')[:5]`: the newest sessions first, at most five. */
  function RecentSessions(sessions: seq<StatSession>): (r: seq<StatSession>)
    ensures |r| == Min(WindowSize, |sessions|)
    ensures forall i :: 0 <= i < |r| ==> r[i] == sessions[|sessions| - 1 - i]
  {
    Reverse(sessions)[..Min(WindowSize, |sessions|)]
  }

  /** `[s.kd_ratio for s in reversed(recent)]`. */
  function HistoryData(recent: seq<StatSession>): seq<real>
  {
    MapSeq(KdRatio, Reverse(recent))
  }

  /** The sessions the report looks at: the last min(5, n) of the
      date-ascending sequence. */
  function Window(sessions: seq<StatSession>): (w: seq<StatSession>)
    ensures |w| == Min(WindowSize, |sessions|)
  {
    sessions[|sessions| - Min(WindowSize, |sessions|)..]
  }

  /** The history handed to the report is the K/D of the newest min(5, n)
      sessions in ascending date order, so it has min(5, n) entries. */
  lemma HistoryIsWindowKd(sessions: seq<StatSession>)
    ensures HistoryData(RecentSessions(sessions)) == MapSeq(KdRatio, Window(sessions))
    ensures |HistoryData(RecentSessions(sessions))| == Min(WindowSize, |sessions|)
    ensures HistoryData(RecentSessions(sessions)) == Reverse(MapSeq(KdRatio, RecentSessions(sessions)))
  {
    var recent := RecentSessions(sessions);
    var w := Window(sessions);
    assert recent == Reverse(w);
    ReverseReverse(w);
    MapSeqReverse(KdRatio, recent);
  }

  /** The first of the recent sessions is the newest session, and its K/D
      ends the history. */
  lemma HistoryEndsWithNewest(sessions: seq<StatSession>)
    requires sessions != []
    ensures RecentSessions(sessions)[0] == sessions[|sessions| - 1]
    ensures var h := HistoryData(RecentSessions(sessions));
      h != [] && h[|h| - 1] == KdRatio(sessions[|sessions| - 1])
  {
  }

  /** With date-ordered sessions the window holds the newest ones: no
      session left out is newer than one kept, and the window is itself in
      date order. */
  lemma WindowIsNewest(sessions: seq<StatSession>)
    requires ByDate(sessions)
    ensures ByDate(Window(sessions))
    ensures forall i, j :: 0 <= i < |sessions| - |Window(sessions)| && 0 <= j < |Window(sessions)| ==>
      sessions[i].dateFetched <= Window(sessions)[j].dateFetched
  {
    var k := |sessions| - |Window(sessions)|;
    assert forall j :: 0 <= j < |Window(sessions)| ==> Window(sessions)[j] == sessions[k + j];
  }

  /** The report view: no profile and no sessions are errors; otherwise the
      report on the newest session with the windowed history. */
  function GenerateReportView(sessions: Option<seq<StatSession>>, username: string,
                              apiKey: Option<string>, remote: RemoteOutcome): Page
  {
    match sessions
    case None => ErrorPage(NoProfileMessage)
    case Some(all) =>
      var recent := RecentSessions(all);
      if recent == [] then ErrorPage(NoSessionsMessage)
      else ReportPage(PerformanceReport(apiKey, remote, username, recent[0], HistoryData(recent)))
  }

  /** Without sessions the view shows the error page for any credential and
      remote outcome: the report is never requested. */
  lemma NoSessionsNoReport(username: string, apiKey: Option<string>, remote: RemoteOutcome)
    ensures GenerateReportView(Some([]), username, apiKey, remote) == ErrorPage(NoSessionsMessage)
    ensures GenerateReportView(None, username, apiKey, remote) == ErrorPage(NoProfileMessage)
  {
  }

  /** With sessions, the view renders the report on the newest session and
      the K/D of the window. */
  lemma ReportViewUsesWindow(sessions: seq<StatSession>, username: string,
                             apiKey: Option<string>, remote: RemoteOutcome)
    requires sessions != []
    ensures GenerateReportView(Some(sessions), username, apiKey, remote) ==
      ReportPage(PerformanceReport(apiKey, remote, username, sessions[|sessions| - 1],
                                   MapSeq(KdRatio, Window(sessions))))
  {
    HistoryIsWindowKd(sessions);
    HistoryEndsWithNewest(sessions);
  }

  // ---- dashboard ----

  /** The chart context: the newest session (if any), one date label and one
      K/D value per session. */
  datatype DashboardContext = DashboardContext(
    lastSession: Option<StatSession>,
    kdLabels: seq<string>,
    kdData: seq<real>)

  /** `strftime("%Y-%m-%d %H:%M")` of each session's fetch date, with the
      date formatting taken as a given function. */
  function Labels(sessions: seq<StatSession>, formatDate: int -> string): (r: seq<string>)
    ensures |r| == |sessions| && forall i :: 0 <= i < |r| ==> r[i] == formatDate(sessions[i].dateFetched)
  {
    seq(|sessions|, i requires 0 <= i < |sessions| => formatDate(sessions[i].dateFetched))
  }

  function LastOf(sessions: seq<StatSession>): Option<StatSession>
  {
    if sessions == [] then None else Some(sessions[|sessions| - 1])
  }

  /** What the dashboard shows: empty chart and no session without a profile. */
  function Dashboard(sessions: Option<seq<StatSession>>, formatDate: int -> string): DashboardContext
  {
    match sessions
    case None => DashboardContext(None, [], [])
    case Some(all) => DashboardContext(LastOf(all), Labels(all, formatDate), MapSeq(KdRatio, all))
  }

  /** The dashboard view: one pass over the sessions appending a label and a
      K/D value for each. */
  method DashboardView(sessions: Option<seq<StatSession>>, formatDate: int -> string)
    returns (context: DashboardContext)
    ensures context == Dashboard(sessions, formatDate)
  {
    var labels: seq<string> := [];
    var kdData: seq<real> := [];
    var lastSession: Option<StatSession> := None;
    match sessions {
      case None =>
      case Some(all) =>
        for i := 0 to |all|
          invariant |labels| == i && |kdData| == i
          invariant forall j :: 0 <= j < i ==> labels[j] == formatDate(all[j].dateFetched)
          invariant forall j :: 0 <= j < i ==> kdData[j] == KdRatio(all[j])
        {
          labels := labels + [formatDate(all[i].dateFetched)];
          kdData := kdData + [KdRatio(all[i])];
        }
        assert labels == Labels(all, formatDate) && kdData == MapSeq(KdRatio, all);
        lastSession := LastOf(all);
    }
    context := DashboardContext(lastSession, labels, kdData);
  }

  /** One label and one K/D per session, in the sessions' order; the newest
      session is the last one, and with date-ordered sessions nothing is
      newer. */
  lemma DashboardSeries(all: seq<StatSession>, formatDate: int -> string)
    requires ByDate(all)
    ensures var c := Dashboard(Some(all), formatDate);
      |c.kdLabels| == |c.kdData| == |all| &&
      (forall i :: 0 <= i < |all| ==> c.kdData[i] == KdRatio(all[i])) &&
      (all == [] <==> c.lastSession.None?) &&
      (c.lastSession.Some? ==>
         c.kdData[|all| - 1] == KdRatio(c.lastSession.value) &&
         (forall i :: 0 <= i < |all| ==> all[i].dateFetched <= c.lastSession.value.dateFetched))
  {
  }

  /** The report's history is the tail of the dashboard's K/D series. */
  lemma HistoryIsDashboardTail(all: seq<StatSession>, formatDate: int -> string)
    ensures var kd := Dashboard(Some(all), formatDate).kdData;
      HistoryData(RecentSessions(all)) == kd[|kd| - Min(WindowSize, |all|)..]
  {
    HistoryIsWindowKd(all);
  }
}
