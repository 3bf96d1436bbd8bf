/** The performance report: the remote text generator when it answers, and
    otherwise the local analysis engine (trend classifier, threshold rules
    and a fixed template). */
module LlmApi {
  import opened Wrappers
  import opened Numbers
  import opened Strings
  import opened Models
  import opened Seqs

  const NoKeyMessage := "Błąd: Brak klucza LLM API. Nie można wygenerować raportu."
  const FallbackMarker := "[SYSTEM ANALITYCZNY FALLBACK] "

  /** What the single call to the remote chat-completion endpoint produced:
      the generated message content, or any failure on the way (transport,
      timeout, error status, a body without the expected fields). */
  datatype RemoteOutcome = RemoteSuccess(content: string) | RemoteFailure

  /** The configured credential passes the `not LLM_API_KEY` gate: it is set
      and not empty. */
  predicate HasKey(apiKey: Option<string>) {
    apiKey.Some? && apiKey.value != ""
  }

  // ---- trend ----

  datatype Trend = Improving | Declining | Stable | Insufficient

  /** Compares the last K/D of the history with the first, once there are at
      least three of them. */
  function Classify(history: seq<real>): (t: Trend)
    ensures t == Insufficient <==> |history| < 3
    ensures t == Improving <==> |history| >= 3 && history[|history| - 1] - history[0] > 0.1
    ensures t == Declining <==> |history| >= 3 && history[|history| - 1] - history[0] < -0.1
    ensures t == Stable <==> |history| >= 3 && -0.1 <= history[|history| - 1] - history[0] <= 0.1
  {
    if |history| >= 3 then
      var change := history[|history| - 1] - history[0];
      if change > 0.1 then Improving
      else if change < -0.1 then Declining
      else Stable
    else Insufficient
  }

  function TrendPhrase(t: Trend): string
  {
    match t
    case Improving => "wyraźny wzrost formy"
    case Declining => "niepokojący spadek formy"
    case Stable => "stabilizacja wyników"
    case Insufficient => "brak wystarczających danych do określenia trendu"
  }

  /** Only the first and the last element matter: histories of three or
      more that agree on both ends get the same label. */
  lemma ClassifyIgnoresMiddle(h: seq<real>, g: seq<real>)
    requires |h| >= 3 && |g| >= 3
    requires h[0] == g[0] && h[|h| - 1] == g[|g| - 1]
    ensures Classify(h) == Classify(g)
  {
  }

  /** Order of the labels from worst to best form. */
  function TrendRank(t: Trend): int
  {
    match t
    case Declining => 0
    case Stable => 1
    case Improving => 2
    case Insufficient => 1
  }

  /** A better latest K/D never yields a worse label. */
  lemma ClassifyMonotoneInLast(h: seq<real>, y: real)
    requires |h| >= 3 && y >= h[|h| - 1]
    ensures TrendRank(Classify(h)) <= TrendRank(Classify(h[|h| - 1 := y]))
  {
  }

  function Shift(h: seq<real>, c: real): (g: seq<real>)
    ensures |g| == |h| && forall i :: 0 <= i < |h| ==> g[i] == h[i] + c
  {
    seq(|h|, i requires 0 <= i < |h| => h[i] + c)
  }

  /** The label depends on the change only, not on the level. */
  lemma ClassifyShiftInvariant(h: seq<real>, c: real)
    ensures Classify(Shift(h, c)) == Classify(h)
  {
  }

  // ---- recommendations ----

  /** The four suggestions the threshold rules can make. */
  datatype Advice = LowSurvival | EliteMechanics | LowHeadshots | HighPrecision

  predicate IsKdAdvice(a: Advice) {
    a == LowSurvival || a == EliteMechanics
  }

  function Message(a: Advice): string
  {
    match a
    case LowSurvival =>
      "Twoja przeżywalność jest niska; skup się na grze defensywnej i unikaniu niepotrzebnych starć."
    case EliteMechanics =>
      "Twoja mechanika gry jest na bardzo wysokim poziomie; rozważ grę w bardziej wymagających ligach."
    case LowHeadshots =>
      "Niski procent HS sugeruje problemy z kontrolą odrzutu (spray control) lub celowaniem na wysokości głowy."
    case HighPrecision =>
      "Twoja precyzja jest imponująca; skup się teraz na taktycznym wykorzystaniu granatów."
  }

  const DefaultRecommendation := "Utrzymuj obecne tempo treningowe i analizuj swoje pozycjonowanie na mapie."

  /** The K/D rule: low survivability below 1.0, otherwise the elite remark
      when both K/D and HS% are high. */
  function KdAdvice(kd: real, hs: real): (r: Option<Advice>)
    ensures r.Some? ==> IsKdAdvice(r.value)
    ensures r == Some(LowSurvival) <==> kd < 1.0
    ensures r == Some(EliteMechanics) <==> kd >= 1.2 && hs >= 50.0
  {
    if kd < 1.0 then Some(LowSurvival)
    else if kd >= 1.2 && hs >= 50.0 then Some(EliteMechanics)
    else None
  }

  /** The HS% rule: low below 40, precise above 55. */
  function HsAdvice(hs: real): (r: Option<Advice>)
    ensures r.Some? ==> !IsKdAdvice(r.value)
    ensures r == Some(LowHeadshots) <==> hs < 40.0
    ensures r == Some(HighPrecision) <==> hs > 55.0
  {
    if hs < 40.0 then Some(LowHeadshots)
    else if hs > 55.0 then Some(HighPrecision)
    else None
  }

  function AsSeq(o: Option<Advice>): seq<Advice>
  {
    if o.Some? then [o.value] else []
  }

  /** The suggestions in the order the rules run: at most one per rule, the
      K/D one first. */
  function Advices(kd: real, hs: real): (r: seq<Advice>)
    ensures |r| <= 2
    ensures forall i, j :: 0 <= i < j < |r| ==> IsKdAdvice(r[i]) && !IsKdAdvice(r[j])
  {
    var k, h := AsSeq(KdAdvice(kd, hs)), AsSeq(HsAdvice(hs));
    assert forall i :: 0 <= i < |k| ==> IsKdAdvice(k[i]);
    assert forall i :: 0 <= i < |h| ==> !IsKdAdvice(h[i]);
    k + h
  }

  /** Each K/D suggestion fires exactly under its own condition, and the two
      never fire together. */
  lemma KdRulesExclusive(kd: real, hs: real)
    ensures LowSurvival in Advices(kd, hs) <==> kd < 1.0
    ensures EliteMechanics in Advices(kd, hs) <==> kd >= 1.2 && hs >= 50.0
    ensures (forall a :: a in Advices(kd, hs) ==> !IsKdAdvice(a)) <==>
      1.0 <= kd && !(kd >= 1.2 && hs >= 50.0)
    ensures !(LowSurvival in Advices(kd, hs) && EliteMechanics in Advices(kd, hs))
  {
    var k, h := AsSeq(KdAdvice(kd, hs)), AsSeq(HsAdvice(hs));
    assert Advices(kd, hs) == k + h;
    assert forall a :: a in h ==> !IsKdAdvice(a);
    if KdAdvice(kd, hs).Some? {
      assert IsKdAdvice(Advices(kd, hs)[0]);
    }
  }

  /** Each HS% suggestion fires exactly under its own condition; between 40
      and 55 inclusive neither does. */
  lemma HsRulesExclusive(kd: real, hs: real)
    ensures LowHeadshots in Advices(kd, hs) <==> hs < 40.0
    ensures HighPrecision in Advices(kd, hs) <==> hs > 55.0
    ensures (forall a :: a in Advices(kd, hs) ==> IsKdAdvice(a)) <==> 40.0 <= hs <= 55.0
  {
    var k, h := AsSeq(KdAdvice(kd, hs)), AsSeq(HsAdvice(hs));
    assert Advices(kd, hs) == k + h;
    assert forall a :: a in k ==> IsKdAdvice(a);
    if HsAdvice(hs).Some? {
      assert Advices(kd, hs)[|k|] == HsAdvice(hs).value;
    }
  }

  function Messages(advices: seq<Advice>): seq<string>
  {
    MapSeq(Message, advices)
  }

  /** The suggestion list is built by appending to an initially empty list
      as each rule fires. */
  method BuildSuggestions(kd: real, hs: real) returns (suggestions: seq<string>)
    ensures suggestions == Messages(Advices(kd, hs))
  {
    suggestions := [];
    ghost var fired: seq<Advice> := [];
    if kd < 1.0 {
      suggestions, fired := AppendAdvice(suggestions, fired, LowSurvival);
    } else if kd >= 1.2 && hs >= 50.0 {
      suggestions, fired := AppendAdvice(suggestions, fired, EliteMechanics);
    }
    assert fired == AsSeq(KdAdvice(kd, hs));
    if hs < 40.0 {
      suggestions, fired := AppendAdvice(suggestions, fired, LowHeadshots);
    } else if hs > 55.0 {
      suggestions, fired := AppendAdvice(suggestions, fired, HighPrecision);
    }
    assert fired == Advices(kd, hs);
  }

  /** One `sugestie.append(...)`: the message text goes onto the list, and
      the advice it stands for onto the record of fired rules. */
  method AppendAdvice(suggestions: seq<string>, ghost fired: seq<Advice>, a: Advice)
    returns (suggestions': seq<string>, ghost fired': seq<Advice>)
    requires suggestions == Messages(fired)
    ensures fired' == fired + [a] && suggestions' == Messages(fired')
  {
    MapSeqAppend(Message, fired, a);
    suggestions', fired' := suggestions + [Message(a)], fired + [a];
  }

  /** The suggestions joined with single spaces, or the fixed advice when
      there are none. */
  function Recommendation(kd: real, hs: real): (r: string)
    ensures Advices(kd, hs) == [] ==> r == DefaultRecommendation
    ensures Advices(kd, hs) != [] ==> r == Join(" ", Messages(Advices(kd, hs)))
  {
    var m := Messages(Advices(kd, hs));
    if m == [] then DefaultRecommendation else Join(" ", m)
  }

  /** When a rule fires, the recommendation opens with the first rule's
      message: the K/D one if any, else the HS% one. */
  lemma RecommendationLeadsWithFirstRule(kd: real, hs: real)
    requires Advices(kd, hs) != []
    ensures var first := Message(Advices(kd, hs)[0]);
      |first| <= |Recommendation(kd, hs)| && Recommendation(kd, hs)[..|first|] == first
    ensures KdAdvice(kd, hs).Some? ==> Advices(kd, hs)[0] == KdAdvice(kd, hs).value
    ensures KdAdvice(kd, hs).None? ==> Advices(kd, hs)[0] == HsAdvice(hs).value
  {
    JoinStartsWithFirst(" ", Messages(Advices(kd, hs)));
  }

  // ---- report ----

  const ReportLead := "Analiza wydajności dla gracza "
  const KdLead := ": Obecne K/D wynosi "
  const HsLead := "). Skuteczność Headshotów na poziomie "
  const RecommendationLead := "%. Rekomendacja: "

  /** The report template, filled with already formatted fields. */
  function Template(username: string, kdText: string, trendText: string, hsText: string,
                    recommendation: string): string
  {
    var lead := ReportLead + username + KdLead;
    var middle := " (" + trendText + HsLead + hsText + RecommendationLead;
    lead + kdText + middle + recommendation
  }

  /** The locally generated report: username, K/D to two places, the trend
      phrase, HS% to one place and the recommendation, in that order. */
  function LocalReport(username: string, kd: real, hs: real, history: seq<real>): string
  {
    Template(username, FormatFixed(kd, 2), TrendPhrase(Classify(history)), FormatFixed(hs, 1),
             Recommendation(kd, hs))
  }

  /** In a + b + c + d, b sits right after a and d closes the string. */
  lemma Framed(a: string, b: string, c: string, d: string)
    ensures var r := a + b + c + d;
      |a| + |b| <= |r| && r[|a|..|a| + |b|] == b && |d| <= |r| && r[|r| - |d|..] == d
  {
    var r := a + b + c + d;
    assert r == a + (b + (c + d));
  }

  /** The K/D text sits right after the lead and the username, and the
      recommendation closes the report. */
  lemma TemplateFields(username: string, kdText: string, trendText: string, hsText: string,
                       recommendation: string)
    ensures var r := Template(username, kdText, trendText, hsText, recommendation);
      var i := |ReportLead + username + KdLead|;
      i + |kdText| <= |r| && r[i..i + |kdText|] == kdText &&
      |recommendation| <= |r| && r[|r| - |recommendation|..] == recommendation
  {
    Framed(ReportLead + username + KdLead, kdText,
           " (" + trendText + HsLead + hsText + RecommendationLead, recommendation);
  }

  /** The local report tagged as produced by the fallback engine. */
  function Marked(local: string): (r: string)
    ensures |FallbackMarker| <= |r| && r[..|FallbackMarker|] == FallbackMarker
    ensures r[|FallbackMarker|..] == local
  {
    FallbackMarker + local
  }

  /** The gate and the remote/fallback split, for a given fallback text: no
      credential gives the fixed error, a remote answer is stripped, and any
      failure gives the fallback text. */
  function Orchestrate(apiKey: Option<string>, remote: RemoteOutcome, fallback: string): string
  {
    if !HasKey(apiKey) then NoKeyMessage
    else match remote
      case RemoteSuccess(content) => Strip(content)
      case RemoteFailure => fallback
  }

  /** The report the whole operation returns, given the credential, the
      remote outcome, and the snapshot and history it was asked about. */
  function PerformanceReport(apiKey: Option<string>, remote: RemoteOutcome, username: string,
                             last: StatSession, history: seq<real>): string
  {
    Orchestrate(apiKey, remote,
                Marked(LocalReport(username, KdRatio(last), HeadshotPercentage(last), history)))
  }

  /** The local analysis run when the remote call fails. */
  method FallbackReport(username: string, last: StatSession, history: seq<real>) returns (report: string)
    ensures report == Marked(LocalReport(username, KdRatio(last), HeadshotPercentage(last), history))
  {
    var kd := KdRatio(last);
    var hs := HeadshotPercentage(last);
    var trend := TrendPhrase(Classify(history));
    var suggestions := BuildSuggestions(kd, hs);
    var recommendation := if suggestions != [] then Join(" ", suggestions) else DefaultRecommendation;
    report := FallbackMarker + Template(username, FormatFixed(kd, 2), trend, FormatFixed(hs, 1), recommendation);
  }

  method GeneratePerformanceReport(apiKey: Option<string>, remote: RemoteOutcome, username: string,
                                   last: StatSession, history: seq<real>) returns (report: string)
    ensures report == PerformanceReport(apiKey, remote, username, last, history)
  {
    if !HasKey(apiKey) {
      return NoKeyMessage;
    }
    match remote
    case RemoteSuccess(content) =>
      report := Strip(content);
    case RemoteFailure =>
      report := FallbackReport(username, last, history);
  }

  /** Without a credential the fixed error comes back, whatever the remote
      service would have done and whatever the fallback would have said. */
  lemma NoKeyGate(apiKey: Option<string>, remote: RemoteOutcome, remote': RemoteOutcome,
                  fallback: string, fallback': string)
    requires !HasKey(apiKey)
    ensures Orchestrate(apiKey, remote, fallback) == NoKeyMessage
    ensures Orchestrate(apiKey, remote, fallback) == Orchestrate(apiKey, remote', fallback')
  {
  }

  /** With a credential, a remote answer is returned stripped: it carries no
      surrounding whitespace, text that has none comes back unchanged, and
      the fallback plays no part. */
  lemma RemoteSuccessStripped(apiKey: Option<string>, content: string, fallback: string, fallback': string)
    requires HasKey(apiKey)
    ensures var r := Orchestrate(apiKey, RemoteSuccess(content), fallback);
      r == Strip(content) && Strip(r) == r && r == Orchestrate(apiKey, RemoteSuccess(content), fallback')
    ensures content == [] || (!IsSpace(content[0]) && !IsSpace(content[|content| - 1])) ==>
      Orchestrate(apiKey, RemoteSuccess(content), fallback) == content
  {
    StripIdempotent(content);
    if content == [] || (!IsSpace(content[0]) && !IsSpace(content[|content| - 1])) {
      StripUntouched(content);
    }
  }

  /** With a credential, a failed remote call yields exactly the fallback. */
  lemma FailureFallsBack(apiKey: Option<string>, fallback: string)
    requires HasKey(apiKey)
    ensures Orchestrate(apiKey, RemoteFailure, fallback) == fallback
  {
  }

  /** With a credential and a failed remote call, the whole operation
      returns the marker followed by the local report. */
  lemma FailureGivesMarkedReport(apiKey: Option<string>, username: string, last: StatSession,
                                 history: seq<real>)
    requires HasKey(apiKey)
    ensures var r := PerformanceReport(apiKey, RemoteFailure, username, last, history);
      r == Marked(LocalReport(username, KdRatio(last), HeadshotPercentage(last), history)) &&
      |FallbackMarker| <= |r| && r[..|FallbackMarker|] == FallbackMarker
  {
    FailureFallsBack(apiKey, Marked(LocalReport(username, KdRatio(last), HeadshotPercentage(last), history)));
  }

  /** The history reaches the report only through its trend label. */
  lemma HistoryOnlyThroughTrend(username: string, kd: real, hs: real, h: seq<real>, g: seq<real>)
    requires Classify(h) == Classify(g)
    ensures LocalReport(username, kd, hs, h) == LocalReport(username, kd, hs, g)
  {
  }

  // ---- worked examples ----

  lemma TrendExamples()
    ensures Classify([]) == Insufficient
    ensures Classify([1.0, 1.0]) == Insufficient
    ensures Classify([1.0, 1.1, 1.2]) == Improving
    ensures Classify([1.2, 1.1, 1.0]) == Declining
    ensures Classify([1.0, 1.0, 1.05]) == Stable
  {
  }

  lemma AdviceExamples()
    ensures Advices(0.8, 30.0) == [LowSurvival, LowHeadshots]
    ensures Advices(1.5, 60.0) == [EliteMechanics, HighPrecision]
    ensures Advices(1.1, 45.0) == []
  {
  }

  /** A player "Ivan" with 100 kills, 50 deaths and 40 headshots, K/D history
      1.5, 1.8, 2.0, and a failed remote call: the report shows K/D 2.00
      with improving form, HS% 40.0, and the fixed advice, since no rule
      fires at K/D 2.0 and HS% 40.0. */
  lemma IvanExample(apiKey: Option<string>, dateFetched: int)
    requires HasKey(apiKey)
    ensures PerformanceReport(apiKey, RemoteFailure, "Ivan", StatSession(dateFetched, 100, 50, 0, 40),
                              [1.5, 1.8, 2.0]) ==
            Marked(Template("Ivan", "2.00", TrendPhrase(Improving), "40.0", DefaultRecommendation))
  {
    RatioExamples(dateFetched);
    FormatTwoPlacesExample();
    FormatOnePlaceExample();
    assert Advices(2.0, 40.0) == [];
  }
}
