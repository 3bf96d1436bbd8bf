# cs2_tracker: the performance report and the numbers that feed it

A Dafny model of the decision logic in the CS2 statistics tracker. It covers:

- **`generate_performance_report`**: the credential gate, the remote text generator, and the local fallback analysis the tracker falls back on when the remote service fails. That analysis has a trend classifier over the K/D history, threshold rules that pick at most two suggestions, and a fixed Polish report template behind the `[SYSTEM ANALITYCZNY FALLBACK] ` marker.
- **`StatSession.kd_ratio` and `headshot_percentage`**: the two derived ratios of a stored snapshot. The zero-deaths quirk is kept: with no deaths the K/D is the raw kill count.
- **`map_raw_stats`**: turns the Steam user-stats list into the four counters a snapshot stores. A later duplicate overwrites an earlier one, and a missing counter becomes 0.
- **The two views' history construction**: the report view's window holds the newest five sessions, reversed into oldest-to-newest K/D order. The dashboard loop builds one date label and one K/D per session.

Modules follow the source files:

| file | module | models |
|---|---|---|
| `models.dfy` | `Models` | `tracker/models.py` |
| `steam_api.dfy` | `SteamApi` | `tracker/steam_api.py` |
| `llm_api.dfy` | `LlmApi` | `tracker/llm_api.py` |
| `views.dfy` | `Views` | `tracker/views.py` |

Supporting modules:

- `numbers.dfy`: Python's `round(x, n)` and `{x:.nf}` over exact reals, with a decimal reader as the formatter's inverse.
- `strings.dfy`: `str.strip()` with Python's whitespace set, and `str.join`.
- `seqs.dfy`: list comprehensions and `reversed`.
- `wrappers.dfy`: `Option`.

How each external part is modelled:

- **Remote chat-completion call**: an input, `RemoteSuccess(content) | RemoteFailure`. `RemoteFailure` stands for every exception the `try` block can raise.
- **API key**: `Option<string>`. `None` is an unset environment variable.
- **A player's sessions**: `Option<seq<StatSession>>` in ascending `date_fetched` order. `None` is a user without a `Player` profile.
- **Date formatting for chart labels**: a function parameter.

The imperative parts are methods proved against the specification functions:

- `BuildSuggestions` appends to an initially empty list across two if/elif blocks.
- `DashboardView` appends a label and a K/D per session in a `for` loop.
- `FallbackReport` and `GeneratePerformanceReport` compose the report as the source does.

## Model

| member | source | states |
|---|---|---|
| Models.NewSession | tracker/models.py:26-31 | a snapshot created without counters has all four counters at their column default 0 |
| Models.KdRatio | tracker/models.py:34-41 | with deaths > 0 the K/D is a whole number of hundredths (100·r is 100·kills/deaths rounded half-even) within 0.005 of kills/deaths; with deaths ≤ 0 it is the raw kill count |
| Models.HeadshotPercentage | tracker/models.py:43-48 | with kills > 0 the HS% is a whole number of hundredths within 0.005 of headshots/kills·100; with kills ≤ 0 it is 0.0 |
| Models.RatiosNonNegative | tracker/models.py:37-48 | with non-negative counters neither ratio is negative |
| Models.HeadshotPercentageBounded | tracker/models.py:46-48 | when 0 ≤ headshots ≤ kills the HS% lies in [0, 100] |
| Models.FreshSessionRatios | tracker/models.py:26-48 | a fresh snapshot has K/D 0 and HS% 0.0 |
| Models.ZeroDeathsExample | tracker/tests.py:22-31 | 10 kills and 0 deaths give K/D 10 |
| Models.RatioExamples | tracker/tests.py:33-41 | 100 kills, 50 deaths and 40 headshots give K/D 2.0 and HS% 40.0 |
| Numbers.RoundHalfEven | tracker/models.py:39 | the result is within 0.5 of x, and an exact tie goes to the even neighbour |
| Numbers.RoundHalfEvenUnique | tracker/models.py:39 | those two conditions determine the rounded integer |
| Numbers.RoundHalfEvenNegate | tracker/models.py:39 | rounding half to even is symmetric about zero |
| Numbers.Round | tracker/models.py:39 | `round(x, n)` is a whole number of 10^-n steps, namely x's step count rounded half-even; non-negative for non-negative x |
| Numbers.RoundOfInt | tracker/models.py:47 | rounding leaves an integer unchanged |
| Numbers.RoundHundredthsClose | tracker/models.py:39 | `round(x, 2)` is within 0.005 of x and 100 times it is an integer |
| Numbers.RoundHundredthsWithin | tracker/models.py:47 | rounding to hundredths keeps a value inside any interval with integer ends |
| Numbers.ScaleUnscale | tracker/llm_api.py:76-77 | multiplying by 10^n undoes dividing by 10^n |
| Numbers.UnscaleScale | tracker/llm_api.py:76-77 | dividing by 10^n undoes multiplying by 10^n |
| Numbers.NatToStringRoundTrip | tracker/llm_api.py:76-77 | the decimal digits of n read back as n |
| Numbers.FormatFixedRoundTrip | tracker/llm_api.py:76-77 | `{x:.nf}` reads back as a numeral with x's sign, exactly n places, and the value `round(x, n)` |
| Numbers.FixedDigitsRoundTrip | tracker/llm_api.py:76-77 | the unsigned digits for a step count read back as that count with n places |
| Numbers.FormatFixed | tracker/llm_api.py:76-77 | `{x:.nf}`: a minus sign exactly when x is negative, then digits; FormatFixedRoundTrip states what the text reads back as |
| Numbers.FormatTwoPlacesExample | tracker/llm_api.py:76 | `{2.0:.2f}` is "2.00" |
| Numbers.FormatOnePlaceExample | tracker/llm_api.py:77 | `{40.0:.1f}` is "40.0" |
| Strings.LeadingSpace | tracker/llm_api.py:42 | counts exactly the leading whitespace characters |
| Strings.TrailingSpace | tracker/llm_api.py:42 | counts exactly the trailing whitespace characters |
| Strings.Strip | tracker/llm_api.py:42 | `strip()` returns the cut of its input that has only whitespace outside it and does not begin or end with whitespace |
| Strings.StrippedAtUnique | tracker/llm_api.py:42 | that cut is unique |
| Strings.StripUntouched | tracker/llm_api.py:42 | text without surrounding whitespace is returned unchanged |
| Strings.StripIdempotent | tracker/llm_api.py:42 | stripping twice is stripping once |
| Strings.Join | tracker/llm_api.py:72 | `sep.join(parts)`: the parts in order with one separator between neighbours; JoinSmall and JoinStartsWithFirst state its cases |
| Strings.JoinStartsWithFirst | tracker/llm_api.py:72 | a non-empty join begins with its first part |
| Strings.JoinSmall | tracker/llm_api.py:72 | joining zero, one or two parts gives "", the part, or the two parts around one separator |
| Seqs.MapSeq | tracker/views.py:78 | a comprehension has one image per element, in order |
| Seqs.MapSeqAppend | tracker/llm_api.py:63 | mapping a list with one more element appends that element's image |
| Seqs.Reverse | tracker/views.py:78 | `reversed` puts element \|s\|-1-i at position i |
| Seqs.ReverseReverse | tracker/views.py:78 | reversing twice gives the sequence back |
| Seqs.MapSeqReverse | tracker/views.py:78 | mapping commutes with reversal |
| SteamApi.StatsDict | tracker/steam_api.py:60 | the dict's keys are exactly the names in the raw list |
| SteamApi.StatsDictLastWins | tracker/steam_api.py:60 | each name maps to the value of its last occurrence |
| SteamApi.Get | tracker/steam_api.py:64-67 | `d.get(k, default)`: the stored value when k is a key, otherwise the default |
| SteamApi.MapRawStats | tracker/steam_api.py:63-69 | the result has exactly the keys total_kills, total_deaths, total_time_played, total_headshots |
| SteamApi.MapRawStatsPresent | tracker/steam_api.py:60-67 | a model key present in the list maps to its last occurrence's value |
| SteamApi.MapRawStatsAbsent | tracker/steam_api.py:62-67 | a model key absent from the list maps to 0 |
| SteamApi.Relevant | tracker/steam_api.py:60-68 | every entry it keeps is named by a model key, and it is no longer than the raw list |
| SteamApi.StatsDictRelevant | tracker/steam_api.py:60 | for a model key, the dict of the relevant entries agrees with the full dict |
| SteamApi.IrrelevantEntriesIgnored | tracker/steam_api.py:60-68 | entries whose names are not model keys do not affect the result |
| LlmApi.HasKey | tracker/llm_api.py:14 | the credential passes `not LLM_API_KEY` exactly when it is set and not empty |
| LlmApi.Classify | tracker/llm_api.py:48-58 | insufficient iff fewer than 3 entries; improving iff last − first > 0.1; declining iff < −0.1; stable iff in [−0.1, 0.1] (all for ≥ 3 entries) |
| LlmApi.TrendPhrase | tracker/llm_api.py:51-58 | the verbatim Polish phrase for each of the four labels |
| LlmApi.ClassifyIgnoresMiddle | tracker/llm_api.py:48-50 | histories of length ≥ 3 with the same first and last entries get the same label |
| LlmApi.ClassifyMonotoneInLast | tracker/llm_api.py:50-56 | raising the latest K/D never gives a worse label |
| LlmApi.Shift | tracker/llm_api.py:50 | adds a constant to every history entry |
| LlmApi.ClassifyShiftInvariant | tracker/llm_api.py:50-56 | adding the same constant to every entry leaves the label unchanged |
| LlmApi.Message | tracker/llm_api.py:63-70 | the verbatim text of each of the four suggestions |
| LlmApi.KdAdvice | tracker/llm_api.py:62-65 | the K/D rule yields a K/D suggestion only: low survivability iff kd < 1.0, elite iff kd ≥ 1.2 and hs ≥ 50 |
| LlmApi.HsAdvice | tracker/llm_api.py:67-70 | the HS% rule yields an HS% suggestion only: low HS iff hs < 40, precision iff hs > 55 |
| LlmApi.Advices | tracker/llm_api.py:60-70 | at most two suggestions, and any K/D suggestion comes before any HS% suggestion |
| LlmApi.KdRulesExclusive | tracker/llm_api.py:62-65 | low survivability iff kd < 1.0; elite iff kd ≥ 1.2 and hs ≥ 50; no K/D suggestion iff neither holds; never both |
| LlmApi.HsRulesExclusive | tracker/llm_api.py:67-70 | low HS iff hs < 40; precision iff hs > 55; no HS suggestion iff 40 ≤ hs ≤ 55 |
| LlmApi.AppendAdvice | tracker/llm_api.py:63-70 | one append puts the fired rule's message at the end of the list |
| LlmApi.BuildSuggestions | tracker/llm_api.py:60-70 | the list built by the appends is the messages of the fired rules, in rule order |
| LlmApi.Recommendation | tracker/llm_api.py:72 | the fixed advice when no rule fires, else the messages joined with single spaces |
| LlmApi.RecommendationLeadsWithFirstRule | tracker/llm_api.py:62-72 | when a rule fires, the recommendation begins with the first fired rule's message: the K/D rule's if it fired, else the HS% rule's |
| LlmApi.Template | tracker/llm_api.py:74-79 | the report text with the username, K/D text, trend phrase, HS% text and recommendation in the source's fixed order and surrounding words |
| LlmApi.LocalReport | tracker/llm_api.py:44-79 | the template filled with K/D to two places, the trend phrase of the history, HS% to one place and the recommendation |
| LlmApi.TemplateFields | tracker/llm_api.py:74-79 | the formatted K/D sits right after the lead and the username, and the recommendation closes the report |
| LlmApi.Marked | tracker/llm_api.py:80 | the fallback report is the marker followed by exactly the local report |
| LlmApi.Orchestrate | tracker/llm_api.py:14-43 | the gate's fixed error without a credential, else the stripped remote answer, else the fallback text; NoKeyGate, RemoteSuccessStripped and FailureFallsBack state each branch |
| LlmApi.PerformanceReport | tracker/llm_api.py:9-80 | the orchestration with the marked local report on the snapshot's K/D and HS% as its fallback |
| LlmApi.NoKeyGate | tracker/llm_api.py:14-15 | without a credential the result is the fixed error, whatever the remote outcome and the local report |
| LlmApi.RemoteSuccessStripped | tracker/llm_api.py:37-42 | with a credential, a remote answer comes back stripped, has no surrounding whitespace, comes back unchanged when it had none, and does not depend on the fallback |
| LlmApi.FailureFallsBack | tracker/llm_api.py:43 | with a credential, the orchestration returns exactly the given fallback text on a failed remote call |
| LlmApi.FailureGivesMarkedReport | tracker/llm_api.py:43-80 | with a credential and a failed remote call, the whole operation returns the marker followed by the local report, so the result starts with `[SYSTEM ANALITYCZNY FALLBACK] ` |
| LlmApi.HistoryOnlyThroughTrend | tracker/llm_api.py:47-79 | two histories with the same label give the same local report |
| LlmApi.FallbackReport | tracker/llm_api.py:44-80 | the local analysis yields the marked template filled with the formatted K/D, the trend phrase, the formatted HS% and the recommendation |
| LlmApi.GeneratePerformanceReport | tracker/llm_api.py:9-80 | the whole operation returns the gate's error, the stripped remote answer, or the marked local report |
| LlmApi.TrendExamples | tracker/llm_api.py:48-58 | [] and two entries are insufficient; 1.0→1.2 improving; 1.2→1.0 declining; 1.0→1.05 stable |
| LlmApi.AdviceExamples | tracker/llm_api.py:60-70 | (0.8, 30) fires both low rules; (1.5, 60) fires both high rules; (1.1, 45) fires none |
| LlmApi.IvanExample | tracker/llm_api.py:44-80 | 100/50/40 with history 1.5, 1.8, 2.0 and a failed call give the marked report with "2.00", improving form, "40.0" and the fixed advice |
| Views.GenerateReportView | tracker/views.py:70-88 | the no-profile error page, the no-data error page for no sessions, else the report page on the newest session and its history; NoSessionsNoReport and ReportViewUsesWindow state each case |
| Views.RecentSessions | tracker/views.py:74 | the newest min(5, n) sessions, newest first |
| Views.Window | tracker/views.py:74 | the window has min(5, n) sessions |
| Views.HistoryData | tracker/views.py:78 | the K/D of the recent sessions in reverse, oldest first; HistoryIsWindowKd states what it equals |
| Views.HistoryIsWindowKd | tracker/views.py:74-78 | the history is the K/D of the last min(5, n) sessions in ascending date order, with min(5, n) entries, and it is the reverse of the newest-first K/D list |
| Views.HistoryEndsWithNewest | tracker/views.py:77-78 | the session reported on is the newest one, and its K/D ends the history |
| Views.WindowIsNewest | tracker/views.py:74 | with date-ordered sessions, no session outside the window is newer than one in it, and the window is date-ordered |
| Views.NoSessionsNoReport | tracker/views.py:70-88 | no sessions gives the no-data error page, and no profile gives the no-profile error page |
| Views.ReportViewUsesWindow | tracker/views.py:74-85 | with sessions, the page shows the report on the newest session with the window's K/D history |
| Views.Labels | tracker/views.py:52 | one formatted date per session, in order |
| Views.Dashboard | tracker/views.py:46-66 | the chart context: without a profile no session and empty series, else the last session, one label and one K/D per session |
| Views.DashboardView | tracker/views.py:46-60 | the loop's labels and K/D values, and the last session, are those of the dashboard context: empty with no profile |
| Views.DashboardSeries | tracker/views.py:46-56 | one label and one K/D per session in session order; the last session is the newest and is absent exactly when there are no sessions |
| Views.HistoryIsDashboardTail | tracker/views.py:54-78 | the report's history is the last min(5, n) entries of the dashboard's K/D series |

## Left out

- Floating point. K/D, HS% and the history are exact `real`s.
  - `round(x, 2)` is modelled as round-half-even on the exact value, and `{x:.nf}` as that rounding in decimal notation with a leading minus sign for negative x.
  - CPython works on the binary double nearest the decimal, so values such as 2.675 round differently there.
  - Float subtraction in the trend test can also differ at the ±0.1 boundaries. For example, the history 1.0, 1.05, 1.1 is stable over reals.
  - Signed zero. A negative ratio that rounds to zero is −0.0 in Python, and `{x:.2f}` prints it as "-0.00". Exact reals have no −0.0: for −1 kills and 1000 deaths, `KdRatio` is 0.0 and the report shows "0.00". `FormatFixed` prints "-0.00" only when its argument itself is negative.
- Models.KdRatio: Python returns an `int` for zero deaths and a `float` otherwise. The model has one `real` result, and the formatted text is the same either way.
- The HTTP request to the chat-completion endpoint (`tracker/llm_api.py:17-41`). The prompt, headers and payload only go to that service. Its answer is the `RemoteOutcome` input, and every exception in the `try` block is `RemoteFailure`.
- Import-time configuration (`tracker/llm_api.py:5`, `tracker/steam_api.py:7-13`). The key is a parameter.
- Fetching the Steam stats (`get_cs2_player_stats`, `tracker/steam_api.py:15-53`) and the `__main__` block with its `print` calls. These are network I/O and console output.
- Raw stat items without a `name` or `value` field. Python raises `KeyError` there; the model's `RawStat` always has both fields.
- Django plumbing: ORM queries, `render`/`redirect`, `login_required`, URL routing, `__str__`, templates.
  - Query results are passed as a date-ascending sequence.
  - `order_by('-date_fetched')[:5]` is taken to be the exact reverse of the ascending order. Sessions with equal timestamps may be returned in another order by the database.
  - `strftime` is a function parameter.
- The generic `except Exception` branch of the report view (`tracker/views.py:89-90`). With the remote call an input, no modelled step can raise.
- Distinctness of the four trend phrases and of the five suggestion texts. These are long verbatim literals, and no property of the model depends on their contents beyond being the fixed constants.
