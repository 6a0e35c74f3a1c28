/** `calculateFetchSinceTimestamp` (agents/repo-sentinel/src/helpers/fetch-timestamp.ts):
    where the next run starts fetching commits. The clock reading `now`, the
    environment and the directory reader `readdir` are parameters.
 */
module FetchTimestamp {

  import opened Wrappers
  import opened Calendar
  import opened ReportUtils
  import Env

  /** `toISOString` of an invalid date throws a `RangeError`. */
  const InvalidTimeValue := ErrorObject("Invalid time value")

  /** `new Date(now.getTime() - maxFetchHours * 60 * 60 * 1000)` */
  function MaxLookback(now: TimeValue, maxFetchHours: int): Option<TimeValue> {
    TimeClip(now - maxFetchHours * MsPerHour)
  }

  /** `d.toISOString()`, which throws for the invalid date. */
  function IsoOrThrow(d: Option<TimeValue>): Outcome<string> {
    match d
    case Some(t) => Returned(ToIsoString(t))
    case None => Threw(InvalidTimeValue)
  }

  /** The timestamp of the first report name, from position `i` on, that
      has one. */
  function FirstTimestampFrom(reports: seq<string>, i: nat): Option<TimeValue>
    decreases |reports| - i
  {
    if i >= |reports| then None
    else if ParseReportTimestamp(reports[i]).Some? then ParseReportTimestamp(reports[i])
    else FirstTimestampFrom(reports, i + 1)
  }

  function FirstTimestamp(reports: seq<string>): Option<TimeValue> {
    FirstTimestampFrom(reports, 0)
  }

  /** The date whose `toISOString` is returned: the report's timestamp when
      it is later than the lookback bound, the bound otherwise. */
  function FetchSinceDate(now: TimeValue, maxFetchHours: int, reports: seq<string>): (r: Option<TimeValue>)
    ensures r.Some? <==> MaxLookback(now, maxFetchHours).Some?
    ensures r.Some? ==> r.value >= MaxLookback(now, maxFetchHours).value
    ensures r == MaxLookback(now, maxFetchHours) || r == FirstTimestamp(reports)
  {
    var lookback := MaxLookback(now, maxFetchHours);
    match FirstTimestamp(reports)
    case Some(t) => if lookback.Some? && t > lookback.value then Some(t) else lookback
    case None => lookback
  }

  /** The result of `calculateFetchSinceTimestamp(maxFetchHours)`: the error
      of `getReportFilenames()` when `REPORT_DIR` is unset, whatever the
      bound; otherwise the `toISOString` of the date over the names it gives. */
  function FetchSince(now: TimeValue, maxFetchHours: int, env: Env.Environment,
                      readdir: string -> Option<seq<string>>): (r: Outcome<string>)
    ensures Env.Unset(env, "REPORT_DIR") ==> r == Threw(Env.NotSetError("REPORT_DIR"))
    ensures !Env.Unset(env, "REPORT_DIR") ==> (r.Threw? <==> MaxLookback(now, maxFetchHours).None?)
    ensures !Env.Unset(env, "REPORT_DIR") && r.Threw? ==> r.error == InvalidTimeValue
  {
    match ReportFilenames(env, readdir)
    case Threw(e) => Threw(e)
    case Returned(reports) => IsoOrThrow(FetchSinceDate(now, maxFetchHours, reports))
  }

  /** The function itself: the scan with its early return. */
  method CalculateFetchSinceTimestamp(now: TimeValue, maxFetchHours: int, env: Env.Environment,
                                      readdir: string -> Option<seq<string>>)
    returns (r: Outcome<string>)
    ensures r == FetchSince(now, maxFetchHours, env, readdir)
  {
    var maxLookback := MaxLookback(now, maxFetchHours);
    var listed := ReportFilenames(env, readdir);
    if listed.Threw? {
      return Threw(listed.error);
    }
    var reports := listed.value;
    assert FetchSince(now, maxFetchHours, env, readdir) == IsoOrThrow(FetchSinceDate(now, maxFetchHours, reports));
    if |reports| > 0 {
      var i := 0;
      while i < |reports|
        invariant 0 <= i <= |reports|
        invariant FirstTimestamp(reports) == FirstTimestampFrom(reports, i)
      {
        var timestamp := ParseReportTimestamp(reports[i]);
        if timestamp.Some? {
          if maxLookback.Some? && timestamp.value > maxLookback.value {
            return Returned(ToIsoString(timestamp.value));
          }
          return IsoOrThrow(maxLookback);
        }
        i := i + 1;
      }
    }
    return IsoOrThrow(maxLookback);
  }

  /** With no report, or none whose name has a timestamp, the start is
      `maxFetchHours` before now. */
  lemma NoTimestampUsesLookback(now: TimeValue, maxFetchHours: int, reports: seq<string>)
    requires forall i :: 0 <= i < |reports| ==> ParseReportTimestamp(reports[i]) == None
    ensures FetchSinceDate(now, maxFetchHours, reports) == MaxLookback(now, maxFetchHours)
  {
    NoTimestampFrom(reports, 0);
  }

  lemma {:induction false} NoTimestampFrom(reports: seq<string>, i: nat)
    requires forall j :: i <= j < |reports| ==> ParseReportTimestamp(reports[j]) == None
    ensures FirstTimestampFrom(reports, i) == None
    decreases |reports| - i
  {
    if i < |reports| {
      NoTimestampFrom(reports, i + 1);
    }
  }

  /** The start is never earlier than the lookback bound ... */
  lemma NeverBeforeLookback(now: TimeValue, maxFetchHours: int, reports: seq<string>)
    requires FetchSinceDate(now, maxFetchHours, reports).Some?
    ensures FetchSinceDate(now, maxFetchHours, reports).value >= now - maxFetchHours * MsPerHour
  {
  }

  /** ... and it is the first report timestamp when that is later; there is
      no upper cap, so a timestamp after `now` is returned as it is. */
  lemma LaterReportWins(now: TimeValue, maxFetchHours: int, reports: seq<string>, i: int)
    requires 0 <= i < |reports| && ParseReportTimestamp(reports[i]).Some?
    requires forall j :: 0 <= j < i ==> ParseReportTimestamp(reports[j]) == None
    requires MaxLookback(now, maxFetchHours).Some?
    requires ParseReportTimestamp(reports[i]).value > now - maxFetchHours * MsPerHour
    ensures FetchSinceDate(now, maxFetchHours, reports) == ParseReportTimestamp(reports[i])
  {
    FirstTimestampAt(reports, i);
  }

  lemma {:induction false} FirstTimestampAt(reports: seq<string>, i: int)
    requires 0 <= i < |reports| && ParseReportTimestamp(reports[i]).Some?
    requires forall j :: 0 <= j < i ==> ParseReportTimestamp(reports[j]) == None
    ensures FirstTimestamp(reports) == ParseReportTimestamp(reports[i])
  {
    FirstTimestampFromAt(reports, 0, i);
  }

  lemma {:induction false} FirstTimestampFromAt(reports: seq<string>, k: nat, i: int)
    requires k <= i < |reports| && ParseReportTimestamp(reports[i]).Some?
    requires forall j :: k <= j < i ==> ParseReportTimestamp(reports[j]) == None
    ensures FirstTimestampFrom(reports, k) == ParseReportTimestamp(reports[i])
    decreases i - k
  {
    if k < i {
      FirstTimestampFromAt(reports, k + 1, i);
    }
  }

  /** A lookback bound outside the range of dates makes the call throw,
      whatever the reports say: `RangeError` once the names are read, the
      `REPORT_DIR` error before that. */
  lemma InvalidLookbackThrows(now: TimeValue, maxFetchHours: int, env: Env.Environment,
                              readdir: string -> Option<seq<string>>)
    requires MaxLookback(now, maxFetchHours) == None
    ensures FetchSince(now, maxFetchHours, env, readdir)
      == Threw(if Env.Unset(env, "REPORT_DIR") then Env.NotSetError("REPORT_DIR") else InvalidTimeValue)
  {
  }
}
