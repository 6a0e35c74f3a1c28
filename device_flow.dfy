/** The polling loop of `pollForToken` (libraries/github-auth/src/device-flow.ts),
    the client side of sections 3.4 and 3.5 of RFC 8628 (OAuth 2.0 Device
    Authorization Grant).

    The network and the clock are not modelled. Each poll is given as the
    response the token endpoint sends and the milliseconds the request took;
    time passes only by sleeping and by those requests, so the clock reading
    at each loop test follows from them. A run that needs more responses
    than there are ends as `PollsExhausted`.
 */
module DeviceFlow {

  import opened Wrappers
  import opened PollIntervals

  /** The members of a token endpoint reply that the loop tests; `None` is
      an absent member. */
  datatype TokenBody = TokenBody(accessToken: Option<string>, error: Option<string>, errorDescription: Option<string>)

  datatype PollResponse = PollResponse(ok: bool, statusText: string, body: TokenBody)

  /** One request: the response, and how long it took. */
  datatype Poll = Poll(response: PollResponse, elapsed: nat)

  /** What `requestDeviceCode` returned that the loop uses. */
  datatype DeviceCode = DeviceCode(deviceCode: string, interval: int, expiresIn: int)

  datatype PollResult = Authorized(accessToken: string) | Rejected(error: Thrown) | PollsExhausted

  /** The sleeps made, in milliseconds and in order, and how the call
      ended. */
  datatype PollRun = PollRun(result: PollResult, sleeps: seq<int>)

  /** What to do with one response. */
  datatype Decision = Accept(token: string) | Continue(slowDown: bool) | Fail(message: string)

  const TimedOut := ErrorObject("Authorization timed out. Please try again.")

  /** The `switch` over a response: a token is taken even if an error is
      present too; `authorization_pending`, `slow_down` and a body with
      neither member go on polling; every other error code fails. */
  function Decide(r: PollResponse): (d: Decision)
    ensures d.Accept? <==> r.ok && r.body.accessToken.Some?
    ensures d.Accept? ==> d.token == r.body.accessToken.value
    ensures !r.ok ==> d == Fail("Failed to poll for token: " + r.statusText)
    ensures d.Continue? <==> (r.ok && r.body.accessToken.None? &&
                              (r.body.error.None? || r.body.error.value in {"authorization_pending", "slow_down"}))
    ensures d.Continue? ==> (d.slowDown <==> r.body.error == Some("slow_down"))
  {
    if !r.ok then Fail("Failed to poll for token: " + r.statusText)
    else if r.body.accessToken.Some? then Accept(r.body.accessToken.value)
    else match r.body.error
      case None => Continue(false)
      case Some(code) =>
        if code == "authorization_pending" then Continue(false)
        else if code == "slow_down" then Continue(true)
        else if code == "expired_token" then Fail("Authorization expired. Please try again.")
        else if code == "access_denied" then Fail("Authorization denied by user.")
        else Fail(r.body.errorDescription.GetOr("Authorization failed: " + code))
  }

  /** An error code other than the four the loop knows fails with its
      description, or with the code when there is none. */
  lemma UnknownErrorCode(r: PollResponse)
    requires r.ok && r.body.accessToken.None? && r.body.error.Some?
    requires r.body.error.value !in {"authorization_pending", "slow_down", "expired_token", "access_denied"}
    ensures r.body.errorDescription.Some? ==> Decide(r) == Fail(r.body.errorDescription.value)
    ensures r.body.errorDescription.None? ==> Decide(r) == Fail("Authorization failed: " + r.body.error.value)
  {
  }

  /** Expiry and denial fail with their own, different messages. */
  lemma ExpiredAndDenied(r: PollResponse, s: PollResponse)
    requires r.ok && r.body.accessToken.None? && r.body.error == Some("expired_token")
    requires s.ok && s.body.accessToken.None? && s.body.error == Some("access_denied")
    ensures Decide(r) == Fail("Authorization expired. Please try again.")
    ensures Decide(s) == Fail("Authorization denied by user.")
    ensures Decide(r) != Decide(s)
  {
  }

  /** The run of the loop from the `k`-th poll, at clock reading `now`, with
      `intervalMs` the sleep before each request. With `perRfc` false this
      is the loop as written: `slow_down` adds one sleep of 5000 ms. With
      `perRfc` true it is the loop section 3.5 of RFC 8628 asks for: the
      interval grows by 5 seconds for all later requests. */
  function PollFrom(intervalMs: int, expiresAt: int, now: int, polls: seq<Poll>, k: nat, perRfc: bool): PollRun
    requires k <= |polls|
    decreases |polls| - k
  {
    if now >= expiresAt then PollRun(Rejected(TimedOut), [])
    else if k == |polls| then PollRun(PollsExhausted, [intervalMs])
    else match Decide(polls[k].response)
      case Accept(token) => PollRun(Authorized(token), [intervalMs])
      case Fail(message) => PollRun(Rejected(ErrorObject(message)), [intervalMs])
      case Continue(slow) =>
        var extra := if slow && !perRfc then [5000] else [];
        var next := if slow && perRfc then SlowedDown(intervalMs, 5) else intervalMs;
        var after := now + intervalMs + polls[k].elapsed + (if extra == [] then 0 else 5000);
        var rest := PollFrom(next, expiresAt, after, polls, k + 1, perRfc);
        PollRun(rest.result, [intervalMs] + extra + rest.sleeps)
  }

  /** The whole call: the interval has a one-second margin, and the deadline
      is `expires_in` seconds after the start. */
  function PollSpec(code: DeviceCode, start: int, polls: seq<Poll>, perRfc: bool): PollRun {
    PollFrom((code.interval + 1) * 1000, start + code.expiresIn * 1000, start, polls, 0, perRfc)
  }

  /** `pollForToken(deviceCode)` as written, with `start` the clock reading
      when it is called. */
  method PollForToken(code: DeviceCode, start: int, polls: seq<Poll>) returns (run: PollRun)
    ensures run == PollSpec(code, start, polls, false)
  {
    var pollInterval := (code.interval + 1) * 1000;
    var expiresAt := start + code.expiresIn * 1000;
    ghost var total := PollSpec(code, start, polls, false);
    var now := start;
    var sleeps: seq<int> := [];
    var k := 0;
    assert [] + total.sleeps == total.sleeps;
    while now < expiresAt
      invariant k <= |polls|
      invariant Reaches(total, pollInterval, expiresAt, now, polls, k, false, sleeps)
      decreases |polls| - k
    {
      ghost var before := sleeps;
      PollEnds(total, pollInterval, expiresAt, now, polls, k, false, sleeps);
      sleeps := sleeps + [pollInterval];
      if k == |polls| {
        return PollRun(PollsExhausted, sleeps);
      }
      var poll := polls[k];
      match Decide(poll.response)
      case Accept(token) =>
        return PollRun(Authorized(token), sleeps);
      case Fail(message) =>
        return PollRun(Rejected(ErrorObject(message)), sleeps);
      case Continue(slow) =>
        WrittenStep(pollInterval, expiresAt, now, polls, k, before, total);
        now := now + pollInterval + poll.elapsed;
        if slow {
          sleeps := sleeps + [5000];
          now := now + 5000;
        }
        k := k + 1;
    }
    PollEnds(total, pollInterval, expiresAt, now, polls, k, false, sleeps);
    run := PollRun(Rejected(TimedOut), sleeps);
  }

  /** The run so far, `sleeps`, followed by the run from poll `k` at `now`
      makes `total`. Stated through a quantifier so that the run from `k`
      is unfolded only where a proof names it. */
  ghost predicate Reaches(total: PollRun, intervalMs: int, expiresAt: int, now: int, polls: seq<Poll>, k: nat,
                          perRfc: bool, sleeps: seq<int>)
    requires k <= |polls|
  {
    forall j: nat :: j == k ==>
      var rest := PollFrom(intervalMs, expiresAt, now, polls, j, perRfc);
      total == PollRun(rest.result, sleeps + rest.sleeps)
  }

  /** What `Reaches` gives when the loop stops at poll `k`. */
  lemma PollEnds(total: PollRun, intervalMs: int, expiresAt: int, now: int, polls: seq<Poll>, k: nat,
                 perRfc: bool, sleeps: seq<int>)
    requires k <= |polls| && Reaches(total, intervalMs, expiresAt, now, polls, k, perRfc, sleeps)
    ensures now >= expiresAt ==> total == PollRun(Rejected(TimedOut), sleeps)
    ensures now < expiresAt && k == |polls| ==> total == PollRun(PollsExhausted, sleeps + [intervalMs])
    ensures now < expiresAt && k < |polls| && Decide(polls[k].response).Accept? ==>
      total == PollRun(Authorized(Decide(polls[k].response).token), sleeps + [intervalMs])
    ensures now < expiresAt && k < |polls| && Decide(polls[k].response).Fail? ==>
      total == PollRun(Rejected(ErrorObject(Decide(polls[k].response).message)), sleeps + [intervalMs])
    ensures now < expiresAt && k < |polls| && Decide(polls[k].response).Continue? ==>
      var rest := PollFrom(intervalMs, expiresAt, now, polls, k, perRfc);
      total == PollRun(rest.result, sleeps + rest.sleeps)
  {
    var rest := PollFrom(intervalMs, expiresAt, now, polls, k, perRfc);
    assert total == PollRun(rest.result, sleeps + rest.sleeps);
    assert sleeps + [] == sleeps;
  }

  /** One pass of the loop as written that neither ends nor times out. */
  lemma WrittenStep(intervalMs: int, expiresAt: int, now: int, polls: seq<Poll>, k: nat, sleeps: seq<int>, total: PollRun)
    requires k < |polls| && now < expiresAt && Decide(polls[k].response).Continue?
    requires var rest := PollFrom(intervalMs, expiresAt, now, polls, k, false);
      total == PollRun(rest.result, sleeps + rest.sleeps)
    ensures Decide(polls[k].response).slowDown ==>
      Reaches(total, intervalMs, expiresAt, now + intervalMs + polls[k].elapsed + 5000, polls, k + 1, false,
              sleeps + [intervalMs] + [5000])
    ensures !Decide(polls[k].response).slowDown ==>
      Reaches(total, intervalMs, expiresAt, now + intervalMs + polls[k].elapsed, polls, k + 1, false,
              sleeps + [intervalMs])
  {
    var slow := Decide(polls[k].response).slowDown;
    var extra := if slow then [5000] else [];
    var after := now + intervalMs + polls[k].elapsed + (if slow then 5000 else 0);
    var rest := PollFrom(intervalMs, expiresAt, after, polls, k + 1, false);
    assert PollFrom(intervalMs, expiresAt, now, polls, k, false).sleeps == [intervalMs] + extra + rest.sleeps;
    assert sleeps + ([intervalMs] + extra + rest.sleeps) == sleeps + [intervalMs] + extra + rest.sleeps;
  }

  /** One pass of the loop per section 3.5 of RFC 8628 that neither ends nor
      times out. */
  lemma RfcStep(intervalMs: int, expiresAt: int, now: int, polls: seq<Poll>, k: nat, sleeps: seq<int>, total: PollRun)
    requires k < |polls| && now < expiresAt && Decide(polls[k].response).Continue?
    requires var rest := PollFrom(intervalMs, expiresAt, now, polls, k, true);
      total == PollRun(rest.result, sleeps + rest.sleeps)
    ensures Decide(polls[k].response).slowDown ==>
      Reaches(total, SlowedDown(intervalMs, 5), expiresAt, now + intervalMs + polls[k].elapsed, polls, k + 1, true,
              sleeps + [intervalMs])
    ensures !Decide(polls[k].response).slowDown ==>
      Reaches(total, intervalMs, expiresAt, now + intervalMs + polls[k].elapsed, polls, k + 1, true,
              sleeps + [intervalMs])
  {
    var slow := Decide(polls[k].response).slowDown;
    var next := if slow then SlowedDown(intervalMs, 5) else intervalMs;
    var rest := PollFrom(next, expiresAt, now + intervalMs + polls[k].elapsed, polls, k + 1, true);
    assert PollFrom(intervalMs, expiresAt, now, polls, k, true).sleeps == [intervalMs] + [] + rest.sleeps;
    assert sleeps + ([intervalMs] + [] + rest.sleeps) == sleeps + [intervalMs] + rest.sleeps;
  }

  /** The same loop with the interval kept in a `PollInterval` that each
      `slow_down` slows by 5 seconds, as section 3.5 of RFC 8628 asks. */
  method PollForTokenPerRfc(code: DeviceCode, start: int, polls: seq<Poll>) returns (run: PollRun)
    ensures run == PollSpec(code, start, polls, true)
  {
    var pace := new PollInterval(code.interval + 1);
    var expiresAt := start + code.expiresIn * 1000;
    ghost var total := PollSpec(code, start, polls, true);
    var now := start;
    var sleeps: seq<int> := [];
    var k := 0;
    assert [] + total.sleeps == total.sleeps;
    while now < expiresAt
      invariant k <= |polls|
      invariant Reaches(total, pace.intervalMs, expiresAt, now, polls, k, true, sleeps)
      decreases |polls| - k
    {
      PollEnds(total, pace.intervalMs, expiresAt, now, polls, k, true, sleeps);
      ghost var before := sleeps;
      var wait := pace.Get();
      sleeps := sleeps + [wait];
      if k == |polls| {
        return PollRun(PollsExhausted, sleeps);
      }
      var poll := polls[k];
      match Decide(poll.response)
      case Accept(token) =>
        return PollRun(Authorized(token), sleeps);
      case Fail(message) =>
        return PollRun(Rejected(ErrorObject(message)), sleeps);
      case Continue(slow) =>
        RfcStep(wait, expiresAt, now, polls, k, before, total);
        now := now + wait + poll.elapsed;
        if slow {
          pace.SlowDown(5);
        }
        k := k + 1;
    }
    PollEnds(total, pace.intervalMs, expiresAt, now, polls, k, true, sleeps);
    run := PollRun(Rejected(TimedOut), sleeps);
  }

  // Properties of a run

  /** Once the deadline is reached at the loop test, the call ends with the
      timeout error and makes no further request. */
  lemma DeadlineReached(intervalMs: int, expiresAt: int, now: int, polls: seq<Poll>, k: nat, perRfc: bool)
    requires k <= |polls| && now >= expiresAt
    ensures PollFrom(intervalMs, expiresAt, now, polls, k, perRfc) == PollRun(Rejected(TimedOut), [])
  {
  }

  /** A reply carrying `access_token` ends the call with that token at once,
      even if it carries `error` too. */
  lemma TokenEndsPolling(intervalMs: int, expiresAt: int, now: int, polls: seq<Poll>, k: nat, perRfc: bool)
    requires k < |polls| && now < expiresAt
    requires polls[k].response.ok && polls[k].response.body.accessToken.Some?
    ensures PollFrom(intervalMs, expiresAt, now, polls, k, perRfc) ==
      PollRun(Authorized(polls[k].response.body.accessToken.value), [intervalMs])
  {
  }

  /** A non-ok status fails at once with the status text. */
  lemma HttpErrorEndsPolling(intervalMs: int, expiresAt: int, now: int, polls: seq<Poll>, k: nat, perRfc: bool)
    requires k < |polls| && now < expiresAt && !polls[k].response.ok
    ensures PollFrom(intervalMs, expiresAt, now, polls, k, perRfc) ==
      PollRun(Rejected(ErrorObject("Failed to poll for token: " + polls[k].response.statusText)), [intervalMs])
  {
  }

  /** As written, every request is preceded by a sleep of the interval, and
      the only other sleeps are the 5000 ms ones after `slow_down`: the
      interval itself never changes. */
  lemma {:induction false} WrittenSleeps(intervalMs: int, expiresAt: int, now: int, polls: seq<Poll>, k: nat)
    requires k <= |polls|
    decreases |polls| - k
    ensures var run := PollFrom(intervalMs, expiresAt, now, polls, k, false);
      (run.sleeps == [] <==> now >= expiresAt) &&
      (run.sleeps != [] ==> run.sleeps[0] == intervalMs) &&
      forall i :: 0 <= i < |run.sleeps| ==> run.sleeps[i] == intervalMs || run.sleeps[i] == 5000
  {
    if now < expiresAt && k < |polls| && Decide(polls[k].response).Continue? {
      var slow := Decide(polls[k].response).slowDown;
      var after := now + intervalMs + polls[k].elapsed + (if slow then 5000 else 0);
      WrittenSleeps(intervalMs, expiresAt, after, polls, k + 1);
    }
  }

  /** Per section 3.5 of RFC 8628, the sleeps never shrink and each is at
      least the starting interval. */
  lemma {:induction false} RfcSleepsGrow(intervalMs: int, expiresAt: int, now: int, polls: seq<Poll>, k: nat)
    requires k <= |polls|
    decreases |polls| - k
    ensures var run := PollFrom(intervalMs, expiresAt, now, polls, k, true);
      (run.sleeps != [] ==> run.sleeps[0] == intervalMs) &&
      (forall i :: 0 <= i < |run.sleeps| ==> run.sleeps[i] >= intervalMs) &&
      (forall i, j :: 0 <= i < j < |run.sleeps| ==> run.sleeps[i] <= run.sleeps[j])
  {
    if now < expiresAt && k < |polls| && Decide(polls[k].response).Continue? {
      var slow := Decide(polls[k].response).slowDown;
      var next := if slow then SlowedDown(intervalMs, 5) else intervalMs;
      RfcSleepsGrow(next, expiresAt, now + intervalMs + polls[k].elapsed, polls, k + 1);
    }
  }

  /** After a `slow_down`, every later sleep is at least 5 seconds longer,
      per section 3.5 of RFC 8628. */
  lemma RfcSlowDownPersists(intervalMs: int, expiresAt: int, now: int, polls: seq<Poll>, k: nat)
    requires k < |polls| && now < expiresAt
    requires Decide(polls[k].response) == Continue(true)
    ensures var run := PollFrom(intervalMs, expiresAt, now, polls, k, true);
      forall i :: 1 <= i < |run.sleeps| ==> run.sleeps[i] >= intervalMs + 5000
  {
    var after := now + intervalMs + polls[k].elapsed;
    RfcSleepsGrow(SlowedDown(intervalMs, 5), expiresAt, after, polls, k + 1);
  }

  const Pending := Poll(PollResponse(true, "OK", TokenBody(None, Some("authorization_pending"), None)), 0)
  const SlowDownReply := Poll(PollResponse(true, "OK", TokenBody(None, Some("slow_down"), None)), 0)
  const Granted := Poll(PollResponse(true, "OK", TokenBody(Some("gho_t"), None, None)), 0)

  /** The loop as written forgets a `slow_down`: with a 5-second interval,
      the replies `slow_down`, `authorization_pending` and a token make it
      sleep 6000, 5000, 6000 and 6000 ms, so the third request follows the
      second after only 6000 ms, where section 3.5 of RFC 8628 asks for at
      least 11000. */
  lemma SlowDownForgotten()
    ensures PollSpec(DeviceCode("dc", 5, 900), 0, [SlowDownReply, Pending, Granted], false) ==
      PollRun(Authorized("gho_t"), [6000, 5000, 6000, 6000])
  {
    var polls := [SlowDownReply, Pending, Granted];
    assert Decide(polls[0].response) == Continue(true);
    assert Decide(polls[1].response) == Continue(false);
    assert PollFrom(6000, 900000, 17000, polls, 2, false) == PollRun(Authorized("gho_t"), [6000]);
    assert PollFrom(6000, 900000, 11000, polls, 1, false) == PollRun(Authorized("gho_t"), [6000, 6000]);
  }

  /** Kept in a `PollInterval`, the same replies give sleeps of 6000, 11000
      and 11000 ms. */
  lemma SlowDownKept()
    ensures PollSpec(DeviceCode("dc", 5, 900), 0, [SlowDownReply, Pending, Granted], true) ==
      PollRun(Authorized("gho_t"), [6000, 11000, 11000])
  {
    var polls := [SlowDownReply, Pending, Granted];
    assert Decide(polls[0].response) == Continue(true);
    assert Decide(polls[1].response) == Continue(false);
    assert PollFrom(11000, 900000, 17000, polls, 2, true) == PollRun(Authorized("gho_t"), [11000]);
    assert PollFrom(11000, 900000, 6000, polls, 1, true) == PollRun(Authorized("gho_t"), [11000, 11000]);
  }
}
