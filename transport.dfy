/**
  `steam_get`: the default headers and the login cookies, then at most `MAX_RETRIES`
  requests with exponential back-off, and the rate-limit pause after a success.

  The HTTP session and the clock are one `Client` object. Its `answers` field says
  what the network does with the n-th request of the run. The object records every
  request it is sent and every pause it is asked to take, instead of sleeping.
*/
module Transport {
  import opened Wrappers
  import opened Strings
  import opened Payload

  const MaxRetries: nat := 3
  const RetryBackoff: real := 2.0
  const RequestsPerMinute: int := 20
  const RequestTimeout: int := 30

  /**
    What one request brings back. `ConnectionError` stands for any exception raised
    before a response exists, such as a refused connection or a timeout.
  */
  datatype Outcome = Answered(response: Response) | ConnectionError

  /** A response: its status code and its decoded body. */
  datatype Response = Response(status: int, body: Payload)

  /** One call of `session.get`: the URL, the headers, the cookies and the timeout. */
  datatype Request = Request(url: string, headers: map<string, string>, cookies: map<string, string>, timeout: int)

  /** The exception one attempt ends with. */
  datatype Failure = Unreachable | HttpError(status: int)

  /** The `RuntimeError` raised after the last attempt. It names the last failure. */
  datatype GetError = GetFailed(last: Failure)

  /** `STEAM_LOGIN_SECURE` and `sessionid`, read from the environment once, at start-up. */
  datatype Credentials = Credentials(loginSecure: string, sessionId: string)

  /** `os.getenv(name, "").strip()` for both variables. A variable that is not set is passed as `""`. */
  function CredentialsFromEnv(loginSecureEnv: string, sessionIdEnv: string): (c: Credentials)
    ensures loginSecureEnv == [] ==> c.loginSecure == []
    ensures sessionIdEnv == [] ==> c.sessionId == []
    ensures c.loginSecure != [] ==> !IsSpace(c.loginSecure[0]) && !IsSpace(c.loginSecure[|c.loginSecure| - 1])
    ensures c.sessionId != [] ==> !IsSpace(c.sessionId[0]) && !IsSpace(c.sessionId[|c.sessionId| - 1])
  {
    Credentials(Strip(loginSecureEnv), Strip(sessionIdEnv))
  }

  // ----- Headers and cookies -----

  /** The headers `steam_get` sets with `setdefault`, in the order it sets them. */
  const DefaultHeaders: seq<(string, string)> := [
    ("User-Agent", "Mozilla/5.0 SteamMarketData/2.1"),
    ("Accept", "application/json, text/javascript, */*; q=0.01"),
    ("Referer", "https://steamcommunity.com/market/"),
    ("X-Requested-With", "XMLHttpRequest")
  ]

  /** `d.setdefault(k, v)`: adds `k` with value `v` only if `d` has no entry for `k`. */
  function SetDefault(h: map<string, string>, k: string, v: string): (r: map<string, string>)
    ensures r.Keys == h.Keys + {k}
    ensures forall j :: j in h ==> r[j] == h[j]
    ensures k !in h ==> r[k] == v
  {
    if k in h then h else h[k := v]
  }

  /** `setdefault` applied for each pair of `defaults`, first to last. */
  function WithDefaults(h: map<string, string>, defaults: seq<(string, string)>): (r: map<string, string>)
    ensures forall j :: j in h ==> j in r && r[j] == h[j]
    decreases |defaults|
  {
    if defaults == [] then h
    else WithDefaults(SetDefault(h, defaults[0].0, defaults[0].1), defaults[1..])
  }

  /** The keys after the defaults are filled in: the given ones and the default ones. */
  lemma {:induction false} WithDefaultsKeys(h: map<string, string>, defaults: seq<(string, string)>)
    ensures WithDefaults(h, defaults).Keys == h.Keys + set p | p in defaults :: p.0
    decreases |defaults|
  {
    if defaults != [] {
      assert defaults == [defaults[0]] + defaults[1..];
      WithDefaultsKeys(SetDefault(h, defaults[0].0, defaults[0].1), defaults[1..]);
    }
  }

  /**
    A default whose key the caller did not give, and that no earlier default sets,
    ends up with its own value.
  */
  lemma {:induction false} WithDefaultsValue(h: map<string, string>, defaults: seq<(string, string)>, i: int)
    requires 0 <= i < |defaults| && defaults[i].0 !in h
    requires forall j :: 0 <= j < i ==> defaults[j].0 != defaults[i].0
    ensures defaults[i].0 in WithDefaults(h, defaults) && WithDefaults(h, defaults)[defaults[i].0] == defaults[i].1
    decreases |defaults|
  {
    var h1 := SetDefault(h, defaults[0].0, defaults[0].1);
    if i == 0 {
      assert defaults[0].0 in h1 && h1[defaults[0].0] == defaults[0].1;
    } else {
      assert defaults[1..][i - 1] == defaults[i];
      WithDefaultsValue(h1, defaults[1..], i - 1);
    }
  }

  /** The headers of every request: the caller's, with the defaults filled in. */
  function Headers(caller: map<string, string>): map<string, string> {
    WithDefaults(caller, DefaultHeaders)
  }

  /** The caller's headers are never overwritten, and the only keys added are the default ones. */
  lemma HeadersKeepCaller(caller: map<string, string>)
    ensures forall k :: k in caller ==> k in Headers(caller) && Headers(caller)[k] == caller[k]
    ensures Headers(caller).Keys == caller.Keys + set p | p in DefaultHeaders :: p.0
  {
    WithDefaultsKeys(caller, DefaultHeaders);
  }

  /** A default header the caller did not give is sent with its default value. */
  lemma DefaultHeaderValue(caller: map<string, string>, i: int)
    requires 0 <= i < |DefaultHeaders| && DefaultHeaders[i].0 !in caller
    ensures Headers(caller)[DefaultHeaders[i].0] == DefaultHeaders[i].1
  {
    DefaultKeysDistinct();
    WithDefaultsValue(caller, DefaultHeaders, i);
  }

  /** The four default header names are different. */
  lemma DefaultKeysDistinct()
    ensures forall i, j :: 0 <= j < i < |DefaultHeaders| ==> DefaultHeaders[j].0 != DefaultHeaders[i].0
  {
    assert DefaultHeaders[0].0[0] == 'U' && DefaultHeaders[1].0[0] == 'A';
    assert DefaultHeaders[2].0[0] == 'R' && DefaultHeaders[3].0[0] == 'X';
  }

  /** The `Referer` a caller gives survives; without one the market page is sent. */
  lemma RefererKept(caller: map<string, string>)
    ensures "Referer" in caller ==> Headers(caller)["Referer"] == caller["Referer"]
    ensures "Referer" !in caller ==> Headers(caller)["Referer"] == "https://steamcommunity.com/market/"
  {
    assert DefaultHeaders[2] == ("Referer", "https://steamcommunity.com/market/");
    if "Referer" !in caller {
      DefaultHeaderValue(caller, 2);
    }
  }

  /** The caller's cookies, plus each login cookie whose environment value is non-empty. */
  function Cookies(caller: map<string, string>, cred: Credentials): (r: map<string, string>)
    ensures cred.loginSecure != [] ==> "steamLoginSecure" in r && r["steamLoginSecure"] == cred.loginSecure
    ensures cred.sessionId != [] ==> "sessionid" in r && r["sessionid"] == cred.sessionId
    ensures r.Keys == caller.Keys
                      + (if cred.loginSecure != [] then {"steamLoginSecure"} else {})
                      + (if cred.sessionId != [] then {"sessionid"} else {})
    ensures forall k :: k in caller && k != "steamLoginSecure" && k != "sessionid" ==> r[k] == caller[k]
    ensures cred.loginSecure == [] && "steamLoginSecure" in caller ==> r["steamLoginSecure"] == caller["steamLoginSecure"]
    ensures cred.sessionId == [] && "sessionid" in caller ==> r["sessionid"] == caller["sessionid"]
  {
    var c := if cred.loginSecure != [] then caller["steamLoginSecure" := cred.loginSecure] else caller;
    if cred.sessionId != [] then c["sessionid" := cred.sessionId] else c
  }

  /** With no cookies of its own, a request carries a login cookie iff its environment value is non-empty. */
  lemma LoginCookiesIff(cred: Credentials)
    ensures "steamLoginSecure" in Cookies(map[], cred) <==> cred.loginSecure != []
    ensures "sessionid" in Cookies(map[], cred) <==> cred.sessionId != []
  {
  }

  // ----- Pauses -----

  function Pow(b: real, n: nat): real {
    if n == 0 then 1.0 else b * Pow(b, n - 1)
  }

  /** `rate_limit_sleep`'s delay, `max(60 / rpm, 0.05)`. A rate of 0 raises `ZeroDivisionError`. */
  function RateLimitDelay(rpm: real): (d: real)
    requires rpm != 0.0
    ensures d >= 0.05 && d >= 60.0 / rpm
    ensures d == 0.05 || d == 60.0 / rpm
  {
    if 60.0 / rpm >= 0.05 then 60.0 / rpm else 0.05
  }

  /** The configured rate of 20 requests a minute gives a three-second pause. */
  lemma ConfiguredRateLimit()
    ensures RateLimitDelay(RequestsPerMinute as real) == 3.0
  {
  }

  /** The back-off pauses after `k` failed attempts: `RETRY_BACKOFF^1`, ..., `RETRY_BACKOFF^k`. */
  function Backoffs(k: nat): (r: seq<real>)
    ensures |r| == k
    ensures forall i :: 0 <= i < k ==> r[i] == Pow(RetryBackoff, i + 1)
  {
    if k == 0 then [] else Backoffs(k - 1) + [Pow(RetryBackoff, k)]
  }

  /** Three failures cost 2, 4 and 8 seconds. */
  lemma BackoffsAfterAllFailures()
    ensures Backoffs(MaxRetries) == [2.0, 4.0, 8.0]
  {
    assert Pow(RetryBackoff, 1) == 2.0;
    assert Pow(RetryBackoff, 2) == 4.0;
    assert Pow(RetryBackoff, 3) == 8.0;
  }

  // ----- One attempt -----

  /** The statuses `steam_get` rejects by name before `raise_for_status`. */
  predicate Listed(status: int) {
    status in [400, 403, 429, 502, 503]
  }

  /** `raise_for_status` raises for 4xx client errors and 5xx server errors, and for nothing else. */
  predicate RaisesForStatus(status: int) {
    400 <= status < 600
  }

  /** An attempt fails when the request raises, a listed status comes back, or `raise_for_status` raises. */
  predicate Fails(o: Outcome) {
    o.ConnectionError? || Listed(o.response.status) || RaisesForStatus(o.response.status)
  }

  /**
    The named statuses are all 4xx or 5xx, so every 4xx and 5xx status is retried, the
    named ones too. A status of 600 or more is taken as a success.
  */
  lemma FailsExactly(o: Outcome)
    ensures Fails(o) <==> o.ConnectionError? || 400 <= o.response.status < 600
  {
  }

  function FailureOf(o: Outcome): Failure {
    match o
    case ConnectionError => Unreachable
    case Answered(resp) => HttpError(resp.status)
  }

  // ----- The whole exchange -----

  /** The first request number in `from..end` whose answer does not fail, when there is one. */
  function FirstSuccess(answers: nat -> Outcome, from: nat, end: nat): (r: Option<nat>)
    ensures r.Some? ==> from <= r.value < end && !Fails(answers(r.value))
    ensures r.Some? ==> forall n :: from <= n < r.value ==> Fails(answers(n))
    ensures r.None? ==> forall n :: from <= n < end ==> Fails(answers(n))
    decreases end - from
  {
    if from >= end then None
    else if !Fails(answers(from)) then Some(from)
    else FirstSuccess(answers, from + 1, end)
  }

  /** What a call of `steam_get` returns, how many requests it sends and the pauses it takes. */
  datatype Exchange = Exchange(result: Result<Response, GetError>, tries: nat, pauses: seq<real>)

  /**
    The exchange that starts with request number `start`. The first of the
    `MAX_RETRIES` answers that does not fail is returned, after one back-off pause per
    failure before it and one rate-limit pause. When all fail, the last failure is
    raised after `MAX_RETRIES` back-off pauses.
  */
  function GetExchange(answers: nat -> Outcome, start: nat): Exchange {
    match FirstSuccess(answers, start, start + MaxRetries)
    case Some(n) => Exchange(Ok(answers(n).response), n - start + 1, Backoffs(n - start) + [RateLimitDelay(RequestsPerMinute as real)])
    case None => Exchange(Err(GetFailed(FailureOf(answers(start + MaxRetries - 1)))), MaxRetries, Backoffs(MaxRetries))
  }

  /** At least one and at most `MAX_RETRIES` requests, and one pause per request. */
  lemma ExchangeBounds(answers: nat -> Outcome, start: nat)
    ensures 1 <= GetExchange(answers, start).tries <= MaxRetries
    ensures |GetExchange(answers, start).pauses| == GetExchange(answers, start).tries
  {
  }

  /**
    A call succeeds iff one of its `MAX_RETRIES` answers does not fail. Then it returns
    the first such answer, every earlier answer failed, the pauses are the back-offs
    for those failures, and there is exactly one rate-limit pause, the last one.
  */
  lemma ExchangeSuccess(answers: nat -> Outcome, start: nat)
    ensures GetExchange(answers, start).result.Ok?
            <==> exists n :: start <= n < start + MaxRetries && !Fails(answers(n))
    ensures var x := GetExchange(answers, start);
            x.result.Ok? ==>
              && answers(start + x.tries - 1) == Answered(x.result.value)
              && !RaisesForStatus(x.result.value.status)
              && (forall n :: start <= n < start + x.tries - 1 ==> Fails(answers(n)))
              && x.pauses == Backoffs(x.tries - 1) + [3.0]
  {
  }

  /** The exchange whose first `k` answers fail and whose next answer succeeds. */
  lemma ExchangeSucceedsAt(answers: nat -> Outcome, start: nat, k: nat)
    requires k < MaxRetries && !Fails(answers(start + k))
    requires forall n :: start <= n < start + k ==> Fails(answers(n))
    ensures GetExchange(answers, start)
            == Exchange(Ok(answers(start + k).response), k + 1, Backoffs(k) + [RateLimitDelay(RequestsPerMinute as real)])
  {
    assert FirstSuccess(answers, start, start + MaxRetries) == Some(start + k);
  }

  /** After `MAX_RETRIES` failed answers the call raises the last failure, having paused 2, 4 and 8 seconds. */
  lemma ExchangeFailure(answers: nat -> Outcome, start: nat)
    requires forall n :: start <= n < start + MaxRetries ==> Fails(answers(n))
    ensures GetExchange(answers, start)
            == Exchange(Err(GetFailed(FailureOf(answers(start + MaxRetries - 1)))), MaxRetries, Backoffs(MaxRetries))
    ensures GetExchange(answers, start)
            == Exchange(Err(GetFailed(FailureOf(answers(start + 2)))), 3, [2.0, 4.0, 8.0])
  {
    BackoffsAfterAllFailures();
  }

  /** `n` copies of `x`. */
  function Repeat<T>(x: T, n: nat): (r: seq<T>)
    ensures |r| == n && forall i :: 0 <= i < n ==> r[i] == x
  {
    if n == 0 then [] else Repeat(x, n - 1) + [x]
  }

  /** The HTTP session and the clock. */
  class Client {
    /** The answer the network gives to the n-th request of the run. */
    const answers: nat -> Outcome
    /** Every request sent so far. */
    var sent: seq<Request>
    /** Every pause taken so far, in seconds. */
    var slept: seq<real>

    constructor (answers: nat -> Outcome)
      ensures this.answers == answers && sent == [] && slept == []
    {
      this.answers := answers;
      sent := [];
      slept := [];
    }

    /** `session.get(...)`: the request is recorded and answered. */
    method Get(r: Request) returns (o: Outcome)
      modifies this
      ensures sent == old(sent) + [r] && slept == old(slept)
      ensures o == answers(|old(sent)|)
    {
      o := answers(|sent|);
      sent := sent + [r];
    }

    /** `time.sleep(d)`. */
    method Sleep(d: real)
      modifies this
      ensures slept == old(slept) + [d] && sent == old(sent)
    {
      slept := slept + [d];
    }
  }

  /** The four `headers.setdefault(...)` statements of `steam_get`. */
  method FillDefaultHeaders(caller: map<string, string>) returns (headers: map<string, string>)
    ensures headers == Headers(caller)
  {
    var d := DefaultHeaders;
    headers := caller;
    headers := SetDefault(headers, d[0].0, d[0].1);
    headers := SetDefault(headers, d[1].0, d[1].1);
    headers := SetDefault(headers, d[2].0, d[2].1);
    headers := SetDefault(headers, d[3].0, d[3].1);
    assert d[1..][1..][1..][1..] == [];
  }

  /** The two conditional cookie assignments of `steam_get`. */
  method AddLoginCookies(caller: map<string, string>, cred: Credentials) returns (cookies: map<string, string>)
    ensures cookies == Cookies(caller, cred)
  {
    cookies := caller;
    if cred.loginSecure != [] {
      cookies := cookies["steamLoginSecure" := cred.loginSecure];
    }
    if cred.sessionId != [] {
      cookies := cookies["sessionid" := cred.sessionId];
    }
  }

  /**
    `steam_get(url, session, headers=..., cookies=...)`: it fills in the headers and
    cookies, then sends the same request `tries` times and takes the pauses of
    `GetExchange`.
  */
  method SteamGet(c: Client, url: string, callerHeaders: map<string, string>,
                  callerCookies: map<string, string>, cred: Credentials)
    returns (r: Result<Response, GetError>)
    modifies c
    ensures var x := GetExchange(c.answers, |old(c.sent)|);
            && r == x.result
            && c.sent == old(c.sent) + Repeat(Request(url, Headers(callerHeaders), Cookies(callerCookies, cred), RequestTimeout), x.tries)
            && c.slept == old(c.slept) + x.pauses
  {
    var headers := FillDefaultHeaders(callerHeaders);
    var cookies := AddLoginCookies(callerCookies, cred);
    r := SendWithRetries(c, Request(url, headers, cookies, RequestTimeout));
  }

  /** The `while attempt < MAX_RETRIES` loop of `steam_get`, for one prepared request. */
  method SendWithRetries(c: Client, request: Request) returns (r: Result<Response, GetError>)
    modifies c
    ensures var x := GetExchange(c.answers, |old(c.sent)|);
            && r == x.result
            && c.sent == old(c.sent) + Repeat(request, x.tries)
            && c.slept == old(c.slept) + x.pauses
  {
    ghost var start := |c.sent|;
    var attempt := 0;
    var last: Option<Failure> := None;
    while attempt < MaxRetries
      invariant 0 <= attempt <= MaxRetries
      invariant c.sent == old(c.sent) + Repeat(request, attempt)
      invariant c.slept == old(c.slept) + Backoffs(attempt)
      invariant forall n :: start <= n < start + attempt ==> Fails(c.answers(n))
      invariant attempt > 0 ==> last == Some(FailureOf(c.answers(start + attempt - 1)))
    {
      var outcome := c.Get(request);
      var failure: Option<Failure> := None;
      if outcome.ConnectionError? {
        failure := Some(Unreachable);
      } else if Listed(outcome.response.status) {
        failure := Some(HttpError(outcome.response.status));
      } else if RaisesForStatus(outcome.response.status) {
        failure := Some(HttpError(outcome.response.status));
      }
      if failure.None? {
        c.Sleep(RateLimitDelay(RequestsPerMinute as real));
        ExchangeSucceedsAt(c.answers, start, attempt);
        return Ok(outcome.response);
      }
      last := failure;
      attempt := attempt + 1;
      c.Sleep(Pow(RetryBackoff, attempt));
    }
    ExchangeFailure(c.answers, start);
    return Err(GetFailed(last.value));
  }
}
