/**
  `fetch_pricehistory`: the three candidate URLs tried in order, each through
  `steam_get`. A candidate is given up when `steam_get` raises, when the body is not a
  JSON object, when `success` is falsy, when the rows do not fit the three columns,
  or when no row survives the cleaning. The first candidate that leaves rows gives the
  daily table.

  `pd.to_numeric(..., errors="coerce")` on a string is the oracle `parseNumber`.
*/
module Fetch {
  import opened Wrappers
  import opened Sequences
  import opened Payload
  import opened Calendar
  import opened Timestamps
  import opened Transport
  import opened PriceHistoryUrls
  import opened DailyAggregation

  /** What a candidate can end with besides a table. `BadShape` carries the width pandas saw. */
  datatype FetchError = TransportError(cause: GetError) | BadJson | BadShape(width: nat)

  /** The `RuntimeError` raised when no candidate works. It names `last_err`, which may still be `None`. */
  datatype FetchFailure = FetchFailed(last: Option<FetchError>)

  // ----- `pd.DataFrame(rows, columns=["timestamp_raw", "price", "volume"])` -----

  /** One frame row: the raw timestamp, the price and the volume cells. */
  datatype Record = Record(raw: Value, price: Value, volume: Value)

  /** The length of the longest row: the number of columns pandas builds from the rows. */
  function Width(rows: seq<seq<Value>>): (w: nat)
    ensures forall i :: 0 <= i < |rows| ==> |rows[i]| <= w
    ensures rows != [] ==> exists i :: 0 <= i < |rows| && |rows[i]| == w
    ensures rows == [] ==> w == 0
  {
    if rows == [] then 0
    else
      var w := Width(rows[1..]);
      assert forall i :: 1 <= i < |rows| ==> rows[i] == rows[1..][i - 1];
      if |rows[0]| >= w then |rows[0]| else w
  }

  /** Cell `j` of a row; a row shorter than the frame is padded with missing cells. */
  function Cell(row: seq<Value>, j: nat): Value {
    if j < |row| then row[j] else Null
  }

  function Records(rows: seq<seq<Value>>): (r: seq<Record>)
    ensures |r| == |rows|
    ensures forall i :: 0 <= i < |rows| ==> r[i] == Record(Cell(rows[i], 0), Cell(rows[i], 1), Cell(rows[i], 2))
  {
    if rows == [] then [] else [Record(Cell(rows[0], 0), Cell(rows[0], 1), Cell(rows[0], 2))] + Records(rows[1..])
  }

  /**
    The frame: no rows give an empty frame; otherwise the rows must be exactly three
    cells wide at their longest, and shorter rows are padded with missing cells.
  */
  function Frame(rows: seq<seq<Value>>): (r: Result<seq<Record>, FetchError>)
    ensures r.Err? <==> rows != [] && Width(rows) != 3
    ensures r.Err? ==> r.error == BadShape(Width(rows))
    ensures r.Ok? ==> r.value == Records(rows)
  {
    if rows == [] then Ok([])
    else if Width(rows) != 3 then Err(BadShape(Width(rows)))
    else Ok(Records(rows))
  }

  // ----- Cleaning the rows -----

  /** `pd.to_numeric(v, errors="coerce")`, with `None` for NaN. */
  function ToNumeric(v: Value, parseNumber: string -> Option<real>): Option<real> {
    match v
    case Number(x) => Some(x)
    case Text(s) => parseNumber(s)
    case Null => None
  }

  /** A row after the conversions: the parsed timestamp and the coerced price and volume, `None` for NaT or NaN. */
  datatype Converted = Converted(time: Option<DateTime>, price: Option<real>, volume: Option<real>)

  predicate ValidConverted(cs: seq<Converted>) {
    forall i :: 0 <= i < |cs| && cs[i].time.Some? ==> ValidDateTime(cs[i].time.value)
  }

  /** The `timestamp` column from `parse_history_timestamp` and the two `to_numeric` columns. */
  function Convert(recs: seq<Record>, parseNumber: string -> Option<real>): (r: seq<Converted>)
    ensures |r| == |recs| && ValidConverted(r)
    ensures forall i :: 0 <= i < |recs| ==>
              r[i] == Converted(ParseTimestamp(recs[i].raw), ToNumeric(recs[i].price, parseNumber),
                                ToNumeric(recs[i].volume, parseNumber))
  {
    if recs == [] then []
    else
      [Converted(ParseTimestamp(recs[0].raw), ToNumeric(recs[0].price, parseNumber), ToNumeric(recs[0].volume, parseNumber))]
      + Convert(recs[1..], parseNumber)
  }

  /** A converted row is kept iff none of its three cells is missing. */
  function Keep(c: Converted): (r: Option<Observation>)
    ensures r.Some? <==> c.time.Some? && c.price.Some? && c.volume.Some?
    ensures r.Some? ==> r.value == Observation(c.time.value, c.price.value, c.volume.value)
  {
    if c.time.Some? && c.price.Some? && c.volume.Some? then Some(Observation(c.time.value, c.price.value, c.volume.value))
    else None
  }

  /** The rows left after both `dropna` calls, in frame order. */
  function Survivors(cs: seq<Converted>): (r: seq<Observation>)
    requires ValidConverted(cs)
    ensures |r| <= |cs| && AllValid(r)
  {
    if cs == [] then []
    else
      assert ValidConverted(cs[1..]) by {
        forall i | 0 <= i < |cs[1..]| ensures cs[1..][i] == cs[i + 1] { }
      }
      match Keep(cs[0])
      case Some(o) => [o] + Survivors(cs[1..])
      case None => Survivors(cs[1..])
  }

  /** Every survivor comes from some row. */
  lemma {:induction false} SurvivorFromRow(cs: seq<Converted>, o: Observation)
    requires ValidConverted(cs) && o in Survivors(cs)
    ensures exists i :: 0 <= i < |cs| && Keep(cs[i]) == Some(o)
  {
    if Keep(cs[0]) != Some(o) {
      assert ValidConverted(cs[1..]) by {
        forall i | 0 <= i < |cs[1..]| ensures cs[1..][i] == cs[i + 1] { }
      }
      SurvivorFromRow(cs[1..], o);
      var i :| 0 <= i < |cs[1..]| && Keep(cs[1..][i]) == Some(o);
      assert cs[1..][i] == cs[i + 1];
    }
  }

  /** Every complete row survives. */
  lemma {:induction false} RowSurvives(cs: seq<Converted>, i: int)
    requires ValidConverted(cs) && 0 <= i < |cs| && Keep(cs[i]).Some?
    ensures Keep(cs[i]).value in Survivors(cs)
  {
    if i > 0 {
      assert ValidConverted(cs[1..]) by {
        forall k | 0 <= k < |cs[1..]| ensures cs[1..][k] == cs[k + 1] { }
      }
      RowSurvives(cs[1..], i - 1);
      assert cs[1..][i - 1] == cs[i];
    }
  }

  /** An observation survives iff some row is complete and gives it. */
  lemma SurvivorsExact(cs: seq<Converted>, o: Observation)
    requires ValidConverted(cs)
    ensures o in Survivors(cs) <==> exists i :: 0 <= i < |cs| && Keep(cs[i]) == Some(o)
  {
    if o in Survivors(cs) {
      SurvivorFromRow(cs, o);
    }
    if exists i :: 0 <= i < |cs| && Keep(cs[i]) == Some(o) {
      var i :| 0 <= i < |cs| && Keep(cs[i]) == Some(o);
      RowSurvives(cs, i);
    }
  }

  /** No row survives iff every row has a missing timestamp, price or volume. */
  lemma {:induction false} SurvivorsEmpty(cs: seq<Converted>)
    requires ValidConverted(cs)
    ensures Survivors(cs) == [] <==> forall i :: 0 <= i < |cs| ==> Keep(cs[i]).None?
  {
    if cs != [] {
      assert ValidConverted(cs[1..]) by {
        forall i | 0 <= i < |cs[1..]| ensures cs[1..][i] == cs[i + 1] { }
      }
      SurvivorsEmpty(cs[1..]);
      assert forall i :: 1 <= i < |cs| ==> cs[i] == cs[1..][i - 1];
    }
  }

  /**
    A frame row survives the cleaning iff its timestamp parses and both its price and
    its volume coerce to numbers; it then gives exactly those three values.
  */
  lemma RowKept(recs: seq<Record>, parseNumber: string -> Option<real>, i: int)
    requires 0 <= i < |recs|
    ensures var rec := recs[i];
            var k := Keep(Convert(recs, parseNumber)[i]);
            && (k.Some? <==> ParseTimestamp(rec.raw).Some? && ToNumeric(rec.price, parseNumber).Some?
                             && ToNumeric(rec.volume, parseNumber).Some?)
            && (k.Some? ==> k.value == Observation(ParseTimestamp(rec.raw).value, ToNumeric(rec.price, parseNumber).value,
                                                   ToNumeric(rec.volume, parseNumber).value))
  {
  }

  // ----- One candidate -----

  /** How one candidate ends: given up without a new error, given up with one, or with a table. */
  datatype Step = Skipped | Failed(error: FetchError) | Done(table: seq<DailyRow>)

  /** The body of the `try` for one candidate, given what `steam_get` did. */
  function CandidateStep(got: Result<Response, GetError>, parseNumber: string -> Option<real>): Step {
    match got
    case Err(e) => Failed(TransportError(e))
    case Ok(resp) =>
      match resp.body
      case Malformed => Failed(BadJson)
      case Document(success, prices) =>
        if !success then Skipped
        else
          match Frame(prices)
          case Err(e) => Failed(e)
          case Ok(recs) =>
            var obs := Survivors(Convert(recs, parseNumber));
            if obs == [] then Skipped else Done(DailyAggregate(obs))
  }

  /** A table of daily rows: at least one row, each day valid and followed by the next day. */
  predicate DailyTable(rows: seq<DailyRow>) {
    && |rows| >= 1
    && (forall i :: 0 <= i < |rows| ==> ValidDate(rows[i].day))
    && (forall i :: 0 <= i < |rows| - 1 ==> rows[i + 1].day == NextDay(rows[i].day))
  }

  /**
    A candidate gives a table exactly when the request succeeds with a successful JSON
    document whose rows fit the frame and at least one row survives; the table is
    then the daily aggregate of the survivors.
  */
  lemma CandidateDone(got: Result<Response, GetError>, parseNumber: string -> Option<real>)
    ensures CandidateStep(got, parseNumber).Done?
            <==> && got.Ok? && got.value.body.Document? && got.value.body.success
                 && Frame(got.value.body.prices).Ok?
                 && Survivors(Convert(Frame(got.value.body.prices).value, parseNumber)) != []
    ensures CandidateStep(got, parseNumber).Done? ==>
              var obs := Survivors(Convert(Frame(got.value.body.prices).value, parseNumber));
              CandidateStep(got, parseNumber).table == DailyAggregate(obs)
              && DailyTable(CandidateStep(got, parseNumber).table)
  {
    if CandidateStep(got, parseNumber).Done? {
      var obs := Survivors(Convert(Frame(got.value.body.prices).value, parseNumber));
      AggregateConsecutive(obs);
      var r := DailyAggregate(obs);
      forall i | 0 <= i < |r| ensures ValidDate(r[i].day) {
        assert r[i].day == DaysOf(obs)[i];
      }
    }
  }

  /**
    A candidate records an error exactly when `steam_get` raises (its error), the body
    is not a JSON object, or a successful document's rows do not fit the frame (the
    width pandas saw). Otherwise it is given up silently or gives a table.
  */
  lemma CandidateFailed(got: Result<Response, GetError>, parseNumber: string -> Option<real>)
    ensures var step := CandidateStep(got, parseNumber);
            && (got.Err? ==> step == Failed(TransportError(got.error)))
            && (got.Ok? && got.value.body.Malformed? ==> step == Failed(BadJson))
            && (got.Ok? && got.value.body.Document? && !got.value.body.success ==> step == Skipped)
            && (got.Ok? && got.value.body.Document? && got.value.body.success && Frame(got.value.body.prices).Err?
                ==> step == Failed(BadShape(Width(got.value.body.prices))))
            && (step.Failed? <==> got.Err? || got.value.body.Malformed?
                                  || (got.value.body.success && Frame(got.value.body.prices).Err?))
  {
  }

  /** The candidate step as a function of what `steam_get` did. */
  function Judge(parseNumber: string -> Option<real>): Result<Response, GetError> -> Step {
    got => CandidateStep(got, parseNumber)
  }

  // ----- The candidates in order -----

  /** Everything a call of `fetch_pricehistory` does, from the candidate outcomes to the requests and pauses. */
  datatype FetchTrace = FetchTrace(result: Result<seq<DailyRow>, FetchFailure>, steps: seq<Step>,
                                   sent: seq<Request>, pauses: seq<real>)

  /** The error to remember after `step`: its own when it failed, the earlier one otherwise. */
  function After(step: Step, last: Option<FetchError>): Option<FetchError> {
    if step.Failed? then Some(step.error) else last
  }

  /**
    The candidates `urls` tried in order, starting with request number `pos`, with
    `last` the error recorded so far. `exchange` says what `steam_get` does from a
    given request number on, `request` which request it repeats for a URL, and
    `judge` how a candidate ends given what `steam_get` did.
  */
  function FetchFrom(exchange: nat -> Exchange, pos: nat, urls: seq<string>, request: string -> Request,
                     judge: Result<Response, GetError> -> Step, last: Option<FetchError>): FetchTrace
    decreases |urls|
  {
    if urls == [] then FetchTrace(Err(FetchFailed(last)), [], [], [])
    else
      var x := exchange(pos);
      var here := Repeat(request(urls[0]), x.tries);
      var step := judge(x.result);
      if step.Done? then FetchTrace(Ok(step.table), [step], here, x.pauses)
      else
        var rest := FetchFrom(exchange, pos + x.tries, urls[1..], request, judge, After(step, last));
        FetchTrace(rest.result, [step] + rest.steps, here + rest.sent, x.pauses + rest.pauses)
  }

  /** The exchange `steam_get` has when it starts with request number `pos`. */
  function Exchanges(answers: nat -> Outcome): nat -> Exchange {
    (pos: nat) => GetExchange(answers, pos)
  }

  /** The headers `fetch_pricehistory` passes: the listing page as `Referer`, then the defaults. */
  function FetchHeaders(appid: int, itemName: string): map<string, string> {
    Headers(map["Referer" := ListingUrl(appid, itemName)])
  }

  /** The request `steam_get` sends for a candidate: those headers, the login cookies and the 30-second timeout. */
  function CandidateRequest(url: string, appid: int, itemName: string, cred: Credentials): Request {
    Request(url, FetchHeaders(appid, itemName), Cookies(map[], cred), RequestTimeout)
  }

  function Requests(appid: int, itemName: string, cred: Credentials): string -> Request {
    url => CandidateRequest(url, appid, itemName, cred)
  }

  /** `fetch_pricehistory(appid, currency, country, item_name, session)`, starting with request number `start`. */
  function FetchPriceHistorySpec(answers: nat -> Outcome, start: nat, appid: int, currency: int, country: string,
                                 itemName: string, cred: Credentials, parseNumber: string -> Option<real>): FetchTrace
  {
    FetchFrom(Exchanges(answers), start, BuildPriceHistoryUrls(appid, currency, country, itemName),
              Requests(appid, itemName, cred), Judge(parseNumber), None)
  }

  /** The error of the last failed step, or `last` when no step failed. */
  function LastError(steps: seq<Step>, last: Option<FetchError>): Option<FetchError>
    decreases |steps|
  {
    if steps == [] then last else LastError(steps[1..], After(steps[0], last))
  }

  /**
    The candidates are tried strictly in order, one step each, until one gives a
    table. The call returns a table iff the last step tried gives one, and no step
    before it does. When none gives a table, every candidate was tried and the
    failure names the last recorded error.
  */
  lemma {:induction false} FetchSteps(exchange: nat -> Exchange, pos: nat, urls: seq<string>, request: string -> Request,
                                      judge: Result<Response, GetError> -> Step, last: Option<FetchError>)
    ensures var t := FetchFrom(exchange, pos, urls, request, judge, last);
            && |t.steps| <= |urls|
            && (forall i :: 0 <= i < |t.steps| - 1 ==> !t.steps[i].Done?)
            && (t.result.Ok? <==> t.steps != [] && t.steps[|t.steps| - 1].Done?)
            && (t.result.Ok? ==> t.result.value == t.steps[|t.steps| - 1].table)
            && (t.result.Err? ==> |t.steps| == |urls| && t.result.error == FetchFailed(LastError(t.steps, last)))
    decreases |urls|
  {
    if urls != [] {
      var x := exchange(pos);
      var step := judge(x.result);
      if !step.Done? {
        FetchSteps(exchange, pos + x.tries, urls[1..], request, judge, After(step, last));
        var rest := FetchFrom(exchange, pos + x.tries, urls[1..], request, judge, After(step, last));
        var t := FetchFrom(exchange, pos, urls, request, judge, last);
        assert t.steps == [step] + rest.steps;
        assert forall i :: 1 <= i < |t.steps| ==> t.steps[i] == rest.steps[i - 1];
        assert t.steps[1..] == rest.steps;
      }
    }
  }

  /**
    Every request is the one for some candidate, at most `MAX_RETRIES` are sent per
    candidate, and one pause is taken per request.
  */
  lemma {:induction false} FetchRequests(exchange: nat -> Exchange, pos: nat, urls: seq<string>, request: string -> Request,
                                         judge: Result<Response, GetError> -> Step, last: Option<FetchError>)
    requires forall p :: 1 <= exchange(p).tries <= MaxRetries && |exchange(p).pauses| == exchange(p).tries
    ensures var t := FetchFrom(exchange, pos, urls, request, judge, last);
            && |t.sent| <= MaxRetries * |urls|
            && |t.pauses| == |t.sent|
            && forall i :: 0 <= i < |t.sent| ==> exists u :: u in urls && t.sent[i] == request(u)
    decreases |urls|
  {
    if urls != [] {
      var x := exchange(pos);
      var step := judge(x.result);
      var here := Repeat(request(urls[0]), x.tries);
      if !step.Done? {
        FetchRequests(exchange, pos + x.tries, urls[1..], request, judge, After(step, last));
        var rest := FetchFrom(exchange, pos + x.tries, urls[1..], request, judge, After(step, last));
        var t := FetchFrom(exchange, pos, urls, request, judge, last);
        assert t.sent == here + rest.sent;
        forall i | 0 <= i < |t.sent| ensures exists u :: u in urls && t.sent[i] == request(u) {
          if i < |here| {
            assert urls[0] in urls && t.sent[i] == request(urls[0]);
          } else {
            assert t.sent[i] == rest.sent[i - |here|];
            var u :| u in urls[1..] && rest.sent[i - |here|] == request(u);
            assert u in urls;
          }
        }
      } else {
        assert urls[0] in urls;
      }
    }
  }

  /** A table the candidates give is one `judge` gave. */
  lemma {:induction false} FetchTable(exchange: nat -> Exchange, pos: nat, urls: seq<string>, request: string -> Request,
                                      judge: Result<Response, GetError> -> Step, last: Option<FetchError>)
    requires forall got :: judge(got).Done? ==> DailyTable(judge(got).table)
    ensures var t := FetchFrom(exchange, pos, urls, request, judge, last);
            t.result.Ok? ==> DailyTable(t.result.value)
    decreases |urls|
  {
    if urls != [] {
      var x := exchange(pos);
      if !judge(x.result).Done? {
        FetchTable(exchange, pos + x.tries, urls[1..], request, judge, After(judge(x.result), last));
      }
    }
  }

  /**
    What `fetch_pricehistory` returns is a daily table with at least one row. It
    takes at most three steps and nine requests, and every request goes to one of
    the three candidate URLs with the listing page as `Referer`, the default headers
    and the login cookies.
  */
  lemma FetchPriceHistoryFacts(answers: nat -> Outcome, start: nat, appid: int, currency: int, country: string,
                               itemName: string, cred: Credentials, parseNumber: string -> Option<real>)
    ensures var t := FetchPriceHistorySpec(answers, start, appid, currency, country, itemName, cred, parseNumber);
            && (t.result.Ok? ==> DailyTable(t.result.value))
            && |t.steps| <= 3 && |t.sent| <= 9 && |t.pauses| == |t.sent|
            && forall i :: 0 <= i < |t.sent| ==>
                 && t.sent[i].url in BuildPriceHistoryUrls(appid, currency, country, itemName)
                 && t.sent[i].headers == Headers(map["Referer" := ListingUrl(appid, itemName)])
                 && t.sent[i].cookies == Cookies(map[], cred)
                 && t.sent[i].timeout == 30
  {
    var urls := BuildPriceHistoryUrls(appid, currency, country, itemName);
    var judge := Judge(parseNumber);
    var exchange := Exchanges(answers);
    var request := Requests(appid, itemName, cred);
    forall p ensures 1 <= exchange(p).tries <= MaxRetries && |exchange(p).pauses| == exchange(p).tries {
      ExchangeBounds(answers, p);
    }
    forall got | judge(got).Done? ensures DailyTable(judge(got).table) {
      CandidateDone(got, parseNumber);
    }
    FetchTable(exchange, start, urls, request, judge, None);
    FetchSteps(exchange, start, urls, request, judge, None);
    FetchRequests(exchange, start, urls, request, judge, None);
  }

  /** What a caller of `fetch_pricehistory` relies on: at most 9 requests, one pause each, and a daily table. */
  lemma FetchPriceHistoryBounds(answers: nat -> Outcome, start: nat, appid: int, currency: int, country: string,
                                itemName: string, cred: Credentials, parseNumber: string -> Option<real>)
    ensures var t := FetchPriceHistorySpec(answers, start, appid, currency, country, itemName, cred, parseNumber);
            && (t.result.Ok? ==> DailyTable(t.result.value))
            && |t.sent| <= 9 && |t.pauses| == |t.sent|
  {
    FetchPriceHistoryFacts(answers, start, appid, currency, country, itemName, cred, parseNumber);
  }

  /** The `Referer` of every request `fetch_pricehistory` sends is the item's listing page. */
  lemma FetchReferer(appid: int, itemName: string)
    ensures "Referer" in FetchHeaders(appid, itemName)
    ensures FetchHeaders(appid, itemName)["Referer"] == ListingUrl(appid, itemName)
  {
    RefererKept(map["Referer" := ListingUrl(appid, itemName)]);
  }

  // ----- The function as the source writes it -----

  /** The body of the `try` for one candidate, once `steam_get` has returned or raised. */
  method ReadCandidate(got: Result<Response, GetError>, parseNumber: string -> Option<real>) returns (step: Step)
    ensures step == CandidateStep(got, parseNumber)
  {
    if got.Err? {
      return Failed(TransportError(got.error));
    }
    var body := got.value.body;
    if body.Malformed? {
      return Failed(BadJson);
    }
    if !body.success {
      return Skipped;
    }
    var frame := Frame(body.prices);
    if frame.Err? {
      return Failed(frame.error);
    }
    var obs := Survivors(Convert(frame.value, parseNumber));
    if obs == [] {
      return Skipped;
    }
    return Done(DailyAggregate(obs));
  }

  /** One trip through the loop of `fetch_pricehistory` that gives up the candidate `urls[i]`. */
  lemma FetchFromStep(exchange: nat -> Exchange, pos: nat, urls: seq<string>, i: int, request: string -> Request,
                      judge: Result<Response, GetError> -> Step, last: Option<FetchError>)
    requires 0 <= i < |urls| && !judge(exchange(pos).result).Done?
    ensures var x := exchange(pos);
            var t := FetchFrom(exchange, pos, urls[i..], request, judge, last);
            var rest := FetchFrom(exchange, pos + x.tries, urls[i + 1..], request, judge, After(judge(x.result), last));
            && t.result == rest.result
            && t.sent == Repeat(request(urls[i]), x.tries) + rest.sent
            && t.pauses == x.pauses + rest.pauses
  {
    assert urls[i..][0] == urls[i] && urls[i..][1..] == urls[i + 1..];
  }

  /** The trip through the loop of `fetch_pricehistory` whose candidate `urls[i]` gives the table. */
  lemma FetchFromDone(exchange: nat -> Exchange, pos: nat, urls: seq<string>, i: int, request: string -> Request,
                      judge: Result<Response, GetError> -> Step, last: Option<FetchError>)
    requires 0 <= i < |urls| && judge(exchange(pos).result).Done?
    ensures var x := exchange(pos);
            var t := FetchFrom(exchange, pos, urls[i..], request, judge, last);
            && t.result == Ok(judge(x.result).table)
            && t.sent == Repeat(request(urls[i]), x.tries)
            && t.pauses == x.pauses
  {
    assert urls[i..][0] == urls[i];
  }

  /**
    The view of `steam_get` and of the candidate body that the loop of
    `fetch_pricehistory` is proved against. The triggers keep the verifier from
    unfolding `GetExchange`, `CandidateRequest` and `CandidateStep` wherever the
    three functions are applied.
  */
  ghost predicate Agrees(answers: nat -> Outcome, exchange: nat -> Exchange, request: string -> Request, judge: Result<Response, GetError> -> Step,
                         appid: int, itemName: string, cred: Credentials, parseNumber: string -> Option<real>)
  {
    && (forall p {:trigger GetExchange(answers, p)} :: exchange(p) == GetExchange(answers, p))
    && (forall u {:trigger CandidateRequest(u, appid, itemName, cred)} :: request(u) == CandidateRequest(u, appid, itemName, cred))
    && (forall got {:trigger CandidateStep(got, parseNumber)} :: judge(got) == CandidateStep(got, parseNumber))
  }

  /** The `try` block for one candidate: `steam_get` with the listing page as `Referer`, then the candidate's body. */
  method TryCandidate(c: Client, url: string, appid: int, itemName: string, cred: Credentials,
                      parseNumber: string -> Option<real>, ghost exchange: nat -> Exchange,
                      ghost request: string -> Request, ghost judge: Result<Response, GetError> -> Step)
    returns (step: Step)
    requires Agrees(c.answers, exchange, request, judge, appid, itemName, cred, parseNumber)
    modifies c
    ensures var x := exchange(|old(c.sent)|);
            && step == judge(x.result)
            && c.sent == old(c.sent) + Repeat(request(url), x.tries)
            && c.slept == old(c.slept) + x.pauses
  {
    var got := SteamGet(c, url, map["Referer" := ListingUrl(appid, itemName)], map[], cred);
    step := ReadCandidate(got, parseNumber);
    assert CandidateRequest(url, appid, itemName, cred)
           == Request(url, Headers(map["Referer" := ListingUrl(appid, itemName)]), Cookies(map[], cred), RequestTimeout);
  }

  /**
    The `for url in ...` loop of `fetch_pricehistory` over the candidates `urls`, with
    `last_err` recording the error of each candidate that raised.
  */
  method TryCandidates(c: Client, urls: seq<string>, appid: int, itemName: string, cred: Credentials,
                       parseNumber: string -> Option<real>, ghost exchange: nat -> Exchange,
                       ghost request: string -> Request, ghost judge: Result<Response, GetError> -> Step)
    returns (r: Result<seq<DailyRow>, FetchFailure>)
    requires Agrees(c.answers, exchange, request, judge, appid, itemName, cred, parseNumber)
    modifies c
    ensures var t := FetchFrom(exchange, |old(c.sent)|, urls, request, judge, None);
            && r == t.result
            && c.sent == old(c.sent) + t.sent
            && c.slept == old(c.slept) + t.pauses
  {
    ghost var pos := |c.sent|;
    ghost var whole := FetchFrom(exchange, pos, urls, request, judge, None);
    var lastErr: Option<FetchError> := None;
    var i := 0;
    assert urls[i..] == urls;
    while i < |urls|
      invariant 0 <= i <= |urls| && pos == |c.sent|
      invariant var t := FetchFrom(exchange, pos, urls[i..], request, judge, lastErr);
                && whole.result == t.result
                && old(c.sent) + whole.sent == c.sent + t.sent
                && old(c.slept) + whole.pauses == c.slept + t.pauses
    {
      ghost var x := exchange(pos);
      ghost var sent0, slept0 := c.sent, c.slept;
      var step := TryCandidate(c, urls[i], appid, itemName, cred, parseNumber, exchange, request, judge);
      if step.Done? {
        FetchFromDone(exchange, pos, urls, i, request, judge, lastErr);
        return Ok(step.table);
      }
      FetchFromStep(exchange, pos, urls, i, request, judge, lastErr);
      ghost var rest := FetchFrom(exchange, pos + x.tries, urls[i + 1..], request, judge, After(step, lastErr));
      AppendAssociative(sent0, Repeat(request(urls[i]), x.tries), rest.sent);
      AppendAssociative(slept0, x.pauses, rest.pauses);
      pos := pos + x.tries;
      lastErr := After(step, lastErr);
      i := i + 1;
    }
    return Err(FetchFailed(lastErr));
  }

  /** `fetch_pricehistory(appid, currency, country, item_name, session)`; `cred` is the login cookies from the environment. */
  method FetchPriceHistory(c: Client, appid: int, currency: int, country: string, itemName: string,
                           cred: Credentials, parseNumber: string -> Option<real>)
    returns (r: Result<seq<DailyRow>, FetchFailure>)
    modifies c
    ensures var t := FetchPriceHistorySpec(c.answers, |old(c.sent)|, appid, currency, country, itemName, cred, parseNumber);
            && r == t.result
            && c.sent == old(c.sent) + t.sent
            && c.slept == old(c.slept) + t.pauses
  {
    var urls := BuildPriceHistoryUrls(appid, currency, country, itemName);
    r := TryCandidates(c, urls, appid, itemName, cred, parseNumber,
                       Exchanges(c.answers), Requests(appid, itemName, cred), Judge(parseNumber));
  }
}
