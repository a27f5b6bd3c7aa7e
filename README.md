# Steam market price histories: a verified model

This project models the two scripts of a small Steam-market analysis tool and proves properties of the model.

The first script, `Steam_API_pricehistory.py`, downloads the price history of every item of a fixed catalog. For each item it:

- percent-encodes the item name;
- builds three candidate URLs, from the most specific (country and currency) to the least;
- asks Steam through a retrying `steam_get`, which fills in default headers and login cookies and pauses for back-off and rate limiting;
- parses the raw Steam timestamps (`"Jan 05 2021 03: +0"`) with three `strptime` formats;
- drops unusable rows;
- aggregates the rest into one row per calendar day (mean, median, volume sum);
- saves the daily table as `data/<safe name>_history.csv`.

The second script, `Home.py`, is the dashboard. It:

- loads the saved histories under display names derived from the file names;
- loads and classifies an events table (one-day "line" events and "span" events);
- offers sorted item and category lists with default selections;
- cuts the plotted items and the events to a chosen date range;
- draws the selected events over the chart, with a default three-year view window.

Modules, one per file:

| module | file | what it models |
|---|---|---|
| `Wrappers` | wrappers.dfy | `Option` and `Result` |
| `Sequences` | sequences.dfy | regrouping concatenations |
| `Strings` | strings.dfy | the Python `str` operations used: `strip`, `replace`, ASCII `lower`, ordering, `str(int)`, `split` |
| `Sorting` | sorting.dfy | `sorted` / `sort_index` as a stable insertion sort, with uniqueness of the sorted order |
| `Calendar` | calendar.dfy | dates, date-times, the next day, `DateOffset(years=n)` |
| `Payload` | payload.dfy | the decoded JSON answer of the endpoint |
| `PercentEncoding` | percent_encoding.dfy | `market_hash_quote` (section 2.1 and 2.3 of RFC 3986) and its decoder |
| `PriceHistoryUrls` | urls.dfy | `build_pricehistory_urls`, the listing `Referer` |
| `Timestamps` | timestamps.dfy | `parse_history_timestamp`, `strptime` as a directive grammar |
| `TimestampProperties` | timestamp_properties.dfy | round trips and format disjointness of the timestamp parser |
| `Transport` | transport.dfy | `steam_get`, `rate_limit_sleep`; the session and clock as a `Client` object |
| `DailyAggregation` | aggregation.dfy | `sort_index().resample("D").agg(mean, median, sum)` |
| `Fetch` | fetch.dfy | `fetch_pricehistory`: the candidate loop, the frame, the cleaning |
| `Orchestrator` | orchestrator.dfy | `main`: the catalogs, `safe_name`, `csv_path`, the run |
| `HistoryNames` | history_names.dfy | `load_histories` and the display names |
| `Events` | events.dfy | `load_events` |
| `Overlay` | figure.dfy | `add_events_to_figure`, the figure as a `Figure` object |
| `Dashboard` | dashboard.dfy | item and category lists, defaults, the plot loop, the view window |

External effects are parameters:

- **The network** is a function `answers: nat -> Outcome`, the answer to the n-th request of the run, held by the `Client` object. `Client` records every request it is sent and every pause it is asked to take.
- **Environment variables** are a `Credentials` value.
- **Oracles** stand in for the libraries:
  - `pd.to_numeric` on a string is `parseNumber`;
  - `pd.to_datetime` of an event column is taken to parse each cell on its own, as `parseDate`;
  - `read_csv` of a history file is `read`.
- **Numbers** are exact `real`s: prices, volumes and pauses.

Where the project's documentation and the code disagree, the model follows the code:

- `resample("D")` emits a row for every day between the first and the last observation. Gap days have no mean or median and a volume of 0. The documentation says days without observations give no row.
- `steam_get` retries every status from 400 to 599, not only the five it names. It accepts any status below 400 or from 600 up (`Transport.FailsExactly`). The documentation says other non-2xx statuses are fatal.
- `main` has no per-item error isolation: the first item whose fetch raises ends the run (`Orchestrator.RunStops`, `Orchestrator.MainFacts`). The documentation asks for the batch to continue.

## Model

| member | source | states |
|---|---|---|
| PercentEncoding.HexRoundTrip | Steam_API_pricehistory.py:192 | the upper-case hex digit of a nibble reads back as that nibble |
| PercentEncoding.EncodeByte | Steam_API_pricehistory.py:184-192 | an unreserved byte is kept as its own character; any other byte becomes `%` and two hex digits; only unreserved characters and `%` appear |
| PercentEncoding.QuoteBytes | Steam_API_pricehistory.py:184-192 | the encoding holds only unreserved characters and `%`, and every `%` starts a `%XX` triple |
| PercentEncoding.Utf8EncodeChar | Steam_API_pricehistory.py:192 | a character is 1 to 4 bytes; ASCII is its own byte; every byte of a non-ASCII character is at least 0x80 |
| PercentEncoding.DecodeQuoteBytes | Steam_API_pricehistory.py:184-192 | percent-decoding the encoding of any byte string gives that byte string back |
| PercentEncoding.QuoteProperties | Steam_API_pricehistory.py:184-192 | decoding `market_hash_quote(name)` gives the UTF-8 bytes of the name; space, `\|`, `/`, `&`, `=`, `?`, `#` and `+` never appear raw |
| PercentEncoding.Utf8EncodeAscii | Steam_API_pricehistory.py:192 | an ASCII name encodes to one byte per character, its code point |
| PercentEncoding.QuoteUnreserved | Steam_API_pricehistory.py:192 | a name of unreserved characters is its own encoding |
| Strings.NatToStringRoundTrip | Steam_API_pricehistory.py:272 | the decimal digits written for a number read back as that number |
| PriceHistoryUrls.BuildPriceHistoryUrls | Steam_API_pricehistory.py:258-277 | exactly three URLs; all start with the base carrying the appid and the encoded name; the last is the base; the middle one extends the base; the first ends with the middle one's extension; each is strictly longer than the next |
| PriceHistoryUrls.Candidates | Steam_API_pricehistory.py:273-277 | the same three-candidate shape on any base and any non-empty parameter texts |
| PriceHistoryUrls.ParseRenderedParams | Steam_API_pricehistory.py:272-276 | splitting a rendered query on `&` and then on the first `=` gives back its pairs, when keys hold neither `=` nor `&` and values hold no `&` |
| PriceHistoryUrls.BaseCandidateParameters | Steam_API_pricehistory.py:272 | the bare candidate carries exactly `appid` and `market_hash_name`, in that order |
| PriceHistoryUrls.CurrencyCandidateParameters | Steam_API_pricehistory.py:275 | the middle candidate carries `appid`, `market_hash_name` and `currency`, in that order |
| PriceHistoryUrls.CountryCandidateParameters | Steam_API_pricehistory.py:274 | the first candidate carries `appid`, `market_hash_name`, `country` and `currency`, in that order |
| PriceHistoryUrls.CandidateParameters | Steam_API_pricehistory.py:271-277 | the parameters of all three candidates, in order; the encoded name decodes to the item's UTF-8 bytes |
| Strings.LStrip | Steam_API_pricehistory.py:204 | the result is a suffix of the input; everything dropped is whitespace; the result starts with no whitespace |
| Strings.RStrip | Steam_API_pricehistory.py:204 | the result is a prefix of the input; everything dropped is whitespace; the result ends with no whitespace |
| Strings.StripTrimmed | Steam_API_pricehistory.py:204 | `strip()` leaves no whitespace at either end |
| Strings.NoDoubleSpaceReplace | Steam_API_pricehistory.py:207 | `replace("  ", " ")` leaves alone a text without two consecutive spaces |
| Timestamps.MonthNumber | Steam_API_pricehistory.py:210 | a month number from 1 to 12 names that month's abbreviation; 0 means the word is no abbreviation |
| Timestamps.Checked | Steam_API_pricehistory.py:212 | `datetime(...)` accepts exactly the valid date-times and returns them unchanged |
| Timestamps.Strptime | Steam_API_pricehistory.py:210-212 | every date-time `strptime` returns is valid |
| Timestamps.FirstMatch | Steam_API_pricehistory.py:210-215 | a result is what some format gives; no result means no format parses the text |
| Timestamps.FirstMatchAt | Steam_API_pricehistory.py:210-214 | when formats before `k` fail and format `k` parses, the result is format `k`'s |
| Timestamps.ParseTimestamp | Steam_API_pricehistory.py:194-215 | a value that is not a string gives `None`; every result is a valid date-time |
| Timestamps.CleanTimestamp | Steam_API_pricehistory.py:204-209 | the step-by-step clean-up computes `Clean`: strip; drop `+0` and strip again; one `replace` pass of double spaces; drop one `:` |
| Timestamps.TryFormats | Steam_API_pricehistory.py:210-215 | the loop over formats with early return is the first format that parses |
| Timestamps.ParseHistoryTimestamp | Steam_API_pricehistory.py:194-215 | the method computes `ParseTimestamp` |
| TimestampProperties.CompiledFormats | Steam_API_pricehistory.py:210 | the three formats compile to month, day, year, hour (then minute; or year-month-day hour:minute:second) directives |
| TimestampProperties.CleanSteamTail | Steam_API_pricehistory.py:204-209 | the clean-up turns `x: +0` into `x` |
| TimestampProperties.CleanPlain | Steam_API_pricehistory.py:204-209 | the clean-up leaves alone a text that ends in a digit and has no double space |
| TimestampProperties.ReadHourText | Steam_API_pricehistory.py:210-212 | `Mon DD YYYY HH` is read by the first format as month, day, year and hour |
| TimestampProperties.ReadMinuteText | Steam_API_pricehistory.py:210-212 | `Mon DD YYYY HH:MM` is read whole by the second format; the first stops before `:MM` |
| TimestampProperties.ReadIsoText | Steam_API_pricehistory.py:210-212 | `YYYY-MM-DD HH:MM:SS` is read whole by the third format, every field from its digits |
| TimestampProperties.SteamTextRoundTrip | Steam_API_pricehistory.py:202-212 | an hourly date-time written as Steam writes it, `Mon DD YYYY HH: +0`, parses back to itself, with minute and second 0 |
| TimestampProperties.MinuteTextFormats | Steam_API_pricehistory.py:210-214 | the first format rejects `Mon DD YYYY HH:MM`, and the second reads it back |
| TimestampProperties.MinuteTextRoundTrip | Steam_API_pricehistory.py:202-215 | `Mon DD YYYY HH:MM` parses back to its date-time |
| TimestampProperties.IsoTextFormats | Steam_API_pricehistory.py:210-214 | the first two formats reject `YYYY-MM-DD HH:MM:SS`, and the third reads it back |
| TimestampProperties.IsoTextRoundTrip | Steam_API_pricehistory.py:202-215 | `YYYY-MM-DD HH:MM:SS` parses back to its date-time |
| TimestampProperties.FormatsDisjoint | Steam_API_pricehistory.py:210-214 | no text is parsed by two of the formats, so their order never changes the result |
| TimestampProperties.FirstFormatOnTheHour | Steam_API_pricehistory.py:210-212 | whatever text the first format `%b %d %Y %H` accepts, the date-time it gives has minute and second 0 |
| TimestampProperties.ParsedByFirstFormat | Steam_API_pricehistory.py:202-215 | a raw timestamp whose cleaned text the first format accepts is parsed by that format, on the hour |
| TimestampProperties.SteamExample | Steam_API_pricehistory.py:202-215 | `"Jan 05 2021 03: +0"` parses to 2021-01-05 03:00:00 |
| Transport.CredentialsFromEnv | Steam_API_pricehistory.py:162-165 | an unset variable gives an empty credential; a non-empty one has no outer whitespace |
| Transport.SetDefault | Steam_API_pricehistory.py:232-235 | `setdefault` adds the key, keeps every existing value, and sets the default only for a new key |
| Transport.WithDefaultsKeys | Steam_API_pricehistory.py:232-235 | the keys after the defaults are the caller's and the default ones |
| Transport.WithDefaultsValue | Steam_API_pricehistory.py:232-235 | a default the caller did not give, and not listed earlier, ends up with its own value |
| Transport.HeadersKeepCaller | Steam_API_pricehistory.py:231-235 | caller headers are never overwritten; only the four default names are added |
| Transport.DefaultHeaderValue | Steam_API_pricehistory.py:232-235 | a default header the caller omitted is sent with its default value |
| Transport.RefererKept | Steam_API_pricehistory.py:234 | the caller's `Referer` survives; without one the market page is sent |
| Transport.Cookies | Steam_API_pricehistory.py:236-240 | each login cookie is set iff its credential is non-empty; other caller cookies are unchanged; no other key is added |
| Transport.LoginCookiesIff | Steam_API_pricehistory.py:237-240 | with no caller cookies, a login cookie is present iff its credential is non-empty |
| Transport.RateLimitDelay | Steam_API_pricehistory.py:181 | the delay is `max(60/rpm, 0.05)`: at least both, and equal to one of them |
| Transport.ConfiguredRateLimit | Steam_API_pricehistory.py:20 | the configured 20 requests a minute give a 3-second pause |
| Transport.Backoffs | Steam_API_pricehistory.py:253-255 | after k failures the back-off pauses are `2^1, ..., 2^k` |
| Transport.BackoffsAfterAllFailures | Steam_API_pricehistory.py:21-22 | three failures cost 2, 4 and 8 seconds |
| Transport.FailsExactly | Steam_API_pricehistory.py:247-249 | an attempt fails iff the connection raised or the status is from 400 to 599 |
| Transport.FirstSuccess | Steam_API_pricehistory.py:244-251 | the first answer that does not fail in a window, with every earlier one failing |
| Transport.ExchangeBounds | Steam_API_pricehistory.py:242-256 | one call sends between 1 and `MAX_RETRIES` requests, with one pause per request |
| Transport.ExchangeSuccess | Steam_API_pricehistory.py:244-251 | a call succeeds iff one of its three answers does not fail; it returns the first such answer after back-offs for the failures and one rate-limit pause |
| Transport.ExchangeSucceedsAt | Steam_API_pricehistory.py:244-251 | k failures and then a success give that response, k+1 requests, and pauses `Backoffs(k) + [3]` |
| Transport.ExchangeFailure | Steam_API_pricehistory.py:244-256 | three failures raise the last failure after pausing 2, 4 and 8 seconds |
| Transport.Client.Get | Steam_API_pricehistory.py:246 | a request is recorded and answered by the network's answer for its position |
| Transport.Client.Sleep | Steam_API_pricehistory.py:255 | a pause is recorded |
| Transport.FillDefaultHeaders | Steam_API_pricehistory.py:231-235 | the four `setdefault` statements compute `Headers` |
| Transport.AddLoginCookies | Steam_API_pricehistory.py:236-240 | the two conditional assignments compute `Cookies` |
| Transport.SendWithRetries | Steam_API_pricehistory.py:242-256 | the retry loop sends the request `tries` times, takes the exchange's pauses, and returns its result |
| Transport.SteamGet | Steam_API_pricehistory.py:217-256 | `steam_get` sends the request with the filled headers, the cookies and the 30-second timeout, as `GetExchange` says |
| Calendar.NextDayImmediate | Steam_API_pricehistory.py:324 | no valid date lies strictly between a day and the next day |
| Calendar.DaysFromTo | Steam_API_pricehistory.py:324 | the days from first to last, one step of `NextDay` apart, all in range |
| Calendar.DaysFromToCovers | Steam_API_pricehistory.py:324 | every valid date between the ends is listed |
| Calendar.DaysFromToAscending | Steam_API_pricehistory.py:324 | the listed days strictly increase |
| Calendar.MinusYears | Home.py:371 | `DateOffset(years=n)` subtraction keeps month and time, clips the day, stays valid, and is at or before the input (strictly for n > 0) |
| Sorting.Sort | Home.py:184 | the result is sorted and a permutation of the input |
| Sorting.SortedUnique | Home.py:184 | for an antisymmetric order, two sorted permutations of one multiset are equal |
| DailyAggregation.MedianBetweenMiddles | Steam_API_pricehistory.py:326 | the median lies between the two middle sorted values |
| DailyAggregation.MedianBelow | Steam_API_pricehistory.py:326 | at most half of the values lie strictly below the median |
| DailyAggregation.MedianAbove | Steam_API_pricehistory.py:326 | at most half of the values lie strictly above the median |
| DailyAggregation.MedianPermutation | Steam_API_pricehistory.py:323-326 | the median does not depend on the order of the values |
| DailyAggregation.SumPermutation | Steam_API_pricehistory.py:327 | the sum does not depend on the order of the values |
| DailyAggregation.ValuesOnEmpty | Steam_API_pricehistory.py:324 | a day has values iff some observation was made on it |
| DailyAggregation.ValuesOnPermutation | Steam_API_pricehistory.py:323 | reordering observations reorders each day's values only |
| DailyAggregation.DayRowPermutation | Steam_API_pricehistory.py:323-327 | a day's row does not depend on the order of the observations |
| DailyAggregation.SortByTime | Steam_API_pricehistory.py:323 | `sort_index()` gives a time-ordered permutation |
| DailyAggregation.DayRange | Steam_API_pricehistory.py:323-324 | the first and last observed days are valid and ordered |
| DailyAggregation.DailyAggregate | Steam_API_pricehistory.py:322-328 | one row per day of the resample range, labelled with that day |
| DailyAggregation.DayRangeBounds | Steam_API_pricehistory.py:324 | every observation lies between the first and last day |
| DailyAggregation.DayRangeObserved | Steam_API_pricehistory.py:324 | the first and last days are observed days |
| DailyAggregation.AggregateConsecutive | Steam_API_pricehistory.py:324 | each row's day is the day after the previous row's day |
| DailyAggregation.AggregateEnds | Steam_API_pricehistory.py:324-328 | the table runs from the earliest observed day to the latest |
| DailyAggregation.AggregateCovers | Steam_API_pricehistory.py:324 | every observed day has its row |
| DailyAggregation.AggregateAscending | Steam_API_pricehistory.py:324-328 | the rows are strictly ascending by day |
| DailyAggregation.AggregateRow | Steam_API_pricehistory.py:324-328 | a day with data holds sum/count, the median and the volume sum; a gap day holds no mean, no median and volume 0 |
| DailyAggregation.AggregateEmpty | Steam_API_pricehistory.py:324 | no observations give no rows |
| Fetch.Width | Steam_API_pricehistory.py:314 | the frame width is the length of the longest row, 0 for no rows |
| Fetch.Frame | Steam_API_pricehistory.py:314 | `DataFrame(rows, columns=[3 names])` raises iff there are rows and the widest is not 3 wide; shorter rows are padded |
| Fetch.Convert | Steam_API_pricehistory.py:315-318 | each row gets its parsed timestamp and its coerced price and volume |
| Fetch.Keep | Steam_API_pricehistory.py:316-319 | a row is kept iff none of its three cells is missing |
| Fetch.SurvivorsExact | Steam_API_pricehistory.py:316-319 | an observation survives iff some complete row gives it |
| Fetch.SurvivorsEmpty | Steam_API_pricehistory.py:316-321 | no row survives iff every row misses a timestamp, a price or a volume |
| Fetch.RowKept | Steam_API_pricehistory.py:315-319 | a row survives iff its timestamp parses and both numbers coerce, and it gives those values |
| Fetch.CandidateDone | Steam_API_pricehistory.py:309-329 | a candidate gives a table iff the request succeeds with a successful document whose rows fit and leave a survivor; the table is their daily aggregate |
| Fetch.CandidateFailed | Steam_API_pricehistory.py:309-332 | a transport error, a malformed body or a misfitting frame records an error; a falsy `success` skips silently |
| Fetch.FetchSteps | Steam_API_pricehistory.py:305-333 | candidates are tried in order until one gives a table; otherwise all are tried and the failure names the last recorded error |
| Fetch.FetchRequests | Steam_API_pricehistory.py:306-309 | every request is some candidate's; at most three per candidate; one pause per request |
| Fetch.FetchTable | Steam_API_pricehistory.py:320-329 | a returned table is one the candidate step gave |
| Fetch.FetchPriceHistoryFacts | Steam_API_pricehistory.py:283-333 | the result is a daily table; at most 3 steps and 9 requests; each request goes to a candidate URL with the listing `Referer`, the default headers, the login cookies and a 30 s timeout |
| Fetch.FetchReferer | Steam_API_pricehistory.py:308 | the `Referer` is the item's listing page |
| Fetch.ReadCandidate | Steam_API_pricehistory.py:310-329 | the body of `try` computes the candidate step |
| Fetch.FetchFromStep | Steam_API_pricehistory.py:306-332 | a candidate given up passes on to the next with its requests and pauses |
| Fetch.FetchFromDone | Steam_API_pricehistory.py:306-329 | a candidate that gives a table ends the loop |
| Fetch.TryCandidate | Steam_API_pricehistory.py:307-332 | one `try` sends the candidate's request as `steam_get` does and ends as the step says |
| Fetch.TryCandidates | Steam_API_pricehistory.py:305-333 | the `for url` loop does what `FetchFrom` describes, requests and pauses included |
| Fetch.FetchPriceHistory | Steam_API_pricehistory.py:283-333 | `fetch_pricehistory` returns, sends and pauses as its specification says |
| Orchestrator.CatalogsOf | Steam_API_pricehistory.py:345-383 | four catalogs, each with the prefix `""`, `CS_`, `Dota_` or `TF2_` |
| Orchestrator.SafeNameClean | Steam_API_pricehistory.py:350 | no space, bar or slash survives; every other character does |
| Orchestrator.SafeNameLength | Steam_API_pricehistory.py:350 | the length is the input's minus its bars |
| Orchestrator.CsvPathInDataDir | Steam_API_pricehistory.py:351-381 | with the four prefixes, the path is `data/` followed by `prefix + safe name + _history.csv`, with no further `/` |
| Orchestrator.CatalogJobs | Steam_API_pricehistory.py:345-348 | one job per item of a catalog, in order |
| Orchestrator.CatalogsJobs | Steam_API_pricehistory.py:151-160 | the other three catalogs are empty, so the jobs are those of `ITEMS` for app 730 without a prefix |
| Orchestrator.RunStops | Steam_API_pricehistory.py:345-352 | the run saves every job iff nothing failed; otherwise it stops at the job after the last saved one |
| Orchestrator.RunPath | Steam_API_pricehistory.py:350-352 | the k-th saved file is under the path of the k-th job |
| Orchestrator.RunTables | Steam_API_pricehistory.py:348-352 | every saved table is one a fetch returned |
| Orchestrator.RunRequests | Steam_API_pricehistory.py:345-348 | the run sends at most the per-fetch bound times the number of jobs, with one pause per request |
| Orchestrator.FetcherBounds | Steam_API_pricehistory.py:348 | each fetch of the run sends at most 9 requests, one pause each, and returns daily tables |
| Orchestrator.ItemsRun | Steam_API_pricehistory.py:345-352 | the run over `ITEMS` with such a fetch: its paths, tables, completion and request bound |
| Orchestrator.ItemsPaths | Steam_API_pricehistory.py:350-351 | the i-th saved file is `data/<safe name of item i>_history.csv` |
| Orchestrator.MainFacts | Steam_API_pricehistory.py:338-353 | `main` saves `data/<safe name>_history.csv` for the items in order, each a daily table; all are saved iff no fetch failed; otherwise the run ends at the failing item; at most 9 requests per item |
| Orchestrator.RunFromStep | Steam_API_pricehistory.py:348-353 | a successful fetch saves its table and the run continues |
| Orchestrator.RunFromAbort | Steam_API_pricehistory.py:348 | a failed fetch ends the run with that item and its error |
| Orchestrator.FetchJob | Steam_API_pricehistory.py:348 | one fetch of the run, as `fetch_pricehistory` with currency 3 and country `DE` |
| Orchestrator.SaveJob | Steam_API_pricehistory.py:347-353 | one pass of a catalog loop: the failure ends the run, or the table is saved and the rest of the run follows |
| Orchestrator.SaveJobs | Steam_API_pricehistory.py:345-353 | the catalog loops compute `RunFrom`: the saved files, the failure, the requests and the pauses |
| Orchestrator.SaveAllHistories | Steam_API_pricehistory.py:338-383 | `main` computes `MainSpec` |
| HistoryNames.Stem | Home.py:28-31 | the stem of a `*_history.csv` file is the name without `.csv` and ends with `_history` |
| HistoryNames.DropHistorySuffix | Home.py:31 | removing `_history` from `x + "_history"` gives `x` if `x` has none |
| HistoryNames.UnderscoreRoundTrip | Home.py:31 | spaces to underscores, bars dropped, underscores back to spaces: only the bars are gone |
| HistoryNames.DisplayNameOfSaved | Home.py:31 | the file the writer saves for an item comes back under the item's name with its bars deleted and the prefix's underscores as spaces |
| HistoryNames.ProvidedIsLoaded | Home.py:27-35 | a readable history file's display name has a table |
| HistoryNames.LoadedIsProvided | Home.py:27-35 | every loaded name comes from a readable history file |
| HistoryNames.HistoriesLastWins | Home.py:27-35 | a name's table is that of the last readable file carrying it |
| HistoryNames.LoadHistories | Home.py:18-35 | the loop computes `Histories` |
| Events.Filled | Home.py:60 | `fillna("")` keeps the shape and blanks the missing cells |
| Events.NormalColumns | Home.py:61 | each column name is stripped and lower-cased |
| Events.WithColumnsAdds | Home.py:64-66 | every required name becomes a column; old columns come first with their cells; added columns were missing and are blank |
| Events.AddMissingColumns | Home.py:64-66 | the loop computes `WithColumns` |
| Events.FirstAmbiguous | Home.py:69-82 | a reported column is required and occurs twice; no report means each occurs at most once |
| Events.LayoutOf | Home.py:69-82 | each required column is found at a position that names it |
| Events.LineOf | Home.py:69-82 | a line event has its parsed date and stripped label and category |
| Events.SpanOf | Home.py:74-82 | a span event has its parsed start and end and stripped label and category |
| Events.LineRowIsLoaded | Home.py:69-71 | every `type == line` row whose date parses gives its line event |
| Events.LoadedLineHasRow | Home.py:69-71 | every line event comes from such a row |
| Events.SpanRowIsLoaded | Home.py:74-77 | every `type == span` row whose start and end parse gives its span event |
| Events.LoadedSpanHasRow | Home.py:74-77 | every span event comes from such a row |
| Events.AtMostOneTablePerRow | Home.py:69-77 | the two tables together hold at most one event per row |
| Events.LoadEvents | Home.py:38-84 | the steps of `load_events` compute `LoadedEvents`: no file gives column-less tables; a duplicated required column raises |
| Events.MissingColumnBlank | Home.py:64-66 | an added column is blank in every row |
| Events.NoTypeColumnNoEvents | Home.py:64-77 | a file without a `type` column gives no events |
| Events.NothingTyped | Home.py:69-77 | rows with a blank `type` are neither lines nor spans |
| Events.LoadedTextTrimmed | Home.py:80-82 | labels and categories of loaded events are stripped |
| Overlay.CategoryColor | Home.py:87-94 | a listed category gets its colour; gray exactly for the others |
| Overlay.Figure.SetRange | Home.py:374 | the x-range is set; shapes and annotations are unchanged |
| Overlay.SpanBounds | Home.py:149-155 | the bounds are ordered, are start and end in some order, and are unswapped unless the end comes first |
| Overlay.LineShape | Home.py:114-130 | a line is drawn iff its category is selected, dashed, in the category colour |
| Overlay.LineNote | Home.py:133-142 | a line's label is added iff it is drawn and labels are on and its text is non-empty, centred in the line colour |
| Overlay.SpanShape | Home.py:145-165 | a rectangle is drawn iff its category is selected, over the ordered bounds |
| Overlay.SpanNote | Home.py:168-177 | a span's label is added iff it is drawn and labelled, left-aligned at the rectangle's left edge |
| Overlay.AddEventsToFigure | Home.py:96-177 | the figure gains the selected lines, then the selected rectangles, with their labels, and its range is unchanged |
| Overlay.DrawLines | Home.py:114-142 | the line loop appends exactly the line shapes and labels |
| Overlay.DrawSpans | Home.py:145-177 | the span loop appends exactly the rectangle shapes and labels |
| Overlay.DrawLine | Home.py:115-142 | one line row appends its shape and label |
| Overlay.DrawSpan | Home.py:146-177 | one span row appends its rectangle and label with the swap applied |
| Overlay.NothingSelected | Home.py:110-111 | an empty selection adds nothing |
| Overlay.DrawnLineIsSelected | Home.py:114-130 | every drawn line belongs to a selected line event and has its colour |
| Overlay.SelectedLineIsDrawn | Home.py:114-130 | every selected line event is drawn |
| Overlay.DrawnRectIsSelected | Home.py:145-165 | every rectangle belongs to a selected span event, with x0 at or before x1 |
| Overlay.SelectedSpanIsDrawn | Home.py:145-165 | every selected span event is drawn |
| Overlay.LineLabelsPerShape | Home.py:133-142 | at most one label per drawn line, and none with labels off |
| Overlay.SpanLabelsPerShape | Home.py:168-177 | at most one label per drawn rectangle, and none with labels off |
| Overlay.LabelledLineIsAnnotated | Home.py:133-142 | a labelled selected line event gets its label |
| Overlay.LineLabelIsLabelled | Home.py:133-142 | every line label belongs to a labelled selected line event |
| Overlay.LabelledSpanIsAnnotated | Home.py:168-177 | a labelled selected span event gets its label |
| Overlay.SpanLabelIsLabelled | Home.py:168-177 | every span label belongs to a labelled selected span event |
| Dashboard.ItemsList | Home.py:184 | the special entry first, then the loaded names sorted, a permutation of the keys |
| Dashboard.ItemsListOrderFree | Home.py:184 | the item list does not depend on the dictionary's order |
| Dashboard.CategoryList | Home.py:216 | every category of an event, once each, sorted |
| Dashboard.AllCategoriesAsWritten | Home.py:216 | without an events file the page raises `KeyError: 'category'`; otherwise it computes the category list |
| Dashboard.EventsOf | Home.py:48-49 | no file means no events |
| Dashboard.AllCategories | Home.py:216 | sorted, without repeats, exactly the events' categories, and empty without a file |
| Dashboard.KeepPresent | Home.py:218 | keeps exactly the preferred entries that are available, in preferred order |
| Dashboard.DefaultEvents | Home.py:217-218 | the preferred categories `Major` and `Holiday` that are offered, in that order |
| Dashboard.EventDefaults | Home.py:216-218 | the preferred categories some event has, none without a file |
| Dashboard.DefaultItems | Home.py:220-221 | the preferred items that are offered, in preferred order |
| Dashboard.RowsInRange | Home.py:291 | item rows are kept iff start ≤ timestamp ≤ end |
| Dashboard.LinesInRange | Home.py:294-296 | line events are kept iff start ≤ date ≤ end |
| Dashboard.SpansInRange | Home.py:299-301 | span events are kept iff they overlap the range |
| Dashboard.LinesInRangeIdempotent | Home.py:294-296 | filtering line events again changes nothing |
| Dashboard.SpansInRangeIdempotent | Home.py:299-301 | filtering span events again changes nothing |
| Dashboard.PlotFrame | Home.py:304-306 | each row keeps its timestamp and median price, tagged with the item |
| Dashboard.FramesExist | Home.py:283-306 | there is a frame iff an item other than the special entry is selected |
| Dashboard.FramesStep | Home.py:284-306 | one more selected entry adds its frame, unless it is the special entry |
| Dashboard.PlotItem | Home.py:287-306 | one pass gives the item's frame and leaves the event tables filtered |
| Dashboard.PrepareFrames | Home.py:283-306 | one frame per plotted item in order; the events are filtered iff a two-date range applies and some item is plotted |
| Dashboard.Latest | Home.py:369 | the maximum timestamp of the rows |
| Dashboard.Earliest | Home.py:370 | the minimum timestamp of the rows |
| Dashboard.ViewStart | Home.py:369-372 | the window start is `max(max − 3 years, min)`, so min ≤ start ≤ max |
| Dashboard.DefaultWindow | Home.py:366-374 | a window exists iff no two-date range is chosen and there are data; it runs from the start to the latest timestamp |
| Dashboard.DrawChart | Home.py:323-376 | no frames give no chart; otherwise the figure holds the event overlay and the default window |

## Left out

- The network, JSON decoding and `time.sleep` are left out. Answers are a function of the request number; a body is `Payload`; pauses are recorded, not taken.
- `requests.Session` pooling, the `**kwargs` pass-through of `steam_get`, and the text of the `RuntimeError` messages are not modelled. The errors carry the last failure instead of a message.
- `os.makedirs`, `to_csv`, `read_csv` and `glob` are left out, along with the separator fallbacks of `load_events` and the markdown texts and image of the page. Only file names, paths and the tables are modelled.
- The dashboard reads `data/Main page/`, while the writer saves to `data/`. Only the file names are related (`HistoryNames.DisplayNameOfSaved`), not the directories.
- Streamlit is left out: widgets, session state, caching, the reset button, the legend HTML, tick formats and chart rendering. Selections, the date range and the category selection are parameters.
- The rolling median, the average-area trace and `sort_values` of the plot frame are left out: floating-point numerics in library calls.
- `pd.to_datetime` of the `date`, `start` and `end` columns (Home.py:70, 75-76) is taken to parse each cell on its own (`parseDate`). pandas parses a whole column and guesses one format from the first non-empty cell, so in a column that mixes date formats a later cell in another format becomes NaT. Such columns are not modelled, and `Events.LineRowIsLoaded` and `Events.SpanRowIsLoaded` hold for columns written in one format. `pd.to_numeric` of strings is an oracle too. `pd.to_datetime` applied to the already-parsed timestamps is taken as the identity. pandas' nanosecond range (years 1677 to 2262) is not modelled.
- `read_csv(..., parse_dates=["timestamp"])` of a history file is an oracle that keeps or rejects the whole file. Rows with unparseable timestamps in a history file are not modelled.
- `Strings.AsciiLower`: lower-cases ASCII only. Python's `lower()` also folds other Unicode letters; in column names and event types those are left as written.
- `Timestamps.Consume`: numeric fields are runs of ASCII digits. CPython's `strptime` also accepts other Unicode decimal digits. Locale month names are not modelled (the C locale is assumed).
- `HistoryNames.Histories`: the glob order is the order of the file list given.
- `Orchestrator.SaveAllHistories`: `ITEMS` is a parameter (the 116 names are the function `Orchestrator.Items`). The proofs hold for any list.
- `Dashboard.PrepareFrames`: requires every selected item to be loaded or the special entry. The multiselect only offers those.
- `pd.isna` checks inside `add_events_to_figure` (Home.py:119, 150) are not modelled. After `dropna` in `load_events` they never hold.
- Concurrency: none in the source, none in the model.

## Findings

| source | as written | input that shows it | evidently intended | confidence | as-written member | corrected member |
|---|---|---|---|---|---|---|
| Home.py:216 | when `events.csv` is missing, `load_events` returns two frames without columns, so `ev_lines["category"]` raises `KeyError` and the page stops after the title and introduction, before the widgets and the chart (the line filter at Home.py:294 has the same cause) | no `events.csv` in the data directory | no file means no events and no categories, so the page still shows the price chart | not executed | Dashboard.AllCategoriesAsWritten (with Dashboard.MissingEventsFileRaises) | Dashboard.AllCategories (with Dashboard.AllCategoriesAgrees, Dashboard.EventDefaults) |
