/**
  `build_pricehistory_urls` and the listing page used as `Referer`: the three request
  URLs for one item, from the most specific (country and currency) to the least.
*/
module PriceHistoryUrls {
  import opened Strings
  import opened PercentEncoding
  import opened Wrappers

  const Endpoint: string := "https://steamcommunity.com/market/pricehistory/"

  /** The URL every candidate starts with: the application id and the encoded name. */
  function BaseUrl(appid: int, itemName: string): string {
    Endpoint + "?appid=" + IntToString(appid) + "&market_hash_name=" + Quote(itemName)
  }

  /** The listing page of the item, sent as the `Referer` header. */
  function ListingUrl(appid: int, itemName: string): string {
    "https://steamcommunity.com/market/listings/" + IntToString(appid) + "/" + Quote(itemName)
  }

  /** `build_pricehistory_urls(appid, currency, country, item_name)`. */
  function BuildPriceHistoryUrls(appid: int, currency: int, country: string, itemName: string): (r: seq<string>)
    ensures |r| == 3
    ensures forall i :: 0 <= i < 3 ==> StartsWith(r[i], BaseUrl(appid, itemName))
    ensures r[2] == BaseUrl(appid, itemName)
    ensures StartsWith(r[1], r[2]) && EndsWith(r[0], r[1][|r[2]|..])
    ensures |r[2]| < |r[1]| < |r[0]|
  {
    Candidates(BaseUrl(appid, itemName), country, IntToString(currency))
  }

  /** The three candidates on a base URL: with the country and the currency, with the currency, bare. */
  function Candidates(base: string, country: string, currency: string): (r: seq<string>)
    ensures |r| == 3
    ensures forall i :: 0 <= i < 3 ==> StartsWith(r[i], base)
    ensures r[2] == base
    ensures StartsWith(r[1], r[2]) && EndsWith(r[0], r[1][|r[2]|..])
    ensures |r[2]| < |r[1]| < |r[0]|
  {
    var withCountry, withCurrency := "&country=" + country, "&currency=" + currency;
    Nested(base, withCountry, withCurrency);
    assert base + "&country=" + country + "&currency=" + currency == base + withCountry + withCurrency;
    [base + "&country=" + country + "&currency=" + currency,
     base + "&currency=" + currency,
     base]
  }

  /** Two extensions of `base`, one by `b` and one by `a` and then `b`. */
  lemma Nested(base: string, a: string, b: string)
    requires a != [] && b != []
    ensures StartsWith(base + a + b, base) && StartsWith(base + b, base)
    ensures StartsWith(base + b, base) && EndsWith(base + a + b, (base + b)[|base|..])
    ensures |base| < |base + b| < |base + a + b|
  {
    assert (base + b)[|base|..] == b;
    assert (base + a + b)[..|base|] == base;
    assert (base + b)[..|base|] == base;
    assert (base + a + b)[|base + a + b| - |b|..] == b;
  }

  // ----- Reading a candidate back: the query string as `key=value` pairs -----

  /** The query string of a URL on the endpoint: everything after `Endpoint + "?"`. */
  function Query(url: string): string {
    if StartsWith(url, Endpoint + "?") then url[|Endpoint| + 1..] else ""
  }

  /** The `key=value` pairs of a query string, split on `&` and then on the first `=`. */
  function QueryParams(query: string): seq<(string, string)> {
    Pairs(Split(query, '&'))
  }

  function Pairs(parts: seq<string>): seq<(string, string)> {
    if parts == [] then [] else [SplitFirst(parts[0], '=')] + Pairs(parts[1..])
  }

  /** The query string that lists `params` in order, `key=value` joined by `&`. */
  function RenderParams(params: seq<(string, string)>): string
    requires |params| > 0
  {
    var p := params[0].0 + "=" + params[0].1;
    if |params| == 1 then p else p + "&" + RenderParams(params[1..])
  }

  /** Parsing a rendered query gives back its pairs when no key holds `=` or `&` and no value holds `&`. */
  lemma {:induction false} ParseRenderedParams(params: seq<(string, string)>)
    requires |params| > 0
    requires PlainPairs(params)
    ensures QueryParams(RenderParams(params)) == params
  {
    var key, value := params[0].0, params[0].1;
    var p := key + "=" + value;
    assert p == key + ['='] + value;
    assert '&' !in p by {
      assert forall i :: 0 <= i < |p| ==> p[i] == (if i < |key| then key[i] else if i == |key| then '=' else value[i - |key| - 1]);
    }
    SplitFirstCons(key, '=', value);
    if |params| == 1 {
      assert Split(p, '&') == [p];
      assert Pairs([p]) == [SplitFirst(p, '=')] + Pairs([]);
      assert params == [(key, value)];
    } else {
      var rest := RenderParams(params[1..]);
      assert p + "&" + rest == p + ['&'] + rest;
      SplitCons(p, '&', rest);
      ParseRenderedParams(params[1..]);
      var parts := [p] + Split(rest, '&');
      assert parts[1..] == Split(rest, '&');
      assert Pairs(parts) == [(key, value)] + params[1..];
      assert params == [params[0]] + params[1..];
    }
  }

  /** Rendering a list of two or more pairs: the first pair, `&`, then the rest. */
  lemma RenderCons(x: (string, string), rest: seq<(string, string)>)
    requires |rest| > 0
    ensures RenderParams([x] + rest) == x.0 + "=" + x.1 + "&" + RenderParams(rest)
  {
    assert ([x] + rest)[1..] == rest;
  }

  /** `Query` of the endpoint followed by `?` and a query string is that query string. */
  lemma QueryOfEndpoint(q: string)
    ensures Query(Endpoint + "?" + q) == q
  {
    var u := Endpoint + "?" + q;
    assert u[..|Endpoint + "?"|] == Endpoint + "?";
    assert u[|Endpoint| + 1..] == q;
  }

  /** Keys and values of the pairs every candidate uses are free of `&`, and keys of `=`. */
  predicate PlainPairs(params: seq<(string, string)>) {
    forall i :: 0 <= i < |params| ==> '=' !in params[i].0 && '&' !in params[i].0 && '&' !in params[i].1
  }

  /** The encoded name and the decimal application id never contain `&`. */
  lemma EncodedNamePair(appid: int, itemName: string)
    ensures PercentDecode(Quote(itemName)) == Some(Utf8Encode(itemName))
    ensures '&' !in Quote(itemName) && '&' !in IntToString(appid)
  {
    QuoteProperties(itemName);
  }

  /** A URL on the endpoint whose query renders `params` reads back as `params`. */
  lemma ReadQuery(u: string, params: seq<(string, string)>)
    requires |params| > 0 && PlainPairs(params)
    requires u == Endpoint + "?" + RenderParams(params)
    ensures QueryParams(Query(u)) == params
  {
    QueryOfEndpoint(RenderParams(params));
    ParseRenderedParams(params);
  }

  /** Rendering two pairs. */
  lemma RenderTwo(x: (string, string), y: (string, string))
    ensures RenderParams([x, y]) == x.0 + "=" + x.1 + "&" + (y.0 + "=" + y.1)
  {
    RenderCons(x, [y]);
    assert [x, y] == [x] + [y];
  }

  /** A separator written as one literal is the separator, the key and `=`. */
  lemma Separators()
    ensures "?appid=" == "?" + "appid" + "="
    ensures "&market_hash_name=" == "&" + "market_hash_name" + "="
    ensures "&country=" == "&" + "country" + "="
    ensures "&currency=" == "&" + "currency" + "="
  {
  }

  /** Moving the brackets of a URL built from separators around its values. */
  lemma Regroup(e: string, pa: string, ka: string, id: string, pm: string, km: string, q: string, more: string)
    requires pa == "?" + ka + "=" && pm == "&" + km + "="
    ensures e + pa + id + pm + q + more == e + "?" + (ka + "=" + id + "&" + (km + "=" + q + more))
  {
  }

  /** A tail of one more `&key=value` parameter. */
  lemma RegroupTail(pc: string, kc: string, v: string, more: string)
    requires pc == "&" + kc + "="
    ensures pc + v + more == "&" + (kc + "=" + v + more)
  {
  }

  /** The least specific candidate as the rendering of its pairs. */
  lemma RenderBaseOnly(id: string, q: string)
    ensures Endpoint + "?appid=" + id + "&market_hash_name=" + q
            == Endpoint + "?" + RenderParams([("appid", id), ("market_hash_name", q)])
  {
    Separators();
    RenderTwo(("appid", id), ("market_hash_name", q));
    Regroup(Endpoint, "?appid=", "appid", id, "&market_hash_name=", "market_hash_name", q, "");
    assert Endpoint + "?appid=" + id + "&market_hash_name=" + q + "" == Endpoint + "?appid=" + id + "&market_hash_name=" + q;
    assert "market_hash_name" + "=" + q + "" == "market_hash_name" + "=" + q;
  }

  /** The candidate with the currency as the rendering of its pairs. */
  lemma RenderBaseCurrency(id: string, q: string, cur: string)
    ensures Endpoint + "?appid=" + id + "&market_hash_name=" + q + "&currency=" + cur
            == Endpoint + "?" + RenderParams([("appid", id), ("market_hash_name", q), ("currency", cur)])
  {
    Separators();
    RenderThree(Endpoint, "?appid=", "appid", id, "&market_hash_name=", "market_hash_name", q,
                "&currency=", "currency", cur);
  }

  /** The candidate with the country and the currency as the rendering of its pairs. */
  lemma RenderBaseCountryCurrency(id: string, q: string, country: string, cur: string)
    ensures Endpoint + "?appid=" + id + "&market_hash_name=" + q + "&country=" + country + "&currency=" + cur
            == Endpoint + "?" + RenderParams([("appid", id), ("market_hash_name", q), ("country", country), ("currency", cur)])
  {
    Separators();
    RenderFour(Endpoint, "?appid=", "appid", id, "&market_hash_name=", "market_hash_name", q,
               "&country=", "country", country, "&currency=", "currency", cur);
  }

  /** Three parameters written with separators of the form `?key=` and `&key=`. */
  lemma RenderThree(e: string, pa: string, ka: string, va: string, pb: string, kb: string, vb: string,
                    pc: string, kc: string, vc: string)
    requires pa == "?" + ka + "=" && pb == "&" + kb + "=" && pc == "&" + kc + "="
    ensures e + pa + va + pb + vb + pc + vc == e + "?" + RenderParams([(ka, va), (kb, vb), (kc, vc)])
  {
    var x, y, z := (ka, va), (kb, vb), (kc, vc);
    assert [x, y, z] == [x] + [y, z];
    RenderCons(x, [y, z]);
    RenderTwo(y, z);
    var tail := pc + vc;
    RegroupTail(pc, kc, vc, "");
    assert tail + "" == tail;
    Regroup(e, pa, ka, va, pb, kb, vb, tail);
  }

  /** Four parameters written with separators of the form `?key=` and `&key=`. */
  lemma RenderFour(e: string, pa: string, ka: string, va: string, pb: string, kb: string, vb: string,
                   pc: string, kc: string, vc: string, pd: string, kd: string, vd: string)
    requires pa == "?" + ka + "=" && pb == "&" + kb + "=" && pc == "&" + kc + "=" && pd == "&" + kd + "="
    ensures e + pa + va + pb + vb + pc + vc + pd + vd
            == e + "?" + RenderParams([(ka, va), (kb, vb), (kc, vc), (kd, vd)])
  {
    var w, x, y, z := (ka, va), (kb, vb), (kc, vc), (kd, vd);
    assert [w, x, y, z] == [w] + [x, y, z];
    RenderCons(w, [x, y, z]);
    assert [x, y, z] == [x] + [y, z];
    RenderCons(x, [y, z]);
    RenderTwo(y, z);
    var last := pd + vd;
    RegroupTail(pd, kd, vd, "");
    assert last + "" == last;
    var tail := pc + vc + last;
    RegroupTail(pc, kc, vc, last);
    Regroup(e, pa, ka, va, pb, kb, vb, tail);
  }

  /** The parameter names the candidates use hold neither `=` nor `&`. */
  lemma PlainKeys()
    ensures forall k :: k in ["appid", "market_hash_name", "country", "currency"] ==> '=' !in k && '&' !in k
  {
  }

  /** The least specific candidate, read back, for any id and encoded name free of `&`. */
  lemma ReadBaseOnly(id: string, q: string)
    requires '&' !in id && '&' !in q
    ensures QueryParams(Query(Endpoint + "?appid=" + id + "&market_hash_name=" + q))
            == [("appid", id), ("market_hash_name", q)]
  {
    var params := [("appid", id), ("market_hash_name", q)];
    PlainKeys();
    assert PlainPairs(params);
    RenderBaseOnly(id, q);
    ReadQuery(Endpoint + "?appid=" + id + "&market_hash_name=" + q, params);
  }

  /** The middle candidate, read back, for any id, encoded name and currency free of `&`. */
  lemma ReadBaseCurrency(id: string, q: string, cur: string)
    requires '&' !in id && '&' !in q && '&' !in cur
    ensures QueryParams(Query(Endpoint + "?appid=" + id + "&market_hash_name=" + q + "&currency=" + cur))
            == [("appid", id), ("market_hash_name", q), ("currency", cur)]
  {
    var params := [("appid", id), ("market_hash_name", q), ("currency", cur)];
    PlainKeys();
    assert PlainPairs(params);
    RenderBaseCurrency(id, q, cur);
    ReadQuery(Endpoint + "?appid=" + id + "&market_hash_name=" + q + "&currency=" + cur, params);
  }

  /** The most specific candidate, read back, for any id, encoded name, country and currency free of `&`. */
  lemma ReadBaseCountryCurrency(id: string, q: string, country: string, cur: string)
    requires '&' !in id && '&' !in q && '&' !in country && '&' !in cur
    ensures QueryParams(Query(Endpoint + "?appid=" + id + "&market_hash_name=" + q + "&country=" + country + "&currency=" + cur))
            == [("appid", id), ("market_hash_name", q), ("country", country), ("currency", cur)]
  {
    var params := [("appid", id), ("market_hash_name", q), ("country", country), ("currency", cur)];
    PlainKeys();
    assert PlainPairs(params);
    RenderBaseCountryCurrency(id, q, country, cur);
    ReadQuery(Endpoint + "?appid=" + id + "&market_hash_name=" + q + "&country=" + country + "&currency=" + cur, params);
  }

  /** The least specific candidate carries exactly the application id and the encoded name. */
  lemma BaseCandidateParameters(appid: int, itemName: string)
    ensures QueryParams(Query(BaseUrl(appid, itemName)))
            == [("appid", IntToString(appid)), ("market_hash_name", Quote(itemName))]
  {
    EncodedNamePair(appid, itemName);
    ReadBaseOnly(IntToString(appid), Quote(itemName));
  }

  /** The middle candidate adds the currency to the base parameters. */
  lemma CurrencyCandidateParameters(appid: int, currency: int, itemName: string)
    ensures QueryParams(Query(BaseUrl(appid, itemName) + "&currency=" + IntToString(currency)))
            == [("appid", IntToString(appid)), ("market_hash_name", Quote(itemName)),
                ("currency", IntToString(currency))]
  {
    EncodedNamePair(appid, itemName);
    EncodedNamePair(currency, itemName);
    ReadBaseCurrency(IntToString(appid), Quote(itemName), IntToString(currency));
  }

  /** The most specific candidate adds the country and then the currency. */
  lemma CountryCandidateParameters(appid: int, currency: int, country: string, itemName: string)
    requires '&' !in country
    ensures QueryParams(Query(BaseUrl(appid, itemName) + "&country=" + country + "&currency=" + IntToString(currency)))
            == [("appid", IntToString(appid)), ("market_hash_name", Quote(itemName)),
                ("country", country), ("currency", IntToString(currency))]
  {
    EncodedNamePair(appid, itemName);
    EncodedNamePair(currency, itemName);
    ReadBaseCountryCurrency(IntToString(appid), Quote(itemName), country, IntToString(currency));
  }

  /**
    Each candidate's query names the application id and the encoded item name, then
    (for the first two) the optional parameters in source order; the encoded name
    decodes back to the UTF-8 bytes of the item name. This holds whenever the country
    code has no `&` in it.
  */
  lemma CandidateParameters(appid: int, currency: int, country: string, itemName: string)
    requires '&' !in country
    ensures var r := BuildPriceHistoryUrls(appid, currency, country, itemName);
            var a := ("appid", IntToString(appid));
            var n := ("market_hash_name", Quote(itemName));
            && QueryParams(Query(r[0])) == [a, n, ("country", country), ("currency", IntToString(currency))]
            && QueryParams(Query(r[1])) == [a, n, ("currency", IntToString(currency))]
            && QueryParams(Query(r[2])) == [a, n]
            && PercentDecode(n.1) == Some(Utf8Encode(itemName))
  {
    EncodedNamePair(appid, itemName);
    BaseCandidateParameters(appid, itemName);
    CurrencyCandidateParameters(appid, currency, itemName);
    CountryCandidateParameters(appid, currency, country, itemName);
  }
}
