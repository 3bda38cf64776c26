/**
 A model of the client class of the Python package `sie_banxico`, a thin wrapper
 around the series endpoint of the SIE web API of Banco de México.

 The client keeps a token, a series selector, a header map built once at
 construction and a query-parameter map with the keys "locale" and "incremento".
 Every public operation validates its arguments (Python checks their dynamic
 types at run time) and then updates that state in place. A fetch builds a
 request from the state, hands it to the HTTP transport and accepts the answer
 only with status 200. Here the transport is a function parameter and the
 decoded JSON body is an opaque value of a type parameter.
 */
module Banxico {

  datatype Option<T> = None | Some(value: T)

  /** The three exception kinds the client raises. */
  datatype Error = TypeError | ValueError | RequestError(status: int)

  datatype Result<T> = Ok(value: T) | Err(error: Error)

  /** The result of an operation that returns Python's `None` or raises. */
  datatype Outcome = Pass | Fail(error: Error)

  /** An argument as Python sees it at run time: its dynamic type and its value. */
  datatype Arg = Str(s: string) | List(items: seq<string>) | NoneVal | Other

  const BaseUrl: string := "https://www.banxico.org.mx/SieAPIRest/service/v1/series/"
  const TokenHeader: string := "Bmx-Token"
  const LocaleKey: string := "locale"
  const IncrementKey: string := "incremento"

  /** The percentage-change modes the API knows, besides `None` for levels. */
  const PctModes: set<string> := {"PorcObsAnt", "PorcAnual", "PorcAcumAnual"}

  /** What the client hands to `requests.get`: URL, headers and query parameters. */
  datatype Request = Request(url: string, headers: map<string, string>, params: map<string, Option<string>>)

  /** What the transport answers: the status code and the decoded body. */
  datatype Response<T> = Response(status: int, body: T)

  // ---------------------------------------------------------------------------
  // Series selectors: comma join and its inverse

  /** Python's `','.join(ids)`: the ids in order, a comma between neighbours.
      No ids give the empty string; otherwise the result starts with the first
      id and ends with the last. */
  function Join(ids: seq<string>): (r: string)
    ensures ids == [] ==> r == ""
    ensures |ids| >= 1 ==> ids[0] <= r
  {
    if |ids| == 0 then ""
    else if |ids| == 1 then ids[0]
    else ids[0] + "," + Join(ids[1..])
  }

  /** Python's `s.split(',')`: the pieces of `s` between commas, in order. */
  function Split(s: string): (r: seq<string>)
    ensures |r| >= 1
  {
    if s == [] then [""]
    else if s[0] == ',' then [""] + Split(s[1..])
    else
      var t := Split(s[1..]);
      [[s[0]] + t[0]] + t[1..]
  }

  /** No series id contains the separator. */
  ghost predicate NoComma(ids: seq<string>)
  {
    forall i :: 0 <= i < |ids| ==> ',' !in ids[i]
  }

  lemma {:induction false} SplitWithoutComma(a: string)
    requires ',' !in a
    ensures Split(a) == [a]
  {
    if a != [] {
      SplitWithoutComma(a[1..]);
      assert [a[0]] + a[1..] == a;
    }
  }

  lemma {:induction false} SplitAtComma(a: string, rest: string)
    requires ',' !in a
    ensures Split(a + "," + rest) == [a] + Split(rest)
  {
    var s := a + "," + rest;
    if a == [] {
      assert s == [','] + rest;
      assert s[1..] == rest;
    } else {
      assert s[0] == a[0];
      assert s[1..] == a[1..] + "," + rest;
      SplitAtComma(a[1..], rest);
      assert [a[0]] + a[1..] == a;
    }
  }

  /** Splitting a joined selector gives back the ids, provided there is at least
      one id and none holds a comma (`Join([])` and `Join([""])` are both ""). */
  lemma {:induction false} SplitJoin(ids: seq<string>)
    requires |ids| >= 1 && NoComma(ids)
    ensures Split(Join(ids)) == ids
  {
    if |ids| == 1 {
      SplitWithoutComma(ids[0]);
    } else {
      SplitAtComma(ids[0], Join(ids[1..]));
      SplitJoin(ids[1..]);
      assert [ids[0]] + ids[1..] == ids;
    }
  }

  /** Appending the joined ids `b` after a comma to the joined ids `a` is the
      join of `a + b`, when neither list is empty. */
  lemma {:induction false} JoinAppend(a: seq<string>, b: seq<string>)
    requires |a| >= 1 && |b| >= 1
    ensures Join(a) + "," + Join(b) == Join(a + b)
  {
    var ab := a + b;
    assert |ab| >= 2 && ab[0] == a[0];
    assert Join(ab) == a[0] + "," + Join(ab[1..]);
    if |a| == 1 {
      assert ab[1..] == b;
    } else {
      assert ab[1..] == a[1..] + b;
      JoinAppend(a[1..], b);
      assert Join(a) == a[0] + "," + Join(a[1..]);
    }
  }

  // ---------------------------------------------------------------------------
  // Argument validation

  /** The check of `set_token`: only a string is a token. */
  function TokenOf(token: Arg): (r: Result<string>)
    ensures r.Ok? <==> token.Str?
    ensures r.Ok? ==> r.value == token.s
    ensures r.Err? ==> r.error == TypeError
  {
    match token
    case Str(s) => Ok(s)
    case _ => Err(TypeError)
  }

  /** The selector `set_id_series` stores for its argument: a list is joined
      with commas, a string is kept as it is, anything else is a type error. */
  function SeriesSelector(idSeries: Arg): (r: Result<string>)
    ensures r.Ok? <==> idSeries.Str? || idSeries.List?
    ensures r.Err? ==> r.error == TypeError
    ensures idSeries.Str? ==> r.value == idSeries.s
    ensures idSeries.List? ==> r.value == Join(idSeries.items)
  {
    match idSeries
    case List(ids) => Ok(Join(ids))
    case Str(s) => Ok(s)
    case _ => Err(TypeError)
  }

  /** The selector stored for a list keeps the ids and their order: splitting it
      at the commas gives the list back. */
  lemma {:induction false} SelectorRoundTrip(ids: seq<string>)
    requires |ids| >= 1 && NoComma(ids)
    ensures SeriesSelector(List(ids)).Ok?
    ensures Split(SeriesSelector(List(ids)).value) == ids
  {
    SplitJoin(ids);
  }

  /** Setting the ids `a` and then appending the ids `b` selects `a + b`. */
  lemma {:induction false} SetThenAppendSelects(a: seq<string>, b: seq<string>)
    requires |a| >= 1 && |b| >= 1 && NoComma(a + b)
    ensures Split(SeriesSelector(List(a)).value + "," + Join(b)) == a + b
  {
    JoinAppend(a, b);
    SplitJoin(a + b);
  }

  /** The check of `__set_language`: the locale it stores, or why it refuses. */
  function Locale(language: Arg): (r: Result<string>)
    ensures r.Ok? <==> language == Str("en") || language == Str("es")
    ensures r.Ok? ==> r.value == language.s && r.value in {"en", "es"}
    ensures r == Err(TypeError) <==> !language.Str?
    ensures r == Err(ValueError) <==> language.Str? && language.s != "en" && language.s != "es"
  {
    if !language.Str? then Err(TypeError)
    else if language.s == "en" || language.s == "es" then Ok(language.s)
    else Err(ValueError)
  }

  /** A value `incremento` may hold. */
  predicate IsPctMode(p: Option<string>)
  {
    p.None? || p.value in PctModes
  }

  /** The check of `__set_pct_change`: the value it stores, or why it refuses. */
  function PctChange(pctChange: Arg): (r: Result<Option<string>>)
    ensures r.Ok? <==> pctChange.NoneVal? || (pctChange.Str? && pctChange.s in PctModes)
    ensures r.Ok? ==> IsPctMode(r.value)
    ensures r.Ok? ==> (r.value.None? <==> pctChange.NoneVal?)
    ensures r.Ok? && pctChange.Str? ==> r.value == Some(pctChange.s)
    ensures r == Err(TypeError) <==> pctChange.List? || pctChange.Other?
    ensures r == Err(ValueError) <==> pctChange.Str? && pctChange.s !in PctModes
  {
    if !pctChange.NoneVal? && !pctChange.Str? then Err(TypeError)
    else if pctChange.NoneVal? then Ok(None)
    else if pctChange.s in PctModes then Ok(Some(pctChange.s))
    else Err(ValueError)
  }

  /** The checks of `__init__` in the order it runs them: token, series, language. */
  function InitCheck(token: Arg, idSeries: Arg, language: Arg): (r: Outcome)
    ensures r.Pass? <==> token.Str? && (idSeries.Str? || idSeries.List?) &&
                         (language == Str("en") || language == Str("es"))
    ensures !token.Str? ==> r == Fail(TypeError)
    ensures token.Str? && !(idSeries.Str? || idSeries.List?) ==> r == Fail(TypeError)
    ensures token.Str? && (idSeries.Str? || idSeries.List?) && !language.Str? ==> r == Fail(TypeError)
    ensures r == Fail(ValueError) <==>
              token.Str? && (idSeries.Str? || idSeries.List?) &&
              language.Str? && language.s != "en" && language.s != "es"
  {
    if TokenOf(token).Err? then Fail(TokenOf(token).error)
    else if SeriesSelector(idSeries).Err? then Fail(SeriesSelector(idSeries).error)
    else if Locale(language).Err? then Fail(Locale(language).error)
    else Pass
  }

  /** The status check after every `requests.get`. */
  function CheckStatus<T>(response: Response<T>): (r: Result<T>)
    ensures r.Ok? <==> response.status == 200
    ensures r.Ok? ==> r.value == response.body
    ensures r.Err? ==> r.error == RequestError(response.status)
  {
    if response.status != 200 then Err(RequestError(response.status)) else Ok(response.body)
  }

  // ---------------------------------------------------------------------------
  // Endpoint URLs

  /** A fetch URL: base, selector, then the endpoint's suffix. */
  predicate IsSeriesUrl(url: string, series: string, suffix: string)
  {
    |url| == |BaseUrl| + |series| + |suffix| &&
    url[..|BaseUrl|] == BaseUrl &&
    url[|BaseUrl|..|BaseUrl| + |series|] == series &&
    url[|BaseUrl| + |series|..] == suffix
  }

  function MetadataUrl(series: string): (r: string)
    ensures IsSeriesUrl(r, series, "")
  {
    BaseUrl + series
  }

  function LastDataUrl(series: string): (r: string)
    ensures IsSeriesUrl(r, series, "/datos/oportuno")
  {
    BaseUrl + series + "/datos/oportuno"
  }

  function TimeSeriesUrl(series: string): (r: string)
    ensures IsSeriesUrl(r, series, "/datos")
  {
    BaseUrl + series + "/datos"
  }

  function TimeSeriesRangeUrl(series: string, initDate: string, endDate: string): (r: string)
    ensures IsSeriesUrl(r, series, "/datos/" + initDate + "/" + endDate)
  {
    BaseUrl + series + "/datos/" + initDate + "/" + endDate
  }

  /** Different selectors never produce the same URL for the same endpoint. */
  lemma UrlsSeparateSelectors(s1: string, s2: string, initDate: string, endDate: string)
    requires s1 != s2
    ensures MetadataUrl(s1) != MetadataUrl(s2)
    ensures LastDataUrl(s1) != LastDataUrl(s2)
    ensures TimeSeriesUrl(s1) != TimeSeriesUrl(s2)
    ensures TimeSeriesRangeUrl(s1, initDate, endDate) != TimeSeriesRangeUrl(s2, initDate, endDate)
  {
  }

  // ---------------------------------------------------------------------------
  // The client object

  class SIEBanxico {
    var token: string
    var series: string
    var url: string
    var headers: map<string, string>
    var params: map<string, Option<string>>
    var language: Arg

    /** The state every constructed client is in. */
    ghost predicate Valid()
      reads this
    {
      url == BaseUrl &&
      headers.Keys == {TokenHeader} &&
      params.Keys <= {LocaleKey, IncrementKey} &&
      LocaleKey in params &&
      language.Str? && language.s in {"en", "es"} &&
      params[LocaleKey] == Some(language.s) &&
      (IncrementKey in params ==> IsPctMode(params[IncrementKey]))
    }

    /** The object before `__init__` has run any of its steps. */
    constructor ()
      ensures token == "" && series == "" && url == ""
      ensures headers == map[] && params == map[] && language == NoneVal
    {
      token, series, url := "", "", "";
      headers, params := map[], map[];
      language := NoneVal;
    }

    /** `SIEBanxico(token, id_series, language='en')`: the fixed sequence of
        `__init__`, which hands back the object only if no step raised. */
    static method Create(token: Arg, idSeries: Arg, language: Arg := Str("en"))
      returns (r: Result<SIEBanxico>)
      ensures r.Err? <==> InitCheck(token, idSeries, language).Fail?
      ensures r.Err? ==> r.error == InitCheck(token, idSeries, language).error
      ensures r.Ok? ==> fresh(r.value) && r.value.Valid()
      ensures r.Ok? ==> r.value.token == token.s &&
                        r.value.series == SeriesSelector(idSeries).value &&
                        r.value.headers == map[TokenHeader := token.s] &&
                        r.value.params == map[LocaleKey := Some(language.s)] &&
                        r.value.language == language
    {
      var c := new SIEBanxico();
      var o := c.SetToken(token);
      if o.Fail? { return Err(o.error); }
      o := c.SetIdSeries(idSeries);
      if o.Fail? { return Err(o.error); }
      c.url := BaseUrl;
      c.headers := map[TokenHeader := c.token];
      c.params := map[];
      c.language := language;
      o := c.SetLanguage();
      if o.Fail? { return Err(o.error); }
      r := Ok(c);
    }

    /** `set_token`: replaces the token. The header map keeps the token it was
        built with, so later requests still carry the construction-time token. */
    method SetToken(token: Arg) returns (o: Outcome)
      modifies this`token
      ensures old(Valid()) ==> Valid()
      ensures o == (if token.Str? then Pass else Fail(TypeError))
      ensures this.token == if token.Str? then token.s else old(this.token)
    {
      if !token.Str? {
        return Fail(TypeError);
      }
      this.token := token.s;
      o := Pass;
    }

    /** `set_id_series`: replaces the selector by the one its argument denotes. */
    method SetIdSeries(idSeries: Arg) returns (o: Outcome)
      modifies this`series
      ensures old(Valid()) ==> Valid()
      ensures o == (if SeriesSelector(idSeries).Ok? then Pass else Fail(TypeError))
      ensures series == if o.Pass? then SeriesSelector(idSeries).value else old(series)
    {
      if !idSeries.List? && !idSeries.Str? {
        return Fail(TypeError);
      } else if idSeries.List? {
        series := Join(idSeries.items);
      } else {
        series := idSeries.s;
      }
      o := Pass;
    }

    /** `append_id_series`: only a list is accepted; its joined ids go after a
        comma, so an empty list leaves a trailing comma. */
    method AppendIdSeries(idSeries: Arg) returns (o: Outcome)
      modifies this`series
      ensures old(Valid()) ==> Valid()
      ensures o == (if idSeries.List? then Pass else Fail(TypeError))
      ensures series == if idSeries.List? then old(series) + "," + Join(idSeries.items)
                        else old(series)
    {
      if !idSeries.List? {
        return Fail(TypeError);
      }
      series := series + "," + Join(idSeries.items);
      o := Pass;
    }

    /** `__set_language`: stores the stored language as the `locale` parameter. */
    method SetLanguage() returns (o: Outcome)
      modifies this`params
      ensures o == (if Locale(language).Ok? then Pass else Fail(Locale(language).error))
      ensures params == if o.Pass? then old(params)[LocaleKey := Some(language.s)] else old(params)
    {
      if !language.Str? {
        return Fail(TypeError);
      } else if language.s == "en" || language.s == "es" {
        params := params[LocaleKey := Some(language.s)];
        o := Pass;
      } else {
        return Fail(ValueError);
      }
    }

    /** `__set_pct_change`: overwrites `incremento`, leaving `locale` alone. */
    method SetPctChange(pctChange: Arg) returns (o: Outcome)
      modifies this`params
      ensures o == (if PctChange(pctChange).Ok? then Pass else Fail(PctChange(pctChange).error))
      ensures params == if o.Pass? then old(params)[IncrementKey := PctChange(pctChange).value]
                        else old(params)
      ensures o.Pass? ==> IncrementKey in params && IsPctMode(params[IncrementKey])
      ensures LocaleKey in old(params) ==> LocaleKey in params && params[LocaleKey] == old(params)[LocaleKey]
    {
      if !pctChange.NoneVal? && !pctChange.Str? {
        return Fail(TypeError);
      } else if !pctChange.NoneVal? && pctChange.s !in PctModes {
        return Fail(ValueError);
      } else {
        params := params[IncrementKey := if pctChange.NoneVal? then None else Some(pctChange.s)];
        o := Pass;
      }
    }

    // The four fetches, first the part that updates `params` and builds the
    // request, then the whole call with the transport as a parameter.

    /** The first half of `get_metadata`: `incremento` is reset to `None`. */
    method MetadataRequest() returns (req: Request)
      requires Valid()
      modifies this`params
      ensures Valid()
      ensures params == old(params)[IncrementKey := None]
      ensures req == Request(MetadataUrl(series), headers, params)
    {
      var o := SetPctChange(NoneVal);
      req := Request(url + series, headers, params);
    }

    /** The first half of `get_lastdata`. */
    method LastDataRequest(pctChange: Arg := NoneVal) returns (r: Result<Request>)
      requires Valid()
      modifies this`params
      ensures Valid()
      ensures PctChange(pctChange).Err? ==> r == Err(PctChange(pctChange).error) && params == old(params)
      ensures PctChange(pctChange).Ok? ==>
                params == old(params)[IncrementKey := PctChange(pctChange).value] &&
                r == Ok(Request(LastDataUrl(series), headers, params))
    {
      var o := SetPctChange(pctChange);
      if o.Fail? { return Err(o.error); }
      r := Ok(Request(url + series + "/datos/oportuno", headers, params));
    }

    /** The first half of `get_timeseries`. */
    method TimeSeriesRequest(pctChange: Arg := NoneVal) returns (r: Result<Request>)
      requires Valid()
      modifies this`params
      ensures Valid()
      ensures PctChange(pctChange).Err? ==> r == Err(PctChange(pctChange).error) && params == old(params)
      ensures PctChange(pctChange).Ok? ==>
                params == old(params)[IncrementKey := PctChange(pctChange).value] &&
                r == Ok(Request(TimeSeriesUrl(series), headers, params))
    {
      var o := SetPctChange(pctChange);
      if o.Fail? { return Err(o.error); }
      r := Ok(Request(url + series + "/datos", headers, params));
    }

    /** The first half of `get_timeseries_range`: `pct_change` is stored before
        the dates are checked, so a bad date still leaves `incremento` updated. */
    method TimeSeriesRangeRequest(initDate: Arg, endDate: Arg, pctChange: Arg := NoneVal)
      returns (r: Result<Request>)
      requires Valid()
      modifies this`params
      ensures Valid()
      ensures PctChange(pctChange).Err? ==> r == Err(PctChange(pctChange).error) && params == old(params)
      ensures PctChange(pctChange).Ok? ==> params == old(params)[IncrementKey := PctChange(pctChange).value]
      ensures PctChange(pctChange).Ok? && !(initDate.Str? && endDate.Str?) ==> r == Err(TypeError)
      ensures PctChange(pctChange).Ok? && initDate.Str? && endDate.Str? ==>
                r == Ok(Request(TimeSeriesRangeUrl(series, initDate.s, endDate.s), headers, params))
    {
      var o := SetPctChange(pctChange);
      if o.Fail? { return Err(o.error); }
      if !initDate.Str? || !endDate.Str? {
        return Err(TypeError);
      }
      r := Ok(Request(url + series + "/datos/" + initDate.s + "/" + endDate.s, headers, params));
    }

    /** `get_metadata`. */
    method GetMetadata<T>(transport: Request -> Response<T>) returns (r: Result<T>)
      requires Valid()
      modifies this`params
      ensures Valid()
      ensures params == old(params)[IncrementKey := None]
      ensures r == CheckStatus(transport(Request(MetadataUrl(series), headers, params)))
    {
      var req := MetadataRequest();
      var response := transport(req);
      if response.status != 200 {
        return Err(RequestError(response.status));
      }
      r := Ok(response.body);
    }

    /** `get_lastdata`. */
    method GetLastData<T>(transport: Request -> Response<T>, pctChange: Arg := NoneVal)
      returns (r: Result<T>)
      requires Valid()
      modifies this`params
      ensures Valid()
      ensures PctChange(pctChange).Err? ==> r == Err(PctChange(pctChange).error) && params == old(params)
      ensures PctChange(pctChange).Ok? ==>
                params == old(params)[IncrementKey := PctChange(pctChange).value] &&
                r == CheckStatus(transport(Request(LastDataUrl(series), headers, params)))
    {
      var req := LastDataRequest(pctChange);
      if req.Err? { return Err(req.error); }
      var response := transport(req.value);
      if response.status != 200 {
        return Err(RequestError(response.status));
      }
      r := Ok(response.body);
    }

    /** `get_timeseries`. */
    method GetTimeSeries<T>(transport: Request -> Response<T>, pctChange: Arg := NoneVal)
      returns (r: Result<T>)
      requires Valid()
      modifies this`params
      ensures Valid()
      ensures PctChange(pctChange).Err? ==> r == Err(PctChange(pctChange).error) && params == old(params)
      ensures PctChange(pctChange).Ok? ==>
                params == old(params)[IncrementKey := PctChange(pctChange).value] &&
                r == CheckStatus(transport(Request(TimeSeriesUrl(series), headers, params)))
    {
      var req := TimeSeriesRequest(pctChange);
      if req.Err? { return Err(req.error); }
      var response := transport(req.value);
      if response.status != 200 {
        return Err(RequestError(response.status));
      }
      r := Ok(response.body);
    }

    /** `get_timeseries_range`. */
    method GetTimeSeriesRange<T>(transport: Request -> Response<T>, initDate: Arg, endDate: Arg,
                                 pctChange: Arg := NoneVal)
      returns (r: Result<T>)
      requires Valid()
      modifies this`params
      ensures Valid()
      ensures PctChange(pctChange).Err? ==> r == Err(PctChange(pctChange).error) && params == old(params)
      ensures PctChange(pctChange).Ok? ==> params == old(params)[IncrementKey := PctChange(pctChange).value]
      ensures PctChange(pctChange).Ok? && !(initDate.Str? && endDate.Str?) ==> r == Err(TypeError)
      ensures PctChange(pctChange).Ok? && initDate.Str? && endDate.Str? ==>
                r == CheckStatus(transport(Request(TimeSeriesRangeUrl(series, initDate.s, endDate.s),
                                                   headers, params)))
    {
      var req := TimeSeriesRangeRequest(initDate, endDate, pctChange);
      if req.Err? { return Err(req.error); }
      var response := transport(req.value);
      if response.status != 200 {
        return Err(RequestError(response.status));
      }
      r := Ok(response.body);
    }
  }

  // ---------------------------------------------------------------------------
  // Call sequences on one client

  /** Setting `["A"]` and then appending `["B"]` gives the selector "A,B". */
  method SetThenAppend(a: string, b: string) returns (selector: string)
    ensures selector == a + "," + b
  {
    var c := SIEBanxico.Create(Str("token"), List([a]));
    var o := c.value.AppendIdSeries(List([b]));
    selector := c.value.series;
  }

  /** A token set after construction does not reach the request headers: the
      request carries the token given at construction. */
  method TokenAfterConstruction(first: string, second: string) returns (sent: string, current: string)
    ensures sent == first && current == second
  {
    var c := SIEBanxico.Create(Str(first), Str("SF43718"));
    var o := c.value.SetToken(Str(second));
    var req := c.value.MetadataRequest();
    sent := req.headers[TokenHeader];
    current := c.value.token;
  }

  /** Two fetches in a row: the second request carries only its own mode. */
  method NoStaleIncrement(first: Arg, second: Arg) returns (sent: Option<string>)
    requires PctChange(second).Ok?
    ensures sent == PctChange(second).value
  {
    var c := SIEBanxico.Create(Str("token"), Str("SF43718"), Str("es"));
    var r1 := c.value.TimeSeriesRequest(first);
    var r2 := c.value.LastDataRequest(second);
    sent := r2.value.params[IncrementKey];
  }
}
