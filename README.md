# SIEBanxico client, modelled in Dafny

`sie_banxico` is a Python wrapper around the series endpoint of the SIE web API
of Banco de México. Its one class, `SIEBanxico`, holds a query token, a series
selector (one id, comma-joined ids, or a range such as `SF311408-SF311410`), a
header map `{'Bmx-Token': token}` built once at construction, and a
query-parameter dict with the keys `locale` and `incremento`. Its methods check
their arguments and update that state in place; the four fetch methods build a
URL from the fixed base
`https://www.banxico.org.mx/SieAPIRest/service/v1/series/`, call
`requests.get`, and return the JSON body only for status 200.

The model (`sie_banxico.dfy`, module `Banxico`) has these parts:

- `Arg = Str | List | NoneVal | Other` stands for an argument's Python run-time type and value.
- `Error = TypeError | ValueError | RequestError(status)` stands for the exception raised.
- Class `SIEBanxico` has the source's fields: `token`, `series`, `url`, `headers`, `params` and `language`.
  `params` is a `map<string, Option<string>>`, where `None` is Python's `None`.
  Every method says which field it may change (`modifies this`params`, …) and gives its new value in terms of the old one.
- `Valid()` is the invariant every constructed client keeps:
  - `url` is the base URL;
  - `headers` has exactly the key `Bmx-Token`;
  - `params` holds `locale` (`"en"` or `"es"`, equal to the stored language);
  - `params` may also hold `incremento`, and then only `None` or one of the three modes.
- `__init__` can raise, so it is the static method `Create`. Create runs the same fixed sequence and returns the object only when no step failed.
- Each fetch has two layers. The first (`MetadataRequest`, …) updates `params` and returns the `Request` that would be sent.
  The second (`GetMetadata`, …) also takes the HTTP transport as a function `Request -> Response<T>`, with the decoded body's type left open.
  It returns what the status check makes of the answer.
- The pure parts are functions with their own contracts:
  - the comma join `Join` and its inverse `Split`;
  - the argument checks `TokenOf`, `SeriesSelector`, `Locale`, `PctChange` and `InitCheck`;
  - `CheckStatus`;
  - the four URL builders.

Things the code does that are easy to miss, and that the model keeps:

- `set_token` does not refresh `headers`. A request made after `set_token` still carries the token given at construction (`TokenAfterConstruction`).
- `get_timeseries_range` stores `pct_change` before it checks the dates. A non-string date raises `TypeError` with `incremento` already overwritten.
- `append_id_series([])` leaves a trailing comma on the selector.
- `set_token` checks only the type of its argument (sie_banxico/sie_banxico.py:64), so an empty token is accepted.
- Only status 200 succeeds (sie_banxico/sie_banxico.py:110); every other status, 2xx ones included, is a request error.

## Model

| member | source | states |
|---|---|---|
| `Banxico.Join` | sie_banxico/sie_banxico.py:82-98 | no ids join to the empty string and a non-empty join starts with the first id; `SplitJoin` proves the ids and their order can be read back from the join, `JoinAppend` that appending after a comma joins the concatenated lists |
| `Banxico.SplitJoin` | sie_banxico/sie_banxico.py:82 | splitting a comma-joined list of at least one comma-free id at the commas gives back exactly that list, in order |
| `Banxico.JoinAppend` | sie_banxico/sie_banxico.py:98 | for two non-empty lists, the join of the first, a comma and the join of the second is the join of their concatenation |
| `Banxico.SelectorRoundTrip` | sie_banxico/sie_banxico.py:79-84 | a list argument is accepted, and the selector it stores splits back into the given ids in input order |
| `Banxico.SetThenAppendSelects` | sie_banxico/sie_banxico.py:82-98 | setting the ids `a` and then appending the ids `b` leaves a selector that splits into `a + b` |
| `Banxico.TokenOf` | sie_banxico/sie_banxico.py:64-67 | a token is accepted exactly when it is a string, and is then stored unchanged; any other type is a TypeError |
| `Banxico.SeriesSelector` | sie_banxico/sie_banxico.py:79-84 | a list or a string is accepted and any other type is a TypeError; a string is stored unchanged and a list is stored as its comma join, so `[]` gives the empty selector |
| `Banxico.Locale` | sie_banxico/sie_banxico.py:170-175 | the language is accepted exactly when it is `"en"` or `"es"`; a non-string is a TypeError, any other string a ValueError |
| `Banxico.PctChange` | sie_banxico/sie_banxico.py:181-186 | the mode is accepted exactly when it is None or one of the three literals, and the stored value is then None or that literal; a non-string non-None value is a TypeError, any other string a ValueError |
| `Banxico.InitCheck` | sie_banxico/sie_banxico.py:45-53 | construction succeeds exactly when the token is a string, the ids are a list or a string and the language is `"en"` or `"es"`; a non-string token is a TypeError; with a string token, a series argument that is neither list nor string is a TypeError; with both accepted, a non-string language is a TypeError and a ValueError arises exactly from a language string other than `"en"` and `"es"` |
| `Banxico.CheckStatus` | sie_banxico/sie_banxico.py:110-112 | an answer succeeds exactly when its status is 200, and then yields the body unchanged; otherwise it is a RequestError carrying that status |
| `Banxico.MetadataUrl` | sie_banxico/sie_banxico.py:108 | the metadata URL is the base URL, then the selector, with no suffix |
| `Banxico.LastDataUrl` | sie_banxico/sie_banxico.py:124 | the latest-data URL is the base URL, then the selector, then `/datos/oportuno` |
| `Banxico.TimeSeriesUrl` | sie_banxico/sie_banxico.py:140 | the time-series URL is the base URL, then the selector, then `/datos` |
| `Banxico.TimeSeriesRangeUrl` | sie_banxico/sie_banxico.py:160 | the range URL is the base URL, then the selector, then `/datos/`, the start date, `/` and the end date |
| `Banxico.UrlsSeparateSelectors` | sie_banxico/sie_banxico.py:108-160 | for each of the four endpoints, two different selectors never give the same URL |
| `Banxico.SIEBanxico.Create` | sie_banxico/sie_banxico.py:37-53 | fails exactly as `InitCheck` says; on success the new client is valid and holds the token, the selector for the ids, `headers == {Bmx-Token: token}`, `params == {locale: language}` and the language |
| `Banxico.SIEBanxico.SetToken` | sie_banxico/sie_banxico.py:55-67 | a string replaces the token; any other type is a TypeError and leaves it unchanged; nothing else (in particular not `headers`) changes, so a valid client stays valid |
| `Banxico.SIEBanxico.SetIdSeries` | sie_banxico/sie_banxico.py:69-84 | on success the selector becomes the one `SeriesSelector` gives; on a TypeError it is unchanged; only `series` may change, so a valid client stays valid |
| `Banxico.SIEBanxico.AppendIdSeries` | sie_banxico/sie_banxico.py:86-98 | anything but a list, a bare string included, is a TypeError and changes nothing; a list makes the selector `old + "," + join(ids)`; only `series` may change, so a valid client stays valid |
| `Banxico.SIEBanxico.SetLanguage` | sie_banxico/sie_banxico.py:166-175 | a valid stored language is written to `params["locale"]`; otherwise the error `Locale` names is reported and `params` is unchanged |
| `Banxico.SIEBanxico.SetPctChange` | sie_banxico/sie_banxico.py:177-186 | a valid mode overwrites `params["incremento"]` and keeps `locale`; otherwise the error `PctChange` names is reported and `params` is unchanged |
| `Banxico.SIEBanxico.MetadataRequest` | sie_banxico/sie_banxico.py:107-109 | resets `incremento` to None and requests the metadata URL with the current headers and params; the client stays valid |
| `Banxico.SIEBanxico.LastDataRequest` | sie_banxico/sie_banxico.py:123-125 | an invalid mode leaves `params` unchanged and builds no request; a valid one is stored and the latest-data URL is requested |
| `Banxico.SIEBanxico.TimeSeriesRequest` | sie_banxico/sie_banxico.py:139-141 | an invalid mode leaves `params` unchanged and builds no request; a valid one is stored and the time-series URL is requested |
| `Banxico.SIEBanxico.TimeSeriesRangeRequest` | sie_banxico/sie_banxico.py:157-161 | the mode is checked and stored first; then a non-string date is a TypeError with `incremento` already updated; two strings give the range URL |
| `Banxico.SIEBanxico.GetMetadata` | sie_banxico/sie_banxico.py:101-112 | the result is the status check of the transport's answer to the metadata request |
| `Banxico.SIEBanxico.GetLastData` | sie_banxico/sie_banxico.py:114-128 | a bad mode fails before any request; otherwise the result is the status check of the answer to the latest-data request |
| `Banxico.SIEBanxico.GetTimeSeries` | sie_banxico/sie_banxico.py:130-144 | a bad mode fails before any request; otherwise the result is the status check of the answer to the time-series request |
| `Banxico.SIEBanxico.GetTimeSeriesRange` | sie_banxico/sie_banxico.py:146-164 | a bad mode or a non-string date fails before any request; otherwise the result is the status check of the answer to the range request |
| `Banxico.SetThenAppend` | sie_banxico/sie_banxico.py:79-98 | on a new client, setting `[a]` and then appending `[b]` gives the selector `a,b` |
| `Banxico.TokenAfterConstruction` | sie_banxico/sie_banxico.py:46-67 | after construction with one token and `set_token` with another, the request carries the first token while the client holds the second |
| `Banxico.NoStaleIncrement` | sie_banxico/sie_banxico.py:123-141 | after two fetch requests, the second with a valid mode, the second request's `incremento` is the second mode, whatever the first call passed, even a mode it rejected |

## Left out

- HTTP transport (`requests.get`): the transport is a pure function parameter. Connection errors, time-outs and other exceptions it may raise are not modelled.
- How `requests` encodes `params` into the query string (including dropping a `None` value): the model hands over the map as it is.
- JSON decoding (`response.json()`): the body is an opaque value of a type parameter, returned unchanged. Decoding failures are not modelled.
- Error messages: only the error kind and, for a request error, the status code are kept.
- Element types inside lists: list elements are always strings. The TypeError that `','.join` raises for a non-string element is not modelled.
- Str subclasses: Python's `type(x) != str` test (token, language, dates, mode) differs from `isinstance` (series selector) only for `str` subclasses, which `Arg` does not distinguish.
- Server-side behaviour: clamping out-of-range dates and the meaning of range selectors are not modelled. Selectors and dates are opaque strings.
- `Banxico.SIEBanxico.constructor`: Python starts with `token` and `series` set to `None`. The model starts them as empty strings. No caller can see the difference, because `Create` only returns a client after both are set.
- Packaging (`setup.py`): it only reads the package README and has no logic.
