/** The per-fund search, detail and edit view (src/components/FundSearch.js):
    its request targets and search paths, the date display, the edit of one
    day's returns, and the component's state slots as a class whose methods
    are the event handlers. Network responses are method parameters. */
module FundSearch {

  import opened JsValues
  import opened Text
  import opened FundTable

  /** One day of a fund's history as `GET /api/funds/{code}` returns it. */
  datatype DayReturns = DayReturns(fundCode: string, longName: string, fundDesc: string, date: string, entries: seq<ReturnEntry>)

  /** What `response.json()` gives for a 2xx response: a list, some other
      JSON value, or a body that does not parse (with the parser's message). */
  datatype Payload = List(items: seq<DayReturns>) | NotList | Malformed(message: string)

  /** The outcome of `fetch(apiURL)`: a non-2xx response with its body
      text, a 2xx response with its payload, or a rejected request. */
  datatype FetchResponse = NotOk(bodyText: string) | Ok(payload: Payload) | NetworkError(message: string)

  /** The outcome of the `PUT` request. */
  datatype PutResponse = PutNotOk(bodyText: string) | PutOk | PutNetworkError(message: string)

  /** A request the view sends, with its target. */
  datatype Request = GetRequest(url: string) | PutRequest(url: string, body: seq<JsonEntry>)

  /** A number or `null` as JSON text carries it. */
  datatype JsonValue = JsonNull | JsonNumber(x: real)

  /** A return entry as `JSON.stringify` writes it; `value` is `None` when
      the property is left out. */
  datatype JsonEntry = JsonEntry(description: string, value: Option<JsonValue>)

  /** What `parseFloat` can give: a number or NaN. */
  type Parsed = v: Amount | v.Num? || v.NaN? witness NaN

  /** `JSON.stringify` of a value: NaN and `null` are written as `null`,
      an `undefined` property is left out. */
  function JsonValueOf(v: Amount): Option<JsonValue>
  {
    match v
    case Num(x) => Some(JsonNumber(x))
    case Undef => None
    case _ => Some(JsonNull)
  }

  /** `JSON.stringify(returns)`: one object per entry, in order. */
  function JsonBody(rs: seq<ReturnEntry>): (body: seq<JsonEntry>)
    ensures |body| == |rs|
    ensures forall i | 0 <= i < |rs| :: body[i].description == rs[i].description
    ensures forall i | 0 <= i < |rs| :: body[i].value.None? <==> rs[i].value.Undef?
  {
    if rs == [] then [] else [JsonEntry(rs[0].description, JsonValueOf(rs[0].value))] + JsonBody(rs[1..])
  }

  /** What the service reads back from an entry with `JSON.parse`: a
      missing property reads as `undefined`. */
  function ParseEntry(e: JsonEntry): ReturnEntry
  {
    var v: Amount := match e.value
      case None => Undef
      case Some(JsonNull) => Null
      case Some(JsonNumber(x)) => Num(x);
    ReturnEntry(e.description, v)
  }

  function ParseBody(body: seq<JsonEntry>): (rs: seq<ReturnEntry>)
    ensures |rs| == |body|
    ensures forall i | 0 <= i < |body| :: rs[i] == ParseEntry(body[i])
  {
    if body == [] then [] else [ParseEntry(body[0])] + ParseBody(body[1..])
  }

  /** The service reads back the entries that were sent, except that a NaN
      (a cleared or non-numeric input) arrives as `null`. */
  lemma {:induction false} JsonBodyRoundTrip(rs: seq<ReturnEntry>)
    ensures |ParseBody(JsonBody(rs))| == |rs|
    ensures forall i | 0 <= i < |rs| ::
      ParseBody(JsonBody(rs))[i] == (if rs[i].value.NaN? then rs[i].(value := Null) else rs[i])
    ensures (forall e <- rs :: !e.value.NaN?) ==> ParseBody(JsonBody(rs)) == rs
  {
    var back := ParseBody(JsonBody(rs));
    forall i | 0 <= i < |rs| ensures back[i] == (if rs[i].value.NaN? then rs[i].(value := Null) else rs[i]) {
      JsonBodyAt(rs, i);
    }
    if forall e <- rs :: !e.value.NaN? {
      forall i | 0 <= i < |rs| ensures back[i] == rs[i] {
        assert rs[i] in rs;
      }
    }
  }

  lemma {:induction false} JsonBodyAt(rs: seq<ReturnEntry>, i: nat)
    requires i < |rs|
    ensures JsonBody(rs)[i] == JsonEntry(rs[i].description, JsonValueOf(rs[i].value))
  {
    if i > 0 {
      JsonBodyAt(rs[1..], i - 1);
    }
  }

  const FetchErrorPrefix := "API isteği sırasında bir hata oluştu: "
  const NotFoundMessage := "Fon bulunamadı. Lütfen geçerli bir kod girin."
  const UnexpectedMessage := "API yanıtı beklenenden farklı. Veri bulunamadı."
  const MissingCodeMessage := "Lütfen bir fon kodu girin."
  const UpdateFailedMessage := "Güncelleme işlemi başarısız oldu."
  const UpdateErrorPrefix := "Güncelleme sırasında bir hata oluştu: "
  const UpdateErrorInfix := ". Lütfen sunucu URL'sini kontrol edin: "

  /** The optional date bounds as query parameters: `startDate` only when
      set, then `endDate` only when set. */
  function DateParams(start: string, end: string): seq<Param>
  {
    (if start != "" then [Param("startDate", start)] else []) +
    (if end != "" then [Param("endDate", end)] else [])
  }

  /** `?` and the query string, or nothing when there are no parameters. */
  function WithQuery(ps: seq<Param>): string
  {
    if QueryString(ps) != "" then "?" + QueryString(ps) else ""
  }

  /** The target of the history request. */
  function FetchUrl(base: string, code: string, start: string, end: string): string
  {
    base + "/api/funds/" + code + WithQuery(DateParams(start, end))
  }

  /** The path `handleSearch` navigates to. */
  function SearchPath(code: string, start: string, end: string): string
  {
    "/search/" + code + WithQuery(DateParams(start, end))
  }

  /** The target of the update request. */
  function UpdateUrl(base: string, code: string, date: string): string
  {
    base + "/api/funds/" + code + "?date=" + date
  }

  /** A query string is empty exactly when there are no parameters. */
  lemma QueryStringEmpty(ps: seq<Param>)
    ensures QueryString(ps) == "" <==> ps == []
  {
    if ps != [] {
      var texts := PairTexts(ps);
      assert '=' in texts[0];
      if |texts| > 1 {
        assert Join(texts, '&') == texts[0] + ['&'] + Join(texts[1..], '&');
      }
    }
  }

  /** A location split at its first `?` into path and query string. */
  function SplitAtQuery(url: string): (string, string)
  {
    var i := IndexOf(url, '?');
    if i == -1 then (url, "") else (url[..i], url[i + 1..])
  }

  lemma SplitAtQueryOf(path: string, ps: seq<Param>)
    requires '?' !in path
    ensures SplitAtQuery(path + WithQuery(ps)) == (path, QueryString(ps))
  {
    QueryStringEmpty(ps);
    if QueryString(ps) != "" {
      var url := path + WithQuery(ps);
      assert url == path + ['?'] + QueryString(ps);
      assert url[..|path|] == path && url[|path|] == '?';
      assert url[|path| + 1..] == QueryString(ps);
      assert IndexOf(url, '?') == |path|;
    } else {
      assert path + WithQuery(ps) == path;
    }
  }

  predicate PlainDate(s: string)
  {
    '&' !in s && '=' !in s
  }

  /** Behind a path without `?`, the date parameters form the whole
      query, which reads back as the set dates. */
  lemma DateQueryOf(path: string, start: string, end: string)
    requires '?' !in path
    requires PlainDate(start) && PlainDate(end)
    ensures var ps := DateParams(start, end);
      && SplitAtQuery(path + WithQuery(ps)) == (path, QueryString(ps))
      && (QueryString(ps) == "" <==> start == "" && end == "")
      && ParseQuery(QueryString(ps)) == ps
      && Get(ps, "startDate") == (if start != "" then Some(start) else None)
      && Get(ps, "endDate") == (if end != "" then Some(end) else None)
  {
    var ps := DateParams(start, end);
    DateParamsPlain(start, end);
    SplitAtQueryOf(path, ps);
    QueryStringEmpty(ps);
    QueryRoundTrip(ps);
  }

  lemma DateParamsPlain(start: string, end: string)
    requires PlainDate(start) && PlainDate(end)
    ensures forall p <- DateParams(start, end) :: PlainParam(p)
  {
    assert PlainParam(Param("startDate", start)) by {
      assert forall c <- "startDate" :: c != '&' && c != '=';
    }
    assert PlainParam(Param("endDate", end)) by {
      assert forall c <- "endDate" :: c != '&' && c != '=';
    }
  }

  /** The history request carries `startDate` exactly when a start date
      is set and `endDate` exactly when an end date is set, and has no
      query at all when neither is. */
  lemma FetchUrlQuery(base: string, code: string, start: string, end: string)
    requires '?' !in base && '?' !in code
    requires PlainDate(start) && PlainDate(end)
    ensures var (path, query) := SplitAtQuery(FetchUrl(base, code, start, end));
      && path == base + "/api/funds/" + code
      && (query == "" <==> start == "" && end == "")
      && Get(ParseQuery(query), "startDate") == (if start != "" then Some(start) else None)
      && Get(ParseQuery(query), "endDate") == (if end != "" then Some(end) else None)
  {
    var path := base + "/api/funds/" + code;
    assert '?' !in path by {
      assert forall i | 0 <= i < |path| :: path[i] in base || path[i] in "/api/funds/" || path[i] in code;
    }
    DateQueryOf(path, start, end);
  }

  /** `/search/:fonKodu`: the path parameter, when the path has one. */
  function RouteCode(path: string): Option<string>
  {
    if |path| > 8 && path[..8] == "/search/" && '/' !in path[8..] then Some(path[8..]) else None
  }

  /** What the URL-sync effect reads from a location: the code (`fonKodu`
      query parameter when non-empty, else the path parameter) and the two
      dates (empty when absent). */
  function UrlCode(pathCode: Option<string>, query: seq<Param>): Option<string>
  {
    Or(Get(query, "fonKodu"), pathCode)
  }

  function UrlDate(query: seq<Param>, name: string): string
  {
    var d := Get(query, name);
    if Truthy(d) then d.value else ""
  }

  /** Navigating to the search path of a code and dates and reading the
      location back gives the same code and dates: a search, a reload or a
      shared link show the same view. */
  lemma SearchPathRoundTrip(code: string, start: string, end: string)
    requires code != "" && '/' !in code && '?' !in code
    requires PlainDate(start) && PlainDate(end)
    ensures var (path, q) := SplitAtQuery(SearchPath(code, start, end));
      && RouteCode(path) == Some(code)
      && UrlCode(RouteCode(path), ParseQuery(q)) == Some(code)
      && UrlDate(ParseQuery(q), "startDate") == start
      && UrlDate(ParseQuery(q), "endDate") == end
  {
    var path := "/search/" + code;
    assert '?' !in path by {
      assert forall i | 0 <= i < |path| :: path[i] in "/search/" || path[i] in code;
    }
    DateQueryOf(path, start, end);
    assert path[..8] == "/search/" && path[8..] == code;
  }

  /** Where a fetch leaves the data and the error message. */
  function FetchOutcome(resp: FetchResponse): (Option<seq<DayReturns>>, string)
  {
    match resp
    case NotOk(body) => (None, FetchErrorPrefix + (if body != "" then body else NotFoundMessage))
    case Ok(List(items)) =>
      if |items| > 0 then (Some(items), "") else (None, FetchErrorPrefix + UnexpectedMessage)
    case Ok(NotList) => (None, FetchErrorPrefix + UnexpectedMessage)
    case Ok(Malformed(m)) => (None, FetchErrorPrefix + m)
    case NetworkError(m) => (None, FetchErrorPrefix + m)
  }

  /** A fetch ends with data exactly when the response is 2xx with a
      non-empty list; then there is no error. Otherwise there is no data
      and the error is the fixed prefix and the reason, the body text of a
      non-2xx response or a fallback when that body is empty. */
  lemma FetchOutcomeCases(resp: FetchResponse)
    ensures FetchOutcome(resp).0.Some? <==> resp.Ok? && resp.payload.List? && |resp.payload.items| > 0
    ensures FetchOutcome(resp).0.Some? ==> FetchOutcome(resp).0.value == resp.payload.items && FetchOutcome(resp).1 == ""
    ensures FetchOutcome(resp).0.None? ==>
      |FetchOutcome(resp).1| >= |FetchErrorPrefix| && FetchOutcome(resp).1[..|FetchErrorPrefix|] == FetchErrorPrefix
    ensures resp.NotOk? ==> FetchOutcome(resp).1 == FetchErrorPrefix + (if resp.bodyText == "" then NotFoundMessage else resp.bodyText)
  {
    var (info, error) := FetchOutcome(resp);
    if info.None? {
      var reason := error[|FetchErrorPrefix|..];
      assert error == FetchErrorPrefix + reason;
    }
  }

  /** The update failure message: the prefix, the reason, and the target
      that was tried. */
  function UpdateErrorText(put: PutResponse, updateURL: string): string
    requires !put.PutOk?
  {
    var message := match put
      case PutNotOk(body) => if body != "" then body else UpdateFailedMessage
      case PutNetworkError(m) => m;
    UpdateErrorPrefix + message + UpdateErrorInfix + updateURL
  }

  /** The message names the attempted target at its end. */
  lemma UpdateErrorNamesTarget(put: PutResponse, updateURL: string)
    requires !put.PutOk?
    ensures var t := UpdateErrorText(put, updateURL);
      |t| >= |updateURL| && t[|t| - |updateURL|..] == updateURL
  {
  }

  /** `returns.map(item => item.description === description ? {...item, value} : item)`. */
  function ReplaceValue(rs: seq<ReturnEntry>, description: string, v: Amount): (r: seq<ReturnEntry>)
    ensures |r| == |rs|
    ensures forall i | 0 <= i < |rs| :: r[i].description == rs[i].description
    ensures forall i | 0 <= i < |rs| && rs[i].description == description :: r[i].value == v
    ensures forall i | 0 <= i < |rs| && rs[i].description != description :: r[i] == rs[i]
  {
    if rs == [] then []
    else
      var head := if rs[0].description == description then rs[0].(value := v) else rs[0];
      [head] + ReplaceValue(rs[1..], description, v)
  }

  /** The last edit of a field wins. */
  lemma ReplaceValueLastWins(rs: seq<ReturnEntry>, description: string, v1: Amount, v2: Amount)
    ensures ReplaceValue(ReplaceValue(rs, description, v1), description, v2) == ReplaceValue(rs, description, v2)
  {
    var a, b := ReplaceValue(ReplaceValue(rs, description, v1), description, v2), ReplaceValue(rs, description, v2);
    assert |a| == |b|;
    forall i | 0 <= i < |a| ensures a[i] == b[i] {
    }
  }

  /** Edits of two different fields can be made in either order. */
  lemma ReplaceValueCommutes(rs: seq<ReturnEntry>, d1: string, v1: Amount, d2: string, v2: Amount)
    requires d1 != d2
    ensures ReplaceValue(ReplaceValue(rs, d1, v1), d2, v2) == ReplaceValue(ReplaceValue(rs, d2, v2), d1, v1)
  {
    var a, b := ReplaceValue(ReplaceValue(rs, d1, v1), d2, v2), ReplaceValue(ReplaceValue(rs, d2, v2), d1, v1);
    assert |a| == |b|;
    forall i | 0 <= i < |a| ensures a[i] == b[i] {
    }
  }

  /** The `i`-th `-`-separated part, or "undefined" when there is none. */
  function Part(parts: seq<string>, i: nat): string
  {
    if i < |parts| then parts[i] else "undefined"
  }

  /** `formatDateToTR`: `YYYY-MM-DD` shown as `DD.MM.YYYY`. */
  function FormatDateToTR(dateString: string): string
  {
    var parts := Split(dateString, '-');
    Part(parts, 2) + "." + Part(parts, 1) + "." + Part(parts, 0)
  }

  /** The year, month and day parts, reordered as day, month, year. */
  lemma FormatDateParts(year: string, month: string, day: string)
    requires '-' !in year && '-' !in month && '-' !in day
    ensures FormatDateToTR(year + "-" + month + "-" + day) == day + "." + month + "." + year
  {
    assert [year, month, day][1..] == [month, day] && [month, day][1..] == [day];
    assert Join([month, day], '-') == month + "-" + day;
    assert Join([year, month, day], '-') == year + "-" + month + "-" + day;
    SplitJoin([year, month, day], '-');
  }

  /** A text without `-` is taken as the year alone. */
  lemma FormatDateWithoutDashes(s: string)
    requires '-' !in s
    ensures FormatDateToTR(s) == "undefined.undefined." + s
  {
    SplitNoSeparator(s, '-');
  }

  /** The state slots of the search view. `requests` and `navigations`
      record, in order, what the view sent to the service and where it
      navigated. */
  class FundSearchView {
    const baseUrl: string
    var fundCode: string
    var startDate: string
    var endDate: string
    var fundInfo: Option<seq<DayReturns>>
    var loading: bool
    var error: string
    var isModalOpen: bool
    var editingFundReturns: Option<DayReturns>
    var isUpdating: bool
    var updateError: string
    var requests: seq<Request>
    var navigations: seq<string>

    /** Loaded data is never an empty list, and an open modal always has
        an edit session. */
    ghost predicate Valid()
      reads this
    {
      && (fundInfo.Some? ==> |fundInfo.value| > 0)
      && (isModalOpen ==> editingFundReturns.Some?)
    }

    /** The initial `useState` values. */
    constructor (baseUrl: string)
      ensures Valid()
      ensures this.baseUrl == baseUrl
      ensures fundCode == "" && startDate == "" && endDate == ""
      ensures fundInfo == None && !loading && error == ""
      ensures !isModalOpen && editingFundReturns == None && !isUpdating && updateError == ""
      ensures requests == [] && navigations == []
    {
      this.baseUrl := baseUrl;
      fundCode, startDate, endDate := "", "", "";
      fundInfo, loading, error := None, false, "";
      isModalOpen, editingFundReturns, isUpdating, updateError := false, None, false, "";
      requests, navigations := [], [];
    }

    /** The synchronous start of `fetchFundInfo`: loading, no error, no
        data, and the request sent. */
    method BeginFetch(code: string, start: string, end: string)
      requires Valid()
      modifies this
      ensures Valid()
      ensures loading && error == "" && fundInfo == None
      ensures requests == old(requests) + [GetRequest(FetchUrl(baseUrl, code, start, end))]
      ensures fundCode == old(fundCode) && startDate == old(startDate) && endDate == old(endDate)
      ensures isModalOpen == old(isModalOpen) && editingFundReturns == old(editingFundReturns)
      ensures isUpdating == old(isUpdating) && updateError == old(updateError)
      ensures navigations == old(navigations)
    {
      loading := true;
      error := "";
      fundInfo := None;
      var baseURL := baseUrl + "/api/funds/" + code;
      var params: seq<Param> := [];
      if start != "" {
        params := params + [Param("startDate", start)];
      }
      if end != "" {
        params := params + [Param("endDate", end)];
      }
      var apiURL := if QueryString(params) != "" then baseURL + "?" + QueryString(params) else baseURL;
      assert params == DateParams(start, end);
      assert apiURL == baseURL + WithQuery(params);
      requests := requests + [GetRequest(apiURL)];
    }

    /** The resolution of `fetchFundInfo`: the data is set only for a 2xx
        non-empty list, every other outcome sets the error; loading ends. */
    method CompleteFetch(resp: FetchResponse)
      requires Valid()
      modifies this
      ensures Valid()
      ensures !loading
      ensures FetchOutcome(resp).0.Some? ==> fundInfo == FetchOutcome(resp).0 && error == old(error)
      ensures FetchOutcome(resp).0.None? ==> fundInfo == old(fundInfo) && error == FetchOutcome(resp).1
      ensures requests == old(requests) && navigations == old(navigations)
      ensures fundCode == old(fundCode) && startDate == old(startDate) && endDate == old(endDate)
      ensures isModalOpen == old(isModalOpen) && editingFundReturns == old(editingFundReturns)
      ensures isUpdating == old(isUpdating) && updateError == old(updateError)
    {
      match resp {
        case NotOk(errorText) =>
          error := FetchErrorPrefix + (if errorText != "" then errorText else NotFoundMessage);
        case Ok(data) =>
          if data.List? && |data.items| > 0 {
            fundInfo := Some(data.items);
          } else if data.Malformed? {
            error := FetchErrorPrefix + data.message;
          } else {
            error := FetchErrorPrefix + UnexpectedMessage;
          }
        case NetworkError(message) =>
          error := FetchErrorPrefix + message;
      }
      loading := false;
    }

    /** `fetchFundInfo(code, start, end)` run to its end. */
    method FetchFundInfo(code: string, start: string, end: string, resp: FetchResponse)
      requires Valid()
      modifies this
      ensures Valid()
      ensures requests == old(requests) + [GetRequest(FetchUrl(baseUrl, code, start, end))]
      ensures (fundInfo, error) == FetchOutcome(resp) && !loading
      ensures fundCode == old(fundCode) && startDate == old(startDate) && endDate == old(endDate)
      ensures isModalOpen == old(isModalOpen) && editingFundReturns == old(editingFundReturns)
      ensures isUpdating == old(isUpdating) && updateError == old(updateError)
      ensures navigations == old(navigations)
    {
      BeginFetch(code, start, end);
      CompleteFetch(resp);
    }

    /** `updateFundReturns(code, date, returns)`: the `PUT` is sent to the
        target built from `code` and `date`. On success the history is
        fetched again for the view's current code and dates and the modal
        closes; on failure the modal and the session stay as they are and
        the error names the target. */
    method UpdateFundReturns(code: string, date: string, rs: seq<ReturnEntry>, put: PutResponse, refetch: FetchResponse)
      requires Valid()
      modifies this
      ensures Valid()
      ensures !isUpdating
      ensures put.PutOk? ==>
        && requests == old(requests) + [PutRequest(UpdateUrl(baseUrl, code, date), JsonBody(rs)),
                                        GetRequest(FetchUrl(baseUrl, old(fundCode), old(startDate), old(endDate)))]
        && (fundInfo, error) == FetchOutcome(refetch) && !loading
        && !isModalOpen && updateError == ""
      ensures !put.PutOk? ==>
        && requests == old(requests) + [PutRequest(UpdateUrl(baseUrl, code, date), JsonBody(rs))]
        && updateError == UpdateErrorText(put, UpdateUrl(baseUrl, code, date))
        && isModalOpen == old(isModalOpen)
        && fundInfo == old(fundInfo) && error == old(error) && loading == old(loading)
      ensures editingFundReturns == old(editingFundReturns)
      ensures fundCode == old(fundCode) && startDate == old(startDate) && endDate == old(endDate)
      ensures navigations == old(navigations)
    {
      isUpdating := true;
      updateError := "";
      var updateURL := baseUrl + "/api/funds/" + code + "?date=" + date;
      requests := requests + [PutRequest(updateURL, JsonBody(rs))];
      if put.PutOk? {
        FetchFundInfo(fundCode, startDate, endDate, refetch);
        isModalOpen := false;
      } else {
        updateError := UpdateErrorText(put, updateURL);
      }
      isUpdating := false;
    }

    /** The URL-sync effect. With a code in the location the fields take
        the location's values and the history is fetched; without one the
        search fields, the data and the error are reset and nothing is
        sent. */
    method SyncWithUrl(pathCode: Option<string>, query: seq<Param>, resp: FetchResponse)
      requires Valid()
      modifies this
      ensures Valid()
      ensures Truthy(UrlCode(pathCode, query)) ==>
        var code := UrlCode(pathCode, query).value;
        && fundCode == code
        && startDate == UrlDate(query, "startDate") && endDate == UrlDate(query, "endDate")
        && requests == old(requests) + [GetRequest(FetchUrl(baseUrl, code, startDate, endDate))]
        && (fundInfo, error) == FetchOutcome(resp) && !loading
      ensures !Truthy(UrlCode(pathCode, query)) ==>
        && fundCode == "" && startDate == "" && endDate == ""
        && fundInfo == None && error == ""
        && requests == old(requests) && loading == old(loading)
      ensures isModalOpen == old(isModalOpen) && editingFundReturns == old(editingFundReturns)
      ensures isUpdating == old(isUpdating) && updateError == old(updateError)
      ensures navigations == old(navigations)
    {
      var currentFundCode := Or(Get(query, "fonKodu"), pathCode);
      var currentStartDate := UrlDate(query, "startDate");
      var currentEndDate := UrlDate(query, "endDate");
      if Truthy(currentFundCode) {
        if currentFundCode.value != fundCode {
          fundCode := currentFundCode.value;
        }
        if currentStartDate != startDate {
          startDate := currentStartDate;
        }
        if currentEndDate != endDate {
          endDate := currentEndDate;
        }
        FetchFundInfo(currentFundCode.value, currentStartDate, currentEndDate, resp);
      } else {
        fundCode := "";
        startDate := "";
        endDate := "";
        fundInfo := None;
        error := "";
      }
    }

    /** The search inputs' `onChange` setters: each sets its own field
        and nothing else. */
    method SetFundCode(value: string)
      requires Valid()
      modifies this`fundCode
      ensures Valid()
      ensures fundCode == value
    {
      fundCode := value;
    }

    method SetStartDate(value: string)
      requires Valid()
      modifies this`startDate
      ensures Valid()
      ensures startDate == value
    {
      startDate := value;
    }

    method SetEndDate(value: string)
      requires Valid()
      modifies this`endDate
      ensures Valid()
      ensures endDate == value
    {
      endDate := value;
    }

    /** `handleSearch`: an empty code is refused with a message and no
        navigation; otherwise the view navigates to the search path of the
        code and the set dates. Nothing is sent here: the fetch follows
        from the new location. */
    method HandleSearch()
      requires Valid()
      modifies this
      ensures Valid()
      ensures fundCode == "" ==> error == MissingCodeMessage && navigations == old(navigations)
      ensures fundCode != "" ==>
        error == old(error) && navigations == old(navigations) + [SearchPath(fundCode, startDate, endDate)]
      ensures requests == old(requests)
      ensures fundCode == old(fundCode) && startDate == old(startDate) && endDate == old(endDate)
      ensures fundInfo == old(fundInfo) && loading == old(loading)
      ensures isModalOpen == old(isModalOpen) && editingFundReturns == old(editingFundReturns)
      ensures isUpdating == old(isUpdating) && updateError == old(updateError)
    {
      if fundCode == "" {
        error := MissingCodeMessage;
        return;
      }
      var query: seq<Param> := [];
      if startDate != "" {
        query := query + [Param("startDate", startDate)];
      }
      if endDate != "" {
        query := query + [Param("endDate", endDate)];
      }
      navigations := navigations + ["/search/" + fundCode + (if QueryString(query) != "" then "?" + QueryString(query) else "")];
    }

    /** `handleEditClick(dayData)`: the day becomes the edit session,
        replacing any earlier one, and the modal opens. */
    method HandleEditClick(dayData: DayReturns)
      requires Valid()
      modifies this`editingFundReturns, this`isModalOpen
      ensures Valid()
      ensures editingFundReturns == Some(dayData) && isModalOpen
    {
      editingFundReturns := Some(dayData);
      isModalOpen := true;
    }

    /** `handleModalClose`: the modal closes, the session and the update
        error are discarded; nothing is sent. */
    method HandleModalClose()
      requires Valid()
      modifies this`editingFundReturns, this`isModalOpen, this`updateError
      ensures Valid()
      ensures !isModalOpen && editingFundReturns == None && updateError == ""
    {
      isModalOpen := false;
      editingFundReturns := None;
      updateError := "";
    }

    /** `handleReturnChange(description, value)` with `parseFloat(value)`
        given as `parsed`: the value of every entry with that description
        is replaced; the rest of the session is kept. Only the inputs of
        the open modal call it, and an open modal has a session. */
    method HandleReturnChange(description: string, parsed: Parsed)
      requires Valid() && isModalOpen
      modifies this`editingFundReturns
      ensures Valid()
      ensures editingFundReturns == Some(old(editingFundReturns.value).(
        entries := ReplaceValue(old(editingFundReturns.value.entries), description, parsed)))
    {
      var prevState := editingFundReturns.value;
      editingFundReturns := Some(prevState.(entries := ReplaceValue(prevState.entries, description, parsed)));
    }

    /** `handleModalSave`: with a session, its entries are sent for the
        session's own code and date; without one nothing happens. */
    method HandleModalSave(put: PutResponse, refetch: FetchResponse)
      requires Valid()
      modifies this
      ensures Valid()
      ensures old(editingFundReturns).None? ==> unchanged(this)
      ensures old(editingFundReturns).Some? ==>
        var session := old(editingFundReturns).value;
        var target := UpdateUrl(baseUrl, session.fundCode, session.date);
        && !isUpdating
        && (put.PutOk? ==>
              && requests == old(requests) + [PutRequest(target, JsonBody(session.entries)),
                                              GetRequest(FetchUrl(baseUrl, old(fundCode), old(startDate), old(endDate)))]
              && (fundInfo, error) == FetchOutcome(refetch) && !loading
              && !isModalOpen && updateError == "")
        && (!put.PutOk? ==>
              && requests == old(requests) + [PutRequest(target, JsonBody(session.entries))]
              && updateError == UpdateErrorText(put, target)
              && isModalOpen == old(isModalOpen)
              && fundInfo == old(fundInfo) && error == old(error) && loading == old(loading))
      ensures editingFundReturns == old(editingFundReturns)
      ensures fundCode == old(fundCode) && startDate == old(startDate) && endDate == old(endDate)
      ensures navigations == old(navigations)
    {
      if editingFundReturns.Some? {
        var returnsToUpdate := editingFundReturns.value.entries;
        UpdateFundReturns(editingFundReturns.value.fundCode, editingFundReturns.value.date, returnsToUpdate, put, refetch);
      }
    }
  }
}
