/**
 * The root component's view-state controller: the city, country and
 * language shown, the loading flag and error message, the last weather
 * data received, and the page's query string, kept in step with each other.
 *
 * The weather gateway is asynchronous: a request the controller issues is
 * recorded in `sent`, and its completion arrives later as one
 * of the events `OnCurrentOk`, `OnCurrentErr`, `OnForecastOk` or
 * `OnForecastErr`, each carrying the request it answers.
 */
module App {
  import opened Wrappers
  import opened Strings
  import opened UrlQuery
  import opened Locale

  /** What the gateway returns for "current weather"; the controller only stores it. */
  datatype CurrentWeather = CurrentWeather(
    city: string, country: string, temp: real, feelsLike: real, humidity: real,
    windKph: real, description: string, icon: string, sunrise: int, sunset: int)

  datatype ForecastDay = ForecastDay(
    date: string, min: real, max: real, description: string, icon: string, pop: real)

  /** What the gateway returns for "forecast"; the controller only stores it. */
  datatype Forecast = Forecast(city: string, country: string, days: seq<ForecastDay>)

  datatype Endpoint = CurrentEndpoint | ForecastEndpoint

  /** One gateway request: the endpoint, the city and the optional ISO-2 country filter. */
  datatype Request = Request(endpoint: Endpoint, city: string, country: Option<string>)

  const DefaultCity: string := "Wohlen"

  /** The query parameters the controller writes. */
  const UrlKeys: set<string> := {"city", "country", "lang"}

  /** The country filter sent to the gateway: trimmed and upper-cased, absent when empty. */
  function Iso2(country: string): (r: Option<string>)
    ensures r.None? <==> Trim(country) == ""
    ensures r.Some? ==> r.value == Upper(Trim(country))
  {
    var u := Upper(Trim(country));
    if u == "" then None else Some(u)
  }

  /** The request `refreshAll` issues first: current weather for the trimmed city and the country filter. */
  function RefreshRequest(city: string, country: string): (r: Request)
    ensures r.endpoint == CurrentEndpoint && IsTrimmed(r.city)
  {
    Request(CurrentEndpoint, Trim(city), Iso2(country))
  }

  /** The query `updateUrl` leaves behind. */
  function ReconciledQuery(q: Params, city: string, country: string, active: string): Params
  {
    var q1 := SetParam(q, "city", Trim(city));
    var q2 := if Trim(country) != "" then SetParam(q1, "country", Upper(Trim(country))) else q1;
    SetParam(q2, "lang", NormalizeLang(if active == "" then Default else active))
  }

  /** The query `changeLang` leaves behind, for the already normalised language `norm`. */
  function LangQuery(q: Params, norm: string, city: string, country: string): Params
  {
    var q1 := SetParam(q, "lang", norm);
    var q2 := if Trim(city) != "" then SetParam(q1, "city", Trim(city)) else q1;
    if Trim(country) != "" then SetParam(q2, "country", Upper(Trim(country))) else q2
  }

  /**
   * After `updateUrl`: one `city` pair holding the trimmed city; one
   * `country` pair holding the trimmed, upper-cased country when it is not
   * empty, and otherwise the `country` pairs as they were; one `lang` pair
   * holding the normalised active language; every other pair untouched.
   */
  lemma ReconciledQueryParams(q: Params, city: string, country: string, active: string)
    ensures GetAll(ReconciledQuery(q, city, country, active), "city") == [Trim(city)]
    ensures GetAll(ReconciledQuery(q, city, country, active), "country") ==
              if Trim(country) != "" then [Upper(Trim(country))] else GetAll(q, "country")
    ensures GetAll(ReconciledQuery(q, city, country, active), "lang") ==
              [NormalizeLang(if active == "" then Default else active)]
    ensures forall name :: name !in UrlKeys ==>
              GetAll(ReconciledQuery(q, city, country, active), name) == GetAll(q, name)
    ensures Without(ReconciledQuery(q, city, country, active), UrlKeys) == Without(q, UrlKeys)
  {
    var lang := NormalizeLang(if active == "" then Default else active);
    var q1 := SetParam(q, "city", Trim(city));
    var q2 := if Trim(country) != "" then SetParam(q1, "country", Upper(Trim(country))) else q1;
    SetParamGetAll(q, "city", Trim(city));
    SetParamGetAll(q2, "lang", lang);
    SetParamOther(q, "city", Trim(city), "country");
    SetParamOther(q2, "lang", lang, "city");
    SetParamOther(q2, "lang", lang, "country");
    SetParamKeepsOthers(q, "city", Trim(city), UrlKeys);
    SetParamKeepsOthers(q2, "lang", lang, UrlKeys);
    if Trim(country) != "" {
      SetParamGetAll(q1, "country", Upper(Trim(country)));
      SetParamOther(q1, "country", Upper(Trim(country)), "city");
      SetParamKeepsOthers(q1, "country", Upper(Trim(country)), UrlKeys);
    }
    forall name | name !in UrlKeys
      ensures GetAll(ReconciledQuery(q, city, country, active), name) == GetAll(q, name)
    {
      SetParamOther(q, "city", Trim(city), name);
      if Trim(country) != "" {
        SetParamOther(q1, "country", Upper(Trim(country)), name);
      }
      SetParamOther(q2, "lang", lang, name);
    }
  }

  /**
   * For an already trimmed city and a supported active language, the query
   * `updateUrl` leaves names exactly that city and that language.
   */
  lemma ReconciledQueryTrimmed(q: Params, city: string, country: string, active: string)
    requires IsTrimmed(city) && active in Supported
    ensures GetAll(ReconciledQuery(q, city, country, active), "city") == [city]
    ensures GetAll(ReconciledQuery(q, city, country, active), "lang") == [active]
  {
    ReconciledQueryParams(q, city, country, active);
    TrimFixed(city);
    NormalizeLangSupported(active);
  }

  /**
   * `updateUrl` rewrites only the names it writes: with an empty country,
   * the `country` pairs stay in place, in order, with all other pairs.
   */
  lemma ReconciledQueryKeepsPairs(q: Params, city: string, country: string, active: string)
    ensures var written := if Trim(country) != "" then UrlKeys else {"city", "lang"};
            Without(ReconciledQuery(q, city, country, active), written) == Without(q, written)
  {
    var written := if Trim(country) != "" then UrlKeys else {"city", "lang"};
    var lang := NormalizeLang(if active == "" then Default else active);
    var q1 := SetParam(q, "city", Trim(city));
    var q2 := if Trim(country) != "" then SetParam(q1, "country", Upper(Trim(country))) else q1;
    SetParamKeepsOthers(q, "city", Trim(city), written);
    if Trim(country) != "" {
      SetParamKeepsOthers(q1, "country", Upper(Trim(country)), written);
    }
    SetParamKeepsOthers(q2, "lang", lang, written);
  }

  /** Running `updateUrl` twice gives the same query as running it once. */
  lemma ReconciledQueryIdempotent(q: Params, city: string, country: string, active: string)
    ensures ReconciledQuery(ReconciledQuery(q, city, country, active), city, country, active)
            == ReconciledQuery(q, city, country, active)
  {
    var r := ReconciledQuery(q, city, country, active);
    ReconciledQueryParams(q, city, country, active);
    SetParamFixed(r, "city", Trim(city));
    if Trim(country) != "" {
      SetParamFixed(r, "country", Upper(Trim(country)));
    }
    SetParamFixed(r, "lang", NormalizeLang(if active == "" then Default else active));
  }

  /**
   * After `changeLang`: one `lang` pair holding the language; the city and
   * country written only when they are not empty after trimming (otherwise
   * their pairs are left as they were); every other pair untouched.
   */
  lemma LangQueryParams(q: Params, norm: string, city: string, country: string)
    ensures GetAll(LangQuery(q, norm, city, country), "lang") == [norm]
    ensures GetAll(LangQuery(q, norm, city, country), "city") ==
              if Trim(city) != "" then [Trim(city)] else GetAll(q, "city")
    ensures GetAll(LangQuery(q, norm, city, country), "country") ==
              if Trim(country) != "" then [Upper(Trim(country))] else GetAll(q, "country")
    ensures forall name :: name !in UrlKeys ==>
              GetAll(LangQuery(q, norm, city, country), name) == GetAll(q, name)
    ensures Without(LangQuery(q, norm, city, country), UrlKeys) == Without(q, UrlKeys)
  {
    var q1 := SetParam(q, "lang", norm);
    var q2 := if Trim(city) != "" then SetParam(q1, "city", Trim(city)) else q1;
    SetParamGetAll(q, "lang", norm);
    SetParamOther(q, "lang", norm, "city");
    SetParamOther(q, "lang", norm, "country");
    SetParamKeepsOthers(q, "lang", norm, UrlKeys);
    if Trim(city) != "" {
      SetParamGetAll(q1, "city", Trim(city));
      SetParamOther(q1, "city", Trim(city), "lang");
      SetParamOther(q1, "city", Trim(city), "country");
      SetParamKeepsOthers(q1, "city", Trim(city), UrlKeys);
    }
    if Trim(country) != "" {
      SetParamGetAll(q2, "country", Upper(Trim(country)));
      SetParamOther(q2, "country", Upper(Trim(country)), "lang");
      SetParamOther(q2, "country", Upper(Trim(country)), "city");
      SetParamKeepsOthers(q2, "country", Upper(Trim(country)), UrlKeys);
    }
    forall name | name !in UrlKeys
      ensures GetAll(LangQuery(q, norm, city, country), name) == GetAll(q, name)
    {
      SetParamOther(q, "lang", norm, name);
      if Trim(city) != "" {
        SetParamOther(q1, "city", Trim(city), name);
      }
      if Trim(country) != "" {
        SetParamOther(q2, "country", Upper(Trim(country)), name);
      }
    }
  }

  /**
   * `changeLang` rewrites only the names it writes: an empty city or
   * country keeps its pairs in place, in order, with all other pairs.
   */
  lemma LangQueryKeepsPairs(q: Params, norm: string, city: string, country: string)
    ensures var written := {"lang"} + (if Trim(city) != "" then {"city"} else {})
                                    + (if Trim(country) != "" then {"country"} else {});
            Without(LangQuery(q, norm, city, country), written) == Without(q, written)
  {
    var written := {"lang"} + (if Trim(city) != "" then {"city"} else {})
                            + (if Trim(country) != "" then {"country"} else {});
    var q1 := SetParam(q, "lang", norm);
    var q2 := if Trim(city) != "" then SetParam(q1, "city", Trim(city)) else q1;
    SetParamKeepsOthers(q, "lang", norm, written);
    if Trim(city) != "" {
      SetParamKeepsOthers(q1, "city", Trim(city), written);
    }
    if Trim(country) != "" {
      SetParamKeepsOthers(q2, "country", Upper(Trim(country)), written);
    }
  }

  /** Changing to the same language twice gives the same query as doing it once. */
  lemma LangQueryIdempotent(q: Params, norm: string, city: string, country: string)
    ensures LangQuery(LangQuery(q, norm, city, country), norm, city, country)
            == LangQuery(q, norm, city, country)
  {
    var r := LangQuery(q, norm, city, country);
    LangQueryParams(q, norm, city, country);
    SetParamFixed(r, "lang", norm);
    if Trim(city) != "" {
      SetParamFixed(r, "city", Trim(city));
    }
    if Trim(country) != "" {
      SetParamFixed(r, "country", Upper(Trim(country)));
    }
  }

  /**
   * A request the controller may have issued, given the current-weather
   * requests answered with data so far: its city is trimmed, and a forecast
   * request repeats one of those answered requests.
   */
  predicate WellFormedRequest(r: Request, succeeded: seq<Request>) {
    && IsTrimmed(r.city)
    && (r.endpoint == ForecastEndpoint ==> r.(endpoint := CurrentEndpoint) in succeeded)
  }

  /**
   * Every request of `log` is well formed, and every forecast request comes
   * after its current-weather twin in `log`.
   */
  predicate WellFormedLog(log: seq<Request>, succeeded: seq<Request>) {
    log == [] ||
    (&& WellFormedLog(log[..|log| - 1], succeeded)
     && WellFormedRequest(log[|log| - 1], succeeded)
     && (log[|log| - 1].endpoint == ForecastEndpoint ==>
           Issued(log[|log| - 1].(endpoint := CurrentEndpoint), log[..|log| - 1])))
  }

  /**
   * A well-formed log stays well formed when a well-formed request is
   * appended whose current-weather twin, for a forecast, is already in the log.
   */
  lemma WellFormedLogAppend(log: seq<Request>, succeeded: seq<Request>, r: Request)
    requires WellFormedLog(log, succeeded) && WellFormedRequest(r, succeeded)
    requires r.endpoint == ForecastEndpoint ==> r.(endpoint := CurrentEndpoint) in log
    ensures WellFormedLog(log + [r], succeeded)
  {
    assert (log + [r])[..|log|] == log;
    IssuedIn(r.(endpoint := CurrentEndpoint), log);
  }

  /** Each request of a well-formed log is well formed, and a forecast follows its twin. */
  lemma {:induction false} WellFormedLogAt(log: seq<Request>, succeeded: seq<Request>, i: nat)
    requires WellFormedLog(log, succeeded) && i < |log|
    ensures WellFormedRequest(log[i], succeeded)
    ensures log[i].endpoint == ForecastEndpoint ==> log[i].(endpoint := CurrentEndpoint) in log[..i]
  {
    if i < |log| - 1 {
      WellFormedLogAt(log[..|log| - 1], succeeded, i);
      assert log[..|log| - 1][..i] == log[..i];
    } else {
      IssuedIn(log[i].(endpoint := CurrentEndpoint), log[..i]);
    }
  }

  /** Each request of a well-formed log, found by value, is well formed. */
  lemma {:induction false} WellFormedLogMember(log: seq<Request>, succeeded: seq<Request>, r: Request)
    requires WellFormedLog(log, succeeded) && r in log
    ensures WellFormedRequest(r, succeeded)
  {
    if log[|log| - 1] != r {
      assert log == log[..|log| - 1] + [log[|log| - 1]];
      WellFormedLogMember(log[..|log| - 1], succeeded, r);
    }
  }

  /** A log stays well formed when more current-weather requests have been answered. */
  lemma {:induction false} WellFormedLogGrow(log: seq<Request>, succeeded: seq<Request>, more: seq<Request>)
    requires WellFormedLog(log, succeeded)
    ensures WellFormedLog(log, succeeded + more)
  {
    if log != [] {
      WellFormedLogGrow(log[..|log| - 1], succeeded, more);
      var r := log[|log| - 1];
      if r.endpoint == ForecastEndpoint {
        assert r.(endpoint := CurrentEndpoint) in succeeded + more;
      }
    }
  }

  /** `r` is one of the requests of `log`. */
  predicate Issued(r: Request, log: seq<Request>) {
    log != [] && (log[|log| - 1] == r || Issued(r, log[..|log| - 1]))
  }

  /** `Issued` is membership in the log. */
  lemma {:induction false} IssuedIn(r: Request, log: seq<Request>)
    ensures Issued(r, log) <==> r in log
  {
    if log != [] {
      IssuedIn(r, log[..|log| - 1]);
      assert log == log[..|log| - 1] + [log[|log| - 1]];
    }
  }

  /** Every answered request of `succeeded` asked for current weather and was issued in `log`. */
  predicate AllIssued(succeeded: seq<Request>, log: seq<Request>) {
    succeeded == [] ||
    (&& AllIssued(succeeded[..|succeeded| - 1], log)
     && succeeded[|succeeded| - 1].endpoint == CurrentEndpoint
     && Issued(succeeded[|succeeded| - 1], log))
  }

  /** Answering one more issued current-weather request keeps every answered request issued. */
  lemma AllIssuedAppend(succeeded: seq<Request>, log: seq<Request>, r: Request)
    requires AllIssued(succeeded, log) && r.endpoint == CurrentEndpoint && r in log
    ensures AllIssued(succeeded + [r], log)
  {
    IssuedIn(r, log);
    assert (succeeded + [r])[..|succeeded|] == succeeded;
  }

  /** Issuing one more request keeps every answered request issued. */
  lemma {:induction false} AllIssuedGrow(succeeded: seq<Request>, log: seq<Request>, next: Request)
    requires AllIssued(succeeded, log)
    ensures AllIssued(succeeded, log + [next])
  {
    if succeeded != [] {
      AllIssuedGrow(succeeded[..|succeeded| - 1], log, next);
      assert (log + [next])[..|log|] == log;
    }
  }

  /** An answered request asked for current weather and was issued. */
  lemma {:induction false} AllIssuedAt(succeeded: seq<Request>, log: seq<Request>, r: Request)
    requires AllIssued(succeeded, log) && r in succeeded
    ensures r.endpoint == CurrentEndpoint && r in log
  {
    if r != succeeded[|succeeded| - 1] {
      assert succeeded == succeeded[..|succeeded| - 1] + [succeeded[|succeeded| - 1]];
      AllIssuedAt(succeeded[..|succeeded| - 1], log, r);
    } else {
      IssuedIn(r, log);
    }
  }

  /**
   * The gateway log `log` and the answered requests `succeeded` agree:
   * every issued request is well formed and every answered request was issued.
   */
  predicate GatewayLog(log: seq<Request>, succeeded: seq<Request>) {
    WellFormedLog(log, succeeded) && AllIssued(succeeded, log)
  }

  /** Issuing a current-weather request for a trimmed city keeps the gateway log consistent. */
  lemma IssueCurrent(log: seq<Request>, succeeded: seq<Request>, r: Request)
    requires GatewayLog(log, succeeded) && r.endpoint == CurrentEndpoint && IsTrimmed(r.city)
    ensures GatewayLog(log + [r], succeeded)
  {
    WellFormedLogAppend(log, succeeded, r);
    AllIssuedGrow(succeeded, log, r);
  }

  /**
   * Answering an issued current-weather request with data, then issuing the
   * forecast request for the same city and country, keeps the gateway log consistent.
   */
  lemma AnswerCurrent(log: seq<Request>, succeeded: seq<Request>, r: Request)
    requires GatewayLog(log, succeeded) && r in log && r.endpoint == CurrentEndpoint
    ensures GatewayLog(log + [r.(endpoint := ForecastEndpoint)], succeeded + [r])
  {
    var next := r.(endpoint := ForecastEndpoint);
    WellFormedLogMember(log, succeeded, r);
    WellFormedLogGrow(log, succeeded, [r]);
    WellFormedLogAppend(log, succeeded + [r], next);
    AllIssuedAppend(succeeded, log, r);
    AllIssuedGrow(succeeded + [r], log, next);
  }

  /**
   * Forecast only after current succeeded: every forecast request of a
   * consistent log repeats a current-weather request that was answered with
   * data and was issued before it.
   */
  lemma ForecastAfterCurrent(log: seq<Request>, succeeded: seq<Request>, i: nat)
    requires GatewayLog(log, succeeded) && i < |log| && log[i].endpoint == ForecastEndpoint
    ensures log[i].(endpoint := CurrentEndpoint) in succeeded
    ensures log[i].(endpoint := CurrentEndpoint) in log[..i]
  {
    WellFormedLogAt(log, succeeded, i);
  }

  /** A forecast logged before its current-weather twin is not a consistent log. */
  lemma ForecastFirstRejected()
    ensures !GatewayLog([Request(ForecastEndpoint, "Bern", None), Request(CurrentEndpoint, "Bern", None)],
                        [Request(CurrentEndpoint, "Bern", None)])
  {
    var f := Request(ForecastEndpoint, "Bern", None);
    var log := [f, Request(CurrentEndpoint, "Bern", None)];
    assert log[..1] == [f];
    assert [f][..0] == [];
  }

  class AppComponent {
    var city: string
    var country: string
    /** The language the selector shows. */
    var selectedLang: string
    var loading: bool
    var error: Option<string>
    var current: Option<CurrentWeather>
    var forecast: Option<Forecast>
    /** The translation service's active language (`translate.use`). */
    var activeLang: string
    /** The `lang` entry of the browser's local storage. */
    var storedLang: Option<string>
    /** The query string of the page's address. */
    var query: Params
    /** The gateway requests issued, in order. */
    var sent: seq<Request>
    /** The "current weather" requests answered with data, in order. */
    ghost var succeeded: seq<Request>

    ghost predicate Valid()
      reads this`selectedLang, this`activeLang, this`sent, this`succeeded
    {
      && selectedLang in Supported
      && activeLang == selectedLang
      && GatewayLog(sent, succeeded)
    }

    /** Every request issued so far is well formed. */
    lemma SentWellFormed(i: nat)
      requires Valid() && i < |sent|
      ensures WellFormedRequest(sent[i], succeeded)
    {
      WellFormedLogAt(sent, succeeded, i);
    }

    /**
     * The start-up state. The language is taken from the `lang` parameter of
     * `search`, else from the stored preference `stored`, else the default.
     */
    constructor (search: Params, stored: Option<string>)
      ensures Valid()
      ensures selectedLang == activeLang == InitialLang(GetParam(search, "lang"), stored)
      ensures query == search && storedLang == stored
      ensures city == DefaultCity && country == ""
      ensures !loading && error == None && current == None && forecast == None
      ensures sent == [] && succeeded == []
    {
      var params := new SearchParams(search);
      var fromUrl := params.Get("lang");
      var initial := NormalizeLang(OrElse(fromUrl, OrElse(stored, Default)));
      city := DefaultCity;
      country := "";
      selectedLang := initial;
      loading := false;
      error := None;
      current := None;
      forecast := None;
      activeLang := initial;
      storedLang := stored;
      query := search;
      sent := [];
      succeeded := [];
    }

    /** `ngOnInit`: take non-empty `city` and `country` parameters, then start a refresh. */
    method NgOnInit()
      requires Valid()
      modifies this`city, this`country, this`error, this`loading, this`sent
      ensures Valid()
      ensures var c := GetParam(old(query), "city");
              city == if c.Some? && Trim(c.value) != "" then Trim(c.value) else old(city)
      ensures var cc := GetParam(old(query), "country");
              country == if cc.Some? && Trim(cc.value) != "" then Upper(Trim(cc.value)) else old(country)
      ensures error == None && loading
      ensures sent == old(sent) + [RefreshRequest(city, country)]
    {
      ReadLocation();
      StartRefresh();
    }

    /** The first half of `ngOnInit`: take the non-empty `city` and `country` parameters. */
    method ReadLocation()
      modifies this`city, this`country
      ensures var c := GetParam(query, "city");
              city == if c.Some? && Trim(c.value) != "" then Trim(c.value) else old(city)
      ensures var cc := GetParam(query, "country");
              country == if cc.Some? && Trim(cc.value) != "" then Upper(Trim(cc.value)) else old(country)
    {
      var qp := new SearchParams(query);
      var c := qp.Get("city");
      var cc := qp.Get("country");
      if c.Some? && Trim(c.value) != "" {
        city := Trim(c.value);
      }
      if cc.Some? && Trim(cc.value) != "" {
        country := Upper(Trim(cc.value));
      }
    }

    /** The page's city input writes the public `city` field. */
    method EditCity(value: string)
      modifies this`city
      ensures city == value
    {
      city := value;
    }

    /** The page's country input writes the public `country` field. */
    method EditCountry(value: string)
      modifies this`country
      ensures country == value
    {
      country := value;
    }

    /**
     * `changeLang`: switch the selector, the active language and the stored
     * preference to the normalised language and rewrite the query. The
     * weather data, the loading flag and the error are left alone and no
     * request is issued. `storageWritable` says whether local storage
     * accepts the write; a refused write is ignored.
     */
    method ChangeLang(lang: string, storageWritable: bool)
      requires Valid()
      modifies this`selectedLang, this`activeLang, this`storedLang, this`query
      ensures Valid()
      ensures selectedLang == activeLang == NormalizeLang(lang)
      ensures storedLang == if storageWritable then Some(NormalizeLang(lang)) else old(storedLang)
      ensures query == LangQuery(old(query), NormalizeLang(lang), city, country)
    {
      var norm := NormalizeLang(lang);
      if norm in Supported {
        selectedLang := norm;
        activeLang := norm;
        if storageWritable {
          storedLang := Some(norm);
        }
        KeepLangInUrl(norm);
      }
    }

    /**
     * The query rewrite of `changeLang`: write `lang`, then `city` and
     * `country` when they are not empty after trimming, each with `set`.
     */
    method KeepLangInUrl(norm: string)
      modifies this`query
      ensures query == LangQuery(old(query), norm, city, country)
    {
      var params := new SearchParams(query);
      params.Set("lang", norm);
      if Trim(city) != "" {
        params.Set("city", Trim(city));
      }
      if Trim(country) != "" {
        params.Set("country", Upper(Trim(country)));
      }
      query := params.pairs;
    }

    /**
     * The first half of `refreshAll`: clear the error, raise the loading
     * flag and ask the gateway for the current weather of the trimmed city.
     */
    method StartRefresh()
      requires Valid()
      modifies this`error, this`loading, this`sent
      ensures Valid()
      ensures error == None && loading
      ensures sent == old(sent) + [RefreshRequest(old(city), old(country))]
    {
      var request := RefreshRequest(city, country);
      IssueCurrent(sent, succeeded, request);
      error := None;
      loading := true;
      Send(request);
    }

    /**
     * Current weather arrived for `request`: store it and ask the gateway
     * for the forecast of the same city and country.
     */
    method OnCurrentOk(request: Request, data: CurrentWeather)
      requires Valid()
      requires request in sent && request.endpoint == CurrentEndpoint
      modifies this`current, this`succeeded, this`sent
      ensures Valid()
      ensures current == Some(data)
      ensures sent == old(sent) + [request.(endpoint := ForecastEndpoint)]
      ensures succeeded == old(succeeded) + [request]
    {
      var next := request.(endpoint := ForecastEndpoint);
      AnswerCurrent(sent, succeeded, request);
      current := Some(data);
      succeeded := succeeded + [request];
      Send(next);
    }

    /** The current-weather request failed: report it; no forecast is requested. */
    method OnCurrentErr(request: Request, message: string)
      requires Valid()
      requires request in sent && request.endpoint == CurrentEndpoint
      modifies this`error, this`loading
      ensures Valid()
      ensures error == Some(message) && !loading
    {
      Fail(message);
    }

    /**
     * The forecast arrived for `request`: store it, lower the loading flag
     * and write the request's city, the country field as it is now and the
     * active language into the query.
     */
    method OnForecastOk(request: Request, data: Forecast)
      requires Valid()
      requires request in sent && request.endpoint == ForecastEndpoint
      modifies this`forecast, this`loading, this`query
      ensures Valid()
      ensures forecast == Some(data) && !loading
      ensures query == ReconciledQuery(old(query), request.city, country, activeLang)
    {
      ShowForecast(request.city, data);
    }

    /** The forecast handler's work: store the data, lower the flag, write the URL. */
    method ShowForecast(city: string, data: Forecast)
      modifies this`forecast, this`loading, this`query
      ensures forecast == Some(data) && !loading
      ensures query == ReconciledQuery(old(query), city, country, activeLang)
    {
      forecast := Some(data);
      loading := false;
      UpdateUrl(city, country);
    }

    /** The forecast request failed: report it; the current weather already stored stays. */
    method OnForecastErr(request: Request, message: string)
      requires Valid()
      requires request in sent && request.endpoint == ForecastEndpoint
      modifies this`error, this`loading
      ensures Valid()
      ensures error == Some(message) && !loading
    {
      Fail(message);
    }

    /** Issues `request` to the gateway. */
    method Send(request: Request)
      modifies this`sent
      ensures sent == old(sent) + [request]
    {
      sent := sent + [request];
    }

    /**
     * `updateUrl`: write `city`, then `country` when it is not empty, then
     * the normalised active language into the query, each with `set`.
     */
    method UpdateUrl(city: string, country: string)
      modifies this`query
      ensures query == ReconciledQuery(old(query), city, country, activeLang)
    {
      var qp := new SearchParams(query);
      qp.Set("city", Trim(city));
      if Trim(country) != "" {
        qp.Set("country", Upper(Trim(country)));
      }
      var lang := NormalizeLang(if activeLang == "" then Default else activeLang);
      qp.Set("lang", lang);
      query := qp.pairs;
    }

    /** `fail`: show the message and lower the loading flag; nothing else changes. */
    method Fail(message: string)
      modifies this`error, this`loading
      ensures error == Some(message) && !loading
    {
      error := Some(message);
      loading := false;
    }
  }
}
