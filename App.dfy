/** The application shell (App.tsx): the selected category, the language
    mode, the result cache keyed by category and mode, the error and the
    loading flag, and the handlers that change them. A fetch is split into
    the step that starts it and the step that completes it with the
    provider's outcome; whatever happens in between is the caller's
    choice. */
module App {

  import opened Wrappers
  import opened Types
  import Config
  import Constants
  import Utils
  import opened GeminiService
  import opened ContentDisplay

  /** The mode part of a cache key. */
  function ModeTag(english: bool): (tag: string)
    ensures tag != [] && (tag[|tag| - 1] == 'N' <==> english)
  {
    if english then "EN" else "NATIVE"
  }

  /** The cache key of a category in a language mode: the category, a dash
      and the mode tag. */
  function CacheKey(vertical: string, english: bool): (key: string)
    ensures |key| > |vertical| + 1
    ensures key[..|vertical|] == vertical && key[|vertical|] == '-'
  {
    vertical + "-" + ModeTag(english)
  }

  /** Two cache keys are equal only for the same category in the same mode,
      so a report in one mode never stands in for the other. */
  lemma CacheKeyInjective(v1: string, e1: bool, v2: string, e2: bool)
    requires CacheKey(v1, e1) == CacheKey(v2, e2)
    ensures v1 == v2 && e1 == e2
  {
    var key := CacheKey(v1, e1);
    var t1, t2 := ModeTag(e1), ModeTag(e2);
    assert key[|key| - 1] == t1[|t1| - 1] == t2[|t2| - 1];
    assert e1 == e2;
    assert |v1| == |v2|;
    assert v1 == key[..|v1|] == v2;
  }

  /** The record a fetch that started with `request` asks for. */
  datatype FetchRequest = FetchRequest(vertical: string, english: bool)

  /** The cache entry for fetched insights, stamped with the completion
      time. */
  function Stamped(data: Insights, now: Timestamp): (entry: ApiResult)
    ensures Insights(entry.text, entry.sources) == data && entry.lastUpdated == now
  {
    ApiResult(data.text, data.sources, now)
  }

  const UnknownErrorText: string := "An unknown error occurred."

  /** The message a failed fetch shows: the message of an `Error`, a fixed
      text for any other thrown value. */
  function ErrorMessage(thrown: Thrown): (message: string)
    ensures thrown.ErrorValue? ==> message == thrown.message
    ensures thrown.OtherValue? ==> message == UnknownErrorText
  {
    match thrown
    case ErrorValue(message) => message
    case OtherValue => UnknownErrorText
  }

  /** The report on screen: the cache entry for the selected category in
      the current mode, or none when no category is selected. */
  function CurrentResultFor(selected: Option<string>, english: bool, cache: map<string, ApiResult>)
    : (r: Option<ApiResult>)
    ensures r.Some? <==> Truthy(selected) && CacheKey(selected.value, english) in cache
    ensures r.Some? ==> r.value == cache[CacheKey(selected.value, english)]
  {
    if Truthy(selected) && CacheKey(selected.value, english) in cache
    then Some(cache[CacheKey(selected.value, english)])
    else None
  }

  /** The interface strings: the English catalog when English is forced,
      the market's own catalog otherwise. */
  function TranslationsFor(marketCode: string, english: bool): (t: UiTranslations)
    ensures t in Constants.Catalogs && |t.verticals| == 11
  {
    if english then Constants.GetTranslations("UK") else Constants.GetTranslations(marketCode)
  }

  /** Forcing English shows the English catalog whatever the market; the
      native mode shows the market's own. */
  lemma TranslationsByMode(marketCode: string)
    ensures TranslationsFor(marketCode, true) == Constants.TranslationsEn
    ensures TranslationsFor(marketCode, false) == Constants.GetTranslations(marketCode)
  {
    Constants.CatalogResolution("UK");
  }

  /** Where the toggle is hidden, both modes show the same catalog. */
  lemma HiddenToggleSameCatalog(marketCode: string)
    requires !ShowLanguageToggle(marketCode)
    ensures TranslationsFor(marketCode, true) == TranslationsFor(marketCode, false)
  {
    TranslationsByMode(marketCode);
    Constants.CatalogResolution(marketCode);
  }

  /** The toggle is offered for every English-language market other than
      UK, US and AU, where both modes show the English catalog and only the
      cache key tells them apart. */
  lemma EnglishMarketToggle(i: nat)
    requires i < |Config.Markets|
    requires Config.Markets[i].language == "English"
    requires Config.Markets[i].code !in ["UK", "US", "AU"]
    ensures ShowLanguageToggle(Config.Markets[i].code)
    ensures TranslationsFor(Config.Markets[i].code, false) == TranslationsFor(Config.Markets[i].code, true)
  {
    TranslationsByMode(Config.Markets[i].code);
    Constants.MarketLanguageMatchesCatalog(i);
  }

  /** Sources as the service returns them are all listed, one link per
      source, each showing the source's title. */
  lemma ReportSourcesListed(chunks: seq<ProviderChunk>)
    ensures var sources := KeptSources(chunks);
            && |SourceLinks(sources)| == |sources|
            && forall i :: 0 <= i < |sources| ==>
                 SourceLinks(sources)[i].text == sources[i].web.value.title
                 && SourceLinks(sources)[i].href == sources[i].web.value.uri
  {
    SourceLinksComplete(KeptSources(chunks));
  }

  /** The state of the application. */
  class AppState {
    /** The configured market's code, fixed for the session. */
    const marketCode: string
    var selectedVertical: Option<string>
    var isLoading: bool
    var cache: map<string, ApiResult>
    var error: Option<string>
    var forceEnglish: bool

    /** The loading flag is only raised with a category selected. */
    predicate Valid()
      reads this
    {
      isLoading ==> selectedVertical.Some?
    }

    constructor (env: Option<string>)
      ensures marketCode == Config.GetCurrentMarket(Config.CurrentMarketCode(env)).code
      ensures selectedVertical == None && !isLoading && cache == map[]
      ensures error == None && !forceEnglish
      ensures Valid()
    {
      selectedVertical := None;
      isLoading := false;
      cache := map[];
      error := None;
      forceEnglish := false;
      marketCode := Config.GetCurrentMarket(Config.CurrentMarketCode(env)).code;
    }

    function CurrentResult(): (r: Option<ApiResult>)
      reads this
      ensures r.Some? <==> Truthy(selectedVertical) && CacheKey(selectedVertical.value, forceEnglish) in cache
      ensures r.Some? ==> r.value == cache[CacheKey(selectedVertical.value, forceEnglish)]
    {
      CurrentResultFor(selectedVertical, forceEnglish, cache)
    }

    /** The view on screen; in a valid state the loading view always names
        a selected category. */
    function CurrentView(): (v: View)
      reads this
      ensures Valid() && v.LoadingView? ==> v.selected.Some?
    {
      SelectView(isLoading, CurrentResult(), error, selectedVertical)
    }

    /** The start of `fetchInsightsForVertical`: nothing for an empty
        category; otherwise the loading flag is raised and the error
        cleared. */
    method StartFetch(vertical: string, english: bool) returns (request: Option<FetchRequest>)
      requires vertical != "" ==> selectedVertical.Some?
      requires Valid()
      modifies this
      ensures request.Some? <==> vertical != ""
      ensures request.Some? ==> request.value == FetchRequest(vertical, english) && isLoading && error == None
      ensures request.None? ==> isLoading == old(isLoading) && error == old(error)
      ensures selectedVertical == old(selectedVertical) && cache == old(cache)
      ensures forceEnglish == old(forceEnglish)
      ensures Valid()
    {
      if vertical == "" {
        return None;
      }
      isLoading := true;
      error := None;
      request := Some(FetchRequest(vertical, english));
    }

    /** The end of `fetchInsightsForVertical`: a success writes one cache
        entry, under the key of the category and mode the fetch started
        with; a failure records its message and leaves the cache alone.
        Either way the loading flag drops. */
    method CompleteFetch(request: FetchRequest, outcome: Result<Insights, Thrown>, now: Timestamp)
      modifies this
      ensures outcome.Success? ==>
                cache == old(cache)[CacheKey(request.vertical, request.english) := Stamped(outcome.value, now)]
                && error == old(error)
      ensures outcome.Failure? ==> cache == old(cache) && error == Some(ErrorMessage(outcome.error))
      ensures !isLoading
      ensures selectedVertical == old(selectedVertical) && forceEnglish == old(forceEnglish)
      ensures Valid()
    {
      match outcome {
        case Success(data) =>
          var key := CacheKey(request.vertical, request.english);
          cache := cache[key := Stamped(data, now)];
        case Failure(thrown) =>
          error := Some(ErrorMessage(thrown));
      }
      isLoading := false;
    }

    /** `fetchInsightsForVertical` end to end, with the service call in
        between: nothing for an empty category; otherwise the loading flag
        drops again, a rejected call shows the service's one message naming
        the category, and a response is cached under the category and the
        requested mode. The mode chooses only the cache key: the prompt is
        the same in both modes. */
    method FetchInsightsForVertical(vertical: string, english: bool, clock: Utils.Clock,
                                    generate: string -> ProviderOutcome, now: Timestamp)
      requires vertical != "" ==> selectedVertical.Some?
      requires Valid()
      modifies this
      ensures vertical == "" ==> isLoading == old(isLoading) && error == old(error) && cache == old(cache)
      ensures var outcome := generate(PromptFor(vertical, marketCode, clock));
              vertical != "" ==>
                && !isLoading
                && (outcome.Rejected? ==> cache == old(cache) && error == Some(FailureMessage(vertical)))
                && (outcome.Responded? ==>
                      var data := Insights(ReportText(outcome.response.text),
                                           KeptSources(GroundingChunksOf(outcome.response)));
                      cache == old(cache)[CacheKey(vertical, english) := Stamped(data, now)]
                      && error == None)
      ensures selectedVertical == old(selectedVertical) && forceEnglish == old(forceEnglish)
      ensures Valid()
    {
      var request := StartFetch(vertical, english);
      if request.Some? {
        ghost var outcome := generate(PromptFor(vertical, marketCode, clock));
        var result := FetchVerticalInsights(vertical, marketCode, clock, generate);
        if outcome.Responded? {
          assert result.value == Insights(ReportText(outcome.response.text),
                                          KeptSources(GroundingChunksOf(outcome.response)));
        }
        CompleteFetch(request.value, result, now);
      }
    }

    /** `handleSelectVertical`: selects the category, clears the error and
        fetches only when the current mode's report for it is not cached. */
    method HandleSelectVertical(vertical: string) returns (request: Option<FetchRequest>)
      requires Valid()
      modifies this
      ensures selectedVertical == Some(vertical) && error == None
      ensures cache == old(cache) && forceEnglish == old(forceEnglish)
      ensures request.Some? <==> vertical != "" && CacheKey(vertical, forceEnglish) !in cache
      ensures request.Some? ==> request.value == FetchRequest(vertical, forceEnglish) && isLoading
      ensures request.None? ==> isLoading == old(isLoading)
      ensures Valid()
    {
      selectedVertical := Some(vertical);
      error := None;
      var key := CacheKey(vertical, forceEnglish);
      if key !in cache {
        request := StartFetch(vertical, forceEnglish);
      } else {
        request := None;
      }
    }

    /** `handleUpdateReport`: fetches the selected category in the current
        mode whether or not it is cached; nothing when no category is
        selected. */
    method HandleUpdateReport() returns (request: Option<FetchRequest>)
      requires Valid()
      modifies this
      ensures request.Some? <==> Truthy(selectedVertical)
      ensures request.Some? ==>
                request.value == FetchRequest(selectedVertical.value, forceEnglish) && isLoading && error == None
      ensures request.None? ==> isLoading == old(isLoading) && error == old(error)
      ensures selectedVertical == old(selectedVertical) && cache == old(cache)
      ensures forceEnglish == old(forceEnglish)
      ensures Valid()
    {
      if Truthy(selectedVertical) {
        request := StartFetch(selectedVertical.value, forceEnglish);
      } else {
        request := None;
      }
    }

    /** `handleToggleLanguage`: flips the mode and, with a category
        selected, fetches it in the new mode unless that report is
        cached. */
    method HandleToggleLanguage() returns (request: Option<FetchRequest>)
      requires Valid()
      modifies this
      ensures forceEnglish == !old(forceEnglish)
      ensures request.Some? <==>
                Truthy(selectedVertical) && CacheKey(selectedVertical.value, forceEnglish) !in cache
      ensures request.Some? ==>
                request.value == FetchRequest(selectedVertical.value, forceEnglish) && isLoading && error == None
      ensures request.None? ==> isLoading == old(isLoading) && error == old(error)
      ensures selectedVertical == old(selectedVertical) && cache == old(cache)
      ensures Valid()
    {
      var newMode := !forceEnglish;
      forceEnglish := newMode;
      if Truthy(selectedVertical) {
        var key := CacheKey(selectedVertical.value, newMode);
        if key !in cache {
          request := StartFetch(selectedVertical.value, newMode);
          return;
        }
      }
      request := None;
    }
  }

  /** Selecting a category a second time is served from the cache: the
      first selection fetches, the second does not, and the report is on
      screen. */
  method SelectTwice(env: Option<string>, vertical: string, data: Insights, now: Timestamp)
    returns (first: Option<FetchRequest>, second: Option<FetchRequest>, view: View)
    requires vertical != ""
    ensures first == Some(FetchRequest(vertical, false))
    ensures second == None
    ensures view == ReportView(Stamped(data, now), vertical)
  {
    var app := new AppState(env);
    first := app.HandleSelectVertical(vertical);
    app.CompleteFetch(first.value, Success(data), now);
    second := app.HandleSelectVertical(vertical);
    view := app.CurrentView();
  }

  /** Refreshing fetches even though the report is cached, keeps the old
      report on screen while the fetch runs, and shows the new one after
      it. */
  method RefreshCached(env: Option<string>, vertical: string, data: Insights, now: Timestamp,
                       newer: Insights, later: Timestamp)
    returns (request: Option<FetchRequest>, during: View, after: View)
    requires vertical != ""
    ensures request == Some(FetchRequest(vertical, false))
    ensures during == ReportView(Stamped(data, now), vertical)
    ensures after == ReportView(Stamped(newer, later), vertical)
  {
    var app := new AppState(env);
    var first := app.HandleSelectVertical(vertical);
    app.CompleteFetch(first.value, Success(data), now);
    request := app.HandleUpdateReport();
    during := app.CurrentView();
    app.CompleteFetch(request.value, Success(newer), later);
    after := app.CurrentView();
  }

  /** A failed fetch for one category leaves the report of another in the
      cache: going back to it shows it again without a fetch. */
  method FailureKeepsOtherReport(env: Option<string>, v1: string, v2: string, data: Insights,
                                 now: Timestamp, thrown: Thrown)
    returns (failedView: View, back: Option<FetchRequest>, view: View)
    requires v1 != "" && v2 != "" && v1 != v2
    requires ErrorMessage(thrown) != ""
    ensures failedView == ErrorView(ErrorMessage(thrown))
    ensures back == None
    ensures view == ReportView(Stamped(data, now), v1)
  {
    var app := new AppState(env);
    var first := app.HandleSelectVertical(v1);
    app.CompleteFetch(first.value, Success(data), now);
    var second := app.HandleSelectVertical(v2);
    if CacheKey(v2, false) == CacheKey(v1, false) {
      CacheKeyInjective(v2, false, v1, false);
    }
    app.CompleteFetch(second.value, Failure(thrown), now);
    failedView := app.CurrentView();
    back := app.HandleSelectVertical(v1);
    view := app.CurrentView();
  }

  /** Switching to English and back fetches each mode once; switching back
      finds the native report in the cache. */
  method ToggleRoundTrip(env: Option<string>, vertical: string, native: Insights, english: Insights,
                         now: Timestamp)
    returns (toEnglish: Option<FetchRequest>, toNative: Option<FetchRequest>, view: View)
    requires vertical != ""
    ensures toEnglish == Some(FetchRequest(vertical, true))
    ensures toNative == None
    ensures view == ReportView(Stamped(native, now), vertical)
  {
    var app := new AppState(env);
    var first := app.HandleSelectVertical(vertical);
    app.CompleteFetch(first.value, Success(native), now);
    if CacheKey(vertical, true) == CacheKey(vertical, false) {
      CacheKeyInjective(vertical, true, vertical, false);
    }
    toEnglish := app.HandleToggleLanguage();
    app.CompleteFetch(toEnglish.value, Success(english), now);
    toNative := app.HandleToggleLanguage();
    view := app.CurrentView();
  }
}
