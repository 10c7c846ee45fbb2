/** The insight fetcher (services/geminiService.ts): builds the prompt,
    hands it to the text-generation provider, and normalises the answer into
    a report text and a list of cited sources. The provider itself is a
    function parameter from prompt to outcome. */
module GeminiService {

  import opened Wrappers
  import opened Types
  import opened Strings
  import opened Utils
  import Config

  /** The provider's web reference; both fields may be missing. */
  datatype ProviderWeb = ProviderWeb(uri: Option<string>, title: Option<string>)

  datatype ProviderChunk = ProviderChunk(web: Option<ProviderWeb>)

  datatype GroundingMetadata = GroundingMetadata(groundingChunks: Option<seq<ProviderChunk>>)

  datatype Candidate = Candidate(groundingMetadata: Option<GroundingMetadata>)

  /** The part of the provider's answer the program reads. */
  datatype ProviderResponse = ProviderResponse(text: Option<string>, candidates: Option<seq<Candidate>>)

  /** How the provider call settles: with a response, or by throwing. */
  datatype ProviderOutcome = Responded(response: ProviderResponse) | Rejected

  /** What a successful fetch returns. */
  datatype Insights = Insights(text: string, sources: seq<GroundingChunk>)

  const NoContentText: string := "No content generated."

  /** The message of the single error every failure is turned into. */
  function FailureMessage(vertical: string): (message: string)
    ensures Contains(message, vertical)
  {
    var before, after := "Failed to retrieve insights for ", ". Please check your API key and network connection.";
    ContainsMiddle(before, vertical, after);
    before + vertical + after
  }

  /** The prompt sent to the provider, as the pieces of its template. Its
      section headings are fixed English text whatever the market, and the
      language requested is the market's. */
  function Prompt(vertical: string, market: MarketConfig, info: QuarterInfo): (prompt: string)
    ensures Contains(prompt, "\"" + vertical + "\"")
  {
    var quoted := "\"" + vertical + "\"";
    ContainsMiddle(PromptHead(market), quoted, PromptTail(market, info));
    PromptHead(market) + quoted + PromptTail(market, info)
  }

  /** The template up to the quoted vertical. */
  function PromptHead(market: MarketConfig): string {
    Concat([PromptOpening, market.name, PromptPlatform, market.platformName, PromptVertical])
  }

  /** The template after the quoted vertical. */
  function PromptTail(market: MarketConfig, info: QuarterInfo): string {
    Concat([PromptLanguage, market.language,
            PromptStructure, QuarterLabel(info.currentQuarter, info.currentYear),
            PromptLookAhead, QuarterLabel(info.nextQuarter, info.nextQuarterYear), PromptClosing])
  }

  /** The fixed text of the template between the substituted values. */
  const PromptOpening: string := "\n      As an expert e-commerce analyst for the "
  const PromptPlatform: string := " market, provide a detailed and professionally formatted report for sellers on the "
  const PromptVertical: string := " for the "
  const PromptLanguage: string := " vertical. The report must be written in "
  const PromptLookAhead: string :=
    ")\n      (Comment on specific items expected to surge or decline in demand *right now*.)\n\n      ### Look Ahead to "
  const PromptClosing: string := "\n      (Provide a forecast and preparation advice for the upcoming quarter.)\n    "

  /** The fixed middle of the prompt: the section headings and what each
      section must contain, up to the current quarter's label. */
  const PromptStructure: string :=
      ".\n"
      + "\n"
      + "      The report must follow this exact Markdown structure:\n"
      + "\n"
      + "      ## Executive Summary\n"
      + "      (A brief, high-level overview of the vertical's current state and key opportunities.)\n"
      + "\n"
      + "      ## Current Market Health & Trends\n"
      + "      (Detailed analysis of the vertical's health, growth areas, declining segments, and recent consumer trends.)\n"
      + "\n"
      + "      ## Seasonal Demand Variations\n"
      + "      (Identify key seasonal peaks and troughs. Provide actionable advice for sellers.)\n"
      + "\n"
      + "      ## Key Buyer Influencers\n"
      + "      (Analysis of the most important purchasing factors for customers, e.g., price, brand, quality, shipping.)\n"
      + "\n"
      + "      ## Key Takeaways & Actionable Advice\n"
      + "      (A bulleted list of concrete, actionable recommendations for stocking, pricing, and promotional strategies.)\n"
      + "\n"
      + "      ## Top Keywords for eBay Listings\n"
      + "      (A bulleted list of the top 10-15 relevant keywords that sellers should include in their eBay listings to improve visibility.)\n"
      + "\n"
      + "      ### Current Quarter ("

  /** The quarter label the prompt uses, such as `Q3 2025`. */
  function QuarterLabel(quarter: int, year: int): (text: string)
    ensures 1 <= quarter <= 4 ==>
              && |text| >= 4 && text[..3] == ['Q', DigitChar(quarter), ' ']
              && (year >= 0 ==> AllDigits(text[3..]) && DigitsValue(text[3..]) == year)
  {
    var text := "Q" + IntToString(quarter) + " " + IntToString(year);
    assert 1 <= quarter <= 4 ==> text[3..] == IntToString(year);
    text
  }

  /** The prompt names the market, its platform and language, the quoted
      vertical, and both the current and the next quarter with their years. */
  lemma PromptMentions(vertical: string, market: MarketConfig, info: QuarterInfo)
    ensures var p := Prompt(vertical, market, info);
            && Contains(p, market.name)
            && Contains(p, market.platformName)
            && Contains(p, market.language)
            && Contains(p, "\"" + vertical + "\"")
            && Contains(p, QuarterLabel(info.currentQuarter, info.currentYear))
            && Contains(p, QuarterLabel(info.nextQuarter, info.nextQuarterYear))
  {
    var head := [PromptOpening, market.name, PromptPlatform, market.platformName, PromptVertical];
    var tail := [PromptLanguage, market.language,
                 PromptStructure, QuarterLabel(info.currentQuarter, info.currentYear),
                 PromptLookAhead, QuarterLabel(info.nextQuarter, info.nextQuarterYear), PromptClosing];
    var quoted := "\"" + vertical + "\"";
    ConcatContains(head, 1);
    ConcatContains(head, 3);
    ContainsBefore(Concat(head), quoted + Concat(tail), market.name);
    ContainsBefore(Concat(head), quoted + Concat(tail), market.platformName);
    ConcatContains(tail, 1);
    ConcatContains(tail, 3);
    ConcatContains(tail, 5);
    ContainsAfter(Concat(head) + quoted, Concat(tail), market.language);
    ContainsAfter(Concat(head) + quoted, Concat(tail), QuarterLabel(info.currentQuarter, info.currentYear));
    ContainsAfter(Concat(head) + quoted, Concat(tail), QuarterLabel(info.nextQuarter, info.nextQuarterYear));
    AppendAssoc(Concat(head), quoted, Concat(tail));
  }

  /** `response.text || "No content generated."`: never empty. */
  function ReportText(text: Option<string>): (r: string)
    ensures r != ""
    ensures text.Some? && text.value != "" ==> r == text.value
    ensures text.None? || text.value == "" ==> r == NoContentText
  {
    match text
    case Some(t) => if t != "" then t else NoContentText
    case None => NoContentText
  }

  /** `response.candidates?.[0]?.groundingMetadata?.groundingChunks || []`:
      the chunks of the first candidate, or none when any step is missing. */
  function GroundingChunksOf(response: ProviderResponse): (chunks: seq<ProviderChunk>)
    ensures chunks != [] ==>
              && response.candidates.Some? && response.candidates.value != []
              && response.candidates.value[0].groundingMetadata.Some?
              && response.candidates.value[0].groundingMetadata.value.groundingChunks == Some(chunks)
    ensures && response.candidates.Some? && response.candidates.value != []
            && response.candidates.value[0].groundingMetadata.Some?
            && response.candidates.value[0].groundingMetadata.value.groundingChunks.Some?
            ==> chunks == response.candidates.value[0].groundingMetadata.value.groundingChunks.value
  {
    match response.candidates
    case None => []
    case Some(candidates) =>
      if candidates == [] then []
      else match candidates[0].groundingMetadata
        case None => []
        case Some(metadata) => match metadata.groundingChunks
          case None => []
          case Some(chunks) => chunks
  }

  /** A chunk is kept when it has a web reference with a non-empty URI. */
  predicate Usable(chunk: ProviderChunk) {
    chunk.web.Some? && chunk.web.value.uri.Some? && chunk.web.value.uri.value != ""
  }

  /** The source kept for a usable chunk: its URI, and its title or, when
      the title is missing or empty, the URI again. */
  function Cleaned(chunk: ProviderChunk): (source: GroundingChunk)
    requires Usable(chunk)
    ensures WellFormedSource(source) && source.web.value.uri == chunk.web.value.uri.value
    ensures chunk.web.value.title.Some? && chunk.web.value.title.value != "" ==>
              source.web.value.title == chunk.web.value.title.value
    ensures chunk.web.value.title.None? || chunk.web.value.title.value == "" ==>
              source.web.value.title == source.web.value.uri
  {
    var web := chunk.web.value;
    var uri := web.uri.value;
    GroundingChunk(Some(WebSource(uri, if web.title.Some? && web.title.value != "" then web.title.value else uri)))
  }

  /** A source as the service promises it: a web reference whose URI and
      title are both non-empty. */
  predicate WellFormedSource(source: GroundingChunk) {
    source.web.Some? && source.web.value.uri != "" && source.web.value.title != ""
  }

  /** The sources kept from a list of chunks, in their order. */
  function KeptSources(chunks: seq<ProviderChunk>): (sources: seq<GroundingChunk>)
    ensures |sources| <= |chunks|
    ensures forall i :: 0 <= i < |sources| ==> WellFormedSource(sources[i])
  {
    if chunks == [] then []
    else (if Usable(chunks[0]) then [Cleaned(chunks[0])] else []) + KeptSources(chunks[1..])
  }

  /** Keeping sources distributes over concatenation: the order of the
      chunks is the order of the sources. */
  lemma {:induction false} KeptSourcesAppend(a: seq<ProviderChunk>, b: seq<ProviderChunk>)
    ensures KeptSources(a + b) == KeptSources(a) + KeptSources(b)
  {
    if a == [] {
      assert a + b == b;
    } else {
      assert (a + b)[1..] == a[1..] + b;
      KeptSourcesAppend(a[1..], b);
    }
  }

  /** A source is kept exactly when some usable chunk cleans to it. */
  lemma {:induction false} KeptSourcesMembership(chunks: seq<ProviderChunk>, source: GroundingChunk)
    ensures source in KeptSources(chunks) <==>
            exists i :: 0 <= i < |chunks| && Usable(chunks[i]) && Cleaned(chunks[i]) == source
  {
    if chunks != [] {
      KeptSourcesMembership(chunks[1..], source);
      if source in KeptSources(chunks[1..]) {
        var i :| 0 <= i < |chunks[1..]| && Usable(chunks[1..][i]) && Cleaned(chunks[1..][i]) == source;
        assert chunks[i + 1] == chunks[1..][i];
      }
      if exists i :: 0 <= i < |chunks| && Usable(chunks[i]) && Cleaned(chunks[i]) == source {
        var i :| 0 <= i < |chunks| && Usable(chunks[i]) && Cleaned(chunks[i]) == source;
        if i > 0 {
          assert chunks[1..][i - 1] == chunks[i];
        }
      }
    }
  }

  /** Chunks without a usable web reference contribute nothing; when every
      chunk is usable, every chunk gives a source. */
  lemma {:induction false} KeptSourcesCount(chunks: seq<ProviderChunk>)
    ensures (forall i :: 0 <= i < |chunks| ==> !Usable(chunks[i])) ==> KeptSources(chunks) == []
    ensures (forall i :: 0 <= i < |chunks| ==> Usable(chunks[i])) ==> |KeptSources(chunks)| == |chunks|
  {
    if chunks != [] {
      KeptSourcesCount(chunks[1..]);
      assert forall i :: 1 <= i < |chunks| ==> chunks[1..][i - 1] == chunks[i];
    }
  }

  /** The filter on one chunk: it gives a source exactly when it has a web
      reference with a non-empty URI, and that source is its cleaned form. */
  lemma KeptSourcesSingle(chunk: ProviderChunk)
    ensures KeptSources([chunk]) != [] <==>
              chunk.web.Some? && chunk.web.value.uri.Some? && chunk.web.value.uri.value != ""
    ensures Usable(chunk) ==> KeptSources([chunk]) == [Cleaned(chunk)]
  {
  }

  /** The loop that cleans the provider's chunks into the sources list. */
  method NormaliseSources(groundingChunks: seq<ProviderChunk>) returns (sources: seq<GroundingChunk>)
    ensures sources == KeptSources(groundingChunks)
  {
    sources := [];
    for i := 0 to |groundingChunks|
      invariant sources == KeptSources(groundingChunks[..i])
    {
      var chunk := groundingChunks[i];
      if chunk.web.Some? && chunk.web.value.uri.Some? && chunk.web.value.uri.value != "" {
        var uri := chunk.web.value.uri.value;
        var title := if chunk.web.value.title.Some? && chunk.web.value.title.value != "" then chunk.web.value.title.value else uri;
        sources := sources + [GroundingChunk(Some(WebSource(uri, title)))];
      }
      assert groundingChunks[..i + 1] == groundingChunks[..i] + [chunk];
      KeptSourcesAppend(groundingChunks[..i], [chunk]);
    }
    assert groundingChunks[..|groundingChunks|] == groundingChunks;
  }

  /** The prompt built for a vertical from the configured market and the clock. */
  function PromptFor(vertical: string, currentMarketCode: string, clock: Clock): (prompt: string)
    ensures var market := Config.GetCurrentMarket(currentMarketCode);
            var info := CurrentQuarterInfo(clock.dayOfYear, clock.startWeekday, clock.year);
            && Contains(prompt, market.name)
            && Contains(prompt, market.language)
            && Contains(prompt, QuarterLabel(info.currentQuarter, clock.year))
  {
    var market := Config.GetCurrentMarket(currentMarketCode);
    var info := CurrentQuarterInfo(clock.dayOfYear, clock.startWeekday, clock.year);
    PromptMentions(vertical, market, info);
    Prompt(vertical, market, info)
  }

  /** `fetchVerticalInsights`: one provider call. Only the vertical selects
      the report; the market comes from the configuration and the quarter
      from the clock. Any failure becomes the one fixed error message. */
  method FetchVerticalInsights(vertical: string, currentMarketCode: string, clock: Clock,
                               generate: string -> ProviderOutcome)
    returns (r: Result<Insights, Thrown>)
    ensures var outcome := generate(PromptFor(vertical, currentMarketCode, clock));
            && (r.Failure? <==> outcome.Rejected?)
            && (r.Failure? ==> r.error == ErrorValue(FailureMessage(vertical)))
            && (r.Success? ==> r.value.text == ReportText(outcome.response.text)
                               && r.value.sources == KeptSources(GroundingChunksOf(outcome.response)))
  {
    var info := CurrentQuarterInfo(clock.dayOfYear, clock.startWeekday, clock.year);
    var market := Config.GetCurrentMarket(currentMarketCode);
    var prompt := Prompt(vertical, market, info);
    match generate(prompt)
    case Rejected =>
      r := Failure(ErrorValue(FailureMessage(vertical)));
    case Responded(response) =>
      var text := ReportText(response.text);
      var groundingChunks := GroundingChunksOf(response);
      var sources := NormaliseSources(groundingChunks);
      r := Success(Insights(text, sources));
  }
}
