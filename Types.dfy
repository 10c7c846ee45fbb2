/** The records shared by the program's modules (types.ts). */
module Types {

  import opened Wrappers

  /** A cited web page. */
  datatype WebSource = WebSource(uri: string, title: string)

  /** A citation; `web` is optional in the record type. */
  datatype GroundingChunk = GroundingChunk(web: Option<WebSource>)

  /** A client-side moment in time; only its identity matters to the model. */
  type Timestamp = int

  /** One fetched report as kept in the result cache. */
  datatype ApiResult = ApiResult(text: string, sources: seq<GroundingChunk>, lastUpdated: Timestamp)

  /** What a rejected call carries: an `Error` object with its message, or
      some other thrown value. */
  datatype Thrown = ErrorValue(message: string) | OtherValue

  /** One regional deployment target. `code` is one of `MarketCodes` in the
      static table, but the configured code is an unchecked cast and may be
      any string. */
  datatype MarketConfig = MarketConfig(name: string, code: string, platformName: string, language: string)

  /** The closed union of market codes the record type declares, in the
      order it lists them. */
  const MarketCodeList: seq<string> :=
    ["UK", "US", "DE", "AU", "FR", "IT", "ES", "NL", "CA", "CA-FR",
     "IE", "AT", "PL", "CH", "BE-NL", "BE-FR", "HK", "MY", "PH", "SG"]

  const MarketCodes: set<string> := set code | code in MarketCodeList

  /** The localized user-interface strings of one language, with the
      category ("vertical") names in navigation order. */
  datatype UiTranslations = UiTranslations(
    welcomeTitle: string,
    welcomeIntro: string,
    welcomeInstruction: string,
    loadingMessage: string,
    errorMessage: string,
    reportTitleSuffix: string,
    lastUpdated: string,
    copyButton: string,
    copiedButton: string,
    updateButton: string,
    downloadButton: string,
    sourcesTitle: string,
    footerText: string,
    verticals: seq<string>,
    sectionExecutiveSummary: string,
    sectionMarketHealth: string,
    sectionBuyerInfluencers: string,
    sectionKeyTakeaways: string,
    sectionKeywords: string,
    sectionCurrentQuarter: string,
    sectionLookAhead: string,
    subHeadingIncrease: string,
    subHeadingDecrease: string)
}
