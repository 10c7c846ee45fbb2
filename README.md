# eAMS Marketpulse — a verified model of its core

Marketpulse is a browser application that produces market reports for
online sellers. The deployment is configured with one market (UK, USA,
Germany and seventeen others). The user picks a product category (a
"vertical"). The application then asks a language model with web search
for a Markdown-like report on that category in that market, for the
current and the next quarter. It renders the report as headings, bullet
lists and paragraphs, with the cited web sources underneath. It caches
each report per category and language mode. It can also switch the
interface to English.

This project models the logic behind that in Dafny and proves properties
of it:

- **Markets** (`Config.dfy`, config.ts): the market registry and the
  choice of the configured market, falling back to the UK.
- **Catalogs** (`Constants.dfy`, constants.ts): the seven interface-string
  catalogs and the market-code-to-catalog switch.
- **Quarters** (`Utils.dfy`, utils.ts): the quarter calculator. The clock
  is a parameter.
- **Fetching** (`GeminiService.dfy`, services/geminiService.ts):
  - building the prompt;
  - the fallback text when the response is empty;
  - the loop that cleans the cited sources;
  - the single error message for any failure.

  The provider call is a function parameter.
- **Display** (`ContentDisplay.dfy`, components/ContentDisplay.tsx):
  - the line-based report formatter, as a method with its loop, proved
    equal to a run-based reading of the report;
  - the choice of the view shown;
  - when the language toggle is shown;
  - the sources list with its title-or-URI fallback.
- **Application state** (`App.dfy`, App.tsx): a class with fields for:
  - the selected category;
  - the language mode;
  - the result cache;
  - the error;
  - the loading flag.

  Its handlers are methods. The cache-key and displayed-result
  derivations are pure functions.
- **Shared definitions**:
  - `Strings.dfy` holds the JavaScript string built-ins the code relies on:
    `trim` and the `\s` class, `startsWith`, `split('\n')`, and the decimal
    rendering of an integer.
  - `Types.dfy` holds the records of types.ts.
  - `Wrappers.dfy` holds `Option` and `Result`.

Main results:

- **The formatter method equals its specification.**
  `RenderFormattedText` computes `Format(text)`. `Format` reads each
  maximal run of bullet lines as one list, and each heading or text line
  as one block. Blank lines produce nothing.
- **What `Format` guarantees:**
  - every bullet item lands in exactly one list, in order;
  - no other block is lost or added;
  - empty and all-blank input gives no blocks;
  - there are never more blocks than lines.
- **Formatting is a normal form.** Writing well-formed blocks back out as
  Markdown and formatting that text gives the same blocks back
  (`FormatToMarkdown`). Formatting a re-serialised report changes nothing
  (`FormatIdempotent`).
- **Cache keys are injective.** Two keys are equal only for the same
  category in the same mode.
- **Handler behaviour:**
  - a select handler fetches only on a cache miss;
  - refresh always fetches;
  - a failure never touches the cache.

  Scenario methods (`SelectTwice`, `RefreshCached`,
  `FailureKeepsOtherReport`, `ToggleRoundTrip`) run the handlers on a
  fresh state and prove what the user sees.

Notes on the code's behaviour:

- Every failure of a fetch becomes the same message naming the vertical
  (services/geminiService.ts:73-75). The cause of the failure is not told
  apart, and no access key is checked before the call.
- App.tsx:37 passes the English flag to `fetchVerticalInsights`, but that
  function takes only the vertical (services/geminiService.ts:10). The
  prompt's language is therefore always the market's own, and an
  English-mode cache entry holds a report written in the market's
  language (`App.AppState.FetchInsightsForVertical`).
- The language toggle is offered for every market except UK, US and AU.
  This includes CA, IE, HK, MY, PH and SG, which are English-language
  markets. For them both modes show the English catalog and differ only
  in the cache key (`App.EnglishMarketToggle`).

## Model

| member | source | states |
|---|---|---|
| Strings.Trim | components/ContentDisplay.tsx:96 | the result of `trim` has no whitespace at either end, and is empty exactly when the line is all whitespace |
| Strings.TrimPadded | components/ContentDisplay.tsx:96 | a trimmed text surrounded by whitespace on both sides trims to exactly that text |
| Strings.TrimSplits | components/ContentDisplay.tsx:96 | every line is leading whitespace, then its trimmed text, then trailing whitespace, so `trim` removes only whitespace and only at the ends |
| Strings.TrimIndented | components/ContentDisplay.tsx:96 | any run of leading whitespace is ignored by `trim` |
| Strings.Split | components/ContentDisplay.tsx:78 | `split('\n')` gives at least one piece, and no piece holds a line feed |
| Strings.JoinSplit | components/ContentDisplay.tsx:78 | joining the pieces of `split('\n')` with line feeds gives the text back |
| Strings.SplitJoin | components/ContentDisplay.tsx:78 | splitting line-feed-free lines joined by line feeds gives the lines back |
| Strings.ConcatContains | services/geminiService.ts:15-43 | every substituted piece of a template literal occurs in the resulting string |
| Strings.NatToStringValue | services/geminiService.ts:38 | the decimal rendering of a quarter or year reads back as the same number |
| Strings.IntToString | services/geminiService.ts:38 | a non-negative integer renders as digits that read back as the number; a negative one as `-` followed by digits that read back as its magnitude |
| Utils.WeekOfYear | utils.ts:18 | the week is at least 1, and `ceil((day + weekday + 1) / 7)` is pinned by its two bounds |
| Utils.QuarterOfWeek | utils.ts:20 | `min(4, ceil(week / 13))` is 1 to 4: weeks 1-13 give Q1, 14-26 Q2, 27-39 Q3, 40 and later Q4 |
| Utils.CurrentQuarterInfo | utils.ts:14-39 | quarters lie in 1..4, the current year is the clock's year, and the next quarter is the one right after the current one, counting across the year boundary |
| Utils.NextQuarterWraps | utils.ts:23-31 | the next quarter is current + 1 for Q1-Q3 and 1 after Q4; its year moves on exactly when the current quarter is 4 |
| Utils.QuarterByDay | utils.ts:17-20 | the quarter as ranges of day-of-year plus start weekday (up to 90, 91-181, 182-272, 273 and more) |
| Utils.FirstDayOfYear | utils.ts:17-31 | day 0 is Q1 with next quarter Q2 of the same year |
| Utils.LastDayOfYear | utils.ts:17-31 | day 364 or 365 is Q4 with next quarter Q1 of the following year |
| Utils.QuarterMonotone | utils.ts:18-20 | for a fixed start weekday and year, a later day never has an earlier quarter |
| Config.CurrentMarketCode | config.ts:36-38 | the configured code is the environment value when present and non-empty, `UK` otherwise |
| Config.FindMarket | config.ts:42 | `Array.find` gives the first entry with the code, or none exactly when no entry has it |
| Config.GetCurrentMarket | config.ts:41-51 | the market is a registry entry; it has the configured code when one exists, and is the UK entry otherwise |
| Config.MarketsDistinct | config.ts:3-31 | the registry has 20 entries with pairwise distinct codes |
| Config.MarketsCoverCodes | config.ts:3-31 | a code has a registry entry exactly when it is one of the codes the market record type declares (types.ts:18) |
| Constants.GetTranslations | constants.ts:295-332 | the switch is total, always returns one of the seven catalogs, and that catalog lists 11 verticals |
| Constants.CatalogResolution | constants.ts:296-331 | DE/AT/CH give German, FR/BE-FR/CA-FR French, IT Italian, ES Spanish, NL/BE-NL Dutch, PL Polish, and every other code English, each as an if-and-only-if |
| Constants.CatalogsListElevenVerticals | constants.ts:5-17 | every catalog lists 11 verticals, and the English catalog lists the master list |
| Constants.MarketLanguageMatchesCatalog | constants.ts:295-332 | each registry entry's code resolves to the catalog of the language the entry declares (config.ts:3-31) |
| Constants.CatalogsDistinct | constants.ts:19-292 | the seven catalogs are pairwise different |
| GeminiService.Prompt | services/geminiService.ts:15-43 | the prompt contains the vertical in double quotes |
| GeminiService.PromptMentions | services/geminiService.ts:12-43 | the prompt names the market, the platform, the language, the quoted vertical, `Q<current> <year>` and `Q<next> <next year>` |
| GeminiService.QuarterLabel | services/geminiService.ts:38-41 | for a quarter 1 to 4 the label is `Q`, that digit, a space, and then the decimal digits of a non-negative year |
| GeminiService.PromptFor | services/geminiService.ts:12-15 | the prompt built from the clock and the configured market names that market and its language and carries the current quarter's `Q<n> <year>` label |
| GeminiService.ReportText | services/geminiService.ts:53 | the report text is the response text when non-empty, `No content generated.` otherwise, and never empty |
| GeminiService.GroundingChunksOf | services/geminiService.ts:54 | when the first candidate's grounding metadata holds chunks, those are the chunks; otherwise, at any missing step, there are none |
| GeminiService.KeptSources | services/geminiService.ts:57-70 | there are never more sources than chunks, and every kept source has a web reference with a non-empty URI and title |
| GeminiService.KeptSourcesAppend | services/geminiService.ts:60-69 | cleaning distributes over concatenation, so sources keep the chunks' order |
| GeminiService.KeptSourcesMembership | services/geminiService.ts:61-67 | a source is kept exactly when some chunk with a web reference and a non-empty URI cleans to it (title, or URI when the title is missing or empty) |
| GeminiService.KeptSourcesCount | services/geminiService.ts:60-69 | unusable chunks give no sources; all-usable chunks give one source each |
| GeminiService.Usable | services/geminiService.ts:61 | stated by `KeptSourcesSingle`: a single chunk gives a source exactly when it has a web reference with a non-empty URI |
| GeminiService.KeptSourcesSingle | services/geminiService.ts:61-67 | one chunk gives a source exactly when it has a web reference with a non-empty URI, and that source is its cleaned form |
| GeminiService.Cleaned | services/geminiService.ts:62-67 | the kept source has the chunk's URI, the chunk's title when it is present and non-empty, and the URI as title otherwise; both are non-empty |
| GeminiService.NormaliseSources | services/geminiService.ts:57-70 | the loop computes exactly the cleaned sources of all chunks |
| GeminiService.FailureMessage | services/geminiService.ts:75 | the error message contains the vertical |
| GeminiService.FetchVerticalInsights | services/geminiService.ts:10-77 | the call fails exactly when the provider rejects; a failure carries the fixed message naming the vertical; a success carries the fallback text and the cleaned sources of the response to the built prompt |
| ContentDisplay.ClassifyTrimmed | components/ContentDisplay.tsx:98-111 | heading and item texts are non-empty, items and paragraphs are trimmed, and a line is blank exactly when it is empty |
| ContentDisplay.Classify | components/ContentDisplay.tsx:96-111 | the same guarantees, stated of the untrimmed line |
| ContentDisplay.BlankIffWhitespace | components/ContentDisplay.tsx:106 | a line is blank exactly when it is all whitespace |
| ContentDisplay.HeadingThreeFirst | components/ContentDisplay.tsx:98-100 | a trimmed line starting with `### ` is an H3 of the text after four characters, never an H2 |
| ContentDisplay.PlainLine | components/ContentDisplay.tsx:108-110 | a trimmed non-empty line with no heading or bullet marker at its start is a paragraph of the whole line |
| ContentDisplay.BareHashesNotHeading | components/ContentDisplay.tsx:101-110 | `##` with no following space is a paragraph |
| ContentDisplay.FourHashesNotHeading | components/ContentDisplay.tsx:98-110 | `#### x` is a paragraph |
| ContentDisplay.BulletLine | components/ContentDisplay.tsx:104-105 | a trimmed line starting with `* ` or `- ` is a bullet whose item is the line without its marker and all whitespace after it |
| ContentDisplay.BulletRoundTrip | components/ContentDisplay.tsx:104-105 | a marker, a space and a trimmed item read back as that item, for both markers |
| ContentDisplay.BulletText | components/ContentDisplay.tsx:105 | the item left after removing the marker and the whitespace after it is non-empty, trimmed, and at least two characters shorter than the line |
| ContentDisplay.HeadingTwoLine | components/ContentDisplay.tsx:101-103 | a trimmed line starting with `## ` but not `### ` is an H2 of the text after three characters |
| ContentDisplay.HeadingTwoRoundTrip | components/ContentDisplay.tsx:101-103 | `## ` followed by a trimmed heading text reads back as an H2 of that text |
| ContentDisplay.HeadingThreeRoundTrip | components/ContentDisplay.tsx:98-100 | `### ` followed by a trimmed heading text reads back as an H3 of that text |
| ContentDisplay.DashRoundTrip | components/ContentDisplay.tsx:104-105 | `- ` followed by a trimmed item reads back as a bullet holding that item |
| ContentDisplay.LeadingItems | components/ContentDisplay.tsx:104-105 | the items of the bullet run at the front are those bullets' items, and the run is maximal |
| ContentDisplay.Render | components/ContentDisplay.tsx:95-114 | never more blocks than lines, and no list block is empty |
| ContentDisplay.Format | components/ContentDisplay.tsx:77-117 | a report formats to no more blocks than it has lines, and no list block is empty |
| ContentDisplay.FlushList | components/ContentDisplay.tsx:82-93 | flushing emits one list exactly when items are pending, and leaves nothing pending |
| ContentDisplay.FormatLine | components/ContentDisplay.tsx:98-111 | a bullet is appended to the pending items; any other line flushes them, then adds its heading or paragraph, or nothing for a blank line |
| ContentDisplay.FormatStep | components/ContentDisplay.tsx:95-112 | one iteration keeps "blocks so far + what the rest will give" unchanged |
| ContentDisplay.RenderFormattedText | components/ContentDisplay.tsx:77-117 | the formatter's loop and final flush produce exactly `Format(text)` |
| ContentDisplay.RenderListsBullets | components/ContentDisplay.tsx:95-114 | the items of the list blocks, in order, are exactly the bullet lines' items |
| ContentDisplay.RenderKeepsOthers | components/ContentDisplay.tsx:98-111 | the non-list blocks, in order, are exactly the headings and text lines |
| ContentDisplay.BulletRun | components/ContentDisplay.tsx:104-114 | a run of consecutive bullet lines is one list block holding all their items |
| ContentDisplay.ListThenHeading | components/ContentDisplay.tsx:98-105 | a list directly followed by an H2 or an H3 heading is closed before the heading, which then follows it as its own block |
| ContentDisplay.RenderEmpty | components/ContentDisplay.tsx:106-107 | nothing is rendered exactly when every line is blank |
| ContentDisplay.FormatEmpty | components/ContentDisplay.tsx:78-114 | a text formats to nothing exactly when all its lines are blank, and never to more blocks than lines |
| ContentDisplay.FormatNothing | components/ContentDisplay.tsx:78 | the empty text formats to nothing |
| ContentDisplay.FormatToMarkdown | components/ContentDisplay.tsx:77-117 | well-formed blocks written out as Markdown format back to the same blocks |
| ContentDisplay.FormatWritable | components/ContentDisplay.tsx:95-114 | every block the formatter produces is well-formed |
| ContentDisplay.FormatIdempotent | components/ContentDisplay.tsx:77-117 | formatting the re-serialised output of the formatter gives the same blocks |
| ContentDisplay.ExampleReport | components/ContentDisplay.tsx:77-117 | `## A`, blank, `- x`, `- y`, blank, `### B`, `plain text` give H2, one two-item list, H3 and a paragraph, in that order |
| ContentDisplay.SelectView | components/ContentDisplay.tsx:203-211 | loading exactly when loading with no result; otherwise a non-empty error wins; the report needs a result and a non-empty vertical; initial otherwise |
| ContentDisplay.RefreshKeepsReport | components/ContentDisplay.tsx:203-208 | while a report at hand is refreshed, it stays on screen |
| ContentDisplay.ErrorOverReport | components/ContentDisplay.tsx:205-206 | an error hides a report at hand |
| ContentDisplay.NothingSelected | components/ContentDisplay.tsx:207-210 | with no vertical selected, no error and nothing loading, the initial view shows |
| ContentDisplay.ShowLanguageToggle | components/ContentDisplay.tsx:183 | the toggle is hidden exactly for UK, US and AU |
| ContentDisplay.LinkText | components/ContentDisplay.tsx:162 | a link shows the title when it is non-empty, the URI otherwise |
| ContentDisplay.SourcesSection | components/ContentDisplay.tsx:153-169 | the sources section appears exactly when there are sources |
| ContentDisplay.SourceLinks | components/ContentDisplay.tsx:158-165 | never more links than sources, and no link at all exactly when no source has a web page |
| ContentDisplay.SourceLinksComplete | components/ContentDisplay.tsx:158-165 | when every source has a web page, there is one link per source, in order |
| ContentDisplay.SourceLinksSkipBare | components/ContentDisplay.tsx:159 | sources without a web page give no link, though the section heading still appears |
| App.CacheKey | App.tsx:40 | the key starts with the vertical followed by a dash |
| App.CacheKeyInjective | App.tsx:40 | equal keys mean the same vertical and the same mode |
| App.ModeTag | App.tsx:40 | the mode tag is non-empty and ends in `N` (`EN`) exactly when the mode is English, so the two tags differ |
| App.Stamped | App.tsx:44 | the cache entry keeps the fetched text and sources unchanged and carries the completion time |
| App.ErrorMessage | App.tsx:46-51 | an `Error` shows its own message; any other thrown value shows `An unknown error occurred.` |
| App.TranslationsFor | App.tsx:22-24 | the interface strings are always one of the seven catalogs, listing 11 verticals |
| App.CurrentResultFor | App.tsx:90-91 | the displayed result is the cache entry for the selected vertical in the current mode, or none when nothing is selected or cached |
| App.TranslationsByMode | App.tsx:22-24 | forcing English gives the English catalog; otherwise the market's catalog |
| App.HiddenToggleSameCatalog | App.tsx:22-24 | where the toggle is hidden, both modes give the same catalog |
| App.EnglishMarketToggle | App.tsx:22-24 | other English-language markets get the toggle, yet both modes give the English catalog |
| App.ReportSourcesListed | components/ContentDisplay.tsx:158-163 | every source the service returns is listed, showing its title and linking its URI |
| App.AppState.constructor | App.tsx:11-19 | nothing is selected, loading, cached or failed; native mode; the market comes from the configuration |
| App.AppState.CurrentView | components/ContentDisplay.tsx:204 | in a valid state the loading view always has a selected vertical |
| App.AppState.CurrentResult | App.tsx:90-91 | the state's displayed result exists exactly when a category is selected and cached under its key for the current mode, and is that cache entry |
| App.AppState.StartFetch | App.tsx:30-34 | an empty vertical changes nothing; otherwise loading starts and the error is cleared |
| App.AppState.CompleteFetch | App.tsx:35-54 | a success writes one entry under the call-time key; a failure records the message and leaves the cache alone; loading ends either way |
| App.AppState.FetchInsightsForVertical | App.tsx:30-55 | with the service call in between: an empty vertical changes nothing; otherwise loading ends, a rejection shows the service's message naming the vertical and leaves the cache alone, and a response is cached under the vertical and the requested mode, built from a prompt that does not depend on that mode |
| App.AppState.HandleSelectVertical | App.tsx:57-67 | selects the vertical, clears the error, and fetches exactly on a cache miss |
| App.AppState.HandleUpdateReport | App.tsx:69-74 | fetches the selection in the current mode whenever one is selected, cached or not |
| App.AppState.HandleToggleLanguage | App.tsx:77-88 | flips the mode, then fetches the selection in the new mode exactly on a cache miss |
| App.SelectTwice | App.tsx:57-67 | selecting a vertical again after a successful fetch issues no fetch and shows the cached report |
| App.RefreshCached | App.tsx:69-74 | refresh fetches despite the cache, keeps the old report visible meanwhile, and shows the new one after |
| App.FailureKeepsOtherReport | App.tsx:46-51 | a failure for one vertical shows its error but keeps another vertical's report, which is shown again without a fetch |
| App.ToggleRoundTrip | App.tsx:77-88 | switching to English fetches once; switching back finds the native report in the cache |

## Left out

- Rendering and styling: JSX, CSS classes, React keys, the icons and the
  sidebar's layout. The formatter's output is a list of block values, not
  elements.
- The generative-language client and its network call. The call is a
  function parameter whose outcome is a response or a rejection. The
  model identifier and the search tool are configuration of that client.
- Reading the clock: milliseconds since January 1st, daylight saving time
  and time zones. The day of the year, January 1st's weekday and the year
  are parameters. `lastUpdated` is a timestamp parameter and
  `toLocaleString` is not modelled.
- Asynchronous interleaving. Each fetch is a start step and an atomic
  completion step. The following are not modelled:
  - overlapping fetches sharing the one loading flag;
  - handlers reading a stale cache through their closures.
- The clipboard copy, its `setTimeout` reset, and setting `document.title`.
- Build configuration (vite.config.ts) and console logging.
- Strings are sequences of Unicode scalar values, not UTF-16 code units.
  Every string operation the core uses agrees on both, except string
  length, which the core never inspects.
- ContentDisplay.FormatLine: takes the line's kind as computed by
  `Classify`, so the `startsWith` tests of one iteration are stated on
  `Classify` rather than repeated in the method.
- ContentDisplay.ListThenHeading: stated on line kinds rather than on
  text. Together with `HeadingThreeRoundTrip` and `DashRoundTrip` it
  covers the text form.
