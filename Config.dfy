/** The static market registry and the choice of the market this
    deployment serves (config.ts). */
module Config {

  import opened Wrappers
  import opened Types

  /** The supported markets, in table order. */
  const Markets: seq<MarketConfig> := [
    MarketConfig("UK", "UK", "the eBay.co.uk platform", "English"),
    MarketConfig("USA", "US", "the eBay.com platform", "English"),
    MarketConfig("Germany", "DE", "the eBay.de platform", "German"),
    MarketConfig("France", "FR", "the eBay.fr platform", "French"),
    MarketConfig("Italy", "IT", "the eBay.it platform", "Italian"),
    MarketConfig("Australia", "AU", "the eBay.com.au platform", "English"),
    MarketConfig("Canada (English)", "CA", "the eBay.ca platform", "English"),
    MarketConfig("Canada (French)", "CA-FR", "the eBay.ca (French) platform", "French"),
    MarketConfig("Spain", "ES", "the eBay.es platform", "Spanish"),
    MarketConfig("Netherlands", "NL", "the eBay.nl platform", "Dutch"),
    MarketConfig("Austria", "AT", "the eBay.at platform", "German"),
    MarketConfig("Ireland", "IE", "the eBay.ie platform", "English"),
    MarketConfig("Poland", "PL", "the eBay.pl platform", "Polish"),
    MarketConfig("Switzerland", "CH", "the eBay.ch platform", "German"),
    MarketConfig("Belgium (Dutch)", "BE-NL", "the benl.ebay.be platform", "Dutch"),
    MarketConfig("Belgium (French)", "BE-FR", "the befr.ebay.be platform", "French"),
    MarketConfig("Hong Kong", "HK", "the eBay.com.hk platform", "English"),
    MarketConfig("Malaysia", "MY", "the eBay.com.my platform", "English"),
    MarketConfig("Philippines", "PH", "the eBay.ph platform", "English"),
    MarketConfig("Singapore", "SG", "the eBay.com.sg platform", "English")
  ]

  /** The code the deployment is configured with: the build-time
      environment value when it is present and non-empty, `"UK"` otherwise. */
  function CurrentMarketCode(env: Option<string>): (code: string)
    ensures code != ""
    ensures env.Some? && env.value != "" ==> code == env.value
    ensures env.None? || env.value == "" ==> code == "UK"
  {
    match env
    case Some(c) => if c != "" then c else "UK"
    case None => "UK"
  }

  /** `Array.prototype.find` on the market code: the first entry with that
      code, if any. */
  function FindMarket(ms: seq<MarketConfig>, code: string): (r: Option<MarketConfig>)
    ensures r.None? <==> forall i :: 0 <= i < |ms| ==> ms[i].code != code
    ensures r.Some? ==> exists i :: 0 <= i < |ms| && ms[i] == r.value && r.value.code == code
                                    && forall j :: 0 <= j < i ==> ms[j].code != code
  {
    if ms == [] then None
    else if ms[0].code == code then Some(ms[0])
    else
      var r := FindMarket(ms[1..], code);
      assert r.Some? ==> exists i :: 0 <= i < |ms| && ms[i] == r.value && r.value.code == code
                                    && forall j :: 0 <= j < i ==> ms[j].code != code by {
        if r.Some? {
          var i :| 0 <= i < |ms[1..]| && ms[1..][i] == r.value && r.value.code == code
                   && forall j :: 0 <= j < i ==> ms[1..][j].code != code;
          assert ms[i + 1] == r.value;
          assert forall j :: 0 <= j < i + 1 ==> ms[j].code != code by {
            forall j | 0 <= j < i + 1 ensures ms[j].code != code {
              if j > 0 {
                assert ms[j] == ms[1..][j - 1];
              }
            }
          }
        }
      }
      r
  }

  /** Whether the registry has an entry for `code`. */
  predicate HasCode(code: string) {
    exists i :: 0 <= i < |Markets| && Markets[i].code == code
  }

  /** The market served: the registry entry whose code is the configured
      one, or the UK entry when no entry has that code. */
  function GetCurrentMarket(configured: string): (m: MarketConfig)
    ensures m in Markets
    ensures HasCode(configured) ==> m.code == configured
    ensures !HasCode(configured) ==> m == Markets[0] && m.code == "UK"
  {
    match FindMarket(Markets, configured)
    case Some(market) => market
    case None =>
      var uk := FindMarket(Markets, "UK");
      assert uk == Some(Markets[0]);
      uk.value
  }

  /** The registry has twenty entries with pairwise distinct codes. */
  lemma MarketsDistinct()
    ensures |Markets| == 20
    ensures forall i, j :: 0 <= i < j < |Markets| ==> Markets[i].code != Markets[j].code
  {
  }

  lemma MarketsCodesDeclared()
    ensures forall i :: 0 <= i < |Markets| ==> Markets[i].code in MarketCodes
  {
  }

  /** Where each declared code sits in the registry. */
  lemma DeclaredCodeListed(k: nat)
    requires k < |MarketCodeList|
    ensures HasCode(MarketCodeList[k])
  {
    var position := [0, 1, 2, 5, 3, 4, 8, 9, 6, 7, 11, 10, 12, 13, 14, 15, 16, 17, 18, 19];
    assert Markets[position[k]].code == MarketCodeList[k];
  }

  /** The registry's codes are exactly those the market record type declares. */
  lemma MarketsCoverCodes()
    ensures forall code :: HasCode(code) <==> code in MarketCodes
  {
    MarketsCodesDeclared();
    forall code | code in MarketCodes ensures HasCode(code) {
      var k :| 0 <= k < |MarketCodeList| && MarketCodeList[k] == code;
      DeclaredCodeListed(k);
    }
  }
}
