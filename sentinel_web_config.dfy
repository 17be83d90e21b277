/**
 * The cart service's admission-control hooks (SentinelWebConfig): the URL cleaner that
 * turns numeric resource paths into templates before rule lookup, the request-origin
 * parser, and the status and code of the rejection response. The static flow rules from
 * SentinelConfig are kept as constants; rate counting lives in Sentinel itself.
 */
module SentinelWebConfig {
  import opened Wrappers
  import JavaLong

  const CartsPrefix := "/carts/"
  const ItemsPrefix := "/items/"
  const CartsTemplate := "/carts/{id}"
  const ItemsTemplate := "/items/{id}"

  /** Whole-string match of `prefix\d+`: the prefix, then one or more ASCII digits and nothing else. */
  predicate MatchesNumeric(url: string, prefix: string): (m: bool)
    ensures m <==> exists digits :: |digits| > 0 && JavaLong.AllDigits(digits) && url == prefix + digits
  {
    var m := |url| > |prefix| && url[..|prefix|] == prefix && JavaLong.AllDigits(url[|prefix|..]);
    assert m ==> url == prefix + url[|prefix|..];
    m
  }

  /** The UrlCleaner lambda for a non-null, non-empty url. */
  function CleanPath(url: string): (r: string)
    ensures r == url || r == CartsTemplate || r == ItemsTemplate
    ensures r == CartsTemplate <==> MatchesNumeric(url, CartsPrefix) || url == CartsTemplate
    ensures r == ItemsTemplate <==> MatchesNumeric(url, ItemsPrefix) || url == ItemsTemplate
  {
    if MatchesNumeric(url, CartsPrefix) then CartsTemplate
    else if MatchesNumeric(url, ItemsPrefix) then ItemsTemplate
    else url
  }

  /** The UrlCleaner bean: a null or empty url is handed back untouched. */
  function UrlCleaner(url: Option<string>): (r: Option<string>)
    ensures url.None? || url == Some("") ==> r == url
    ensures url.Some? && url.value != "" ==> r == Some(CleanPath(url.value))
  {
    if url.None? || |url.value| == 0 then url else Some(CleanPath(url.value))
  }

  /** Neither template is itself a numeric path: '{' is not a digit. */
  lemma TemplatesAreNotNumeric()
    ensures !MatchesNumeric(CartsTemplate, CartsPrefix) && !MatchesNumeric(CartsTemplate, ItemsPrefix)
    ensures !MatchesNumeric(ItemsTemplate, CartsPrefix) && !MatchesNumeric(ItemsTemplate, ItemsPrefix)
  {
    assert CartsTemplate[..|CartsPrefix|] == CartsPrefix && !JavaLong.IsDigit(CartsTemplate[|CartsPrefix|]);
    assert ItemsTemplate[..|ItemsPrefix|] == ItemsPrefix && !JavaLong.IsDigit(ItemsTemplate[|ItemsPrefix|]);
    assert CartsTemplate[..|ItemsPrefix|] != ItemsPrefix;
    assert ItemsTemplate[..|CartsPrefix|] != CartsPrefix;
  }

  /** Cleaning a cleaned url changes nothing. */
  lemma UrlCleanerIdempotent(url: Option<string>)
    ensures UrlCleaner(UrlCleaner(url)) == UrlCleaner(url)
  {
    TemplatesAreNotNumeric();
  }

  /** Every numeric cart path falls into one resource, and every numeric item path into another. */
  lemma NumericPathsShareResource(a: string, b: string, prefix: string)
    requires prefix == CartsPrefix || prefix == ItemsPrefix
    requires MatchesNumeric(a, prefix) && MatchesNumeric(b, prefix)
    ensures CleanPath(a) == CleanPath(b)
    ensures CleanPath(a) == (if prefix == CartsPrefix then CartsTemplate else ItemsTemplate)
  {
    assert CartsPrefix[1] != ItemsPrefix[1];
  }

  /** A prefix followed by anything that is not one or more digits is not collapsed. */
  lemma NonNumericPathsKept()
    ensures CleanPath("/carts/") == "/carts/"
    ensures CleanPath("/carts/abc") == "/carts/abc"
    ensures CleanPath("/carts/1/x") == "/carts/1/x"
    ensures CleanPath("/items/abc") == "/items/abc"
  {
    assert !JavaLong.IsDigit('a') && !JavaLong.IsDigit('/');
    assert "/carts/abc"[7] == 'a' && "/items/abc"[7] == 'a' && "/carts/1/x"[8] == '/';
    assert "/carts/"[..7][1] != ItemsPrefix[1] && "/carts/abc"[..7][1] != ItemsPrefix[1];
    assert "/carts/1/x"[..7][1] != ItemsPrefix[1];
    assert "/items/abc"[..7] != CartsPrefix;
  }

  /** The static flow rules of SentinelConfig: resource name and QPS limit. */
  datatype FlowRule = FlowRule(resource: string, qps: nat)

  const FlowRules := [FlowRule("/carts/test", 10), FlowRule("/carts", 20)]

  /** No url is cleaned into a configured rule resource unless it already was that resource. */
  lemma RuleResourcesOnlyReachedVerbatim(url: string, k: nat)
    requires k < |FlowRules|
    ensures CleanPath(url) == FlowRules[k].resource <==> url == FlowRules[k].resource
  {
    assert FlowRules[k].resource != CartsTemplate && FlowRules[k].resource != ItemsTemplate;
    if url == FlowRules[k].resource {
      assert !JavaLong.IsDigit('t');
      assert "/carts/test"[7] == 't' && "/carts/test"[..7][1] != ItemsPrefix[1];
    }
  }

  /** The RequestOriginParser: the X-Request-From header when present, otherwise "default". */
  function RequestOrigin(requestFrom: Option<string>): (origin: string)
    ensures requestFrom.Some? ==> origin == requestFrom.value
    ensures requestFrom.None? ==> origin == "default"
  {
    if requestFrom.Some? then requestFrom.value else "default"
  }

  /** The body R.error(code, message) written for a rejected request. */
  datatype ErrorBody = ErrorBody(code: int, msg: string)
  datatype BlockedResponse = BlockedResponse(status: int, contentType: string, body: ErrorBody)

  const TooManyRequests := 429

  /** The BlockExceptionHandler: HTTP 429 with a JSON body carrying the same code. */
  function BlockResponse(): (r: BlockedResponse)
    ensures r.status == TooManyRequests && r.body.code == r.status
    ensures r.contentType == "application/json"
  {
    BlockedResponse(TooManyRequests, "application/json", ErrorBody(429, "请求过于频繁，请稍后再试"))
  }
}
