/** The content script's entry point: the site classifier, the message
    listener that runs one of the three scrapers and wraps its result in a
    response envelope, and the guard that keeps a second injection from
    registering a second listener. */
module Content {
  import opened Common
  import opened Strings
  import opened JsValues
  import opened Page
  import Ecommerce
  import LinkedIn
  import General

  // ---------------------------------------------------------------------------
  // detectSiteType

  const SiteLinkedIn: string := "linkedin"
  const SiteEcommerce: string := "ecommerce"
  const SiteGeneral: string := "general"

  const LinkedInHost: string := "linkedin.com"

  /** Hostname fragments of well-known stores. */
  const KnownEcommerce: seq<string> :=
    ["amazon", "ebay", "shopify", "etsy", "walmart", "aliexpress",
     "bestbuy", "target", "wayfair", "newegg", "homedepot",
     "costco", "macys", "nordstrom", "zappos", "overstock",
     "wish.com", "shein", "flipkart", "myntra", "lazada",
     "asos", "zara", "hm.com", "uniqlo", "nike", "adidas"]

  const ProductMarker: string := "\"Product\""
  const TypedMarker: string := "\"@type\":\"Product\""
  const SpacedMarker: string := "\"@type\": \"Product\""

  const MicrodataSelector: string := "[itemtype*=\"schema.org/Product\"], [itemtype*=\"schema.org/product\"]"
  const OgTypeSelector: string := "meta[property=\"og:type\"]"
  const PriceSelector: string := "[class*=\"price\"], [id*=\"price\"], [data-price], [itemprop=\"price\"]"
  const CartSelector: string :=
    "[class*=\"add-to-cart\"], [class*=\"add_to_cart\"], [class*=\"addToCart\"], [class*=\"add-to-bag\"], " +
    "[id*=\"add-to-cart\"], [id*=\"addToCart\"], button[name=\"add\"], " +
    "[data-action*=\"cart\"], [data-action*=\"add\"], [class*=\"buy-now\"], [class*=\"buyNow\"]"
  const ShopifySelector: string := "meta[name=\"shopify-checkout-api-token\"], link[href*=\"cdn.shopify\"]"
  const WooSelector: string :=
    "body.woocommerce, .woocommerce-page, meta[name=\"generator\"][content*=\"WooCommerce\"]"
  const ProductClassSelector: string := "[class*=\"product\"]"

  /** How much of the body text the currency test reads. */
  const CurrencyWindow: nat := 5000

  predicate IsCurrencySymbol(c: char) {
    c == '$' || c == '€' || c == '£' || c == '¥' || c == '₹'
  }

  /** `/[$€£¥₹]\s?\d/` matches at `i`. */
  predicate CurrencyAmountAt(s: string, i: nat) {
    && i < |s| && IsCurrencySymbol(s[i])
    && ((i + 1 < |s| && IsDigit(s[i + 1])) || (i + 2 < |s| && IsSpace(s[i + 1]) && IsDigit(s[i + 2])))
  }

  /** `/[$€£¥₹]\s?\d/.test(s)` */
  predicate HasCurrencyAmount(s: string) {
    exists i: nat | i < |s| :: CurrencyAmountAt(s, i)
  }

  /** `knownEcommerce.some(s => hostname.includes(s))` */
  predicate KnownStore(hostname: string) {
    exists k :: 0 <= k < |KnownEcommerce| && Contains(hostname, KnownEcommerce[k])
  }

  /** The test on one JSON-LD script's text. */
  predicate MentionsProduct(text: string) {
    Contains(text, ProductMarker) || Contains(text, TypedMarker) || Contains(text, SpacedMarker)
  }

  predicate AnyMentionsProduct(scripts: seq<JsonLdScript>) {
    exists k :: 0 <= k < |scripts| && MentionsProduct(scripts[k].text)
  }

  /** The page's signals, each read exactly as the classifier reads it. */
  datatype Signals = Signals(
    linkedInHost: bool,
    knownStore: bool,
    jsonLdProduct: bool,
    microdata: bool,
    ogProduct: bool,
    shopify: bool,
    wooCommerce: bool,
    hasPrice: bool,
    hasAddToCart: bool,
    hasCurrency: bool,
    productClass: bool
  )

  function BodyHtml(page: Snapshot): string {
    match page.body case Some(b) => b.innerHtml case None => ""
  }

  function BodyText(page: Snapshot): string {
    match page.body case Some(b) => Take(b.innerText, CurrencyWindow) case None => ""
  }

  /** `document.querySelector('meta[property="og:type"]')?.content?.toLowerCase()` */
  function OgType(page: Snapshot): string {
    match Find(page.doc, OgTypeSelector) case Some(el) => ToLowerAscii(el.content) case None => ""
  }

  function SignalsOf(page: Snapshot): Signals {
    var host := ToLowerAscii(page.location.hostname);
    var html := BodyHtml(page);
    var og := OgType(page);
    Signals(
      linkedInHost := Contains(host, LinkedInHost),
      knownStore := KnownStore(host),
      jsonLdProduct := AnyMentionsProduct(page.jsonLd),
      microdata := Matches(page.doc, MicrodataSelector),
      ogProduct := og != "" && (Contains(og, "product") || og == "og:product"),
      shopify := Contains(html, "Shopify.") || Contains(html, "shopify") || Matches(page.doc, ShopifySelector),
      wooCommerce := Matches(page.doc, WooSelector),
      hasPrice := Matches(page.doc, PriceSelector),
      hasAddToCart := Matches(page.doc, CartSelector),
      hasCurrency := HasCurrencyAmount(BodyText(page)),
      productClass := Matches(page.doc, ProductClassSelector))
  }

  /** The signals that come after the JSON-LD loop, in the classifier's order. */
  function LateSiteType(s: Signals): string {
    if s.microdata then SiteEcommerce
    else if s.ogProduct then SiteEcommerce
    else if s.shopify || s.wooCommerce then SiteEcommerce
    else if s.hasPrice && s.hasAddToCart then SiteEcommerce
    else if s.hasPrice && s.hasCurrency && (s.hasAddToCart || s.productClass) then SiteEcommerce
    else SiteGeneral
  }

  /** `detectSiteType()` as a value: the first signal that fires decides. */
  function SiteType(s: Signals): (r: string)
    ensures r == SiteLinkedIn || r == SiteEcommerce || r == SiteGeneral
  {
    if s.linkedInHost then SiteLinkedIn
    else if s.knownStore then SiteEcommerce
    else if s.jsonLdProduct then SiteEcommerce
    else LateSiteType(s)
  }

  function DetectedSiteType(page: Snapshot): string {
    SiteType(SignalsOf(page))
  }

  /** `detectSiteType()`: the host tests, the loop over the JSON-LD scripts
      with its early return, then the markup signals. */
  method DetectSiteType(page: Snapshot) returns (siteType: string)
    ensures siteType == DetectedSiteType(page)
  {
    var hostname := ToLowerAscii(page.location.hostname);
    if Contains(hostname, LinkedInHost) {
      return SiteLinkedIn;
    }
    if KnownStore(hostname) {
      return SiteEcommerce;
    }
    var scripts := page.jsonLd;
    var i := 0;
    while i < |scripts|
      invariant 0 <= i <= |scripts|
      invariant forall k :: 0 <= k < i ==> !MentionsProduct(scripts[k].text)
    {
      var text := scripts[i].text;
      if Contains(text, ProductMarker) || Contains(text, TypedMarker) || Contains(text, SpacedMarker) {
        return SiteEcommerce;
      }
      i := i + 1;
    }
    siteType := LateSiteType(SignalsOf(page));
  }

  /** A LinkedIn hostname wins over every other signal. */
  lemma LinkedInHostWins(s: Signals)
    requires s.linkedInHost
    ensures SiteType(s) == SiteLinkedIn
  {
  }

  /** Only a LinkedIn hostname yields "linkedin". */
  lemma LinkedInOnlyByHost(s: Signals)
    ensures SiteType(s) == SiteLinkedIn <==> s.linkedInHost
  {
  }

  /** A known store's hostname yields "ecommerce" unless it is LinkedIn's. */
  lemma KnownStoreIsEcommerce(page: Snapshot, k: nat)
    requires k < |KnownEcommerce|
    requires Contains(ToLowerAscii(page.location.hostname), KnownEcommerce[k])
    requires !Contains(ToLowerAscii(page.location.hostname), LinkedInHost)
    ensures DetectedSiteType(page) == SiteEcommerce
  {
  }

  /** Any JSON-LD script mentioning `"Product"` makes a non-LinkedIn page a store. */
  lemma JsonLdProductIsEcommerce(page: Snapshot, k: nat)
    requires k < |page.jsonLd| && Contains(page.jsonLd[k].text, ProductMarker)
    requires !Contains(ToLowerAscii(page.location.hostname), LinkedInHost)
    ensures DetectedSiteType(page) == SiteEcommerce
  {
    assert MentionsProduct(page.jsonLd[k].text);
  }

  /** The two `@type` spellings the classifier also tests already contain
      `"Product"`, so the first test alone decides. */
  lemma ProductMarkerSuffices(text: string)
    ensures MentionsProduct(text) <==> Contains(text, ProductMarker)
  {
    if Contains(text, TypedMarker) {
      var i: nat :| i <= |text| && OccursAt(text, TypedMarker, i);
      assert text[i + 8..i + 8 + |ProductMarker|] == TypedMarker[8..] == ProductMarker;
      assert OccursAt(text, ProductMarker, i + 8);
    }
    if Contains(text, SpacedMarker) {
      var i: nat :| i <= |text| && OccursAt(text, SpacedMarker, i);
      assert text[i + 9..i + 9 + |ProductMarker|] == SpacedMarker[9..] == ProductMarker;
      assert OccursAt(text, ProductMarker, i + 9);
    }
  }

  /** A Shopify or WooCommerce fingerprint alone makes a page a store. */
  lemma StorefrontIsEcommerce(s: Signals)
    requires s.shopify || s.wooCommerce
    requires !s.linkedInHost
    ensures SiteType(s) == SiteEcommerce
  {
  }

  /** "general" exactly when no signal fires; in particular price and cart, or
      price, a currency amount and a cart or product class, make a store. */
  lemma GeneralOnlyWithoutSignals(s: Signals)
    ensures SiteType(s) == SiteGeneral <==>
      && !s.linkedInHost && !s.knownStore && !s.jsonLdProduct && !s.microdata && !s.ogProduct
      && !s.shopify && !s.wooCommerce && !(s.hasPrice && s.hasAddToCart)
      && !(s.hasPrice && s.hasCurrency && s.productClass)
  {
  }

  /** The currency test reads a symbol followed by a digit, with at most one
      whitespace character between them. */
  lemma CurrencyExamples()
    ensures HasCurrencyAmount("$5")
    ensures HasCurrencyAmount("only € 20")
    ensures !HasCurrencyAmount("$  5")
    ensures !HasCurrencyAmount("5$")
  {
    assert CurrencyAmountAt("$5", 0);
    assert CurrencyAmountAt("only € 20", 5);
    var s := "$  5";
    forall i: nat ensures !CurrencyAmountAt(s, i) {
      if i < |s| && IsCurrencySymbol(s[i]) {
        assert i == 0;
      }
    }
    var t := "5$";
    forall i: nat ensures !CurrencyAmountAt(t, i) {
      if i < |t| && IsCurrencySymbol(t[i]) {
        assert i == 1;
      }
    }
  }

  // ---------------------------------------------------------------------------
  // The message listener

  /** The messages the listener answers; anything else gets no response. */
  datatype Message = DetectRequest | ScrapeRequest(siteType: Json) | OtherMessage

  /** The `data` of a successful scrape, tagged by the scraper that made it. */
  datatype Payload =
    | EcommerceData(products: seq<Ecommerce.Product>)
    | LinkedInData(contacts: seq<LinkedIn.Contact>)
    | GeneralPayload(general: General.GeneralData)

  /** The scrape response. `data` is `None` (the JSON `null`) and `error` holds
      the message when the scraper threw; `error` is absent otherwise. The
      timestamp is whatever the clock read. */
  datatype Envelope = Envelope(
    siteType: Json,
    data: Option<Payload>,
    error: Option<string>,
    url: string,
    pageTitle: string,
    timestamp: string
  )

  datatype Response = SiteTypeReply(siteType: string) | ScrapeReply(envelope: Envelope)

  /** The `switch (siteType)`: strict comparison with the two names, anything
      else scrapes the page as a general one. */
  function RunScraper(siteType: Json, page: Snapshot): Result<Payload>
  {
    if siteType == Str(SiteEcommerce) then Ok(EcommerceData(Ecommerce.EcommerceProducts(page)))
    else if siteType == Str(SiteLinkedIn) then
      var contacts :- LinkedIn.LinkedInContacts(page);
      Ok(LinkedInData(contacts))
    else Ok(GeneralPayload(General.GeneralOf(page)))
  }

  /** `message.siteType || detectSiteType()` */
  function RequestedSiteType(siteType: Json, page: Snapshot): Json {
    if Truthy(siteType) then siteType else Str(DetectedSiteType(page))
  }

  /** The envelope of a scrape. */
  function ScrapeEnvelope(siteType: Json, page: Snapshot, timestamp: string): (r: Envelope)
    ensures r.siteType == RequestedSiteType(siteType, page)
    ensures r.url == page.location.href && r.pageTitle == page.title
    ensures r.data.Some? <==> r.error.None?
    ensures RunScraper(RequestedSiteType(siteType, page), page).Ok? ==>
              r.data == Some(RunScraper(RequestedSiteType(siteType, page), page).value) && r.error.None?
    ensures RunScraper(RequestedSiteType(siteType, page), page).Throw? ==>
              r.data.None? && r.error == Some(RunScraper(RequestedSiteType(siteType, page), page).message)
  {
    var t := RequestedSiteType(siteType, page);
    match RunScraper(t, page)
    case Ok(data) => Envelope(t, Some(data), None, page.location.href, page.title, timestamp)
    case Throw(m) => Envelope(t, None, Some(m), page.location.href, page.title, timestamp)
  }

  /** What the listener sends back, if anything. */
  function Respond(message: Message, page: Snapshot, timestamp: string): Option<Response> {
    match message
    case DetectRequest => Some(SiteTypeReply(DetectedSiteType(page)))
    case ScrapeRequest(siteType) => Some(ScrapeReply(ScrapeEnvelope(siteType, page, timestamp)))
    case OtherMessage => None
  }

  /** A scraper that throws yields an envelope with the same site type, no data
      and the exception's message. */
  lemma ThrowingScraperReported(siteType: Json, page: Snapshot, timestamp: string)
    requires RunScraper(RequestedSiteType(siteType, page), page).Throw?
    ensures var e := ScrapeEnvelope(siteType, page, timestamp);
            e.siteType == RequestedSiteType(siteType, page) && e.data.None? &&
            e.error == Some(RunScraper(RequestedSiteType(siteType, page), page).message)
  {
  }

  /** Only the LinkedIn scraper can throw. */
  lemma OnlyLinkedInThrows(siteType: Json, page: Snapshot)
    requires RunScraper(siteType, page).Throw?
    ensures siteType == Str(SiteLinkedIn)
  {
  }

  /** The site-type names are compared strictly: any other value, even a
      differently capitalised name, scrapes the page as a general one. */
  lemma OtherNamesScrapeGeneral(page: Snapshot)
    ensures RunScraper(Str("Ecommerce"), page) == Ok(GeneralPayload(General.GeneralOf(page)))
    ensures RunScraper(Str("LinkedIn"), page) == Ok(GeneralPayload(General.GeneralOf(page)))
    ensures RunScraper(Num(1), page) == Ok(GeneralPayload(General.GeneralOf(page)))
  {
  }

  /** A request without a site type scrapes what the classifier detects... */
  lemma UnnamedRequestDetects(page: Snapshot, timestamp: string)
    ensures ScrapeEnvelope(Undefined, page, timestamp).siteType == Str(DetectedSiteType(page))
  {
  }

  /** ...and so does one whose site type is the empty string. */
  lemma EmptyNameDetects(page: Snapshot, timestamp: string)
    ensures ScrapeEnvelope(Str(""), page, timestamp).siteType == Str(DetectedSiteType(page))
  {
  }

  /** The listener. */
  method HandleMessage(message: Message, page: Snapshot, timestamp: string) returns (response: Option<Response>)
    ensures response == Respond(message, page, timestamp)
  {
    match message {
      case DetectRequest =>
        var siteType := DetectSiteType(page);
        return Some(SiteTypeReply(siteType));
      case ScrapeRequest(requested) =>
        var siteType := requested;
        if !Truthy(siteType) {
          var detected := DetectSiteType(page);
          siteType := Str(detected);
        }
        var data: Result<Payload>;
        if siteType == Str(SiteEcommerce) {
          var products := Ecommerce.ScrapeEcommerce(page);
          data := Ok(EcommerceData(products));
        } else if siteType == Str(SiteLinkedIn) {
          var contacts := LinkedIn.ScrapeLinkedIn(page);
          data := if contacts.Ok? then Ok(LinkedInData(contacts.value)) else Throw(contacts.message);
        } else {
          var general := General.ScrapeGeneral(page);
          data := Ok(GeneralPayload(general));
        }
        if data.Ok? {
          return Some(ScrapeReply(Envelope(siteType, Some(data.value), None, page.location.href, page.title, timestamp)));
        }
        return Some(ScrapeReply(Envelope(siteType, None, Some(data.message), page.location.href, page.title, timestamp)));
      case OtherMessage =>
        return None;
    }
  }

  // ---------------------------------------------------------------------------
  // The injection guard

  /** The page's `window` as the content script sees it: the injection flag
      and how many message listeners the script has registered. */
  class ContentWindow {
    var injected: bool
    var listeners: nat

    constructor()
      ensures !injected && listeners == 0
    {
      injected := false;
      listeners := 0;
    }

    /** Running the script: the first run sets the flag and registers the
        listener, any later run does nothing. */
    method Inject()
      modifies this
      ensures injected
      ensures listeners == if old(injected) then old(listeners) else old(listeners) + 1
    {
      if !injected {
        injected := true;
        listeners := listeners + 1;
      }
    }
  }

  /** However often the popup injects the script, one listener answers. */
  method InjectRepeatedly(times: nat) returns (listeners: nat)
    requires times > 0
    ensures listeners == 1
  {
    var w := new ContentWindow();
    var i := 0;
    while i < times
      invariant 0 <= i <= times
      invariant w.injected == (i > 0)
      invariant w.listeners == if i > 0 then 1 else 0
    {
      w.Inject();
      i := i + 1;
    }
    listeners := w.listeners;
  }
}
