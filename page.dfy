/** The page snapshot the content scripts read. The live DOM is replaced by
    what each query returns: `querySelector` results per literal selector,
    `querySelectorAll` results as sequences, and the `fetch` results of the
    three internal profile API calls. Nothing here is mutated. */
module Page {
  import opened Common
  import opened JsValues

  /** A DOM element reduced to the properties the scripts read. */
  datatype Element = Element(
    text: string,                  // textContent
    content: string,               // the `content` property ("" when the element has none)
    src: string,                   // the resolved `src` property ("" when the element has none)
    href: string,                  // the resolved `href` property ("" when the element has none)
    ariaHiddenSpan: Option<string> // textContent of its first `span[aria-hidden="true"]`, if any
  )

  /** What `querySelector(sel)` does in one scope: the selector does not parse
      (it throws), or it matches a first element. A selector absent from the
      scope's map matches nothing (`null`). */
  datatype Hit = Unparsable | Found(el: Element)

  /** `querySelector` within a document or an element, selector by selector. */
  type Scope = map<string, Hit>

  /** `scope.querySelector(sel)` for a literal selector that always parses. */
  function Find(scope: Scope, sel: string): Option<Element> {
    if sel in scope && scope[sel].Found? then Some(scope[sel].el) else None
  }

  predicate Matches(scope: Scope, sel: string) {
    Find(scope, sel).Some?
  }

  datatype Location = Location(href: string, hostname: string, pathname: string)

  datatype Body = Body(innerHtml: string, innerText: string)

  /** A `<script type="application/ld+json">`: its text, and what `JSON.parse`
      makes of it (`None` when it throws). JSON parsing is not modelled, so the
      two fields are independent: nothing ties a text that mentions a product
      (what the classifier reads) to a parsed value holding one (what the
      store extractor reads). */
  datatype JsonLdScript = JsonLdScript(text: string, parsed: Option<Json>)

  /** An `a[href]` element. */
  datatype Anchor = Anchor(href: string, text: string)

  /** An `img[src]` element; `naturalWidth`/`naturalHeight` are 0 until it loads. */
  datatype ImageEl = ImageEl(src: string, alt: string, naturalWidth: nat, naturalHeight: nat)

  /** A `<table>`: the texts of its `thead th, tr:first-child th` cells, and the
      `td` texts of each `tbody tr` row and of each `tr` row. */
  datatype TableEl = TableEl(headerCells: seq<string>, bodyRows: seq<seq<string>>, allRows: seq<seq<string>>)

  type HeadingLevel = l: int | 1 <= l <= 4 witness 1

  /** An `h1`..`h4` element, with the level read from its tag name. */
  datatype HeadingEl = HeadingEl(level: HeadingLevel, text: string)

  /** The parsed bodies of the three internal profile API calls, `Null` for a
      call that failed (no response, a non-OK status or a body that is not JSON). */
  datatype Voyager = Voyager(profile: Json, contactInfo: Json, skills: Json)

  datatype Snapshot = Snapshot(
    location: Location,
    title: string,                // document.title
    cookie: string,               // document.cookie
    body: Option<Body>,           // document.body
    doc: Scope,                   // document.querySelector
    jsonLd: seq<JsonLdScript>,    // script[type="application/ld+json"]
    productItems: seq<Scope>,     // [itemtype*="schema.org/Product"], queried inside each
    anchors: seq<Anchor>,         // a[href]
    images: seq<ImageEl>,         // img[src]
    tables: seq<TableEl>,         // table
    headings: seq<HeadingEl>,     // h1, h2, h3, h4
    searchCards: seq<Scope>,      // the search-result containers, queried inside each
    voyager: Voyager              // what the profile API calls return on this page
  )
}
