/** The popup: which tabs it refuses, the scrape response it keeps, how a kept
    response is flattened into rows for export, the column widths of the
    Excel sheet, and the CSV file it offers for download. */
module Popup {
  import opened Common
  import opened Strings
  import opened JsValues
  import opened Seqs
  import Ecommerce
  import LinkedIn
  import General
  import Csv
  import opened Content

  // ---------------------------------------------------------------------------
  // The restricted-URL test

  const RestrictedPrefixes: seq<string> := ["chrome://", "about:", "chrome-extension://", "edge://"]

  /** The popup injects nothing into a tab without a URL (`""` here) or one
      whose URL starts with a browser-internal scheme. */
  predicate Restricted(url: string) {
    url == "" || exists k :: 0 <= k < |RestrictedPrefixes| && StartsWith(url, RestrictedPrefixes[k])
  }

  lemma RestrictedExamples()
    ensures Restricted("")
    ensures Restricted("chrome://extensions")
    ensures Restricted("about:blank")
    ensures Restricted("chrome-extension://abc/popup.html")
    ensures Restricted("edge://settings")
  {
    assert StartsWith("chrome://extensions", RestrictedPrefixes[0]);
    assert StartsWith("about:blank", RestrictedPrefixes[1]);
    assert StartsWith("chrome-extension://abc/popup.html", RestrictedPrefixes[2]);
    assert StartsWith("edge://settings", RestrictedPrefixes[3]);
  }

  /** A restricted scheme later in the URL, or a scheme not listed, is allowed. */
  lemma AllowedExamples()
    ensures !Restricted("https://example.com/chrome://")
    ensures !Restricted("file:///tmp/a.html")
  {
    var u := "https://example.com/chrome://";
    assert forall k :: 0 <= k < |RestrictedPrefixes| ==> u[0] != RestrictedPrefixes[k][0];
    var f := "file:///tmp/a.html";
    assert forall k :: 0 <= k < |RestrictedPrefixes| ==> f[0] != RestrictedPrefixes[k][0];
  }

  /** Every URL of an ordinary web page passes. */
  lemma WebPagesAllowed(url: string)
    requires StartsWith(url, "http://") || StartsWith(url, "https://")
    ensures !Restricted(url)
  {
    assert forall k :: 0 <= k < |RestrictedPrefixes| ==> url[0] != RestrictedPrefixes[k][0];
  }

  // ---------------------------------------------------------------------------
  // flattenDataToRows

  type Row = seq<Json>

  const LinkHeaders: seq<string> := ["Link Text", "URL"]
  const MetaHeaders: seq<string> := ["Property", "Value"]

  /** How much of the page text the fallback's last row carries. */
  const ContentCap: nat := 30000

  function TextRow(cells: seq<string>): (r: Row)
    ensures |r| == |cells| && forall k :: 0 <= k < |cells| ==> r[k] == Str(cells[k])
  {
    seq(|cells|, k requires 0 <= k < |cells| => Str(cells[k]))
  }

  /** The columns of a product export, in the order the header lists them. */
  datatype ProductColumn =
    | ProductName | ProductPrice | ProductCurrency | ProductDescription | ProductImage
    | ProductRating | ProductReviews | ProductAvailability | ProductBrand | ProductSku

  const ProductLayout: seq<ProductColumn> :=
    [ProductName, ProductPrice, ProductCurrency, ProductDescription, ProductImage,
     ProductRating, ProductReviews, ProductAvailability, ProductBrand, ProductSku]

  function ProductHeader(col: ProductColumn): string {
    match col
    case ProductName => "Name"
    case ProductPrice => "Price"
    case ProductCurrency => "Currency"
    case ProductDescription => "Description"
    case ProductImage => "Image URL"
    case ProductRating => "Rating"
    case ProductReviews => "Reviews"
    case ProductAvailability => "Availability"
    case ProductBrand => "Brand"
    case ProductSku => "SKU"
  }

  /** The product field a column shows. */
  function ProductCell(col: ProductColumn, p: Ecommerce.Product): Json {
    match col
    case ProductName => p.name
    case ProductPrice => p.price
    case ProductCurrency => p.currency
    case ProductDescription => Str(p.description)
    case ProductImage => p.image
    case ProductRating => p.rating
    case ProductReviews => p.reviewCount
    case ProductAvailability => p.availability
    case ProductBrand => p.brand
    case ProductSku => p.sku
  }

  /** The columns of a contact export, in the order the header lists them. */
  datatype ContactColumn =
    | ContactName | ContactTitle | ContactCompany | ContactLocation | ContactEmail
    | ContactPhone | ContactProfileUrl | ContactAbout | ContactConnections

  const ContactLayout: seq<ContactColumn> :=
    [ContactName, ContactTitle, ContactCompany, ContactLocation, ContactEmail,
     ContactPhone, ContactProfileUrl, ContactAbout, ContactConnections]

  function ContactHeader(col: ContactColumn): string {
    match col
    case ContactName => "Name"
    case ContactTitle => "Title"
    case ContactCompany => "Company"
    case ContactLocation => "Location"
    case ContactEmail => "Email"
    case ContactPhone => "Phone"
    case ContactProfileUrl => "Profile URL"
    case ContactAbout => "About"
    case ContactConnections => "Connections"
  }

  /** The contact field a column shows. */
  function ContactCell(col: ContactColumn, c: LinkedIn.Contact): Json {
    match col
    case ContactName => c.name
    case ContactTitle => c.title
    case ContactCompany => c.company
    case ContactLocation => c.location
    case ContactEmail => c.email
    case ContactPhone => c.phone
    case ContactProfileUrl => c.profileUrl
    case ContactAbout => c.about
    case ContactConnections => c.connections
  }

  function ProductHeaders(): seq<string> {
    seq(|ProductLayout|, k requires 0 <= k < |ProductLayout| => ProductHeader(ProductLayout[k]))
  }

  function ContactHeaders(): seq<string> {
    seq(|ContactLayout|, k requires 0 <= k < |ContactLayout| => ContactHeader(ContactLayout[k]))
  }

  function ProductRow(p: Ecommerce.Product): Row {
    seq(|ProductLayout|, k requires 0 <= k < |ProductLayout| => ProductCell(ProductLayout[k], p))
  }

  function ContactRow(c: LinkedIn.Contact): Row {
    seq(|ContactLayout|, k requires 0 <= k < |ContactLayout| => ContactCell(ContactLayout[k], c))
  }

  function ProductRows(ps: seq<Ecommerce.Product>): seq<Row> {
    [TextRow(ProductHeaders())] + seq(|ps|, i requires 0 <= i < |ps| => ProductRow(ps[i]))
  }

  function ContactRows(cs: seq<LinkedIn.Contact>): seq<Row> {
    [TextRow(ContactHeaders())] + seq(|cs|, i requires 0 <= i < |cs| => ContactRow(cs[i]))
  }

  /** The first table: its header row when it has headers, then its rows. */
  function TableRows(t: General.Table): seq<Row> {
    (if |t.headers| > 0 then [TextRow(t.headers)] else [])
      + seq(|t.rows|, i requires 0 <= i < |t.rows| => TextRow(t.rows[i]))
  }

  function LinkRows(links: seq<General.Link>): seq<Row> {
    [TextRow(LinkHeaders)] + seq(|links|, i requires 0 <= i < |links| => TextRow([links[i].text, links[i].url]))
  }

  /** `Object.entries(data.meta)`: the metadata record's properties in the
      order `scrapeGeneral` creates them. */
  function MetaEntries(m: General.Meta): seq<(string, string)> {
    [("title", m.title), ("description", m.description), ("keywords", m.keywords),
     ("ogTitle", m.ogTitle), ("ogDescription", m.ogDescription), ("author", m.author), ("url", m.url)]
  }

  /** `if (val) rows.push([key, val])` */
  function MetaRow(e: (string, string)): Option<Row> {
    if e.1 != "" then Some(TextRow([e.0, e.1])) else None
  }

  /** The metadata-and-text fallback. `meta` is `None` and `text` is `""` for
      a payload that has neither property. */
  function FallbackRows(meta: Option<General.Meta>, text: string): seq<Row> {
    [TextRow(MetaHeaders)]
      + (match meta case Some(m) => Kept(MetaEntries(m), MetaRow) case None => [])
      + [TextRow(["Content", Take(text, ContentCap)])]
  }

  /** The general branches: the first table, else the links, else the fallback. */
  function GeneralRows(g: General.GeneralData): seq<Row> {
    if |g.tables| > 0 then TableRows(g.tables[0])
    else if |g.links| > 0 then LinkRows(g.links)
    else FallbackRows(Some(g.meta), g.textContent)
  }

  /** `flattenDataToRows({siteType, data})`. An ecommerce payload carries
      `products` and a LinkedIn one `contacts` (an array, so truthy even when
      empty); a payload that does not match its site type has no `tables`,
      `links`, `meta` or `textContent` and ends in the fallback. */
  function Flatten(siteType: Json, data: Payload): seq<Row> {
    if siteType == Str(SiteEcommerce) && data.EcommerceData? then ProductRows(data.products)
    else if siteType == Str(SiteLinkedIn) && data.LinkedInData? then ContactRows(data.contacts)
    else match data
      case GeneralPayload(g) => GeneralRows(g)
      case _ => FallbackRows(None, "")
  }

  /** The loop over the metadata entries. */
  method CollectMetaRows(m: General.Meta) returns (rows: seq<Row>)
    ensures rows == Kept(MetaEntries(m), MetaRow)
  {
    var entries := MetaEntries(m);
    rows := [];
    for i := 0 to |entries|
      invariant rows == Kept(entries[..i], MetaRow)
    {
      KeptSnoc(entries, i, MetaRow);
      var (key, val) := entries[i];
      if val != "" {
        rows := rows + [TextRow([key, val])];
      }
    }
    assert entries[..|entries|] == entries;
  }

  method FlattenRows(siteType: Json, data: Payload) returns (rows: seq<Row>)
    ensures rows == Flatten(siteType, data)
  {
    if siteType == Str(SiteEcommerce) && data.EcommerceData? {
      return ProductRows(data.products);
    }
    if siteType == Str(SiteLinkedIn) && data.LinkedInData? {
      return ContactRows(data.contacts);
    }
    if !data.GeneralPayload? {
      return FallbackRows(None, "");
    }
    var g := data.general;
    if |g.tables| > 0 {
      return TableRows(g.tables[0]);
    }
    if |g.links| > 0 {
      return LinkRows(g.links);
    }
    rows := [TextRow(MetaHeaders)];
    var metaRows := CollectMetaRows(g.meta);
    rows := rows + metaRows;
    rows := rows + [TextRow(["Content", Take(g.textContent, ContentCap)])];
  }

  /** The header row names the columns in the order the export writes them. */
  lemma HeaderTexts()
    ensures ProductHeaders() ==
      ["Name", "Price", "Currency", "Description", "Image URL", "Rating", "Reviews", "Availability", "Brand", "SKU"]
    ensures ContactHeaders() ==
      ["Name", "Title", "Company", "Location", "Email", "Phone", "Profile URL", "About", "Connections"]
  {
  }

  /** Every product field is exported, each in exactly one column. */
  lemma ProductLayoutComplete(col: ProductColumn)
    ensures col in ProductLayout
    ensures forall k, l :: 0 <= k < l < |ProductLayout| ==> ProductLayout[k] != ProductLayout[l]
  {
  }

  /** Every contact field the export shows has exactly one column. */
  lemma ContactLayoutComplete(col: ContactColumn)
    ensures col in ContactLayout
    ensures forall k, l :: 0 <= k < l < |ContactLayout| ==> ContactLayout[k] != ContactLayout[l]
  {
  }

  /** An ecommerce response: the ten headers, then one ten-cell row per
      product, each cell the field its column's header names. */
  lemma ProductColumns(ps: seq<Ecommerce.Product>)
    ensures var r := Flatten(Str(SiteEcommerce), EcommerceData(ps));
      |r| == |ps| + 1 && |r[0]| == 10 &&
      (forall k :: 0 <= k < 10 ==> r[0][k] == Str(ProductHeader(ProductLayout[k]))) &&
      forall i, k :: 0 <= i < |ps| && 0 <= k < 10 ==>
        |r[i + 1]| == 10 && r[i + 1][k] == ProductCell(ProductLayout[k], ps[i])
  {
    var r := ProductRows(ps);
    assert Flatten(Str(SiteEcommerce), EcommerceData(ps)) == r;
    assert r[0] == TextRow(ProductHeaders());
    forall i | 0 <= i < |ps| ensures r[i + 1] == ProductRow(ps[i]) {
    }
  }

  /** A LinkedIn response: the nine headers, then one nine-cell row per
      contact, each cell the field its column's header names. */
  lemma ContactColumns(cs: seq<LinkedIn.Contact>)
    ensures var r := Flatten(Str(SiteLinkedIn), LinkedInData(cs));
      |r| == |cs| + 1 && |r[0]| == 9 &&
      (forall k :: 0 <= k < 9 ==> r[0][k] == Str(ContactHeader(ContactLayout[k]))) &&
      forall i, k :: 0 <= i < |cs| && 0 <= k < 9 ==>
        |r[i + 1]| == 9 && r[i + 1][k] == ContactCell(ContactLayout[k], cs[i])
  {
    var r := ContactRows(cs);
    assert Flatten(Str(SiteLinkedIn), LinkedInData(cs)) == r;
    assert r[0] == TextRow(ContactHeaders());
    forall i | 0 <= i < |cs| ensures r[i + 1] == ContactRow(cs[i]) {
    }
  }

  /** A general payload is flattened the same way whatever the site type says,
      so an ecommerce or LinkedIn response without products or contacts falls
      through to the general branches. */
  lemma GeneralWhateverSiteType(siteType: Json, g: General.GeneralData)
    ensures Flatten(siteType, GeneralPayload(g)) == GeneralRows(g)
  {
  }

  /** A payload under another site type's name has nothing the general
      branches read. */
  lemma MismatchedPayload(ps: seq<Ecommerce.Product>, cs: seq<LinkedIn.Contact>)
    ensures Flatten(Str(SiteGeneral), EcommerceData(ps)) == [TextRow(MetaHeaders), TextRow(["Content", ""])]
    ensures Flatten(Str(SiteEcommerce), LinkedInData(cs)) == [TextRow(MetaHeaders), TextRow(["Content", ""])]
  {
  }

  /** With a table, the first table's texts: its header row only when it has
      headers, then every row. */
  lemma FirstTableExported(g: General.GeneralData)
    requires |g.tables| > 0
    ensures var r := GeneralRows(g); var t := g.tables[0]; var h := if |t.headers| > 0 then 1 else 0;
      |r| == h + |t.rows| &&
      (|t.headers| > 0 ==> r[0] == TextRow(t.headers)) &&
      forall i :: 0 <= i < |t.rows| ==> r[h + i] == TextRow(t.rows[i])
  {
  }

  /** Without tables but with links, the link header and one (text, URL) row
      per link. */
  lemma LinksExported(g: General.GeneralData)
    requires |g.tables| == 0 && |g.links| > 0
    ensures var r := GeneralRows(g);
      |r| == |g.links| + 1 && r[0] == TextRow(LinkHeaders) &&
      forall i :: 0 <= i < |g.links| ==> r[i + 1] == [Str(g.links[i].text), Str(g.links[i].url)]
  {
  }

  /** Otherwise the property header, one row per non-empty metadata value
      (and every such value has its row), and the text cut to 30000
      characters as the last row. */
  lemma MetadataExported(g: General.GeneralData)
    requires |g.tables| == 0 && |g.links| == 0
    ensures var r := GeneralRows(g);
      |r| >= 2 && r[0] == TextRow(MetaHeaders) &&
      r[|r| - 1] == [Str("Content"), Str(Take(g.textContent, ContentCap))] &&
      (forall i :: 1 <= i < |r| - 1 ==>
         exists e :: e in MetaEntries(g.meta) && e.1 != "" && r[i] == [Str(e.0), Str(e.1)]) &&
      (forall e :: e in MetaEntries(g.meta) && e.1 != "" ==> [Str(e.0), Str(e.1)] in r[1..|r| - 1])
  {
    var entries := MetaEntries(g.meta);
    var kept := Kept(entries, MetaRow);
    var r := GeneralRows(g);
    assert r == [TextRow(MetaHeaders)] + kept + [TextRow(["Content", Take(g.textContent, ContentCap)])];
    assert r[1..|r| - 1] == kept;
    forall i | 1 <= i < |r| - 1
      ensures exists e :: e in entries && e.1 != "" && r[i] == [Str(e.0), Str(e.1)]
    {
      assert r[i] in kept;
      KeptSound(entries, MetaRow, r[i]);
      var e :| e in entries && MetaRow(e) == Some(r[i]);
      assert r[i] == [Str(e.0), Str(e.1)];
    }
    forall e | e in entries && e.1 != "" ensures [Str(e.0), Str(e.1)] in kept {
      MetaRowKept(entries, e);
    }
  }

  /** Every entry with a non-empty value has its row among the kept ones. */
  lemma {:induction false} MetaRowKept(entries: seq<(string, string)>, e: (string, string))
    requires e in entries && e.1 != ""
    decreases |entries|
    ensures [Str(e.0), Str(e.1)] in Kept(entries, MetaRow)
  {
    var init := entries[..|entries| - 1];
    if e in init {
      MetaRowKept(init, e);
    } else {
      assert e == entries[|entries| - 1];
      assert TextRow([e.0, e.1]) == [Str(e.0), Str(e.1)];
    }
  }

  // ---------------------------------------------------------------------------
  // CSV export

  /** What the general extractor promises of its tables: each has headers or
      rows, and no row is empty. */
  predicate TablesShaped(g: General.GeneralData) {
    forall t :: t in g.tables ==> (|t.headers| > 0 || |t.rows| > 0) && forall row :: row in t.rows ==> |row| > 0
  }

  predicate PayloadShaped(data: Payload) {
    data.GeneralPayload? ==> TablesShaped(data.general)
  }

  /** `scrapeGeneral`'s tables are shaped. */
  lemma ScrapedTablesShaped(page: Page.Snapshot)
    ensures TablesShaped(General.GeneralOf(page))
  {
    General.TablesWellFormed(page.tables);
  }

  /** A shaped payload flattens into at least one row, and every row has a cell. */
  lemma FlattenedRowsNonEmpty(siteType: Json, data: Payload)
    requires PayloadShaped(data)
    ensures var r := Flatten(siteType, data);
      |r| > 0 && forall i :: 0 <= i < |r| ==> |r[i]| > 0
  {
    var r := Flatten(siteType, data);
    if data.GeneralPayload? && !(siteType == Str(SiteEcommerce) && data.EcommerceData?)
       && !(siteType == Str(SiteLinkedIn) && data.LinkedInData?) {
      var g := data.general;
      if |g.tables| > 0 {
        var t := g.tables[0];
        assert t in g.tables;
        forall i | 0 <= i < |t.rows| ensures |t.rows[i]| > 0 {
          assert t.rows[i] in t.rows;
        }
      } else if |g.links| == 0 {
        forall i | 1 <= i < |r| - 1 ensures |r[i]| > 0 {
          assert r[i] in Kept(MetaEntries(g.meta), MetaRow);
          KeptSound(MetaEntries(g.meta), MetaRow, r[i]);
        }
      }
    }
  }

  /** The file `exportCSV` writes: a byte-order mark, then the CSV text. */
  function CsvFile(siteType: Json, data: Payload): string {
    "\U{FEFF}" + Csv.Generate(Flatten(siteType, data))
  }

  /** Reading the exported CSV (after its byte-order mark) gives back the text
      of every flattened cell, with as many rows and columns. */
  lemma CsvExportRoundTrip(siteType: Json, data: Payload)
    requires PayloadShaped(data)
    ensures var f := CsvFile(siteType, data);
      |f| > 0 && f[0] == '\U{FEFF}' &&
      Csv.ParseFile(f[1..]) == Some(Csv.Texts(Flatten(siteType, data)))
  {
    FlattenedRowsNonEmpty(siteType, data);
    var f := CsvFile(siteType, data);
    assert f[1..] == Csv.Generate(Flatten(siteType, data));
    Csv.GenerateRoundTrip(Flatten(siteType, data));
  }

  // ---------------------------------------------------------------------------
  // Excel column widths

  const MinWidth: nat := 10
  const MaxWidth: nat := 50
  const WidthPadding: nat := 2

  /** `row[colIdx]`: a short row has nothing in that column. */
  function CellAt(row: Row, col: nat): Json {
    if col < |row| then row[col] else Undefined
  }

  /** `String(row[colIdx] || "").length` */
  function CellLength(row: Row, col: nat): nat {
    |ToStr(OrEmpty(CellAt(row, col)))|
  }

  /** The longest cell of a column, 0 for no rows. */
  function Longest(rows: seq<Row>, col: nat): (r: nat)
    decreases |rows|
  {
    if rows == [] then 0
    else
      var prev := Longest(rows[..|rows| - 1], col);
      var len := CellLength(rows[|rows| - 1], col);
      if len > prev then len else prev
  }

  /** The width the sheet gives a column: the longest cell, but at least 10 and
      at most 50, plus 2. */
  function Width(rows: seq<Row>, col: nat): nat {
    var longest := Longest(rows, col);
    (if longest <= MinWidth then MinWidth else if longest >= MaxWidth then MaxWidth else longest) + WidthPadding
  }

  /** The longest cell is as long as some cell and no shorter than any. */
  lemma {:induction false} LongestIsMaximum(rows: seq<Row>, col: nat)
    decreases |rows|
    ensures forall i :: 0 <= i < |rows| ==> CellLength(rows[i], col) <= Longest(rows, col)
    ensures |rows| > 0 ==> exists i :: 0 <= i < |rows| && CellLength(rows[i], col) == Longest(rows, col)
  {
    if rows != [] {
      var init := rows[..|rows| - 1];
      LongestIsMaximum(init, col);
      assert forall i :: 0 <= i < |init| ==> rows[i] == init[i];
      if |init| > 0 && Longest(rows, col) == Longest(init, col) {
        var i :| 0 <= i < |init| && CellLength(init[i], col) == Longest(init, col);
        assert CellLength(rows[i], col) == Longest(rows, col);
      }
    }
  }

  /** Every width lies between 12 and 52, and a column whose longest cell has
      10 to 50 characters is 2 wider than that cell. */
  lemma WidthBounds(rows: seq<Row>, col: nat)
    ensures MinWidth + WidthPadding <= Width(rows, col) <= MaxWidth + WidthPadding
    ensures MinWidth <= Longest(rows, col) <= MaxWidth ==> Width(rows, col) == Longest(rows, col) + WidthPadding
  {
  }

  /** The loop over the rows that updates `maxLen`. */
  method ColumnWidth(rows: seq<Row>, col: nat) returns (wch: nat)
    ensures wch == Width(rows, col)
  {
    var maxLen := MinWidth;
    for i := 0 to |rows|
      invariant maxLen == (var l := Longest(rows[..i], col);
                           if l <= MinWidth then MinWidth else if l >= MaxWidth then MaxWidth else l)
    {
      assert rows[..i + 1][..i] == rows[..i];
      var cellLen := CellLength(rows[i], col);
      if cellLen > maxLen {
        maxLen := if cellLen < MaxWidth then cellLen else MaxWidth;
      }
    }
    assert rows[..|rows|] == rows;
    wch := maxLen + WidthPadding;
  }

  /** `rows[0].map(...)`: one width per cell of the first row; with no rows,
      reading `rows[0].map` throws. */
  method ColumnWidths(rows: seq<Row>) returns (widths: Result<seq<nat>>)
    ensures rows == [] <==> widths.Throw?
    ensures rows != [] ==>
      |widths.value| == |rows[0]| && forall c :: 0 <= c < |rows[0]| ==> widths.value[c] == Width(rows, c)
  {
    if rows == [] {
      return Throw("Cannot read properties of undefined (reading 'map')");
    }
    var ws: seq<nat> := [];
    for c := 0 to |rows[0]|
      invariant |ws| == c && forall d :: 0 <= d < c ==> ws[d] == Width(rows, d)
    {
      var w := ColumnWidth(rows, c);
      ws := ws + [w];
    }
    return Ok(ws);
  }

  // ---------------------------------------------------------------------------
  // The popup's state

  /** The request the popup sends: it never names a site type, so the content
      script classifies the page itself. */
  const PopupRequest: Message := ScrapeRequest(Undefined)

  /** `scrapedData`: the last response that carried data. */
  class PopupState {
    var scrapedData: Option<Envelope>

    /** A kept response always has data, which the export functions read. */
    predicate Valid()
      reads this
    {
      scrapedData.Some? ==> scrapedData.value.data.Some?
    }

    constructor()
      ensures scrapedData.None? && Valid()
    {
      scrapedData := None;
    }

    /** The callback of the scrape request: a response is kept only when there
        was no messaging error and it carries data; otherwise the previous one
        stays. Answers whether the results are shown. */
    method OnScrapeResponse(lastError: bool, response: Option<Envelope>) returns (shown: bool)
      requires Valid()
      modifies this
      ensures Valid()
      ensures shown <==> !lastError && response.Some? && response.value.data.Some?
      ensures scrapedData == if shown then response else old(scrapedData)
    {
      if lastError || response.None? || response.value.data.None? {
        return false;
      }
      scrapedData := response;
      return true;
    }

    /** `exportCSV`: nothing without a kept response. */
    method ExportCsv() returns (file: Option<string>)
      requires Valid()
      ensures scrapedData.None? ==> file.None?
      ensures scrapedData.Some? ==>
        file == Some(CsvFile(scrapedData.value.siteType, scrapedData.value.data.value))
    {
      if scrapedData.None? {
        return None;
      }
      var env := scrapedData.value;
      var rows := FlattenRows(env.siteType, env.data.value);
      var csv := Csv.Generate(rows);
      return Some("\U{FEFF}" + csv);
    }

    /** The column widths `exportExcel` sets: nothing without a kept response. */
    method ExportExcelWidths() returns (widths: Option<Result<seq<nat>>>)
      requires Valid()
      ensures scrapedData.None? <==> widths.None?
      ensures widths.Some? ==>
        var rows := Flatten(scrapedData.value.siteType, scrapedData.value.data.value);
        (rows == [] <==> widths.value.Throw?) &&
        (rows != [] ==> |widths.value.value| == |rows[0]| &&
                        forall c :: 0 <= c < |rows[0]| ==> widths.value.value[c] == Width(rows, c))
      ensures widths.Some? && widths.value.Ok? ==> forall w :: w in widths.value.value ==>
        MinWidth + WidthPadding <= w <= MaxWidth + WidthPadding
    {
      if scrapedData.None? {
        return None;
      }
      var env := scrapedData.value;
      var rows := FlattenRows(env.siteType, env.data.value);
      var ws := ColumnWidths(rows);
      if ws.Ok? {
        forall c | 0 <= c < |rows[0]| ensures MinWidth + WidthPadding <= ws.value[c] <= MaxWidth + WidthPadding {
          WidthBounds(rows, c);
        }
      }
      return Some(ws);
    }
  }
}
