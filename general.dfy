/** The fallback extractor for any page (content/detectors/general.js): page
    metadata, the visible text, and the links, images, tables and headings,
    each gathered by a loop that deduplicates or filters and stops at a cap. */
module General {
  import opened Common
  import opened Strings
  import opened JsValues
  import opened Page
  import opened Seqs

  datatype Meta = Meta(
    title: string,
    description: string,
    keywords: string,
    ogTitle: string,
    ogDescription: string,
    author: string,
    url: string
  )

  datatype Link = Link(text: string, url: string)

  datatype Image = Image(alt: string, src: string, width: nat, height: nat)

  /** A kept table with its position among the page's tables. */
  datatype Table = Table(index: nat, headers: seq<string>, rows: seq<seq<string>>)

  datatype Heading = Heading(level: HeadingLevel, text: string)

  datatype GeneralData = GeneralData(
    meta: Meta,
    headings: seq<Heading>,
    textContent: string,
    links: seq<Link>,
    images: seq<Image>,
    tables: seq<Table>
  )

  const TextCap: nat := 50000
  const LinkCap: nat := 500
  const LinkTextCap: nat := 200
  const ImageCap: nat := 200
  const TableCap: nat := 20
  const RowCap: nat := 100
  const HeadingCap: nat := 50
  const HeadingTextCap: nat := 200

  // ---------------------------------------------------------------------------
  // Generic shapes of the loops

  /** The first `n` elements, or all of them when there are fewer: what a loop
      that breaks as soon as it holds `n` results keeps. */
  function Cap<T>(s: seq<T>, n: nat): (r: seq<T>)
    ensures |r| <= n && |r| <= |s| && r == s[..|r|]
    ensures |s| <= n ==> r == s
    ensures n <= |s| ==> |r| == n
  {
    if |s| <= n then s else s[..n]
  }

  /** The keys already taken by `xs`. */
  function Keys<A>(xs: seq<A>, key: A -> string): set<string>
    decreases |xs|
  {
    if xs == [] then {} else Keys(xs[..|xs| - 1], key) + {key(xs[|xs| - 1])}
  }

  /** The elements whose key starts with `http`, each key taken at its first
      occurrence only, in order: what a loop with a `seen` set keeps. */
  function FirstHttp<A(==)>(xs: seq<A>, key: A -> string): (r: seq<A>)
    decreases |xs|
    ensures |r| <= |xs|
  {
    if xs == [] then []
    else
      var prev := FirstHttp(xs[..|xs| - 1], key);
      var x := xs[|xs| - 1];
      if StartsWith(key(x), "http") && key(x) !in Keys(prev, key) then prev + [x] else prev
  }


  // ---------------------------------------------------------------------------
  // Per-element rules

  function AnchorUrl(a: Anchor): string { a.href }

  function ImageSrc(img: ImageEl): string { img.src }

  /** The record pushed for a kept link: its text squished and cut to 200. */
  function LinkOf(a: Anchor): Link {
    Link(Take(Squish(a.text), LinkTextCap), a.href)
  }

  function ImageOf(img: ImageEl): Image {
    Image(img.alt, img.src, img.naturalWidth, img.naturalHeight)
  }

  function SquishAll(cells: seq<string>): (r: seq<string>)
    ensures |r| == |cells|
    ensures forall k :: 0 <= k < |r| ==> r[k] == Squish(cells[k])
  {
    seq(|cells|, k requires 0 <= k < |cells| => Squish(cells[k]))
  }

  /** A `tr` contributes its squished `td` texts when it has at least one `td`. */
  function RowEntry(cells: seq<string>): (r: Option<seq<string>>)
    ensures r.Some? <==> |cells| > 0
  {
    if |cells| > 0 then Some(SquishAll(cells)) else None
  }

  /** A heading contributes when its squished text is not empty. */
  function HeadingEntry(h: HeadingEl): (r: Option<Heading>)
    ensures r.Some? <==> Squish(h.text) != ""
  {
    var text := Squish(h.text);
    if text != "" then Some(Heading(h.level, Take(text, HeadingTextCap))) else None
  }

  // ---------------------------------------------------------------------------
  // Specification of each collection

  function MapLinks(anchors: seq<Anchor>): (r: seq<Link>)
    ensures |r| == |anchors|
    ensures forall k :: 0 <= k < |r| ==> r[k] == LinkOf(anchors[k])
  {
    seq(|anchors|, k requires 0 <= k < |anchors| => LinkOf(anchors[k]))
  }

  function MapImages(imgs: seq<ImageEl>): (r: seq<Image>)
    ensures |r| == |imgs|
    ensures forall k :: 0 <= k < |r| ==> r[k] == ImageOf(imgs[k])
  {
    seq(|imgs|, k requires 0 <= k < |imgs| => ImageOf(imgs[k]))
  }

  /** The links of a page: one per distinct http URL, first occurrence first, at most 500. */
  function Links(anchors: seq<Anchor>): seq<Link> {
    Cap(MapLinks(FirstHttp(anchors, AnchorUrl)), LinkCap)
  }

  /** The images of a page: one per distinct http source, at most 200. */
  function Images(imgs: seq<ImageEl>): seq<Image> {
    Cap(MapImages(FirstHttp(imgs, ImageSrc)), ImageCap)
  }

  /** The rows of a table element: its `tbody` rows when it has any, else all its rows. */
  function TableRows(t: TableEl): seq<seq<string>> {
    Cap(Kept(if |t.bodyRows| > 0 then t.bodyRows else t.allRows, RowEntry), RowCap)
  }

  /** The table record for the element at `index`, if it is kept. */
  function TableOf(t: TableEl, index: nat): (r: Option<Table>)
    ensures r.Some? ==> r.value.index == index
  {
    var headers := SquishAll(t.headerCells);
    var rows := TableRows(t);
    if |headers| > 0 || |rows| > 0 then Some(Table(index, headers, rows)) else None
  }

  /** The kept tables among `ts`, each with its position in `ts`. */
  function KeptTables(ts: seq<TableEl>): seq<Table>
    decreases |ts|
  {
    if ts == [] then []
    else
      var prev := KeptTables(ts[..|ts| - 1]);
      match TableOf(ts[|ts| - 1], |ts| - 1)
      case Some(t) => prev + [t]
      case None => prev
  }

  /** The tables of a page: only the first 20 table elements are examined. */
  function Tables(ts: seq<TableEl>): seq<Table> {
    KeptTables(ts[..if |ts| < TableCap then |ts| else TableCap])
  }

  function Headings(hs: seq<HeadingEl>): seq<Heading> {
    Cap(Kept(hs, HeadingEntry), HeadingCap)
  }

  /** `document.querySelector(sel)?.content || ""` */
  function MetaContent(page: Snapshot, sel: string): (r: string)
    ensures Find(page.doc, sel).None? ==> r == ""
  {
    match Find(page.doc, sel)
    case Some(el) => el.content
    case None => ""
  }

  function PageMeta(page: Snapshot): (r: Meta)
    ensures r.title == page.title && r.url == page.location.href
  {
    Meta(
      title := page.title,
      description := MetaContent(page, "meta[name=\"description\"]"),
      keywords := MetaContent(page, "meta[name=\"keywords\"]"),
      ogTitle := MetaContent(page, "meta[property=\"og:title\"]"),
      ogDescription := MetaContent(page, "meta[property=\"og:description\"]"),
      author := MetaContent(page, "meta[name=\"author\"]"),
      url := page.location.href)
  }

  /** `(document.body?.innerText || "").substring(0, 50000)` */
  function PageText(page: Snapshot): (r: string)
    ensures |r| <= TextCap
    ensures page.body.None? ==> r == ""
    ensures page.body.Some? ==> r == Take(page.body.value.innerText, TextCap)
  {
    match page.body
    case None => ""
    case Some(b) => Take(b.innerText, TextCap)
  }

  /** The record `scrapeGeneral` returns. */
  function GeneralOf(page: Snapshot): GeneralData {
    GeneralData(
      meta := PageMeta(page),
      headings := Headings(page.headings),
      textContent := PageText(page),
      links := Links(page.anchors),
      images := Images(page.images),
      tables := Tables(page.tables))
  }

  // ---------------------------------------------------------------------------
  // Prefix lemmas: what a loop has kept after i elements starts what it keeps
  // after all of them, which is why breaking at the cap keeps a prefix.

  lemma {:induction false} FirstHttpPrefix<A>(xs: seq<A>, i: nat, key: A -> string)
    requires i <= |xs|
    decreases |xs| - i
    ensures var p := FirstHttp(xs[..i], key); var r := FirstHttp(xs, key);
      |p| <= |r| && r[..|p|] == p
  {
    if i == |xs| {
      assert xs[..i] == xs;
    } else {
      FirstHttpPrefix(xs, i + 1, key);
      assert xs[..i + 1][..i] == xs[..i];
    }
  }


  lemma KeptTablesSnoc(ts: seq<TableEl>, i: nat)
    requires i < |ts|
    ensures KeptTables(ts[..i + 1]) ==
      KeptTables(ts[..i]) + (match TableOf(ts[i], i) case Some(t) => [t] case None => [])
  {
    assert ts[..i + 1][..i] == ts[..i];
  }


  /** One more table element: the tables loop's push, stated on its own values. */
  lemma TablesStep(ts: seq<TableEl>, i: nat, acc: seq<Table>, table: TableEl,
                   headers: seq<string>, rows: seq<seq<string>>)
    requires i < |ts| && ts[i] == table && acc == KeptTables(ts[..i])
    requires headers == SquishAll(table.headerCells)
    requires rows == Cap(Kept(if |table.bodyRows| > 0 then table.bodyRows else table.allRows, RowEntry), RowCap)
    ensures KeptTables(ts[..i + 1]) ==
      if |headers| > 0 || |rows| > 0 then acc + [Table(i, headers, rows)] else acc
  {
    KeptTablesSnoc(ts, i);
  }

  /** One more heading: the headings loop's push, stated on its own values. */
  lemma HeadingsStep(hs: seq<HeadingEl>, i: nat, text: string)
    requires i < |hs| && text == Squish(hs[i].text)
    ensures Kept(hs[..i + 1], HeadingEntry) ==
      if text != "" then Kept(hs[..i], HeadingEntry) + [Heading(hs[i].level, Take(text, HeadingTextCap))]
      else Kept(hs[..i], HeadingEntry)
  {
    KeptSnoc(hs, i, HeadingEntry);
  }

  /** One more element: `FirstHttp` grows by it exactly when its key is http and new. */
  lemma FirstHttpSnoc<A>(xs: seq<A>, i: nat, key: A -> string)
    requires i < |xs|
    ensures var prev := FirstHttp(xs[..i], key);
      FirstHttp(xs[..i + 1], key) ==
        if StartsWith(key(xs[i]), "http") && key(xs[i]) !in Keys(prev, key) then prev + [xs[i]] else prev
  {
    assert xs[..i + 1][..i] == xs[..i];
  }

  lemma KeysSnoc<A>(xs: seq<A>, x: A, key: A -> string)
    ensures Keys(xs + [x], key) == Keys(xs, key) + {key(x)}
  {
    assert (xs + [x])[..|xs|] == xs;
  }

  /** A key is taken exactly when some element carries it. */
  lemma {:induction false} KeysMember<A>(xs: seq<A>, key: A -> string, k: string)
    decreases |xs|
    ensures k in Keys(xs, key) <==> exists i :: 0 <= i < |xs| && key(xs[i]) == k
  {
    if xs != [] {
      var init := xs[..|xs| - 1];
      KeysMember(init, key, k);
      if k in Keys(init, key) {
        var i :| 0 <= i < |init| && key(init[i]) == k;
        assert xs[i] == init[i];
      }
      forall i | 0 <= i < |xs| - 1 ensures xs[i] == init[i] {
      }
    }
  }

  /** Where a filtering loop that breaks at `cap` ends: what it kept is all
      of `Kept` (the input ran out below the cap) or the first `cap` of it. */
  lemma KeptCapped<A, B>(xs: seq<A>, i: nat, f: A -> Option<B>, kept: seq<B>, cap: nat)
    requires i <= |xs| && kept == Kept(xs[..i], f)
    requires i == |xs| || |kept| >= cap
    requires |kept| <= cap
    ensures kept == Cap(Kept(xs, f), cap)
  {
    KeptPrefix(xs, i, f);
    if i == |xs| {
      assert xs[..i] == xs;
    }
  }

  /** Where a dedup loop that breaks at `cap` ends: the selection so far is
      either all of it (the input ran out below the cap) or its first `cap`. */
  lemma CappedSelection<A>(xs: seq<A>, i: nat, key: A -> string, kept: seq<A>, cap: nat)
    requires i <= |xs| && kept == FirstHttp(xs[..i], key)
    requires i == |xs| || |kept| >= cap
    requires |kept| <= cap
    ensures kept == Cap(FirstHttp(xs, key), cap)
  {
    FirstHttpPrefix(xs, i, key);
    if i == |xs| {
      assert xs[..i] == xs;
    }
  }

  lemma MapLinksCap(anchors: seq<Anchor>, n: nat)
    ensures MapLinks(Cap(anchors, n)) == Cap(MapLinks(anchors), n)
  {
  }

  lemma MapImagesCap(imgs: seq<ImageEl>, n: nat)
    ensures MapImages(Cap(imgs, n)) == Cap(MapImages(imgs), n)
  {
  }

  lemma MapLinksSnoc(anchors: seq<Anchor>, a: Anchor)
    ensures MapLinks(anchors + [a]) == MapLinks(anchors) + [LinkOf(a)]
  {
  }

  lemma MapImagesSnoc(imgs: seq<ImageEl>, img: ImageEl)
    ensures MapImages(imgs + [img]) == MapImages(imgs) + [ImageOf(img)]
  {
  }

  // ---------------------------------------------------------------------------
  // The loops of `scrapeGeneral`

  /** The links loop: a `seenUrls` set, a push per new http URL, a break at 500. */
  method CollectLinks(anchors: seq<Anchor>) returns (links: seq<Link>)
    ensures links == Links(anchors)
  {
    var seen: set<string> := {};
    links := [];
    ghost var kept: seq<Anchor> := [];
    var i := 0;
    while i < |anchors|
      invariant 0 <= i <= |anchors|
      invariant kept == FirstHttp(anchors[..i], AnchorUrl)
      invariant links == MapLinks(kept)
      invariant seen == Keys(kept, AnchorUrl)
      invariant |links| < LinkCap
    {
      var a := anchors[i];
      FirstHttpSnoc(anchors, i, AnchorUrl);
      var url := a.href;
      if url != "" && StartsWith(url, "http") && url !in seen {
        KeysSnoc(kept, a, AnchorUrl);
        MapLinksSnoc(kept, a);
        seen := seen + {url};
        links := links + [LinkOf(a)];
        kept := kept + [a];
      }
      i := i + 1;
      if |links| >= LinkCap {
        break;
      }
    }
    assert |kept| == |links|;
    CappedSelection(anchors, i, AnchorUrl, kept, LinkCap);
    MapLinksCap(FirstHttp(anchors, AnchorUrl), LinkCap);
  }

  /** The images loop: a `seenSrcs` set, a push per new http source, a break at 200. */
  method CollectImages(imgs: seq<ImageEl>) returns (images: seq<Image>)
    ensures images == Images(imgs)
  {
    var seen: set<string> := {};
    images := [];
    ghost var kept: seq<ImageEl> := [];
    var i := 0;
    while i < |imgs|
      invariant 0 <= i <= |imgs|
      invariant kept == FirstHttp(imgs[..i], ImageSrc)
      invariant images == MapImages(kept)
      invariant seen == Keys(kept, ImageSrc)
      invariant |images| < ImageCap
    {
      var img := imgs[i];
      FirstHttpSnoc(imgs, i, ImageSrc);
      var src := img.src;
      if src != "" && StartsWith(src, "http") && src !in seen {
        KeysSnoc(kept, img, ImageSrc);
        MapImagesSnoc(kept, img);
        seen := seen + {src};
        images := images + [Image(img.alt, src, img.naturalWidth, img.naturalHeight)];
        kept := kept + [img];
      }
      i := i + 1;
      if |images| >= ImageCap {
        break;
      }
    }
    assert |kept| == |images|;
    CappedSelection(imgs, i, ImageSrc, kept, ImageCap);
    MapImagesCap(FirstHttp(imgs, ImageSrc), ImageCap);
  }

  /** The rows loop of one table: a push per row with cells, a break at 100. */
  method CollectRows(trs: seq<seq<string>>) returns (rows: seq<seq<string>>)
    ensures rows == Cap(Kept(trs, RowEntry), RowCap)
  {
    rows := [];
    var i := 0;
    while i < |trs|
      invariant 0 <= i <= |trs|
      invariant rows == Kept(trs[..i], RowEntry)
      invariant |rows| < RowCap
    {
      var cells := SquishAll(trs[i]);
      KeptSnoc(trs, i, RowEntry);
      if |cells| > 0 {
        rows := rows + [cells];
      }
      i := i + 1;
      if |rows| >= RowCap {
        break;
      }
    }
    KeptCapped(trs, i, RowEntry, rows, RowCap);
  }

  /** The tables loop: the first 20 table elements by index, each kept when it
      has headers or rows. */
  method CollectTables(tableEls: seq<TableEl>) returns (tables: seq<Table>)
    ensures tables == Tables(tableEls)
  {
    var n := if |tableEls| < TableCap then |tableEls| else TableCap;
    ghost var examined := tableEls[..n];
    tables := [];
    var i := 0;
    while i < n
      invariant 0 <= i <= n
      invariant tables == KeptTables(examined[..i])
    {
      var table := tableEls[i];
      var headers := SquishAll(table.headerCells);
      var allRows := if |table.bodyRows| > 0 then table.bodyRows else table.allRows;
      var rows := CollectRows(allRows);
      TablesStep(examined, i, tables, table, headers, rows);
      if |headers| > 0 || |rows| > 0 {
        tables := tables + [Table(i, headers, rows)];
      }
      i := i + 1;
    }
    assert examined[..n] == examined;
  }

  /** The headings loop: a push per non-empty heading, a break at 50. */
  method CollectHeadings(hs: seq<HeadingEl>) returns (headings: seq<Heading>)
    ensures headings == Headings(hs)
  {
    headings := [];
    var i := 0;
    while i < |hs|
      invariant 0 <= i <= |hs|
      invariant headings == Kept(hs[..i], HeadingEntry)
      invariant |headings| < HeadingCap
    {
      var h := hs[i];
      var text := Squish(h.text);
      HeadingsStep(hs, i, text);
      if text != "" {
        headings := headings + [Heading(h.level, Take(text, HeadingTextCap))];
      }
      i := i + 1;
      if |headings| >= HeadingCap {
        break;
      }
    }
    KeptCapped(hs, i, HeadingEntry, headings, HeadingCap);
  }

  /** `scrapeGeneral` */
  method ScrapeGeneral(page: Snapshot) returns (data: GeneralData)
    ensures data == GeneralOf(page)
  {
    var meta := PageMeta(page);
    var textContent := PageText(page);
    var links := CollectLinks(page.anchors);
    var images := CollectImages(page.images);
    var tables := CollectTables(page.tables);
    var headings := CollectHeadings(page.headings);
    data := GeneralData(meta, headings, textContent, links, images, tables);
  }

  // ---------------------------------------------------------------------------
  // Properties

  /** A first-occurrence selection takes elements of its input, each with an
      http key, and no key twice. */
  lemma {:induction false} FirstHttpSound<A>(xs: seq<A>, key: A -> string)
    decreases |xs|
    ensures var r := FirstHttp(xs, key);
      (forall x :: x in r ==> x in xs && StartsWith(key(x), "http")) &&
      (forall i, j :: 0 <= i < j < |r| ==> key(r[i]) != key(r[j]))
  {
    if xs != [] {
      var init := xs[..|xs| - 1];
      var prev := FirstHttp(init, key);
      var x := xs[|xs| - 1];
      FirstHttpSound(init, key);
      assert forall y :: y in init ==> y in xs;
      if StartsWith(key(x), "http") && key(x) !in Keys(prev, key) {
        var r := prev + [x];
        forall i | 0 <= i < |prev| ensures key(r[i]) != key(x) {
          KeysMember(prev, key, key(x));
        }
      }
    }
  }


  /** A first-occurrence selection misses no http key of its input. */
  lemma {:induction false} FirstHttpComplete<A>(xs: seq<A>, key: A -> string, x: A)
    requires x in xs && StartsWith(key(x), "http")
    decreases |xs|
    ensures key(x) in Keys(FirstHttp(xs, key), key)
  {
    var init := xs[..|xs| - 1];
    var prev := FirstHttp(init, key);
    var last := xs[|xs| - 1];
    if x in init {
      FirstHttpComplete(init, key, x);
    } else {
      assert x == last;
    }
    assert forall p :: p in prev ==> p in FirstHttp(xs, key) by {
      FirstHttpPrefix(xs, |xs| - 1, key);
    }
  }

  /** Each selected element is the first element of the input with its key. */
  lemma {:induction false} FirstHttpFirst<A>(xs: seq<A>, key: A -> string, k: nat)
    requires k < |FirstHttp(xs, key)|
    decreases |xs|
    ensures exists j ::
              0 <= j < |xs| && xs[j] == FirstHttp(xs, key)[k] &&
              (forall j' :: 0 <= j' < j ==> key(xs[j']) != key(xs[j]))
  {
    var init := xs[..|xs| - 1];
    if k < |FirstHttp(init, key)| {
      FirstHttpFirst(init, key, k);
      FirstHttpFirstOld(xs, key, k);
    } else {
      FirstHttpFirstNew(xs, key);
      assert xs[|xs| - 1] == FirstHttp(xs, key)[k];
    }
  }

  /** An element selected from all but the last element stays selected, at
      the same place, and stays the first with its key. */
  lemma FirstHttpFirstOld<A>(xs: seq<A>, key: A -> string, k: nat)
    requires xs != [] && k < |FirstHttp(xs[..|xs| - 1], key)|
    requires var init := xs[..|xs| - 1];
      exists j :: 0 <= j < |init| && init[j] == FirstHttp(init, key)[k] &&
        (forall j' :: 0 <= j' < j ==> key(init[j']) != key(init[j]))
    ensures exists j ::
              0 <= j < |xs| && xs[j] == FirstHttp(xs, key)[k] &&
              (forall j' :: 0 <= j' < j ==> key(xs[j']) != key(xs[j]))
  {
    var init := xs[..|xs| - 1];
    var prev := FirstHttp(init, key);
    FirstHttpPrefix(xs, |xs| - 1, key);
    var j :| 0 <= j < |init| && init[j] == prev[k] &&
      forall j' :: 0 <= j' < j ==> key(init[j']) != key(init[j]);
    assert xs[j] == FirstHttp(xs, key)[k];
    assert forall j' :: 0 <= j' < j ==> xs[j'] == init[j'];
  }

  /** When the last element is selected, no earlier element has its key. */
  lemma FirstHttpFirstNew<A>(xs: seq<A>, key: A -> string)
    requires xs != [] && |FirstHttp(xs[..|xs| - 1], key)| < |FirstHttp(xs, key)|
    ensures FirstHttp(xs, key)[|FirstHttp(xs[..|xs| - 1], key)|] == xs[|xs| - 1]
    ensures forall j' :: 0 <= j' < |xs| - 1 ==> key(xs[j']) != key(xs[|xs| - 1])
  {
    var init := xs[..|xs| - 1];
    var j := |xs| - 1;
    forall j' | 0 <= j' < j ensures key(xs[j']) != key(xs[j]) {
      if StartsWith(key(xs[j']), "http") {
        assert xs[j'] == init[j'];
        FirstHttpComplete(init, key, xs[j']);
      }
    }
  }

  /** Every link of a page has an http URL, a squished text of at most 200
      characters, no URL twice, and there are at most 500 of them. */
  lemma LinksWellFormed(anchors: seq<Anchor>)
    ensures var r := Links(anchors);
      |r| <= LinkCap &&
      (forall l :: l in r ==> StartsWith(l.url, "http") && |l.text| <= LinkTextCap) &&
      (forall i, j :: 0 <= i < j < |r| ==> r[i].url != r[j].url)
  {
    var sel := FirstHttp(anchors, AnchorUrl);
    var r := Links(anchors);
    FirstHttpSound(anchors, AnchorUrl);
    assert forall k :: 0 <= k < |r| ==> r[k] == LinkOf(sel[k]) && sel[k] in sel;
  }

  /** Below the cap no http link is lost: every http URL of the page is listed. */
  lemma LinksComplete(anchors: seq<Anchor>, a: Anchor)
    requires a in anchors && StartsWith(a.href, "http")
    requires |FirstHttp(anchors, AnchorUrl)| <= LinkCap
    ensures exists l :: l in Links(anchors) && l.url == a.href
  {
    var sel := FirstHttp(anchors, AnchorUrl);
    FirstHttpComplete(anchors, AnchorUrl, a);
    KeysMember(sel, AnchorUrl, a.href);
    var k :| 0 <= k < |sel| && AnchorUrl(sel[k]) == a.href;
    assert Links(anchors)[k] == LinkOf(sel[k]);
  }

  /** Every image has an http source, no source twice, at most 200 images, and
      each image's width and height are the natural size of a page image with
      that source. */
  lemma ImagesWellFormed(imgs: seq<ImageEl>)
    ensures var r := Images(imgs);
      |r| <= ImageCap &&
      (forall m :: m in r ==> StartsWith(m.src, "http")) &&
      (forall i, j :: 0 <= i < j < |r| ==> r[i].src != r[j].src) &&
      (forall m :: m in r ==> exists e :: e in imgs && e.src == m.src &&
                                         m.width == e.naturalWidth && m.height == e.naturalHeight)
  {
    var sel := FirstHttp(imgs, ImageSrc);
    var r := Images(imgs);
    FirstHttpSound(imgs, ImageSrc);
    assert forall k :: 0 <= k < |r| ==> r[k] == ImageOf(sel[k]) && sel[k] in sel;
  }

  /** Every row kept from a table has at least one cell, and there are at most 100. */
  lemma TableRowsWellFormed(t: TableEl)
    ensures var rows := TableRows(t);
      |rows| <= RowCap && forall row :: row in rows ==> |row| > 0
  {
    var src := if |t.bodyRows| > 0 then t.bodyRows else t.allRows;
    var all := Kept(src, RowEntry);
    var rows := TableRows(t);
    forall row | row in rows ensures |row| > 0 {
      assert row in all;
      KeptSound(src, RowEntry, row);
      var x :| x in src && RowEntry(x) == Some(row);
    }
  }

  /** A kept table has headers or rows. */
  lemma {:induction false} KeptTablesNonEmpty(ts: seq<TableEl>)
    decreases |ts|
    ensures forall t :: t in KeptTables(ts) ==> |t.headers| > 0 || |t.rows| > 0
    ensures forall t :: t in KeptTables(ts) ==> t.index < |ts| && t.rows == TableRows(ts[t.index])
  {
    if ts != [] {
      var init := ts[..|ts| - 1];
      KeptTablesNonEmpty(init);
      forall t | t in KeptTables(init) ensures ts[t.index] == init[t.index] {
      }
    }
  }

  /** Kept tables have strictly increasing positions, each below the number
      of elements examined. */
  lemma {:induction false} KeptTablesIndices(ts: seq<TableEl>)
    decreases |ts|
    ensures forall k :: 0 <= k < |KeptTables(ts)| ==> KeptTables(ts)[k].index < |ts|
    ensures forall k, l :: 0 <= k < l < |KeptTables(ts)| ==> KeptTables(ts)[k].index < KeptTables(ts)[l].index
  {
    if ts != [] {
      var init := ts[..|ts| - 1];
      KeptTablesIndices(init);
      var prev := KeptTables(init);
      match TableOf(ts[|ts| - 1], |ts| - 1)
      case Some(t) =>
        var r := prev + [t];
        assert KeptTables(ts) == r;
        assert forall k :: 0 <= k < |prev| ==> r[k] == prev[k];
      case None =>
        assert KeptTables(ts) == prev;
    }
  }

  /** The tables of a page: at most 20, indexes strictly increasing and below
      20, each with headers or rows, each row non-empty, at most 100 rows. */
  lemma TablesWellFormed(ts: seq<TableEl>)
    ensures var r := Tables(ts);
      |r| <= TableCap &&
      (forall k :: 0 <= k < |r| ==> r[k].index < TableCap && r[k].index < |ts|) &&
      (forall k, l :: 0 <= k < l < |r| ==> r[k].index < r[l].index) &&
      (forall t :: t in r ==> |t.headers| > 0 || |t.rows| > 0) &&
      (forall t :: t in r ==> |t.rows| <= RowCap && forall row :: row in t.rows ==> |row| > 0)
  {
    var n := if |ts| < TableCap then |ts| else TableCap;
    var r := Tables(ts);
    KeptTablesNonEmpty(ts[..n]);
    KeptTablesIndices(ts[..n]);
    IndexesBound(r, n);
    forall t | t in r ensures |t.rows| <= RowCap && forall row :: row in t.rows ==> |row| > 0 {
      TableRowsWellFormed(ts[..n][t.index]);
    }
  }

  /** Strictly increasing indexes below `n` number at most `n`. */
  lemma {:induction false} IndexesBound(r: seq<Table>, n: nat)
    requires forall k :: 0 <= k < |r| ==> r[k].index < n
    requires forall k, l :: 0 <= k < l < |r| ==> r[k].index < r[l].index
    decreases n
    ensures |r| <= n
  {
    if |r| > 0 {
      var init := r[..|r| - 1];
      var last := r[|r| - 1].index;
      assert forall k :: 0 <= k < |init| ==> init[k].index < last;
      IndexesBound(init, last);
    }
  }

  /** At most 50 headings, each with a non-empty text of at most 200 characters. */
  lemma HeadingsWellFormed(hs: seq<HeadingEl>)
    ensures var r := Headings(hs);
      |r| <= HeadingCap && forall h :: h in r ==> h.text != "" && |h.text| <= HeadingTextCap
  {
    var all := Kept(hs, HeadingEntry);
    forall h | h in Headings(hs) ensures h.text != "" && |h.text| <= HeadingTextCap {
      assert h in all;
      KeptSound(hs, HeadingEntry, h);
      var x :| x in hs && HeadingEntry(x) == Some(h);
    }
  }

  /** The metadata record: `title` and `url` copied, every other field the
      `content` of its meta tag or `""` without one; the text at most 50000. */
  lemma GeneralOfMeta(page: Snapshot)
    ensures var d := GeneralOf(page);
      d.meta.title == page.title && d.meta.url == page.location.href &&
      (!Matches(page.doc, "meta[name=\"author\"]") ==> d.meta.author == "") &&
      (!Matches(page.doc, "meta[name=\"description\"]") ==> d.meta.description == "") &&
      |d.textContent| <= TextCap
  {
  }
}
