/** The product extractor (content/detectors/ecommerce.js): JSON-LD first, then
    schema.org microdata, then CSS heuristics, each strategy consulted only
    when the ones before it produced no product. */
module Ecommerce {
  import opened Common
  import opened Strings
  import opened JsValues
  import opened Page
  import opened Seqs

  /** A product record. A field copied from JSON-LD keeps whatever JSON value the
      page put there (`item.sku || ""` may be a number); `description` is always
      text, cut to 500 characters. */
  datatype Product = Product(
    name: Json,
    price: Json,
    currency: Json,
    description: string,
    image: Json,
    rating: Json,
    reviewCount: Json,
    availability: Json,
    brand: Json,
    sku: Json
  )

  const DescriptionCap: nat := 500

  // ---------------------------------------------------------------------------
  // Availability

  /** `simplifyAvailability` on text: the first of `InStock`, `OutOfStock`,
      `PreOrder`, `LimitedAvailability` that occurs picks the label; anything
      else is returned as it is. */
  function SimplifyAvailability(val: string): (r: string)
    ensures val == "" ==> r == ""
    ensures Contains(val, "InStock") ==> r == "In Stock"
    ensures !Contains(val, "InStock") && Contains(val, "OutOfStock") ==> r == "Out of Stock"
    ensures !Contains(val, "InStock") && !Contains(val, "OutOfStock") && Contains(val, "PreOrder") ==> r == "Pre-Order"
    ensures (!Contains(val, "InStock") && !Contains(val, "OutOfStock") && !Contains(val, "PreOrder")
             && Contains(val, "LimitedAvailability")) ==> r == "Limited"
    ensures (!Contains(val, "InStock") && !Contains(val, "OutOfStock") && !Contains(val, "PreOrder")
             && !Contains(val, "LimitedAvailability")) ==> r == val
  {
    if val == "" then ""
    else if Contains(val, "InStock") then "In Stock"
    else if Contains(val, "OutOfStock") then "Out of Stock"
    else if Contains(val, "PreOrder") then "Pre-Order"
    else if Contains(val, "LimitedAvailability") then "Limited"
    else val
  }

  /** `simplifyAvailability(v)` on the JSON value `item.offers?.availability || ""`:
      a falsy value gives `""`, a string is simplified as text, an array is
      matched element by element (`Array.prototype.includes`), and any other
      value has no `includes` method and throws. */
  function SimplifyAvailabilityValue(val: Json): (r: Result<Json>)
    ensures !Truthy(val) ==> r == Ok(Str(""))
    ensures val.Str? ==> r == Ok(Str(SimplifyAvailability(val.s)))
    ensures r.Throw? <==> Truthy(val) && !val.Str? && !val.Arr?
  {
    if !Truthy(val) then Ok(Str(""))
    else match val
      case Str(s) => Ok(Str(SimplifyAvailability(s)))
      case Arr(es) =>
        if Str("InStock") in es then Ok(Str("In Stock"))
        else if Str("OutOfStock") in es then Ok(Str("Out of Stock"))
        else if Str("PreOrder") in es then Ok(Str("Pre-Order"))
        else if Str("LimitedAvailability") in es then Ok(Str("Limited"))
        else Ok(val)
      case _ => Throw("val.includes is not a function")
  }

  // ---------------------------------------------------------------------------
  // Offers

  /** The offer an item's price is read from: the first element of an `offers`
      array, or `offers` itself. */
  function FirstOffer(offers: Json): Json {
    if offers.Arr? then OptAt(offers, 0) else offers
  }

  /** `extractJsonLdPrice`: `""` without offers; otherwise `price`, else
      `lowPrice`, else `""` of the first offer. An empty offers array leaves no
      offer to read and throws. */
  function ExtractJsonLdPrice(item: Json): (r: Result<Json>)
    ensures !Truthy(OptGet(item, "offers")) ==> r == Ok(Str(""))
    ensures Truthy(OptGet(item, "offers")) ==>
      var o := FirstOffer(OptGet(item, "offers"));
      if Nullish(o) then r.Throw?
      else r == Ok(if Truthy(OptGet(o, "price")) then OptGet(o, "price") else OrEmpty(OptGet(o, "lowPrice")))
  {
    var offers := OptGet(item, "offers");
    if !Truthy(offers) then Ok(Str(""))
    else
      var o := FirstOffer(offers);
      var price :- Get(o, "price");
      Ok(OrEmpty(Or(price, OptGet(o, "lowPrice"))))
  }

  /** `extractJsonLdCurrency`: the first offer's `priceCurrency`, resolved like the price. */
  function ExtractJsonLdCurrency(item: Json): (r: Result<Json>)
    ensures !Truthy(OptGet(item, "offers")) ==> r == Ok(Str(""))
    ensures Truthy(OptGet(item, "offers")) ==>
      var o := FirstOffer(OptGet(item, "offers"));
      if Nullish(o) then r.Throw? else r == Ok(OrEmpty(OptGet(o, "priceCurrency")))
  {
    var offers := OptGet(item, "offers");
    if !Truthy(offers) then Ok(Str(""))
    else
      var o := FirstOffer(offers);
      var currency :- Get(o, "priceCurrency");
      Ok(OrEmpty(currency))
  }

  // ---------------------------------------------------------------------------
  // Strategy 1: JSON-LD

  /** `type === "Product" || (Array.isArray(type) && type.includes("Product"))` */
  predicate IsProductType(t: Json) {
    t == Str("Product") || ArrayIncludes(t, Str("Product"))
  }

  /** The image of a JSON-LD item: a string as it is, otherwise the `url` of its
      first element, else the first element itself, else `""`. */
  function ItemImage(image: Json): Json {
    if image.Str? then image
    else
      var first := OptAt(image, 0);
      OrEmpty(Or(OptGet(first, "url"), first))
  }

  /** One element of a JSON-LD block: `None` when it is not a product, the record
      when it is, or the exception its fields raise. */
  function ItemProduct(item: Json): (r: Result<Option<Product>>)
    ensures Nullish(item) ==> r.Throw?
    ensures r.Ok? && r.value.Some? ==> IsProductType(OptGet(item, "@type"))
    ensures !Nullish(item) && !IsProductType(OptGet(item, "@type")) ==> r == Ok(None)
    ensures r.Ok? && r.value.Some? ==> |r.value.value.description| <= DescriptionCap
    ensures r.Ok? && r.value.Some? ==> r.value.value.name == OrEmpty(OptGet(item, "name"))
  {
    var t :- Get(item, "@type");
    if !IsProductType(t) then Ok(None)
    else
      var price :- ExtractJsonLdPrice(item);
      var currency :- ExtractJsonLdCurrency(item);
      var description :- Substring(OrEmpty(OptGet(item, "description")), DescriptionCap, "(item.description || \"\")");
      var availability :- SimplifyAvailabilityValue(OrEmpty(OptGet(OptGet(item, "offers"), "availability")));
      var brand := OptGet(item, "brand");
      Ok(Some(Product(
        name := OrEmpty(OptGet(item, "name")),
        price := price,
        currency := currency,
        description := description,
        image := ItemImage(OptGet(item, "image")),
        rating := OrEmpty(OptGet(OptGet(item, "aggregateRating"), "ratingValue")),
        reviewCount := OrEmpty(OptGet(OptGet(item, "aggregateRating"), "reviewCount")),
        availability := availability,
        brand := OrEmpty(Or(OptGet(brand, "name"), brand)),
        sku := OrEmpty(OptGet(item, "sku")))))
  }

  /** The items of a parsed block: the `@graph` value when truthy (one level only),
      an array's elements, or the value alone. `null` has no `@graph` and throws. */
  function BlockItems(data: Json): (r: Result<seq<Json>>)
    ensures r.Throw? <==> Nullish(data)
    ensures r.Ok? && !Truthy(OptGet(data, "@graph")) && !data.Arr? ==> r.value == [data]
    ensures r.Ok? && OptGet(data, "@graph").Arr? ==> r.value == OptGet(data, "@graph").elems
    ensures r.Ok? && !Truthy(OptGet(data, "@graph")) && data.Arr? ==> r.value == data.elems
    ensures r.Ok? && Truthy(OptGet(data, "@graph")) && !OptGet(data, "@graph").Arr? ==> r.value == [OptGet(data, "@graph")]
  {
    var graph :- Get(data, "@graph");
    var d := if Truthy(graph) then graph else data;
    Ok(if d.Arr? then d.elems else [d])
  }

  /** The products pushed while walking a block's items: an item that throws ends
      the block, and what was pushed before it stays. */
  function ItemsProducts(items: seq<Json>): (r: seq<Product>)
    ensures |r| <= |items|
    ensures forall q :: q in r ==> |q.description| <= DescriptionCap
  {
    if items == [] then []
    else match ItemProduct(items[0])
      case Throw(_) => []
      case Ok(None) => ItemsProducts(items[1..])
      case Ok(Some(q)) => [q] + ItemsProducts(items[1..])
  }

  /** The same walk for any per-item reader `f` that may throw. */
  function Walk<A, B>(xs: seq<A>, f: A -> Result<Option<B>>): seq<B>
    decreases |xs|
  {
    if xs == [] then []
    else match f(xs[0])
      case Throw(_) => []
      case Ok(None) => Walk(xs[1..], f)
      case Ok(Some(q)) => [q] + Walk(xs[1..], f)
  }

  /** What one read gives when it does not throw. */
  function Present<A, B>(f: A -> Result<Option<B>>): A -> Option<B> {
    x => if f(x).Ok? then f(x).value else None
  }

  /** While no read throws, the walk keeps every value read, in order. */
  lemma {:induction false} WalkUpTo<A, B>(xs: seq<A>, f: A -> Result<Option<B>>, k: nat)
    requires k <= |xs|
    requires forall j :: 0 <= j < k ==> f(xs[j]).Ok?
    decreases k
    ensures Walk(xs, f) == Kept(xs[..k], Present(f)) + Walk(xs[k..], f)
  {
    if k == 0 {
      assert xs[..0] == [] && xs[0..] == xs;
    } else {
      WalkUpTo(xs, f, k - 1);
      var rest := xs[k - 1..];
      assert rest[0] == xs[k - 1] && rest[1..] == xs[k..];
      KeptSnoc(xs, k - 1, Present(f));
    }
  }

  /** `ItemsProducts` is the walk with `ItemProduct` as the reader. */
  lemma {:induction false} ItemsProductsIsWalk(items: seq<Json>)
    decreases |items|
    ensures ItemsProducts(items) == Walk(items, ItemProduct)
  {
    if items != [] {
      ItemsProductsIsWalk(items[1..]);
    }
  }

  /** A block whose items all read without throwing yields the record of
      every product item, in item order; an item that throws stops the walk
      and keeps exactly the records before it. */
  lemma ItemsProductsMeaning(items: seq<Json>, k: nat)
    requires k <= |items|
    requires forall j :: 0 <= j < k ==> ItemProduct(items[j]).Ok?
    ensures k == |items| ==> ItemsProducts(items) == Kept(items, Present(ItemProduct))
    ensures k < |items| && ItemProduct(items[k]).Throw? ==>
              ItemsProducts(items) == Kept(items[..k], Present(ItemProduct))
  {
    ItemsProductsIsWalk(items);
    WalkUpTo(items, ItemProduct, k);
    if k == |items| {
      assert items[..k] == items && items[k..] == [];
    } else {
      assert items[k..][0] == items[k];
    }
  }

  /** What one `<script type="application/ld+json">` contributes. */
  function ScriptProducts(script: JsonLdScript): (r: seq<Product>)
    ensures script.parsed.None? ==> r == []
    ensures forall q :: q in r ==> |q.description| <= DescriptionCap
  {
    match script.parsed
    case None => []
    case Some(data) =>
      match BlockItems(data)
      case Throw(_) => []
      case Ok(items) => ItemsProducts(items)
  }

  /** Strategy 1: the products of every block, block after block. */
  function JsonLdProducts(scripts: seq<JsonLdScript>): (r: seq<Product>)
    ensures forall q :: q in r ==> |q.description| <= DescriptionCap
  {
    if scripts == [] then [] else ScriptProducts(scripts[0]) + JsonLdProducts(scripts[1..])
  }

  // ---------------------------------------------------------------------------
  // Strategy 2: microdata

  function ItempropSelector(prop: string): string {
    "[itemprop=\"" + prop + "\"]"
  }

  /** `getMicrodataProp`: the trimmed text of the `itemprop` element, `""` without one. */
  function MicrodataProp(item: Scope, prop: string): string {
    match Find(item, ItempropSelector(prop))
    case None => ""
    case Some(node) => Trim(node.text)
  }

  /** `getMicrodataContent`: the trimmed `content` attribute when non-empty, the
      trimmed text otherwise. */
  function MicrodataContent(item: Scope, prop: string): string {
    match Find(item, ItempropSelector(prop))
    case None => ""
    case Some(node) => Trim(if node.content != "" then node.content else node.text)
  }

  /** The two readers differ only in the `content` attribute: a non-empty one
      wins in `MicrodataContent`, which otherwise reads the text as
      `MicrodataProp` always does. */
  lemma MicrodataContentPrefersAttribute(item: Scope, prop: string)
    requires Find(item, ItempropSelector(prop)).Some?
    ensures var node := Find(item, ItempropSelector(prop)).value;
            MicrodataProp(item, prop) == Trim(node.text) &&
            (node.content != "" ==> MicrodataContent(item, prop) == Trim(node.content)) &&
            (node.content == "" ==> MicrodataContent(item, prop) == MicrodataProp(item, prop))
  {
  }

  /** The record built from one `[itemtype*="schema.org/Product"]` element. */
  function MicrodataProduct(item: Scope): (r: Product)
    ensures |r.description| <= DescriptionCap
  {
    var price := MicrodataProp(item, "price");
    Product(
      name := Str(MicrodataProp(item, "name")),
      price := Str(if price != "" then price else MicrodataContent(item, "price")),
      currency := Str(MicrodataContent(item, "priceCurrency")),
      description := Take(MicrodataProp(item, "description"), DescriptionCap),
      image := Str(match Find(item, ItempropSelector("image")) case Some(node) => node.src case None => ""),
      rating := Str(MicrodataContent(item, "ratingValue")),
      reviewCount := Str(MicrodataContent(item, "reviewCount")),
      availability := Str(SimplifyAvailability(MicrodataContent(item, "availability"))),
      brand := Str(MicrodataProp(item, "brand")),
      sku := Str(MicrodataProp(item, "sku")))
  }

  /** Strategy 2: one record per microdata product element, in document order. */
  function MicrodataProducts(items: seq<Scope>): (r: seq<Product>)
    ensures |r| == |items|
    ensures forall i :: 0 <= i < |items| ==> r[i] == MicrodataProduct(items[i])
  {
    Map(items, MicrodataProduct)
  }

  // ---------------------------------------------------------------------------
  // Strategy 3: heuristics

  const NameSelectors: seq<string> := [
    "#productTitle", "[data-testid='product-title']",
    "h1[class*='product']", "h1[class*='title']",
    "[class*='product-title']", "[class*='product-name']",
    "[class*='product_title']", "h1"]

  const PriceSelectors: seq<string> := [
    "[class*='price-current']", "#priceblock_ourprice", "#priceblock_dealprice",
    "[data-testid='product-price']", "[class*='sale-price']", "[class*='actual-price']",
    "[class*='offer-price']", "[class*='product-price']", "[class*='Price']",
    "[itemprop='price']", "[data-price]", ".price"]

  const DescriptionSelectors: seq<string> := [
    "#productDescription", "[class*='product-description']",
    "[class*='product_description']", "[class*='description']"]

  const ImageSelector: string :=
    "#landingImage, #imgBlkFront, [class*='product-image'] img, [class*='gallery'] img, [data-testid='product-image'] img"

  const RatingSelectors: seq<string> := [
    "[class*='rating'] [class*='value']", "[class*='star-rating']",
    "[data-testid='rating']", "[class*='review-rating']"]

  const AvailabilitySelectors: seq<string> := [
    "#availability", "[class*='availability']", "[class*='stock']",
    "[data-testid='availability']"]

  /** What one probe of `queryFirstText` yields: the trimmed text of the matched
      element, `""` when the selector matches nothing or does not parse. */
  function ProbeText(scope: Scope, sel: string): string {
    if sel in scope && scope[sel].Found? then Trim(scope[sel].el.text) else ""
  }

  /** `queryFirstText` as a value: the first non-empty probe, in list order. */
  function FirstText(scope: Scope, sels: seq<string>): string {
    FirstNonEmpty(sels, sel => ProbeText(scope, sel))
  }

  /** The text `queryFirstText` returns is that of the first selector in list
      order whose probe is not empty, and `""` only when every probe is. */
  lemma FirstTextFirst(scope: Scope, sels: seq<string>)
    ensures var r := FirstText(scope, sels);
      (r != "" ==> exists i :: 0 <= i < |sels| && ProbeText(scope, sels[i]) == r &&
                               forall j :: 0 <= j < i ==> ProbeText(scope, sels[j]) == "") &&
      (r == "" <==> forall i :: 0 <= i < |sels| ==> ProbeText(scope, sels[i]) == "")
  {
    FirstNonEmptyFirst(sels, sel => ProbeText(scope, sel));
  }

  /** `queryFirstText(selectors)` */
  method QueryFirstText(scope: Scope, sels: seq<string>) returns (text: string)
    ensures text == FirstText(scope, sels)
  {
    var i := 0;
    while i < |sels|
      invariant 0 <= i <= |sels|
      invariant FirstText(scope, sels[i..]) == FirstText(scope, sels)
    {
      var sel := sels[i];
      assert sels[i..][1..] == sels[i + 1..];
      if sel in scope && scope[sel].Found? {
        var t := Trim(scope[sel].el.text);
        if t != "" {
          return t;
        }
      }
      i := i + 1;
    }
    return "";
  }

  /** The single record of the heuristic strategy. The name falls back to the
      document title. */
  function HeuristicProduct(page: Snapshot): (r: Product)
    ensures |r.description| <= DescriptionCap
    ensures FirstText(page.doc, NameSelectors) == "" ==> r.name == Str(page.title)
    ensures FirstText(page.doc, NameSelectors) != "" ==> r.name == Str(FirstText(page.doc, NameSelectors))
  {
    var name := FirstText(page.doc, NameSelectors);
    Product(
      name := Str(if name != "" then name else page.title),
      price := Str(FirstText(page.doc, PriceSelectors)),
      currency := Str(""),
      description := Take(FirstText(page.doc, DescriptionSelectors), DescriptionCap),
      image := Str(match Find(page.doc, ImageSelector) case Some(el) => el.src case None => ""),
      rating := Str(FirstText(page.doc, RatingSelectors)),
      reviewCount := Str(""),
      availability := Str(FirstText(page.doc, AvailabilitySelectors)),
      brand := Str(""),
      sku := Str(""))
  }

  // ---------------------------------------------------------------------------
  // The cascade

  /** The products `scrapeEcommerce` returns. */
  function EcommerceProducts(page: Snapshot): (r: seq<Product>)
    ensures |r| > 0
    ensures forall q :: q in r ==> |q.description| <= DescriptionCap
  {
    var fromJsonLd := JsonLdProducts(page.jsonLd);
    if |fromJsonLd| > 0 then fromJsonLd
    else if |page.productItems| > 0 then MicrodataProducts(page.productItems)
    else [HeuristicProduct(page)]
  }

  /** The inner loop of strategy 1 over one block's items; the `break` stands for
      the exception that abandons the rest of the block. */
  method CollectItemsProducts(items: seq<Json>) returns (products: seq<Product>)
    ensures products == ItemsProducts(items)
  {
    products := [];
    var k := 0;
    while k < |items|
      invariant 0 <= k <= |items|
      invariant products + ItemsProducts(items[k..]) == ItemsProducts(items)
    {
      assert items[k..][1..] == items[k + 1..];
      var item := ItemProduct(items[k]);
      if item.Throw? {
        break;
      }
      if item.value.Some? {
        products := products + [item.value.value];
      }
      k := k + 1;
    }
  }

  /** The body of strategy 1's `try` for one JSON-LD block. */
  method CollectScriptProducts(script: JsonLdScript) returns (found: seq<Product>)
    ensures found == ScriptProducts(script)
  {
    found := [];
    if script.parsed.Some? {
      var items := BlockItems(script.parsed.value);
      if items.Ok? {
        found := CollectItemsProducts(items.value);
      }
    }
  }

  /** Strategy 1 as `scrapeEcommerce` runs it: every JSON-LD block in turn, each
      inside its own `try`, so a block that throws is abandoned from that point
      and the others are unaffected. */
  method CollectJsonLdProducts(scripts: seq<JsonLdScript>) returns (products: seq<Product>)
    ensures products == JsonLdProducts(scripts)
  {
    products := [];
    var s := 0;
    while s < |scripts|
      invariant 0 <= s <= |scripts|
      invariant products == JsonLdProducts(scripts[..s])
    {
      var found := CollectScriptProducts(scripts[s]);
      JsonLdProductsSnoc(scripts, s);
      products := products + found;
      s := s + 1;
    }
    assert scripts[..s] == scripts;
  }

  /** One more block: its products follow those of the blocks before it. */
  lemma JsonLdProductsSnoc(scripts: seq<JsonLdScript>, s: nat)
    requires s < |scripts|
    ensures JsonLdProducts(scripts[..s + 1]) == JsonLdProducts(scripts[..s]) + ScriptProducts(scripts[s])
  {
    JsonLdProductsAppend(scripts[..s], [scripts[s]]);
    assert scripts[..s + 1] == scripts[..s] + [scripts[s]];
    assert [scripts[s]][1..] == [];
  }

  /** One more product element: its product follows the others. */
  lemma MicrodataSnoc(items: seq<Scope>, i: nat, acc: seq<Product>, product: Product)
    requires i < |items| && acc == MicrodataProducts(items[..i]) && product == MicrodataProduct(items[i])
    ensures MicrodataProducts(items[..i + 1]) == acc + [product]
  {
    MapSnoc(items, i, MicrodataProduct, acc, product);
  }

  /** Strategy 2 as `scrapeEcommerce` runs it: one push per product element. */
  method CollectMicrodataProducts(items: seq<Scope>) returns (products: seq<Product>)
    ensures products == MicrodataProducts(items)
  {
    products := [];
    var i := 0;
    while i < |items|
      invariant 0 <= i <= |items|
      invariant products == MicrodataProducts(items[..i])
    {
      var product := MicrodataProduct(items[i]);
      MicrodataSnoc(items, i, products, product);
      products := products + [product];
      i := i + 1;
    }
    assert items[..i] == items;
  }

  /** `scrapeEcommerce`: the three strategies in order, each later one run only
      while `products` is still empty. */
  method ScrapeEcommerce(page: Snapshot) returns (products: seq<Product>)
    ensures products == EcommerceProducts(page)
  {
    products := CollectJsonLdProducts(page.jsonLd);

    if |products| == 0 {
      products := CollectMicrodataProducts(page.productItems);
    }

    if |products| == 0 {
      var name := QueryFirstText(page.doc, NameSelectors);
      if name == "" {
        name := page.title;
      }
      var price := QueryFirstText(page.doc, PriceSelectors);
      var description := QueryFirstText(page.doc, DescriptionSelectors);
      var image := match Find(page.doc, ImageSelector) case Some(el) => el.src case None => "";
      var rating := QueryFirstText(page.doc, RatingSelectors);
      var availability := QueryFirstText(page.doc, AvailabilitySelectors);
      products := [Product(
        name := Str(name), price := Str(price), currency := Str(""),
        description := Take(description, DescriptionCap), image := Str(image),
        rating := Str(rating), reviewCount := Str(""), availability := Str(availability),
        brand := Str(""), sku := Str(""))];
    }
  }

  // ---------------------------------------------------------------------------
  // Properties

  /** Blocks contribute independently: the products of two runs of blocks are
      the products of each, one after the other. */
  lemma {:induction false} JsonLdProductsAppend(a: seq<JsonLdScript>, b: seq<JsonLdScript>)
    ensures JsonLdProducts(a + b) == JsonLdProducts(a) + JsonLdProducts(b)
  {
    if a == [] {
      assert a + b == b;
    } else {
      assert (a + b)[0] == a[0] && (a + b)[1..] == a[1..] + b;
      JsonLdProductsAppend(a[1..], b);
      assert JsonLdProducts(a + b) == ScriptProducts(a[0]) + JsonLdProducts(a[1..] + b);
    }
  }

  /** A block that does not parse changes nothing about the products of the others. */
  lemma MalformedBlockSkipped(a: seq<JsonLdScript>, bad: JsonLdScript, b: seq<JsonLdScript>)
    requires bad.parsed.None?
    ensures JsonLdProducts(a + [bad] + b) == JsonLdProducts(a + b)
  {
    var l := a + [bad];
    JsonLdProductsAppend(l, b);
    JsonLdProductsAppend(a, [bad]);
    JsonLdProductsAppend(a, b);
    assert [bad][1..] == [];
    assert JsonLdProducts([bad]) == [];
    assert JsonLdProducts(l) == JsonLdProducts(a);
  }

  /** A block holding one product item whose fields do not throw yields a product
      with that item's name, and the JSON-LD strategy then decides the result. */
  lemma ProductBlockYieldsItsName(page: Snapshot, k: nat, item: Json)
    requires k < |page.jsonLd|
    requires page.jsonLd[k].parsed == Some(item)
    requires item.Obj? && !Truthy(OptGet(item, "@graph"))
    requires ItemProduct(item).Ok? && ItemProduct(item).value.Some?
    ensures EcommerceProducts(page) == JsonLdProducts(page.jsonLd)
    ensures exists q :: q in EcommerceProducts(page) && q.name == OrEmpty(OptGet(item, "name"))
  {
    var q := ItemProduct(item).value.value;
    SingleItemScript(page.jsonLd[k], item);
    ScriptProductsKept(page.jsonLd, k);
    assert q in JsonLdProducts(page.jsonLd);
  }

  /** A script holding one product item yields exactly that item's product. */
  lemma SingleItemScript(script: JsonLdScript, item: Json)
    requires script.parsed == Some(item)
    requires item.Obj? && !Truthy(OptGet(item, "@graph"))
    requires ItemProduct(item).Ok? && ItemProduct(item).value.Some?
    ensures ScriptProducts(script) == [ItemProduct(item).value.value]
  {
    var q := ItemProduct(item).value.value;
    assert BlockItems(item) == Ok([item]);
    assert ItemsProducts([item]) == [q] + ItemsProducts([]);
  }

  /** Every product of one script is among the products of the page's scripts. */
  lemma ScriptProductsKept(scripts: seq<JsonLdScript>, k: nat)
    requires k < |scripts|
    ensures forall q :: q in ScriptProducts(scripts[k]) ==> q in JsonLdProducts(scripts)
  {
    assert scripts == scripts[..k] + [scripts[k]] + scripts[k + 1..];
    JsonLdProductsAppend(scripts[..k] + [scripts[k]], scripts[k + 1..]);
    JsonLdProductsAppend(scripts[..k], [scripts[k]]);
    assert JsonLdProducts([scripts[k]]) == ScriptProducts(scripts[k]) + JsonLdProducts([]);
  }

  /** The availability labels are fixed points: normalising twice is normalising once. */
  lemma SimplifyAvailabilityIdempotent(val: string)
    ensures SimplifyAvailability(SimplifyAvailability(val)) == SimplifyAvailability(val)
  {
    var r := SimplifyAvailability(val);
    if r != val {
      NotContainsLabels();
    }
  }

  lemma NotContainsLabels()
    ensures !Contains("In Stock", "InStock") && !Contains("In Stock", "OutOfStock")
    ensures !Contains("In Stock", "PreOrder") && !Contains("In Stock", "LimitedAvailability")
    ensures !Contains("Out of Stock", "InStock") && !Contains("Out of Stock", "OutOfStock")
    ensures !Contains("Out of Stock", "PreOrder") && !Contains("Out of Stock", "LimitedAvailability")
    ensures !Contains("Pre-Order", "InStock") && !Contains("Pre-Order", "OutOfStock")
    ensures !Contains("Pre-Order", "PreOrder") && !Contains("Pre-Order", "LimitedAvailability")
    ensures !Contains("Limited", "InStock") && !Contains("Limited", "OutOfStock")
    ensures !Contains("Limited", "PreOrder") && !Contains("Limited", "LimitedAvailability")
  {
    InStockLabelClean();
    OutOfStockLabelClean();
    PreOrderLabelClean();
    NotContainsWhenCharAbsent("Limited", "InStock", 0);
  }

  lemma InStockLabelClean()
    ensures !Contains("In Stock", "InStock") && !Contains("In Stock", "OutOfStock")
    ensures !Contains("In Stock", "PreOrder")
  {
    NotOccursAtWhenDiffers("In Stock", "InStock", 0, 2);
    NotOccursAtWhenDiffers("In Stock", "InStock", 1, 0);
    NotContainsWhenCharAbsent("In Stock", "PreOrder", 0);
  }

  lemma OutOfStockLabelClean()
    ensures !Contains("Out of Stock", "InStock") && !Contains("Out of Stock", "OutOfStock")
    ensures !Contains("Out of Stock", "PreOrder")
  {
    NotContainsWhenCharAbsent("Out of Stock", "InStock", 0);
    NotOccursAtWhenDiffers("Out of Stock", "OutOfStock", 0, 3);
    NotOccursAtWhenDiffers("Out of Stock", "OutOfStock", 1, 0);
    NotOccursAtWhenDiffers("Out of Stock", "OutOfStock", 2, 0);
    NotContainsWhenCharAbsent("Out of Stock", "PreOrder", 0);
  }

  lemma PreOrderLabelClean()
    ensures !Contains("Pre-Order", "InStock") && !Contains("Pre-Order", "PreOrder")
  {
    NotContainsWhenCharAbsent("Pre-Order", "InStock", 0);
    NotOccursAtWhenDiffers("Pre-Order", "PreOrder", 0, 3);
    NotOccursAtWhenDiffers("Pre-Order", "PreOrder", 1, 0);
  }

  lemma InStockExample()
    ensures SimplifyAvailability("https://schema.org/InStock") == "In Stock"
  {
    ContainsAt("https://schema.org/InStock", "InStock", 19);
  }

  lemma OutOfStockExample()
    ensures SimplifyAvailability("OutOfStock") == "Out of Stock"
  {
    ContainsAt("OutOfStock", "OutOfStock", 0);
    NotContainsWhenCharAbsent("OutOfStock", "InStock", 0);
  }

  lemma PreOrderExample()
    ensures SimplifyAvailability("http://schema.org/PreOrder") == "Pre-Order"
  {
    ContainsAt("http://schema.org/PreOrder", "PreOrder", 18);
    NotContainsWhenCharAbsent("http://schema.org/PreOrder", "InStock", 0);
    NotContainsWhenCharAbsent("http://schema.org/PreOrder", "OutOfStock", 1);
  }
}
