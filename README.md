# Smart Scraper — a verified model of its extraction core

Smart Scraper is a browser extension. When the user opens its popup on a tab, the popup injects a content script into the page. The script classifies the page as a store (`"ecommerce"`), a LinkedIn page (`"linkedin"`) or anything else (`"general"`). On request it runs the matching extractor and sends back an envelope with the extracted data. The popup keeps that response and exports it, flattened into rows, as CSV or as a spreadsheet with sized columns. A separate utility looks up a LinkedIn contact's email with one of three providers (Hunter.io, Apollo.io, Snov.io).

This project models that core in Dafny and proves properties of the model:

- `Content`: the site classifier, the message listener and the duplicate-injection guard.
- `Ecommerce`: the three-strategy product extractor (JSON-LD, microdata, heuristics).
- `LinkedIn`: the profile, search, company and markup extractors, including what the profile code reads out of the Voyager API responses.
- `General`: the fallback extractor (metadata, text, links, images, tables, headings).
- `Csv`: `generateCSVString`, and a CSV reader against which the round trip is proved.
- `Popup`: the restricted-tab test, row flattening, the CSV file, column widths and the kept response.
- `Enrichment`: provider dispatch, the name split and the domain and credential logic, up to the request each provider sends.

Shared modules:

- `JsValues`: JavaScript values as parsed JSON, truthiness, `||`, property reads that throw on `null`/`undefined`, `String(v)`, and loops whose body may throw.
- `Strings`: `trim`, whitespace collapsing, `substring`, `includes`, `split`, ASCII lower-casing.
- `Page`: a snapshot of the DOM the extractors read; a selector query is a lookup in a map.
- `Seqs`: filter-map over a sequence.
- `Common`: `Option`.

A thrown JavaScript exception is the `Throw` case of `Result`. Every loop of the source is a `method` with a `while`/`for` loop. Each such method is proved equal to a recursive function, and the properties are lemmas about that function. The `window` flag and the popup's `scrapedData` variable are fields of classes (`ContentWindow`, `PopupState`) that the methods update.

## Model

| member | source | states |
|---|---|---|
| Content.SiteType | content/content.js:57-120 | the classifier answers one of the three site names |
| Content.DetectSiteType | content/content.js:57-120 | the classifier with its JSON-LD loop and early returns computes the value `DetectedSiteType` defines signal by signal |
| Content.LinkedInHostWins | content/content.js:62 | a hostname containing `linkedin.com` gives `"linkedin"` whatever else the page shows |
| Content.LinkedInOnlyByHost | content/content.js:62 | `"linkedin"` is answered if and only if the hostname contains `linkedin.com` |
| Content.KnownStoreIsEcommerce | content/content.js:58-72 | a lower-cased hostname containing any of the 27 store fragments, and not LinkedIn's, gives `"ecommerce"` |
| Content.JsonLdProductIsEcommerce | content/content.js:75-83 | any JSON-LD script whose text contains `"Product"`, at any position in the list, makes a non-LinkedIn page `"ecommerce"` |
| Content.ProductMarkerSuffices | content/content.js:79 | the three-way text test holds exactly when the text contains `"Product"` (the two `@type` spellings add nothing) |
| Content.StorefrontIsEcommerce | content/content.js:109-115 | a Shopify or WooCommerce fingerprint alone gives `"ecommerce"` on a non-LinkedIn page |
| Content.GeneralOnlyWithoutSignals | content/content.js:62-119 | `"general"` is answered if and only if no host, JSON-LD, microdata, Open Graph, storefront, price-and-cart or price-currency-product signal fires |
| Content.CurrencyExamples | content/content.js:106 | the currency test accepts a symbol followed by a digit, with at most one space, and rejects two spaces or a digit before the symbol |
| Content.ScrapeEnvelope | content/content.js:14-48 | the envelope names the requested site type (`message.siteType` when truthy, else the detected one), copies the URL and title, and holds data exactly when it holds no error; a scraper that succeeds gives its result as the data and no error, one that throws gives no data and its message as the error |
| Content.ThrowingScraperReported | content/content.js:40-48 | a scraper that throws yields an envelope with the same site type, `null` data and the exception's message |
| Content.OnlyLinkedInThrows | content/content.js:21-31 | only the `"linkedin"` branch of the switch can throw |
| Content.RunScraper | content/content.js:20-31 | the reference definition of the `switch`: `"ecommerce"` runs the store extractor, `"linkedin"` the LinkedIn one (whose exception is the outcome), anything else the general one; `OnlyLinkedInThrows` and `OtherNamesScrapeGeneral` state what follows |
| Content.Respond | content/content.js:7-54 | the reference definition of the listener's reply: the site type for a detect request, the scrape envelope for a scrape request, nothing for any other message; `HandleMessage` is proved against it |
| Content.OtherNamesScrapeGeneral | content/content.js:21-31 | the switch compares strictly: `"Ecommerce"`, `"LinkedIn"` or a number run the general scraper |
| Content.UnnamedRequestDetects | content/content.js:15 | a request without a site type scrapes what the classifier detects |
| Content.EmptyNameDetects | content/content.js:15 | a request whose site type is `""` scrapes what the classifier detects |
| Content.HandleMessage | content/content.js:7-54 | the listener answers a detect request with the site type, a scrape request with the envelope, and anything else with nothing |
| Content.ContentWindow.constructor | content/content.js:2 | a fresh window has no injection flag and no listener |
| Content.ContentWindow.Inject | content/content.js:2-7 | running the script sets the flag and adds a listener only when the flag was not set before |
| Content.InjectRepeatedly | content/content.js:1-7 | however many times the script is injected (at least once), exactly one listener is registered |
| Ecommerce.SimplifyAvailability | content/detectors/ecommerce.js:118-125 | empty text stays empty; otherwise the first of `InStock`, `OutOfStock`, `PreOrder`, `LimitedAvailability` found gives its label, and text with none of them is kept as it is |
| Ecommerce.SimplifyAvailabilityValue | content/detectors/ecommerce.js:24 | a falsy availability gives `""`; a string is simplified; an array is searched for the exact names; any other truthy value has no `includes` and throws |
| Ecommerce.ExtractJsonLdPrice | content/detectors/ecommerce.js:96-100 | `""` without offers; otherwise the first offer's `price`, else its `lowPrice`, else `""`; a missing first offer (an empty `offers` array) throws |
| Ecommerce.ExtractJsonLdCurrency | content/detectors/ecommerce.js:102-106 | `""` without offers; otherwise the first offer's `priceCurrency`, else `""`; a missing first offer throws |
| Ecommerce.ItemProduct | content/detectors/ecommerce.js:12-28 | a `null` item throws; a non-product item adds nothing; a product's name is `item.name \|\| ""` and its description at most 500 characters |
| Ecommerce.BlockItems | content/detectors/ecommerce.js:10-11 | a `null` block throws; a truthy `@graph` replaces the block, its elements when it is an array and else itself as the single item; without a truthy `@graph` an array block gives its elements and any other block is its own single item |
| Ecommerce.ItemsProducts | content/detectors/ecommerce.js:12-29 | at most one product per item, each description at most 500 characters |
| Ecommerce.WalkUpTo | content/detectors/ecommerce.js:12-29 | while no item throws, the item walk keeps every record read, in item order, and goes on with the rest |
| Ecommerce.ItemsProductsIsWalk | content/detectors/ecommerce.js:12-29 | the product walk is that walk with the item reader |
| Ecommerce.ItemsProductsMeaning | content/detectors/ecommerce.js:7-30 | a block whose items all read yields the record of every product item, in order; an item that throws ends the block, keeping exactly the records before it |
| Ecommerce.ScriptProducts | content/detectors/ecommerce.js:7-30 | a script that does not parse contributes no product |
| Ecommerce.JsonLdProducts | content/detectors/ecommerce.js:5-31 | every JSON-LD product has a description of at most 500 characters |
| Ecommerce.MicrodataProp | content/detectors/ecommerce.js:108-111 | the reference definition of `getMicrodataProp`: the trimmed text of the `itemprop` element, `""` without one; `MicrodataContentPrefersAttribute` compares it with `MicrodataContent` |
| Ecommerce.MicrodataContent | content/detectors/ecommerce.js:113-116 | the reference definition of `getMicrodataContent`: the trimmed `content` attribute when non-empty, else the element's trimmed text, `""` without an element |
| Ecommerce.MicrodataContentPrefersAttribute | content/detectors/ecommerce.js:108-116 | for an element that exists, a non-empty `content` attribute wins in `getMicrodataContent`, which otherwise reads the same trimmed text as `getMicrodataProp` |
| Ecommerce.MicrodataProduct | content/detectors/ecommerce.js:37-48 | the microdata record's description is at most 500 characters |
| Ecommerce.MicrodataProducts | content/detectors/ecommerce.js:35-49 | exactly one record per product element, in document order |
| Ecommerce.FirstTextFirst | content/detectors/ecommerce.js:127-138 | the result is the first non-empty probe in selector order, and `""` exactly when every probe is empty |
| Ecommerce.QueryFirstText | content/detectors/ecommerce.js:127-138 | the loop with its early return computes `FirstText` |
| Ecommerce.HeuristicProduct | content/detectors/ecommerce.js:52-91 | the heuristic name is the first non-empty name probe, else the page title; the description is at most 500 characters |
| Ecommerce.EcommerceProducts | content/detectors/ecommerce.js:1-94 | the cascade always returns at least one product, each with a description of at most 500 characters |
| Ecommerce.CollectItemsProducts | content/detectors/ecommerce.js:12-29 | the item loop, stopped by the first exception, computes `ItemsProducts` |
| Ecommerce.CollectScriptProducts | content/detectors/ecommerce.js:7-30 | the `try`/`catch` body for one script computes `ScriptProducts` |
| Ecommerce.CollectJsonLdProducts | content/detectors/ecommerce.js:5-31 | the script loop computes `JsonLdProducts` |
| Ecommerce.CollectMicrodataProducts | content/detectors/ecommerce.js:34-50 | the element loop computes `MicrodataProducts` |
| Ecommerce.ScrapeEcommerce | content/detectors/ecommerce.js:1-94 | `scrapeEcommerce` computes `EcommerceProducts`: later strategies run only when earlier ones found nothing |
| Ecommerce.JsonLdProductsAppend | content/detectors/ecommerce.js:6-31 | scripts contribute independently: the products of two runs of scripts are the concatenation of each run's products |
| Ecommerce.MalformedBlockSkipped | content/detectors/ecommerce.js:30 | a script that does not parse changes nothing about the products of the other scripts |
| Ecommerce.ProductBlockYieldsItsName | content/detectors/ecommerce.js:4-34 | a single product item whose fields do not throw makes the JSON-LD strategy decide, and a product with that item's name is returned |
| Ecommerce.SimplifyAvailabilityIdempotent | content/detectors/ecommerce.js:118-125 | simplifying a simplified availability changes nothing |
| Ecommerce.InStockExample | content/detectors/ecommerce.js:120 | a schema.org `InStock` URL simplifies to `"In Stock"` |
| Ecommerce.OutOfStockExample | content/detectors/ecommerce.js:121 | `"OutOfStock"` simplifies to `"Out of Stock"` |
| Ecommerce.PreOrderExample | content/detectors/ecommerce.js:122 | a schema.org `PreOrder` URL simplifies to `"Pre-Order"` |
| LinkedIn.BlankContact | content/detectors/linkedin.js:65-81 | the starting contact has every list field empty |
| LinkedIn.DomText | content/detectors/linkedin.js:364-371 | `""` when the selector matches nothing |
| LinkedIn.SearchTextFirst | content/detectors/linkedin.js:373-385 | the search text is the first non-empty probe in selector order, and `""` exactly when every probe is empty |
| LinkedIn.GetSearchText | content/detectors/linkedin.js:373-385 | the selector loop with its early return computes `SearchText` |
| LinkedIn.DomContact | content/detectors/linkedin.js:336-360 | the markup record has an empty company, about and connections, and no experience or skills |
| LinkedIn.CompanyContact | content/detectors/linkedin.js:312-332 | the company page gives one contact titled `"Company"`, named from the heading, with an about of at most 500 characters and a URL without a query |
| LinkedIn.CardContact | content/detectors/linkedin.js:277-304 | a search card yields a contact if and only if its squished name has at least two characters |
| LinkedIn.ReadCard | content/detectors/linkedin.js:278-304 | the body of the card loop computes `CardContact` |
| LinkedIn.CollectSearchContacts | content/detectors/linkedin.js:267-308 | the card loop computes `SearchContacts` |
| LinkedIn.SearchContactsWellFormed | content/detectors/linkedin.js:282-286 | every search contact has a name of at least two characters and a profile URL without `?` |
| LinkedIn.ShortNameSkipped | content/detectors/linkedin.js:283 | a card whose name is shorter than two characters adds nothing |
| LinkedIn.NamedCardKept | content/detectors/linkedin.js:298-304 | any other card adds its contact at the end |
| LinkedIn.SearchContacts | content/detectors/linkedin.js:267-308 | the reference definition of the search scrape: one contact per card that `CardContact` keeps, in card order; `CollectSearchContacts`, `SearchContactsWellFormed`, `ShortNameSkipped` and `NamedCardKept` are about it |
| LinkedIn.TokenRun | content/detectors/linkedin.js:30 | `[^";]+` taken greedily: the longest prefix without `"` or `;` |
| LinkedIn.TokenFrom | content/detectors/linkedin.js:30 | a token found at or after a position holds no `"` and no `;` |
| LinkedIn.CsrfToken | content/detectors/linkedin.js:28-32 | the CSRF token holds no `"` and no `;` |
| LinkedIn.NoSessionNoToken | content/detectors/linkedin.js:30-31 | a cookie without `JSESSIONID=` gives `""` |
| LinkedIn.QuotedSessionToken | content/detectors/linkedin.js:30 | the token of `JSESSIONID="t"` is `t`, whatever follows |
| LinkedIn.TokenRunStops | content/detectors/linkedin.js:30 | the greedy run stops exactly at the first quote or semicolon |
| LinkedIn.FormatDate | content/detectors/linkedin.js:256-263 | `month/year` when both are truthy, the year alone without a month, `""` without a year or a date |
| LinkedIn.PositionOf | content/detectors/linkedin.js:166-173 | a position throws exactly when its description is truthy but not text; otherwise its description has at most 300 characters and its end date is the formatted end, else `"Present"` |
| LinkedIn.EducationOf | content/detectors/linkedin.js:182-188 | a school has a truthy name exactly when `schoolName` or `school` is truthy |
| LinkedIn.WithBasics | content/detectors/linkedin.js:143-150 | a non-profile entity changes nothing; a profile entity's summary has at most 1000 characters; positions and schools are untouched |
| LinkedIn.WithMini | content/detectors/linkedin.js:153-161 | a mini profile fills only an empty name or headline and changes nothing else |
| LinkedIn.Put | content/detectors/linkedin.js:207 | `obj[k] = v` on an insertion-ordered object keeps the first key first and every other entry |
| LinkedIn.CompanyNamesTruthy | content/detectors/linkedin.js:203-210 | every value in the company map is a truthy name |
| LinkedIn.Filled | content/detectors/linkedin.js:213-221 | the fill loop keeps the number of positions |
| LinkedIn.FirstPresent | content/detectors/linkedin.js:225 | `find` returns the first position ending `"Present"`, or none when no position does |
| LinkedIn.CurrentCompany | content/detectors/linkedin.js:224-227 | the reference definition of `(find(...) \|\| experience[0]).company` on a non-empty list; `ProfileCurrentCompany` states what it picks |
| LinkedIn.BuildCompanyMap | content/detectors/linkedin.js:202-210 | the company loop computes `CompanyMap` |
| LinkedIn.FillCompanies | content/detectors/linkedin.js:213-221 | the in-place fill loop computes `Filled` |
| LinkedIn.ReadBasics | content/detectors/linkedin.js:143-150 | the profile block computes `WithBasics` |
| LinkedIn.ReadMini | content/detectors/linkedin.js:153-161 | the mini-profile block computes `WithMini` |
| LinkedIn.ReadPosition | content/detectors/linkedin.js:164-177 | the position block computes `WithPosition` |
| LinkedIn.ReadEducation | content/detectors/linkedin.js:180-192 | the education block computes `WithEducation` |
| LinkedIn.ProfileEntity | content/detectors/linkedin.js:142-198 | one iteration of the entity loop computes `EntityStep` |
| LinkedIn.ExtractProfile | content/detectors/linkedin.js:124-230 | `extractProfile` computes `ProfileOf` |
| LinkedIn.ProfileOf | content/detectors/linkedin.js:124-230 | the reference definition of `extractProfile`: the entity loop, then the company fill, then the current company; `ExtractProfile` is proved against it and `ProfileWellFormed` and `ProfileCurrentCompany` state its properties |
| LinkedIn.BasicsKeepGood | content/detectors/linkedin.js:143-150 | the profile block keeps the loop invariant (summary at most 1000, every position titled or with a company, every school named) |
| LinkedIn.PositionKeepsGood | content/detectors/linkedin.js:174-176 | a position is pushed only with a title or a company, so the invariant holds |
| LinkedIn.EducationKeepsGood | content/detectors/linkedin.js:189-191 | a school is pushed only with a name, so the invariant holds |
| LinkedIn.EntityStepKeepsGood | content/detectors/linkedin.js:142-198 | one iteration of the entity loop keeps the invariant |
| LinkedIn.ScanKeepsGood | content/detectors/linkedin.js:141-199 | the whole entity loop keeps the invariant |
| LinkedIn.ProfileWellFormed | content/detectors/linkedin.js:124-230 | an extracted profile has a summary of at most 1000 characters, only positions with a title or company, and only named schools |
| LinkedIn.EntityStepKeepsCompany | content/detectors/linkedin.js:142-198 | no block of the entity loop writes the current company |
| LinkedIn.ScanKeepsNoCompany | content/detectors/linkedin.js:130-199 | after the entity loop the current company is still the initial `""` |
| LinkedIn.ProfileCurrentCompany | content/detectors/linkedin.js:130-227 | the current company is that of the first position ending `"Present"`, else that of the first position; with no positions it stays `""` |
| LinkedIn.FilledCompanies | content/detectors/linkedin.js:213-221 | a position with a company keeps it; one without takes the first company in the map; with an empty map nothing changes |
| LinkedIn.SkillsTruthy | content/detectors/linkedin.js:232-254 | every extracted skill is a truthy name |
| LinkedIn.ExtractSkills | content/detectors/linkedin.js:232-254 | `extractSkills` computes `SkillsOf`: element names first, entity names only when there were none |
| LinkedIn.SkillsOf | content/detectors/linkedin.js:232-254 | the reference definition of `extractSkills`; `ExtractSkills` is proved against it and `SkillsTruthy` states its property |
| LinkedIn.WebsiteOf | content/detectors/linkedin.js:102 | a website is its `url`, else its `name`, else `""` |
| LinkedIn.ApplyContactInfo | content/detectors/linkedin.js:97-106 | the contact-info block sets email, phone, twitter, websites and birthday and nothing else; the email is `emailAddress \|\| ""`; null info throws |
| LinkedIn.ContactInfoWebsites | content/detectors/linkedin.js:102 | there is one website per entry of `ci.websites`, each its URL, else its name, else `""` |
| LinkedIn.ContactInfoRejectsPhoneObject | content/detectors/linkedin.js:100 | a truthy `phoneNumbers` that is not an array makes the block throw |
| LinkedIn.SetField | content/detectors/linkedin.js:117 | `contact[key] = v` sets that scalar field and no other |
| LinkedIn.MergeKeysFields | content/detectors/linkedin.js:116-118 | after merging a list of keys, each listed scalar field keeps a truthy value or takes the markup's truthy one; the list fields are unchanged |
| LinkedIn.MergeDomField | content/detectors/linkedin.js:114-119 | after the markup fallback, each scalar field keeps a truthy API value or takes the markup's truthy one |
| LinkedIn.MergeDomLists | content/detectors/linkedin.js:114-119 | the markup fallback leaves the list fields as the API filled them |
| LinkedIn.MergeDomInto | content/detectors/linkedin.js:116-118 | the `forEach` over the markup keys computes `MergeDom` |
| LinkedIn.Fetched | content/detectors/linkedin.js:34-36 | without a CSRF token all three API answers are `null` |
| LinkedIn.ProfileStage | content/detectors/linkedin.js:84-94 | a falsy profile answer changes nothing; otherwise `extractProfile`'s exception is the block's, or its name, headline, location, summary, current company, positions, schools and connection count replace the contact's while every other field stays |
| LinkedIn.ContactInfoStage | content/detectors/linkedin.js:97-106 | the contact-info block runs exactly when the answer and its `data` are truthy, and then its outcome is `ApplyContactInfo`'s; name, profile URL and skills stay |
| LinkedIn.SkillsStage | content/detectors/linkedin.js:109-111 | a falsy skills answer changes nothing; otherwise `extractSkills`'s exception is the block's, or the skills become its list and nothing else changes |
| LinkedIn.ProfileContact | content/detectors/linkedin.js:57-122 | a profile contact's URL is `https://www.linkedin.com/in/` followed by the username; an exception of the API blocks ends the scrape; a contact the API named is returned as the API filled it; an unnamed one is merged with the markup record |
| LinkedIn.ApiContact | content/detectors/linkedin.js:65-111 | the contact filled from the API has that same profile URL; with three falsy answers it is the blank contact; a truthy profile answer that throws ends it with that exception; its name is the profile's (`""` without one) and its skills are `extractSkills`'s (none without a skills answer) |
| LinkedIn.Fallback | content/detectors/linkedin.js:114-119 | a named contact is left as it is; an unnamed one is merged with the markup record, each scalar field keeping a truthy value or taking the markup's truthy one; the list fields and a truthy profile URL stay |
| LinkedIn.NamedProfileIgnoresMarkup | content/detectors/linkedin.js:113-121 | when the API names the contact, the markup plays no part: pages with the same API answers give the same contact, the one the API filled |
| LinkedIn.NoTokenUsesMarkup | content/detectors/linkedin.js:34-36 | without a CSRF token the profile is the blank contact with its URL, filled from the markup |
| LinkedIn.ScrapeProfile | content/detectors/linkedin.js:57-122 | `scrapeLinkedInProfile` computes `ProfileContact` |
| LinkedIn.FetchContact | content/detectors/linkedin.js:65-111 | the API part of the profile scrape computes `ApiContact` |
| LinkedIn.UsernameSegment | content/detectors/linkedin.js:8 | the username is the text after `/in/` up to the first `/` or `?` |
| LinkedIn.Username | content/detectors/linkedin.js:8 | the reference definition of the username split on a `/in/` path; `UsernameSegment` states what it yields |
| LinkedIn.OneContactUnlessSearch | content/detectors/linkedin.js:3-24 | a profile, company or other page gives exactly one contact |
| LinkedIn.SearchPageContacts | content/detectors/linkedin.js:13-14 | a search page (not a profile) gives the search contacts, never more than there are cards |
| LinkedIn.ScrapeLinkedIn | content/detectors/linkedin.js:3-24 | `scrapeLinkedIn` computes `LinkedInContacts` |
| LinkedIn.LinkedInContacts | content/detectors/linkedin.js:3-24 | the reference definition of `scrapeLinkedIn`: profile, search, company or markup by path; `OneContactUnlessSearch` and `SearchPageContacts` state its properties |
| General.Cap | content/detectors/general.js:28 | the first `n` elements, all of them when there are fewer |
| General.FirstHttp | content/detectors/general.js:19-29 | the selection keeps no more elements than the input has |
| General.RowEntry | content/detectors/general.js:58-63 | a table row contributes if and only if it has a cell |
| General.HeadingEntry | content/detectors/general.js:73-77 | a heading contributes if and only if its squished text is non-empty |
| General.TableOf | content/detectors/general.js:51-68 | a kept table records its position among the page's tables |
| General.KeptTablesIndices | content/detectors/general.js:51-68 | kept tables have strictly increasing positions, each below the number of tables examined |
| General.MetaContent | content/detectors/general.js:5-9 | a missing meta tag gives `""` |
| General.PageMeta | content/detectors/general.js:3-11 | the metadata copies the document title and the page URL |
| General.PageText | content/detectors/general.js:14 | the text is the first 50000 characters of the body text, `""` without a body |
| General.CollectLinks | content/detectors/general.js:16-29 | the link loop with its seen-set and its break at 500 computes `Links` |
| General.CollectImages | content/detectors/general.js:31-46 | the image loop with its seen-set and its break at 200 computes `Images` |
| General.CollectRows | content/detectors/general.js:56-64 | the row loop keeps the rows with cells, at most 100 |
| General.CollectTables | content/detectors/general.js:48-69 | the table loop over the first 20 tables computes `Tables` |
| General.CollectHeadings | content/detectors/general.js:71-79 | the heading loop computes `Headings` |
| General.Links | content/detectors/general.js:16-29 | the reference definition of the link list: the first anchor per distinct http URL, in page order, capped at 500; `LinksWellFormed` and `LinksComplete` state its properties |
| General.Images | content/detectors/general.js:31-46 | the reference definition of the image list: the first image per distinct http source, capped at 200; `ImagesWellFormed` states its properties |
| General.Tables | content/detectors/general.js:48-69 | the reference definition of the table list over the first 20 table elements; `TablesWellFormed` states its properties |
| General.Headings | content/detectors/general.js:71-79 | the reference definition of the heading list: the headings with a non-empty text, capped at 50; `HeadingsWellFormed` states its properties |
| General.GeneralOf | content/detectors/general.js:1-90 | the reference definition of the record `scrapeGeneral` returns; `ScrapeGeneral` is proved against it and `GeneralOfMeta` states its metadata |
| General.ScrapeGeneral | content/detectors/general.js:1-90 | `scrapeGeneral` computes `GeneralOf` |
| General.FirstHttpSound | content/detectors/general.js:19-29 | every selected element is an element of the input with an http key, and no key is selected twice |
| General.FirstHttpComplete | content/detectors/general.js:19-29 | every http URL of the input is selected |
| General.FirstHttpFirst | content/detectors/general.js:21 | each selected element is the first input element with its URL |
| General.LinksWellFormed | content/detectors/general.js:16-29 | every link has an http URL and a squished text of at most 200 characters; no URL twice; at most 500 links |
| General.LinksComplete | content/detectors/general.js:16-29 | below the cap, every http link of the page is listed |
| General.ImagesWellFormed | content/detectors/general.js:31-46 | every image has an http source; no source twice; at most 200 images; each image's width and height are those of a page image with that source |
| General.TableRowsWellFormed | content/detectors/general.js:56-64 | every kept row has a cell, and there are at most 100 rows |
| General.KeptTablesNonEmpty | content/detectors/general.js:66-68 | a kept table has headers or rows, and its rows are those of its element |
| General.TablesWellFormed | content/detectors/general.js:48-69 | at most 20 tables, positions strictly increasing, each with headers or rows |
| General.HeadingsWellFormed | content/detectors/general.js:71-79 | at most 50 headings, each with a non-empty text of at most 200 characters |
| General.GeneralOfMeta | content/detectors/general.js:3-14 | the metadata copies title and URL, a missing author or description tag gives `""`, and the text has at most 50000 characters |
| Csv.CellText | utils/csv-generator.js:4 | `null` and `undefined` print as `""`, a string as itself |
| Csv.Escape | utils/csv-generator.js:4 | escaping never shortens the text |
| Csv.EscapeChars | utils/csv-generator.js:4 | escaping adds and removes no kind of character |
| Csv.EscapeNoQuote | utils/csv-generator.js:4 | text without a quote is left as it is |
| Csv.Texts | utils/csv-generator.js:3-4 | the text of every cell, row by row, with the table's shape |
| Csv.EncodeField | utils/csv-generator.js:4-6 | the reference definition of one encoded cell; `EncodeFieldQuoting` and `FieldRoundTrip` state what it means |
| Csv.Generate | utils/csv-generator.js:1-9 | the reference definition of `generateCSVString`; `GenerateRoundTrip` states that its output reads back as the cell texts |
| Csv.QuotedRoundTrip | utils/csv-generator.js:4-6 | an escaped text inside quotes reads back as the text |
| Csv.UnquotedRoundTrip | utils/csv-generator.js:5-6 | a text without special characters reads back as itself |
| Csv.FieldRoundTrip | utils/csv-generator.js:4-6 | every encoded field, followed by a comma, a CR or the end, reads back as its text |
| Csv.RecordRoundTrip | utils/csv-generator.js:3-7 | a record with at least one field reads back field by field |
| Csv.RecordsRoundTrip | utils/csv-generator.js:2-8 | records with at least one field each read back exactly |
| Csv.GenerateRoundTrip | utils/csv-generator.js:1-9 | the CSV of a non-empty table whose rows each have a cell reads back as the texts of its cells |
| Csv.EncodeFieldQuoting | utils/csv-generator.js:4-6 | a field is quoted exactly when it holds a comma, a quote, LF or CR, and then its quotes are doubled |
| Csv.EmptyRowAmbiguity | utils/csv-generator.js:7-8 | an empty row and a row with one empty cell give the same text |
| Csv.TrailingEmptyRow | utils/csv-generator.js:7-8 | a last row with one empty cell leaves only a trailing CRLF |
| Popup.RestrictedExamples | popup/popup.js:9-10 | `chrome://`, `about:`, `chrome-extension://`, `edge://` and a missing URL are refused |
| Popup.AllowedExamples | popup/popup.js:9-10 | a restricted prefix later in the URL, or an unlisted scheme such as `file://`, is not refused |
| Popup.WebPagesAllowed | popup/popup.js:9-10 | every http or https URL passes |
| Popup.Restricted | popup/popup.js:9-10 | the reference definition of the refused tabs: no URL, or a URL starting with one of the four internal prefixes; `RestrictedExamples`, `AllowedExamples` and `WebPagesAllowed` state what it refuses and accepts |
| Popup.TextRow | popup/popup.js:234 | a row of texts, cell by cell |
| Popup.CollectMetaRows | popup/popup.js:268-272 | the metadata loop keeps one row per entry with a non-empty value, in entry order |
| Popup.FlattenRows | popup/popup.js:230-275 | `flattenDataToRows` computes `Flatten` |
| Popup.Flatten | popup/popup.js:230-275 | the reference definition of `flattenDataToRows`; `ProductColumns`, `ContactColumns`, `FirstTableExported`, `LinksExported`, `MetadataExported` and `FlattenedRowsNonEmpty` state what it produces |
| Popup.HeaderTexts | popup/popup.js:234 | the product and contact header rows are the literal headers, in order |
| Popup.ProductLayoutComplete | popup/popup.js:234-237 | every product field is exported, in exactly one column |
| Popup.ContactLayoutComplete | popup/popup.js:243-246 | every exported contact field has exactly one column |
| Popup.ProductColumns | popup/popup.js:233-239 | an ecommerce response gives the ten headers, then one ten-cell row per product, cell `k` being that product's `k`th field |
| Popup.ContactColumns | popup/popup.js:242-248 | a LinkedIn response gives the nine headers, then one nine-cell row per contact, cell `k` being that contact's `k`th field |
| Popup.GeneralWhateverSiteType | popup/popup.js:251-274 | a general payload is flattened the same way whatever site type the response names |
| Popup.MismatchedPayload | popup/popup.js:233-274 | products under `"general"`, or contacts under `"ecommerce"`, give only the property header and an empty content row |
| Popup.FirstTableExported | popup/popup.js:253-259 | with tables, the first table's header row (only when it has headers), then its rows |
| Popup.LinksExported | popup/popup.js:262-264 | without tables but with links, the link header and one (text, URL) row per link |
| Popup.MetadataExported | popup/popup.js:266-274 | otherwise the property header, one row per non-empty metadata value (and only those), and a last content row of at most 30000 characters |
| Popup.MetaRowKept | popup/popup.js:269-271 | every entry with a non-empty value has its row among the kept ones |
| Popup.ScrapedTablesShaped | content/detectors/general.js:48-69 | the general extractor's tables each have headers or rows, every row with a cell |
| Popup.FlattenedRowsNonEmpty | popup/popup.js:230-275 | a shaped payload flattens into at least one row, each row with a cell |
| Popup.CsvExportRoundTrip | popup/popup.js:310-316 | the exported file is a byte-order mark followed by CSV that reads back as the texts of the flattened rows |
| Popup.LongestIsMaximum | popup/popup.js:295-298 | the longest cell is no shorter than any cell of the column, and as long as one of them |
| Popup.WidthBounds | popup/popup.js:293-300 | every column width lies between 12 and 52, and is the longest cell plus 2 when that cell is between 10 and 50 long |
| Popup.Width | popup/popup.js:293-300 | the reference definition of a column's width; `WidthBounds` and `LongestIsMaximum` state what it is |
| Popup.ColumnWidth | popup/popup.js:294-299 | the `maxLen` loop computes `Width` |
| Popup.ColumnWidths | popup/popup.js:293-300 | one width per cell of the first row; with no rows, the `map` of `undefined` throws |
| Popup.PopupState.constructor | popup/popup.js:1 | the popup starts with no kept response |
| Popup.PopupState.OnScrapeResponse | popup/popup.js:55-63 | a response is shown and kept exactly when there is no error, there is a response and it has data; otherwise the kept one is unchanged |
| Popup.PopupState.ExportCsv | popup/popup.js:310-316 | no file without a kept response; otherwise the CSV file of the kept response |
| Popup.PopupState.ExportExcelWidths | popup/popup.js:285-301 | no widths without a kept response; otherwise the `map` over no flattened rows throws, and else there is one width per cell of the first flattened row, each the `Width` of its column, between 12 and 52 |
| Enrichment.NameOf | utils/enrichment.js:21-23 | the name split throws exactly when the name is truthy but not text |
| Enrichment.NameSplit | utils/enrichment.js:21-23 | the first name is one word without whitespace, empty exactly when the name is blank; first and last joined by one space are the name trimmed, with whitespace runs collapsed |
| Enrichment.KeepDomainChars | utils/enrichment.js:137 | only lower-case letters and digits are kept |
| Enrichment.KeepDomainCharsIdentity | utils/enrichment.js:137 | text made only of those characters is kept whole |
| Enrichment.DomainGuess | utils/enrichment.js:137 | the guessed domain ends in `.com`, and what comes before consists of lower-case letters and digits |
| Enrichment.DomainGuessOfPlainName | utils/enrichment.js:137 | a company name already made of lower-case letters and digits becomes that name plus `.com` |
| Enrichment.KeySplit | utils/enrichment.js:153-156 | neither part holds a colon; a key without a colon is the client id with an empty secret |
| Enrichment.KeySplitAt | utils/enrichment.js:153-156 | a key is split at its first colon, and the secret ends at the next colon |
| Enrichment.KeySplitOneColon | utils/enrichment.js:153-156 | `id:secret` gives `id` and `secret` |
| Enrichment.KeySplitLaterColon | utils/enrichment.js:155 | `id:secret:more` gives `id` and `secret`, and drops the rest |
| Enrichment.WebsiteDomain | utils/enrichment.js:30-32 | the reference definition of the website domain: `extractDomain` of the first website, `""` without one or when it is not text |
| Enrichment.HunterStep | utils/enrichment.js:20-53 | the reference definition of Hunter's decision; `HunterNeedsDomain` and `BlankNameRefused` state it |
| Enrichment.ApolloStep | utils/enrichment.js:77-97 | the reference definition of Apollo's decision; `BlankNameRefused` and `MissingNameRefused` state its refusals |
| Enrichment.SnovStep | utils/enrichment.js:124-184 | the reference definition of Snov's decision; `SnovDomainChoice`, `SnovTokenOutcomes` and `SnovCredentials` state it |
| Enrichment.Enrich | utils/enrichment.js:4-16 | the reference definition of `enrichContact`; `NoKeyNoRequest` and `ProviderDispatch` state it |
| Enrichment.EnrichWithHunter | utils/enrichment.js:20-53 | the Hunter steps compute `HunterStep` |
| Enrichment.EnrichWithSnov | utils/enrichment.js:124-174 | the Snov steps compute `SnovStep` |
| Enrichment.EnrichContact | utils/enrichment.js:4-16 | `enrichContact` computes `Enrich` |
| Enrichment.NoKeyNoRequest | utils/enrichment.js:5-7 | without settings, a provider or a key, the missing-key error is returned and no request is sent |
| Enrichment.ProviderDispatch | utils/enrichment.js:11-15 | `"hunter"`, `"apollo"` and `"snov"` dispatch to their provider; any other name is refused as unknown |
| Enrichment.BlankNameRefused | utils/enrichment.js:25 | all three providers refuse a blank name before any lookup |
| Enrichment.MissingNameRefused | utils/enrichment.js:78-82 | a falsy name counts as blank |
| Enrichment.HunterNeedsDomain | utils/enrichment.js:28-53 | Hunter is refused exactly when there is no website domain and no domain from the lookup for a truthy company; otherwise the request carries that domain |
| Enrichment.SnovDomainChoice | utils/enrichment.js:131-140 | Snov uses the first website's domain, else the guess from a text company name; with neither, it is refused |
| Enrichment.SnovCredentials | utils/enrichment.js:153-174 | Snov's request carries the key split at its first colon |
| Enrichment.SnovTokenOutcomes | utils/enrichment.js:142-184 | with a name and a domain, a rejected first token request answers `Snov.io request failed: ` and the error's message, another status the credentials error, and only an OK answer sends the request to the found domain |

## Left out

- Network, browser and transport. The Voyager, Hunter, Apollo and Snov HTTP calls, `chrome.tabs`, `chrome.scripting`, `chrome.runtime.lastError`, `sendResponse` and the `return true` that keeps the channel open are not modelled as code. Their results are parameters: `Voyager` answers in the snapshot, `Answers` for the providers, `lastError` for the popup.
- The service worker (background/service-worker.js) is not part of this model.
- The popup's UI (sections, badges, result preview, PDF export), the XLSX workbook, `Blob` and file download, and file names are left out. Only the rows, the CSV text and the column widths are modelled.
- Timestamps come from the clock, so `new Date().toISOString()` is a `timestamp` parameter.
- `JSON.parse` is given per script as a parsed `Option<Json>`, with `None` for text that does not parse. No JSON text parser is modelled, so a script's text and its parsed value are independent: nothing ties the classifier's `"Product"` text test to the product the store extractor finds in the parsed value.
- DOM queries are lookups in a snapshot keyed by selector string. CSS selector matching, `textContent` and `innerText` computation, and live pages are not modelled.
- Numbers are integers. Floating point and JavaScript's number formatting (`String(4.5)`) are left out.
- `toLowerCase` is ASCII-only (`ToLowerAscii`), so non-ASCII case mappings differ. Lengths count code points rather than UTF-16 units.
- `Object.entries` lists keys in insertion order. Integer-like keys, which JavaScript lists first, are not handled.
- Error messages of V8's `TypeError`s are approximations. The model only relies on an exception being thrown and on its message being carried to the envelope.
- The currency regular expression `/[$€£¥₹]\s?\d/` is a predicate (`CurrencyAmountAt`). `\s` is the whitespace set of `Strings.IsSpace`.
- `extractDomain` (a `new URL` parse) is a function parameter of the enrichment model.
- The handling of each provider's response is left out: deciding on email, score, phones and error texts from `d.data`, `d.person` or the Snov token and email answers. The model stops at the request each provider sends, or at the error it returns before any request.
- Enrichment.SnovStep: the second Snov token request and its `access_token` check are not modelled. Only the outcome of the first token request decides: an OK status, another status, or a rejected `fetch` whose message is caught. A rejection of the later requests is part of the response handling, which is left out.
- Enrichment settings fields are strings, `""` when unset, so a non-string stored value is not modelled.
- Content.ContentWindow.Inject: the listener is counted, not stored as a closure; the message-type constants are not modelled (`Message` is a datatype instead).
- Csv.GenerateRoundTrip: requires a non-empty table whose rows each have a cell. An empty row and a row with one empty cell serialise alike (`EmptyRowAmbiguity`, `TrailingEmptyRow`), so no reader can tell them apart. Flattened rows meet the condition (`FlattenedRowsNonEmpty`).
- Popup.PopupState.OnScrapeResponse: the check `!response.data` is modelled as the envelope's `data` being absent. A scraper does not return a falsy payload, so this is the same test.
- Enrichment.KeySplit: JavaScript's destructuring keeps only the first two pieces of `apiKey.split(":")`. The model does the same, and `KeySplitLaterColon` states what is lost.
- The popup always sends a scrape request without a site type (`PopupRequest`, popup/popup.js:55), so the content script classifies the page again (`UnnamedRequestDetects`). A request that names a site type is modelled too.
