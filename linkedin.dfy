/** The LinkedIn extractor (content/detectors/linkedin.js): dispatch on the URL
    path; a profile read from the three internal profile API responses, with
    its DOM fallback merged into the fields the API left empty; the contacts of
    a search results page; a company page as one contact. */
module LinkedIn {
  import opened Common
  import opened Strings
  import opened JsValues
  import opened Page
  import opened Seqs

  // ---------------------------------------------------------------------------
  // Records

  /** One position of a profile. */
  datatype Experience = Experience(
    title: Json,
    company: Json,
    location: Json,
    startDate: string,
    endDate: string,
    description: string
  )

  /** One school of a profile. */
  datatype Education = Education(
    school: Json,
    degree: Json,
    field: Json,
    startDate: string,
    endDate: string
  )

  /** A contact record. The scalar fields hold whatever the API put there (a
      `headline` need not be a string), so they are JavaScript values. */
  datatype Contact = Contact(
    name: Json,
    title: Json,
    email: Json,
    phone: Json,
    company: Json,
    location: Json,
    profileUrl: Json,
    about: Json,
    connections: Json,
    experience: seq<Experience>,
    education: seq<Education>,
    skills: seq<Json>,
    websites: seq<Json>,
    twitter: Json,
    birthday: Json
  )

  /** A contact with every text field `""` and every list empty. */
  function BlankContact(): (r: Contact)
    ensures r.experience == [] && r.education == [] && r.skills == [] && r.websites == []
  {
    Contact(Str(""), Str(""), Str(""), Str(""), Str(""), Str(""), Str(""), Str(""), Str(""),
            [], [], [], [], Str(""), Str(""))
  }

  // ---------------------------------------------------------------------------
  // DOM helpers

  /** `domText(selector)`: the squished text of the element's first
      `span[aria-hidden="true"]`, or of the element itself; `""` when nothing
      matches or the selector does not parse. */
  function DomText(scope: Scope, sel: string): (r: string)
    ensures !(sel in scope && scope[sel].Found?) ==> r == ""
  {
    if sel in scope && scope[sel].Found? then
      var el := scope[sel].el;
      Squish(match el.ariaHiddenSpan case Some(span) => span case None => el.text)
    else ""
  }

  /** One probe of `getSearchText`: the squished text of the match, `""` when
      the selector matches nothing or does not parse. */
  function SearchProbe(scope: Scope, sel: string): string {
    if sel in scope && scope[sel].Found? then Squish(scope[sel].el.text) else ""
  }

  /** `getSearchText` as a value: the first non-empty probe in list order. */
  function SearchText(scope: Scope, sels: seq<string>): string {
    FirstNonEmpty(sels, sel => SearchProbe(scope, sel))
  }

  /** The text `getSearchText` returns is that of the first selector in list
      order whose probe is not empty, and `""` only when every probe is. */
  lemma SearchTextFirst(scope: Scope, sels: seq<string>)
    ensures var r := SearchText(scope, sels);
      (r != "" ==> exists i :: 0 <= i < |sels| && SearchProbe(scope, sels[i]) == r &&
                               forall j :: 0 <= j < i ==> SearchProbe(scope, sels[j]) == "") &&
      (r == "" <==> forall i :: 0 <= i < |sels| ==> SearchProbe(scope, sels[i]) == "")
  {
    FirstNonEmptyFirst(sels, sel => SearchProbe(scope, sel));
  }

  /** `getSearchText(container, selectors)` */
  method GetSearchText(scope: Scope, sels: seq<string>) returns (text: string)
    ensures text == SearchText(scope, sels)
  {
    var i := 0;
    while i < |sels|
      invariant 0 <= i <= |sels|
      invariant SearchText(scope, sels[i..]) == SearchText(scope, sels)
    {
      var sel := sels[i];
      assert sels[i..][1..] == sels[i + 1..];
      if sel in scope && scope[sel].Found? {
        var t := Squish(scope[sel].el.text);
        if t != "" {
          return t;
        }
      }
      i := i + 1;
    }
    return "";
  }

  // ---------------------------------------------------------------------------
  // Pages without the profile API

  /** `scrapeLinkedInDOM()`: the record read from the profile page's markup. */
  function DomContact(page: Snapshot): (r: Contact)
    ensures r.company == Str("") && r.about == Str("") && r.connections == Str("")
    ensures r.experience == [] && r.skills == []
  {
    BlankContact().(
      name := Str(DomText(page.doc, "h1")),
      title := Str(DomText(page.doc, ".text-body-medium.break-words, div.text-body-medium")),
      email := Str(match Find(page.doc, "a[href^=\"mailto:\"]")
                   case Some(el) => BeforeFirst(ReplaceFirst(el.href, "mailto:", ""), "?")
                   case None => ""),
      phone := Str(match Find(page.doc, "a[href^=\"tel:\"]")
                   case Some(el) => ReplaceFirst(el.href, "tel:", "")
                   case None => ""),
      profileUrl := Str(BeforeFirst(page.location.href, "?")))
  }

  const AboutCap: nat := 500

  /** `scrapeLinkedInCompany()`: the company as one contact titled "Company". */
  function CompanyContact(page: Snapshot): (r: Contact)
    ensures r.title == Str("Company")
    ensures r.about.Str? && |r.about.s| <= AboutCap
    ensures r.name == Str(DomText(page.doc, "h1 span, h1"))
    ensures r.profileUrl.Str? && !Contains(r.profileUrl.s, "?")
  {
    BlankContact().(
      name := Str(DomText(page.doc, "h1 span, h1")),
      title := Str("Company"),
      company := Str(DomText(page.doc, ".org-top-card-summary-info-list__info-item")),
      profileUrl := Str(BeforeFirst(page.location.href, "?")),
      about := Str(Take(DomText(page.doc, "[class*='org-about'] p, .org-about-company-module__description"), AboutCap)))
  }

  const CardNameSelector: string := "span[dir=\"ltr\"] > span[aria-hidden=\"true\"], span[aria-hidden=\"true\"]"
  const CardLinkSelector: string := "a[href*=\"/in/\"]"
  const CardTitleSelectors: seq<string> :=
    [".entity-result__primary-subtitle", "div[class*=\"entity-result__primary-subtitle\"]"]
  const CardLocationSelectors: seq<string> :=
    [".entity-result__secondary-subtitle", "div[class*=\"entity-result__secondary-subtitle\"]"]

  /** The squished name of a search result card, `""` without one. */
  function CardName(card: Scope): string {
    match Find(card, CardNameSelector) case Some(el) => Squish(el.text) case None => ""
  }

  /** The contact of one search result card; a card whose name is shorter than
      two characters is skipped. */
  function CardContact(card: Scope): (r: Option<Contact>)
    ensures r.Some? <==> |CardName(card)| >= 2
  {
    var name := CardName(card);
    if name == "" || |name| < 2 then None
    else
      var url := match Find(card, CardLinkSelector) case Some(el) => BeforeFirst(el.href, "?") case None => "";
      Some(BlankContact().(
        name := Str(name),
        title := Str(SearchText(card, CardTitleSelectors)),
        location := Str(SearchText(card, CardLocationSelectors)),
        profileUrl := Str(url)))
  }

  /** `scrapeLinkedInSearchResults()` as a value. */
  function SearchContacts(cards: seq<Scope>): seq<Contact> {
    Kept(cards, CardContact)
  }

  /** The body of the card loop: the card's contact, or nothing for a card
      without a usable name. */
  method ReadCard(card: Scope) returns (contact: Option<Contact>)
    ensures contact == CardContact(card)
  {
    var nameEl := Find(card, CardNameSelector);
    var name := match nameEl case Some(el) => Squish(el.text) case None => "";
    assert CardName(card) == name;
    if name == "" || |name| < 2 {
      return None;
    }
    var link := Find(card, CardLinkSelector);
    var profileUrl := match link case Some(el) => BeforeFirst(el.href, "?") case None => "";
    var title := GetSearchText(card, CardTitleSelectors);
    var location := GetSearchText(card, CardLocationSelectors);
    contact := Some(BlankContact().(
      name := Str(name), title := Str(title), location := Str(location), profileUrl := Str(profileUrl)));
  }

  /** `scrapeLinkedInSearchResults()`: one contact per card with a name, in page order. */
  method CollectSearchContacts(cards: seq<Scope>) returns (contacts: seq<Contact>)
    ensures contacts == SearchContacts(cards)
  {
    contacts := [];
    var i := 0;
    while i < |cards|
      invariant 0 <= i <= |cards|
      invariant contacts == Kept(cards[..i], CardContact)
    {
      var contact := ReadCard(cards[i]);
      KeptPush(cards, i, CardContact, contacts, contact);
      if contact.Some? {
        contacts := contacts + [contact.value];
      }
      i := i + 1;
    }
    assert cards[..i] == cards;
  }

  /** Every search contact has a name of at least two characters and a profile
      URL without a query string. */
  lemma SearchContactsWellFormed(cards: seq<Scope>)
    ensures forall c :: c in SearchContacts(cards) ==>
      c.name.Str? && |c.name.s| >= 2 && c.profileUrl.Str? && !Contains(c.profileUrl.s, "?")
  {
    forall c | c in SearchContacts(cards)
      ensures c.name.Str? && |c.name.s| >= 2 && c.profileUrl.Str? && !Contains(c.profileUrl.s, "?")
    {
      KeptSound(cards, CardContact, c);
    }
  }

  /** A card whose name is shorter than two characters contributes nothing... */
  lemma ShortNameSkipped(cards: seq<Scope>, card: Scope)
    requires |CardName(card)| < 2
    ensures SearchContacts(cards + [card]) == SearchContacts(cards)
  {
    assert (cards + [card])[..|cards|] == cards;
  }

  /** ...and any other card adds its contact at the end. */
  lemma NamedCardKept(cards: seq<Scope>, card: Scope)
    requires |CardName(card)| >= 2
    ensures SearchContacts(cards + [card]) == SearchContacts(cards) + [CardContact(card).value]
  {
    assert (cards + [card])[..|cards|] == cards;
  }

  // ---------------------------------------------------------------------------
  // The session cookie

  /** The literal part of `/JSESSIONID="?([^";]+)"?/`. */
  const SessionKey: string := "JSESSIONID="

  predicate TokenChar(c: char) { c != '"' && c != ';' }

  /** `[^";]+` taken greedily: the longest prefix of token characters. */
  function TokenRun(s: string): (r: string)
    ensures |r| <= |s|
    ensures forall k :: 0 <= k < |r| ==> TokenChar(r[k])
    ensures |r| < |s| ==> !TokenChar(s[|r|])
    ensures forall k :: 0 <= k < |r| ==> r[k] == s[k]
  {
    if s == [] || !TokenChar(s[0]) then "" else [s[0]] + TokenRun(s[1..])
  }

  /** The captured group when the pattern is tried right after a `JSESSIONID=`
      ending before index `k`: an optional quote, then the token. */
  function TokenAt(cookie: string, k: nat): string
    requires k <= |cookie|
  {
    if k < |cookie| && cookie[k] == '"' then TokenRun(cookie[k + 1..]) else TokenRun(cookie[k..])
  }

  /** The leftmost match at or after `i`. */
  function TokenFrom(cookie: string, i: nat): (r: string)
    decreases |cookie| - i
    ensures forall k :: 0 <= k < |r| ==> TokenChar(r[k])
  {
    if i + |SessionKey| > |cookie| then ""
    else if OccursAt(cookie, SessionKey, i) && TokenAt(cookie, i + |SessionKey|) != "" then
      TokenAt(cookie, i + |SessionKey|)
    else TokenFrom(cookie, i + 1)
  }

  /** `getCSRFToken()`: `document.cookie.match(...)?.[1]`, `""` without a match. */
  function CsrfToken(cookie: string): (r: string)
    ensures forall k :: 0 <= k < |r| ==> TokenChar(r[k])
  {
    TokenFrom(cookie, 0)
  }

  /** A cookie without `JSESSIONID=` has no token. */
  lemma {:induction false} NoSessionNoToken(cookie: string, i: nat)
    requires !Contains(cookie, SessionKey)
    decreases |cookie| - i
    ensures TokenFrom(cookie, i) == ""
  {
    if i + |SessionKey| <= |cookie| {
      assert !OccursAt(cookie, SessionKey, i);
      NoSessionNoToken(cookie, i + 1);
    }
  }

  /** The token of a quoted session cookie is the text between the quotes. */
  lemma QuotedSessionToken(token: string, rest: string)
    requires token != [] && forall k :: 0 <= k < |token| ==> TokenChar(token[k])
    ensures CsrfToken(SessionKey + "\"" + token + "\"" + rest) == token
  {
    var cookie := SessionKey + "\"" + token + "\"" + rest;
    assert OccursAt(cookie, SessionKey, 0) by {
      assert cookie[..|SessionKey|] == SessionKey;
    }
    assert cookie[|SessionKey|] == '"';
    var tail := cookie[|SessionKey| + 1..];
    assert tail == token + ("\"" + rest);
    TokenRunStops(token, "\"" + rest);
    assert TokenAt(cookie, |SessionKey|) == token;
  }

  /** The greedy token run stops at the first quote or semicolon. */
  lemma {:induction false} TokenRunStops(token: string, rest: string)
    requires forall k :: 0 <= k < |token| ==> TokenChar(token[k])
    requires rest == [] || !TokenChar(rest[0])
    decreases |token|
    ensures TokenRun(token + rest) == token
  {
    if token != [] {
      assert (token + rest)[1..] == token[1..] + rest;
      TokenRunStops(token[1..], rest);
      assert [token[0]] + token[1..] == token;
    } else {
      assert token + rest == rest;
    }
  }

  // ---------------------------------------------------------------------------
  // Dates

  /** `formatLinkedInDate(d)`: `"month/year"`, the year alone, or `""`. */
  function FormatDate(d: Json): (r: string)
    ensures !Truthy(d) ==> r == ""
    ensures Truthy(d) && Truthy(OptGet(d, "month")) && Truthy(OptGet(d, "year")) ==>
              r == ToStr(OptGet(d, "month")) + "/" + ToStr(OptGet(d, "year"))
    ensures Truthy(d) && !Truthy(OptGet(d, "month")) && Truthy(OptGet(d, "year")) ==>
              r == ToStr(OptGet(d, "year"))
    ensures !Truthy(OptGet(d, "year")) ==> r == ""
  {
    if !Truthy(d) then ""
    else
      var month := OrEmpty(OptGet(d, "month"));
      var year := OrEmpty(OptGet(d, "year"));
      if Truthy(month) && Truthy(year) then ToStr(month) + "/" + ToStr(year)
      else if Truthy(year) then ToStr(year)
      else ""
  }

  // ---------------------------------------------------------------------------
  // The profile API: entities by `$type`

  const ProfileDash: string := "com.linkedin.voyager.dash.identity.profile.Profile"
  const ProfileLegacy: string := "com.linkedin.voyager.identity.profile.Profile"
  const MiniLegacy: string := "com.linkedin.voyager.identity.shared.MiniProfile"
  const MiniDash: string := "com.linkedin.voyager.dash.identity.profile.tetris.MiniProfile"
  const PositionDash: string := "com.linkedin.voyager.dash.identity.profile.Position"
  const PositionLegacy: string := "com.linkedin.voyager.identity.profile.Position"
  const EducationDash: string := "com.linkedin.voyager.dash.identity.profile.Education"
  const EducationLegacy: string := "com.linkedin.voyager.identity.profile.Education"
  const NetworkInfoType: string := "com.linkedin.voyager.dash.identity.profile.tetris.NetworkInfo"
  const CompanyDash: string := "com.linkedin.voyager.dash.organization.Company"
  const CompanyLegacy: string := "com.linkedin.voyager.organization.Company"
  const SkillLegacy: string := "com.linkedin.voyager.identity.profile.Skill"
  const SkillDash: string := "com.linkedin.voyager.dash.identity.profile.Skill"

  const SummaryCap: nat := 1000
  const PositionDescriptionCap: nat := 300

  /** `t === a || t === b` */
  predicate IsType(t: Json, a: string, b: string) {
    t == Str(a) || t == Str(b)
  }

  /** What `extractProfile` gathers. */
  datatype ProfileResult = ProfileResult(
    name: Json,
    headline: Json,
    location: Json,
    summary: Json,
    currentCompany: Json,
    connectionCount: Json,
    experience: seq<Experience>,
    education: seq<Education>
  )

  function EmptyProfile(): ProfileResult {
    ProfileResult(Str(""), Str(""), Str(""), Str(""), Str(""), Str(""), [], [])
  }

  /** `[entity.firstName, entity.lastName].filter(Boolean).join(" ")` */
  function FullName(e: Json): string {
    var first := OptGet(e, "firstName");
    var last := OptGet(e, "lastName");
    JoinValues((if Truthy(first) then [first] else []) + (if Truthy(last) then [last] else []), " ")
  }

  /** The formatted start and end of a position or a school. */
  function StartOf(e: Json): string {
    FormatDate(Or(OptGet(OptGet(e, "dateRange"), "start"), OptGet(OptGet(e, "timePeriod"), "startDate")))
  }

  function EndOf(e: Json): string {
    FormatDate(Or(OptGet(OptGet(e, "dateRange"), "end"), OptGet(OptGet(e, "timePeriod"), "endDate")))
  }

  /** The experience record of a position entity. Its description is cut to 300
      characters (a description that is not a string has no `substring` and
      throws), and a position without an end date ends "Present". */
  function PositionOf(e: Json): (r: Result<Experience>)
    ensures r.Throw? <==> Truthy(OptGet(e, "description")) && !OptGet(e, "description").Str?
    ensures r.Ok? ==> |r.value.description| <= PositionDescriptionCap && r.value.endDate != ""
    ensures r.Ok? && EndOf(e) == "" ==> r.value.endDate == "Present"
    ensures r.Ok? && EndOf(e) != "" ==> r.value.endDate == EndOf(e)
  {
    var description :- Substring(OrEmpty(OptGet(e, "description")), PositionDescriptionCap,
                                 "(entity.description || \"\")");
    var end := EndOf(e);
    Ok(Experience(
      title := OrEmpty(OptGet(e, "title")),
      company := OrEmpty(OptGet(e, "companyName")),
      location := OrEmpty(OptGet(e, "locationName")),
      startDate := StartOf(e),
      endDate := if end == "" then "Present" else end,
      description := description))
  }

  /** The education record of a school entity. */
  function EducationOf(e: Json): (r: Education)
    ensures Truthy(r.school) <==> Truthy(OptGet(e, "schoolName")) || Truthy(OptGet(e, "school"))
  {
    Education(
      school := Or(Or(OptGet(e, "schoolName"), OptGet(e, "school")), Str("")),
      degree := Or(Or(OptGet(e, "degreeName"), OptGet(e, "degree")), Str("")),
      field := OrEmpty(OptGet(e, "fieldOfStudy")),
      startDate := StartOf(e),
      endDate := EndOf(e))
  }

  /** The block for the profile entity: name, headline, summary (cut to 1000
      characters; one that is not a string throws) and location,
      `geoLocationName` winning over `locationName`. Other entities pass. */
  function WithBasics(r: ProfileResult, e: Json, t: Json): (q: Result<ProfileResult>)
    ensures !IsType(t, ProfileDash, ProfileLegacy) ==> q == Ok(r)
    ensures q.Ok? && IsType(t, ProfileDash, ProfileLegacy) ==>
            q.value.summary.Str? && |q.value.summary.s| <= SummaryCap
    ensures q.Ok? ==> q.value.experience == r.experience && q.value.education == r.education &&
                      q.value.currentCompany == r.currentCompany
  {
    if !IsType(t, ProfileDash, ProfileLegacy) then Ok(r)
    else
      var summary :- Substring(Or(Or(OptGet(e, "summary"), OptGet(e, "about")), Str("")), SummaryCap,
                               "(entity.summary || entity.about || \"\")");
      var loc := OptGet(e, "locationName");
      var geo := OptGet(e, "geoLocationName");
      Ok(r.(name := Str(FullName(e)),
            headline := OrEmpty(OptGet(e, "headline")),
            summary := Str(summary),
            location := if Truthy(geo) then geo else if Truthy(loc) then loc else r.location))
  }

  /** The block for a mini profile: it fills the name and the headline only
      while they are empty. */
  function WithMini(r: ProfileResult, e: Json, t: Json): (q: ProfileResult)
    ensures Truthy(r.name) ==> q.name == r.name
    ensures Truthy(r.headline) ==> q.headline == r.headline
    ensures q.(name := r.name, headline := r.headline) == r
  {
    var first := OptGet(e, "firstName");
    var occupation := OptGet(e, "occupation");
    if !IsType(t, MiniLegacy, MiniDash) then r
    else
      r.(name := if !Truthy(r.name) && Truthy(first) then Str(FullName(e)) else r.name,
         headline := if !Truthy(r.headline) && Truthy(occupation) then occupation else r.headline)
  }

  /** The block for a position: pushed when it has a title or a company. */
  function WithPosition(r: ProfileResult, e: Json, t: Json): Result<ProfileResult> {
    if !IsType(t, PositionDash, PositionLegacy) then Ok(r)
    else
      var exp :- PositionOf(e);
      Ok(if Truthy(exp.title) || Truthy(exp.company) then r.(experience := r.experience + [exp]) else r)
  }

  /** The block for a school: pushed when it has a name. */
  function WithEducation(r: ProfileResult, e: Json, t: Json): ProfileResult {
    var edu := EducationOf(e);
    if IsType(t, EducationDash, EducationLegacy) && Truthy(edu.school) then r.(education := r.education + [edu])
    else r
  }

  /** The block for the network info, or any entity with `connectionsCount`. */
  function WithConnections(r: ProfileResult, e: Json, t: Json): ProfileResult {
    var count := OptGet(e, "connectionsCount");
    if t == Str(NetworkInfoType) || count != Undefined then
      r.(connectionCount := Str(ToStr(Or(Or(count, OptGet(e, "connectionCount")), Str("")))))
    else r
  }

  /** One iteration of the entity loop of `extractProfile`: the five blocks in
      turn. Reading `$type` of a `null` entity throws. */
  function EntityStep(r: ProfileResult, e: Json): Result<ProfileResult> {
    var t :- Get(e, "$type");
    var r1 :- WithBasics(r, e, t);
    var r3 :- WithPosition(WithMini(r1, e, t), e, t);
    Ok(WithConnections(WithEducation(r3, e, t), e, t))
  }

  // ---------------------------------------------------------------------------
  // The company map and the current company

  /** A plain object's entries in insertion order. */
  type Entries = seq<(string, Json)>

  /** `obj[k] = v`: a new key goes last, an existing key keeps its place. */
  function Put(m: Entries, k: string, v: Json): (r: Entries)
    ensures |r| > 0
    ensures m != [] ==> r[0].0 == m[0].0
    ensures forall i :: 0 <= i < |r| ==> r[i].1 == v || r[i] in m
  {
    if m == [] then [(k, v)]
    else if m[0].0 == k then [(k, v)] + m[1..]
    else [m[0]] + Put(m[1..], k, v)
  }

  /** One iteration of the company loop: a company entity with an URN and a
      name is recorded under the URN. The entities here have all had their
      `$type` read by the entity loop already, so none of them is `null`. */
  function CompanyStep(m: Entries, e: Json): Entries {
    var urn := OptGet(e, "entityUrn");
    var name := OptGet(e, "name");
    if IsType(OptGet(e, "$type"), CompanyDash, CompanyLegacy) && Truthy(urn) && Truthy(name) then
      Put(m, ToStr(urn), name)
    else m
  }

  function CompanyMap(es: seq<Json>): Entries
    decreases |es|
  {
    if es == [] then [] else CompanyStep(CompanyMap(es[..|es| - 1]), es[|es| - 1])
  }

  /** Every value of the company map is a truthy name. */
  lemma {:induction false} CompanyNamesTruthy(es: seq<Json>)
    decreases |es|
    ensures forall i :: 0 <= i < |CompanyMap(es)| ==> Truthy(CompanyMap(es)[i].1)
  {
    if es != [] {
      CompanyNamesTruthy(es[..|es| - 1]);
    }
  }

  /** The fill loop: a position without a company takes the first name of the
      company map (the loop over its entries stops after one). */
  function Filled(exps: seq<Experience>, m: Entries): (r: seq<Experience>)
    ensures |r| == |exps|
  {
    seq(|exps|, k requires 0 <= k < |exps| =>
      if !Truthy(exps[k].company) && m != [] then exps[k].(company := m[0].1) else exps[k])
  }

  /** The index `experience.find(e => e.endDate === "Present")` stops at. */
  function FirstPresent(exps: seq<Experience>): (r: Option<nat>)
    ensures r.Some? ==> r.value < |exps| && exps[r.value].endDate == "Present" &&
                        forall j :: 0 <= j < r.value ==> exps[j].endDate != "Present"
    ensures r.None? ==> forall j :: 0 <= j < |exps| ==> exps[j].endDate != "Present"
  {
    if exps == [] then None
    else if exps[0].endDate == "Present" then Some(0)
    else
      match FirstPresent(exps[1..])
      case None => None
      case Some(k) => Some(k + 1)
  }

  /** `(find(e => e.endDate === "Present") || experience[0]).company` */
  function CurrentCompany(exps: seq<Experience>): Json
    requires |exps| > 0
  {
    match FirstPresent(exps)
    case Some(k) => exps[k].company
    case None => exps[0].company
  }

  /** `extractProfile(apiData)` as a value. */
  function ProfileOf(apiData: Json): Result<ProfileResult> {
    var included :- Get(apiData, "included");
    var entities :- Iterate(Or(included, Arr([])), "included");
    var scanned :- Loop(entities, EmptyProfile(), EntityStep);
    var exps := Filled(scanned.experience, CompanyMap(entities));
    Ok(scanned.(experience := exps,
                currentCompany := if exps == [] then scanned.currentCompany else CurrentCompany(exps)))
  }

  /** `companyMap[entity.entityUrn] = entity.name` over every entity. */
  method BuildCompanyMap(entities: seq<Json>) returns (m: Entries)
    ensures m == CompanyMap(entities)
  {
    m := [];
    var i := 0;
    while i < |entities|
      invariant 0 <= i <= |entities|
      invariant m == CompanyMap(entities[..i])
    {
      var entity := entities[i];
      assert entities[..i + 1][..i] == entities[..i];
      var urn := OptGet(entity, "entityUrn");
      var name := OptGet(entity, "name");
      if IsType(OptGet(entity, "$type"), CompanyDash, CompanyLegacy) && Truthy(urn) && Truthy(name) {
        m := Put(m, ToStr(urn), name);
      }
      i := i + 1;
    }
    assert entities[..i] == entities;
  }

  /** The fill loop, rewriting `exp.company` in place. */
  method FillCompanies(exps: seq<Experience>, m: Entries) returns (out: seq<Experience>)
    ensures out == Filled(exps, m)
  {
    out := exps;
    var i := 0;
    while i < |out|
      invariant 0 <= i <= |out| && |out| == |exps|
      invariant forall k :: 0 <= k < i ==> out[k] == Filled(exps, m)[k]
      invariant forall k :: i <= k < |out| ==> out[k] == exps[k]
    {
      if !Truthy(out[i].company) && |m| > 0 {
        out := out[i := out[i].(company := m[0].1)];
      }
      i := i + 1;
    }
  }

  /** The profile entity's block of the entity loop. */
  method ReadBasics(current: ProfileResult, e: Json, t: Json) returns (res: Result<ProfileResult>)
    ensures res == WithBasics(current, e, t)
  {
    if !IsType(t, ProfileDash, ProfileLegacy) {
      return Ok(current);
    }
    var result := current.(name := Str(FullName(e)));
    result := result.(headline := OrEmpty(OptGet(e, "headline")));
    var summary := Substring(Or(Or(OptGet(e, "summary"), OptGet(e, "about")), Str("")), SummaryCap,
                             "(entity.summary || entity.about || \"\")");
    if summary.Throw? {
      return Throw(summary.message);
    }
    result := result.(summary := Str(summary.value));
    if Truthy(OptGet(e, "locationName")) {
      result := result.(location := OptGet(e, "locationName"));
    }
    if Truthy(OptGet(e, "geoLocationName")) {
      result := result.(location := OptGet(e, "geoLocationName"));
    }
    return Ok(result);
  }

  /** A mini profile's block of the entity loop. */
  method ReadMini(current: ProfileResult, e: Json, t: Json) returns (result: ProfileResult)
    ensures result == WithMini(current, e, t)
  {
    result := current;
    if IsType(t, MiniLegacy, MiniDash) {
      if !Truthy(result.name) && Truthy(OptGet(e, "firstName")) {
        result := result.(name := Str(FullName(e)));
      }
      if !Truthy(result.headline) && Truthy(OptGet(e, "occupation")) {
        result := result.(headline := OptGet(e, "occupation"));
      }
    }
  }

  /** A position entity's block of the entity loop. */
  method ReadPosition(current: ProfileResult, e: Json, t: Json) returns (res: Result<ProfileResult>)
    ensures res == WithPosition(current, e, t)
  {
    if !IsType(t, PositionDash, PositionLegacy) {
      return Ok(current);
    }
    var exp := PositionOf(e);
    if exp.Throw? {
      return Throw(exp.message);
    }
    if Truthy(exp.value.title) || Truthy(exp.value.company) {
      return Ok(current.(experience := current.experience + [exp.value]));
    }
    return Ok(current);
  }

  /** A school entity's block of the entity loop. */
  method ReadEducation(current: ProfileResult, e: Json, t: Json) returns (result: ProfileResult)
    ensures result == WithEducation(current, e, t)
  {
    result := current;
    if IsType(t, EducationDash, EducationLegacy) {
      var edu := EducationOf(e);
      if Truthy(edu.school) {
        result := result.(education := result.education + [edu]);
      }
    }
  }

  /** The body of the entity loop of `extractProfile`. */
  method ProfileEntity(current: ProfileResult, e: Json) returns (res: Result<ProfileResult>)
    ensures res == EntityStep(current, e)
  {
    var t := Get(e, "$type");
    if t.Throw? {
      return Throw(t.message);
    }
    var typ := t.value;
    var basics := ReadBasics(current, e, typ);
    if basics.Throw? {
      return Throw(basics.message);
    }
    var result := ReadMini(basics.value, e, typ);
    var pushed := ReadPosition(result, e, typ);
    if pushed.Throw? {
      return Throw(pushed.message);
    }
    result := ReadEducation(pushed.value, e, typ);
    if typ == Str(NetworkInfoType) || OptGet(e, "connectionsCount") != Undefined {
      result := result.(connectionCount :=
        Str(ToStr(Or(Or(OptGet(e, "connectionsCount"), OptGet(e, "connectionCount")), Str("")))));
    }
    return Ok(result);
  }

  /** `extractProfile(apiData)`: the entity loop, then the company loop and the
      fill loop, then the current company. */
  method ExtractProfile(apiData: Json) returns (res: Result<ProfileResult>)
    ensures res == ProfileOf(apiData)
  {
    var included := Get(apiData, "included");
    if included.Throw? {
      return Throw(included.message);
    }
    var it := Iterate(Or(included.value, Arr([])), "included");
    if it.Throw? {
      return Throw(it.message);
    }
    var entities := it.value;
    var result := EmptyProfile();
    var i := 0;
    while i < |entities|
      invariant 0 <= i <= |entities|
      invariant Loop(entities[..i], EmptyProfile(), EntityStep) == Ok(result)
    {
      LoopSnoc(entities, i, EmptyProfile(), EntityStep, result);
      var next := ProfileEntity(result, entities[i]);
      if next.Throw? {
        LoopStops(entities, i + 1, EmptyProfile(), EntityStep, next.message);
        return Throw(next.message);
      }
      result := next.value;
      i := i + 1;
    }
    assert entities[..i] == entities;
    var companies := BuildCompanyMap(entities);
    var exps := FillCompanies(result.experience, companies);
    result := result.(experience := exps);
    if |exps| > 0 {
      var current := FirstPresent(exps);
      result := result.(currentCompany := match current case Some(k) => exps[k].company case None => exps[0].company);
    }
    return Ok(result);
  }

  // ---------------------------------------------------------------------------
  // What `extractProfile` promises

  /** A position as the entity loop keeps it. */
  predicate GoodPosition(x: Experience) {
    |x.description| <= PositionDescriptionCap && x.endDate != "" && (Truthy(x.title) || Truthy(x.company))
  }

  /** What every state of the entity loop satisfies. */
  predicate GoodProfile(r: ProfileResult) {
    && r.summary.Str? && |r.summary.s| <= SummaryCap
    && (forall k :: 0 <= k < |r.experience| ==> GoodPosition(r.experience[k]))
    && (forall k :: 0 <= k < |r.education| ==> Truthy(r.education[k].school))
  }

  lemma BasicsKeepGood(r: ProfileResult, e: Json, t: Json)
    requires GoodProfile(r) && WithBasics(r, e, t).Ok?
    ensures GoodProfile(WithBasics(r, e, t).value)
  {
  }

  lemma PositionKeepsGood(r: ProfileResult, e: Json, t: Json)
    requires GoodProfile(r) && WithPosition(r, e, t).Ok?
    ensures GoodProfile(WithPosition(r, e, t).value)
  {
    if IsType(t, PositionDash, PositionLegacy) {
      var exp := PositionOf(e).value;
      if Truthy(exp.title) || Truthy(exp.company) {
        assert GoodPosition(exp);
        var q := r.(experience := r.experience + [exp]);
        assert forall k :: 0 <= k < |q.experience| ==> GoodPosition(q.experience[k]) by {
          forall k | 0 <= k < |q.experience| ensures GoodPosition(q.experience[k]) {
            if k < |r.experience| { assert q.experience[k] == r.experience[k]; }
          }
        }
      }
    }
  }

  lemma EducationKeepsGood(r: ProfileResult, e: Json, t: Json)
    requires GoodProfile(r)
    ensures GoodProfile(WithEducation(r, e, t))
  {
    var q := WithEducation(r, e, t);
    forall k | 0 <= k < |q.education| ensures Truthy(q.education[k].school) {
      if k < |r.education| { assert q.education[k] == r.education[k]; }
    }
  }

  lemma EntityStepKeepsGood(r: ProfileResult, e: Json)
    requires GoodProfile(r) && EntityStep(r, e).Ok?
    ensures GoodProfile(EntityStep(r, e).value)
  {
    var t := Get(e, "$type").value;
    var r1 := WithBasics(r, e, t).value;
    BasicsKeepGood(r, e, t);
    var r2 := WithMini(r1, e, t);
    assert GoodProfile(r2);
    var r3 := WithPosition(r2, e, t).value;
    PositionKeepsGood(r2, e, t);
    var r4 := WithEducation(r3, e, t);
    EducationKeepsGood(r3, e, t);
    assert EntityStep(r, e).value == WithConnections(r4, e, t);
  }

  lemma ScanKeepsGood(entities: seq<Json>)
    ensures Loop(entities, EmptyProfile(), EntityStep).Ok? ==>
            GoodProfile(Loop(entities, EmptyProfile(), EntityStep).value)
  {
    forall r, e | GoodProfile(r) && EntityStep(r, e).Ok?
      ensures GoodProfile(EntityStep(r, e).value)
    {
      EntityStepKeepsGood(r, e);
    }
    LoopInvariant(entities, EmptyProfile(), EntityStep, GoodProfile);
  }

  /** The summary never exceeds 1000 characters; every kept position has a
      title or a company, an end date ("Present" when the API gives none) and a
      description of at most 300 characters; every kept school has a name. */
  lemma ProfileWellFormed(apiData: Json)
    ensures ProfileOf(apiData).Ok? ==> GoodProfile(ProfileOf(apiData).value)
  {
    var included := Get(apiData, "included");
    if included.Ok? {
      var it := Iterate(Or(included.value, Arr([])), "included");
      if it.Ok? {
        var entities := it.value;
        ScanKeepsGood(entities);
        var scanned := Loop(entities, EmptyProfile(), EntityStep);
        if scanned.Ok? {
          var m := CompanyMap(entities);
          CompanyNamesTruthy(entities);
          var exps := Filled(scanned.value.experience, m);
          assert forall k :: 0 <= k < |exps| ==> GoodPosition(exps[k]) by {
            forall k | 0 <= k < |exps| ensures GoodPosition(exps[k]) {
              assert GoodPosition(scanned.value.experience[k]);
              if m != [] { assert Truthy(m[0].1); }
            }
          }
        }
      }
    }
  }

  /** No block of the entity loop writes the current company. */
  lemma EntityStepKeepsCompany(r: ProfileResult, e: Json)
    ensures EntityStep(r, e).Ok? ==> EntityStep(r, e).value.currentCompany == r.currentCompany
  {
    if EntityStep(r, e).Ok? {
      var t := Get(e, "$type").value;
      var r1 := WithBasics(r, e, t).value;
      var r2 := WithMini(r1, e, t);
      var r3 := WithPosition(r2, e, t).value;
      assert r3.currentCompany == r2.currentCompany == r.currentCompany;
      assert EntityStep(r, e).value == WithConnections(WithEducation(r3, e, t), e, t);
    }
  }

  /** After the entity loop the current company is still the initial `""`. */
  lemma ScanKeepsNoCompany(entities: seq<Json>)
    ensures Loop(entities, EmptyProfile(), EntityStep).Ok? ==>
            Loop(entities, EmptyProfile(), EntityStep).value.currentCompany == Str("")
  {
    var p := (r: ProfileResult) => r.currentCompany == Str("");
    forall r, e | p(r) && EntityStep(r, e).Ok?
      ensures p(EntityStep(r, e).value)
    {
      EntityStepKeepsCompany(r, e);
    }
    LoopInvariant(entities, EmptyProfile(), EntityStep, p);
  }

  /** The current company is the company of the first position still held
      (end date "Present"), otherwise of the first position listed; a profile
      without positions keeps the initial `""`. */
  lemma ProfileCurrentCompany(apiData: Json)
    requires ProfileOf(apiData).Ok?
    ensures var exps := ProfileOf(apiData).value.experience;
            var current := ProfileOf(apiData).value.currentCompany;
            (|exps| == 0 ==> current == Str("")) &&
            (|exps| > 0 ==>
              || (exists k :: 0 <= k < |exps| && exps[k].endDate == "Present" &&
                             (forall j :: 0 <= j < k ==> exps[j].endDate != "Present") && current == exps[k].company)
              || ((forall j :: 0 <= j < |exps| ==> exps[j].endDate != "Present") && current == exps[0].company))
  {
    var exps := ProfileOf(apiData).value.experience;
    if |exps| == 0 {
      var entities := Iterate(Or(Get(apiData, "included").value, Arr([])), "included").value;
      ScanKeepsNoCompany(entities);
    } else {
      match FirstPresent(exps)
      case Some(k) => assert exps[k].endDate == "Present";
      case None =>
    }
  }

  /** A position without a company name takes the first company the API lists,
      and one with a name keeps it. */
  lemma FilledCompanies(exps: seq<Experience>, m: Entries, k: nat)
    requires k < |exps|
    ensures Truthy(exps[k].company) ==> Filled(exps, m)[k] == exps[k]
    ensures !Truthy(exps[k].company) && m != [] ==> Filled(exps, m)[k] == exps[k].(company := m[0].1)
    ensures m == [] ==> Filled(exps, m)[k] == exps[k]
  {
  }

  // ---------------------------------------------------------------------------
  // Skills

  /** One iteration of the `elements` loop: `el.name || el.skill?.name || ""`,
      kept when non-empty. Reading `name` of a `null` element throws. */
  function ElementSkill(skills: seq<Json>, el: Json): Result<seq<Json>> {
    var n :- Get(el, "name");
    var name := Or(Or(n, OptGet(OptGet(el, "skill"), "name")), Str(""));
    Ok(if Truthy(name) then skills + [name] else skills)
  }

  /** One iteration of the `included` loop: the name of a skill entity. */
  function IncludedSkill(skills: seq<Json>, e: Json): Result<seq<Json>> {
    var t :- Get(e, "$type");
    var name := OptGet(e, "name");
    Ok(if IsType(t, SkillLegacy, SkillDash) && Truthy(name) then skills + [name] else skills)
  }

  /** `extractSkills(apiData)` as a value: the element names first, and only when
      there are none the skill entities of `included`. */
  function SkillsOf(apiData: Json): Result<seq<Json>> {
    var inc :- Get(apiData, "included");
    var included := Or(Or(inc, OptGet(apiData, "data")), Arr([]));
    var elements := Or(Or(OptGet(OptGet(apiData, "data"), "elements"), OptGet(apiData, "elements")), Arr([]));
    var els :- Iterate(elements, "elements");
    var named :- Loop(els, [], ElementSkill);
    if |named| > 0 then Ok(named)
    else Loop(if included.Arr? then included.elems else [], [], IncludedSkill)
  }

  predicate AllTruthy(vs: seq<Json>) {
    forall k :: 0 <= k < |vs| ==> Truthy(vs[k])
  }

  /** Every skill is a non-empty name. */
  lemma SkillsTruthy(apiData: Json)
    ensures SkillsOf(apiData).Ok? ==> AllTruthy(SkillsOf(apiData).value)
  {
    forall s, e | AllTruthy(s) && ElementSkill(s, e).Ok? ensures AllTruthy(ElementSkill(s, e).value) {
    }
    forall s, e | AllTruthy(s) && IncludedSkill(s, e).Ok? ensures AllTruthy(IncludedSkill(s, e).value) {
    }
    var inc := Get(apiData, "included");
    if inc.Ok? {
      var included := Or(Or(inc.value, OptGet(apiData, "data")), Arr([]));
      var elements := Or(Or(OptGet(OptGet(apiData, "data"), "elements"), OptGet(apiData, "elements")), Arr([]));
      var els := Iterate(elements, "elements");
      if els.Ok? {
        LoopInvariant(els.value, [], ElementSkill, AllTruthy);
        LoopInvariant(if included.Arr? then included.elems else [], [], IncludedSkill, AllTruthy);
      }
    }
  }

  /** `extractSkills(apiData)` */
  method ExtractSkills(apiData: Json) returns (res: Result<seq<Json>>)
    ensures res == SkillsOf(apiData)
  {
    var inc := Get(apiData, "included");
    if inc.Throw? {
      return Throw(inc.message);
    }
    var included := Or(Or(inc.value, OptGet(apiData, "data")), Arr([]));
    var elements := Or(Or(OptGet(OptGet(apiData, "data"), "elements"), OptGet(apiData, "elements")), Arr([]));
    var it := Iterate(elements, "elements");
    if it.Throw? {
      return Throw(it.message);
    }
    var els := it.value;
    var skills: seq<Json> := [];
    var i := 0;
    while i < |els|
      invariant 0 <= i <= |els|
      invariant Loop(els[..i], [], ElementSkill) == Ok(skills)
    {
      LoopSnoc(els, i, [], ElementSkill, skills);
      var n := Get(els[i], "name");
      if n.Throw? {
        LoopStops(els, i + 1, [], ElementSkill, n.message);
        return Throw(n.message);
      }
      var name := Or(Or(n.value, OptGet(OptGet(els[i], "skill"), "name")), Str(""));
      if Truthy(name) {
        skills := skills + [name];
      }
      i := i + 1;
    }
    assert els[..i] == els;
    if |skills| == 0 {
      var entities := if included.Arr? then included.elems else [];
      var j := 0;
      while j < |entities|
        invariant 0 <= j <= |entities|
        invariant Loop(entities[..j], [], IncludedSkill) == Ok(skills)
      {
        LoopSnoc(entities, j, [], IncludedSkill, skills);
        var t := Get(entities[j], "$type");
        if t.Throw? {
          LoopStops(entities, j + 1, [], IncludedSkill, t.message);
          return Throw(t.message);
        }
        var name := OptGet(entities[j], "name");
        if IsType(t.value, SkillLegacy, SkillDash) && Truthy(name) {
          skills := skills + [name];
        }
        j := j + 1;
      }
      assert entities[..j] == entities;
    }
    return Ok(skills);
  }

  // ---------------------------------------------------------------------------
  // Contact info

  /** `w.url || w.name || ""`; reading `url` of a `null` entry throws. */
  function WebsiteOf(w: Json): (r: Result<Json>)
    ensures r.Ok? ==> r.value == Or(Or(OptGet(w, "url"), OptGet(w, "name")), Str(""))
  {
    var url :- Get(w, "url");
    Ok(Or(Or(url, OptGet(w, "name")), Str("")))
  }

  /** The contact-info block of `scrapeLinkedInProfile`: email, phones and
      Twitter handles joined with ", ", websites and the birthday as
      "month/day". A list that is not an array has no `map` and throws, and so
      does an entry that is `null`. */
  function ApplyContactInfo(c: Contact, ci: Json): (r: Result<Contact>)
    ensures r.Ok? ==> r.value.(email := c.email, phone := c.phone, twitter := c.twitter,
                               websites := c.websites, birthday := c.birthday) == c
    ensures r.Ok? ==> r.value.email == OrEmpty(OptGet(ci, "emailAddress"))
    ensures r.Ok? ==> r.value.phone.Str? && r.value.twitter.Str? && r.value.birthday.Str?
    ensures Nullish(ci) ==> r.Throw?
  {
    var email :- Get(ci, "emailAddress");
    var phones :- ArrayElems(Or(OptGet(ci, "phoneNumbers"), Arr([])), "(ci.phoneNumbers || [])");
    var numbers :- MapValues(phones, p => Get(p, "number"));
    var handles :- ArrayElems(Or(OptGet(ci, "twitterHandles"), Arr([])), "(ci.twitterHandles || [])");
    var names :- MapValues(handles, t => Get(t, "name"));
    var sites :- ArrayElems(Or(OptGet(ci, "websites"), Arr([])), "(ci.websites || [])");
    var urls :- MapValues(sites, WebsiteOf);
    var birth := OptGet(ci, "birthDateOn");
    Ok(c.(email := OrEmpty(email),
          phone := Str(JoinValues(numbers, ", ")),
          twitter := Str(JoinValues(names, ", ")),
          websites := urls,
          birthday := Str(if Truthy(birth) then ToStr(OptGet(birth, "month")) + "/" + ToStr(OptGet(birth, "day"))
                          else "")))
  }

  /** There is one website per entry of `ci.websites`, each its URL, else its
      name, else `""`. */
  lemma ContactInfoWebsites(c: Contact, ci: Json)
    requires ApplyContactInfo(c, ci).Ok?
    ensures var sites := if Truthy(OptGet(ci, "websites")) then OptGet(ci, "websites").elems else [];
            var ws := ApplyContactInfo(c, ci).value.websites;
            |ws| == |sites| &&
            forall k :: 0 <= k < |ws| ==> ws[k] == Or(Or(OptGet(sites[k], "url"), OptGet(sites[k], "name")), Str(""))
  {
    var sites := ArrayElems(Or(OptGet(ci, "websites"), Arr([])), "(ci.websites || [])").value;
    MapValuesOk(sites, WebsiteOf);
  }

  /** A `phoneNumbers` value that is neither falsy nor an array makes the block throw. */
  lemma ContactInfoRejectsPhoneObject(c: Contact, ci: Json)
    requires !Nullish(ci) && Truthy(OptGet(ci, "phoneNumbers")) && !OptGet(ci, "phoneNumbers").Arr?
    ensures ApplyContactInfo(c, ci).Throw?
  {
  }

  // ---------------------------------------------------------------------------
  // Falling back to the page markup

  const ContactKeys: seq<string> :=
    ["name", "title", "email", "phone", "company", "location", "profileUrl", "about", "connections",
     "experience", "education", "skills", "websites", "twitter", "birthday"]

  /** The keys whose values are strings (or other scalars) rather than arrays. */
  const ScalarKeys: seq<string> :=
    ["name", "title", "email", "phone", "company", "location", "profileUrl", "about", "connections",
     "twitter", "birthday"]

  /** `contact[key]` for the scalar keys; `undefined` for any other key. */
  function Field(c: Contact, key: string): Json {
    if key == "name" then c.name
    else if key == "title" then c.title
    else if key == "email" then c.email
    else if key == "phone" then c.phone
    else if key == "company" then c.company
    else if key == "location" then c.location
    else if key == "profileUrl" then c.profileUrl
    else if key == "about" then c.about
    else if key == "connections" then c.connections
    else if key == "twitter" then c.twitter
    else if key == "birthday" then c.birthday
    else Undefined
  }

  /** `contact[key] = v` for the scalar keys. */
  function SetField(c: Contact, key: string, v: Json): (r: Contact)
    ensures key in ScalarKeys ==> Field(r, key) == v
    ensures forall k :: k != key ==> Field(r, k) == Field(c, k)
    ensures r.experience == c.experience && r.education == c.education && r.skills == c.skills &&
            r.websites == c.websites
  {
    if key == "name" then c.(name := v)
    else if key == "title" then c.(title := v)
    else if key == "email" then c.(email := v)
    else if key == "phone" then c.(phone := v)
    else if key == "company" then c.(company := v)
    else if key == "location" then c.(location := v)
    else if key == "profileUrl" then c.(profileUrl := v)
    else if key == "about" then c.(about := v)
    else if key == "connections" then c.(connections := v)
    else if key == "twitter" then c.(twitter := v)
    else if key == "birthday" then c.(birthday := v)
    else c
  }

  /** The truthiness of `contact[key]`: the list-valued keys hold arrays, and
      an array is truthy even when empty. */
  predicate FieldTruthy(c: Contact, key: string) {
    if key in ScalarKeys then Truthy(Field(c, key)) else true
  }

  /** One iteration of the fallback: `if (domData[key] && !contact[key])
      contact[key] = domData[key]`. An array field is never replaced. */
  function MergeField(c: Contact, dom: Contact, key: string): Contact {
    if FieldTruthy(dom, key) && !FieldTruthy(c, key) then SetField(c, key, Field(dom, key)) else c
  }

  function MergeKeys(c: Contact, dom: Contact, keys: seq<string>): Contact
    decreases |keys|
  {
    if keys == [] then c else MergeField(MergeKeys(c, dom, keys[..|keys| - 1]), dom, keys[|keys| - 1])
  }

  /** The fallback over every key of the markup record, in its key order. */
  function MergeDom(c: Contact, dom: Contact): Contact {
    MergeKeys(c, dom, ContactKeys)
  }

  /** The value a scalar field ends with: the markup's value fills a falsy field. */
  function Pick(a: Json, b: Json): Json {
    if Truthy(b) && !Truthy(a) then b else a
  }

  lemma {:induction false} MergeKeysFields(c: Contact, dom: Contact, keys: seq<string>, k: string)
    requires k in ScalarKeys
    decreases |keys|
    ensures Field(MergeKeys(c, dom, keys), k) == if k in keys then Pick(Field(c, k), Field(dom, k)) else Field(c, k)
    ensures var m := MergeKeys(c, dom, keys);
            m.experience == c.experience && m.education == c.education && m.skills == c.skills &&
            m.websites == c.websites
  {
    if keys != [] {
      var init := keys[..|keys| - 1];
      MergeKeysFields(c, dom, init, k);
      assert keys == init + [keys[|keys| - 1]];
    }
  }

  /** After the fallback a scalar field keeps a truthy API value and takes the
      markup's value otherwise... */
  lemma MergeDomField(c: Contact, dom: Contact, k: string)
    requires k in ScalarKeys
    ensures Field(MergeDom(c, dom), k) == Pick(Field(c, k), Field(dom, k))
  {
    MergeKeysFields(c, dom, ContactKeys, k);
  }

  /** ...and the list fields are the API's. */
  lemma MergeDomLists(c: Contact, dom: Contact)
    ensures var m := MergeDom(c, dom);
            m.experience == c.experience && m.education == c.education && m.skills == c.skills &&
            m.websites == c.websites
  {
    MergeKeysFields(c, dom, ContactKeys, "name");
  }

  /** `Object.keys(domData).forEach(...)` */
  method MergeDomInto(c: Contact, dom: Contact) returns (r: Contact)
    ensures r == MergeDom(c, dom)
  {
    r := c;
    for i := 0 to |ContactKeys|
      invariant r == MergeKeys(c, dom, ContactKeys[..i])
    {
      var key := ContactKeys[i];
      assert ContactKeys[..i + 1][..i] == ContactKeys[..i];
      if FieldTruthy(dom, key) && !FieldTruthy(r, key) {
        r := SetField(r, key, Field(dom, key));
      }
    }
    assert ContactKeys[..|ContactKeys|] == ContactKeys;
  }

  // ---------------------------------------------------------------------------
  // A profile page

  const ProfileUrlPrefix: string := "https://www.linkedin.com/in/"

  /** The three API responses; without a CSRF token no request is sent and
      each one is `null`. */
  function Fetched(page: Snapshot): (v: Voyager)
    ensures CsrfToken(page.cookie) == "" ==> v == Voyager(Null, Null, Null)
  {
    if CsrfToken(page.cookie) == "" then Voyager(Null, Null, Null) else page.voyager
  }

  /** The profile block: the API profile's fields copied into the contact. */
  function WithProfile(c: Contact, p: ProfileResult): Contact {
    c.(name := p.name, title := p.headline, location := p.location, about := p.summary,
       company := p.currentCompany, experience := p.experience, education := p.education,
       connections := p.connectionCount)
  }

  /** The profile block: skipped for a falsy answer; otherwise `extractProfile`
      runs, its exception is the block's, and its eight fields replace the
      contact's while every other field stays. */
  function ProfileStage(c: Contact, data: Json): (r: Result<Contact>)
    ensures !Truthy(data) ==> r == Ok(c)
    ensures Truthy(data) && ProfileOf(data).Throw? ==> r == Throw(ProfileOf(data).message)
    ensures Truthy(data) && ProfileOf(data).Ok? ==>
              var p := ProfileOf(data).value;
              r.Ok? && r.value.name == p.name && r.value.title == p.headline && r.value.location == p.location &&
              r.value.about == p.summary && r.value.company == p.currentCompany &&
              r.value.experience == p.experience && r.value.education == p.education &&
              r.value.connections == p.connectionCount &&
              r.value.(name := c.name, title := c.title, location := c.location, about := c.about,
                       company := c.company, experience := c.experience, education := c.education,
                       connections := c.connections) == c
  {
    if !Truthy(data) then Ok(c)
    else
      var p :- ProfileOf(data);
      Ok(WithProfile(c, p))
  }

  /** The contact-info block: it runs only when the answer and its `data` are
      both truthy, and then its outcome is the stage's. */
  function ContactInfoStage(c: Contact, data: Json): (r: Result<Contact>)
    ensures !(Truthy(data) && Truthy(OptGet(data, "data"))) ==> r == Ok(c)
    ensures Truthy(data) && Truthy(OptGet(data, "data")) ==> r == ApplyContactInfo(c, OptGet(data, "data"))
    ensures r.Ok? ==> r.value.name == c.name && r.value.profileUrl == c.profileUrl && r.value.skills == c.skills
  {
    if Truthy(data) && Truthy(OptGet(data, "data")) then ApplyContactInfo(c, OptGet(data, "data")) else Ok(c)
  }

  /** The skills block: skipped for a falsy answer; otherwise `extractSkills`
      runs, its exception is the block's, and only the skills change. */
  function SkillsStage(c: Contact, data: Json): (r: Result<Contact>)
    ensures !Truthy(data) ==> r == Ok(c)
    ensures Truthy(data) && SkillsOf(data).Throw? ==> r == Throw(SkillsOf(data).message)
    ensures Truthy(data) && SkillsOf(data).Ok? ==>
              r.Ok? && r.value.skills == SkillsOf(data).value && r.value.(skills := c.skills) == c
  {
    if !Truthy(data) then Ok(c)
    else
      var skills :- SkillsOf(data);
      Ok(c.(skills := skills))
  }

  /** `scrapeLinkedInProfile(username)` as a value: the blank contact with the
      canonical profile URL, then the profile, the contact info and the skills
      from the API, then the markup when the API gave no name. An exception of
      the API blocks ends the scrape; a contact the API named is returned as
      the API filled it; an unnamed one has its empty fields filled from the
      markup. */
  function ProfileContact(username: string, page: Snapshot): (r: Result<Contact>)
    ensures r.Ok? ==> r.value.profileUrl == Str(ProfileUrlPrefix + username)
    ensures ApiContact(username, Fetched(page)).Throw? ==> r == ApiContact(username, Fetched(page))
    ensures ApiContact(username, Fetched(page)).Ok? && Truthy(ApiContact(username, Fetched(page)).value.name) ==>
              r == ApiContact(username, Fetched(page))
    ensures ApiContact(username, Fetched(page)).Ok? && !Truthy(ApiContact(username, Fetched(page)).value.name) ==>
              r == Ok(MergeDom(ApiContact(username, Fetched(page)).value, DomContact(page)))
  {
    var c :- ApiContact(username, Fetched(page));
    Ok(Fallback(c, page))
  }

  /** The contact as far as the three API responses fill it: the blank
      contact with the profile URL when all three are falsy; the name only
      from the profile answer and the skills only from the skills answer. */
  function ApiContact(username: string, api: Voyager): (r: Result<Contact>)
    ensures r.Ok? ==> r.value.profileUrl == Str(ProfileUrlPrefix + username)
    ensures !Truthy(api.profile) && !Truthy(api.contactInfo) && !Truthy(api.skills) ==>
              r == Ok(BlankContact().(profileUrl := Str(ProfileUrlPrefix + username)))
    ensures Truthy(api.profile) && ProfileOf(api.profile).Throw? ==> r == Throw(ProfileOf(api.profile).message)
    ensures r.Ok? ==> r.value.name == (if Truthy(api.profile) then ProfileOf(api.profile).value.name else Str(""))
    ensures r.Ok? && Truthy(api.skills) ==> SkillsOf(api.skills).Ok? && r.value.skills == SkillsOf(api.skills).value
    ensures r.Ok? && !Truthy(api.skills) ==> r.value.skills == []
  {
    var c0 := BlankContact().(profileUrl := Str(ProfileUrlPrefix + username));
    var c1 :- ProfileStage(c0, api.profile);
    var c2 :- ContactInfoStage(c1, api.contactInfo);
    SkillsStage(c2, api.skills)
  }

  /** When the API gave no name, every scalar field the markup has fills the
      empty one and the lists stay; a named contact is left as it is. */
  function Fallback(c: Contact, page: Snapshot): (r: Contact)
    ensures Truthy(c.name) ==> r == c
    ensures !Truthy(c.name) ==> r == MergeDom(c, DomContact(page))
    ensures !Truthy(c.name) ==>
              forall k :: k in ScalarKeys ==> Field(r, k) == Pick(Field(c, k), Field(DomContact(page), k))
    ensures r.experience == c.experience && r.education == c.education && r.skills == c.skills &&
            r.websites == c.websites
    ensures Truthy(c.profileUrl) ==> r.profileUrl == c.profileUrl
  {
    if Truthy(c.name) then c
    else
      var dom := DomContact(page);
      assert forall k :: k in ScalarKeys ==> Field(MergeDom(c, dom), k) == Pick(Field(c, k), Field(dom, k)) by {
        forall k | k in ScalarKeys
          ensures Field(MergeDom(c, dom), k) == Pick(Field(c, k), Field(dom, k))
        {
          MergeDomField(c, dom, k);
        }
      }
      MergeDomField(c, dom, "profileUrl");
      MergeDomLists(c, dom);
      MergeDom(c, dom)
  }

  /** When the API names the contact, the page markup plays no part: two
      pages with the same API answers give the same profile contact. */
  lemma NamedProfileIgnoresMarkup(username: string, page: Snapshot, other: Snapshot)
    requires Fetched(page) == Fetched(other)
    requires ApiContact(username, Fetched(page)).Ok? && Truthy(ApiContact(username, Fetched(page)).value.name)
    ensures ProfileContact(username, page) == ProfileContact(username, other) == ApiContact(username, Fetched(page))
  {
  }

  /** Without a CSRF token the contact is the blank one filled from the markup. */
  lemma NoTokenUsesMarkup(username: string, page: Snapshot)
    requires CsrfToken(page.cookie) == ""
    ensures ProfileContact(username, page) ==
            Ok(MergeDom(BlankContact().(profileUrl := Str(ProfileUrlPrefix + username)), DomContact(page)))
  {
  }

  /** `scrapeLinkedInProfile(username)` */
  method ScrapeProfile(username: string, page: Snapshot) returns (res: Result<Contact>)
    ensures res == ProfileContact(username, page)
  {
    var contact := FetchContact(username, Fetched(page));
    if contact.Throw? {
      return Throw(contact.message);
    }
    var c := contact.value;
    if !Truthy(c.name) {
      c := MergeDomInto(c, DomContact(page));
    }
    return Ok(c);
  }

  /** The API part of `scrapeLinkedInProfile(username)`. */
  method FetchContact(username: string, api: Voyager) returns (res: Result<Contact>)
    ensures res == ApiContact(username, api)
  {
    var contact := BlankContact().(profileUrl := Str(ProfileUrlPrefix + username));
    if Truthy(api.profile) {
      var profile := ExtractProfile(api.profile);
      if profile.Throw? {
        return Throw(profile.message);
      }
      contact := WithProfile(contact, profile.value);
    }
    ghost var c1 := contact;
    assert ProfileStage(BlankContact().(profileUrl := Str(ProfileUrlPrefix + username)), api.profile) == Ok(c1);
    if Truthy(api.contactInfo) && Truthy(OptGet(api.contactInfo, "data")) {
      var filled := ApplyContactInfo(contact, OptGet(api.contactInfo, "data"));
      if filled.Throw? {
        return Throw(filled.message);
      }
      contact := filled.value;
    }
    ghost var c2 := contact;
    assert ContactInfoStage(c1, api.contactInfo) == Ok(c2);
    if Truthy(api.skills) {
      var skills := ExtractSkills(api.skills);
      if skills.Throw? {
        return Throw(skills.message);
      }
      contact := contact.(skills := skills.value);
    }
    return Ok(contact);
  }

  // ---------------------------------------------------------------------------
  // Dispatch on the path

  const ProfilePrefix: string := "/in/"

  /** `path.split("/in/")[1].split("/")[0].split("?")[0]` on a profile path. */
  function Username(path: string): string
    requires StartsWith(path, ProfilePrefix)
  {
    BeforeFirst(BeforeFirst(BeforeFirst(AfterFirst(path, ProfilePrefix), ProfilePrefix), "/"), "?")
  }

  /** The username is the path segment after "/in/": it holds no '/' and no
      '?', and it ends at the end of the path or just before a '/' or a '?'. */
  lemma UsernameSegment(path: string)
    requires StartsWith(path, ProfilePrefix)
    ensures var u := Username(path);
            && StartsWith(path[|ProfilePrefix|..], u)
            && (forall k :: 0 <= k < |u| ==> u[k] != '/' && u[k] != '?')
            && (|ProfilePrefix| + |u| == |path| || path[|ProfilePrefix| + |u|] == '/' ||
                path[|ProfilePrefix| + |u|] == '?')
  {
    assert OccursAt(path, ProfilePrefix, 0);
    var rest := AfterFirst(path, ProfilePrefix);
    assert rest == path[|ProfilePrefix|..];
    var r1 := BeforeFirst(rest, ProfilePrefix);
    var r2 := BeforeFirst(r1, "/");
    var u := BeforeFirst(r2, "?");
    BeforeFirstStop(rest, ProfilePrefix);
    BeforeFirstStop(r1, "/");
    BeforeFirstStop(r2, "?");
    SegmentEndTrans(rest, r1, r2);
    SegmentEndTrans(rest, r2, u);
    BeforeFirstLacks(r1, '/');
    BeforeFirstLacks(r2, '?');
    assert forall k :: 0 <= k < |u| ==> u[k] == r2[k];
  }

  /** `u` is a prefix of `s` that ends at the end of `s` or just before a '/'
      or a '?'. */
  predicate SegmentEnd(s: string, u: string) {
    StartsWith(s, u) && (|u| == |s| || s[|u|] == '/' || s[|u|] == '?')
  }

  /** A segment end of a segment end of `a` is a segment end of `a`. */
  lemma SegmentEndTrans(a: string, b: string, c: string)
    requires SegmentEnd(a, b) && SegmentEnd(b, c)
    ensures SegmentEnd(a, c)
  {
    assert a[..|c|] == b[..|c|];
    if |c| < |b| {
      assert a[|c|] == b[|c|];
    }
  }

  /** `scrapeLinkedIn()` as a value: a profile path, then a search path, then
      a company path, then the markup of whatever page this is. */
  function LinkedInContacts(page: Snapshot): Result<seq<Contact>> {
    var path := page.location.pathname;
    if StartsWith(path, ProfilePrefix) then
      var contact :- ProfileContact(Username(path), page);
      Ok([contact])
    else if Contains(path, "/search/") then Ok(SearchContacts(page.searchCards))
    else if Contains(path, "/company/") then Ok([CompanyContact(page)])
    else Ok([DomContact(page)])
  }

  /** Every page but a search page yields exactly one contact. */
  lemma OneContactUnlessSearch(page: Snapshot)
    requires LinkedInContacts(page).Ok?
    requires StartsWith(page.location.pathname, ProfilePrefix) || !Contains(page.location.pathname, "/search/")
    ensures |LinkedInContacts(page).value| == 1
  {
  }

  /** A search page yields one contact per card with a usable name, never more
      than there are cards. */
  lemma SearchPageContacts(page: Snapshot)
    requires !StartsWith(page.location.pathname, ProfilePrefix) && Contains(page.location.pathname, "/search/")
    ensures LinkedInContacts(page) == Ok(SearchContacts(page.searchCards))
    ensures |LinkedInContacts(page).value| <= |page.searchCards|
  {
  }

  /** `scrapeLinkedIn()` */
  method ScrapeLinkedIn(page: Snapshot) returns (res: Result<seq<Contact>>)
    ensures res == LinkedInContacts(page)
  {
    var path := page.location.pathname;
    if StartsWith(path, ProfilePrefix) {
      var username := Username(path);
      var contact := ScrapeProfile(username, page);
      if contact.Throw? {
        return Throw(contact.message);
      }
      return Ok([contact.value]);
    }
    if Contains(path, "/search/") {
      var contacts := CollectSearchContacts(page.searchCards);
      return Ok(contacts);
    }
    if Contains(path, "/company/") {
      return Ok([CompanyContact(page)]);
    }
    return Ok([DomContact(page)]);
  }
}
