/** Contact enrichment (utils/enrichment.js): the choice of provider, the
    name split and the company-domain logic that decide, before any answer
    from a provider's API is read, whether a contact is refused with an
    error or which request is sent. The network answers a decision depends
    on are parameters; `extractDomain` (a `new URL` parse) is a parameter too. */
module Enrichment {
  import opened Common
  import opened Strings
  import opened JsValues
  import LinkedIn

  const NoKeyError: string := "No API key configured. Click ⚙ Settings to add one."
  const UnknownProviderError: string := "Unknown provider selected."
  const NoNameError: string := "No name available to search."
  const HunterNoDomainError: string :=
    "Could not find company domain. Try adding a website to the LinkedIn profile, or switch to Apollo.io."
  const SnovNoDomainError: string := "Cannot determine company domain for Snov.io."
  const SnovCredentialsError: string :=
    "Snov.io: For Snov.io, enter your Client ID as the API key and Client Secret after a colon (e.g., id:secret)"
  /** The head of the error a failure caught by `enrichWithSnov`'s `try` answers. */
  const SnovFailedPrefix: string := "Snov.io request failed: "

  /** The stored settings; a field the user never filled in is `""`. */
  datatype Settings = Settings(provider: string, apiKey: string)

  /** The request whose answer gives the email; reading that answer is not
      part of this model. */
  datatype Request =
    | HunterEmailFinder(domain: Json, firstName: string, lastName: string, apiKey: string)
    | ApolloMatch(firstName: string, lastName: string, organization: Json, linkedinUrl: Json, apiKey: string)
    // Snov's requests after the first token request: the second token
    // request with `clientId` and `clientSecret`, then the email finder for
    // `snovDomain` and the name.
    | SnovLookup(snovDomain: string, firstName: string, lastName: string, clientId: string, clientSecret: string)

  /** A contact is refused with an error, or its lookup request is sent. */
  datatype Step = Refuse(error: string) | Send(request: Request)

  /** How Snov's first token request ended: answered with an OK status,
      answered with another status, or rejected (the `fetch` promise failed
      with an error whose `message` is `reason`). */
  datatype TokenAnswer = TokenOk | TokenRefused | TokenRejected(reason: string)

  /** The provider answers the guards read: the `data.domain` of Hunter's
      domain search (`Undefined` when the call failed or found nothing), and
      how Snov's first token request ended. */
  datatype Answers = Answers(hunterDomain: Json, snovToken: TokenAnswer)

  // ---------------------------------------------------------------------------
  // Name and domain helpers

  datatype Name = Name(first: string, last: string)

  /** `(contact.name || "").trim().split(/\s+/)`, then the first piece and the
      rest joined by single spaces. A truthy name that is not text has no
      `trim` and throws. */
  function NameOf(name: Json): (r: Result<Name>)
    ensures r.Throw? <==> Truthy(name) && !name.Str?
  {
    var v := OrEmpty(name);
    if !v.Str? then Throw("(contact.name || \"\").trim is not a function")
    else
      var parts := SplitSpaces(Trim(v.s));
      Ok(Name(parts[0], Join(parts[1..], " ")))
  }

  /** The text of a name, `""` for a falsy one. */
  function NameText(name: Json): string {
    if name.Str? then name.s else ""
  }

  /** The first name is one whitespace-free word, empty exactly when the name
      is blank; with a last name, first and last separated by one space are
      the name trimmed and with its whitespace runs collapsed. */
  lemma NameSplit(name: Json)
    requires NameOf(name).Ok?
    ensures var n := NameOf(name).value;
      (forall j :: 0 <= j < |n.first| ==> !IsSpace(n.first[j])) &&
      (n.first == "" <==> Trim(NameText(name)) == "") &&
      Squish(NameText(name)) == (if n.last == "" then n.first else n.first + " " + n.last)
  {
    var t := Trim(NameText(name));
    var parts := SplitSpaces(t);
    assert NameOf(name).value == Name(parts[0], Join(parts[1..], " "));
    SplitSpacesPieces(t);
    JoinSplitSpaces(t);
    if t != [] {
      SplitSpacesFirst(t);
      SplitSpacesLast(t);
    }
    if |parts| > 1 {
      JoinAppend(parts, " ");
      JoinEndsWithLast(parts[1..], " ");
      assert parts[1..][|parts[1..]| - 1] == parts[|parts| - 1];
    }
  }

  /** `extractDomain(contact.websites[0])` when there is a first website.
      Reading `startsWith` of a value that is not text throws inside the
      `try`, which answers `""`. */
  function WebsiteDomain(contact: LinkedIn.Contact, extractDomain: string -> string): string {
    if |contact.websites| > 0 && contact.websites[0].Str? then extractDomain(contact.websites[0].s) else ""
  }

  predicate IsDomainChar(c: char) {
    'a' <= c <= 'z' || '0' <= c <= '9'
  }

  /** `s.replace(/[^a-z0-9]/g, "")` */
  function KeepDomainChars(s: string): (r: string)
    ensures |r| <= |s|
    ensures forall j :: 0 <= j < |r| ==> IsDomainChar(r[j])
  {
    if s == [] then ""
    else (if IsDomainChar(s[0]) then [s[0]] else "") + KeepDomainChars(s[1..])
  }

  /** Text made only of domain characters is kept whole. */
  lemma {:induction false} KeepDomainCharsIdentity(s: string)
    requires forall j :: 0 <= j < |s| ==> IsDomainChar(s[j])
    decreases |s|
    ensures KeepDomainChars(s) == s
  {
    if s != [] {
      KeepDomainCharsIdentity(s[1..]);
    }
  }

  /** Snov's guess from a company name: lower-cased, stripped of everything
      outside `[a-z0-9]`, with `.com` appended. */
  function DomainGuess(company: string): (r: string)
    ensures |r| >= 4 && r[|r| - 4..] == ".com"
    ensures forall j :: 0 <= j < |r| - 4 ==> IsDomainChar(r[j])
  {
    KeepDomainChars(ToLowerAscii(company)) + ".com"
  }

  /** A company name already made of lower-case letters and digits becomes
      that name with `.com` appended. */
  lemma DomainGuessOfPlainName(company: string)
    requires forall j :: 0 <= j < |company| ==> IsDomainChar(company[j])
    ensures DomainGuess(company) == company + ".com"
  {
    assert ToLowerAscii(company) == company;
    KeepDomainCharsIdentity(company);
  }

  /** `[clientId, clientSecret] = apiKey.split(":")` when the key holds a
      colon: the first two pieces; otherwise the whole key is the id and the
      secret is empty. */
  function KeySplit(apiKey: string): (r: (string, string))
    ensures ':' !in r.0 && ':' !in r.1
    ensures !Contains(apiKey, ":") ==> r == (apiKey, "")
  {
    if Contains(apiKey, ":") then
      var rest := AfterFirst(apiKey, ":");
      BeforeFirstLacks(apiKey, ':');
      BeforeFirstLacks(rest, ':');
      (BeforeFirst(apiKey, ":"), BeforeFirst(rest, ":"))
    else
      ContainsChar(apiKey, ':');
      (apiKey, "")
  }

  /** The same text split at two colon-free heads is split at the same place. */
  lemma SplitAtColon(a: string, b: string, c: string, d: string)
    requires ':' !in a && ':' !in c
    requires a + ":" + b == c + ":" + d
    ensures a == c && b == d
  {
    var s := a + ":" + b;
    assert forall k :: 0 <= k < |a| ==> s[k] == a[k] && a[k] in a;
    assert forall k :: 0 <= k < |c| ==> s[k] == c[k] && c[k] in c;
    assert s[|a|] == ':' && s[|c|] == ':';
    assert |a| == |c|;
    assert a == s[..|a|] == c;
    assert b == s[|a| + 1..] == d;
  }

  /** Text that starts with a colon-free head and a colon: that head comes
      before the first colon, and the rest after it. */
  lemma FirstColon(x: string, y: string)
    requires ':' !in x
    ensures BeforeFirst(x + ":" + y, ":") == x
    ensures AfterFirst(x + ":" + y, ":") == y
  {
    var s := x + ":" + y;
    assert OccursAt(s, ":", |x|);
    var r := BeforeFirst(s, ":");
    BeforeFirstLacks(s, ':');
    assert ':' !in r;
    assert OccursAt(s, ":", |r|);
    assert s == r + ":" + s[|r| + 1..];
    SplitAtColon(x, y, r, s[|r| + 1..]);
  }

  /** A key whose id is followed by a colon gives that id, and as the secret
      the text up to the next colon, if any. */
  lemma KeySplitAt(id: string, rest: string)
    requires ':' !in id
    ensures KeySplit(id + ":" + rest) == (id, BeforeFirst(rest, ":"))
  {
    assert OccursAt(id + ":" + rest, ":", |id|);
    FirstColon(id, rest);
  }

  /** A key with one colon splits into the id before it and the secret after it. */
  lemma KeySplitOneColon(id: string, secret: string)
    requires ':' !in id && ':' !in secret
    ensures KeySplit(id + ":" + secret) == (id, secret)
  {
    KeySplitAt(id, secret);
    NotContainsWhenCharAbsent(secret, ":", 0);
  }

  /** A key with a second colon loses the text from that colon on. */
  lemma KeySplitLaterColon(id: string, secret: string, more: string)
    requires ':' !in id && ':' !in secret
    ensures KeySplit(id + ":" + secret + ":" + more) == (id, secret)
  {
    assert id + ":" + secret + ":" + more == id + ":" + (secret + ":" + more);
    KeySplitAt(id, secret + ":" + more);
    FirstColon(secret, more);
  }

  // ---------------------------------------------------------------------------
  // The providers

  /** `enrichWithHunter` up to the email-finder request. */
  function HunterStep(contact: LinkedIn.Contact, apiKey: string, extractDomain: string -> string, answers: Answers): Result<Step> {
    var n :- NameOf(contact.name);
    if n.first == "" then Ok(Refuse(NoNameError))
    else
      var site := Str(WebsiteDomain(contact, extractDomain));
      var domain := if !Truthy(site) && Truthy(contact.company) && Truthy(answers.hunterDomain) then answers.hunterDomain else site;
      if !Truthy(domain) then Ok(Refuse(HunterNoDomainError))
      else Ok(Send(HunterEmailFinder(domain, n.first, n.last, apiKey)))
  }

  /** `enrichWithApollo` up to the people-match request. */
  function ApolloStep(contact: LinkedIn.Contact, apiKey: string): Result<Step> {
    var n :- NameOf(contact.name);
    if n.first == "" then Ok(Refuse(NoNameError))
    else Ok(Send(ApolloMatch(n.first, n.last, OrEmpty(contact.company), OrEmpty(contact.profileUrl), apiKey)))
  }

  /** The domain Snov searches: the first website's, else the guess from a
      truthy company name (one that is not text has no `toLowerCase`). */
  function SnovDomain(contact: LinkedIn.Contact, extractDomain: string -> string): Result<string> {
    var site := WebsiteDomain(contact, extractDomain);
    if site == "" && Truthy(contact.company) then
      if contact.company.Str? then Ok(DomainGuess(contact.company.s))
      else Throw("contact.company.toLowerCase is not a function")
    else Ok(site)
  }

  /** `enrichWithSnov` up to the email-finder request. */
  function SnovStep(contact: LinkedIn.Contact, apiKey: string, extractDomain: string -> string, answers: Answers): Result<Step> {
    var n :- NameOf(contact.name);
    if n.first == "" then Ok(Refuse(NoNameError))
    else
      var domain :- SnovDomain(contact, extractDomain);
      if domain == "" then Ok(Refuse(SnovNoDomainError))
      else if answers.snovToken.TokenRejected? then Ok(Refuse(SnovFailedPrefix + answers.snovToken.reason))
      else if answers.snovToken.TokenRefused? then Ok(Refuse(SnovCredentialsError))
      else
        var key := KeySplit(apiKey);
        Ok(Send(SnovLookup(domain, n.first, n.last, key.0, key.1)))
  }

  /** `enrichContact`: no settings, provider or key refuses; the three known
      providers dispatch; any other provider is refused. */
  function Enrich(contact: LinkedIn.Contact, settings: Option<Settings>, extractDomain: string -> string, answers: Answers): Result<Step> {
    match settings
    case None => Ok(Refuse(NoKeyError))
    case Some(s) =>
      if s.provider == "" || s.apiKey == "" then Ok(Refuse(NoKeyError))
      else if s.provider == "hunter" then HunterStep(contact, s.apiKey, extractDomain, answers)
      else if s.provider == "apollo" then ApolloStep(contact, s.apiKey)
      else if s.provider == "snov" then SnovStep(contact, s.apiKey, extractDomain, answers)
      else Ok(Refuse(UnknownProviderError))
  }

  // ---------------------------------------------------------------------------
  // The provider functions as the sequential chains they are

  method EnrichWithHunter(contact: LinkedIn.Contact, apiKey: string, extractDomain: string -> string, answers: Answers)
    returns (step: Result<Step>)
    ensures step == HunterStep(contact, apiKey, extractDomain, answers)
  {
    var n := NameOf(contact.name);
    if n.Throw? {
      return Throw(n.message);
    }
    var firstName := n.value.first;
    var lastName := n.value.last;
    if firstName == "" {
      return Ok(Refuse(NoNameError));
    }
    var domain := Str("");
    if |contact.websites| > 0 {
      domain := Str(WebsiteDomain(contact, extractDomain));
    }
    if !Truthy(domain) && Truthy(contact.company) {
      if Truthy(answers.hunterDomain) {
        domain := answers.hunterDomain;
      }
    }
    if !Truthy(domain) {
      return Ok(Refuse(HunterNoDomainError));
    }
    return Ok(Send(HunterEmailFinder(domain, firstName, lastName, apiKey)));
  }

  method EnrichWithSnov(contact: LinkedIn.Contact, apiKey: string, extractDomain: string -> string, answers: Answers)
    returns (step: Result<Step>)
    ensures step == SnovStep(contact, apiKey, extractDomain, answers)
  {
    var n := NameOf(contact.name);
    if n.Throw? {
      return Throw(n.message);
    }
    var firstName := n.value.first;
    var lastName := n.value.last;
    if firstName == "" {
      return Ok(Refuse(NoNameError));
    }
    var domain := "";
    if |contact.websites| > 0 {
      domain := WebsiteDomain(contact, extractDomain);
    }
    if domain == "" && Truthy(contact.company) {
      if !contact.company.Str? {
        return Throw("contact.company.toLowerCase is not a function");
      }
      domain := DomainGuess(contact.company.s);
    }
    if domain == "" {
      return Ok(Refuse(SnovNoDomainError));
    }
    match answers.snovToken {
      case TokenRejected(reason) =>
        return Ok(Refuse(SnovFailedPrefix + reason));
      case TokenRefused =>
        return Ok(Refuse(SnovCredentialsError));
      case TokenOk =>
    }
    var clientId, clientSecret := apiKey, "";
    if Contains(apiKey, ":") {
      var key := KeySplit(apiKey);
      clientId, clientSecret := key.0, key.1;
    }
    return Ok(Send(SnovLookup(domain, firstName, lastName, clientId, clientSecret)));
  }

  method EnrichContact(contact: LinkedIn.Contact, settings: Option<Settings>, extractDomain: string -> string, answers: Answers)
    returns (step: Result<Step>)
    ensures step == Enrich(contact, settings, extractDomain, answers)
  {
    if settings.None? || settings.value.provider == "" || settings.value.apiKey == "" {
      return Ok(Refuse(NoKeyError));
    }
    var provider, apiKey := settings.value.provider, settings.value.apiKey;
    if provider == "hunter" {
      step := EnrichWithHunter(contact, apiKey, extractDomain, answers);
    } else if provider == "apollo" {
      step := ApolloStep(contact, apiKey);
    } else if provider == "snov" {
      step := EnrichWithSnov(contact, apiKey, extractDomain, answers);
    } else {
      step := Ok(Refuse(UnknownProviderError));
    }
  }

  // ---------------------------------------------------------------------------
  // Properties

  /** Without settings, a provider or a key, the answer is the missing-key
      error and no request is sent. */
  lemma NoKeyNoRequest(contact: LinkedIn.Contact, settings: Option<Settings>, extractDomain: string -> string, answers: Answers)
    requires settings.None? || settings.value.provider == "" || settings.value.apiKey == ""
    ensures Enrich(contact, settings, extractDomain, answers) == Ok(Refuse(NoKeyError))
  {
  }

  /** The provider name is compared exactly; anything but the three names is
      refused as unknown. */
  lemma ProviderDispatch(contact: LinkedIn.Contact, s: Settings, extractDomain: string -> string, answers: Answers)
    requires s.provider != "" && s.apiKey != ""
    ensures var r := Enrich(contact, Some(s), extractDomain, answers);
      (s.provider == "hunter" ==> r == HunterStep(contact, s.apiKey, extractDomain, answers)) &&
      (s.provider == "apollo" ==> r == ApolloStep(contact, s.apiKey)) &&
      (s.provider == "snov" ==> r == SnovStep(contact, s.apiKey, extractDomain, answers)) &&
      (s.provider != "hunter" && s.provider != "apollo" && s.provider != "snov" ==> r == Ok(Refuse(UnknownProviderError)))
  {
  }

  /** Every provider refuses a blank name before any lookup. */
  lemma BlankNameRefused(contact: LinkedIn.Contact, apiKey: string, extractDomain: string -> string, answers: Answers)
    requires contact.name.Str? && Trim(contact.name.s) == ""
    ensures HunterStep(contact, apiKey, extractDomain, answers) == Ok(Refuse(NoNameError))
    ensures ApolloStep(contact, apiKey) == Ok(Refuse(NoNameError))
    ensures SnovStep(contact, apiKey, extractDomain, answers) == Ok(Refuse(NoNameError))
  {
    NameSplit(contact.name);
  }

  /** A falsy name counts as blank. */
  lemma MissingNameRefused(contact: LinkedIn.Contact, apiKey: string)
    requires !Truthy(contact.name)
    ensures ApolloStep(contact, apiKey) == Ok(Refuse(NoNameError))
  {
    assert Trim("") == "";
  }

  /** Hunter sends its email-finder request exactly when a domain came from
      the first website or, failing that, from the domain search for a
      truthy company; the request carries that domain. */
  lemma HunterNeedsDomain(contact: LinkedIn.Contact, apiKey: string, extractDomain: string -> string, answers: Answers)
    requires NameOf(contact.name).Ok? && NameOf(contact.name).value.first != ""
    ensures var r := HunterStep(contact, apiKey, extractDomain, answers);
      var site := WebsiteDomain(contact, extractDomain);
      r.Ok? &&
      (r.value == Refuse(HunterNoDomainError) <==>
         site == "" && (!Truthy(contact.company) || !Truthy(answers.hunterDomain))) &&
      (site != "" ==> r.value.Send? && r.value.request.domain == Str(site)) &&
      (site == "" && Truthy(contact.company) && Truthy(answers.hunterDomain) ==>
         r.value.Send? && r.value.request.domain == answers.hunterDomain)
  {
  }

  /** Snov's domain: the first website's when it has one; else the guess from
      a company name given as text; with neither, the domain error. */
  lemma SnovDomainChoice(contact: LinkedIn.Contact, apiKey: string, extractDomain: string -> string)
    requires NameOf(contact.name).Ok? && NameOf(contact.name).value.first != ""
    ensures var r := SnovStep(contact, apiKey, extractDomain, Answers(Undefined, TokenOk));
      var site := WebsiteDomain(contact, extractDomain);
      (site != "" ==> r.Ok? && r.value.Send? && r.value.request.snovDomain == site) &&
      (site == "" && contact.company.Str? && contact.company.s != "" ==>
         r.Ok? && r.value.Send? && r.value.request.snovDomain == DomainGuess(contact.company.s)) &&
      (site == "" && !Truthy(contact.company) ==> r == Ok(Refuse(SnovNoDomainError)))
  {
  }

  /** Snov's request carries the key split at its first colon. */
  lemma SnovCredentials(contact: LinkedIn.Contact, id: string, secret: string, extractDomain: string -> string)
    requires ':' !in id && ':' !in secret
    requires SnovStep(contact, id + ":" + secret, extractDomain, Answers(Undefined, TokenOk)).Ok?
    requires SnovStep(contact, id + ":" + secret, extractDomain, Answers(Undefined, TokenOk)).value.Send?
    ensures var q := SnovStep(contact, id + ":" + secret, extractDomain, Answers(Undefined, TokenOk)).value.request;
      q.clientId == id && q.clientSecret == secret
  {
    KeySplitOneColon(id, secret);
  }

  /** Once a name and a domain are found, Snov's first token request decides:
      a rejected request answers the caught error's message after
      `SnovFailedPrefix`, a refused one the credentials error, and only an OK
      answer sends the email-finder request. */
  lemma SnovTokenOutcomes(contact: LinkedIn.Contact, apiKey: string, extractDomain: string -> string, hunterDomain: Json, reason: string)
    requires NameOf(contact.name).Ok? && NameOf(contact.name).value.first != ""
    requires SnovDomain(contact, extractDomain).Ok? && SnovDomain(contact, extractDomain).value != ""
    ensures SnovStep(contact, apiKey, extractDomain, Answers(hunterDomain, TokenRejected(reason)))
      == Ok(Refuse(SnovFailedPrefix + reason))
    ensures SnovStep(contact, apiKey, extractDomain, Answers(hunterDomain, TokenRefused))
      == Ok(Refuse(SnovCredentialsError))
    ensures var r := SnovStep(contact, apiKey, extractDomain, Answers(hunterDomain, TokenOk));
      r.Ok? && r.value.Send? && r.value.request.snovDomain == SnovDomain(contact, extractDomain).value
  {
  }
}
