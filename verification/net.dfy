/** URL checks applied to the remote-configuration address: HTTPS only, and an
    optional allow-list of domains matched exactly or as a parent domain. The
    URL is given already parsed (protocol and host), or as unparseable. */
module Net {
  import opened JsValue
  import opened Text

  /** `new URL(text)`: its `protocol` (with the trailing colon) and `hostname`,
      or `Unparseable` when the constructor throws. */
  datatype Url = Url(protocol: string, hostname: string) | Unparseable

  /** Why a check throws. */
  datatype Rejection = Malformed | NotHttps | DomainNotAllowed(host: string)

  /** `validateHttpsUrl`: None when it returns normally, the reason when it throws. */
  function ValidateHttpsUrl(url: Url): (r: Option<Rejection>)
    ensures r.None? <==> url.Url? && url.protocol == "https:"
  {
    match url
    case Unparseable => Some(Malformed)
    case Url(protocol, _) => if protocol == "https:" then None else Some(NotHttps)
  }

  /** One allow-list entry accepts a host that equals it or is one of its subdomains. */
  predicate MatchesDomain(host: string, domain: string) {
    host == domain || EndsWith(host, "." + domain)
  }

  /** `allowedDomains.some(d => host === d || host.endsWith('.' + d))` */
  function SomeDomainMatches(host: string, domains: seq<string>): (r: bool)
    ensures r <==> exists i :: 0 <= i < |domains| && MatchesDomain(host, domains[i])
  {
    if domains == [] then false
    else if MatchesDomain(host, domains[0]) then true
    else
      var r := SomeDomainMatches(host, domains[1..]);
      assert forall i :: 1 <= i < |domains| ==> domains[i] == domains[1..][i - 1];
      r
  }

  /** `validateAllowedDomain`: an empty allow-list accepts every URL (even one
      that would not parse); otherwise the host must match some entry. */
  function ValidateAllowedDomain(url: Url, domains: seq<string>): (r: Option<Rejection>)
    ensures domains == [] ==> r.None?
    ensures domains != [] ==>
      (r.None? <==> url.Url? && exists i :: 0 <= i < |domains| && MatchesDomain(url.hostname, domains[i]))
  {
    if domains == [] then None
    else match url
      case Unparseable => Some(Malformed)
      case Url(_, host) => if SomeDomainMatches(host, domains) then None else Some(DomainNotAllowed(host))
  }

  /** The two checks in the order the remote fetch applies them (the
      allow-list only when it is non-empty); None when both pass. */
  function CheckConfigUrl(url: Url, domains: seq<string>): (r: Option<Rejection>)
    ensures r.None? <==> ValidateHttpsUrl(url).None? && (|domains| > 0 ==> ValidateAllowedDomain(url, domains).None?)
    ensures ValidateHttpsUrl(url).Some? ==> r == ValidateHttpsUrl(url)
  {
    match ValidateHttpsUrl(url)
    case Some(why) => Some(why)
    case None => if |domains| > 0 then ValidateAllowedDomain(url, domains) else None
  }

  /** A host that merely ends with an allowed domain, without a dot before it,
      is rejected; a subdomain and the domain itself are accepted. */
  lemma SuffixNeedsDot()
    ensures ValidateAllowedDomain(Url("https:", "badexample.com"), ["example.com"]) == Some(DomainNotAllowed("badexample.com"))
    ensures ValidateAllowedDomain(Url("https:", "evil.com"), ["example.com"]) == Some(DomainNotAllowed("evil.com"))
    ensures ValidateAllowedDomain(Url("https:", "cdn.example.com"), ["example.com"]).None?
    ensures ValidateAllowedDomain(Url("https:", "example.com"), ["example.com"]).None?
  {
    var bad := "badexample.com";
    assert bad[|bad| - |".example.com"|..][0] == 'd';
    assert !EndsWith(bad, ".example.com");
    var evil := "evil.com";
    assert !EndsWith(evil, ".example.com");
    var cdn := "cdn.example.com";
    assert cdn[|cdn| - |".example.com"|..] == ".example.com";
    assert MatchesDomain(cdn, "example.com");
  }

  /** Every subdomain of a listed domain passes both checks over HTTPS. */
  lemma SubdomainAccepted(sub: string, domain: string)
    ensures CheckConfigUrl(Url("https:", sub + "." + domain), [domain]).None?
  {
    var host := sub + "." + domain;
    assert host[|host| - |"." + domain|..] == "." + domain;
    assert MatchesDomain(host, [domain][0]);
  }

  /** Any URL whose protocol is not `https:` fails the combined check, whatever the allow-list. */
  lemma PlainHttpRejected(host: string, domains: seq<string>)
    ensures CheckConfigUrl(Url("http:", host), domains) == Some(NotHttps)
  {
  }
}
