/** Lifetimes of the CA and of the identities it issues: the validator's arithmetic on int64
    nanoseconds, and whether its advice repairs a configuration. */
module Ttl {
  const INT64_MIN: int := -0x8000_0000_0000_0000
  const INT64_MAX: int := 0x7fff_ffff_ffff_ffff
  const SEVEN_DAYS: int := 7 * 24 * 3_600_000_000_000
  const DIVISOR: int := 6

  predicate Int64(x: int) {
    INT64_MIN <= x <= INT64_MAX
  }

  /** Two's-complement wrap-around of a product. */
  function Wrap64(x: int): int {
    (x - INT64_MIN) % 0x1_0000_0000_0000_0000 + INT64_MIN
  }

  /** Division that truncates toward zero. */
  function DividedBySix(x: int): int {
    if x >= 0 then x / DIVISOR else -((-x) / DIVISOR)
  }

  function MaxSvidTtl(ca: int): int {
    if DividedBySix(ca) < SEVEN_DAYS then DividedBySix(ca) else SEVEN_DAYS
  }

  function MinCaTtl(svid: int): int {
    Wrap64(svid * DIVISOR)
  }

  predicate Compatible(ca: int, svid: int) {
    MaxSvidTtl(ca) >= svid
  }

  /** The two bounds are adjoint, with the single exception that truncation lets a CA lifetime of -5
      to -1 nanoseconds pass for an identity lifetime of zero. */
  lemma BoundsAreAdjoint(ca: int, svid: int)
    requires Int64(ca) && 0 <= svid <= 604_800_000_000_000
    ensures MinCaTtl(svid) == 6 * svid
    ensures (Compatible(ca, svid) <==> 6 * svid <= ca) <==> !(svid == 0 && -6 < ca < 0)
  {
    assert Int64(svid * DIVISOR);
    if ca >= 0 {
      assert ca == DIVISOR * (ca / DIVISOR) + ca % DIVISOR;
    } else {
      assert -ca == DIVISOR * ((-ca) / DIVISOR) + (-ca) % DIVISOR;
    }
  }

  /** Above seven days no CA lifetime is long enough. */
  lemma NothingAboveTheCap(ca: int, svid: int)
    requires Int64(ca) && svid > 604_800_000_000_000
    ensures !Compatible(ca, svid)
  {
  }

  /** A duration in nanoseconds. */
  type Duration = x: int | Int64(x)

  datatype Config = Config(ca: Duration, x509: Duration, jwt: Duration)

  /** A warning, by the values it tells the user to set. */
  datatype Advice =
    | LowerOrRaise(name: string, lower: int, raise: int)
    | LowerAndRaise(name: string, lower: int, raise: int)
    | Lower(name: string, lower: int)

  datatype Verdict = Invalid(error: string) | Valid(warnings: seq<Advice>)

  predicate Accepted(c: Config) {
    0 < c.x509 <= c.ca && 0 < c.jwt <= c.ca
  }

  function AdviceFor(name: string, ca: int, ttl: int): seq<Advice> {
    if Compatible(ca, ttl) then []
    else if ttl < SEVEN_DAYS then [LowerOrRaise(name, MaxSvidTtl(ca), MinCaTtl(ttl))]
    else if ca < MinCaTtl(SEVEN_DAYS) then [LowerAndRaise(name, SEVEN_DAYS, MinCaTtl(SEVEN_DAYS))]
    else [Lower(name, MaxSvidTtl(ca))]
  }

  /** The names of the two lifetimes in a warning. */
  const X509 := "default_x509_svid_ttl"
  const JWT := "default_jwt_svid_ttl"

  function Warnings(c: Config): seq<Advice> {
    AdviceFor(X509, c.ca, c.x509) + AdviceFor(JWT, c.ca, c.jwt)
  }

  /** No advice can be followed by half: a longer identity lifetime, or a shorter CA lifetime, than the one it
      names is still incompatible. */
  lemma AdviceIsTight(name: string, ca: int, ttl: int)
    requires Int64(ca) && 0 < ttl <= ca
    ensures AdviceFor(name, ca, ttl) == [] <==> Compatible(ca, ttl)
    ensures forall w :: w in AdviceFor(name, ca, ttl) ==>
              && w.name == name
              && match w
                 case LowerOrRaise(_, lower, raise) =>
                   && (forall more :: more > lower ==> !Compatible(ca, more))
                   && (forall less :: 0 < less < raise ==> !Compatible(less, ttl))
                 case LowerAndRaise(_, lower, raise) =>
                   && ca < raise && (forall more, any :: more > lower && Int64(any) ==> !Compatible(any, more))
                   && (forall less :: 0 < less < raise ==> !Compatible(less, lower))
                 case Lower(_, lower) =>
                   forall more, any :: more > lower && Int64(any) ==> !Compatible(any, more)
  {
    if !Compatible(ca, ttl) && ttl < SEVEN_DAYS {
      forall less | 0 < less < MinCaTtl(ttl) ensures !Compatible(less, ttl) {
        BoundsAreAdjoint(ca, ttl);
        BoundsAreAdjoint(less, ttl);
      }
    }
    forall less | 0 < less < MinCaTtl(SEVEN_DAYS) ensures !Compatible(less, SEVEN_DAYS) {
      BoundsAreAdjoint(less, SEVEN_DAYS);
    }
  }

  method Validate(c: Config) returns (r: Verdict)
    ensures r.Valid? <==> 0 < c.x509 <= c.ca && 0 < c.jwt <= c.ca
    // A refusal is justified.
    ensures r.Invalid? ==>
              (r.error, true) in [("ca_ttl must be a positive duration", c.ca <= 0),
                                  ("default_x509_svid_ttl must be a positive duration", c.x509 <= 0),
                                  ("default_jwt_svid_ttl must be a positive duration", c.jwt <= 0),
                                  ("ca_validity must be greater than default_jwt_svid_ttl", c.ca < c.jwt),
                                  ("ca_validity must be greater than default_ca_ttl", c.ca < c.x509)]
    ensures r.Valid? ==> r.warnings == Warnings(c)
    // No product that is computed wraps: every advised CA lifetime is six times an identity lifetime.
    ensures r.Valid? ==> forall w :: w in r.warnings && !w.Lower? ==>
              w.raise == DIVISOR * SEVEN_DAYS || w.raise == DIVISOR * c.x509 || w.raise == DIVISOR * c.jwt
  {
    if c.ca <= 0 { return Invalid("ca_ttl must be a positive duration"); }
    if c.x509 <= 0 { return Invalid("default_x509_svid_ttl must be a positive duration"); }
    if c.jwt <= 0 { return Invalid("default_jwt_svid_ttl must be a positive duration"); }
    if c.ca < c.jwt { return Invalid("ca_validity must be greater than default_jwt_svid_ttl"); }
    if c.ca < c.x509 { return Invalid("ca_validity must be greater than default_ca_ttl"); }
    var checks := [(X509, c.x509), (JWT, c.jwt)];
    var warnings := [];
    for i := 0 to |checks|
      invariant i == 0 ==> warnings == []
      invariant i == 1 ==> warnings == AdviceFor(X509, c.ca, c.x509)
      invariant i == 2 ==> warnings == Warnings(c)
      invariant forall w :: w in warnings && !w.Lower? ==>
                  w.raise == DIVISOR * SEVEN_DAYS || w.raise == DIVISOR * c.x509 || w.raise == DIVISOR * c.jwt
    {
      var (name, ttl) := checks[i];
      if !Compatible(c.ca, ttl) {
        if ttl < SEVEN_DAYS {
          BoundsAreAdjoint(c.ca, ttl);
          warnings := warnings + [LowerOrRaise(name, MaxSvidTtl(c.ca), MinCaTtl(ttl))];
        } else if c.ca < MinCaTtl(SEVEN_DAYS) {
          warnings := warnings + [LowerAndRaise(name, SEVEN_DAYS, MinCaTtl(SEVEN_DAYS))];
        } else {
          warnings := warnings + [Lower(name, MaxSvidTtl(c.ca))];
        }
      }
    }
    return Valid(warnings);
  }

  /** `ttl'` and `ca'` do what the warnings about `ttl` ask for; a lifetime without a warning stays. */
  ghost predicate Follows(advice: seq<Advice>, ttl: int, ttl': int, ca': int) {
    if advice == [] then ttl' == ttl
    else match advice[0]
         case LowerOrRaise(_, lower, raise) => ttl' <= lower || (ttl' <= ttl && raise <= ca')
         case LowerAndRaise(_, lower, raise) => ttl' <= lower && raise <= ca'
         case Lower(_, lower) => ttl' <= lower
  }

  lemma LargerCaAllowsMore(ca: int, ca': int)
    requires 0 < ca <= ca'
    ensures MaxSvidTtl(ca) <= MaxSvidTtl(ca') <= ca'
  {
  }

  lemma FollowingOne(name: string, ca: int, ttl: int, ca': int, ttl': int)
    requires Int64(ca') && 0 < ttl <= ca <= ca' && 0 < ttl'
    requires Follows(AdviceFor(name, ca, ttl), ttl, ttl', ca')
    ensures Compatible(ca', ttl') && ttl' <= ca'
  {
    LargerCaAllowsMore(ca, ca');
    if !Compatible(ca, ttl) && ttl < SEVEN_DAYS {
      BoundsAreAdjoint(ca', ttl);
    }
  }

  /** Doing what every warning says, in any of the ways it allows and with positive lifetimes, gives
      a configuration that is accepted without a warning. */
  lemma AdviceRepairs(c: Config, c': Config)
    requires Accepted(c) && c.ca <= c'.ca && 0 < c'.x509 && 0 < c'.jwt
    requires Follows(AdviceFor(X509, c.ca, c.x509), c.x509, c'.x509, c'.ca)
    requires Follows(AdviceFor(JWT, c.ca, c.jwt), c.jwt, c'.jwt, c'.ca)
    ensures Accepted(c') && Warnings(c') == []
  {
    FollowingOne(X509, c.ca, c.x509, c'.ca, c'.x509);
    FollowingOne(JWT, c.ca, c.jwt, c'.ca, c'.jwt);
  }

  function LoweredTo(advice: seq<Advice>, ttl: int): int {
    if advice == [] then ttl else advice[0].lower
  }

  function RaisedTo(advice: seq<Advice>, ca: int): int {
    if advice != [] && advice[0].LowerAndRaise? then advice[0].raise else ca
  }

  /** The configuration with each warned lifetime set to the very bound the warning names. */
  function AtTheBounds(c: Config): Config {
    var x, j := AdviceFor(X509, c.ca, c.x509), AdviceFor(JWT, c.ca, c.jwt);
    Config(RaisedTo(j, RaisedTo(x, c.ca)), LoweredTo(x, c.x509), LoweredTo(j, c.jwt))
  }

  /** Setting the named bounds themselves works exactly from a CA lifetime of six nanoseconds on:
      below that the bound is zero, which the validator refuses. */
  lemma BoundsThemselvesRepair(c: Config)
    requires Accepted(c)
    ensures Accepted(AtTheBounds(c)) && Warnings(AtTheBounds(c)) == [] <==> c.ca >= 6
  {
    if c.ca >= DIVISOR {
      assert DividedBySix(c.ca) > 0;
      assert MinCaTtl(SEVEN_DAYS) == DIVISOR * SEVEN_DAYS;
      AdviceRepairs(c, AtTheBounds(c));
    } else {
      assert MaxSvidTtl(c.ca) == 0;
    }
  }
}

/** Federation: validation of the configured trust domains, and their translation into the map the
    SPIRE server reads. */
module Federation {
  import opened Wrappers
  import opened KeyedLists

  const HTTPS_SPIFFE := "https_spiffe"
  const HTTPS_WEB := "https_web"

  datatype Acme = Acme(directoryUrl: string, domainName: string, email: string, tosAccepted: string)
  datatype ServingCert = ServingCert(fileSyncInterval: int, externalSecretRef: string)
  datatype HttpsWeb = HttpsWeb(acme: Option<Acme>, servingCert: Option<ServingCert>)
  datatype BundleEndpoint = BundleEndpoint(profile: string, refreshHint: int, httpsWeb: Option<HttpsWeb>)
  datatype Trust = Trust(domain: string, url: string, profile: string, spiffeId: string)
  datatype Config = Config(endpoint: BundleEndpoint, federatesWith: seq<Trust>, managedRoute: string)

  datatype Problem =
    | BadEndpoint(text: string) | TooMany(n: nat) | SelfFederation(i: nat) | DuplicateDomain(i: nat)
    | BadEntry(i: nat, text: string)

  ghost predicate AcmeOk(a: Acme) {
    "https://" <= a.directoryUrl && a.domainName != "" && a.email != "" && a.tosAccepted == "true"
  }

  ghost predicate CertOk(c: ServingCert) {
    c.fileSyncInterval <= 0 || 3600 <= c.fileSyncInterval <= 7776000
  }

  ghost predicate WebOk(w: HttpsWeb) {
    && (w.acme.Some? <==> w.servingCert.None?)
    && (w.acme.Some? ==> AcmeOk(w.acme.value))
    && (w.servingCert.Some? ==> CertOk(w.servingCert.value))
  }

  /** What the bundle endpoint must look like: https_web with exactly one certificate source, well
      formed, and a refresh hint in range or unset. */
  ghost predicate EndpointOk(b: BundleEndpoint) {
    && (b.profile == "https_web" ==> b.httpsWeb.Some? && WebOk(b.httpsWeb.value))
    && (b.refreshHint <= 0 || 60 <= b.refreshHint <= 3600)
  }

  function AcmeProblem(a: Acme): (problem: Option<string>)
    ensures problem.None? <==> AcmeOk(a)
    ensures problem.Some? ==>
              (problem.value, true) in [("directoryUrl must use https://", !("https://" <= a.directoryUrl)),
                                        ("domainName is required", a.domainName == ""),
                                        ("email is required", a.email == ""),
                                        ("tosAccepted must be true to use ACME", a.tosAccepted != "true")]
  {
    if !("https://" <= a.directoryUrl) then Some("directoryUrl must use https://")
    else if a.domainName == "" then Some("domainName is required")
    else if a.email == "" then Some("email is required")
    else if a.tosAccepted != "true" then Some("tosAccepted must be true to use ACME")
    else None
  }

  function CertProblem(c: ServingCert): (problem: Option<string>)
    ensures problem.None? <==> CertOk(c)
  {
    if c.fileSyncInterval > 0 && (c.fileSyncInterval < 3600 || c.fileSyncInterval > 7776000)
    then Some("fileSyncInterval must be between 3600 and 7776000 seconds") else None
  }

  function WebProblem(w: HttpsWeb): (problem: Option<string>)
    ensures problem.None? <==> WebOk(w)
  {
    if w.acme.Some? && w.servingCert.Some? then Some("acme and servingCert are mutually exclusive, only one can be set")
    else if w.acme.None? && w.servingCert.None?
    then Some("either acme or servingCert must be set for https_web profile")
    else if w.acme.Some? then AcmeProblem(w.acme.value)
    else CertProblem(w.servingCert.value)
  }

  function EndpointProblem(b: BundleEndpoint): (problem: Option<string>)
    ensures problem.None? <==> EndpointOk(b)
  {
    var web := if b.profile != HTTPS_WEB then None
               else if b.httpsWeb.None? then Some("httpsWeb configuration is required when profile is https_web")
               else WebProblem(b.httpsWeb.value);
    if web.Some? then web
    else if b.refreshHint > 0 && (b.refreshHint < 60 || b.refreshHint > 3600)
    then Some("refreshHint must be between 60 and 3600 seconds")
    else None
  }

  ghost predicate TrustOk(t: Trust) {
    && t.domain != "" && "https://" <= t.url
    && (t.profile == "https_spiffe" ==> "spiffe://" <= t.spiffeId)
  }

  function TrustProblem(t: Trust): (problem: Option<string>)
    ensures problem.None? <==> TrustOk(t)
    ensures problem.Some? ==>
              (problem.value, true) in [("trustDomain is required", t.domain == ""),
                                        ("bundleEndpointUrl must use https://", !("https://" <= t.url)),
                                        ("endpointSpiffeId is required for https_spiffe profile", t.spiffeId == ""),
                                        ("endpointSpiffeId must start with spiffe://",
                                         t.spiffeId != "" && !("spiffe://" <= t.spiffeId))]
  {
    if t.domain == "" then Some("trustDomain is required")
    else if !("https://" <= t.url) then Some("bundleEndpointUrl must use https://")
    else if t.profile == HTTPS_SPIFFE && t.spiffeId == ""
    then Some("endpointSpiffeId is required for https_spiffe profile")
    else if t.profile == HTTPS_SPIFFE && !("spiffe://" <= t.spiffeId)
    then Some("endpointSpiffeId must start with spiffe://")
    else None
  }

  function Domain(t: Trust): string { t.domain }

  /** Entries that are well formed, never the own domain, and pairwise of different domains. */
  ghost predicate EntriesOk(list: seq<Trust>, own: string) {
    && (forall t :: t in list ==> t.domain != own && TrustOk(t))
    && DistinctKeys(list, Domain)
  }

  /** Entry i is what its problem says. */
  ghost predicate Offends(list: seq<Trust>, own: string, i: nat, p: Problem)
    requires i < |list|
  {
    match p
    case SelfFederation(n) => n == i && list[i].domain == own
    case DuplicateDomain(n) => n == i && exists j :: 0 <= j < i && Domain(list[j]) == list[i].domain
    case BadEntry(n, text) => n == i && TrustProblem(list[i]) == Some(text)
    case BadEndpoint(_) => false
    case TooMany(_) => false
  }

  lemma NextEntry(list: seq<Trust>, own: string, i: nat)
    requires i < |list| && EntriesOk(list[..i], own)
    ensures EntriesOk(list[..i + 1], own) <==>
              && list[i].domain != own && TrustOk(list[i])
              && forall j :: 0 <= j < i ==> Domain(list[j]) != list[i].domain
  {
    var head := list[..i + 1];
    assert head == list[..i] + [list[i]] && head[i] == list[i];
    if EntriesOk(head, own) {
      assert head[i] in head;
      assert forall j :: 0 <= j < i ==> Domain(head[j]) != Domain(head[i]);
    }
  }

  lemma HeadOk(list: seq<Trust>, own: string, i: nat)
    requires i <= |list| && EntriesOk(list, own)
    ensures EntriesOk(list[..i], own)
  {
  }

  method ValidateEntries(list: seq<Trust>, own: string) returns (problem: Option<(nat, Problem)>)
    ensures problem.None? <==> EntriesOk(list, own)
    // What is reported is the first entry that spoils the list, for the reason given.
    ensures problem.Some? ==>
              && problem.value.0 < |list| && EntriesOk(list[..problem.value.0], own)
              && Offends(list, own, problem.value.0, problem.value.1)
  {
    var seen: set<string> := {};
    for i := 0 to |list|
      invariant EntriesOk(list[..i], own)
      invariant forall d :: d in seen <==> exists j :: 0 <= j < i && Domain(list[j]) == d
    {
      NextEntry(list, own, i);
      if EntriesOk(list, own) {
        HeadOk(list, own, i + 1);
      }
      if list[i].domain == own {
        return Some((i, SelfFederation(i)));
      }
      if list[i].domain in seen {
        return Some((i, DuplicateDomain(i)));
      }
      seen := seen + {list[i].domain};
      var entry := TrustProblem(list[i]);
      if entry.Some? {
        return Some((i, BadEntry(i, entry.value)));
      }
    }
    assert list[..|list|] == list;
    return None;
  }

  method Validate(c: Config, own: string) returns (problem: Option<Problem>)
    ensures problem.None? <==> EndpointOk(c.endpoint) && |c.federatesWith| <= 50 && EntriesOk(c.federatesWith, own)
    ensures problem.Some? && problem.value.BadEndpoint? ==> !EndpointOk(c.endpoint)
    ensures problem.Some? && problem.value.TooMany? ==> problem.value.n == |c.federatesWith| > 50
    ensures problem.Some? && !problem.value.BadEndpoint? && !problem.value.TooMany? ==>
              exists i :: 0 <= i < |c.federatesWith| && Offends(c.federatesWith, own, i, problem.value)
  {
    var endpoint := EndpointProblem(c.endpoint);
    if endpoint.Some? {
      return Some(BadEndpoint(endpoint.value));
    }
    if |c.federatesWith| > 50 {
      return Some(TooMany(|c.federatesWith|));
    }
    var entry := ValidateEntries(c.federatesWith, own);
    return if entry.Some? then Some(entry.value.1) else None;
  }

  datatype Profile = Spiffe(endpointSpiffeId: string) | Web
  datatype TrustConf = TrustConf(url: string, profile: Option<Profile>)

  function ConfOf(t: Trust): TrustConf {
    TrustConf(t.url, if t.profile == HTTPS_SPIFFE then Some(Spiffe(t.spiffeId))
                     else if t.profile == HTTPS_WEB then Some(Web) else None)
  }

  ghost function Translated(list: seq<Trust>): map<string, TrustConf> {
    map d | d in ByKey(list, Domain) :: ConfOf(ByKey(list, Domain)[d])
  }

  /** The federates_with section, present only for a list that is not empty. */
  method GenerateFederatesWith(list: seq<Trust>) returns (section: Option<map<string, TrustConf>>)
    ensures section.None? <==> list == []
    ensures section.Some? ==> section.value == Translated(list)
  {
    if |list| == 0 {
      return None;
    }
    var m: map<string, TrustConf> := map[];
    for i := 0 to |list|
      invariant m == Translated(list[..i])
    {
      assert list[..i + 1][..i] == list[..i];
      m := m[list[i].domain := ConfOf(list[i])];
    }
    assert list[..|list|] == list;
    return Some(m);
  }

  /** The entry a reader of the section reconstructs. */
  function Decoded(domain: string, conf: TrustConf): Option<Trust> {
    match conf.profile
    case Some(Spiffe(id)) => Some(Trust(domain, conf.url, HTTPS_SPIFFE, id))
    case Some(Web) => Some(Trust(domain, conf.url, HTTPS_WEB, ""))
    case None => None
  }

  /** A trust entry as far as its profile uses it. */
  function Meaning(t: Trust): Trust {
    if t.profile == HTTPS_WEB then t.(spiffeId := "") else t
  }

  /** After validation nothing is lost: one section entry per list element, none for the own domain,
      each readable back as its element; an element of neither known profile is the only one whose
      profile cannot be read back. */
  lemma TranslationLossless(list: seq<Trust>, own: string)
    requires EntriesOk(list, own)
    ensures |Translated(list)| == |list| && own !in Translated(list)
    ensures forall t :: t in list ==>
              && t.domain in Translated(list) && Translated(list)[t.domain].url == t.url
              && (t.profile in {HTTPS_SPIFFE, HTTPS_WEB} <==> Decoded(t.domain, Translated(list)[t.domain]).Some?)
              && (t.profile in {HTTPS_SPIFFE, HTTPS_WEB} ==>
                    Decoded(t.domain, Translated(list)[t.domain]) == Some(Meaning(t)))
  {
    ByKeyExact(list, Domain);
    ByKeySound(list, Domain);
    assert Translated(list).Keys == ByKey(list, Domain).Keys;
    assert HTTPS_WEB[6] != HTTPS_SPIFFE[6];
  }

  /** Without validation entries are lost exactly when two of them name one domain. */
  lemma TranslationSize(list: seq<Trust>)
    ensures |Translated(list)| == |list| <==> DistinctKeys(list, Domain)
  {
    ByKeySize(list, Domain);
    assert Translated(list).Keys == ByKey(list, Domain).Keys;
    assert |Translated(list)| == |Translated(list).Keys|;
    assert |ByKey(list, Domain)| == |ByKey(list, Domain).Keys|;
  }

  /** Any reordering is accepted alike and gives the same section. */
  lemma OrderIrrelevant(list: seq<Trust>, other: seq<Trust>, own: string)
    requires Permutation(list, other) && EntriesOk(list, own)
    ensures EntriesOk(other, own) && |other| == |list| && Translated(other) == Translated(list)
  {
    PermutationElements(list, other);
    ByKeyPermutation(list, other, Domain);
  }
}
