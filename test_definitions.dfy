/**
 * The catalogue of `TestDefinitions`: one declaration per method, looked up
 * by the method's name.
 */
module TestDefinitions {
  import opened Basics
  import opened Hex
  import opened Placeholder
  import opened Parameters
  import opened Probe

  /** The documented example: every key the catalogue knows, spelled out. */
  const Documentation: Declaration := Declaration(
    query := Some("/ma-page.php?" + Token + "=toto"),
    httpMethod := Some("POST"),
    data := Some(""),
    timeout := Some(3000),
    headers := Some(["X-Toto: 1", "Cookie: Yep=1;Yop=2"]),
    expected := Some([403, 405, 406]),
    help := Some(""),
    others := map["default_headers" := Bool(true)])

  const HomeAccessible: Declaration := Declaration(
    query := None,
    httpMethod := Some("GET"),
    data := None,
    timeout := None,
    headers := None,
    expected := Some([200]),
    help := Some("Ce test vérifie que la page d'accueil est accessible (IP du testeur non bloquée)"),
    others := map[])

  const PhpInjection: Declaration := Declaration(
    query := None,
    httpMethod := None,
    data := Some(Token + "=<?php 1;"),
    timeout := None,
    headers := None,
    expected := None,
    help := Some("Ce test vérifie qu'on ne peut pas envoyer du PHP"),
    others := map[])

  const NoUserAgent: Declaration := Declaration(
    query := None,
    httpMethod := Some("GET"),
    data := None,
    timeout := None,
    headers := None,
    expected := None,
    help := Some("Vérifie que les requêtes sans User-Agent sont rejetées"),
    others := map["default_headers" := Bool(false)])

  /** Test name (the method name) to declaration. */
  const Registry: map<string, Declaration> := map[
    "aaaaa1_documentation" := Documentation,
    "t1_home_accessible" := HomeAccessible,
    "t2_php_injection" := PhpInjection,
    "t3_no_user_agent" := NoUserAgent]

  /** The keys the documented example describes. */
  const CatalogueKeys: set<string> := {"query", "method", "data", "timeout", "headers", "default_headers", "expected", "help"}

  lemma RegistryNames()
    ensures Registry.Keys == {"aaaaa1_documentation", "t1_home_accessible", "t2_php_injection", "t3_no_user_agent"}
  {
  }

  lemma DeclarationsUseCatalogueKeys()
    ensures forall name | name in Registry :: DeclaredKeys(Registry[name]) <= CatalogueKeys
    ensures forall name | name in Registry :: WellFormed(Registry[name])
  {
  }

  /** `t1_home_accessible`: a GET on `/` with the default headers, passing only on 200. */
  lemma HomeAccessibleResolution(entropy: nat -> Bytes5, homeURL: string)
    ensures var p := Resolve(HomeAccessible, entropy);
      && p == Params("/", "GET", "", 3000, DefaultHeaders, [200], HomeAccessible.help.value)
      && BuildRequest(homeURL, p).url == homeURL + "/"
      && BuildRequest(homeURL, p).postFields == None
  {
    ResolveFieldwise(HomeAccessible, entropy);
    assert DefaultHeaders + [] == DefaultHeaders;
    BraceFreeHasNoPlaceholder(Defaults.query);
    BraceFreeHasNoPlaceholder(Defaults.data);
    NoPlaceholderUnchanged(Defaults.data, entropy, 0);
    NoPlaceholderUnchanged(Defaults.query, entropy, 0);
  }

  /**
   * `t2_php_injection`: one placeholder in the body, the inherited `POST`, and
   * the body attached to the request.
   */
  lemma PhpInjectionResolution(entropy: nat -> Bytes5, homeURL: string)
    ensures var p := Resolve(PhpInjection, entropy);
      && p.data == RandomIdentifier(entropy(0)) + "=<?php 1;"
      && p.httpMethod == "POST"
      && p.query == "/"
      && BuildRequest(homeURL, p).postFields == Some(p.data)
  {
    ResolveFieldwise(PhpInjection, entropy);
    var b := "=<?php 1;";
    assert '{' !in b;
    BraceFreeHasNoPlaceholder(b);
    ExpandSingleBare(b, entropy, 0);
    BraceFreeHasNoPlaceholder(Defaults.query);
    NoPlaceholderUnchanged(Defaults.query, entropy, 1);
  }

  /**
   * `t3_no_user_agent` declares `default_headers => false`, but the merge
   * never reads that key: the five default headers, `user-agent` included,
   * are all sent.
   */
  lemma NoUserAgentKeepsDefaultHeaders(entropy: nat -> Bytes5)
    ensures Resolve(NoUserAgent, entropy).headers == DefaultHeaders
    ensures DefaultHeaders[4] in Resolve(NoUserAgent, entropy).headers
    ensures Resolve(NoUserAgent, entropy) == Resolve(NoUserAgent.(others := map[]), entropy)
  {
    ResolveFieldwise(NoUserAgent, entropy);
    assert DefaultHeaders + [] == DefaultHeaders;
    OtherKeysIgnored(NoUserAgent, map[], entropy);
  }

  /**
   * `aaaaa1_documentation`: a random name in the query string, and the seven
   * headers made of the five defaults and the two declared ones.
   */
  lemma DocumentationResolution(entropy: nat -> Bytes5)
    ensures var p := Resolve(Documentation, entropy);
      && p.query == "/ma-page.php?" + RandomIdentifier(entropy(0)) + "=toto"
      && p.data == ""
      && p.headers == DefaultHeaders + ["X-Toto: 1", "Cookie: Yep=1;Yop=2"]
      && |p.headers| == 7
  {
    ResolveFieldwise(Documentation, entropy);
    BraceFreeHasNoPlaceholder("");
    NoPlaceholderUnchanged("", entropy, 0);
    var a, b := "/ma-page.php?", "=toto";
    assert '{' !in a && '{' !in b;
    BraceFreeHasNoPlaceholder(a);
    BraceFreeHasNoPlaceholder(b);
    ExpandSingle(a, b, entropy, 0);
  }

  /** `t1_home_accessible` is the only test of the catalogue that expects 200. */
  lemma OnlyHomeAccessibleExpects200(entropy: nat -> Bytes5)
    ensures forall name | name in Registry :: 200 in Resolve(Registry[name], entropy).expected <==> name == "t1_home_accessible"
  {
    forall name | name in Registry
      ensures 200 in Resolve(Registry[name], entropy).expected <==> name == "t1_home_accessible"
    {
      ResolveFieldwise(Registry[name], entropy);
    }
  }

  /** `t1_home_accessible` passes on 200 and fails on 403. */
  lemma HomeAccessibleOutcomes(entropy: nat -> Bytes5, errorText: string)
    ensures var expected := Resolve(HomeAccessible, entropy).expected;
      && OutcomeOf(Classify(CurlOutcome(false, 0, errorText, 200), expected)) == Pass
      && OutcomeOf(Classify(CurlOutcome(false, 0, errorText, 403), expected)) == FailStatus
  {
    ResolveFieldwise(HomeAccessible, entropy);
  }
}
