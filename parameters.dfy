/**
 * The parameter resolver of `MainTester`: the constant default profile, a
 * test declaration laid over it key by key, and the placeholder expansion
 * of `data` and `query` that follows.
 */
module Parameters {
  import opened Basics
  import opened Hex
  import opened Placeholder

  /** A value stored under a key that the default profile does not have. */
  datatype Value = Bool(b: bool) | Int(i: int) | Str(s: string)

  /**
   * A test declaration: the array a `TestDefinitions` method returns.
   * `None` is a key that is absent or `null` (both fail `isset`); every key
   * outside the default profile, such as `default_headers`, lives in `others`.
   */
  datatype Declaration = Declaration(
    query: Option<string>,
    httpMethod: Option<string>,
    data: Option<string>,
    timeout: Option<int>,
    headers: Option<seq<string>>,
    expected: Option<seq<int>>,
    help: Option<string>,
    others: map<string, Value>)

  const EmptyDeclaration: Declaration := Declaration(None, None, None, None, None, None, None, map[])

  /** The resolved parameters: exactly the keys of the default profile. */
  datatype Params = Params(
    query: string,
    httpMethod: string,
    data: string,
    timeout: int,
    headers: seq<string>,
    expected: seq<int>,
    help: string)

  /** The browser-like headers every request starts from. */
  const DefaultHeaders: seq<string> := [
    "accept: text/html,application/xhtml+xml,application/xml;q=0.9,image/avif,image/webp,image/apng,*/*;q=0.8,application/signed-exchange;v=b3;q=0.7",
    "accept-language: fr-FR,fr;q=0.9,en-US;q=0.8,en;q=0.7,la;q=0.6",
    "cache-control: no-cache",
    "pragma: no-cache",
    "user-agent: Mozilla/5.0 (Windows NT 10.0; Win64; x64) AppleWebKit/537.36 (KHTML, like Gecko) Chrome/128.0.0.0 Safari/537.36"
  ]

  const Defaults: Params := Params("/", "POST", "", 3000, DefaultHeaders, [403, 405, 406], "")

  /** The keys of the default profile, in the order the merge loop visits them. */
  datatype Key = Query | Method | Data | Timeout | Headers | Expected | Help

  const DefaultKeys: seq<Key> := [Query, Method, Data, Timeout, Headers, Expected, Help]

  function KeyName(k: Key): string {
    match k
    case Query => "query"
    case Method => "method"
    case Data => "data"
    case Timeout => "timeout"
    case Headers => "headers"
    case Expected => "expected"
    case Help => "help"
  }

  /** `isset($specific[$key])`. */
  predicate IsSet(d: Declaration, k: Key) {
    match k
    case Query => d.query.Some?
    case Method => d.httpMethod.Some?
    case Data => d.data.Some?
    case Timeout => d.timeout.Some?
    case Headers => d.headers.Some?
    case Expected => d.expected.Some?
    case Help => d.help.Some?
  }

  /**
   * A PHP array holds one value per key, so a declaration never stores a
   * key of the default profile in `others`.
   */
  predicate WellFormed(d: Declaration) {
    forall k: Key :: KeyName(k) !in d.others
  }

  /** The names of the keys a declaration sets. */
  function DeclaredKeys(d: Declaration): set<string> {
    (set k | k in DefaultKeys && IsSet(d, k) :: KeyName(k)) + d.others.Keys
  }

  /**
   * One pass of the merge loop: `headers` is appended to the default headers,
   * every other key is replaced; an unset key leaves `res` as it is.
   */
  function MergeKey(res: Params, d: Declaration, k: Key): Params {
    match k
    case Query => if d.query.Some? then res.(query := d.query.value) else res
    case Method => if d.httpMethod.Some? then res.(httpMethod := d.httpMethod.value) else res
    case Data => if d.data.Some? then res.(data := d.data.value) else res
    case Timeout => if d.timeout.Some? then res.(timeout := d.timeout.value) else res
    case Headers => if d.headers.Some? then res.(headers := Defaults.headers + d.headers.value) else res
    case Expected => if d.expected.Some? then res.(expected := d.expected.value) else res
    case Help => if d.help.Some? then res.(help := d.help.value) else res
  }

  /** The merge loop after visiting the keys `ks`, starting from the defaults. */
  function MergeKeys(d: Declaration, ks: seq<Key>): Params
    decreases |ks|
  {
    if ks == [] then Defaults else MergeKey(MergeKeys(d, ks[..|ks| - 1]), d, ks[|ks| - 1])
  }

  /** The whole merge loop. */
  function Merge(d: Declaration): Params {
    MergeKeys(d, DefaultKeys)
  }

  /**
   * Reference definition of the merge, field by field: the keys in `visited`
   * take the declared value when set, the others keep the default.
   */
  function Overlay(d: Declaration, visited: seq<Key>): Params {
    Params(
      if Query in visited then d.query.GetOr(Defaults.query) else Defaults.query,
      if Method in visited then d.httpMethod.GetOr(Defaults.httpMethod) else Defaults.httpMethod,
      if Data in visited then d.data.GetOr(Defaults.data) else Defaults.data,
      if Timeout in visited then d.timeout.GetOr(Defaults.timeout) else Defaults.timeout,
      if Headers in visited then Defaults.headers + d.headers.GetOr([]) else Defaults.headers,
      if Expected in visited then d.expected.GetOr(Defaults.expected) else Defaults.expected,
      if Help in visited then d.help.GetOr(Defaults.help) else Defaults.help)
  }

  /** One more pass of the loop adds one key to the overlay. */
  lemma MergeKeyExtendsOverlay(d: Declaration, visited: seq<Key>, k: Key)
    ensures MergeKey(Overlay(d, visited), d, k) == Overlay(d, visited + [k])
  {
    var o, o' := Overlay(d, visited), Overlay(d, visited + [k]);
    assert forall x :: x in visited + [k] <==> x in visited || x == k;
    match k
    case Query =>
    case Method =>
    case Data =>
    case Timeout =>
    case Headers => assert Defaults.headers + [] == Defaults.headers;
    case Expected =>
    case Help =>
  }

  lemma {:induction false} MergeKeysIsOverlay(d: Declaration, ks: seq<Key>)
    ensures MergeKeys(d, ks) == Overlay(d, ks)
    decreases |ks|
  {
    if ks == [] {
      assert Defaults.headers + [] == Defaults.headers;
    } else {
      var init, last := ks[..|ks| - 1], ks[|ks| - 1];
      MergeKeysIsOverlay(d, init);
      MergeKeyExtendsOverlay(d, init, last);
      assert ks == init + [last];
    }
  }

  /**
   * The merge, per key: every key but `headers` takes the declared value when
   * it is set and keeps the default otherwise; the headers are the default
   * headers followed by the declared ones.
   */
  lemma MergeFieldwise(d: Declaration)
    ensures Merge(d).query == d.query.GetOr(Defaults.query)
    ensures Merge(d).httpMethod == d.httpMethod.GetOr(Defaults.httpMethod)
    ensures Merge(d).data == d.data.GetOr(Defaults.data)
    ensures Merge(d).timeout == d.timeout.GetOr(Defaults.timeout)
    ensures Merge(d).headers == Defaults.headers + d.headers.GetOr([])
    ensures Merge(d).expected == d.expected.GetOr(Defaults.expected)
    ensures Merge(d).help == d.help.GetOr(Defaults.help)
  {
    MergeKeysIsOverlay(d, DefaultKeys);
    assert DefaultKeys[0] == Query && DefaultKeys[1] == Method && DefaultKeys[2] == Data;
    assert DefaultKeys[3] == Timeout && DefaultKeys[4] == Headers;
    assert DefaultKeys[5] == Expected && DefaultKeys[6] == Help;
  }

  /**
   * `computeParameters`: the merge, then the placeholders of `data`, then
   * those of `query`, drawing the random identifiers in that order.
   */
  function Resolve(d: Declaration, entropy: nat -> Bytes5): Params {
    var m := Merge(d);
    m.(data := Expand(m.data, entropy, 0), query := Expand(m.query, entropy, Occurrences(m.data)))
  }

  /** What each resolved key is, in terms of the declaration and the defaults. */
  lemma ResolveFieldwise(d: Declaration, entropy: nat -> Bytes5)
    ensures var p, data := Resolve(d, entropy), d.data.GetOr(Defaults.data);
      && p.httpMethod == d.httpMethod.GetOr(Defaults.httpMethod)
      && p.timeout == d.timeout.GetOr(Defaults.timeout)
      && p.headers == Defaults.headers + d.headers.GetOr([])
      && p.expected == d.expected.GetOr(Defaults.expected)
      && p.help == d.help.GetOr(Defaults.help)
      && p.data == Expand(data, entropy, 0)
      && p.query == Expand(d.query.GetOr(Defaults.query), entropy, Occurrences(data))
  {
    MergeFieldwise(d);
  }

  /**
   * No placeholder survives resolution, and each one replaced shortens the
   * string by nine characters.
   */
  lemma ResolveRemovesPlaceholders(d: Declaration, entropy: nat -> Bytes5)
    ensures var p := Resolve(d, entropy);
      && !HasPlaceholder(p.data) && !HasPlaceholder(p.query)
      && |p.data| == |d.data.GetOr(Defaults.data)| - 9 * Occurrences(d.data.GetOr(Defaults.data))
      && |p.query| == |d.query.GetOr(Defaults.query)| - 9 * Occurrences(d.query.GetOr(Defaults.query))
  {
    MergeFieldwise(d);
  }

  /** The defaults hold no placeholder, so an empty declaration resolves to them exactly. */
  lemma EmptyDeclarationResolvesToDefaults(entropy: nat -> Bytes5)
    ensures Resolve(EmptyDeclaration, entropy) == Defaults
  {
    MergeFieldwise(EmptyDeclaration);
    assert Defaults.headers + [] == Defaults.headers;
    BraceFreeHasNoPlaceholder(Defaults.query);
    BraceFreeHasNoPlaceholder(Defaults.data);
    NoPlaceholderUnchanged(Defaults.data, entropy, 0);
    NoPlaceholderUnchanged(Defaults.query, entropy, 0);
  }

  /** Keys outside the default profile (`default_headers`, `stop_on_failure`, ...) have no effect. */
  lemma OtherKeysIgnored(d: Declaration, others: map<string, Value>, entropy: nat -> Bytes5)
    ensures Resolve(d.(others := others), entropy) == Resolve(d, entropy)
  {
    MergeFieldwise(d);
    MergeFieldwise(d.(others := others));
  }

  /**
   * Default headers are never dropped: they come first, in order, and the
   * declared headers follow, in order.
   */
  lemma DefaultHeadersKept(d: Declaration, entropy: nat -> Bytes5)
    ensures var h := Resolve(d, entropy).headers;
      && |h| == |DefaultHeaders| + |d.headers.GetOr([])|
      && h[..|DefaultHeaders|] == DefaultHeaders
      && h[|DefaultHeaders|..] == d.headers.GetOr([])
  {
    ResolveFieldwise(d, entropy);
  }

  /**
   * A declared header with the name of a default header does not overwrite
   * it: both lines are sent.
   */
  lemma SameNameHeaderDuplicated(entropy: nat -> Bytes5)
    ensures var d := EmptyDeclaration.(headers := Some(["user-agent: waftest"]));
      var h := Resolve(d, entropy).headers;
      && |h| == 6
      && h[..5] == DefaultHeaders
      && h[4] == DefaultHeaders[4]
      && h[5] == "user-agent: waftest"
  {
    var d := EmptyDeclaration.(headers := Some(["user-agent: waftest"]));
    DefaultHeadersKept(d, entropy);
    var h := Resolve(d, entropy).headers;
    assert h[4] == h[..5][4] == DefaultHeaders[4];
    assert h[5] == h[5..][0] == "user-agent: waftest";
  }
}
