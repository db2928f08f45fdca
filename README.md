# waftest engine — a Dafny model of `MainTester`

waftest probes a web application firewall: it sends one crafted HTTP request
per catalogue test to a site and passes the test when the site answers with
a status that means "blocked" (403, 405 or 406 by default). This project
models the engine, `MainTester`, and the catalogue it runs against:

- **Parameter resolver** (`computeParameters`). A test declaration is laid
  over a constant default profile. The loop visits the default keys only.
  `headers` is appended to the default headers. Every other key is replaced
  when the declaration sets it (`isset`, so `null` counts as unset). Then two
  `while` loops replace each `{random_identifier}` in `data`, then in `query`,
  by `bin2hex(random_bytes(5))`, leftmost first.
- **Probe** (`executeQuery`). The curl options are chosen from the resolved
  parameters. What curl reports is classified into pass, unexpected status,
  timeout or transport error.
- **Dispatcher** (`run`, `setHomeURL`). A `MainTester` object holds an
  optional home URL. `run` rejects an unknown test name, then a missing URL,
  and otherwise probes the resolved declaration.
- **Catalogue** (`TestDefinitions`). The four declaration methods become a
  constant map from method name to declaration.

Files and modules:

| file | module | contents |
|---|---|---|
| basics.dfy | `Basics` | `Option`, `Result` |
| hex.dfy | `Hex` | `bin2hex`, its inverse, the 10-digit random identifier |
| placeholder.dfy | `Placeholder` | `strpos`, `substr_replace`, placeholder expansion |
| parameters.dfy | `Parameters` | defaults, declarations, the merge loop, `Resolve` |
| probe.dfy | `Probe` | curl options, curl outcome, classification |
| test_definitions.dfy | `TestDefinitions` | the registry and what each test resolves to |
| main_tester.dfy | `Tester` | class `MainTester` |

`Tester.DispatchOrder` is a client of the class in the order run-test.php:26-34 uses it (construct, set the URL, run), with a call before the URL is set added. Its assertions follow from the contracts alone, and it has no contract of its own.

Outside collaborators are parameters:

- `entropy: nat -> Bytes5` stands for `random_bytes(5)`. Draw `k` is the
  `k`-th call made during one `computeParameters`.
- `net: Request -> CurlOutcome` stands for curl. It receives exactly the
  request the options describe and returns what `curl_exec`, `curl_errno`,
  `curl_error` and `curl_getinfo` would report.

Where the documentation and the code disagree, the model follows the code:

- The doc comment of the defaults (src/MainTester.php:17-18) says a declared
  header overwrites the default one of the same name. `array_merge` on lists
  appends instead, so both lines are sent (`SameNameHeaderDuplicated`).
- `default_headers => false` is documented as dropping the default headers
  (src/TestDefinitions.php:40-43). The merge never reads that key, so
  `t3_no_user_agent` still sends `user-agent` (`NoUserAgentKeepsDefaultHeaders`).
- Random identifiers are ten lower-case hex digits. They are not pronounceable
  words.
- There is no `stop_on_failure` handling, no test listing and no "run all".

## Model

| member | source | states |
|---|---|---|
| `Hex.Bin2Hex` | src/MainTester.php:190 | `bin2hex` yields two lower-case hex digits per byte and nothing else |
| `Hex.Hex2BinOfBin2Hex` | src/MainTester.php:190 | decoding the hex digits gives back the bytes drawn |
| `Hex.Bin2HexOfHex2Bin` | src/MainTester.php:190 | every even-length lower-case hex string is the `bin2hex` of some bytes |
| `Hex.Bin2HexInjective` | src/MainTester.php:190 | distinct draws give distinct identifiers |
| `Hex.RandomIdentifier` | src/MainTester.php:190 | one `bin2hex(random_bytes(5))` is ten lower-case hex digits |
| `Placeholder.Strpos` | src/MainTester.php:189 | `strpos` returns the leftmost occurrence, and `false` exactly when there is none |
| `Placeholder.SubstrReplace` | src/MainTester.php:191 | `substr_replace` keeps the prefix before the position and the suffix after the replaced span |
| `Placeholder.ReplaceFirstStep` | src/MainTester.php:189-192 | one pass changes only the leftmost placeholder, into the identifier, keeps prefix and suffix, shortens the string by 9, and removes exactly one `{` and exactly one placeholder occurrence |
| `Placeholder.Expand` | src/MainTester.php:189-192 | when the loop stops no placeholder is left, and a string with N placeholders has shrunk by 9·N |
| `Placeholder.NoPlaceholderUnchanged` | src/MainTester.php:189 | a string without placeholder is left unchanged and counts zero occurrences |
| `Placeholder.OccurrencesZeroIff` | src/MainTester.php:189 | the occurrence count is zero exactly when `strpos` finds nothing |
| `Placeholder.ExpandShieldedPrefix` | src/MainTester.php:189-192 | a prefix in which no placeholder can start, whatever follows it, passes through the loop unchanged |
| `Placeholder.ShieldedAfterIdentifier` | src/MainTester.php:189-192 | text holding no placeholder, followed by a ten-digit identifier, is such a prefix, so a replacement never completes a new placeholder across the identifier |
| `Placeholder.ExpandSingle` | src/MainTester.php:189-192 | one placeholder between two texts that hold none becomes the current draw, the texts kept in place |
| `Placeholder.ExpandFirstOccurrence` | src/MainTester.php:189-192 | for any text holding no placeholder before the first one (`{` included, as in a JSON body), the first placeholder takes the current draw and the rest of the string is expanded from the next draw |
| `Placeholder.ExpandThree` | src/MainTester.php:189-192 | three placeholders between four texts that hold no placeholder (any `{` allowed) take three consecutive draws, left to right |
| `Placeholder.ExpandThreeBare` | src/tests/CWE89.php:15 | a body of three placeholders separated by text holding no placeholder, the shape of the CWE-89 body, becomes three consecutive identifiers with the separators kept in place |
| `Parameters.MergeKeysIsOverlay` | src/MainTester.php:174-187 | after visiting any keys, the merge loop's array equals the field-by-field reference overlay of those keys |
| `Parameters.MergeFieldwise` | src/MainTester.php:174-187 | each non-header key is the declared value when set and the default otherwise; headers are the defaults followed by the declared ones |
| `Parameters.ResolveFieldwise` | src/MainTester.php:167-201 | each resolved key in terms of declaration and defaults; `data` draws first, and `query` draws after the last `data` draw |
| `Parameters.ResolveRemovesPlaceholders` | src/MainTester.php:189-197 | neither `data` nor `query` holds a placeholder after resolution; each is 9 characters shorter per placeholder |
| `Parameters.EmptyDeclarationResolvesToDefaults` | src/MainTester.php:20-34 | an empty declaration resolves to exactly the defaults, which hold no placeholder |
| `Parameters.OtherKeysIgnored` | src/MainTester.php:174-178 | keys outside the default profile, such as `default_headers` and `stop_on_failure`, do not change the result |
| `Parameters.DefaultHeadersKept` | src/MainTester.php:180-182 | the default headers come first and in order, and the declared headers follow in order |
| `Parameters.SameNameHeaderDuplicated` | src/MainTester.php:180-182 | declaring a `user-agent` header sends it in addition to the default `user-agent`, with six headers in all |
| `Probe.BuildRequest` | src/MainTester.php:78-92 | the target is home URL followed by query; the body is attached iff the method is `POST` and data is non-empty; both timeouts are `timeout`; redirects are not followed; connections are not reused |
| `Probe.Classify` | src/MainTester.php:95-130 | a transport error never passes, has no status, carries the error text, and is a timeout iff errno is 28; otherwise the status is reported, there is no timeout, and the test passes iff the status is expected |
| `Probe.ClassifyOutcome` | src/MainTester.php:95-130 | the result reads as exactly one of pass, unexpected status, timeout and transport error, as decided from curl's report; a pass always carries an expected status |
| `Probe.BlockedRequestPasses` | src/MainTester.php:115-121 | a 403 answer passes with status 403 under the default expected codes |
| `Probe.ServedRequestFails` | src/MainTester.php:122-128 | a 200 answer fails on its status and reports 200 |
| `Probe.TimeoutFails` | src/MainTester.php:97-103 | a timeout fails with its error text and no status |
| `Probe.RefusedConnectionFails` | src/MainTester.php:104-111 | a refused connection is a transport error, not a timeout, and has no status |
| `TestDefinitions.RegistryNames` | src/TestDefinitions.php:13-75 | the registry holds exactly the four declaration methods |
| `TestDefinitions.DeclarationsUseCatalogueKeys` | src/TestDefinitions.php:13-75 | every declaration uses only the keys the documented example describes, and is well-formed: no key of the default profile is stored among the other keys |
| `TestDefinitions.HomeAccessibleResolution` | src/TestDefinitions.php:54-60 | `t1_home_accessible` is a GET on `/` with the default headers, empty data, no body, and only 200 expected |
| `TestDefinitions.OnlyHomeAccessibleExpects200` | src/TestDefinitions.php:13-75 | `t1_home_accessible` is the one declaration whose resolved expected codes include 200 |
| `TestDefinitions.HomeAccessibleOutcomes` | src/TestDefinitions.php:54-60 | `t1_home_accessible` passes on 200 and fails on 403 |
| `TestDefinitions.PhpInjectionResolution` | src/TestDefinitions.php:62-67 | `t2_php_injection` keeps `POST`; its data is a fresh identifier followed by `=<?php 1;`; the body is attached |
| `TestDefinitions.NoUserAgentKeepsDefaultHeaders` | src/TestDefinitions.php:69-75 | `t3_no_user_agent` still sends the five default headers, `user-agent` included, exactly as if it did not declare `default_headers` |
| `TestDefinitions.DocumentationResolution` | src/TestDefinitions.php:18-50 | the example's query is `/ma-page.php?` followed by ten hex digits and `=toto`; its seven headers are the five defaults then `X-Toto: 1` and `Cookie: Yep=1;Yop=2` |
| `Tester.MainTester.constructor` | src/MainTester.php:39-46 | a new tester has no home URL |
| `Tester.MainTester.SetHomeURL` | src/MainTester.php:142-147 | the home URL is set, and the tester itself is returned |
| `Tester.MainTester.GetDefaultsTestOptions` | src/MainTester.php:152-155 | returns the default profile, whose `query` and `data` hold no placeholder |
| `Tester.MainTester.ComputeParameters` | src/MainTester.php:167-201 | the key loop and the two replacement loops compute exactly `Resolve` of the declaration |
| `Tester.MainTester.ExecuteQuery` | src/MainTester.php:77-134 | without a home URL it fails on the unset property; otherwise it returns the classification of what the network answers to the built request, and a pass carries an expected status |
| `Tester.MainTester.Run` | src/MainTester.php:59-72 | an unknown name fails with InvalidArgument even when no URL is set; a known name without URL fails with LogicException; otherwise it returns the probe of the resolved declaration |

## Left out

- The curl calls (`curl_init`, `curl_setopt`, `curl_exec`, `curl_close`) are network I/O. The request is the `Request` record, and the answer is an input, `net`.
- `random_bytes` is entropy. It is an input, `entropy`. No distribution is modelled.
- Two failures of the runtime are not modelled: `random_bytes` throwing when no source of randomness exists, and `curl_init` returning `false`. The code does not check for either.
- PHP reflection (`method_exists`, `$this->def->$testName()`) becomes a map lookup. PHP's case-insensitive method names are not modelled.
- The `is_array` check of `computeParameters` cannot fail, because the parameter is typed `array`. Declarations are well-typed records: each key holds a value of the type its default has, and `headers` is a list. A PHP array holds one value per key, so a declaration that also stores a profile key among its other keys cannot arise; `Parameters.WellFormed` states that, and every catalogue declaration meets it. The merge reads only the profile fields, so such a declaration would resolve like its fields say.
- Declared headers are a list. A declaration that gives them string keys behaves the same: the default headers (src/MainTester.php:25-31) have integer keys only, `array_merge` (src/MainTester.php:182) renumbers integer keys and appends string keys that no default has, and curl reads only the values (src/MainTester.php:92).
- `in_array` uses PHP's loose comparison. The expected codes and the status are integers here, so it is plain membership.
- `(int)` casts of `timeout` and of the response code: both are already integers.
- run-test.php is not part of this model. It is CLI argument handling and console output, and its "run all tests" branch is empty.
- src/tests/TestDefinitions.php is not part of this model. It is static data that `MainTester` never references.
- The documented `default_headers` switch, `stop_on_failure`, test listing and pronounceable identifiers do not exist in the code, so they are not modelled.
