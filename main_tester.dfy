/**
 * `MainTester`: the object a caller configures with the site's home URL and
 * then asks to run catalogue tests by name.
 */
module Tester {
  import opened Basics
  import opened Hex
  import opened Placeholder
  import opened Parameters
  import opened Probe
  import opened TestDefinitions

  /** The exceptions `run` and `executeQuery` can throw. */
  datatype Exception =
    | InvalidArgument(message: string)
    | Logic(message: string)
    | UninitializedProperty(name: string)

  class MainTester {
    /** Home page URL of the site under test, without the final `/`; unset at first. */
    var homeURL: Option<string>

    constructor ()
      ensures homeURL == None
    {
      homeURL := None;
    }

    /** Sets the home URL and returns the tester itself, for chaining. */
    method SetHomeURL(url: string) returns (self: MainTester)
      modifies this
      ensures homeURL == Some(url) && self == this
    {
      homeURL := Some(url);
      self := this;
    }

    /** The default test options, shown for information: free of placeholders. */
    function GetDefaultsTestOptions(): (p: Params)
      ensures p == Defaults
      ensures !HasPlaceholder(p.query) && !HasPlaceholder(p.data)
    {
      BraceFreeHasNoPlaceholder(Defaults.query);
      BraceFreeHasNoPlaceholder(Defaults.data);
      Defaults
    }

    /**
     * `computeParameters`: lays the declaration over the defaults key by key,
     * then replaces the placeholders of `data`, then those of `query`, one at
     * a time, with identifiers drawn in order from `entropy`.
     */
    method ComputeParameters(specific: Declaration, entropy: nat -> Bytes5) returns (res: Params)
      ensures res == Resolve(specific, entropy)
    {
      res := Defaults;
      var i := 0;
      while i < |DefaultKeys|
        invariant 0 <= i <= |DefaultKeys|
        invariant res == MergeKeys(specific, DefaultKeys[..i])
      {
        var key := DefaultKeys[i];
        if IsSet(specific, key) {
          if key == Headers {
            res := res.(headers := Defaults.headers + specific.headers.value);
          } else {
            match key
            case Query => res := res.(query := specific.query.value);
            case Method => res := res.(httpMethod := specific.httpMethod.value);
            case Data => res := res.(data := specific.data.value);
            case Timeout => res := res.(timeout := specific.timeout.value);
            case Expected => res := res.(expected := specific.expected.value);
            case Help => res := res.(help := specific.help.value);
          }
        }
        assert DefaultKeys[..i + 1] == DefaultKeys[..i] + [key];
        i := i + 1;
      }
      assert DefaultKeys[..i] == DefaultKeys;
      ghost var merged := res;

      var drawn: nat := 0;
      var pos := Strpos(res.data, Token);
      while pos.Some?
        invariant res == merged.(data := res.data)
        invariant pos == Strpos(res.data, Token)
        invariant Expand(res.data, entropy, drawn) == Expand(merged.data, entropy, 0)
        invariant drawn + Occurrences(res.data) == Occurrences(merged.data)
        decreases BraceCount(res.data)
      {
        var random := RandomIdentifier(entropy(drawn));
        ReplaceFirstStep(res.data, random);
        ExpandUnfold(res.data, entropy, drawn);
        res := res.(data := SubstrReplace(res.data, random, pos.value, |Token|));
        drawn := drawn + 1;
        pos := Strpos(res.data, Token);
      }
      OccurrencesZeroIff(res.data);
      NoPlaceholderUnchanged(res.data, entropy, drawn);
      ghost var firstQueryDraw := drawn;

      pos := Strpos(res.query, Token);
      while pos.Some?
        invariant res == merged.(data := Expand(merged.data, entropy, 0), query := res.query)
        invariant pos == Strpos(res.query, Token)
        invariant Expand(res.query, entropy, drawn) == Expand(merged.query, entropy, firstQueryDraw)
        decreases BraceCount(res.query)
      {
        var random := RandomIdentifier(entropy(drawn));
        ReplaceFirstStep(res.query, random);
        ExpandUnfold(res.query, entropy, drawn);
        res := res.(query := SubstrReplace(res.query, random, pos.value, |Token|));
        drawn := drawn + 1;
        pos := Strpos(res.query, Token);
      }
      OccurrencesZeroIff(res.query);
      NoPlaceholderUnchanged(res.query, entropy, drawn);
    }

    /**
     * `executeQuery`: sends the request built from `testParams` through `net`
     * (standing for curl) and classifies what comes back. Reading the home URL
     * before it was set is an error.
     */
    method ExecuteQuery(testParams: Params, net: Request -> CurlOutcome) returns (r: Result<TestResult, Exception>)
      ensures homeURL == None ==> r == Failure(UninitializedProperty("homeURL"))
      ensures homeURL.Some? ==>
        r == Success(Classify(net(BuildRequest(homeURL.value, testParams)), testParams.expected))
      ensures r.Success? ==> (r.value.pass ==> r.value.httpStatus.Some? && r.value.httpStatus.value in testParams.expected)
    {
      if homeURL == None {
        return Failure(UninitializedProperty("homeURL"));
      }
      var request := BuildRequest(homeURL.value, testParams);
      var outcome := net(request);
      r := Success(Classify(outcome, testParams.expected));
    }

    /**
     * `run`: an unknown test name is rejected first, a missing home URL
     * second; otherwise the named declaration is resolved and probed.
     */
    method Run(testName: string, entropy: nat -> Bytes5, net: Request -> CurlOutcome) returns (r: Result<TestResult, Exception>)
      ensures testName !in Registry ==> r == Failure(InvalidArgument("Test does not exist: " + testName))
      ensures testName in Registry && homeURL == None ==> r == Failure(Logic("You must specify website URL first"))
      ensures testName in Registry && homeURL.Some? ==>
        var p := Resolve(Registry[testName], entropy);
        r == Success(Classify(net(BuildRequest(homeURL.value, p)), p.expected))
    {
      if testName !in Registry {
        return Failure(InvalidArgument("Test does not exist: " + testName));
      }
      if homeURL == None {
        return Failure(Logic("You must specify website URL first"));
      }
      var testParams := ComputeParameters(Registry[testName], entropy);
      r := ExecuteQuery(testParams, net);
    }
  }

  /** What a caller of the tester can rely on, from the contracts alone. */
  method DispatchOrder(entropy: nat -> Bytes5, net: Request -> CurlOutcome)
  {
    var tester := new MainTester();
    var r := tester.Run("t1_home_accessible", entropy, net);
    assert r == Failure(Logic("You must specify website URL first"));
    r := tester.Run("t9_unknown", entropy, net);
    assert r.Failure? && r.error.InvalidArgument?;
    var self := tester.SetHomeURL("https://example.org");
    r := tester.Run("t9_unknown", entropy, net);
    assert r.Failure? && r.error.InvalidArgument?;
    r := tester.Run("t1_home_accessible", entropy, net);
    assert r.Success?;
  }
}
