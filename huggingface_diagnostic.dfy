/**
 * The HuggingFace permission diagnostic: three probes (account, model
 * listing, inference) run in that order, and a chain of early returns turns
 * their outcomes into a diagnostic result with fix steps and curl commands.
 *
 * The HTTP calls are not modelled; each probe's outcome is an input. The
 * token is a parameter, and how Python's `str()` renders a JSON value that
 * is not a string is the oracle `render`.
 */
module HuggingFaceDiagnostic {
  import opened Common
  import opened Strings
  import J = JsonValues

  /** One element of a JSON array. */
  datatype Element = DictElement(fields: J.Entry) | OtherElement

  /** What `response.json()` gives, or the error it raises. */
  datatype Body =
    | NotJson(decodeError: string)
    | Object(fields: J.Entry)
    | Array(items: seq<Element>)
    | Text(s: string)
    /** `null`, a boolean or a number: iterating over it raises `iterError`. */
    | Scalar(iterError: string)

  /** The outcome of one HTTP request: the exception it raised, or the reply. */
  datatype HttpOutcome = Raised(message: string) | Replied(statusCode: int, text: string, body: Body)

  datatype HFDiagnosticResult = HFDiagnosticResult(
    success: bool,
    statusCode: Option<int>,
    errorMessage: Option<string>,
    availableModels: seq<J.Value>,
    permissionsDetected: seq<string>,
    accountStatus: string,
    fixSteps: seq<string>,
    curlCommands: seq<string>)

  /** The result `run_full_diagnostic` returns, or the exception that escapes it. */
  datatype Diagnosis = Crashed | Done(result: HFDiagnosticResult)

  /** Python's truthiness of an optional error message. */
  predicate Truthy(e: Option<string>)
  {
    e.Some? && e.value != ""
  }

  /** The error text of a reply that is not 200. */
  function HttpError(code: int, text: string): string
  {
    "HTTP " + IntToString(code) + ": " + SliceTo(text, 200)
  }

  /** `_test_whoami`: the account information, or the error. */
  function TestWhoami(outcome: HttpOutcome): (r: (Option<Body>, Option<string>))
    ensures r.0.Some? <==> r.1.None?
    ensures r.0.Some? <==> outcome.Replied? && outcome.statusCode == 200 && !outcome.body.NotJson?
  {
    match outcome
    case Raised(message) => (None, Some(message))
    case Replied(code, text, body) =>
      if code != 200 then (None, Some(HttpError(code, text)))
      else if body.NotJson? then (None, Some(body.decodeError))
      else (Some(body), None)
  }

  /** `m.get('id', '')` of each dictionary element. */
  function ModelIds(items: seq<Element>): (r: seq<J.Value>)
    ensures |r| <= |items|
  {
    if items == [] then []
    else
      var head := items[0];
      (if head.DictElement? then [if "id" in head.fields then head.fields["id"] else J.Str("")] else [])
      + ModelIds(items[1..])
  }

  /** Each listed id is the `id` of a dictionary element, in order. */
  lemma {:induction false} ModelIdsOrigin(items: seq<Element>, k: nat)
    requires k < |ModelIds(items)|
    ensures exists i :: 0 <= i < |items| && items[i].DictElement?
                        && ModelIds(items)[k] == (if "id" in items[i].fields then items[i].fields["id"] else J.Str(""))
  {
    var head := items[0];
    var hs: seq<J.Value> := if head.DictElement? then [if "id" in head.fields then head.fields["id"] else J.Str("")] else [];
    assert ModelIds(items) == hs + ModelIds(items[1..]);
    if k < |hs| {
      assert items[0].DictElement?;
    } else {
      ModelIdsOrigin(items[1..], k - |hs|);
      var i :| 0 <= i < |items[1..]| && items[1..][i].DictElement?
               && ModelIds(items[1..])[k - |hs|] == (if "id" in items[1..][i].fields then items[1..][i].fields["id"] else J.Str(""));
      assert items[1..][i] == items[i + 1];
    }
  }

  /** `_test_model_listing`: the ids of the listed models, or the error with no models. */
  function TestModelListing(outcome: HttpOutcome): (r: (seq<J.Value>, Option<string>))
    ensures r.1.Some? ==> r.0 == []
    ensures r.1.None? <==> (outcome.Replied? && outcome.statusCode == 200
                            && (outcome.body.Object? || outcome.body.Array? || outcome.body.Text?))
  {
    match outcome
    case Raised(message) => ([], Some(message))
    case Replied(code, text, body) =>
      if code != 200 then ([], Some(HttpError(code, text)))
      else match body
        case NotJson(e) => ([], Some(e))
        case Array(items) => (ModelIds(items), None)
        // iterating over a dictionary or a string yields strings, never dictionaries
        case Object(_) => ([], None)
        case Text(_) => ([], None)
        case Scalar(e) => ([], Some(e))
  }

  /** `_test_inference_api`: the reply, the error and the status code. */
  function TestInference(outcome: HttpOutcome): (r: (Option<Body>, Option<string>, Option<int>))
    ensures r.1.None? <==> r.0.Some?
    ensures r.0.Some? ==> r.2 == Some(200)
    ensures r.2.Some? <==> outcome.Replied? && !(outcome.statusCode == 200 && outcome.body.NotJson?)
    ensures outcome.Replied? && outcome.statusCode != 200 ==>
              r.1 == Some(SliceTo(outcome.text, 500)) && r.2 == Some(outcome.statusCode)
  {
    match outcome
    case Raised(message) => (None, Some(message), None)
    case Replied(code, text, body) =>
      if code != 200 then (None, Some(SliceTo(text, 500)), Some(code))
      else if body.NotJson? then (None, Some(body.decodeError), None)
      else (Some(body), None, Some(200))
  }

  const InferenceMissing := "inference-api (MISSING)"
  const ServerlessMissing := "serverless-inference (MISSING)"
  const ProvidersMissing := "inference-providers (MISSING)"
  const UnknownPermission := "Unknown permission issue"

  /** Where each finding of `_analyze_403_error` comes in its fixed order. */
  function Rank(finding: string): int
  {
    if finding == InferenceMissing then 0
    else if finding == ServerlessMissing then 1
    else if finding == ProvidersMissing then 2
    else 3
  }

  /** The markers of a 403 message, before the fallback. */
  function Markers(message: string): seq<string>
  {
    var lower := Lower(message);
    (if Contains(lower, "inference") then [InferenceMissing] else [])
    + (if Contains(lower, "serverless") then [ServerlessMissing] else [])
    + (if Contains(lower, "provider") then [ProvidersMissing] else [])
  }

  /** `_analyze_403_error`. */
  function Analyze403(message: string): seq<string>
  {
    var found := Markers(message);
    if found == [] then [UnknownPermission] else found
  }

  /**
   * Each marker is reported exactly when its word occurs in the lower-cased
   * message, in the fixed order inference, serverless, providers, each at
   * most once; the unknown issue is reported, alone, exactly when no word
   * occurs. The list is never empty.
   */
  lemma Analyze403Spec(message: string)
    ensures var r := Analyze403(message); var lower := Lower(message);
      && r != []
      && (InferenceMissing in r <==> Contains(lower, "inference"))
      && (ServerlessMissing in r <==> Contains(lower, "serverless"))
      && (ProvidersMissing in r <==> Contains(lower, "provider"))
      && (r == [UnknownPermission] <==>
            !Contains(lower, "inference") && !Contains(lower, "serverless") && !Contains(lower, "provider"))
      && (forall i, j :: 0 <= i < j < |r| ==> Rank(r[i]) < Rank(r[j]))
  {
    var lower := Lower(message);
    var a: seq<string> := if Contains(lower, "inference") then [InferenceMissing] else [];
    var b: seq<string> := if Contains(lower, "serverless") then [ServerlessMissing] else [];
    var c: seq<string> := if Contains(lower, "provider") then [ProvidersMissing] else [];
    assert Markers(message) == a + b + c;
    var m := a + b + c;
    assert forall k :: 0 <= k < |m| ==> Rank(m[k]) == (if k < |a| then 0 else if k < |a| + |b| then 1 else 2);
  }

  /** Line `i` of `_get_403_fix_steps`. */
  function Fix403Line(i: int): string
  {
    if i == 0 then "\U{1F527} HuggingFace 403 Forbidden - Fix Protocol:"
    else if i == 1 then ""
    else if i == 2 then "1. **Go to Token Settings**"
    else if i == 3 then "   \U{2192} https://huggingface.co/settings/tokens"
    else if i == 4 then ""
    else if i == 5 then "2. **Create New Token** (don't edit existing)"
    else if i == 6 then "   \U{2192} Click 'New token'"
    else if i == 7 then "   \U{2192} Name: 'inference-token' (or similar)"
    else if i == 8 then ""
    else if i == 9 then "3. **Enable ALL Required Permissions:**"
    else if i == 10 then "   \U{2713} Read access to contents of all repos"
    else if i == 11 then "   \U{2713} Write access to contents of all repos"
    else if i == 12 then "   \U{2713} Make calls to serverless Inference API"
    else if i == 13 then "   \U{2713} Manage Inference Endpoints"
    else if i == 14 then ""
    else if i == 15 then "4. **Check Account Status**"
    else if i == 16 then "   \U{2192} Some inference APIs require:"
    else if i == 17 then "     - Email verification"
    else if i == 18 then "     - Credit card on file (even for free tier)"
    else if i == 19 then "     - Agreement to ToS/policies"
    else if i == 20 then ""
    else if i == 21 then "5. **Update Token in App**"
    else if i == 22 then "   \U{2192} Copy new token"
    else if i == 23 then "   \U{2192} Paste in Spiral Codex HUD"
    else if i == 24 then "   \U{2192} Click 'Save API Keys'"
    else if i == 25 then "   \U{2192} Full app restart required"
    else if i == 26 then ""
    else if i == 27 then "6. **Test with Curl** (see commands below)"
    else if i == 28 then ""
    else if i == 29 then "7. **If Still Failing:**"
    else if i == 30 then "   \U{2192} Check HF Status: https://status.huggingface.co"
    else if i == 31 then "   \U{2192} Contact HF Support with:"
    else if i == 32 then "     - Your username"
    else if i == 33 then "     - This error message"
    else if i == 34 then "     - Token scopes screenshot"
    else ""
  }

  /** `_get_403_fix_steps`. */
  function Fix403Steps(): (r: seq<string>)
    ensures |r| == 35
  {
    seq(35, Fix403Line)
  }

  /** Line `i` of `_get_token_invalid_steps`. */
  function InvalidTokenLine(i: int): string
  {
    if i == 0 then "\U{1F527} Invalid Token - Fix Protocol:"
    else if i == 1 then ""
    else if i == 2 then "1. Go to: https://huggingface.co/settings/tokens"
    else if i == 3 then "2. Verify token exists and is active"
    else if i == 4 then "3. Regenerate token with full permissions"
    else if i == 5 then "4. Update in app and restart"
    else if i == 6 then "5. Test with curl command below"
    else ""
  }

  /** `_get_token_invalid_steps`. */
  function InvalidTokenSteps(): (r: seq<string>)
    ensures |r| == 7
  {
    seq(7, InvalidTokenLine)
  }

  /** The authorization header the curl commands show: the token's first ten characters only. */
  function MaskedHeader(token: string): (r: string)
    ensures r == "-H 'Authorization: Bearer " + token[..Min(10, |token|)] + "...'"
  {
    "-H 'Authorization: Bearer " + SliceTo(token, 10) + "...'"
  }

  /** Line `i` of `_generate_curl_commands`. */
  function CurlLine(token: string, i: int): string
  {
    if i == 0 then "# Test 1: Check account (should succeed)"
    else if i == 1 then "curl " + MaskedHeader(token) + " \\"
    else if i == 2 then "  https://huggingface.co/api/whoami"
    else if i == 3 then ""
    else if i == 4 then "# Test 2: Test inference (the critical test)"
    else if i == 5 then "curl -X POST \\"
    else if i == 6 then "  " + MaskedHeader(token) + " \\"
    else if i == 7 then "  -H 'Content-Type: application/json' \\"
    else if i == 8 then "  -d '{\"inputs\": \"Hello\", \"parameters\": {\"max_new_tokens\": 5}}' \\"
    else if i == 9 then "  https://api-inference.huggingface.co/models/gpt2"
    else if i == 10 then ""
    else if i == 11 then "# If test 2 returns 403, the token lacks inference permissions"
    else ""
  }

  /** `_generate_curl_commands`: the two requests, each with the masked token. */
  function CurlCommands(token: string): (r: seq<string>)
    ensures |r| == 12
    ensures r[1] == "curl " + MaskedHeader(token) + " \\" && r[6] == "  " + MaskedHeader(token) + " \\"
  {
    seq(12, i => CurlLine(token, i))
  }

  /**
   * `_build_failed_result`: never a success and never any models, keeping
   * the given error, steps, code and account, with the curl commands for
   * the token; missing permissions are reported as none.
   */
  function BuildFailedResult(token: string, errorMessage: string, fixSteps: seq<string>,
                             statusCode: Option<int>, permissions: seq<string>, accountStatus: string)
    : (r: HFDiagnosticResult)
    ensures !r.success && r.availableModels == []
    ensures r.errorMessage == Some(errorMessage) && r.fixSteps == fixSteps
    ensures r.statusCode == statusCode && r.permissionsDetected == permissions
    ensures r.accountStatus == accountStatus && r.curlCommands == CurlCommands(token)
  {
    HFDiagnosticResult(false, statusCode, Some(errorMessage), [], permissions, accountStatus,
                       fixSteps, CurlCommands(token))
  }

  /** Python's f-string rendering of a JSON value. */
  function Show(v: J.Value, render: J.Value -> string): string
  {
    if v.Str? then v.s else render(v)
  }

  /** `info.get(key, 'unknown')`, rendered. */
  function Field(info: J.Entry, key: string, render: J.Value -> string): string
  {
    if key in info then Show(info[key], render) else "unknown"
  }

  /** The account line, `"{username} ({account_type})"`. */
  function Account(info: J.Entry, render: J.Value -> string): string
  {
    Field(info, "name", render) + " (" + Field(info, "type", render) + ")"
  }

  /**
   * The account information `run_full_diagnostic` goes on with: a dictionary
   * from a whoami probe whose error is empty. An empty error with no
   * information, or information that is not a dictionary, makes `.get` raise.
   */
  function AccountInfo(whoami: HttpOutcome): Option<J.Entry>
  {
    var (info, err) := TestWhoami(whoami);
    if !Truthy(err) && info.Some? && info.value.Object? then Some(info.value.fields) else None
  }

  /**
   * Printing the organisations raises: a truthy `orgs` that is not a list,
   * or a list holding an element that is not a dictionary or a dictionary
   * whose `name` is not a string, makes the `.get` or the join raise.
   */
  predicate OrgsCrash(info: J.Entry)
  {
    var orgs := if "orgs" in info then info["orgs"] else J.List([]);
    orgs.Truthy()
    && !(orgs.List? && forall k :: 0 <= k < |orgs.items| ==>
           orgs.items[k].Object? && ("name" in orgs.items[k].fields ==> orgs.items[k].fields["name"].Str?))
  }

  /** Printing a sample of the listed models raises when one of the first three is not a string. */
  predicate SampleCrashes(listing: HttpOutcome)
  {
    var (models, err) := TestModelListing(listing);
    !Truthy(err) && exists k :: 0 <= k < |models| && k < 3 && !models[k].Str?
  }

  /** The inference failure that ends the diagnosis: the error and the 403 or 401 code. */
  predicate StopsAtInference(inference: HttpOutcome)
  {
    var (_, err, code) := TestInference(inference);
    Truthy(err) && (code == Some(403) || code == Some(401))
  }

  /** Where `run_full_diagnostic` stops, and what it has gathered by then. */
  datatype Stage =
    | AccountFailed(accountError: string)
    | Raises
    | Forbidden(inferenceError: string, account: string)
    | Unauthorized(inferenceError: string)
    | Passed(models: seq<J.Value>, account: string)

  /** The chain of early returns of `run_full_diagnostic`. */
  function Decide(whoami: HttpOutcome, listing: HttpOutcome, inference: HttpOutcome,
                  render: J.Value -> string): Stage
  {
    var (_, accountError) := TestWhoami(whoami);
    if Truthy(accountError) then AccountFailed(accountError.value)
    else if AccountInfo(whoami).None? then Raises
    else
      var account := Account(AccountInfo(whoami).value, render);
      if OrgsCrash(AccountInfo(whoami).value) || SampleCrashes(listing) then Raises
      else
        var (_, inferenceError, code) := TestInference(inference);
        if Truthy(inferenceError) && code == Some(403) then Forbidden(inferenceError.value, account)
        else if Truthy(inferenceError) && code == Some(401) then Unauthorized(inferenceError.value)
        else Passed(TestModelListing(listing).0, account)
  }

  /** The result each stage returns. */
  function Report(token: string, stage: Stage): Diagnosis
  {
    match stage
    case AccountFailed(err) =>
      Done(BuildFailedResult(token, "Account check failed: " + err, InvalidTokenSteps(), None, [], "unknown"))
    case Raises => Crashed
    case Forbidden(err, account) =>
      Done(BuildFailedResult(token, err, Fix403Steps(), Some(403), Analyze403(err), account))
    case Unauthorized(err) =>
      Done(BuildFailedResult(token, err, InvalidTokenSteps(), Some(401), [], "unknown"))
    case Passed(models, account) =>
      Done(HFDiagnosticResult(true, Some(200), None, models, ["inference-api", "read-repos"],
                              account, [], CurlCommands(token)))
  }

  /** `run_full_diagnostic`, from the outcomes of the three probes. */
  function RunFullDiagnostic(token: string, whoami: HttpOutcome, listing: HttpOutcome,
                             inference: HttpOutcome, render: J.Value -> string): Diagnosis
  {
    Report(token, Decide(whoami, listing, inference, render))
  }

  /**
   * A failing account check ends the diagnosis with the invalid-token steps
   * and its error, whatever the listing and inference probes would give.
   */
  lemma WhoamiFailureStops(token: string, whoami: HttpOutcome, listing: HttpOutcome, inference: HttpOutcome,
                           listing': HttpOutcome, inference': HttpOutcome, render: J.Value -> string)
    requires Truthy(TestWhoami(whoami).1)
    ensures var d := RunFullDiagnostic(token, whoami, listing, inference, render);
      && d == RunFullDiagnostic(token, whoami, listing', inference', render)
      && d.Done? && !d.result.success && d.result.fixSteps == InvalidTokenSteps()
      && d.result.errorMessage == Some("Account check failed: " + TestWhoami(whoami).1.value)
      && d.result.statusCode == None && d.result.accountStatus == "unknown"
  {
  }

  /**
   * An inference 403 with an error text fails with the code, the text, the
   * permissions read from it, the 403 steps and the account.
   */
  lemma Inference403(token: string, whoami: HttpOutcome, listing: HttpOutcome, inference: HttpOutcome,
                     render: J.Value -> string)
    requires AccountInfo(whoami).Some? && !OrgsCrash(AccountInfo(whoami).value) && !SampleCrashes(listing)
    requires Truthy(TestInference(inference).1) && TestInference(inference).2 == Some(403)
    ensures var d := RunFullDiagnostic(token, whoami, listing, inference, render);
      var err := TestInference(inference).1.value;
      && d.Done? && !d.result.success && d.result.statusCode == Some(403)
      && d.result.errorMessage == Some(err) && d.result.permissionsDetected == Analyze403(err)
      && d.result.fixSteps == Fix403Steps() && d.result.accountStatus == Account(AccountInfo(whoami).value, render)
      && d.result.availableModels == []
  {
    var (_, accountError) := TestWhoami(whoami);
    assert !Truthy(accountError);
  }

  /** An inference 401 with an error text fails with the code, the text and the invalid-token steps. */
  lemma Inference401(token: string, whoami: HttpOutcome, listing: HttpOutcome, inference: HttpOutcome,
                     render: J.Value -> string)
    requires AccountInfo(whoami).Some? && !OrgsCrash(AccountInfo(whoami).value) && !SampleCrashes(listing)
    requires Truthy(TestInference(inference).1) && TestInference(inference).2 == Some(401)
    ensures var d := RunFullDiagnostic(token, whoami, listing, inference, render);
      && d.Done? && !d.result.success && d.result.statusCode == Some(401)
      && d.result.errorMessage == TestInference(inference).1 && d.result.permissionsDetected == []
      && d.result.fixSteps == InvalidTokenSteps() && d.result.accountStatus == "unknown"
  {
    var (_, accountError) := TestWhoami(whoami);
    assert !Truthy(accountError);
  }

  /**
   * The diagnosis succeeds exactly when the account check passes, printing
   * the organisations and the sample does not raise and the inference probe does not end in a 403
   * or 401 error; any other inference outcome, an error with another code or
   * none included, is reported as a success with code 200, the listed models,
   * no fix steps and no error.
   */
  lemma SuccessIff(token: string, whoami: HttpOutcome, listing: HttpOutcome, inference: HttpOutcome,
                   render: J.Value -> string)
    ensures var d := RunFullDiagnostic(token, whoami, listing, inference, render);
      && (d.Done? && d.result.success <==>
            AccountInfo(whoami).Some? && !OrgsCrash(AccountInfo(whoami).value) && !SampleCrashes(listing)
            && !StopsAtInference(inference))
      && (d.Done? && d.result.success ==>
            d.result.statusCode == Some(200) && d.result.errorMessage == None
            && d.result.availableModels == TestModelListing(listing).0 && d.result.fixSteps == []
            && d.result.permissionsDetected == ["inference-api", "read-repos"]
            && d.result.accountStatus == Account(AccountInfo(whoami).value, render))
  {
    var (_, accountError) := TestWhoami(whoami);
    if !Truthy(accountError) && AccountInfo(whoami).Some? {
      assert RunFullDiagnostic(token, whoami, listing, inference, render).Done? ==> !Truthy(accountError);
    }
  }

  /**
   * A failing model listing never decides the diagnosis: any two failing
   * listings give the same outcome, with no models.
   */
  lemma ListingFailureIrrelevant(token: string, whoami: HttpOutcome, listing: HttpOutcome, listing': HttpOutcome,
                                 inference: HttpOutcome, render: J.Value -> string)
    requires Truthy(TestModelListing(listing).1) && Truthy(TestModelListing(listing').1)
    ensures RunFullDiagnostic(token, whoami, listing, inference, render)
         == RunFullDiagnostic(token, whoami, listing', inference, render)
    ensures !SampleCrashes(listing)
  {
  }

  /**
   * The diagnosis crashes only on account information that is not a
   * dictionary behind an empty error, on organisations that cannot be
   * printed, or on a sample of model ids that are not strings.
   */
  lemma CrashCauses(token: string, whoami: HttpOutcome, listing: HttpOutcome, inference: HttpOutcome,
                    render: J.Value -> string)
    ensures RunFullDiagnostic(token, whoami, listing, inference, render).Crashed? <==>
      !Truthy(TestWhoami(whoami).1)
      && (AccountInfo(whoami).None? || OrgsCrash(AccountInfo(whoami).value) || SampleCrashes(listing))
  {
  }
}
