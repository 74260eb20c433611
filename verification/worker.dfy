/** The Worker's three API handlers: `/api/add-rules`, `/api/list-rules` and
    `/api/delete-rules`. Each handler is specified by a function from the
    parsed request body, the configured secret and the replies of the API to
    the response it sends and the API calls it issues, in order. The add and
    delete loops, which update counters and an error list step by step, are
    methods proved against those functions. */
module Worker {
  import opened Basics
  import opened Cloudflare
  import Batch

  /** A request field that should hold an array: missing (or falsy), present
      but not an array, or an array. */
  datatype JsonList<T> = Absent | NotAList | List(items: seq<T>)

  datatype AddRequest = AddRequest(zoneId: Option<string>, rules: JsonList<RuleSpec>, apiToken: Option<string>)

  datatype ListRequest = ListRequest(zoneId: Option<string>, apiToken: Option<string>)

  datatype DeleteRequest =
    DeleteRequest(zoneId: Option<string>, rulesetId: Option<string>, ruleIds: JsonList<string>, apiToken: Option<string>)

  /** The JSON bodies the handlers send. An `ErrorBody` is `{success: false, error}`. */
  datatype Body =
    | ErrorBody(error: string)
    | AddBody(success: bool, rulesetId: string, addedRules: nat, totalRules: nat,
              errors: Option<seq<string>>, verification: Verification)
    | ListBody(rulesetId: string, rules: seq<StoredRule>, totalRules: nat)
    | DeleteBody(success: bool, deletedCount: nat, totalCount: nat, errors: Option<seq<string>>)
  {
    /** The body's `success` field. */
    predicate Success() {
      match this
      case ErrorBody(_) => false
      case AddBody(s, _, _, _, _, _) => s
      case ListBody(_, _, _) => true
      case DeleteBody(s, _, _, _) => s
    }
  }

  datatype Response = Response(status: nat, body: Body)

  /** A handler's observable effect: the response, and the API calls it made. */
  datatype Handled = Handled(response: Response, calls: seq<Call>)

  /** The API's replies for one add request: to the ruleset list, to the i-th
      create call, and to the verification read. */
  datatype AddApi = AddApi(rulesets: Reply<seq<RulesetSummary>>, create: nat -> Reply<()>,
                           verify: Reply<Option<RulesetDetail>>)

  /** The API's replies for one list request. */
  datatype ListApi = ListApi(rulesets: Reply<seq<RulesetSummary>>, details: Reply<Option<RulesetDetail>>)

  const TokenRequired: string :=
    "API token is required. Either paste your token in the UI or configure CF_API_TOKEN secret using: wrangler secret put CF_API_TOKEN"
  const InvalidAdd: string := "Invalid request: zoneId and rules array are required"
  const InvalidList: string := "Invalid request: zoneId is required"
  const InvalidDelete: string := "Invalid request: zoneId, rulesetId, and ruleIds array are required"
  /** The TypeError the runtime throws when `rulesetDetails.rules` is read from
      an absent `result`. */
  const MissingResult: string := "Cannot read properties of undefined (reading 'rules')"

  // ---------------------------------------------------------------- credentials

  /** The token a handler uses: a pasted `apiToken` wins over the configured
      `CF_API_TOKEN`; with neither there is no token. */
  function ResolveToken(apiToken: Option<string>, configured: Option<string>): (t: Option<string>)
    ensures t.Some? <==> Present(apiToken) || Present(configured)
    ensures Present(apiToken) ==> t == apiToken
    ensures !Present(apiToken) && Present(configured) ==> t == configured
    ensures t.Some? ==> t.value != ""
  {
    if Present(apiToken) then apiToken
    else if Present(configured) then configured
    else None
  }

  // ----------------------------------------------------------------- validation

  predicate ValidAddRequest(req: AddRequest) {
    Present(req.zoneId) && req.rules.List? && |req.rules.items| > 0
  }

  predicate ValidListRequest(req: ListRequest) {
    Present(req.zoneId)
  }

  predicate ValidDeleteRequest(req: DeleteRequest) {
    Present(req.zoneId) && Present(req.rulesetId) && req.ruleIds.List? && |req.ruleIds.items| > 0
  }

  // ------------------------------------------------------------------- add flow

  /** How the add loop names rule `i` in an error line: its 1-based position
      and its description. */
  function AddSubject(i: nat, rule: RuleSpec): string {
    NatToString(i + 1) + " (" + rule.description + ")"
  }

  /** A run of digits followed by a non-digit is read off unambiguously. */
  lemma DigitRunsAgree(x: string, u: string, y: string, v: string)
    requires forall k :: 0 <= k < |x| ==> IsDigit(x[k])
    requires forall k :: 0 <= k < |y| ==> IsDigit(y[k])
    requires u != [] && !IsDigit(u[0]) && v != [] && !IsDigit(v[0])
    requires x + u == y + v
    ensures x == y
  {
    var w := x + u;
    assert forall k :: 0 <= k < |x| ==> IsDigit(w[k]);
    assert !IsDigit(w[|x|]);
    assert forall k :: 0 <= k < |y| ==> IsDigit(w[k]) by {
      assert w == y + v;
    }
    assert !IsDigit(w[|y|]);
    assert |x| == |y|;
    assert x == w[..|x|];
    assert y == (y + v)[..|y|];
  }

  /** The subject of an add error line names the rule's position: two rules
      at different positions never share a subject, whatever their
      descriptions. */
  lemma AddSubjectNamesPosition(i: nat, j: nat, a: RuleSpec, b: RuleSpec)
    ensures AddSubject(i, a) == AddSubject(j, b) ==> i == j
  {
    var x, y := NatToString(i + 1), NatToString(j + 1);
    var u, v := " (" + a.description + ")", " (" + b.description + ")";
    assert AddSubject(i, a) == x + u;
    assert AddSubject(j, b) == y + v;
    if x + u == y + v {
      DigitRunsAgree(x, u, y, v);
      DecimalRoundTrip(i + 1);
      DecimalRoundTrip(j + 1);
    }
  }

  function AddSubjects(rules: seq<RuleSpec>): (s: seq<string>)
    ensures |s| == |rules|
  {
    seq(|rules|, i requires 0 <= i < |rules| => AddSubject(i, rules[i]))
  }

  /** The outcome of the create call for each of the first `n` rules. */
  function AddOutcomes(create: nat -> Reply<()>, n: nat): (outs: seq<Outcome>)
    ensures |outs| == n
  {
    seq(n, i requires 0 <= i < n => AddSingleRule(create(i)))
  }

  /** One create call per rule, in input order. */
  function CreateCalls(zoneId: string, rulesetId: string, rules: seq<RuleSpec>, token: string): (c: seq<Call>)
    ensures |c| == |rules|
  {
    seq(|rules|, i requires 0 <= i < |rules| => CreateRule(zoneId, rulesetId, rules[i], token))
  }

  /** `handleAddRules`. Credential check, then field validation, both before
      any call; then the ruleset lookup, one create per rule, and the
      verification read. A complete batch is 200; any other batch, even one
      that added nothing, is 207; a failed lookup or a thrown verification is
      500 with the thrown message. */
  function AddRules(req: AddRequest, configured: Option<string>, api: AddApi): (h: Handled)
    ensures h.response.status in {200, 207, 400, 500}
    ensures h.response.status == 400 <==> ResolveToken(req.apiToken, configured).None? || !ValidAddRequest(req)
    ensures h.response.status == 400 ==> h.calls == []
    ensures ResolveToken(req.apiToken, configured).None? ==> h.response.body == ErrorBody(TokenRequired)
    ensures ResolveToken(req.apiToken, configured).Some? && !ValidAddRequest(req) ==>
      h.response.body == ErrorBody(InvalidAdd)
    ensures h.response.status == 500 <==>
      ResolveToken(req.apiToken, configured).Some? && ValidAddRequest(req)
      && (GetCustomRulesetId(api.rulesets).Failure?
          || (GetCustomRulesetId(api.rulesets).Success? && api.verify.Raised?))
    ensures h.response.status in {400, 500} ==> h.response.body.ErrorBody?
    ensures ResolveToken(req.apiToken, configured).Some? && ValidAddRequest(req) ==>
      if GetCustomRulesetId(api.rulesets).Failure? then
        h.response.body == ErrorBody(GetCustomRulesetId(api.rulesets).error)
      else if VerifyRules(api.verify).Failure? then
        h.response.body == ErrorBody(VerifyRules(api.verify).error)
      else
        h.response.body.AddBody? && h.response.body.verification == VerifyRules(api.verify).value
    ensures h.calls != [] ==>
      h.calls[0] == ListRulesets(req.zoneId.value, ResolveToken(req.apiToken, configured).value)
    ensures ResolveToken(req.apiToken, configured).Some? && ValidAddRequest(req) ==>
      var token, zoneId := ResolveToken(req.apiToken, configured).value, req.zoneId.value;
      if GetCustomRulesetId(api.rulesets).Failure? then h.calls == [ListRulesets(zoneId, token)]
      else
        var rulesetId := GetCustomRulesetId(api.rulesets).value;
        h.calls == [ListRulesets(zoneId, token)] + CreateCalls(zoneId, rulesetId, req.rules.items, token)
                   + [GetRuleset(zoneId, rulesetId, token)]
    ensures h.response.body.AddBody? ==>
      req.rules.List? && h.response.body.totalRules == |req.rules.items|
      && h.response.body.rulesetId == GetCustomRulesetId(api.rulesets).value
    ensures h.response.status == 200 ==>
      h.response.body.AddBody? && h.response.body.success && h.response.body.errors.None?
      && h.response.body.addedRules == h.response.body.totalRules
    ensures h.response.status == 207 ==>
      h.response.body.AddBody? && !h.response.body.success && h.response.body.errors.Some?
      && h.response.body.addedRules < h.response.body.totalRules
      && h.response.body.addedRules + |h.response.body.errors.value| == h.response.body.totalRules
  {
    var token := ResolveToken(req.apiToken, configured);
    if token.None? then Handled(Response(400, ErrorBody(TokenRequired)), [])
    else if !ValidAddRequest(req) then Handled(Response(400, ErrorBody(InvalidAdd)), [])
    else
      var zoneId, rules := req.zoneId.value, req.rules.items;
      var lookup := [ListRulesets(zoneId, token.value)];
      match GetCustomRulesetId(api.rulesets)
      case Failure(e) => Handled(Response(500, ErrorBody(e)), lookup)
      case Success(rulesetId) =>
        var outs := AddOutcomes(api.create, |rules|);
        var added := Batch.Succeeded(outs, |rules|);
        var errors := Batch.Reports(AddSubjects(rules), outs, |rules|);
        var calls := lookup + CreateCalls(zoneId, rulesetId, rules, token.value)
                     + [GetRuleset(zoneId, rulesetId, token.value)];
        Batch.Accounting(outs, |rules|);
        Batch.ReportsListFailures(AddSubjects(rules), outs, |rules|);
        match VerifyRules(api.verify)
        case Failure(e) => Handled(Response(500, ErrorBody(e)), calls)
        case Success(verification) =>
          if added == |rules| then
            Handled(Response(200, AddBody(true, rulesetId, added, |rules|, None, verification)), calls)
          else
            Handled(Response(207, AddBody(false, rulesetId, added, |rules|, Some(errors), verification)), calls)
  }

  /** The add loop: tries every rule once, in order, whatever happened to the
      ones before; counts the rules added and records one error line per
      failed rule. */
  method ApplyRules(zoneId: string, rulesetId: string, rules: seq<RuleSpec>, token: string, create: nat -> Reply<()>)
    returns (added: nat, errors: seq<string>, calls: seq<Call>)
    ensures added == Batch.Succeeded(AddOutcomes(create, |rules|), |rules|)
    ensures errors == Batch.Reports(AddSubjects(rules), AddOutcomes(create, |rules|), |rules|)
    ensures calls == CreateCalls(zoneId, rulesetId, rules, token)
    ensures added + |errors| == |rules|
  {
    ghost var outs := AddOutcomes(create, |rules|);
    ghost var subjects := AddSubjects(rules);
    ghost var expected := CreateCalls(zoneId, rulesetId, rules, token);
    added, errors, calls := 0, [], [];
    var i := 0;
    while i < |rules|
      invariant 0 <= i <= |rules|
      invariant added == Batch.Succeeded(outs, i)
      invariant errors == Batch.Reports(subjects, outs, i)
      invariant calls == expected[..i]
    {
      calls := calls + [CreateRule(zoneId, rulesetId, rules[i], token)];
      var outcome := AddSingleRule(create(i));
      if outcome.Done? {
        added := added + 1;
      } else {
        errors := errors + [Batch.Report(AddSubject(i, rules[i]), outcome.message)];
      }
      i := i + 1;
    }
    assert calls == expected;
    Batch.Accounting(outs, |rules|);
    Batch.ReportsListFailures(subjects, outs, |rules|);
  }

  /** `handleAddRules` as the Worker runs it. */
  method HandleAddRules(req: AddRequest, configured: Option<string>, api: AddApi)
    returns (response: Response, calls: seq<Call>)
    ensures Handled(response, calls) == AddRules(req, configured, api)
  {
    var token := ResolveToken(req.apiToken, configured);
    if token.None? {
      return Response(400, ErrorBody(TokenRequired)), [];
    }
    if !ValidAddRequest(req) {
      return Response(400, ErrorBody(InvalidAdd)), [];
    }
    var zoneId, rules := req.zoneId.value, req.rules.items;
    calls := [ListRulesets(zoneId, token.value)];
    var located := GetCustomRulesetId(api.rulesets);
    if located.Failure? {
      return Response(500, ErrorBody(located.error)), calls;
    }
    var rulesetId := located.value;
    var added, errors, creates := ApplyRules(zoneId, rulesetId, rules, token.value, api.create);
    calls := calls + creates + [GetRuleset(zoneId, rulesetId, token.value)];
    var verification := VerifyRules(api.verify);
    if verification.Failure? {
      return Response(500, ErrorBody(verification.error)), calls;
    }
    if added == |rules| {
      response := Response(200, AddBody(true, rulesetId, added, |rules|, None, verification.value));
    } else {
      response := Response(207, AddBody(false, rulesetId, added, |rules|, Some(errors), verification.value));
    }
  }

  /** An add request that reaches its batch is 200 exactly when every create
      call was accepted, and 207 as soon as one was not, also when none was. */
  lemma AddStatusMeaning(req: AddRequest, configured: Option<string>, api: AddApi)
    requires ResolveToken(req.apiToken, configured).Some? && ValidAddRequest(req)
    requires GetCustomRulesetId(api.rulesets).Success? && !api.verify.Raised?
    ensures AddRules(req, configured, api).response.status == 200 <==>
      forall i :: 0 <= i < |req.rules.items| ==> api.create(i).Accepted()
    ensures AddRules(req, configured, api).response.status == 207 <==>
      exists i :: 0 <= i < |req.rules.items| && !api.create(i).Accepted()
    ensures (forall i :: 0 <= i < |req.rules.items| ==> !api.create(i).Accepted()) ==>
      AddRules(req, configured, api).response == Response(207, AddRules(req, configured, api).response.body)
      && AddRules(req, configured, api).response.body.addedRules == 0
  {
    var rules := req.rules.items;
    var outs := AddOutcomes(api.create, |rules|);
    assert forall i :: 0 <= i < |rules| ==> (outs[i].Done? <==> api.create(i).Accepted());
    Batch.AllSucceeded(outs, |rules|);
    Batch.NoneSucceeded(outs, |rules|);
  }

  /** The error lines of a partial add name exactly the failed rules, in
      input order, as "Rule {i+1} ({description}): {message}"; there are as
      many as rules not added. */
  lemma AddErrorLines(req: AddRequest, configured: Option<string>, api: AddApi)
    requires ResolveToken(req.apiToken, configured).Some? && ValidAddRequest(req)
    requires GetCustomRulesetId(api.rulesets).Success? && !api.verify.Raised?
    requires AddRules(req, configured, api).response.status == 207
    ensures var rules, body := req.rules.items, AddRules(req, configured, api).response.body;
      var outs := AddOutcomes(api.create, |rules|);
      var failed := Batch.FailedIndices(outs, |rules|);
      && body.addedRules == |rules| - |failed|
      && |body.errors.value| == |failed|
      && forall k :: 0 <= k < |failed| ==>
           body.errors.value[k] == "Rule " + NatToString(failed[k] + 1) + " ("
                                   + rules[failed[k]].description + "): " + outs[failed[k]].message
  {
    var rules := req.rules.items;
    var outs := AddOutcomes(api.create, |rules|);
    Batch.Accounting(outs, |rules|);
    Batch.ReportsListFailures(AddSubjects(rules), outs, |rules|);
  }

  /** Verification only shapes the optional diagnostic: as long as the
      verification read does not throw, replacing its reply changes neither
      the status, nor the count, nor the error lines. */
  lemma AddOutcomeIgnoresVerification(req: AddRequest, configured: Option<string>, api: AddApi,
                                      other: Reply<Option<RulesetDetail>>)
    requires !api.verify.Raised? && !other.Raised?
    ensures var h, h' := AddRules(req, configured, api), AddRules(req, configured, api.(verify := other));
      && h.response.status == h'.response.status
      && h.calls == h'.calls
      && (h.response.body.AddBody? <==> h'.response.body.AddBody?)
      && (h.response.body.AddBody? ==>
            h.response.body.(verification := h'.response.body.verification) == h'.response.body)
  {
  }

  // ---------------------------------------------------------------- delete flow

  /** The outcome of the delete call for each of the first `n` ids. */
  function DeleteOutcomes(delete: nat -> Reply<()>, n: nat): (outs: seq<Outcome>)
    ensures |outs| == n
  {
    seq(n, i requires 0 <= i < n => DeleteSingleRule(delete(i)))
  }

  /** One delete call per id, in input order. */
  function DeleteCalls(zoneId: string, rulesetId: string, ruleIds: seq<string>, token: string): (c: seq<Call>)
    ensures |c| == |ruleIds|
  {
    seq(|ruleIds|, i requires 0 <= i < |ruleIds| => DeleteRule(zoneId, rulesetId, ruleIds[i], token))
  }

  /** The delete status: 200 when every id was deleted, 207 when some were,
      500 when none was. */
  function DeleteStatus(deleted: nat, total: nat): (status: nat)
    requires deleted <= total
    ensures status == 200 <==> deleted == total
    ensures status == 207 <==> 0 < deleted < total
    ensures status == 500 <==> deleted == 0 < total
  {
    if deleted == total then 200 else if deleted > 0 then 207 else 500
  }

  /** `handleDeleteRules`. Credential check and validation come first and
      make no call; there is no ruleset lookup (the ruleset id comes with the
      request) and no verification read. */
  function DeleteRules(req: DeleteRequest, configured: Option<string>, delete: nat -> Reply<()>): (h: Handled)
    ensures h.response.status in {200, 207, 400, 500}
    ensures h.response.status == 400 <==> ResolveToken(req.apiToken, configured).None? || !ValidDeleteRequest(req)
    ensures h.response.status == 400 ==> h.calls == []
    ensures ResolveToken(req.apiToken, configured).None? ==> h.response.body == ErrorBody(TokenRequired)
    ensures ResolveToken(req.apiToken, configured).Some? && !ValidDeleteRequest(req) ==>
      h.response.body == ErrorBody(InvalidDelete)
    ensures h.response.status != 400 ==>
      h.calls == DeleteCalls(req.zoneId.value, req.rulesetId.value, req.ruleIds.items,
                             ResolveToken(req.apiToken, configured).value)
    ensures h.response.status != 400 ==>
      h.response.body.DeleteBody? && req.ruleIds.List?
      && h.response.body.totalCount == |req.ruleIds.items| == |h.calls|
      && h.response.body.success == (h.response.status == 200)
    ensures h.response.status == 200 ==>
      h.response.body.errors.None? && h.response.body.deletedCount == h.response.body.totalCount
    ensures h.response.status == 207 ==> 0 < h.response.body.deletedCount < h.response.body.totalCount
    ensures h.response.status == 500 ==> h.response.body.deletedCount == 0
    ensures h.response.status in {207, 500} ==>
      h.response.body.errors.Some?
      && h.response.body.deletedCount + |h.response.body.errors.value| == h.response.body.totalCount
  {
    var token := ResolveToken(req.apiToken, configured);
    if token.None? then Handled(Response(400, ErrorBody(TokenRequired)), [])
    else if !ValidDeleteRequest(req) then Handled(Response(400, ErrorBody(InvalidDelete)), [])
    else
      var zoneId, rulesetId, ruleIds := req.zoneId.value, req.rulesetId.value, req.ruleIds.items;
      var outs := DeleteOutcomes(delete, |ruleIds|);
      var deleted := Batch.Succeeded(outs, |ruleIds|);
      var errors := Batch.Reports(ruleIds, outs, |ruleIds|);
      var calls := DeleteCalls(zoneId, rulesetId, ruleIds, token.value);
      Batch.Accounting(outs, |ruleIds|);
      Batch.ReportsListFailures(ruleIds, outs, |ruleIds|);
      var status := DeleteStatus(deleted, |ruleIds|);
      if status == 200 then
        Handled(Response(200, DeleteBody(true, deleted, |ruleIds|, None)), calls)
      else
        Handled(Response(status, DeleteBody(false, deleted, |ruleIds|, Some(errors))), calls)
  }

  /** The delete loop: tries every id once, in order, whatever happened to the
      ones before; counts the deletions and records "Rule {id}: {message}"
      for each failure. */
  method RemoveRules(zoneId: string, rulesetId: string, ruleIds: seq<string>, token: string, delete: nat -> Reply<()>)
    returns (deleted: nat, errors: seq<string>, calls: seq<Call>)
    ensures deleted == Batch.Succeeded(DeleteOutcomes(delete, |ruleIds|), |ruleIds|)
    ensures errors == Batch.Reports(ruleIds, DeleteOutcomes(delete, |ruleIds|), |ruleIds|)
    ensures calls == DeleteCalls(zoneId, rulesetId, ruleIds, token)
    ensures deleted + |errors| == |ruleIds|
  {
    ghost var outs := DeleteOutcomes(delete, |ruleIds|);
    ghost var expected := DeleteCalls(zoneId, rulesetId, ruleIds, token);
    deleted, errors, calls := 0, [], [];
    var i := 0;
    while i < |ruleIds|
      invariant 0 <= i <= |ruleIds|
      invariant deleted == Batch.Succeeded(outs, i)
      invariant errors == Batch.Reports(ruleIds, outs, i)
      invariant calls == expected[..i]
    {
      calls := calls + [DeleteRule(zoneId, rulesetId, ruleIds[i], token)];
      var outcome := DeleteSingleRule(delete(i));
      if outcome.Done? {
        deleted := deleted + 1;
      } else {
        errors := errors + [Batch.Report(ruleIds[i], outcome.message)];
      }
      i := i + 1;
    }
    assert calls == expected;
    Batch.Accounting(outs, |ruleIds|);
    Batch.ReportsListFailures(ruleIds, outs, |ruleIds|);
  }

  /** `handleDeleteRules` as the Worker runs it. */
  method HandleDeleteRules(req: DeleteRequest, configured: Option<string>, delete: nat -> Reply<()>)
    returns (response: Response, calls: seq<Call>)
    ensures Handled(response, calls) == DeleteRules(req, configured, delete)
  {
    var token := ResolveToken(req.apiToken, configured);
    if token.None? {
      return Response(400, ErrorBody(TokenRequired)), [];
    }
    if !ValidDeleteRequest(req) {
      return Response(400, ErrorBody(InvalidDelete)), [];
    }
    var ruleIds := req.ruleIds.items;
    var deleted, errors;
    deleted, errors, calls := RemoveRules(req.zoneId.value, req.rulesetId.value, ruleIds, token.value, delete);
    if deleted == |ruleIds| {
      response := Response(200, DeleteBody(true, deleted, |ruleIds|, None));
    } else if deleted > 0 {
      response := Response(207, DeleteBody(false, deleted, |ruleIds|, Some(errors)));
    } else {
      response := Response(500, DeleteBody(false, 0, |ruleIds|, Some(errors)));
    }
  }

  /** A valid delete request is 200 exactly when every delete was accepted,
      500 exactly when none was, and 207 otherwise. */
  lemma DeleteStatusMeaning(req: DeleteRequest, configured: Option<string>, delete: nat -> Reply<()>)
    requires ResolveToken(req.apiToken, configured).Some? && ValidDeleteRequest(req)
    ensures DeleteRules(req, configured, delete).response.status == 200 <==>
      forall i :: 0 <= i < |req.ruleIds.items| ==> delete(i).Accepted()
    ensures DeleteRules(req, configured, delete).response.status == 500 <==>
      forall i :: 0 <= i < |req.ruleIds.items| ==> !delete(i).Accepted()
  {
    var ids := req.ruleIds.items;
    var outs := DeleteOutcomes(delete, |ids|);
    assert forall i :: 0 <= i < |ids| ==> (outs[i].Done? <==> delete(i).Accepted());
    Batch.AllSucceeded(outs, |ids|);
    Batch.NoneSucceeded(outs, |ids|);
  }

  /** The error lines of a failed or partial delete name exactly the failed
      ids, in input order, as "Rule {id}: {message}". */
  lemma DeleteErrorLines(req: DeleteRequest, configured: Option<string>, delete: nat -> Reply<()>)
    requires ResolveToken(req.apiToken, configured).Some? && ValidDeleteRequest(req)
    requires DeleteRules(req, configured, delete).response.status != 200
    ensures var ids, body := req.ruleIds.items, DeleteRules(req, configured, delete).response.body;
      var outs := DeleteOutcomes(delete, |ids|);
      var failed := Batch.FailedIndices(outs, |ids|);
      && body.deletedCount == |ids| - |failed|
      && |body.errors.value| == |failed|
      && forall k :: 0 <= k < |failed| ==>
           body.errors.value[k] == "Rule " + ids[failed[k]] + ": " + outs[failed[k]].message
  {
    var ids := req.ruleIds.items;
    var outs := DeleteOutcomes(delete, |ids|);
    Batch.Accounting(outs, |ids|);
    Batch.ReportsListFailures(ids, outs, |ids|);
  }

  // ------------------------------------------------------------------ list flow

  /** `handleListRules`: the ruleset lookup, then one detail read; the rules
      listed are the detail's rules (none when it has no list), and the
      total is their number. Any thrown message is a 500. */
  function ListRules(req: ListRequest, configured: Option<string>, api: ListApi): (h: Handled)
    ensures h.response.status in {200, 400, 500}
    ensures h.response.status == 400 <==> ResolveToken(req.apiToken, configured).None? || !ValidListRequest(req)
    ensures h.response.status == 400 ==> h.calls == []
    ensures ResolveToken(req.apiToken, configured).None? ==> h.response.body == ErrorBody(TokenRequired)
    ensures ResolveToken(req.apiToken, configured).Some? && !ValidListRequest(req) ==>
      h.response.body == ErrorBody(InvalidList)
    ensures ResolveToken(req.apiToken, configured).Some? && ValidListRequest(req) ==>
      if GetCustomRulesetId(api.rulesets).Failure? then
        h.response.body == ErrorBody(GetCustomRulesetId(api.rulesets).error)
      else if GetRulesetDetails(api.details).Failure? then
        h.response.body == ErrorBody(GetRulesetDetails(api.details).error)
      else if GetRulesetDetails(api.details).value.None? then
        h.response.body == ErrorBody(MissingResult)
      else h.response.status == 200
    ensures ResolveToken(req.apiToken, configured).Some? && ValidListRequest(req) ==>
      var token, zoneId := ResolveToken(req.apiToken, configured).value, req.zoneId.value;
      if GetCustomRulesetId(api.rulesets).Failure? then h.calls == [ListRulesets(zoneId, token)]
      else h.calls == [ListRulesets(zoneId, token), GetRuleset(zoneId, GetCustomRulesetId(api.rulesets).value, token)]
    ensures h.response.status != 200 ==> h.response.body.ErrorBody?
    ensures h.response.status == 200 <==>
      ResolveToken(req.apiToken, configured).Some? && ValidListRequest(req)
      && GetCustomRulesetId(api.rulesets).Success? && api.details.Accepted()
      && api.details.body.result.Some?
    ensures h.response.status == 200 ==>
      h.response.body.ListBody?
      && h.response.body.rulesetId == GetCustomRulesetId(api.rulesets).value
      && h.response.body.rules == RulesOf(api.details.body.result)
      && h.response.body.totalRules == |h.response.body.rules|
      && |h.calls| == 2 && h.calls[1].GetRuleset? && h.calls[1].rulesetId == h.response.body.rulesetId
  {
    var token := ResolveToken(req.apiToken, configured);
    if token.None? then Handled(Response(400, ErrorBody(TokenRequired)), [])
    else if !ValidListRequest(req) then Handled(Response(400, ErrorBody(InvalidList)), [])
    else
      var zoneId := req.zoneId.value;
      var lookup := [ListRulesets(zoneId, token.value)];
      match GetCustomRulesetId(api.rulesets)
      case Failure(e) => Handled(Response(500, ErrorBody(e)), lookup)
      case Success(rulesetId) =>
        var calls := lookup + [GetRuleset(zoneId, rulesetId, token.value)];
        match GetRulesetDetails(api.details)
        case Failure(e) => Handled(Response(500, ErrorBody(e)), calls)
        case Success(result) =>
          if result.None? then Handled(Response(500, ErrorBody(MissingResult)), calls)
          else
            var rules := RulesOf(result);
            Handled(Response(200, ListBody(rulesetId, rules, |rules|)), calls)
  }
}
