/** The Worker's wrappers around single calls to the Cloudflare rulesets API.
    Each call's transport is replaced by the `Reply` it produced; what the
    wrapper makes of that reply (a value, a thrown message, a marker object) is
    modelled exactly. */
module Cloudflare {
  import opened Basics

  /** A rule as the operator writes it and as it is posted to the API. */
  datatype RuleSpec = RuleSpec(action: string, description: string, expression: string)

  /** A rule as stored in a ruleset; `id` is assigned by the API. */
  datatype StoredRule = StoredRule(id: string, action: string, description: string, expression: string)

  /** One entry of the zone's ruleset list (only the fields the Worker reads). */
  datatype RulesetSummary = RulesetSummary(id: string, phase: string)

  /** The `result` of a ruleset-detail reply; `rules` may be absent. */
  datatype RulesetDetail = RulesetDetail(rules: Option<seq<StoredRule>>)

  /** The API's response envelope. `errors` is the JSON text of its `errors`
      array, which the Worker only ever interpolates. */
  datatype Envelope<T> = Envelope(success: bool, errors: string, result: T)

  /** What a `fetch` to the API produced: it rejected, or the body could not
      be read (`Raised`, with the thrown message); or a response arrived with
      an HTTP status, its raw text and its parsed envelope. */
  datatype Reply<T> =
    | Raised(message: string)
    | Answered(status: nat, text: string, body: Envelope<T>)
  {
    /** `response.ok`: the status lies in 200..299. */
    predicate Ok()
      requires Answered?
    {
      200 <= status <= 299
    }

    /** A response arrived, its status is 2xx and its envelope says success. */
    predicate Accepted() {
      Answered? && Ok() && body.success
    }
  }

  /** The API calls the Worker issues, with the arguments that identify them. */
  datatype Call =
    | ListRulesets(zoneId: string, token: string)
    | CreateRule(zoneId: string, rulesetId: string, rule: RuleSpec, token: string)
    | DeleteRule(zoneId: string, rulesetId: string, ruleId: string, token: string)
    | GetRuleset(zoneId: string, rulesetId: string, token: string)

  const CustomPhase: string := "http_request_firewall_custom"

  const RulesetNotFound: string :=
    "Custom firewall ruleset not found. Make sure the zone has WAF enabled."

  function SuccessFalse(errors: string): string {
    "API returned success=false: " + errors
  }

  function HttpFailure(what: string, status: nat, text: string): string {
    "Failed to " + what + ": " + NatToString(status) + " " + text
  }

  /** `result.find(r => r.phase === CustomPhase)`, as a position: the first
      ruleset in returned order that carries the custom firewall phase. */
  function FirstCustom(rulesets: seq<RulesetSummary>): (r: Option<nat>)
    ensures r.Some? ==> r.value < |rulesets| && rulesets[r.value].phase == CustomPhase
    ensures r.Some? ==> forall j :: 0 <= j < r.value ==> rulesets[j].phase != CustomPhase
    ensures r.None? <==> forall j :: 0 <= j < |rulesets| ==> rulesets[j].phase != CustomPhase
  {
    if rulesets == [] then None
    else if rulesets[0].phase == CustomPhase then Some(0)
    else match FirstCustom(rulesets[1..])
      case None => None
      case Some(k) => Some(k + 1)
  }

  /** `getCustomRulesetId`: the id of the first custom-phase ruleset. A
      rejected fetch, a non-2xx status, an envelope with `success=false` and
      the absence of a custom-phase ruleset each end in a thrown message. */
  function GetCustomRulesetId(reply: Reply<seq<RulesetSummary>>): (r: Result<string, string>)
    ensures r.Success? <==> reply.Accepted() && FirstCustom(reply.body.result).Some?
    ensures r.Success? ==>
      exists i :: (0 <= i < |reply.body.result| && r.value == reply.body.result[i].id
                   && reply.body.result[i].phase == CustomPhase
                   && forall j :: 0 <= j < i ==> reply.body.result[j].phase != CustomPhase)
    ensures reply.Raised? ==> r == Failure(reply.message)
    ensures reply.Answered? && !reply.Ok() ==>
      r == Failure(HttpFailure("get rulesets", reply.status, reply.text))
    ensures reply.Answered? && reply.Ok() && !reply.body.success ==>
      r == Failure(SuccessFalse(reply.body.errors))
    ensures reply.Accepted() && FirstCustom(reply.body.result).None? ==>
      r == Failure(RulesetNotFound)
  {
    match reply
    case Raised(m) => Failure(m)
    case Answered(status, text, body) =>
      if !reply.Ok() then Failure(HttpFailure("get rulesets", status, text))
      else if !body.success then Failure(SuccessFalse(body.errors))
      else match FirstCustom(body.result)
        case None => Failure(RulesetNotFound)
        case Some(i) => Success(body.result[i].id)
  }

  /** The shared success test of `addSingleRule` and `deleteSingleRule`: the
      call completed only if a 2xx response arrived whose envelope says
      success; `what` names the operation in the HTTP failure message. */
  function MutationOutcome(what: string, reply: Reply<()>): (o: Outcome)
    ensures o.Done? <==> reply.Accepted()
    ensures reply.Raised? ==> o == Failed(reply.message)
    ensures reply.Answered? && !reply.Ok() ==>
      o == Failed(HttpFailure(what, reply.status, reply.text))
    ensures reply.Answered? && reply.Ok() && !reply.body.success ==>
      o == Failed(SuccessFalse(reply.body.errors))
  {
    match reply
    case Raised(m) => Failed(m)
    case Answered(status, text, body) =>
      if !reply.Ok() then Failed(HttpFailure(what, status, text))
      else if !body.success then Failed(SuccessFalse(body.errors))
      else Done
  }

  /** `addSingleRule`: one create call. */
  function AddSingleRule(reply: Reply<()>): (o: Outcome)
    ensures o.Done? <==> reply.Accepted()
    ensures reply.Answered? && !reply.Ok() ==>
      o == Failed(HttpFailure("add rule", reply.status, reply.text))
  {
    MutationOutcome("add rule", reply)
  }

  /** `deleteSingleRule`: one delete call. */
  function DeleteSingleRule(reply: Reply<()>): (o: Outcome)
    ensures o.Done? <==> reply.Accepted()
    ensures reply.Answered? && !reply.Ok() ==>
      o == Failed(HttpFailure("delete rule", reply.status, reply.text))
  {
    MutationOutcome("delete rule", reply)
  }

  /** What `verifyRules` returns: a snapshot of the ruleset's rules, or a
      marker object `{error, details?}` describing why none was obtained. */
  datatype Verification =
    | Snapshot(totalRules: nat, rules: seq<StoredRule>)
    | Marker(error: string, details: Option<string>)

  /** The rules of a detail `result`, or none when the result or its rule
      list is absent (`result?.rules || []`). */
  function RulesOf(result: Option<RulesetDetail>): seq<StoredRule> {
    if result.Some? && result.value.rules.Some? then result.value.rules.value else []
  }

  /** `verifyRules`. A non-2xx response or an envelope with `success=false`
      becomes a marker, never a thrown message; only a rejected fetch or an
      unreadable body throws. A snapshot's count is the length of its list. */
  function VerifyRules(reply: Reply<Option<RulesetDetail>>): (r: Result<Verification, string>)
    ensures r.Failure? <==> reply.Raised?
    ensures reply.Raised? ==> r == Failure(reply.message)
    ensures r.Success? ==> (r.value.Snapshot? <==> reply.Accepted())
    ensures r.Success? && r.value.Snapshot? ==>
      r.value.totalRules == |r.value.rules| && r.value.rules == RulesOf(reply.body.result)
    ensures reply.Answered? && !reply.Ok() ==>
      r == Success(Marker("Failed to verify: " + NatToString(reply.status), None))
    ensures reply.Answered? && reply.Ok() && !reply.body.success ==>
      r == Success(Marker("Verification failed", Some(reply.body.errors)))
  {
    match reply
    case Raised(m) => Failure(m)
    case Answered(status, _, body) =>
      if !reply.Ok() then Success(Marker("Failed to verify: " + NatToString(status), None))
      else if !body.success then Success(Marker("Verification failed", Some(body.errors)))
      else
        var rules := RulesOf(body.result);
        Success(Snapshot(|rules|, rules))
  }

  /** `getRulesetDetails`: the envelope's `result`, or a thrown message. */
  function GetRulesetDetails(reply: Reply<Option<RulesetDetail>>): (r: Result<Option<RulesetDetail>, string>)
    ensures r.Success? <==> reply.Accepted()
    ensures r.Success? ==> r.value == reply.body.result
    ensures reply.Raised? ==> r == Failure(reply.message)
    ensures reply.Answered? && !reply.Ok() ==>
      r == Failure(HttpFailure("get ruleset details", reply.status, reply.text))
    ensures reply.Answered? && reply.Ok() && !reply.body.success ==>
      r == Failure(SuccessFalse(reply.body.errors))
  {
    match reply
    case Raised(m) => Failure(m)
    case Answered(status, text, body) =>
      if !reply.Ok() then Failure(HttpFailure("get ruleset details", status, text))
      else if !body.success then Failure(SuccessFalse(body.errors))
      else Success(body.result)
  }
}
