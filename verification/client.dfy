/** The multi-zone coordinator: the submit handler of the browser script
    served with the form. It checks the form, splits the zone IDs, then posts
    the same rules to `/api/add-rules` once per zone, one zone after another,
    and summarises the zones as all succeeded, all failed or partial. */
module Client {
  import opened Basics
  import opened Text
  import opened Cloudflare
  import opened Worker
  import Batch

  /** Which token the operator chose: the Worker's configured secret, or one
      pasted into the form. */
  datatype TokenSource = Secret | Paste

  /** What `JSON.parse` made of the rules text area. */
  datatype ParsedRules = Unparsable(message: string) | NotAnArray | RuleArray(items: seq<RuleSpec>)

  /** The form as submitted (the text fields as typed, before trimming). */
  datatype Form = Form(tokenSource: TokenSource, pastedToken: string, zoneIdsText: string, rules: ParsedRules)

  /** What the `fetch` to `/api/add-rules` produced for one zone: it
      rejected, or the Worker's response arrived. */
  datatype Exchange = Unreachable(message: string) | Delivered(response: Response)

  /** One entry of `results`: `{zoneId, success: true, result}` or
      `{zoneId, success: false, error}`. */
  datatype ZoneRecord = ZoneSucceeded(zoneId: string, result: Body) | ZoneFailed(zoneId: string, error: string)

  /** The final banner. */
  datatype Summary = AllSucceeded | AllFailed | PartialSuccess

  /** What a submission ends in: a form error shown before any request, or
      the summary of all zones. */
  datatype Submission =
    | FormError(message: string)
    | Completed(summary: Summary, successCount: nat, failureCount: nat, records: seq<ZoneRecord>)

  const TokenMissing: string := "Please enter your API token"
  const NoZoneIds: string := "Please enter at least one Zone ID"
  const RulesNotArray: string := "Rules must be an array"
  const RulesEmpty: string := "Rules array cannot be empty"
  const UnknownError: string := "Unknown error occurred"

  function MissingFields(index: nat): string {
    "Rule at index " + NatToString(index) + " is missing required fields (action, description, expression)"
  }

  // ------------------------------------------------------------------ zone IDs

  /** `lines.map(id => id.trim())`. */
  function TrimEach(lines: seq<string>): (trimmed: seq<string>)
    ensures |trimmed| == |lines|
    ensures forall j :: 0 <= j < |lines| ==> Trimmed(trimmed[j])
  {
    seq(|lines|, j requires 0 <= j < |lines| => Trim(lines[j]))
  }

  /** The positions, in increasing order, of the non-empty strings among the
      first `n`. */
  function NonEmptyPositions(items: seq<string>, n: nat): (f: seq<nat>)
    requires n <= |items|
    ensures forall k :: 0 <= k < |f| ==> f[k] < n && items[f[k]] != ""
    ensures forall j :: 0 <= j < n && items[j] != "" ==> j in f
    ensures forall k, l :: 0 <= k < l < |f| ==> f[k] < f[l]
  {
    if n == 0 then []
    else NonEmptyPositions(items, n - 1) + (if items[n - 1] != "" then [n - 1] else [])
  }

  /** `items.filter(id => id.length > 0)` over the first `n` strings: every
      non-empty string once, in order, duplicates kept; the k-th kept string
      sits at the k-th non-empty position. */
  function DropEmpty(items: seq<string>, n: nat): (kept: seq<string>)
    requires n <= |items|
    ensures |kept| == |NonEmptyPositions(items, n)|
    ensures forall k :: 0 <= k < |kept| ==> kept[k] == items[NonEmptyPositions(items, n)[k]]
  {
    if n == 0 then []
    else DropEmpty(items, n - 1) + (if items[n - 1] != "" then [items[n - 1]] else [])
  }

  /** `zoneIdsText.trim().split('\n').map(id => id.trim()).filter(id => id.length > 0)`:
      the ids are the trimmed lines of the trimmed text that are not blank,
      in line order, duplicates kept; every ID is non-empty, has no
      surrounding whitespace and lies on one line. */
  function ParseZoneIds(text: string): (ids: seq<string>)
    ensures var trimmed := TrimEach(Split(Trim(text), '\n'));
      && |ids| == |NonEmptyPositions(trimmed, |trimmed|)|
      && forall k :: 0 <= k < |ids| ==> ids[k] == trimmed[NonEmptyPositions(trimmed, |trimmed|)[k]]
    ensures forall k :: 0 <= k < |ids| ==> ids[k] != "" && Trimmed(ids[k]) && '\n' !in ids[k]
  {
    var trimmed := TrimEach(Split(Trim(text), '\n'));
    NoLineBreakInIds(Split(Trim(text), '\n'));
    DropEmpty(trimmed, |trimmed|)
  }

  /** Lines without a line break keep none once trimmed. */
  lemma NoLineBreakInIds(lines: seq<string>)
    requires forall j :: 0 <= j < |lines| ==> '\n' !in lines[j]
    ensures forall j :: 0 <= j < |lines| ==> '\n' !in TrimEach(lines)[j]
  {
  }

  /** The form yields no zone ID exactly when the text area holds nothing
      but whitespace. */
  lemma NoZoneIdsMeansBlank(text: string)
    ensures ParseZoneIds(text) == [] <==> forall k :: 0 <= k < |text| ==> IsWhitespace(text[k])
  {
    var t := Trim(text);
    var lines := Split(t, '\n');
    var trimmed := TrimEach(lines);
    TrimKeepsContent(text);
    if t == [] {
      assert lines == [""];
      assert trimmed == [""];
      assert NonEmptyPositions(trimmed, 1) == [];
    } else {
      var first := lines[0];
      assert first[0] == t[0] by {
        assert !IsWhitespace(t[0]);
        assert t[0] != '\n';
      }
      TrimKeepsContent(first);
      assert trimmed[0] != "";
      assert 0 in NonEmptyPositions(trimmed, |trimmed|);
    }
  }

  // --------------------------------------------------------------------- rules

  /** `rule.action && rule.description && rule.expression`. */
  predicate Complete(rule: RuleSpec) {
    rule.action != "" && rule.description != "" && rule.expression != ""
  }

  /** The position `forEach` stops at: the first rule lacking a field. */
  function FirstIncomplete(rules: seq<RuleSpec>): (r: Option<nat>)
    ensures r.Some? ==> r.value < |rules| && !Complete(rules[r.value])
    ensures r.Some? ==> forall j :: 0 <= j < r.value ==> Complete(rules[j])
    ensures r.None? <==> forall j :: 0 <= j < |rules| ==> Complete(rules[j])
  {
    if rules == [] then None
    else if !Complete(rules[0]) then Some(0)
    else match FirstIncomplete(rules[1..])
      case None => None
      case Some(k) => Some(k + 1)
  }

  /** The message the rules check throws, if any: a parse error, not an
      array, an empty array, or the first rule missing a field. */
  function RulesProblem(parsed: ParsedRules): (r: Option<string>)
    ensures r.None? <==>
      parsed.RuleArray? && |parsed.items| > 0 && forall j :: 0 <= j < |parsed.items| ==> Complete(parsed.items[j])
    ensures parsed.Unparsable? ==> r == Some(parsed.message)
    ensures parsed.NotAnArray? ==> r == Some(RulesNotArray)
    ensures parsed.RuleArray? && parsed.items == [] ==> r == Some(RulesEmpty)
    ensures parsed.RuleArray? && parsed.items != [] && FirstIncomplete(parsed.items).Some? ==>
      r == Some(MissingFields(FirstIncomplete(parsed.items).value))
  {
    match parsed
    case Unparsable(m) => Some(m)
    case NotAnArray => Some(RulesNotArray)
    case RuleArray(items) =>
      if items == [] then Some(RulesEmpty)
      else match FirstIncomplete(items)
        case None => None
        case Some(i) => Some(MissingFields(i))
  }

  // --------------------------------------------------------------------- zones

  /** The request body posted for one zone; the pasted token is sent only
      when the operator chose to paste one. */
  function ZoneRequest(zoneId: string, rules: seq<RuleSpec>, source: TokenSource, pasted: string): (r: AddRequest)
    ensures r.zoneId == Some(zoneId) && r.rules == List(rules)
    ensures r.apiToken.Some? <==> source == Paste
    ensures r.apiToken.Some? ==> r.apiToken.value == pasted
    ensures ValidAddRequest(r) <==> zoneId != "" && rules != []
  {
    AddRequest(Some(zoneId), List(rules), if source == Paste then Some(pasted) else None)
  }

  function ZoneRequests(zoneIds: seq<string>, rules: seq<RuleSpec>, source: TokenSource, pasted: string): (r: seq<AddRequest>)
    ensures |r| == |zoneIds|
  {
    seq(|zoneIds|, i requires 0 <= i < |zoneIds| => ZoneRequest(zoneIds[i], rules, source, pasted))
  }

  /** A zone succeeded only if the response is 2xx and its body says
      success; otherwise it failed with the body's `error`, or "Unknown error
      occurred" when there is none, or with the rejected fetch's message. */
  function ZoneOutcome(ex: Exchange): (o: Outcome)
    ensures o.Done? <==> ex.Delivered? && 200 <= ex.response.status <= 299 && ex.response.body.Success()
    ensures o.Failed? && ex.Delivered? && !ex.response.body.ErrorBody? ==> o.message == UnknownError
    ensures o.Failed? && ex.Delivered? && ex.response.body.ErrorBody? ==>
      o.message == (if ex.response.body.error != "" then ex.response.body.error else UnknownError)
    ensures ex.Unreachable? ==> o == Failed(ex.message)
  {
    match ex
    case Unreachable(m) => Failed(m)
    case Delivered(Response(status, body)) =>
      if 200 <= status <= 299 && body.Success() then Done
      else if body.ErrorBody? && body.error != "" then Failed(body.error)
      else Failed(UnknownError)
  }

  function ZoneOutcomes(exchange: nat -> Exchange, n: nat): (outs: seq<Outcome>)
    ensures |outs| == n
  {
    seq(n, i requires 0 <= i < n => ZoneOutcome(exchange(i)))
  }

  function ZoneRecordOf(zoneId: string, ex: Exchange): (r: ZoneRecord)
    ensures r.zoneId == zoneId
    ensures r.ZoneSucceeded? <==> ZoneOutcome(ex).Done?
    ensures r.ZoneSucceeded? ==> ex.Delivered? && r.result == ex.response.body
    ensures r.ZoneFailed? ==> r.error == ZoneOutcome(ex).message
  {
    match ZoneOutcome(ex)
    case Done => ZoneSucceeded(zoneId, ex.response.body)
    case Failed(m) => ZoneFailed(zoneId, m)
  }

  function ZoneRecords(zoneIds: seq<string>, exchange: nat -> Exchange): (r: seq<ZoneRecord>)
    ensures |r| == |zoneIds|
  {
    seq(|zoneIds|, i requires 0 <= i < |zoneIds| => ZoneRecordOf(zoneIds[i], exchange(i)))
  }

  /** The banner chosen from the two counters, checked in the script's order. */
  function Summarize(successCount: nat, failureCount: nat): (summary: Summary)
    ensures summary == AllSucceeded <==> failureCount == 0
    ensures summary == AllFailed <==> failureCount > 0 && successCount == 0
    ensures summary == PartialSuccess <==> failureCount > 0 && successCount > 0
  {
    if failureCount == 0 then AllSucceeded
    else if successCount == 0 then AllFailed
    else PartialSuccess
  }

  /** The zone loop: posts to every zone once, in input order, whatever
      happened to the zones before, and records each zone's result. */
  method ProcessZones(zoneIds: seq<string>, rules: seq<RuleSpec>, source: TokenSource, pasted: string,
                      exchange: nat -> Exchange)
    returns (successCount: nat, failureCount: nat, records: seq<ZoneRecord>, requests: seq<AddRequest>)
    ensures successCount == Batch.Succeeded(ZoneOutcomes(exchange, |zoneIds|), |zoneIds|)
    ensures successCount + failureCount == |zoneIds|
    ensures records == ZoneRecords(zoneIds, exchange)
    ensures requests == ZoneRequests(zoneIds, rules, source, pasted)
  {
    ghost var outs := ZoneOutcomes(exchange, |zoneIds|);
    ghost var expectedRecords := ZoneRecords(zoneIds, exchange);
    ghost var expectedRequests := ZoneRequests(zoneIds, rules, source, pasted);
    successCount, failureCount, records, requests := 0, 0, [], [];
    var i := 0;
    while i < |zoneIds|
      invariant 0 <= i <= |zoneIds|
      invariant successCount == Batch.Succeeded(outs, i)
      invariant successCount + failureCount == i
      invariant records == expectedRecords[..i]
      invariant requests == expectedRequests[..i]
    {
      var zoneId := zoneIds[i];
      requests := requests + [ZoneRequest(zoneId, rules, source, pasted)];
      var ex := exchange(i);
      var outcome := ZoneOutcome(ex);
      if outcome.Done? {
        successCount := successCount + 1;
        records := records + [ZoneSucceeded(zoneId, ex.response.body)];
      } else {
        failureCount := failureCount + 1;
        records := records + [ZoneFailed(zoneId, outcome.message)];
      }
      i := i + 1;
    }
    assert records == expectedRecords;
    assert requests == expectedRequests;
  }

  /** The banner tells what happened to the zones: all succeeded exactly
      when every record is a success, all failed exactly when none is,
      partial exactly when there are both. */
  predicate Describes(summary: Summary, records: seq<ZoneRecord>) {
    && (summary == AllSucceeded <==> forall k :: 0 <= k < |records| ==> records[k].ZoneSucceeded?)
    && (summary == AllFailed <==> forall k :: 0 <= k < |records| ==> records[k].ZoneFailed?)
    && (summary == PartialSuccess <==>
          (exists k :: 0 <= k < |records| && records[k].ZoneSucceeded?)
          && (exists k :: 0 <= k < |records| && records[k].ZoneFailed?))
  }

  /** Counting the successes of the outcomes behind the records and choosing
      the banner from that count describes the records. */
  lemma DescribedByCount(records: seq<ZoneRecord>, outs: seq<Outcome>)
    requires 0 < |records| == |outs|
    requires forall k :: 0 <= k < |records| ==> (records[k].ZoneSucceeded? <==> outs[k].Done?)
    ensures var s := Batch.Succeeded(outs, |outs|); Describes(Summarize(s, |outs| - s), records)
  {
    Batch.AllSucceeded(outs, |outs|);
    Batch.NoneSucceeded(outs, |outs|);
  }

  /** A zone's record is a success exactly when its exchange succeeded. */
  lemma RecordsFollowOutcomes(zoneIds: seq<string>, exchange: nat -> Exchange)
    ensures var records, outs := ZoneRecords(zoneIds, exchange), ZoneOutcomes(exchange, |zoneIds|);
      forall k :: 0 <= k < |records| ==> (records[k].ZoneSucceeded? <==> outs[k].Done?)
  {
    var records, outs := ZoneRecords(zoneIds, exchange), ZoneOutcomes(exchange, |zoneIds|);
    forall k | 0 <= k < |records|
      ensures records[k].ZoneSucceeded? <==> outs[k].Done?
    {
      assert records[k] == ZoneRecordOf(zoneIds[k], exchange(k));
      assert outs[k] == ZoneOutcome(exchange(k));
    }
  }

  /** The banner chosen from the zone loop's counters describes its records. */
  lemma SummaryMeaning(zoneIds: seq<string>, exchange: nat -> Exchange)
    requires zoneIds != []
    ensures var outs := ZoneOutcomes(exchange, |zoneIds|);
      var s := Batch.Succeeded(outs, |outs|);
      Describes(Summarize(s, |outs| - s), ZoneRecords(zoneIds, exchange))
  {
    RecordsFollowOutcomes(zoneIds, exchange);
    DescribedByCount(ZoneRecords(zoneIds, exchange), ZoneOutcomes(exchange, |zoneIds|));
  }

  /** The first problem the submit handler reports before posting anything,
      checked in the script's order: a missing pasted token, no zone ID, then
      the rules. */
  function FormProblem(form: Form): (r: Option<string>)
    ensures r.None? <==>
      !(form.tokenSource == Paste && Trim(form.pastedToken) == "")
      && ParseZoneIds(form.zoneIdsText) != [] && RulesProblem(form.rules).None?
    ensures form.tokenSource == Paste && Trim(form.pastedToken) == "" ==> r == Some(TokenMissing)
    ensures !(form.tokenSource == Paste && Trim(form.pastedToken) == "") && ParseZoneIds(form.zoneIdsText) == [] ==>
      r == Some(NoZoneIds)
    ensures !(form.tokenSource == Paste && Trim(form.pastedToken) == "") && ParseZoneIds(form.zoneIdsText) != [] ==>
      r == RulesProblem(form.rules)
    ensures r.None? ==> form.rules.RuleArray? && form.rules.items != []
  {
    if form.tokenSource == Paste && Trim(form.pastedToken) == "" then Some(TokenMissing)
    else if ParseZoneIds(form.zoneIdsText) == [] then Some(NoZoneIds)
    else RulesProblem(form.rules)
  }

  /** The submit handler. A form problem posts nothing; otherwise every zone
      is posted once, in order, and the banner is chosen from the counters
      (what it then says about the records is `SummaryMeaning`). */
  method Submit(form: Form, exchange: nat -> Exchange) returns (result: Submission, requests: seq<AddRequest>)
    ensures FormProblem(form).Some? ==> result == FormError(FormProblem(form).value) && requests == []
    ensures FormProblem(form).None? ==>
      var zoneIds := ParseZoneIds(form.zoneIdsText);
      && result.Completed?
      && requests == ZoneRequests(zoneIds, form.rules.items, form.tokenSource, Trim(form.pastedToken))
      && |requests| > 0
      && result.records == ZoneRecords(zoneIds, exchange)
      && result.successCount + result.failureCount == |zoneIds|
      && result.successCount == Batch.Succeeded(ZoneOutcomes(exchange, |zoneIds|), |zoneIds|)
      && result.summary == Summarize(result.successCount, result.failureCount)
  {
    var problem := FormProblem(form);
    if problem.Some? {
      return FormError(problem.value), [];
    }
    var zoneIds := ParseZoneIds(form.zoneIdsText);
    var successCount, failureCount, records;
    successCount, failureCount, records, requests :=
      ProcessZones(zoneIds, form.rules.items, form.tokenSource, Trim(form.pastedToken), exchange);
    result := Completed(Summarize(successCount, failureCount), successCount, failureCount, records);
  }

  // ------------------------------------------------------- client and Worker

  /** Every request the script posts passes the Worker's field validation, so
      the only 400 a zone can meet is a missing token; and a pasted token is
      the one the Worker uses, whatever secret is configured. */
  lemma RequestsReachBatch(zoneIds: seq<string>, rules: seq<RuleSpec>, source: TokenSource, pasted: string,
                           configured: Option<string>)
    requires forall k :: 0 <= k < |zoneIds| ==> zoneIds[k] != ""
    requires RulesProblem(RuleArray(rules)).None?
    requires source == Paste ==> pasted != ""
    ensures forall k :: 0 <= k < |zoneIds| ==> ValidAddRequest(ZoneRequests(zoneIds, rules, source, pasted)[k])
    ensures source == Paste ==>
      forall k :: 0 <= k < |zoneIds| ==>
        ResolveToken(ZoneRequests(zoneIds, rules, source, pasted)[k].apiToken, configured) == Some(pasted)
    ensures source == Secret ==>
      forall k :: 0 <= k < |zoneIds| ==>
        (ResolveToken(ZoneRequests(zoneIds, rules, source, pasted)[k].apiToken, configured).Some?
         <==> Present(configured))
  {
  }

  /** A zone counts as a success exactly when the Worker added every rule
      (status 200). A partial add (207), even one that added all but one
      rule, counts as a failure with "Unknown error occurred". */
  lemma ZoneSuccessMeansCompleteAdd(req: AddRequest, configured: Option<string>, api: AddApi)
    ensures var response := AddRules(req, configured, api).response;
      && (ZoneOutcome(Delivered(response)).Done? <==> response.status == 200)
      && (response.status == 207 ==> ZoneOutcome(Delivered(response)) == Failed(UnknownError))
  {
  }
}
