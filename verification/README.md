# Cloudflare custom WAF rule provisioner — request orchestration model

This Dafny project models the request orchestration of a Cloudflare Worker that adds custom WAF
rules to many zones. The Worker has three JSON handlers:

- `/api/add-rules` resolves the API token, validates the body and looks up the zone's ruleset in
  the `http_request_firewall_custom` phase. It then posts the rules one at a time, reads the
  ruleset back, and answers 200, 207 or 500.
- `/api/delete-rules` deletes rule ids one at a time and answers 200, 207 or 500.
- `/api/list-rules` looks up the custom ruleset and returns its rules.

The browser script served with the form is the multi-zone coordinator. It checks the form and
splits the zone IDs. It then posts the same rules to `/api/add-rules` once per zone, one zone
after another, and ends with one of three banners: all succeeded, all failed, or partial success.

Each call to the Cloudflare API is replaced by the reply it produced (`Cloudflare.Reply`):

- a rejected fetch or unreadable body, carrying the thrown message; or
- a response with a status, the response body text and the parsed envelope.

Per-item replies are functions indexed by attempt number. Each handler is specified by a
function that returns its response together with the list of API calls it issued, in order. The
loops that update counters and error lists step by step (the add loop, the delete loop and the
zone loop) are methods, proved against those functions.

Modules:

- `Basics`: options, results and decimal rendering.
- `Text`: ECMAScript `trim` and one-character `split`.
- `Cloudflare`: the single-call wrappers.
- `Batch`: accounting over an ordered batch of outcomes.
- `Worker`: the three handlers.
- `Client`: the submit handler of the form.

Three behaviours of the code, modelled as written:

- On the add path, `verifyRules` turns a non-2xx response or `success=false` into a marker
  object. A rejected fetch or an unreadable body is not caught there, though. It reaches the
  handler's catch, so the whole request answers 500 even though rules were already created
  (`Worker.AddRules`).
- An add batch in which no rule was created still answers 207, not 500 (`Worker.AddStatusMeaning`).
- The browser treats a zone as successful only on a 2xx status with `success: true`. A 207
  partial add therefore counts as a failed zone. Its message is "Unknown error occurred", since
  the 207 body carries no `error` field (`Client.ZoneSuccessMeansCompleteAdd`).

## Model

| member | source | states |
|---|---|---|
| Basics.NatToString | src/index.ts:1110 | a rendered position is a non-empty digit string without a leading zero |
| Basics.DecimalRoundTrip | src/index.ts:1110 | reading a rendered number back gives the number, so distinct rule positions print differently |
| Text.TrimStart | src/index.ts:611-613 | the result is a suffix of the input that starts with non-whitespace, and everything dropped is whitespace |
| Text.TrimEnd | src/index.ts:611-613 | the result is a prefix of the input that ends with non-whitespace, and everything dropped is whitespace |
| Text.Trim | src/index.ts:625 | the result is the infix of the input left after removing its leading and trailing whitespace, and it has no whitespace at either end |
| Text.TrimKeepsContent | src/index.ts:625-626 | trimming introduces no character, and it yields the empty string exactly when the input is all whitespace |
| Text.Split | src/index.ts:624 | there is at least one piece, and no piece contains the separator |
| Text.JoinSplit | src/index.ts:624 | joining the pieces with the separator gives back the input |
| Cloudflare.FirstCustom | src/index.ts:1306-1308 | returns the first position whose phase is the custom firewall phase, and none exactly when no ruleset has that phase |
| Cloudflare.GetCustomRulesetId | src/index.ts:1284-1316 | success exactly when a 2xx reply says success and lists a custom-phase ruleset; the id is that of the first such ruleset; each failure (rejected fetch, HTTP status, success=false, not found) gives its own message |
| Cloudflare.MutationOutcome | src/index.ts:1321-1348 | a mutation completes exactly when a 2xx reply says success; otherwise it fails with the thrown message, "Failed to {what}: {status} {body text}" or the success=false message |
| Cloudflare.AddSingleRule | src/index.ts:1321-1348 | a create completes exactly when its reply is accepted; a non-2xx create fails with "Failed to add rule: {status} {text}" |
| Cloudflare.DeleteSingleRule | src/index.ts:1353-1379 | a delete completes exactly when its reply is accepted; a non-2xx delete fails with "Failed to delete rule: {status} {text}" |
| Cloudflare.RulesOf | src/index.ts:1410-1411 | (definition) the rules of a detail result, or none when the result or its rule list is absent |
| Cloudflare.VerifyRules | src/index.ts:1384-1413 | throws only on a rejected fetch or unreadable body, and then with that message; a snapshot is returned exactly when the reply is accepted, and its total equals the number of rules in it; a non-2xx reply and success=false become the two marker objects |
| Cloudflare.GetRulesetDetails | src/index.ts:1418-1445 | returns the envelope's result exactly when the reply is accepted; otherwise gives the rejected fetch's message, the HTTP message or the success=false message |
| Batch.Succeeded | src/index.ts:1102-1113 | the success count of a prefix never exceeds the prefix length |
| Batch.FailedIndices | src/index.ts:1102-1113 | lists exactly the failed positions of the prefix, strictly increasing |
| Batch.Report | src/index.ts:1242 | (definition) an error line is "Rule ", the item's subject, ": " and the thrown message |
| Batch.Accounting | src/index.ts:1102-1113 | every attempted item is counted exactly once, as a success or as a failure |
| Batch.ReportsListFailures | src/index.ts:1108-1111 | there is one error line per failed item, in input order, and the k-th line names the k-th failed item with its message |
| Batch.AllSucceeded | src/index.ts:1119 | the count equals the batch size exactly when every item completed |
| Batch.NoneSucceeded | src/index.ts:1255-1270 | the count is zero exactly when every item failed |
| Worker.ValidAddRequest | src/index.ts:1091 | (definition) a truthy zoneId and a non-empty rules array |
| Worker.ValidListRequest | src/index.ts:1172 | (definition) a truthy zoneId |
| Worker.ValidDeleteRequest | src/index.ts:1226 | (definition) a truthy zoneId and rulesetId and a non-empty ruleIds array |
| Worker.AddSubject | src/index.ts:1110 | (definition) the subject of an add error line: the rule's 1-based position and its description in parentheses |
| Worker.AddSubjectNamesPosition | src/index.ts:1110 | two rules at different positions never share an error-line subject, whatever their descriptions |
| Worker.ResolveToken | src/index.ts:1076-1089 | a non-empty pasted token wins over the configured secret; the secret is the fallback; there is no token exactly when neither is present |
| Worker.AddRules | src/index.ts:1069-1145 | statuses are 200/207/400/500. 400 exactly on a missing token or invalid body, with no API call and the token error checked first. 500 exactly when the lookup fails or verification throws, and its error is the thrown message. A 200/207 body carries the located ruleset id and the verification result. Past validation, the calls are the ruleset lookup alone when it fails, and otherwise the lookup, one create per rule in input order, then the verification read. 200 means every rule was added with no errors. 207 means fewer were added, with added + error lines = total |
| Worker.ApplyRules | src/index.ts:1102-1113 | the add loop posts every rule once, in order; its count is the number of accepted creates and its errors are the batch reports; added + errors = rules |
| Worker.HandleAddRules | src/index.ts:1069-1145 | the handler's response and call sequence are those of the add specification |
| Worker.AddStatusMeaning | src/index.ts:1119-1136 | 200 exactly when every create was accepted; 207 exactly when one was not; when none was, still 207 with zero added |
| Worker.AddErrorLines | src/index.ts:1108-1111 | a 207's error lines are "Rule {i+1} ({description}): {message}" for exactly the failed rules, in order, and added = rules - failures |
| Worker.AddOutcomeIgnoresVerification | src/index.ts:1115-1136 | as long as the verification read does not throw, its reply changes neither status, calls, count nor error lines |
| Worker.DeleteStatus | src/index.ts:1248-1270 | 200 exactly when all were deleted, 207 exactly when some were, 500 exactly when none was |
| Worker.DeleteRules | src/index.ts:1204-1279 | 400 exactly on a missing token or invalid body, with no call. Otherwise the calls are one delete per id, in input order, and success holds exactly when the status is 200. 207/500 carry error lines with deleted + errors = total, and 500 means zero deleted |
| Worker.RemoveRules | src/index.ts:1234-1245 | the delete loop deletes every id once, in order; its count is the number of accepted deletes and its errors are the batch reports |
| Worker.HandleDeleteRules | src/index.ts:1204-1279 | the handler's response and call sequence are those of the delete specification |
| Worker.DeleteStatusMeaning | src/index.ts:1248-1270 | 200 exactly when every delete was accepted; 500 exactly when none was |
| Worker.DeleteErrorLines | src/index.ts:1238-1244 | error lines are "Rule {id}: {message}" for exactly the failed ids, in order |
| Worker.ListRules | src/index.ts:1150-1199 | 400 exactly on a missing token or zone, with no call; the token error comes first, then "Invalid request: zoneId is required". Past validation, the calls are the lookup alone when it fails, otherwise the lookup then one detail read of the located ruleset. 500 carries the lookup's message, the detail read's message, or the TypeError of a missing result. 200 exactly when the lookup succeeds and the detail reply is accepted with a result; the rules listed are the detail's rules and the total is their number |
| Client.TrimEach | src/index.ts:625 | one trimmed line per line, each with no whitespace at either end |
| Client.NonEmptyPositions | src/index.ts:626 | lists exactly the positions of the non-empty strings, strictly increasing |
| Client.DropEmpty | src/index.ts:626 | keeps exactly the non-empty strings, once each, in order: the k-th kept string is the one at the k-th non-empty position |
| Client.ParseZoneIds | src/index.ts:612-626 | the ids are the trimmed lines of the trimmed text that are not blank, in line order, duplicates kept; each is non-empty, trimmed and free of line breaks |
| Client.NoLineBreakInIds | src/index.ts:624-625 | lines without a line break still have none once trimmed |
| Client.NoZoneIdsMeansBlank | src/index.ts:624-633 | the form yields no zone ID, and so stops with "Please enter at least one Zone ID", exactly when the text is all whitespace |
| Client.Complete | src/index.ts:647 | (definition) a rule whose action, description and expression are all non-empty |
| Client.FirstIncomplete | src/index.ts:645-650 | returns the first rule lacking action, description or expression, and none exactly when every rule is complete |
| Client.RulesProblem | src/index.ts:636-656 | no problem exactly when the text parsed to a non-empty array of complete rules; otherwise the parse error's message, "Rules must be an array", "Rules array cannot be empty", or the missing-fields message naming the first incomplete rule's index |
| Client.ZoneRequest | src/index.ts:682-690 | the body posted for a zone carries the zone id and the rules, and the pasted token exactly when the operator chose to paste one; it passes the Worker's validation exactly when the id and the rules are non-empty |
| Client.ZoneOutcome | src/index.ts:700-722 | a zone succeeds exactly when the response is 2xx and its body says success; otherwise it fails with the body's non-empty `error`, else "Unknown error occurred", or with the rejected fetch's message |
| Client.ZoneRecordOf | src/index.ts:700-722 | a record keeps its zone id and is a success exactly when the zone's outcome is; a success stores the response body, a failure the outcome's message |
| Client.ProcessZones | src/index.ts:665-724 | posts once per zone, in order; the success count is the number of successful zones, successes + failures = zones, and records follow the zones |
| Client.Summarize | src/index.ts:728-751 | all succeeded exactly when no zone failed; all failed exactly when some failed and none succeeded; partial exactly when there are both |
| Client.DescribedByCount | src/index.ts:726-751 | the banner chosen from the counters is all-succeeded, all-failed or partial exactly as the records are |
| Client.RecordsFollowOutcomes | src/index.ts:700-722 | each record is a success exactly when its zone's outcome is |
| Client.SummaryMeaning | src/index.ts:726-751 | for a non-empty zone list, the banner describes the records |
| Client.FormProblem | src/index.ts:615-656 | checks run in the script's order: the token ("Please enter your API token"), then the zone ids ("Please enter at least one Zone ID"), then the rules, whose problem is reported as is; no problem exactly when all three pass |
| Client.Submit | src/index.ts:604-755 | a form problem posts nothing. Otherwise one request per zone, in order, with at least one request; records, counters and banner follow the zone loop |
| Client.RequestsReachBatch | src/index.ts:683-690 | every posted body passes the Worker's validation; a pasted token is the one the Worker uses; with the secret, a token exists exactly when the secret is configured |
| Client.ZoneSuccessMeansCompleteAdd | src/index.ts:702-714 | a zone succeeds exactly when the add handler answered 200; a 207 partial add is a failed zone with "Unknown error occurred" |

## Left out

- HTTP transport, `fetch`, headers, the bearer authorisation and the API URLs: each call is
  replaced by the reply it produced, and the call itself is kept only as its identifying
  arguments.
- The response body text and the JSON text of the API's `errors` array are opaque strings that
  the code only interpolates.
- `request.json()` failing on a malformed body, which ends in a 500: the handlers start from the
  parsed body.
- Falsy non-string values of `zoneId` or `apiToken`: the fields are modelled as optional strings,
  and truthiness as present and non-empty.
- Rule items that are not objects: rules are records of three strings.
- A ruleset list reply without a `result` array (a TypeError in `find`): the list is always a
  sequence.
- Request routing by path and method, the HTML page and its rendering (`innerHTML`, the progress
  markup, the "Invalid JSON:" wrapper around rule errors) and `jsonResponse` serialisation.
- `console.error` logging, and the asynchronous scheduling of the awaited calls. The calls are
  awaited one after another, so the model's order is the source's order.
- `JSON.parse` of the rules text: the parse is an input (`Client.ParsedRules`), with its error
  message kept.
- The browser script's load-and-delete form, which lists a zone's rules and deletes the selected
  ones: it is a thin caller of the list and delete handlers, which are modelled.
