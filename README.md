# smartmail, modelled in Dafny

smartmail runs on Cloudflare Workers and processes email in five steps:

1. The `email` handler checks the sender against a KV blacklist.
2. It fits the parsed message into a queue payload budget and enqueues it. If the enqueue throws, it writes a `failed_queue` row.
3. The `queue` consumer deduplicates each message into D1. It classifies the message through a tier chain: AI Gateway, then Workers AI, then a keyword heuristic. It then runs the action rules (Slack/webhook notifications, spam drop, manual-review escalation) and sets the email's final status.
4. A scheduled job re-sends `failed_queue` rows and deletes expired mail. Legal holds are kept, and each run writes one `cleanup_runs` row.
5. Two HTTP front ends serve the data:
   - `/api/` on the main worker, behind a bearer secret;
   - the admin dashboard worker, behind Cloudflare Access, a bearer token or a session cookie.

The model keeps that core as plain Dafny, module by module:

| module | file | models |
|---|---|---|
| `Common` | common.dfy | JavaScript string operations the code relies on (`toLowerCase`, `trim`, `split`/`join`, `indexOf`, `parseInt`, decimal rendering), with their properties proved |
| `Types` | types.dfy | `QueueMessage`, `AttachmentMeta`, `AIClassification`, `AIReplyDraft`, `ActionRuleConfig`, the environment |
| `Utils` | utils.dfy | `src/utils.ts` |
| `Ai` | ai.dfy | `src/ai.ts`: heuristics, JSON extraction, the provider fallback and the tier drivers |
| `Store` | store.dfy | `src/db.ts`: a `Database` class whose fields are the nine tables; each SQL function is a method, specified by a function on the tables |
| `Actions` | actions.dfy | `src/actions.ts` |
| `Pipeline` | pipeline.dfy | `src/index.ts`: the email handler, `processMessage`, the queue loop, the retry and retention jobs, the review SLA |
| `Api` | api.dfy | `src/api.ts` |
| `Admin` | admin.dfy | `smartmail-admin/src/index.ts`: cookies, authentication, parsers, HTML escaping, the list query, the dispatch |

External effects are parameters, never calls:

- `fetch` outcomes are `Transport` values.
- `env.AI.run` is a `WorkersReply`.
- KV is a `map<string, string>`.
- `JSON.parse` followed by a zod schema is a decoder function. Only the schemas' range checks are written out.
- The queue send and the blob store are `Option<string>` error values.
- The clock, UUIDs and elapsed time are arguments.

Store methods that may throw inside `processMessage` are chosen by a `Fault` value.

## Model

| member | source | states |
|---|---|---|
| Utils.ParsePositiveInt | src/utils.ts:7-11 | what parseInt reads when it is a finite positive number, otherwise the fallback (NaN, Infinity, zero, negative); absent input gives the fallback |
| Utils.ParsePositiveIntDecimal | src/utils.ts:7-11 | the decimal text of 0 < n < 2^1024 - 2^970 parses back to n; "0" and the text of an Infinity-sized n give the fallback |
| Utils.ParsePositiveIntInfinityEdge | src/utils.ts:7-11 | the digits of 2^1024 - 2^970 give the fallback (Infinity), the number one below is read |
| Utils.ParseMaxBodyLength | src/utils.ts:3-5 | the finite positive number parseInt reads from the setting, otherwise 10000 (NaN, Infinity, zero, negative, absent) |
| Utils.ParseExamples | src/utils.test.ts:21-30 | undefined, "0" and "15" with fallback 7 give 7, 7, 15; "not-a-number" gives 10000 |
| Utils.ParseMaxBodyLengthExample | src/utils.test.ts:23 | "512" gives 512 |
| Utils.TruncateText | src/utils.ts:13-21 | truncated iff length > max; value is the prefix of length min(length, max); unchanged iff not truncated |
| Utils.TruncateTextIdempotent | src/utils.ts:13-21 | truncating a truncated text changes nothing and reports no truncation |
| Utils.BuildDatedKey | src/utils.ts:23-29 | key starts with `prefix/` and ends with `/id.ext` |
| Utils.DecimalHasNoSlash | src/utils.ts:25-28 | the year, month and day components contain no '/' |
| Utils.BuildDatedKeySplit | src/utils.ts:23-29 | for slash-free prefix, id and extension, splitting the key on '/' gives exactly [prefix, year, mm, dd, id.ext] |
| Utils.ExtractDomain | src/utils.ts:31-34 | "" without '@'; otherwise the lower-cased text after the last '@' |
| Utils.ExtractDomainOf | src/utils.ts:31-34 | the domain of local@domain is the lower-cased domain whatever the local part holds |
| Utils.ExtractDomainExample | src/utils.test.ts:32-34 | "User@Example.COM" gives the lower-cased "Example.COM" |
| Utils.InferPriority | src/utils.ts:36-41 | the keyword priority of the lower-cased subject and sender; its cases are stated by InferPriorityCases |
| Utils.InferPriorityCases | src/utils.ts:36-41 | high iff an urgent word occurs; normal iff only a billing word occurs; low iff neither, so urgent wins |
| Utils.InferPriorityCaseInsensitive | src/utils.ts:36-41 | the priority does not depend on letter case |
| Utils.InferPriorityExample | src/utils.test.ts:36-37 | "URGENT: account down" is high |
| Utils.ApplyQueuePayloadBudget | src/utils.ts:47-76 | a payload that fits comes back unchanged; the body is a prefix; the attachments are a prefix, cut only from more than 8 to 8; a changed body is flagged; after step 1 the body is at most 4000 chars, and while still too large at most 1500 with at most 8 attachments; every other field is unchanged |
| Utils.ApplyQueuePayloadBudgetIdempotent | src/utils.ts:47-76 | applying the budget twice equals applying it once |
| Utils.ApplyQueuePayloadBudgetFits | src/utils.ts:47-76 | the result fits whenever the fully shrunk payload fits |
| Utils.ApplyQueuePayloadBudgetLongBody | src/utils.test.ts:48-66 | an oversized payload with a body over 4000 characters comes back flagged, with at most 4000 characters of body |
| Utils.ApplyQueuePayloadBudgetMayExceed | src/utils.ts:66-76 | the budget is not a guarantee: under a size function that never shrinks, the result is still over the limit |
| Ai.SchemaValid | src/ai.ts:11-52 | the classification schema's range checks: priority 1..5, confidence 0..1 |
| Ai.DraftSchemaValid | src/ai.ts:54-61 | the reply-draft schema's length checks: subject 1..200, body 1..6000 characters |
| Ai.HeuristicCategory | src/ai.ts:106-117 | the keyword category test chain; its first-match behaviour is stated by HeuristicCategoryFirstMatch |
| Ai.HeuristicCategoryFirstMatch | src/ai.ts:106-117 | the category is the first keyword group matched, in the order invoice, promo, newsletter, urgent, support; other iff none matches |
| Ai.HeuristicSummary | src/ai.ts:120 | never empty; the body's first 120 characters, else the subject, else "No content" |
| Ai.BuildHeuristicClassification | src/ai.ts:105-142 | passes the schema range checks; category from the lower-cased subject and body; confidence 0.5; non-empty summary |
| Ai.HeuristicFieldsFollowCategory | src/ai.ts:119-140 | priority 5/4/3 for urgent/support/other; sentiment urgent iff urgent; requiresReply iff support or urgent; tags = [category] |
| Ai.HeuristicCategoryCaseInsensitive | src/ai.ts:106 | the category does not depend on letter case |
| Ai.NonEmpty | src/ai.ts:435 | `filter(Boolean)`: keeps only non-empty lines, never more than given |
| Ai.BuildHeuristicReplyDraft | src/ai.ts:420-446 | not auto-send safe, tone formal, no placeholders; subject 1..200 chars, exactly the first 200 characters of "Re: "+subject, or "Re: Your message" for an empty subject; language from the classification, else non-empty |
| Ai.ReplyLinesFiltered | src/ai.ts:425-435 | filtering the eight lines keeps the summary line only for a non-empty summary |
| Ai.HeuristicReplyBody | src/ai.ts:425-436 | the body is the kept lines joined by newlines; no kept line is empty; it contains "Summary we captured: "+summary when the summary is non-empty, and five lines otherwise |
| Ai.FencedBlock | src/ai.ts:276 | a match of the ```json fence is text found in the reply |
| Ai.FencedBlockTrimmed | src/ai.ts:276 | a captured fenced block neither starts nor ends with white space |
| Ai.FencedBlockFound | src/ai.ts:276 | text without backticks, the opener, white space, a block, white space and the closer: the block is captured |
| Ai.ExtractJsonText | src/ai.ts:275-285 | parseJsonFromText before JSON.parse: the fenced block or the whole reply, cut to the first '{' .. last '}'; stated by ExtractJsonTextShape and the two round-trip lemmas |
| Ai.ExtractJsonTextShape | src/ai.ts:275-285 | with a '{' and a later '}', the text is the inclusive slice from the first '{' to the last '}'; otherwise the candidate passes unchanged |
| Ai.ExtractJsonFromFence | src/ai.ts:275-285 | a fenced JSON object is handed to JSON.parse exactly |
| Ai.ExtractJsonFromProse | src/ai.ts:275-285 | without a fence, an object in brace-free prose is handed to JSON.parse exactly |
| Ai.CanFallbackToDirectOpenAI | src/ai.ts:469-478 | the fallback decision; characterised by CanFallbackCharacterised |
| Ai.CanFallbackCharacterised | src/ai.ts:469-478 | fallback iff a base URL is set and (status >= 500, or status 400 and the body contains "gateway" in any case) |
| Ai.CanFallbackNever | src/ai.ts:474-477 | never without a base URL; never for a 4xx other than 400 |
| Ai.PartTexts | src/ai.ts:461 | one text per array element, "" for a missing text |
| Ai.ParseChatResult | src/ai.ts:448-467 | fails exactly on a non-JSON body, with the source's message; string content as is; array contents joined by "\n"; anything else "{}" |
| Ai.ParseChatResultArray | src/ai.ts:461 | newline-free part texts are recovered by splitting the content on "\n" |
| Ai.DirectChat | src/ai.ts:480-498 | a 2xx answer gives its body's parsed content; anything else, a thrown call included, fails |
| Ai.RunAIGatewayChat | src/ai.ts:313-367 | a configured gateway's 2xx answer gives its parsed content; a gateway failure that canFallbackToDirectOpenAI allows, or no gateway with a base URL, gives exactly the direct call's outcome; neither configured fails; every success is one of these |
| Ai.GatewayClientErrorFails | src/ai.ts:357-360 | a configured gateway's client error not about the gateway fails the call |
| Ai.GatewayServerErrorFallsBack | src/ai.ts:354-356 | a configured gateway's 5xx with a base URL set gives the direct call's outcome |
| Ai.GatewaySuccessIgnoresDirect | src/ai.ts:350-352 | with a working gateway the direct endpoint is never consulted |
| Ai.DecodeClassification | src/ai.ts:11-52 | succeeds iff the extracted text decodes and passes the schema's range checks, and then returns exactly the decoded classification |
| Ai.DecodeDraft | src/ai.ts:54-61 | succeeds iff the extracted text decodes and passes the schema's length checks, and then returns exactly the decoded draft |
| Ai.GatewayClassify | src/ai.ts:81-103 | succeeds iff the gateway chat succeeds and its content decodes to a valid classification; a success carries that classification, provider "ai-gateway-openai-compat" and the default model |
| Ai.WorkersClassify | src/ai.ts:198-225 | succeeds iff the binding exists, the call returns and its response (or "{}") decodes to a valid classification; a success carries it with "workers-ai" and the fallback model |
| Ai.HeuristicClassify | src/ai.ts:226-240 | provider "heuristic" with the heuristic classification |
| Ai.ClassifyWithWorkersOrHeuristic | src/ai.ts:194-241 | the Workers AI result when that tier succeeds, the heuristic result otherwise |
| Ai.WorkersReplyClassifies | src/ai.ts:198-225 | a Workers AI reply holding a valid classification is the second tier's answer |
| Ai.WorkersOrHeuristicWithoutBinding | src/ai.ts:198-240 | without the AI binding the second tier is the heuristic |
| Ai.ClassifyEmail | src/ai.ts:144-156 | total and schema-valid; gateway only with a key or token and a gateway success; Workers AI only with the binding and its success; otherwise the heuristic |
| Ai.ClassifyEmailPrefersGateway | src/ai.ts:144-152 | with credentials and a working gateway, the gateway's answer is used |
| Ai.ClassifyEmailOffline | src/ai.ts:145-147 | without credentials and without the binding, the heuristic answers |
| Ai.GatewayDraft | src/ai.ts:167-187 | succeeds iff the gateway chat succeeds and its content decodes to a valid draft; a success carries that draft, the gateway provider and the default model |
| Ai.WorkersDraft | src/ai.ts:374-397 | succeeds iff the binding exists, the call returns and its response (or "{}") decodes to a valid draft; a success carries it with "workers-ai" and the fallback model |
| Ai.GenerateReplyWithWorkersOrHeuristic | src/ai.ts:369-418 | the Workers AI draft when that tier succeeds, the heuristic draft otherwise |
| Ai.HeuristicDraft | src/ai.ts:403-417 | provider "heuristic" with the heuristic draft, never auto-send safe |
| Ai.GenerateReplyDraft | src/ai.ts:158-192 | total; the gateway draft only with a key or token and a gateway success; the Workers AI draft only with the binding and its success; otherwise the heuristic draft, after both tiers failed |
| Ai.GenerateReplyDraftPrefersGateway | src/ai.ts:163-187 | with credentials and a working gateway, the gateway's draft is used |
| Ai.GenerateReplyDraftWorkersNext | src/ai.ts:188-191 | a failed gateway hands over to a working Workers AI binding |
| Ai.GenerateReplyDraftOffline | src/ai.ts:163-165 | without credentials and without the binding, the heuristic draft |
| Ai.TrimTrailingSlashes | src/ai.ts:485 | removes exactly the trailing run of '/' |
| Ai.DirectChatUrl | src/ai.ts:485-486 | the URL ends with "/chat/completions"; a stand-alone helper, since the direct call's outcome is an input |
| Ai.DirectChatUrlSlashes | src/ai.ts:485-486 | extra trailing slashes on the base give the same URL |
| Store.CutError | src/db.ts:219 | null stays null; a message is cut to a prefix of at most 2000 characters, and unchanged when shorter |
| Store.NewEmailRow | src/db.ts:3-30 | the inserted row keeps the message ids; has_attachments iff attachments are non-empty; from_name null iff empty |
| Store.WithStatus | src/db.ts:205-220 | only row `id` changes: its status and cut last_error |
| Store.ErrorLog | src/db.ts:221-228 | one failed ai_process log iff status is error and the message is non-empty, none otherwise |
| Store.MarkFailedQueue | src/db.ts:252-256 | on conflict, only the rows with that email_message_id change, and only status, last_error and updated_at |
| Store.SaveFailedQueue | src/db.ts:231-264 | fails only on a primary-key clash; otherwise a failed_queue row with that message id exists and nothing is lost; on conflict, the update above |
| Store.WithAIResult | src/db.ts:50-97 | one row per email_id; the classification, provider and model replaced; a new row has no draft; an existing row keeps its draft |
| Store.WithReplyDraft | src/db.ts:125-138 | an UPDATE only: no row is added; only row `emailId` changes |
| Store.StoredDraft | src/db.ts:140-173 | a draft read back has a subject and a body; none exactly when neither a complete JSON draft nor a plain reply text is stored |
| Store.DraftFor | src/db.ts:140-173 | the draft read for an email: none without a result row, else StoredDraft of the row; round trips stated by ReplyDraftRoundTrip and ReplyDraftWithoutSubject |
| Store.ReplyDraftRoundTrip | src/db.ts:125-173 | a draft with a subject and a body is read back exactly as written |
| Store.ReplyDraftWithoutSubject | src/db.ts:150-170 | a draft without a subject is read back with the fallback subject around its body |
| Store.ReplyDraftNeedsResultRow | src/db.ts:125-138 | writing a draft for an email without a result row leaves nothing to read |
| Store.ReclassifyKeepsDraft | src/db.ts:74-93 | re-classifying an email keeps its stored draft |
| Store.AttachmentRows | src/db.ts:32-48 | one row per attachment, in order, keyed by the email |
| Store.RowToMessage | src/db.ts:292-346 | the message read back keeps the ids, with no HTML, normal priority and one attachment per row |
| Store.QueueMessageRoundTrip | src/db.ts:3-48 | a message stored by the dedup insert and its attachments reads back with the same ids, addresses, subject, body and attachments |
| Store.AttachmentKeys | src/db.ts:407-423 | exactly the non-null blob keys of the given emails' attachments |
| Store.Cascade | src/db.ts:425-437 | removes every row of the given ids from the seven tables; other rows stay; prompts and cleanup runs untouched |
| Store.CascadeOfNone | src/db.ts:426 | an empty id list changes nothing |
| Store.Transition | src/db.ts:518-537 | sets the status; keeps the assignee unless one is given; stamps acknowledged_at only for acknowledged and resolved_at only for resolved/closed; nothing else changes |
| Store.UpdateTasks | src/db.ts:518-537 | only the rows with that id change, each by the transition |
| Store.ReopenKeepsResolution | src/db.ts:518-537 | with no transition guard, a resolved task can go back to acknowledged and keeps its resolved_at |
| Store.Activate | src/db.ts:578-589 | only is_active changes; other names untouched; a version of that name is active iff it is the requested one |
| Store.NormalizePriority | src/db.ts:1015-1021 | always 1..5: 1 for values up to 1, 2/3/4 for exactly those values, 5 otherwise |
| Store.NormalizePriorityKeepsValid | src/db.ts:1015-1021 | a priority already in 1..5 is kept |
| Store.ClampPage | src/db.ts:760-761 | limit in [1,100], default 50, kept when in range; offset >= 0, default 0 |
| Store.SelectOldest | src/db.ts:266-281 | `ORDER BY ... ASC LIMIT n`: the first `limit` keys in ascending sort key, without repeats |
| Store.Database.InsertEmailIfNotExists | src/db.ts:3-30 | Ok(false) iff the email_message_id already exists; Ok(true) iff neither key exists, adding a processing row; otherwise the primary-key error; nothing changes unless inserted |
| Store.Database.InsertAttachments | src/db.ts:32-48 | appends one row per attachment |
| Store.Database.UpsertAIResult | src/db.ts:50-97 | the table becomes WithAIResult |
| Store.Database.UpsertReplyDraft | src/db.ts:125-138 | the table becomes WithReplyDraft |
| Store.Database.ReplyDraftOf | src/db.ts:140-173 | a draft is read only for an email with a result row |
| Store.Database.QueueMessageOf | src/db.ts:292-346 | a message iff the row exists, with that row's ids |
| Store.Database.InsertProcessingEvent | src/db.ts:175-203 | appends the event |
| Store.Database.MarkEmailStatus | src/db.ts:205-229 | status and cut last_error set on that row; the error log appended only for error with a message |
| Store.Database.SaveFailedQueueRecord | src/db.ts:231-264 | the emails table becomes SaveFailedQueue; the primary-key error leaves everything unchanged |
| Store.Database.FailedQueueKeys | src/db.ts:266-281 | exactly the failed_queue rows, with their updated_at |
| Store.Database.ListFailedQueueEmails | src/db.ts:266-281 | failed_queue rows only, least recently updated first, at most `limit` |
| Store.Database.ExpiredKeys | src/db.ts:388-405 | exactly the rows not on legal hold received before the cutoff |
| Store.Database.ListExpiredEmailObjects | src/db.ts:388-405 | those rows oldest first, at most `limit`, with their blob keys |
| Store.Database.InsertActionLog | src/db.ts:348-370 | appends the log with its error cut to 2000 characters |
| Store.Database.CreateManualReviewTask | src/db.ts:372-386 | appends a pending task |
| Store.Database.DeleteEmailCascade | src/db.ts:425-437 | the tables become Cascade of the ids |
| Store.Database.InsertCleanupRun | src/db.ts:439-459 | appends the run with its error cut |
| Store.Database.UpdateManualReviewTaskStatus | src/db.ts:518-537 | the task rows become UpdateTasks; no other table changes |
| Store.Database.CreatePromptTemplate | src/db.ts:553-576 | appends an inactive version |
| Store.Database.ActivatePromptTemplate | src/db.ts:578-589 | the templates become Activate of name and version |
| Store.IdsOf | src/db.ts:388-405 | the ids of the listed rows, in order |
| Actions.MergeRules | src/actions.ts:100-106 | each field the parsed rule has overrides the base; every other field keeps the base value |
| Actions.RuleSource | src/actions.ts:91-95 | the alias entry when present, even empty; else the global entry; none iff neither exists |
| Actions.LoadRules | src/actions.ts:90-109 | the defaults without a (non-empty) rule or when it does not parse; else the defaults merged with the parsed rule |
| Actions.AliasRuleWins | src/actions.ts:91-95 | with an alias rule, the global rule does not matter |
| Actions.EmptyAliasRuleHidesGlobal | src/actions.ts:91-97 | an empty alias rule yields the defaults even when a global rule exists |
| Actions.EmptyRuleIsDefault | src/actions.ts:4-11 | a parsed rule with no fields gives exactly the defaults |
| Actions.SlackLog | src/actions.ts:126-145 | a notify_slack log, success iff the webhook answered 2xx |
| Actions.WebhookLog | src/actions.ts:148-171 | a notify_webhook log, success iff the request did not throw, whatever the status |
| Actions.ShouldNotify | src/actions.ts:117-125 | priority at or above the threshold with Slack enabled, or a reply required |
| Actions.SlackAttempted | src/actions.ts:126 | Slack is called iff ShouldNotify and a webhook URL is set |
| Actions.WebhookAttempted | src/actions.ts:148 | the custom webhook is called iff enabled by the rules and a URL is set |
| Actions.NotificationLogs | src/actions.ts:111-173 | spam with drop: exactly one drop_spam success log; otherwise a Slack log iff Slack is attempted, a webhook log iff the webhook is attempted, and no drop_spam; the statuses as above |
| Actions.SlackFailureKeepsWebhook | src/actions.ts:126-172 | a failed Slack call does not stop the webhook: its log is still last |
| Actions.RunNotifications | src/actions.ts:111-173 | appends exactly NotificationLogs; nothing else changes |
| Actions.ReviewDecision | src/actions.ts:205-214 | a task iff auto review is on and (confidence < 0.6 or legal or urgent); P0 iff legal, P2 iff not legal and low confidence; the reason names the score iff low confidence, else the category |
| Actions.LegalLowConfidenceReason | src/actions.ts:211-214 | a low-confidence legal email is P0 with the low-confidence reason |
| Actions.HeuristicAlwaysEscalated | src/actions.ts:207 | with auto review on, a heuristic classification always opens a review task |
| Actions.ReviewEffect | src/actions.ts:205-219 | no decision, no change; otherwise one pending task, one manual_review_created log and status manual_review; only those tables change |
| Actions.MaybeCreateManualReview | src/actions.ts:199-220 | returns true iff a task was decided; the tables become ReviewEffect |
| Actions.PostAIEffect | src/actions.ts:13-23 | notifications then the review step: attachments and AI results untouched, logs only appended, no email added |
| Actions.SpamDropStillReviews | src/actions.ts:20-21 | dropped spam still opens a review task, after its drop_spam log |
| Actions.ExecutePostAIFlow | src/actions.ts:13-23 | manualReviewCreated iff a review was decided; the tables become PostAIEffect |
| Actions.AutoSendGate | src/actions.ts:31-54 | send iff every check passes; each refusal iff its check is the first to fail: Resend config, auto flag "true", a finite minimum, autoSendSafe, then confidence >= minimum |
| Actions.HeuristicDraftNeverAutoSent | src/actions.ts:46-48 | the heuristic draft is never sent automatically |
| Actions.MaybeSendReplyDraft | src/actions.ts:25-66 | a refusal writes nothing; a successful send appends one success log; a failed send throws with no write |
| Actions.SendReplyDraftNow | src/actions.ts:68-88 | without config or on a failed send, an error and no write; otherwise one success log |
| Pipeline.IsBlocked | src/index.ts:204-211 | blocked iff a non-empty entry for the lower-cased sender, or for a non-empty domain |
| Pipeline.ExtractDomainLower | src/utils.ts:31-34 | the domain of a sender does not depend on its letter case |
| Pipeline.IsBlockedCaseInsensitive | src/index.ts:204-211 | blocking does not depend on the sender's letter case |
| Pipeline.DomainEntryBlocks | src/index.ts:205-210 | a domain entry blocks every address at that domain |
| Pipeline.QueueBudget | src/index.ts:118 | the queue byte budget is positive, default 120 KiB |
| Pipeline.FinalPayload | src/index.ts:118-124 | a fitting payload is unchanged; body and attachments are prefixes; the envelope is kept; a payload still over budget after the budget steps has its body cut to 500 characters and flagged |
| Pipeline.ReceiveEmail | src/index.ts:65-135 | a blocked sender is rejected with "blocked by blacklist" and no write; a successful send writes nothing; a failed send saves a failed_queue record (nothing on a primary-key clash), then rethrows the send error |
| Pipeline.Failure | src/index.ts:193-201 | the catch block: status error with the cut message, the error log when the message is non-empty, and the same error rethrown |
| Pipeline.AfterRules | src/index.ts:188-192 | the final status is manual_review iff a review was created, else done, or the catch path |
| Pipeline.AfterAiResult | src/index.ts:187-192 | from the action step on, the run settles the row |
| Pipeline.AfterAttachments | src/index.ts:175-192 | the AI result row holds the classification, provider and model, with no draft on a new row |
| Pipeline.ProcessEffect | src/index.ts:167-202 | a duplicate returns with no write; a clashing id fails with no write; otherwise the row is added and settles in done/manual_review or error |
| Pipeline.ProcessMessage | src/index.ts:167-202 | outcome and tables are ProcessEffect |
| Pipeline.Catch | src/index.ts:193-201 | outcome and tables are Failure |
| Pipeline.StoreAttachments | src/index.ts:174 | the attachment rows, then the rest of the try block |
| Pipeline.StoreClassification | src/index.ts:175-186 | the classification upsert, then the rest |
| Pipeline.RunActions | src/index.ts:187 | the post-AI flow, then the rest |
| Pipeline.SetFinalStatus | src/index.ts:188-192 | the terminal status update |
| Pipeline.QueueStep | src/index.ts:143-156 | a malformed body is acked with no write; a processed one is acked; one that throws is retried |
| Pipeline.QueueAnswersEach | src/index.ts:142-157 | every message gets exactly one answer, and every malformed message is acked |
| Pipeline.Deliver | src/index.ts:143-156 | answer and tables are QueueStep |
| Pipeline.QueueEffect | src/index.ts:138-158 | the batch as QueueStep item by item; QueueAnswersEach states one answer each |
| Pipeline.Queue | src/index.ts:138-158 | answers and tables are QueueEffect, item by item in order |
| Pipeline.RetryOne | src/index.ts:266-279 | one listed row back to processing on a successful send, to failed_queue with the error otherwise; a missing row is skipped |
| Pipeline.RetryEffect | src/index.ts:262-281 | RetryOne over the listed ids in order; RetryOutcome states the resulting rows |
| Pipeline.RetryOutcome | src/index.ts:262-281 | each listed row ends in processing after a successful send, or failed_queue with the error; unlisted rows unchanged |
| Pipeline.RetriedRowIsSkipped | src/index.ts:167-171 | the re-sent payload of a stored row is deduplicated by processMessage: no write |
| Pipeline.RetryRow | src/index.ts:266-279 | the emails table becomes RetryOne for that row |
| Pipeline.RetryFailedQueueMessages | src/index.ts:262-281 | lists up to 50 failed_queue rows least recently updated first, and the emails table becomes RetryEffect over them |
| Pipeline.RawKeys | src/index.ts:296 | exactly the non-empty raw blob keys of the expired rows |
| Pipeline.BlobDeletes | src/index.ts:297-298 | one delete per key, in order |
| Pipeline.RetentionCutoff | src/index.ts:284-285 | the ISO text of now minus the retention days, present iff that instant is within the range a Date can hold |
| Pipeline.RetentionCutoffDefault | src/index.ts:284-285 | with the default 365 days any representable clock gives a cutoff |
| Pipeline.RetentionCutoffOutOfRange | src/index.ts:284-285 | more than 200,000,000 retention days gives no cutoff |
| Pipeline.CleanupBefore | src/index.ts:289-315 | up to 200 expired rows, oldest first; exactly one cleanup_runs row; (0,0) when none; blob deletes before the row cascade; a storage error records (0,1,error) with no rows deleted; success cascades the ids and records (n,0) |
| Pipeline.RunRetentionCleanup | src/index.ts:283-316 | a cutoff a Date cannot hold throws before the try with no write and no cleanup_runs row; otherwise exactly one cleanup_runs row, with the tables as CleanupBefore the cutoff |
| Pipeline.IsManualReviewOverdue | src/index.ts:345-349 | overdue iff more than 15 minutes elapsed for P0, 30 for P1 and 240 for any other priority |
| Pipeline.OverdueOrder | src/index.ts:345-349 | a more urgent priority is overdue no later than a less urgent one |
| Pipeline.OverdueMonotone | src/index.ts:345-349 | once overdue, always overdue; exactly at the limit, not yet |
| Api.BearerToken | src/api.ts:99-100 | the trimmed text after "Bearer ", else "" |
| Api.IsAuthorized | src/api.ts:96-102 | open when the trimmed secret is unset or empty; otherwise iff the bearer token equals the trimmed secret |
| Api.SecretRequiresBearer | src/api.ts:96-102 | with a secret, a request without a bearer header is refused |
| Api.BearerSecretAccepted | src/api.ts:96-102 | "Bearer "+secret is accepted for a secret without surrounding white space |
| Api.ReviewIdOf | src/api.ts:36 | the last '/'-separated segment of the path |
| Api.TaskEmailOf | src/api.ts:44-47 | the email of the first task with that id, if any |
| Api.UpdateKeepsTaskEmail | src/api.ts:42-48 | the status update does not change which email a task belongs to |
| Api.ReviewUpdateEffect | src/api.ts:42-58 | the task update, then one manual_review event for the task's email unless that write fails; nothing else changes |
| Api.RouteOf | src/api.ts:23-87 | the route chosen by method and path, in the order the handler tests them |
| Api.ApiEffect | src/api.ts:11-94 | 404 with no write outside /api/; 401 with no write when unauthorised; every error leaves the tables unchanged; only the PATCH route changes tasks/events and only the prompt routes change prompts |
| Api.PatchWithoutIdRefused | src/api.ts:35-37 | a PATCH whose path ends with '/' answers 400 "missing id" and writes nothing |
| Api.PatchIgnoresEventFailure | src/api.ts:42-59 | the PATCH answers {ok:true} whether or not the event write fails, and the task update happens either way |
| Api.UpdateReviewTask | src/api.ts:42-58 | the tables become ReviewUpdateEffect |
| Api.HandleApiRequest | src/api.ts:11-94 | outcome and tables are ApiEffect |
| Admin.BuildCookie | smartmail-admin/src/index.ts:474-476 | `name=enc(value);` first and `; HttpOnly; Secure; SameSite=Strict` last |
| Admin.ParseCookie | smartmail-admin/src/index.ts:463-472 | Ok(null) when no trimmed part starts with `name=`; else the decoded value of the first such part, or the URIError |
| Admin.CookieRoundTrip | smartmail-admin/src/index.ts:463-476 | a cookie built by buildCookie parses back to its value when decoding inverts encoding |
| Admin.SecretOf | smartmail-admin/src/index.ts:131-132 | the trimmed dashboard secret when set and not blank |
| Admin.IsAuthenticated | smartmail-admin/src/index.ts:124-144 | false when Access is required and there is no Access user; else true without a secret; else iff the bearer token or the cookie value equals the secret |
| Admin.LoginCookieAuthenticates | smartmail-admin/src/index.ts:113-143 | the cookie set at login authenticates |
| Admin.LogoutCookieDoesNotAuthenticate | smartmail-admin/src/index.ts:118-143 | the logout cookie does not authenticate while a secret is set |
| Admin.Login | smartmail-admin/src/index.ts:92-116 | redirect without a cookie when no secret; 401 on a mismatched trimmed token; else redirect with the session cookie for 8 hours |
| Admin.Logout | smartmail-admin/src/index.ts:118-122 | redirect with an empty-valued session cookie |
| Admin.ParseIntOrUndef | smartmail-admin/src/index.ts:450-454 | undefined for absent or empty input and for a parseInt result that is NaN or Infinity; defined exactly when the input is non-empty and parses to a finite number, and then it is that number |
| Admin.ParseIntOrUndefDecimal | smartmail-admin/src/index.ts:450-454 | decimal text below the Infinity bound reads back as its number; at or above it, undefined |
| Admin.ParseBooleanOrUndef | smartmail-admin/src/index.ts:456-461 | true iff "true"; false iff "false"; undefined otherwise |
| Admin.ReplaceAll | smartmail-admin/src/index.ts:804-807 | every output character is an input character other than the replaced one, or comes from the replacement; nothing to replace, nothing changes |
| Admin.EscapeHtml | smartmail-admin/src/index.ts:802-808 | the output contains no '<', '>' or '"' |
| Admin.EscapeHtmlChar | smartmail-admin/src/index.ts:802-808 | each character escapes to its own entity, '&' to "&amp;" |
| Admin.EscapeHtmlIsPerCharacter | smartmail-admin/src/index.ts:802-808 | because '&' goes first, the chain escapes every character exactly once |
| Admin.FiltersOf | smartmail-admin/src/index.ts:37-47 | limit and offset are parsed with defaults 50 and 0; requiresManualReview by parseBooleanOrUndef |
| Admin.Conditions | smartmail-admin/src/index.ts:196-224 | a condition is pushed iff its filter asks for it, each once, in the order tested |
| Admin.ListEmailsQuery | smartmail-admin/src/index.ts:193-228 | the pushed conditions are Conditions; limit and offset clamped to [1,100] and >= 0 |
| Admin.SliceBetween | smartmail-admin/src/index.ts:52 | `slice(start, -k)`: the middle, or "" when the ends cross |
| Admin.AdminRouteOf | smartmail-admin/src/index.ts:13-89 | a path outside /admin/api/ reaches only login, logout, home, healthz or 404; an unauthenticated /admin/api/ request gets 401 |
| Admin.GateOnlyGuardsApi | smartmail-admin/src/index.ts:17-35 | outside /admin/api/ and the home page, authentication does not change the answer |
| Admin.TimelineOverlap | smartmail-admin/src/index.ts:51-55 | "/admin/api/emails/timeline" is routed as the timeline of the empty id |
| Admin.SetReviewStatusRoute | smartmail-admin/src/index.ts:429-448 | the admin review update applies the same transition as the store's |

## Left out

- MIME parsing (PostalMime), blob uploads and `ctx.waitUntil`: a blob delete is only an event in the cleanup trace. Attachment upload and `normalizeToUint8Array` are not modelled.
- All outbound HTTP and `env.AI.run`: each call is an outcome passed in, so retries, timeouts and response headers are not modelled.
- `JSON.parse`, `JSON.stringify`, zod's structural parsing and `estimateJsonBytes`: these are decoder and size functions passed in. Only the range checks of the two schemas are written out.
- `redactPII`, `redactObjectDeep`, `safeJsonStringify`, `maskSensitive` and the prompt builders: they only shape raw traces, logs and prompts. Those texts are not modelled.
- `insertAIRawResponse`: `processMessage` never calls it, so the raw-response table is only touched by the cascade.
- `notifyOverdueManualReviews`: only its predicate `isManualReviewOverdue` is modelled. The listing and the Slack message are I/O.
- Read-only listing queries (`listManualReviewTasks`, `listPromptTemplates`, `listOverdueManualReviews`, `getAIClassificationByEmailId`, `getAdminEmailDetail`, `listProcessingEventsByEmail`, `listTimeline`, `listManualReviews`, and the rows of `listEmails`/`listAdminEmails`): the routes return them as opaque bodies. Only the WHERE conditions and the LIMIT/OFFSET clamp are modelled.
- The admin worker's reprocess and replay-action commands (`forwardInternalCommand`): no handler for them exists in the main worker, so they are routes only.
- The admin dashboard and login HTML: UI, not modelled.
- The JSON `action_config` column of action logs and the JSON `detail` column of processing events: action logs keep the email, action type, status and error, and processing events keep the email, stage and status.
- `Pipeline.ReceiveEmail`: its input `p` is the queue payload already built from the parsed message (src/index.ts:80-116). The building itself is not composed into the model: the body cut to `parseMaxBodyLength` characters with `truncateText`, the priority from `inferPriority`, the Message-ID header falling back to the queue id, the received time and the blob keys. `Utils.ParseMaxBodyLength`, `Utils.TruncateText` and `Utils.InferPriority` model those steps one by one.
- `Utils.ParsePositiveInt`, `Utils.ParseMaxBodyLength`, `Admin.ParseIntOrUndef`: the value parseInt reads is kept as an exact integer. JavaScript rounds digit strings above 2^53 to the nearest double, and that rounding is not modelled. The Infinity case is modelled: a value of at least 2^1024 - 2^970 (`Common.InfinityThreshold`) is not finite and falls back.
- `Store.CutError`, `Utils.TruncateText`, `Utils.ApplyQueuePayloadBudget`, `Pipeline.FinalPayload`: lengths are counted in characters, not in UTF-16 code units as JavaScript counts them.
- `Common.Lower` (used by every case-insensitive member): only ASCII letters are lower-cased. White space is ASCII only.
- `Store.NormalizePriority`, `Actions.ReviewDecision`, `Pipeline.IsManualReviewOverdue`: numbers are `real`, with only comparisons. NaN and infinities are not modelled.
- `Pipeline.RetentionCutoff`: the cutoff instant is computed with exact integers, while the source uses floating point, so rounding near the edge of the Date range is not modelled. The ISO rendering is an input (`isoAt`).
- `Actions.AutoSendGate`: `parseFloat` is an input (`ParsedNumber`), and only its finiteness and value are used.
- `Admin.Login`: the token is an input. Reading it from a JSON or form body is not modelled.
- `Pipeline.ProcessMessage`: store writes can fail only at the steps a `Fault` names (attachments, AI result, rule application, final status). A failure inside an individual notification or review write is not modelled.
- The `ActionRuleConfig` JSON is decoded by a parser passed in. A field set to JSON `null` counts as absent, whereas the spread in the source would copy the null.
- The `emails` table is keyed by its primary key `id` (the queue message id). `email_message_id` is kept unique by the class invariant, matching the schema's UNIQUE constraint.
- `Store.Database.UpdateManualReviewTaskStatus` accepts every status, including pending. The code has no guard, and the HTTP routes do not check the body's status either.
- The retention cleanup deletes blobs before the row cascade, as the code does (src/index.ts:297-300). When a blob delete fails, no rows are deleted and the run records (0, 1, error).
