// The action rule engine run after classification (src/actions.ts): rule
// resolution from configuration, notifications, manual-review escalation,
// and the gate in front of the automatic reply.
//
// The configuration store is a map from key to text; JSON.parse of a rule
// object is a function parameter (None when it throws). The Slack webhook,
// the custom webhook and the Resend API are Transport outcomes. Every write
// goes through Store.Database, and the effect of each operation on the
// tables is given as a specification function.

module Actions {
  import opened Common
  import opened Types
  import opened Store
  import opened Ai

  // ---------------------------------------------------------------------
  // Rules
  // ---------------------------------------------------------------------

  const DefaultRules := Rules(Drop, 4.0, 1000.0, true, false, true)

  const GlobalRuleKey := "rules:*"

  function AliasRuleKey(to: string): string { "rules:" + to }

  /** `{...base, ...cfg}`: every field the parsed object has overrides the base. */
  function MergeRules(base: Rules, cfg: ActionRuleConfig): (r: Rules)
    ensures cfg.spamAction.Some? ==> r.spamAction == cfg.spamAction.value
    ensures cfg.spamAction.None? ==> r.spamAction == base.spamAction
    ensures cfg.urgentPriorityThreshold.Some? ==> r.urgentPriorityThreshold == cfg.urgentPriorityThreshold.value
    ensures cfg.urgentPriorityThreshold.None? ==> r.urgentPriorityThreshold == base.urgentPriorityThreshold
    ensures cfg.invoiceSlackAmountThreshold.Some? ==> r.invoiceSlackAmountThreshold == cfg.invoiceSlackAmountThreshold.value
    ensures cfg.invoiceSlackAmountThreshold.None? ==> r.invoiceSlackAmountThreshold == base.invoiceSlackAmountThreshold
    ensures cfg.enableSlackNotify.Some? ==> r.enableSlackNotify == cfg.enableSlackNotify.value
    ensures cfg.enableSlackNotify.None? ==> r.enableSlackNotify == base.enableSlackNotify
    ensures cfg.enableCustomWebhook.Some? ==> r.enableCustomWebhook == cfg.enableCustomWebhook.value
    ensures cfg.enableCustomWebhook.None? ==> r.enableCustomWebhook == base.enableCustomWebhook
    ensures cfg.autoCreateManualReview.Some? ==> r.autoCreateManualReview == cfg.autoCreateManualReview.value
    ensures cfg.autoCreateManualReview.None? ==> r.autoCreateManualReview == base.autoCreateManualReview
  {
    Rules(
      cfg.spamAction.GetOr(base.spamAction),
      cfg.urgentPriorityThreshold.GetOr(base.urgentPriorityThreshold),
      cfg.invoiceSlackAmountThreshold.GetOr(base.invoiceSlackAmountThreshold),
      cfg.enableSlackNotify.GetOr(base.enableSlackNotify),
      cfg.enableCustomWebhook.GetOr(base.enableCustomWebhook),
      cfg.autoCreateManualReview.GetOr(base.autoCreateManualReview))
  }

  /** `aliasRule ?? globalRule`: an alias entry, even an empty one, hides the global one. */
  function RuleSource(config: map<string, string>, to: string): (r: Option<string>)
    ensures AliasRuleKey(to) in config ==> r == Some(config[AliasRuleKey(to)])
    ensures AliasRuleKey(to) !in config && GlobalRuleKey in config ==> r == Some(config[GlobalRuleKey])
    ensures r.None? <==> AliasRuleKey(to) !in config && GlobalRuleKey !in config
  {
    if AliasRuleKey(to) in config then Some(config[AliasRuleKey(to)])
    else if GlobalRuleKey in config then Some(config[GlobalRuleKey])
    else None
  }

  /** loadRules: the defaults, overridden field by field by the parsed rule
      text when there is a non-empty one that parses. */
  function LoadRules(config: map<string, string>, to: string, parse: string -> Option<ActionRuleConfig>): (r: Rules)
    ensures !Truthy(RuleSource(config, to)) ==> r == DefaultRules
    ensures Truthy(RuleSource(config, to)) && parse(RuleSource(config, to).value).None? ==> r == DefaultRules
    ensures Truthy(RuleSource(config, to)) && parse(RuleSource(config, to).value).Some? ==>
      r == MergeRules(DefaultRules, parse(RuleSource(config, to).value).value)
  {
    var raw := RuleSource(config, to);
    if Truthy(raw) then
      match parse(raw.value)
      case Some(cfg) => MergeRules(DefaultRules, cfg)
      case None => DefaultRules
    else DefaultRules
  }

  lemma AliasKeySuffix(to: string)
    ensures AliasRuleKey(to)[6..] == to
  {
  }

  /** When the mailbox has its own rule, the global rule does not matter. */
  lemma AliasRuleWins(config: map<string, string>, to: string, g: string,
                      parse: string -> Option<ActionRuleConfig>)
    requires AliasRuleKey(to) in config && to != "*"
    ensures LoadRules(config[GlobalRuleKey := g], to, parse) == LoadRules(config, to, parse)
  {
    AliasKeySuffix(to);
    assert GlobalRuleKey[6..] == "*";
    assert RuleSource(config[GlobalRuleKey := g], to) == RuleSource(config, to);
  }

  /** An empty alias rule yields the defaults even when a global rule exists. */
  lemma EmptyAliasRuleHidesGlobal(config: map<string, string>, to: string,
                                  parse: string -> Option<ActionRuleConfig>)
    requires AliasRuleKey(to) in config && config[AliasRuleKey(to)] == ""
    ensures LoadRules(config, to, parse) == DefaultRules
  {
  }

  /** A parsed rule with no fields is the defaults. */
  lemma EmptyRuleIsDefault()
    ensures MergeRules(DefaultRules, EmptyRuleConfig) == DefaultRules
  {
  }

  // ---------------------------------------------------------------------
  // Notifications
  // ---------------------------------------------------------------------

  predicate ShouldNotify(c: Classification, rules: Rules)
  {
    (c.priority as real >= rules.urgentPriorityThreshold && rules.enableSlackNotify) || c.requiresReply
  }

  predicate SpamDropped(c: Classification, rules: Rules)
  {
    c.category == Spam && rules.spamAction == Drop
  }

  predicate SlackAttempted(env: Env, c: Classification, rules: Rules)
  {
    ShouldNotify(c, rules) && Truthy(env.slackWebhookUrl)
  }

  predicate WebhookAttempted(env: Env, rules: Rules)
  {
    rules.enableCustomWebhook && Truthy(env.customWebhookUrl)
  }

  /** A JavaScript number printed in decimal (integers only). */
  function IntText(n: int): string
  {
    if n >= 0 then NatToDecimal(n) else "-" + NatToDecimal(-n)
  }

  /** The message sendSlack throws: its own for a non-2xx answer, the
      network error's otherwise. */
  function SlackError(t: Transport): string
  {
    match t
    case Responded(status, _) => "slack webhook failed: HTTP " + IntText(status)
    case Threw(e) => e
  }

  function SlackLog(emailId: string, t: Transport): (r: ActionLog)
    ensures r.emailId == emailId && r.actionType == "notify_slack"
    ensures r.status == LogSuccess <==> Success(t)
  {
    if Success(t) then ActionLog(emailId, "notify_slack", LogSuccess, None)
    else ActionLog(emailId, "notify_slack", LogFailed, CutError(Some(SlackError(t))))
  }

  /** The webhook counts as delivered whatever the HTTP status: only a throw fails it. */
  function WebhookLog(emailId: string, t: Transport): (r: ActionLog)
    ensures r.emailId == emailId && r.actionType == "notify_webhook"
    ensures r.status == LogSuccess <==> t.Responded?
  {
    match t
    case Responded(_, _) => ActionLog(emailId, "notify_webhook", LogSuccess, None)
    case Threw(e) => ActionLog(emailId, "notify_webhook", LogFailed, CutError(Some(e)))
  }

  function ActionTypes(logs: seq<ActionLog>): (r: seq<string>)
    ensures |r| == |logs| && forall i :: 0 <= i < |logs| ==> r[i] == logs[i].actionType
  {
    seq(|logs|, i requires 0 <= i < |logs| => logs[i].actionType)
  }

  lemma ActionNamesDistinct()
    ensures "notify_slack" != "notify_webhook" && "notify_slack" != "drop_spam" && "notify_webhook" != "drop_spam"
  {
    assert "notify_slack"[7] != "notify_webhook"[7];
  }

  /** The action logs runNotifications appends. */
  function NotificationLogs(env: Env, p: QueueMessage, c: Classification, rules: Rules,
                            slack: Transport, webhook: Transport): (r: seq<ActionLog>)
    ensures SpamDropped(c, rules) ==> r == [ActionLog(p.messageId, "drop_spam", LogSuccess, None)]
    ensures forall i :: 0 <= i < |r| ==> r[i].emailId == p.messageId
    ensures !SpamDropped(c, rules) ==> ("notify_slack" in ActionTypes(r) <==> SlackAttempted(env, c, rules))
    ensures !SpamDropped(c, rules) ==> ("notify_webhook" in ActionTypes(r) <==> WebhookAttempted(env, rules))
    ensures !SpamDropped(c, rules) ==> "drop_spam" !in ActionTypes(r)
    ensures forall i :: 0 <= i < |r| && r[i].actionType == "notify_slack" ==> (r[i].status == LogSuccess <==> Success(slack))
    ensures forall i :: 0 <= i < |r| && r[i].actionType == "notify_webhook" ==> (r[i].status == LogSuccess <==> webhook.Responded?)
  {
    if SpamDropped(c, rules) then [ActionLog(p.messageId, "drop_spam", LogSuccess, None)]
    else
      var slackPart := if SlackAttempted(env, c, rules) then [SlackLog(p.messageId, slack)] else [];
      var hookPart := if WebhookAttempted(env, rules) then [WebhookLog(p.messageId, webhook)] else [];
      ActionNamesDistinct();
      assert ActionTypes(slackPart) == if slackPart == [] then [] else ["notify_slack"];
      assert ActionTypes(hookPart) == if hookPart == [] then [] else ["notify_webhook"];
      assert ActionTypes(slackPart + hookPart) == ActionTypes(slackPart) + ActionTypes(hookPart);
      slackPart + hookPart
  }

  /** A failed Slack call does not stop the webhook: the webhook's log is the
      same whatever Slack answered. */
  lemma SlackFailureKeepsWebhook(env: Env, p: QueueMessage, c: Classification, rules: Rules,
                                 s1: Transport, s2: Transport, webhook: Transport)
    requires !SpamDropped(c, rules) && WebhookAttempted(env, rules)
    ensures NotificationLogs(env, p, c, rules, s1, webhook)[|NotificationLogs(env, p, c, rules, s1, webhook)| - 1]
         == NotificationLogs(env, p, c, rules, s2, webhook)[|NotificationLogs(env, p, c, rules, s2, webhook)| - 1]
         == WebhookLog(p.messageId, webhook)
  {
  }

  method RunNotifications(db: Database, env: Env, p: QueueMessage, c: Classification, rules: Rules,
                          slack: Transport, webhook: Transport)
    requires db.Valid()
    modifies db
    ensures db.Valid()
    ensures db.State() == old(db.State()).(actionLogs := old(db.actionLogs) + NotificationLogs(env, p, c, rules, slack, webhook))
  {
    if SpamDropped(c, rules) {
      db.InsertActionLog(p.messageId, "drop_spam", LogSuccess, None);
      return;
    }
    if SlackAttempted(env, c, rules) {
      if Success(slack) {
        db.InsertActionLog(p.messageId, "notify_slack", LogSuccess, None);
      } else {
        db.InsertActionLog(p.messageId, "notify_slack", LogFailed, Some(SlackError(slack)));
      }
    }
    if WebhookAttempted(env, rules) {
      match webhook
      case Responded(_, _) =>
        db.InsertActionLog(p.messageId, "notify_webhook", LogSuccess, None);
      case Threw(e) =>
        db.InsertActionLog(p.messageId, "notify_webhook", LogFailed, Some(e));
    }
  }

  // ---------------------------------------------------------------------
  // Manual review
  // ---------------------------------------------------------------------

  const LowConfidenceCut := 0.6

  /** The priority and reason of the review task to open, if any. */
  function ReviewDecision(c: Classification, rules: Rules): (r: Option<(ReviewPriority, ReviewReason)>)
    ensures r.Some? <==>
      (rules.autoCreateManualReview
       && (c.confidenceScore < LowConfidenceCut || c.category == Legal || c.category == Urgent))
    ensures r.Some? ==> (r.value.0 == P0 <==> c.category == Legal)
    ensures r.Some? ==> (r.value.0 == P2 <==> c.category != Legal && c.confidenceScore < LowConfidenceCut)
    ensures r.Some? ==> (r.value.1.LowConfidence? <==> c.confidenceScore < LowConfidenceCut)
    ensures r.Some? && r.value.1.LowConfidence? ==> r.value.1.score == c.confidenceScore
    ensures r.Some? && r.value.1.HighRiskCategory? ==> r.value.1.category == c.category
  {
    if !rules.autoCreateManualReview then None
    else
      var low := c.confidenceScore < LowConfidenceCut;
      var highRisk := c.category == Legal || c.category == Urgent;
      if !low && !highRisk then None
      else
        var priority := if c.category == Legal then P0 else if low then P2 else P1;
        var reason := if low then LowConfidence(c.confidenceScore) else HighRiskCategory(c.category);
        Some((priority, reason))
  }

  /** The tables after maybeCreateManualReview. */
  function ReviewEffect(t: Tables, p: QueueMessage, c: Classification, rules: Rules,
                        taskId: string, now: string): (r: Tables)
    ensures ReviewDecision(c, rules).None? ==> r == t
    ensures ReviewDecision(c, rules).Some? ==>
      && r.reviewTasks == t.reviewTasks
           + [ReviewTask(taskId, p.messageId, ReviewDecision(c, rules).value.0, ReviewDecision(c, rules).value.1,
                         TaskPending, None, None, None, now, now)]
      && r.actionLogs == t.actionLogs + [ActionLog(p.messageId, "manual_review_created", LogSuccess, None)]
      && r.emails.Keys == t.emails.Keys
      && (p.messageId in t.emails ==> r.emails[p.messageId].status == ManualReview
                                       && r.emails[p.messageId].lastError.None?)
      && r.attachments == t.attachments && r.aiResults == t.aiResults
    ensures r == t.(reviewTasks := r.reviewTasks, actionLogs := r.actionLogs, emails := r.emails)
  {
    match ReviewDecision(c, rules)
    case None => t
    case Some((priority, reason)) =>
      t.(reviewTasks := t.reviewTasks + [ReviewTask(taskId, p.messageId, priority, reason, TaskPending, None, None, None, now, now)],
         actionLogs := t.actionLogs + [ActionLog(p.messageId, "manual_review_created", LogSuccess, None)],
         emails := WithStatus(t.emails, p.messageId, ManualReview, None, now))
  }

  /** The heuristic classifier's fixed confidence is below the cut: with
      automatic review on, every heuristic result is escalated. */
  lemma HeuristicAlwaysEscalated(m: QueueMessage, rules: Rules)
    requires rules.autoCreateManualReview
    ensures ReviewDecision(HeuristicClassify(m).classification, rules).Some?
  {
  }

  /** A legal email with low confidence is P0 but its reason names the confidence. */
  lemma LegalLowConfidenceReason(c: Classification, rules: Rules)
    requires rules.autoCreateManualReview && c.category == Legal && c.confidenceScore < LowConfidenceCut
    ensures ReviewDecision(c, rules) == Some((P0, LowConfidence(c.confidenceScore)))
  {
  }

  method MaybeCreateManualReview(db: Database, p: QueueMessage, c: Classification, rules: Rules,
                                 taskId: string, now: string) returns (created: bool)
    requires db.Valid()
    modifies db
    ensures db.Valid()
    ensures created <==> ReviewDecision(c, rules).Some?
    ensures db.State() == ReviewEffect(old(db.State()), p, c, rules, taskId, now)
  {
    var decision := ReviewDecision(c, rules);
    if decision.None? {
      return false;
    }
    var (priority, reason) := decision.value;
    db.CreateManualReviewTask(taskId, p.messageId, priority, reason, now);
    db.InsertActionLog(p.messageId, "manual_review_created", LogSuccess, None);
    db.MarkEmailStatus(p.messageId, ManualReview, None, now);
    created := true;
  }

  // ---------------------------------------------------------------------
  // The post-classification flow
  // ---------------------------------------------------------------------

  /** What the flow reads from outside: configuration, the rule parser, the
      two webhook outcomes, and the id and time for a review task. */
  datatype ActionInputs = ActionInputs(
    config: map<string, string>,
    parse: string -> Option<ActionRuleConfig>,
    slack: Transport,
    webhook: Transport,
    taskId: string,
    now: string)

  /** The tables after executePostAIFlow: notifications, then the review
      decision, which the spam drop does not skip. */
  function PostAIEffect(t: Tables, env: Env, p: QueueMessage, c: Classification, inp: ActionInputs): (r: Tables)
    ensures r.attachments == t.attachments && r.aiResults == t.aiResults
    ensures r.emails.Keys == t.emails.Keys
    ensures |t.actionLogs| <= |r.actionLogs| && r.actionLogs[..|t.actionLogs|] == t.actionLogs
    ensures r == t.(reviewTasks := r.reviewTasks, actionLogs := r.actionLogs, emails := r.emails)
  {
    var rules := LoadRules(inp.config, p.to, inp.parse);
    ReviewEffect(t.(actionLogs := t.actionLogs + NotificationLogs(env, p, c, rules, inp.slack, inp.webhook)),
                 p, c, rules, inp.taskId, inp.now)
  }

  /** Spam that is dropped can still open a review task. */
  lemma SpamDropStillReviews(t: Tables, env: Env, p: QueueMessage, c: Classification, inp: ActionInputs)
    requires SpamDropped(c, LoadRules(inp.config, p.to, inp.parse))
    requires ReviewDecision(c, LoadRules(inp.config, p.to, inp.parse)).Some?
    ensures PostAIEffect(t, env, p, c, inp).actionLogs
      == t.actionLogs + [ActionLog(p.messageId, "drop_spam", LogSuccess, None),
                         ActionLog(p.messageId, "manual_review_created", LogSuccess, None)]
    ensures |PostAIEffect(t, env, p, c, inp).reviewTasks| == |t.reviewTasks| + 1
  {
  }

  method ExecutePostAIFlow(db: Database, env: Env, p: QueueMessage, c: Classification, inp: ActionInputs)
    returns (manualReviewCreated: bool)
    requires db.Valid()
    modifies db
    ensures db.Valid()
    ensures manualReviewCreated <==> ReviewDecision(c, LoadRules(inp.config, p.to, inp.parse)).Some?
    ensures db.State() == PostAIEffect(old(db.State()), env, p, c, inp)
  {
    var rules := LoadRules(inp.config, p.to, inp.parse);
    RunNotifications(db, env, p, c, rules, inp.slack, inp.webhook);
    manualReviewCreated := MaybeCreateManualReview(db, p, c, rules, inp.taskId, inp.now);
  }

  // ---------------------------------------------------------------------
  // Automatic reply
  // ---------------------------------------------------------------------

  /** Why maybeSendReplyDraft did not send. */
  datatype Refusal =
    | MissingResendConfig
    | AutoSendDisabled
    | InvalidMinConfidence
    | DraftNotSafe
    | BelowThreshold(minConfidence: real)

  const DefaultMinConfidence := 0.85

  predicate ResendConfigured(env: Env)
  {
    Truthy(env.resendApiKey) && Truthy(env.replyFromEmail)
  }

  predicate AutoSendEnabled(env: Env)
  {
    Lower(env.autoSendReply.GetOr("false")) == "true"
  }

  /** `parseFloat(AUTO_SEND_MIN_CONFIDENCE ?? "0.85")`. */
  function MinConfidence(env: Env): ParsedNumber
  {
    env.autoSendMinConfidence.GetOr(Finite(DefaultMinConfidence))
  }

  /** The ordered checks of maybeSendReplyDraft; None means send. */
  function AutoSendGate(env: Env, c: Classification, d: ReplyDraft): (r: Option<Refusal>)
    ensures r.None? <==>
      ResendConfigured(env) && AutoSendEnabled(env) && MinConfidence(env).Finite?
      && d.autoSendSafe && c.confidenceScore >= MinConfidence(env).value
    ensures r == Some(MissingResendConfig) <==> !ResendConfigured(env)
    ensures r == Some(AutoSendDisabled) <==> ResendConfigured(env) && !AutoSendEnabled(env)
    ensures r == Some(InvalidMinConfidence) <==>
      ResendConfigured(env) && AutoSendEnabled(env) && MinConfidence(env).NotFinite?
    ensures r == Some(DraftNotSafe) <==>
      ResendConfigured(env) && AutoSendEnabled(env) && MinConfidence(env).Finite? && !d.autoSendSafe
    ensures r.Some? && r.value.BelowThreshold? ==>
      d.autoSendSafe && MinConfidence(env).Finite? && r.value.minConfidence == MinConfidence(env).value
      && c.confidenceScore < r.value.minConfidence
  {
    if !ResendConfigured(env) then Some(MissingResendConfig)
    else if !AutoSendEnabled(env) then Some(AutoSendDisabled)
    else if MinConfidence(env).NotFinite? then Some(InvalidMinConfidence)
    else if !d.autoSendSafe then Some(DraftNotSafe)
    else if c.confidenceScore < MinConfidence(env).value then Some(BelowThreshold(MinConfidence(env).value))
    else None
  }

  /** The heuristic draft is never sent automatically. */
  lemma HeuristicDraftNeverAutoSent(env: Env, c: Classification, m: QueueMessage)
    ensures AutoSendGate(env, c, BuildHeuristicReplyDraft(m, c)).Some?
  {
  }

  /** The message sendReplyViaResend throws. */
  function ResendError(t: Transport): string
  {
    match t
    case Responded(status, body) => "resend send failed: HTTP " + IntText(status) + " " + body
    case Threw(e) => e
  }

  const ReplySentAction := "reply_sent_resend"

  /** maybeSendReplyDraft: Ok(None) after a send, Ok(Some(refusal)) when a
      check fails, Fail when the send throws. Only a completed send writes. */
  method MaybeSendReplyDraft(db: Database, env: Env, p: QueueMessage, c: Classification, d: ReplyDraft,
                             resend: Transport) returns (r: Result<Option<Refusal>>)
    requires db.Valid()
    modifies db
    ensures db.Valid()
    ensures AutoSendGate(env, c, d).Some? ==> r == Ok(AutoSendGate(env, c, d)) && db.State() == old(db.State())
    ensures AutoSendGate(env, c, d).None? && Success(resend) ==>
      r == Ok(None)
      && db.State() == old(db.State()).(actionLogs := old(db.actionLogs) + [ActionLog(p.messageId, ReplySentAction, LogSuccess, None)])
    ensures AutoSendGate(env, c, d).None? && !Success(resend) ==>
      r == Fail(ResendError(resend)) && db.State() == old(db.State())
  {
    var refusal := AutoSendGate(env, c, d);
    if refusal.Some? {
      return Ok(refusal);
    }
    if !Success(resend) {
      return Fail(ResendError(resend));
    }
    db.InsertActionLog(p.messageId, ReplySentAction, LogSuccess, None);
    r := Ok(None);
  }

  const MissingResendMessage := "RESEND_API_KEY or REPLY_FROM_EMAIL is not configured"

  /** sendReplyDraftNow: the manual send, with only the configuration check. */
  method SendReplyDraftNow(db: Database, env: Env, p: QueueMessage, d: ReplyDraft, resend: Transport)
    returns (r: Result<()>)
    requires db.Valid()
    modifies db
    ensures db.Valid()
    ensures !ResendConfigured(env) ==> r == Fail(MissingResendMessage) && db.State() == old(db.State())
    ensures ResendConfigured(env) && !Success(resend) ==> r == Fail(ResendError(resend)) && db.State() == old(db.State())
    ensures ResendConfigured(env) && Success(resend) ==>
      r == Ok(()) && db.State() == old(db.State()).(actionLogs := old(db.actionLogs) + [ActionLog(p.messageId, ReplySentAction, LogSuccess, None)])
  {
    if !ResendConfigured(env) {
      return Fail(MissingResendMessage);
    }
    if !Success(resend) {
      return Fail(ResendError(resend));
    }
    db.InsertActionLog(p.messageId, ReplySentAction, LogSuccess, None);
    r := Ok(());
  }
}
