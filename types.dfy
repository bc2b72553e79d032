// The records that travel through the pipeline: the queue payload built at
// ingestion, the classification and reply draft produced by the AI layer,
// the per-mailbox action rules, and the worker's configuration.

module Types {
  import opened Common

  datatype MailPriority = High | Normal | Low

  datatype AttachmentMeta = AttachmentMeta(
    filename: string,
    mimeType: string,
    size: int,
    r2Key: Option<string>)

  /** The message placed on the queue for one inbound email. */
  datatype QueueMessage = QueueMessage(
    messageId: string,
    emailId: string,
    receivedAt: string,
    to: string,
    from: string,
    fromName: string,
    subject: string,
    textBody: string,
    hasHtml: bool,
    attachments: seq<AttachmentMeta>,
    rawR2Key: string,
    parsedR2Key: Option<string>,
    bodyTruncated: Option<bool>,
    threadId: Option<string>,
    priority: MailPriority)

  datatype Category =
    | Invoice | Support | Personal | Promo | Newsletter | Spam | Urgent | Legal | Other

  /** The sentiment "urgent" is spelled UrgentSentiment to keep it apart from the category. */
  datatype Sentiment = Positive | Neutral | Negative | UrgentSentiment

  datatype Amount = Amount(value: real, currency: string, context: string)
  datatype DateMention = DateMention(date: string, context: string)

  datatype Entities = Entities(
    amounts: seq<Amount>,
    dates: seq<DateMention>,
    persons: seq<string>,
    companies: seq<string>,
    orderIds: seq<string>,
    urls: seq<string>)

  const NoEntities := Entities([], [], [], [], [], [])

  /** An AI classification. `priority` and `confidenceScore` are kept as the
      numbers a model may send; SchemaValid (module Ai) states their ranges. */
  datatype Classification = Classification(
    category: Category,
    subcategory: Option<string>,
    sentiment: Sentiment,
    priority: int,
    language: string,
    summary: string,
    tags: seq<string>,
    requiresReply: bool,
    estimatedReplyDeadline: Option<string>,
    extractedEntities: Entities,
    suggestedActions: seq<string>,
    confidenceScore: real)

  datatype ClassifyResult = ClassifyResult(classification: Classification, provider: string, model: string)

  datatype Tone = Formal | Casual | Empathetic

  datatype ReplyDraft = ReplyDraft(
    subject: string,
    body: string,
    tone: Tone,
    language: string,
    placeholders: seq<string>,
    autoSendSafe: bool)

  datatype ReplyDraftResult = ReplyDraftResult(draft: ReplyDraft, provider: string, model: string)

  datatype SpamAction = Drop | Archive

  /** A rule object as stored in configuration: every field optional. */
  datatype ActionRuleConfig = ActionRuleConfig(
    spamAction: Option<SpamAction>,
    urgentPriorityThreshold: Option<real>,
    invoiceSlackAmountThreshold: Option<real>,
    enableSlackNotify: Option<bool>,
    enableCustomWebhook: Option<bool>,
    autoCreateManualReview: Option<bool>)

  const EmptyRuleConfig := ActionRuleConfig(None, None, None, None, None, None)

  /** The rules after merging with the defaults: every field present. */
  datatype Rules = Rules(
    spamAction: SpamAction,
    urgentPriorityThreshold: real,
    invoiceSlackAmountThreshold: real,
    enableSlackNotify: bool,
    enableCustomWebhook: bool,
    autoCreateManualReview: bool)

  /** The result of `Number(x)` where only finiteness and the value matter. */
  datatype ParsedNumber = Finite(value: real) | NotFinite

  /** The worker's bindings and variables that the modelled code reads.
      `workersAi` says whether the Workers AI binding is present. */
  datatype Env = Env(
    workersAi: bool,
    cfAccountId: string,
    aiGatewayId: string,
    openaiBaseUrl: Option<string>,
    openaiApiKey: Option<string>,
    cfAigToken: Option<string>,
    slackWebhookUrl: Option<string>,
    customWebhookUrl: Option<string>,
    resendApiKey: Option<string>,
    replyFromEmail: Option<string>,
    dashboardApiSecret: Option<string>,
    autoSendReply: Option<string>,
    autoSendMinConfidence: Option<ParsedNumber>,
    maxTextBodyLength: Option<string>,
    maxQueueMessageBytes: Option<string>,
    retentionDaysEmails: Option<string>,
    defaultAiModel: Option<string>,
    fallbackAiModel: Option<string>)
}
