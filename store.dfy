// The D1 tables behind the pipeline and the statements src/db.ts runs on
// them, as an in-memory database. Each table is a field of class Database;
// each statement is a method that reassigns the tables it writes. The
// effect of every statement on a table is also given as a pure function
// on table values, so that its properties can be stated and proved once.
//
// Timestamps (CURRENT_TIMESTAMP, new Date()) and row ids (randomUUID) are
// parameters. Text columns holding JSON are kept as the values they encode.

module Store {
  import opened Common
  import opened Types

  // ---------------------------------------------------------------------
  // Rows
  // ---------------------------------------------------------------------

  /** emails.status. `Errored` is the status spelled "error". */
  datatype EmailStatus = Pending | Processing | Done | Errored | FailedQueue | ManualReview

  datatype EmailRow = EmailRow(
    id: string,
    emailMessageId: string,
    threadId: Option<string>,
    receivedAt: string,
    toAddress: string,
    fromAddress: string,
    fromName: Option<string>,
    subject: string,
    textBody: Option<string>,
    hasAttachments: bool,
    rawR2Key: Option<string>,
    parsedR2Key: Option<string>,
    status: EmailStatus,
    lastError: Option<string>,
    legalHold: bool,
    updatedAt: string)

  datatype AttachmentRow = AttachmentRow(
    emailId: string,
    filename: string,
    mimeType: Option<string>,
    size: Option<int>,
    r2Key: Option<string>)

  /** email_ai_results.reply_draft_json: the draft it encodes, or text that
      does not parse as one. */
  datatype DraftJson = DraftText(draft: ReplyDraft) | Unparsable

  datatype AiResultRow = AiResultRow(
    emailId: string,
    classification: Classification,
    provider: string,
    model: string,
    processingMs: int,
    replyDraft: Option<string>,
    replyDraftJson: Option<DraftJson>)

  datatype RawResponseRow = RawResponseRow(emailId: string, provider: string, model: string)

  datatype LogStatus = LogSuccess | LogFailed

  datatype ActionLog = ActionLog(
    emailId: string,
    actionType: string,
    status: LogStatus,
    errorMsg: Option<string>)

  datatype ReviewPriority = P0 | P1 | P2

  datatype TaskStatus = TaskPending | Acknowledged | TaskProcessing | Resolved | Closed

  /** Why a review task was opened: "Low confidence score: <score>" or
      "High risk category: <category>". */
  datatype ReviewReason = LowConfidence(score: real) | HighRiskCategory(category: Category)

  datatype ReviewTask = ReviewTask(
    id: string,
    emailId: string,
    priority: ReviewPriority,
    reason: ReviewReason,
    status: TaskStatus,
    assignee: Option<string>,
    acknowledgedAt: Option<string>,
    resolvedAt: Option<string>,
    createdAt: string,
    updatedAt: string)

  datatype Stage =
    | Received | Queued | StageProcessing | AiDone | ActionDone | StageManualReview | StageError | Retry

  datatype EventStatus = EventOk | EventRetry | EventFailed

  datatype ProcessingEvent = ProcessingEvent(emailId: string, stage: Stage, status: EventStatus)

  datatype PromptTemplate = PromptTemplate(
    id: string,
    name: string,
    version: string,
    content: string,
    isActive: bool)

  datatype CleanupRun = CleanupRun(
    deletedCount: int,
    failedCount: int,
    errorMsg: Option<string>,
    finishedAt: string)

  /** A row of listExpiredEmailObjects. */
  datatype EmailObject = EmailObject(id: string, rawR2Key: Option<string>)

  /** All tables at once. */
  datatype Tables = Tables(
    emails: map<string, EmailRow>,
    attachments: seq<AttachmentRow>,
    aiResults: map<string, AiResultRow>,
    rawResponses: seq<RawResponseRow>,
    actionLogs: seq<ActionLog>,
    reviewTasks: seq<ReviewTask>,
    processingEvents: seq<ProcessingEvent>,
    promptTemplates: seq<PromptTemplate>,
    cleanupRuns: seq<CleanupRun>)

  const ErrorTextLimit: nat := 2000

  /** `text?.slice(0, 2000) ?? null`. */
  function CutError(text: Option<string>): (r: Option<string>)
    ensures r.None? <==> text.None?
    ensures r.Some? ==> |r.value| <= ErrorTextLimit && StartsWith(text.value, r.value)
    ensures r.Some? && |text.value| <= ErrorTextLimit ==> r == text
  {
    match text
    case None => None
    case Some(t) => Some(Take(t, ErrorTextLimit))
  }

  // ---------------------------------------------------------------------
  // emails
  // ---------------------------------------------------------------------

  predicate HasMessageId(emails: map<string, EmailRow>, mid: string)
  {
    exists k :: k in emails && emails[k].emailMessageId == mid
  }

  /** The row the two INSERT statements build from a queue message. */
  function NewEmailRow(m: QueueMessage, status: EmailStatus, lastError: Option<string>, now: string): (r: EmailRow)
    ensures r.id == m.messageId && r.emailMessageId == m.emailId
    ensures r.hasAttachments <==> |m.attachments| > 0
    ensures r.fromName.None? <==> m.fromName == ""
    ensures r.status == status && r.lastError == lastError && !r.legalHold
  {
    EmailRow(m.messageId, m.emailId, m.threadId, m.receivedAt, m.to, m.from,
      if m.fromName == "" then None else Some(m.fromName),
      m.subject, Some(m.textBody), |m.attachments| > 0, Some(m.rawR2Key), m.parsedR2Key,
      status, lastError, false, now)
  }

  /** The UPDATE of markEmailStatus on the emails table. */
  function WithStatus(emails: map<string, EmailRow>, id: string, status: EmailStatus,
                      errorMsg: Option<string>, now: string): (r: map<string, EmailRow>)
    ensures r.Keys == emails.Keys
    ensures forall k :: k in emails && k != id ==> r[k] == emails[k]
    ensures id in emails ==> r[id].status == status && r[id].lastError == CutError(errorMsg)
    ensures id in emails ==>
      r[id].(status := emails[id].status, lastError := emails[id].lastError, updatedAt := emails[id].updatedAt)
        == emails[id]
  {
    if id in emails then
      emails[id := emails[id].(status := status, lastError := CutError(errorMsg), updatedAt := now)]
    else emails
  }

  /** The ON CONFLICT(email_message_id) DO UPDATE branch of saveFailedQueueRecord. */
  function MarkFailedQueue(emails: map<string, EmailRow>, mid: string, reason: string, now: string)
    : (r: map<string, EmailRow>)
    ensures r.Keys == emails.Keys
    ensures forall k :: k in emails && emails[k].emailMessageId != mid ==> r[k] == emails[k]
    ensures forall k :: k in emails && emails[k].emailMessageId == mid ==>
      r[k].status == FailedQueue && r[k].lastError == Some(Take(reason, ErrorTextLimit))
    ensures forall k :: k in emails ==>
      r[k].(status := emails[k].status, lastError := emails[k].lastError, updatedAt := emails[k].updatedAt)
        == emails[k]
  {
    map k | k in emails ::
      if emails[k].emailMessageId == mid
      then emails[k].(status := FailedQueue, lastError := Some(Take(reason, ErrorTextLimit)), updatedAt := now)
      else emails[k]
  }

  const PrimaryKeyTaken := "UNIQUE constraint failed: emails.id"

  /** saveFailedQueueRecord on the emails table: a new failed_queue row, the
      row with the same email_message_id re-marked, or a failure when only
      the primary key is taken. */
  function SaveFailedQueue(emails: map<string, EmailRow>, m: QueueMessage, reason: string, now: string)
    : (r: Result<map<string, EmailRow>>)
    ensures r.Fail? <==> !HasMessageId(emails, m.emailId) && m.messageId in emails
    ensures r.Ok? ==> emails.Keys <= r.value.Keys && HasMessageId(r.value, m.emailId)
    ensures r.Ok? ==> forall k :: k in r.value && r.value[k].emailMessageId == m.emailId ==>
      r.value[k].status == FailedQueue && r.value[k].lastError == Some(Take(reason, ErrorTextLimit))
    ensures HasMessageId(emails, m.emailId) ==> r == Ok(MarkFailedQueue(emails, m.emailId, reason, now))
  {
    if HasMessageId(emails, m.emailId) then Ok(MarkFailedQueue(emails, m.emailId, reason, now))
    else if m.messageId in emails then Fail(PrimaryKeyTaken)
    else
      var row := NewEmailRow(m, FailedQueue, Some(Take(reason, ErrorTextLimit)), now);
      assert emails[m.messageId := row][m.messageId].emailMessageId == m.emailId;
      Ok(emails[m.messageId := row])
  }

  // ---------------------------------------------------------------------
  // email_ai_results
  // ---------------------------------------------------------------------

  /** upsertAIResult: insert, or on conflict replace the classification
      columns and keep the reply draft columns. */
  function WithAIResult(results: map<string, AiResultRow>, emailId: string, c: Classification,
                        provider: string, model: string, ms: int): (r: map<string, AiResultRow>)
    ensures r.Keys == results.Keys + {emailId}
    ensures forall k :: k in results && k != emailId ==> r[k] == results[k]
    ensures r[emailId].classification == c
    ensures r[emailId].emailId == if emailId in results then results[emailId].emailId else emailId
    ensures r[emailId].provider == provider && r[emailId].model == model
    ensures emailId in results ==>
      r[emailId].replyDraft == results[emailId].replyDraft
      && r[emailId].replyDraftJson == results[emailId].replyDraftJson
    ensures emailId !in results ==> r[emailId].replyDraft.None? && r[emailId].replyDraftJson.None?
  {
    if emailId in results then
      results[emailId := results[emailId].(classification := c, provider := provider, model := model,
                                           processingMs := ms)]
    else
      results[emailId := AiResultRow(emailId, c, provider, model, ms, None, None)]
  }

  /** upsertReplyDraft: an UPDATE only; an email without a result row gets none. */
  function WithReplyDraft(results: map<string, AiResultRow>, emailId: string, d: ReplyDraft)
    : (r: map<string, AiResultRow>)
    ensures r.Keys == results.Keys
    ensures forall k :: k in results && k != emailId ==> r[k] == results[k]
    ensures emailId in results ==>
      r[emailId].replyDraft == Some(d.body) && r[emailId].replyDraftJson == Some(DraftText(d))
      && r[emailId].classification == results[emailId].classification
  {
    if emailId in results then
      results[emailId := results[emailId].(replyDraft := Some(d.body), replyDraftJson := Some(DraftText(d)))]
    else results
  }

  const FallbackDraftSubject := "Re: Your message"

  /** getReplyDraftByEmailId on one row: the stored JSON draft when it has a
      subject and a body, else a formal English draft around the plain
      reply text when that is non-empty, else nothing. */
  function StoredDraft(row: AiResultRow): (r: Option<ReplyDraft>)
    ensures r.Some? ==> r.value.subject != "" && r.value.body != ""
    ensures r.None? <==>
      !(row.replyDraftJson.Some? && row.replyDraftJson.value.DraftText?
        && row.replyDraftJson.value.draft.subject != "" && row.replyDraftJson.value.draft.body != "")
      && !Truthy(row.replyDraft)
  {
    if row.replyDraftJson.Some? && row.replyDraftJson.value.DraftText?
       && row.replyDraftJson.value.draft.subject != "" && row.replyDraftJson.value.draft.body != ""
    then Some(row.replyDraftJson.value.draft)
    else if !Truthy(row.replyDraft) then None
    else Some(ReplyDraft(FallbackDraftSubject, row.replyDraft.value, Formal, "en", [], false))
  }

  function DraftFor(results: map<string, AiResultRow>, emailId: string): Option<ReplyDraft>
  {
    if emailId in results then StoredDraft(results[emailId]) else None
  }

  /** A draft with a subject and a body is read back exactly as written. */
  lemma ReplyDraftRoundTrip(results: map<string, AiResultRow>, emailId: string, d: ReplyDraft)
    requires emailId in results && d.subject != "" && d.body != ""
    ensures DraftFor(WithReplyDraft(results, emailId, d), emailId) == Some(d)
  {
  }

  /** A draft without a subject is read back as the fallback draft around its body. */
  lemma ReplyDraftWithoutSubject(results: map<string, AiResultRow>, emailId: string, d: ReplyDraft)
    requires emailId in results && d.subject == "" && d.body != ""
    ensures DraftFor(WithReplyDraft(results, emailId, d), emailId)
      == Some(ReplyDraft(FallbackDraftSubject, d.body, Formal, "en", [], false))
  {
  }

  /** Writing a draft for an email with no result row leaves nothing to read. */
  lemma ReplyDraftNeedsResultRow(results: map<string, AiResultRow>, emailId: string, d: ReplyDraft)
    requires emailId !in results
    ensures DraftFor(WithReplyDraft(results, emailId, d), emailId).None?
  {
  }

  /** Re-classifying an email keeps the reply draft read back for it. */
  lemma ReclassifyKeepsDraft(results: map<string, AiResultRow>, emailId: string, c: Classification,
                             provider: string, model: string, ms: int)
    ensures DraftFor(WithAIResult(results, emailId, c, provider, model, ms), emailId)
      == DraftFor(results, emailId)
  {
  }

  // ---------------------------------------------------------------------
  // attachments, read-back of a queue message
  // ---------------------------------------------------------------------

  function AttachmentRows(emailId: string, atts: seq<AttachmentMeta>): (r: seq<AttachmentRow>)
    ensures |r| == |atts|
    ensures forall i :: 0 <= i < |r| ==> r[i].emailId == emailId && r[i].filename == atts[i].filename
  {
    seq(|atts|, i requires 0 <= i < |atts| =>
      AttachmentRow(emailId, atts[i].filename, Some(atts[i].mimeType), Some(atts[i].size), atts[i].r2Key))
  }

  const DefaultMimeType := "application/octet-stream"

  function AttachmentMetaOf(a: AttachmentRow): AttachmentMeta
  {
    AttachmentMeta(a.filename, a.mimeType.GetOr(DefaultMimeType), a.size.GetOr(0), a.r2Key)
  }

  /** getQueueMessageById on the email row and its attachment rows. */
  function RowToMessage(row: EmailRow, atts: seq<AttachmentRow>): (m: QueueMessage)
    ensures m.messageId == row.id && m.emailId == row.emailMessageId
    ensures !m.hasHtml && m.priority == Normal && m.bodyTruncated.None?
    ensures |m.attachments| == |atts|
  {
    QueueMessage(row.id, row.emailMessageId, row.receivedAt, row.toAddress, row.fromAddress,
      row.fromName.GetOr(""), row.subject, row.textBody.GetOr(""), false,
      seq(|atts|, i requires 0 <= i < |atts| => AttachmentMetaOf(atts[i])),
      row.rawR2Key.GetOr(""), row.parsedR2Key, None, row.threadId, Normal)
  }

  /** A message stored by the dedup insert and its attachments is read back
      as sent, except for the fields the table does not keep. */
  lemma QueueMessageRoundTrip(m: QueueMessage, now: string)
    ensures RowToMessage(NewEmailRow(m, Processing, None, now), AttachmentRows(m.messageId, m.attachments))
      == m.(hasHtml := false, priority := Normal, bodyTruncated := None)
  {
    var back := RowToMessage(NewEmailRow(m, Processing, None, now), AttachmentRows(m.messageId, m.attachments));
    assert back.attachments == m.attachments;
  }

  /** `WHERE email_id IN (ids)` as a filter keeping the other rows, in order. */
  function Keep<T(!new)>(rows: seq<T>, emailIdOf: T -> string, ids: seq<string>): (r: seq<T>)
    ensures |r| <= |rows|
    ensures forall x :: x in r <==> x in rows && emailIdOf(x) !in ids
  {
    if |rows| == 0 then []
    else if emailIdOf(rows[0]) in ids then Keep(rows[1..], emailIdOf, ids)
    else [rows[0]] + Keep(rows[1..], emailIdOf, ids)
  }

  lemma {:induction false} KeepNothing<T(!new)>(rows: seq<T>, emailIdOf: T -> string)
    ensures Keep(rows, emailIdOf, []) == rows
  {
    if |rows| > 0 {
      KeepNothing(rows[1..], emailIdOf);
      assert rows == [rows[0]] + rows[1..];
    }
  }

  /** The rows whose email id is `id`, in table order. */
  function RowsOf(atts: seq<AttachmentRow>, id: string): (r: seq<AttachmentRow>)
    ensures forall x :: x in r <==> x in atts && x.emailId == id
  {
    if |atts| == 0 then []
    else if atts[0].emailId == id then [atts[0]] + RowsOf(atts[1..], id)
    else RowsOf(atts[1..], id)
  }

  lemma {:induction false} RowsOfAppend(a: seq<AttachmentRow>, b: seq<AttachmentRow>, id: string)
    ensures RowsOf(a + b, id) == RowsOf(a, id) + RowsOf(b, id)
  {
    if |a| > 0 {
      RowsOfAppend(a[1..], b, id);
      assert (a + b)[1..] == a[1..] + b;
    } else {
      assert a + b == b;
    }
  }

  lemma {:induction false} RowsOfSame(a: seq<AttachmentRow>, id: string)
    requires forall i :: 0 <= i < |a| ==> a[i].emailId == id
    ensures RowsOf(a, id) == a
  {
    if |a| > 0 {
      RowsOfSame(a[1..], id);
      assert a == [a[0]] + a[1..];
    }
  }

  /** listAttachmentKeysByEmailIds: the non-null blob keys of the attachments
      of the given emails. */
  function AttachmentKeys(atts: seq<AttachmentRow>, ids: seq<string>): (r: seq<string>)
    ensures |r| <= |atts|
    ensures forall k :: k in r <==> exists a :: a in atts && a.emailId in ids && a.r2Key == Some(k)
  {
    if |atts| == 0 then []
    else
      var rest := AttachmentKeys(atts[1..], ids);
      assert forall a :: a in atts <==> a == atts[0] || a in atts[1..];
      if atts[0].emailId in ids && atts[0].r2Key.Some? then [atts[0].r2Key.value] + rest else rest
  }

  // ---------------------------------------------------------------------
  // Cascading delete
  // ---------------------------------------------------------------------

  function TaskEmailId(t: ReviewTask): string { t.emailId }
  function LogEmailId(l: ActionLog): string { l.emailId }
  function EventEmailId(e: ProcessingEvent): string { e.emailId }
  function RawEmailId(r: RawResponseRow): string { r.emailId }
  function AttachmentEmailId(a: AttachmentRow): string { a.emailId }

  /** deleteEmailCascade: the seven deletes of one batch. */
  function Cascade(t: Tables, ids: seq<string>): (r: Tables)
    ensures r.emails.Keys == t.emails.Keys - set k | k in ids
    ensures forall k :: k in r.emails ==> r.emails[k] == t.emails[k]
    ensures r.aiResults.Keys == t.aiResults.Keys - set k | k in ids
    ensures forall k :: k in r.aiResults ==> r.aiResults[k] == t.aiResults[k]
    ensures forall a :: a in r.attachments <==> a in t.attachments && a.emailId !in ids
    ensures forall x :: x in r.rawResponses <==> x in t.rawResponses && x.emailId !in ids
    ensures forall x :: x in r.actionLogs <==> x in t.actionLogs && x.emailId !in ids
    ensures forall x :: x in r.reviewTasks <==> x in t.reviewTasks && x.emailId !in ids
    ensures forall x :: x in r.processingEvents <==> x in t.processingEvents && x.emailId !in ids
    ensures r.promptTemplates == t.promptTemplates && r.cleanupRuns == t.cleanupRuns
  {
    Tables(
      map k | k in t.emails && k !in ids :: t.emails[k],
      Keep(t.attachments, AttachmentEmailId, ids),
      map k | k in t.aiResults && k !in ids :: t.aiResults[k],
      Keep(t.rawResponses, RawEmailId, ids),
      Keep(t.actionLogs, LogEmailId, ids),
      Keep(t.reviewTasks, TaskEmailId, ids),
      Keep(t.processingEvents, EventEmailId, ids),
      t.promptTemplates,
      t.cleanupRuns)
  }

  /** Deleting no ids changes nothing. */
  lemma CascadeOfNone(t: Tables)
    ensures Cascade(t, []) == t
  {
    KeepNothing(t.attachments, AttachmentEmailId);
    KeepNothing(t.rawResponses, RawEmailId);
    KeepNothing(t.actionLogs, LogEmailId);
    KeepNothing(t.reviewTasks, TaskEmailId);
    KeepNothing(t.processingEvents, EventEmailId);
    assert Cascade(t, []).emails == t.emails;
    assert Cascade(t, []).aiResults == t.aiResults;
  }

  // ---------------------------------------------------------------------
  // manual_review_tasks
  // ---------------------------------------------------------------------

  /** The SET list of updateManualReviewTaskStatus on one row: no guard on
      the old status; COALESCE keeps the assignee; each timestamp is set
      only by its own statuses. */
  function Transition(t: ReviewTask, status: TaskStatus, assignee: Option<string>, now: string): (r: ReviewTask)
    ensures r.status == status
    ensures assignee.None? ==> r.assignee == t.assignee
    ensures assignee.Some? ==> r.assignee == assignee
    ensures status == Acknowledged ==> r.acknowledgedAt == Some(now)
    ensures status != Acknowledged ==> r.acknowledgedAt == t.acknowledgedAt
    ensures status == Resolved || status == Closed ==> r.resolvedAt == Some(now)
    ensures status != Resolved && status != Closed ==> r.resolvedAt == t.resolvedAt
    ensures r.id == t.id && r.emailId == t.emailId && r.priority == t.priority
    ensures r.reason == t.reason && r.createdAt == t.createdAt
  {
    t.(status := status,
       assignee := if assignee.Some? then assignee else t.assignee,
       acknowledgedAt := if status == Acknowledged then Some(now) else t.acknowledgedAt,
       resolvedAt := if status == Resolved || status == Closed then Some(now) else t.resolvedAt,
       updatedAt := now)
  }

  function UpdateTasks(tasks: seq<ReviewTask>, id: string, status: TaskStatus, assignee: Option<string>,
                       now: string): (r: seq<ReviewTask>)
    ensures |r| == |tasks|
    ensures forall i :: 0 <= i < |tasks| && tasks[i].id != id ==> r[i] == tasks[i]
    ensures forall i :: 0 <= i < |tasks| && tasks[i].id == id ==> r[i] == Transition(tasks[i], status, assignee, now)
  {
    seq(|tasks|, i requires 0 <= i < |tasks| =>
      if tasks[i].id == id then Transition(tasks[i], status, assignee, now) else tasks[i])
  }

  /** A resolved task can be moved back to acknowledged: its resolution time stays. */
  lemma ReopenKeepsResolution(t: ReviewTask, assignee: Option<string>, now: string)
    requires t.status == Resolved
    ensures Transition(t, Acknowledged, assignee, now).status == Acknowledged
    ensures Transition(t, Acknowledged, assignee, now).resolvedAt == t.resolvedAt
  {
  }

  // ---------------------------------------------------------------------
  // prompt_templates
  // ---------------------------------------------------------------------

  /** activatePromptTemplate: the two UPDATEs of its batch, as one function. */
  function Activate(ts: seq<PromptTemplate>, name: string, version: string): (r: seq<PromptTemplate>)
    ensures |r| == |ts|
    ensures forall i :: 0 <= i < |ts| ==> r[i].(isActive := ts[i].isActive) == ts[i]
    ensures forall i :: 0 <= i < |ts| && ts[i].name != name ==> r[i] == ts[i]
    ensures forall i :: 0 <= i < |ts| && ts[i].name == name ==> (r[i].isActive <==> ts[i].version == version)
    ensures forall i, j ::
      (0 <= i < |r| && 0 <= j < |r| && r[i].isActive && r[j].isActive && r[i].name == name && r[j].name == name)
      ==> r[i].version == r[j].version
  {
    seq(|ts|, i requires 0 <= i < |ts| =>
      if ts[i].name == name then ts[i].(isActive := ts[i].version == version) else ts[i])
  }

  // ---------------------------------------------------------------------
  // Small pure helpers of the listing queries
  // ---------------------------------------------------------------------

  /** normalizePriority on a JavaScript number. */
  function NormalizePriority(p: real): (r: int)
    ensures 1 <= r <= 5
    ensures r == 1 <==> p <= 1.0
    ensures r == 2 <==> p == 2.0
    ensures r == 3 <==> p == 3.0
    ensures r == 4 <==> p == 4.0
    ensures r == 5 <==> p > 1.0 && p != 2.0 && p != 3.0 && p != 4.0
  {
    if p <= 1.0 then 1
    else if p == 2.0 then 2
    else if p == 3.0 then 3
    else if p == 4.0 then 4
    else 5
  }

  /** Priorities already in 1..5 are kept. */
  lemma NormalizePriorityKeepsValid(n: int)
    requires 1 <= n <= 5
    ensures NormalizePriority(n as real) == n
  {
  }

  /** The LIMIT/OFFSET clamp of listAdminEmails: limit in [1, 100], default
      50; offset at least 0, default 0. */
  function ClampPage(limit: Option<int>, offset: Option<int>): (r: (int, int))
    ensures 1 <= r.0 <= 100 && r.1 >= 0
    ensures limit.None? ==> r.0 == 50
    ensures limit.Some? && 1 <= limit.value <= 100 ==> r.0 == limit.value
    ensures limit.Some? && limit.value < 1 ==> r.0 == 1
    ensures limit.Some? && limit.value > 100 ==> r.0 == 100
    ensures r.1 == (if offset.Some? && offset.value > 0 then offset.value else 0)
  {
    (Min(Max(limit.GetOr(50), 1), 100), Max(offset.GetOr(0), 0))
  }

  // ---------------------------------------------------------------------
  // ORDER BY key ASC LIMIT n
  // ---------------------------------------------------------------------

  /** `r` lists `limit` (or all) of the keys of `keyOf`, without repeats,
      ordered by their sort key, and no key left out sorts before one taken. */
  predicate OldestFirst(keyOf: map<string, string>, limit: nat, r: seq<string>)
  {
    && |r| == Min(|keyOf.Keys|, limit)
    && (forall i :: 0 <= i < |r| ==> r[i] in keyOf)
    && (forall i, j :: 0 <= i < j < |r| ==> r[i] != r[j])
    && (forall i, j :: 0 <= i < j < |r| ==> !StrLess(keyOf[r[j]], keyOf[r[i]]))
    && (forall x, i :: x in keyOf && x !in r && 0 <= i < |r| ==> !StrLess(keyOf[x], keyOf[r[i]]))
  }

  lemma LessChain(a: string, b: string, c: string)
    ensures StrLess(a, b) && StrLess(b, c) ==> StrLess(a, c)
  {
    if StrLess(a, b) && StrLess(b, c) {
      StrLessTransitive(a, b, c);
    }
  }

  /** A key of `s` whose sort key no other key of `s` precedes. */
  method Oldest(keyOf: map<string, string>, s: set<string>) returns (m: string)
    requires s != {} && s <= keyOf.Keys
    ensures m in s
    ensures forall y :: y in s ==> !StrLess(keyOf[y], keyOf[m])
  {
    m :| m in s;
    StrLessIrreflexive(keyOf[m]);
    var seen := {m};
    var rest := s - {m};
    while rest != {}
      invariant rest <= s && m in s && seen == s - rest
      invariant forall y :: y in seen ==> !StrLess(keyOf[y], keyOf[m])
      decreases |rest|
    {
      var y :| y in rest;
      if StrLess(keyOf[y], keyOf[m]) {
        forall z | z in seen
          ensures !StrLess(keyOf[z], keyOf[y])
        {
          LessChain(keyOf[z], keyOf[y], keyOf[m]);
        }
        StrLessIrreflexive(keyOf[y]);
        m := y;
      }
      seen := seen + {y};
      rest := rest - {y};
    }
  }

  /** Selection of the first `limit` keys in ascending order of their sort key. */
  method SelectOldest(keyOf: map<string, string>, limit: nat) returns (r: seq<string>)
    ensures OldestFirst(keyOf, limit, r)
  {
    r := [];
    var rest := keyOf.Keys;
    while |r| < limit && rest != {}
      invariant rest <= keyOf.Keys
      invariant forall x :: x in keyOf ==> (x in rest <==> x !in r)
      invariant |r| + |rest| == |keyOf.Keys| && |r| <= limit
      invariant forall i :: 0 <= i < |r| ==> r[i] in keyOf
      invariant forall i, j :: 0 <= i < j < |r| ==> r[i] != r[j]
      invariant forall i, j :: 0 <= i < j < |r| ==> !StrLess(keyOf[r[j]], keyOf[r[i]])
      invariant forall x, i :: x in rest && 0 <= i < |r| ==> !StrLess(keyOf[x], keyOf[r[i]])
      decreases |rest|
    {
      var m := Oldest(keyOf, rest);
      r := r + [m];
      rest := rest - {m};
    }
  }

  // ---------------------------------------------------------------------
  // The database
  // ---------------------------------------------------------------------

  class Database {
    var emails: map<string, EmailRow>
    var attachments: seq<AttachmentRow>
    var aiResults: map<string, AiResultRow>
    var rawResponses: seq<RawResponseRow>
    var actionLogs: seq<ActionLog>
    var reviewTasks: seq<ReviewTask>
    var processingEvents: seq<ProcessingEvent>
    var promptTemplates: seq<PromptTemplate>
    var cleanupRuns: seq<CleanupRun>

    function State(): Tables
      reads this
    {
      Tables(emails, attachments, aiResults, rawResponses, actionLogs, reviewTasks,
             processingEvents, promptTemplates, cleanupRuns)
    }

    /** The keys and unique constraints: emails.id is the primary key,
        emails.email_message_id is unique, email_ai_results.email_id is unique. */
    ghost predicate Valid()
      reads this
    {
      && (forall k :: k in emails ==> emails[k].id == k)
      && (forall a, b :: a in emails && b in emails && emails[a].emailMessageId == emails[b].emailMessageId ==> a == b)
      && (forall k :: k in aiResults ==> aiResults[k].emailId == k)
    }

    constructor ()
      ensures Valid()
      ensures State() == Tables(map[], [], map[], [], [], [], [], [], [])
    {
      emails := map[];
      attachments := [];
      aiResults := map[];
      rawResponses := [];
      actionLogs := [];
      reviewTasks := [];
      processingEvents := [];
      promptTemplates := [];
      cleanupRuns := [];
    }

    /** insertEmailIfNotExists: Ok(true) when a row was inserted, Ok(false)
        when a row with this email_message_id exists (nothing changes), and
        a failure when only the primary key is taken. */
    method InsertEmailIfNotExists(m: QueueMessage, now: string) returns (r: Result<bool>)
      requires Valid()
      modifies this
      ensures Valid()
      ensures r == Ok(false) <==> old(HasMessageId(emails, m.emailId))
      ensures r == Ok(true) <==> !old(HasMessageId(emails, m.emailId)) && m.messageId !in old(emails)
      ensures r.Fail? ==> r == Fail(PrimaryKeyTaken)
      ensures r == Ok(true) ==>
        State() == old(State()).(emails := old(emails)[m.messageId := NewEmailRow(m, Processing, None, now)])
      ensures r != Ok(true) ==> State() == old(State())
    {
      if exists k :: k in emails && emails[k].emailMessageId == m.emailId {
        return Ok(false);
      }
      if m.messageId in emails {
        return Fail(PrimaryKeyTaken);
      }
      emails := emails[m.messageId := NewEmailRow(m, Processing, None, now)];
      r := Ok(true);
    }

    /** insertAttachments: one row per attachment; none for an empty list. */
    method InsertAttachments(emailId: string, atts: seq<AttachmentMeta>)
      requires Valid()
      modifies this
      ensures Valid()
      ensures State() == old(State()).(attachments := old(attachments) + AttachmentRows(emailId, atts))
    {
      if |atts| == 0 {
        assert attachments + AttachmentRows(emailId, atts) == attachments;
        return;
      }
      attachments := attachments + AttachmentRows(emailId, atts);
    }

    method UpsertAIResult(emailId: string, c: Classification, provider: string, model: string, ms: int)
      requires Valid()
      modifies this
      ensures Valid()
      ensures State() == old(State()).(aiResults := WithAIResult(old(aiResults), emailId, c, provider, model, ms))
    {
      aiResults := WithAIResult(aiResults, emailId, c, provider, model, ms);
    }

    method UpsertReplyDraft(emailId: string, d: ReplyDraft)
      requires Valid()
      modifies this
      ensures Valid()
      ensures State() == old(State()).(aiResults := WithReplyDraft(old(aiResults), emailId, d))
    {
      aiResults := WithReplyDraft(aiResults, emailId, d);
    }

    /** getReplyDraftByEmailId. */
    function ReplyDraftOf(emailId: string): (r: Option<ReplyDraft>)
      reads this
      ensures r.Some? ==> emailId in aiResults
    {
      DraftFor(aiResults, emailId)
    }

    /** getQueueMessageById. */
    function QueueMessageOf(id: string): (r: Option<QueueMessage>)
      reads this
      ensures r.Some? <==> id in emails
      ensures r.Some? ==> r.value.messageId == emails[id].id && r.value.emailId == emails[id].emailMessageId
    {
      if id in emails then Some(RowToMessage(emails[id], RowsOf(attachments, id))) else None
    }

    method InsertProcessingEvent(emailId: string, stage: Stage, status: EventStatus)
      requires Valid()
      modifies this
      ensures Valid()
      ensures State() == old(State()).(processingEvents := old(processingEvents) + [ProcessingEvent(emailId, stage, status)])
    {
      processingEvents := processingEvents + [ProcessingEvent(emailId, stage, status)];
    }

    /** markEmailStatus (and setEmailRetryStatus, which only forwards to it). */
    method MarkEmailStatus(emailId: string, status: EmailStatus, errorMsg: Option<string>, now: string)
      requires Valid()
      modifies this
      ensures Valid()
      ensures State() == old(State()).(
        emails := WithStatus(old(emails), emailId, status, errorMsg, now),
        actionLogs := old(actionLogs) + ErrorLog(emailId, status, errorMsg))
    {
      emails := WithStatus(emails, emailId, status, errorMsg, now);
      if Truthy(errorMsg) && status == Errored {
        actionLogs := actionLogs + [ActionLog(emailId, "ai_process", LogFailed, CutError(errorMsg))];
      }
    }

    /** saveFailedQueueRecord: a failed_queue row, or on conflict only the
        status, last_error and updated_at of the existing row. */
    method SaveFailedQueueRecord(m: QueueMessage, reason: string, now: string) returns (r: Result<()>)
      requires Valid()
      modifies this
      ensures Valid()
      ensures r.Ok? <==> SaveFailedQueue(old(emails), m, reason, now).Ok?
      ensures r.Ok? ==> State() == old(State()).(emails := SaveFailedQueue(old(emails), m, reason, now).value)
      ensures r.Fail? ==> r == Fail(PrimaryKeyTaken) && State() == old(State())
    {
      if exists k :: k in emails && emails[k].emailMessageId == m.emailId {
        emails := MarkFailedQueue(emails, m.emailId, reason, now);
        return Ok(());
      }
      if m.messageId in emails {
        return Fail(PrimaryKeyTaken);
      }
      emails := emails[m.messageId := NewEmailRow(m, FailedQueue, Some(Take(reason, ErrorTextLimit)), now)];
      r := Ok(());
    }

    function FailedQueueKeys(): (r: map<string, string>)
      reads this
      ensures forall k :: k in r <==> k in emails && emails[k].status == FailedQueue
      ensures forall k :: k in r ==> r[k] == emails[k].updatedAt
    {
      map k | k in emails && emails[k].status == FailedQueue :: emails[k].updatedAt
    }

    /** listFailedQueueEmails: ids of failed_queue rows, least recently
        updated first, at most `limit`. */
    method ListFailedQueueEmails(limit: nat) returns (ids: seq<string>)
      ensures OldestFirst(FailedQueueKeys(), limit, ids)
      ensures forall i :: 0 <= i < |ids| ==> ids[i] in emails && emails[ids[i]].status == FailedQueue
    {
      ids := SelectOldest(FailedQueueKeys(), limit);
    }

    function ExpiredKeys(cutoff: string): (r: map<string, string>)
      reads this
      ensures forall k :: k in r <==> k in emails && !emails[k].legalHold && StrLess(emails[k].receivedAt, cutoff)
      ensures forall k :: k in r ==> r[k] == emails[k].receivedAt
    {
      map k | k in emails && !emails[k].legalHold && StrLess(emails[k].receivedAt, cutoff) :: emails[k].receivedAt
    }

    /** listExpiredEmailObjects: rows not on legal hold and received before
        the cutoff, oldest first, at most `limit`. */
    method ListExpiredEmailObjects(cutoff: string, limit: nat) returns (rows: seq<EmailObject>)
      ensures OldestFirst(ExpiredKeys(cutoff), limit, IdsOf(rows))
      ensures forall i :: 0 <= i < |rows| ==>
        rows[i].id in emails && !emails[rows[i].id].legalHold
        && StrLess(emails[rows[i].id].receivedAt, cutoff)
        && rows[i].rawR2Key == emails[rows[i].id].rawR2Key
    {
      var ids := SelectOldest(ExpiredKeys(cutoff), limit);
      var em := emails;
      rows := seq(|ids|, i requires 0 <= i < |ids| && ids[i] in em => EmailObject(ids[i], em[ids[i]].rawR2Key));
      assert IdsOf(rows) == ids;
    }

    method InsertActionLog(emailId: string, actionType: string, status: LogStatus, errorMsg: Option<string>)
      requires Valid()
      modifies this
      ensures Valid()
      ensures State() == old(State()).(actionLogs := old(actionLogs) + [ActionLog(emailId, actionType, status, CutError(errorMsg))])
    {
      actionLogs := actionLogs + [ActionLog(emailId, actionType, status, CutError(errorMsg))];
    }

    /** createManualReviewTask: a new pending task. */
    method CreateManualReviewTask(taskId: string, emailId: string, priority: ReviewPriority,
                                  reason: ReviewReason, now: string)
      requires Valid()
      modifies this
      ensures Valid()
      ensures State() == old(State()).(reviewTasks := old(reviewTasks) +
        [ReviewTask(taskId, emailId, priority, reason, TaskPending, None, None, None, now, now)])
    {
      reviewTasks := reviewTasks + [ReviewTask(taskId, emailId, priority, reason, TaskPending, None, None, None, now, now)];
    }

    /** deleteEmailCascade; an empty id list returns before the batch. */
    method DeleteEmailCascade(ids: seq<string>)
      requires Valid()
      modifies this
      ensures Valid()
      ensures State() == Cascade(old(State()), ids)
    {
      if |ids| == 0 {
        CascadeOfNone(State());
        return;
      }
      var t := Cascade(State(), ids);
      emails, attachments, aiResults, rawResponses := t.emails, t.attachments, t.aiResults, t.rawResponses;
      actionLogs, reviewTasks, processingEvents := t.actionLogs, t.reviewTasks, t.processingEvents;
    }

    method InsertCleanupRun(deleted: int, failed: int, errorMsg: Option<string>, now: string)
      requires Valid()
      modifies this
      ensures Valid()
      ensures State() == old(State()).(cleanupRuns := old(cleanupRuns) + [CleanupRun(deleted, failed, CutError(errorMsg), now)])
    {
      cleanupRuns := cleanupRuns + [CleanupRun(deleted, failed, CutError(errorMsg), now)];
    }

    /** updateManualReviewTaskStatus: no transition guard, whatever the status. */
    method UpdateManualReviewTaskStatus(id: string, status: TaskStatus, assignee: Option<string>, now: string)
      requires Valid()
      modifies this
      ensures Valid()
      ensures State() == old(State()).(reviewTasks := UpdateTasks(old(reviewTasks), id, status, assignee, now))
    {
      reviewTasks := UpdateTasks(reviewTasks, id, status, assignee, now);
    }

    /** createPromptTemplate: a new, inactive version. */
    method CreatePromptTemplate(id: string, name: string, version: string, content: string)
      requires Valid()
      modifies this
      ensures Valid()
      ensures State() == old(State()).(promptTemplates := old(promptTemplates) + [PromptTemplate(id, name, version, content, false)])
    {
      promptTemplates := promptTemplates + [PromptTemplate(id, name, version, content, false)];
    }

    /** activatePromptTemplate: deactivate every version of the name, then
        activate the requested one. */
    method ActivatePromptTemplate(name: string, version: string)
      requires Valid()
      modifies this
      ensures Valid()
      ensures State() == old(State()).(promptTemplates := Activate(old(promptTemplates), name, version))
    {
      var ts := promptTemplates;
      var off := seq(|ts|, i requires 0 <= i < |ts| => if ts[i].name == name then ts[i].(isActive := false) else ts[i]);
      promptTemplates := seq(|off|, i requires 0 <= i < |off| =>
        if off[i].name == name && off[i].version == version then off[i].(isActive := true) else off[i]);
      assert promptTemplates == Activate(ts, name, version);
    }
  }

  /** The action log markEmailStatus appends: one failed "ai_process" entry
      for status error with a non-empty message, none otherwise. */
  function ErrorLog(emailId: string, status: EmailStatus, errorMsg: Option<string>): (r: seq<ActionLog>)
    ensures |r| <= 1
    ensures |r| == 1 <==> status == Errored && Truthy(errorMsg)
    ensures |r| == 1 ==>
      (r[0].actionType == "ai_process" && r[0].status == LogFailed && r[0].emailId == emailId
       && r[0].errorMsg == Some(Take(errorMsg.value, ErrorTextLimit)))
  {
    if Truthy(errorMsg) && status == Errored then [ActionLog(emailId, "ai_process", LogFailed, CutError(errorMsg))] else []
  }

  function IdsOf(rows: seq<EmailObject>): (r: seq<string>)
    ensures |r| == |rows| && forall i :: 0 <= i < |rows| ==> r[i] == rows[i].id
  {
    seq(|rows|, i requires 0 <= i < |rows| => rows[i].id)
  }
}
