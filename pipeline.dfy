// The worker's entry points (src/index.ts): the inbound email handler after
// MIME parsing, the queue consumer and its per-message pipeline, and the
// scheduled routines (retry of failed enqueues, retention cleanup, review
// SLA check).
//
// The queue producer, the blob store and the clock are outside the model:
// their outcomes are parameters. Store writes that can fail inside the
// per-message pipeline are chosen by a Fault parameter.

module Pipeline {
  import opened Common
  import opened Types
  import opened Utils
  import opened Ai
  import opened Store
  import opened Actions

  // ---------------------------------------------------------------------
  // Sender blacklist
  // ---------------------------------------------------------------------

  function Lookup(config: map<string, string>, key: string): Option<string>
  {
    if key in config then Some(config[key]) else None
  }

  function SenderBlockKey(from: string): string { "blacklist:" + Lower(from) }

  function DomainBlockKey(domain: string): string { "blacklist:domain:" + domain }

  /** isBlocked: a non-empty entry for the lower-cased sender, or for the
      sender's domain when it has one. */
  function IsBlocked(config: map<string, string>, from: string): (r: bool)
    ensures Truthy(Lookup(config, SenderBlockKey(from))) ==> r
    ensures !Truthy(Lookup(config, SenderBlockKey(from))) ==>
      (r <==> ExtractDomain(from) != "" && Truthy(Lookup(config, DomainBlockKey(ExtractDomain(from)))))
  {
    var domain := ExtractDomain(from);
    Truthy(Lookup(config, SenderBlockKey(from)))
      || (domain != "" && Truthy(Lookup(config, DomainBlockKey(domain))))
  }

  lemma LowerKeepsAt(s: string)
    ensures forall k :: 0 <= k < |s| ==> (Lower(s)[k] == '@' <==> s[k] == '@')
  {
  }

  lemma {:induction false} LastIndexOfLower(s: string)
    ensures LastIndexOf(Lower(s), '@') == LastIndexOf(s, '@')
    decreases |s|
  {
    LowerKeepsAt(s);
    if |s| > 0 && s[|s| - 1] != '@' {
      assert Lower(s)[..|s| - 1] == Lower(s[..|s| - 1]);
      LastIndexOfLower(s[..|s| - 1]);
    }
  }

  /** The domain of a sender does not depend on its letter case. */
  lemma ExtractDomainLower(s: string)
    ensures ExtractDomain(Lower(s)) == ExtractDomain(s)
  {
    LastIndexOfLower(s);
    match LastIndexOf(s, '@')
    case None =>
    case Some(i) =>
      DomainAfter(s, i);
      DomainAfter(Lower(s), i);
      LowerSuffix(s, i + 1);
      LowerIdempotent(s[i + 1..]);
  }

  lemma DomainAfter(email: string, i: nat)
    requires LastIndexOf(email, '@') == Some(i)
    ensures ExtractDomain(email) == Lower(email[i + 1..])
  {
  }

  lemma LowerSuffix(s: string, j: nat)
    requires j <= |s|
    ensures Lower(s)[j..] == Lower(s[j..])
  {
  }

  /** Blocking does not depend on the letter case of the sender. */
  lemma IsBlockedCaseInsensitive(config: map<string, string>, from: string)
    ensures IsBlocked(config, Lower(from)) == IsBlocked(config, from)
  {
    LowerIdempotent(from);
    ExtractDomainLower(from);
  }

  /** A domain entry blocks every address at that domain. */
  lemma DomainEntryBlocks(config: map<string, string>, local: string, domain: string)
    requires '@' !in domain && domain != ""
    requires Truthy(Lookup(config, DomainBlockKey(Lower(domain))))
    ensures IsBlocked(config, local + "@" + domain)
  {
    ExtractDomainOf(local, domain);
  }

  // ---------------------------------------------------------------------
  // Inbound email, after parsing
  // ---------------------------------------------------------------------

  const DefaultQueueBytes := 120 * 1024
  const LastResortBodyLength: nat := 500
  const BlockedReason := "blocked by blacklist"

  function QueueBudget(env: Env): (r: int)
    ensures r > 0
  {
    ParsePositiveInt(env.maxQueueMessageBytes, DefaultQueueBytes)
  }

  /** The payload sent to the queue: the budgeted payload, cut to 500
      characters of body and flagged when it is still too large. */
  function FinalPayload(p: QueueMessage, maxBytes: int, size: QueueMessage -> int): (r: QueueMessage)
    ensures size(p) <= maxBytes ==> r == p
    ensures StartsWith(p.textBody, r.textBody)
    ensures |r.attachments| <= |p.attachments| && r.attachments == p.attachments[..|r.attachments|]
    ensures SameEnvelope(r, p)
    ensures size(ApplyQueuePayloadBudget(p, maxBytes, size)) > maxBytes ==>
      |r.textBody| <= LastResortBodyLength && r.bodyTruncated == Some(true)
    ensures size(ApplyQueuePayloadBudget(p, maxBytes, size)) <= maxBytes ==> r == ApplyQueuePayloadBudget(p, maxBytes, size)
  {
    var q := ApplyQueuePayloadBudget(p, maxBytes, size);
    if size(q) > maxBytes then
      var body := Take(q.textBody, LastResortBodyLength);
      assert StartsWith(q.textBody, body);
      q.(textBody := body, bodyTruncated := Some(true))
    else q
  }

  datatype Delivery = Rejected(reason: string) | Enqueued(payload: QueueMessage) | SendFailed(error: string)

  /** The email handler from the blacklist check to the enqueue; `p` is the
      payload built from the parsed message, `sendError` the queue's answer. */
  method ReceiveEmail(db: Database, env: Env, config: map<string, string>, p: QueueMessage,
                      size: QueueMessage -> int, sendError: Option<string>, now: string) returns (r: Delivery)
    requires db.Valid()
    modifies db
    ensures db.Valid()
    ensures IsBlocked(config, p.from) ==> r == Rejected(BlockedReason) && db.State() == old(db.State())
    ensures !IsBlocked(config, p.from) && sendError.None? ==>
      r == Enqueued(FinalPayload(p, QueueBudget(env), size)) && db.State() == old(db.State())
    ensures !IsBlocked(config, p.from) && sendError.Some? ==>
      var saved := SaveFailedQueue(old(db.emails), FinalPayload(p, QueueBudget(env), size), sendError.value, now);
      && (saved.Ok? ==> r == SendFailed(sendError.value) && db.State() == old(db.State()).(emails := saved.value))
      && (saved.Fail? ==> r == SendFailed(PrimaryKeyTaken) && db.State() == old(db.State()))
  {
    if IsBlocked(config, p.from) {
      return Rejected(BlockedReason);
    }
    var payload := FinalPayload(p, QueueBudget(env), size);
    if sendError.None? {
      return Enqueued(payload);
    }
    var saved := db.SaveFailedQueueRecord(payload, sendError.value, now);
    if saved.Fail? {
      return SendFailed(saved.reason);
    }
    r := SendFailed(sendError.value);
  }

  // ---------------------------------------------------------------------
  // processMessage
  // ---------------------------------------------------------------------

  /** Which store write, if any, throws during one run of the pipeline. */
  datatype Fault =
    | NoFault
    | AttachmentsFail(error: string)
    | AiResultFail(error: string)
    | RulesFail(error: string)
    | FinalStatusFail(error: string)

  datatype ProcessInputs = ProcessInputs(
    out: AiOutcomes,
    codecs: Codecs,
    actions: ActionInputs,
    elapsedMs: int,
    fault: Fault,
    now: string)

  function FinalStatus(reviewCreated: bool): EmailStatus
  {
    if reviewCreated then ManualReview else Done
  }

  function Classified(env: Env, p: QueueMessage, inp: ProcessInputs): ClassifyResult
  {
    ClassifyEmail(env, p, inp.out, inp.codecs)
  }

  /** Whether the action step opens a manual review task for this message. */
  function ReviewOpened(env: Env, p: QueueMessage, inp: ProcessInputs): bool
  {
    ReviewDecision(Classified(env, p, inp).classification, LoadRules(inp.actions.config, p.to, inp.actions.parse)).Some?
  }

  /** What every run that got past the insert guarantees about row `id`:
      done or manual_review without an error when nothing threw, status
      error with the thrown message (and its ai_process log) otherwise; the
      tables the pipeline never writes are as they were in `t`. */
  predicate Settled(t: Tables, r: (Result<()>, Tables), id: string, fault: Fault, reviewCreated: bool)
  {
    && id in r.1.emails
    && r.1.processingEvents == t.processingEvents && r.1.rawResponses == t.rawResponses
    && r.1.promptTemplates == t.promptTemplates && r.1.cleanupRuns == t.cleanupRuns
    && (fault.NoFault? ==>
          r.0 == Ok(()) && r.1.emails[id].status == FinalStatus(reviewCreated) && r.1.emails[id].lastError.None?)
    && (!fault.NoFault? ==>
          && r.0 == Fail(fault.error)
          && r.1.emails[id].status == Errored
          && r.1.emails[id].lastError == CutError(Some(fault.error))
          && (fault.error != "" ==>
                |r.1.actionLogs| > 0
                && r.1.actionLogs[|r.1.actionLogs| - 1] == ActionLog(id, "ai_process", LogFailed, CutError(Some(fault.error)))))
  }

  /** The catch block: status error with the message, then the rethrow. */
  function Failure(t: Tables, id: string, fault: Fault, now: string): (r: (Result<()>, Tables))
    requires !fault.NoFault?
    ensures id in t.emails ==> Settled(t, r, id, fault, false) && Settled(t, r, id, fault, true)
    ensures r.1.aiResults == t.aiResults
  {
    (Fail(fault.error), t.(emails := WithStatus(t.emails, id, Errored, Some(fault.error), now),
                           actionLogs := t.actionLogs + ErrorLog(id, Errored, Some(fault.error))))
  }

  /** From the final status update on. */
  function AfterRules(t: Tables, p: QueueMessage, inp: ProcessInputs, reviewCreated: bool): (r: (Result<()>, Tables))
    requires inp.fault.NoFault? || inp.fault.FinalStatusFail?
    ensures p.messageId in t.emails ==> Settled(t, r, p.messageId, inp.fault, reviewCreated)
    ensures r.1.aiResults == t.aiResults
  {
    if inp.fault.FinalStatusFail? then Failure(t, p.messageId, inp.fault, inp.now)
    else (Ok(()), t.(emails := WithStatus(t.emails, p.messageId, FinalStatus(reviewCreated), None, inp.now)))
  }

  /** From the action step (rules, notifications, review task) on. */
  function AfterAiResult(t: Tables, env: Env, p: QueueMessage, inp: ProcessInputs): (r: (Result<()>, Tables))
    requires !inp.fault.AttachmentsFail? && !inp.fault.AiResultFail?
    ensures p.messageId in t.emails ==> Settled(t, r, p.messageId, inp.fault, ReviewOpened(env, p, inp))
    ensures r.1.aiResults == t.aiResults
  {
    if inp.fault.RulesFail? then Failure(t, p.messageId, inp.fault, inp.now)
    else AfterRules(PostAIEffect(t, env, p, Classified(env, p, inp).classification, inp.actions), p, inp,
                    ReviewOpened(env, p, inp))
  }

  /** From the classification and its upsert on. */
  function AfterAttachments(t: Tables, env: Env, p: QueueMessage, inp: ProcessInputs): (r: (Result<()>, Tables))
    requires !inp.fault.AttachmentsFail?
    ensures p.messageId in t.emails ==> Settled(t, r, p.messageId, inp.fault, ReviewOpened(env, p, inp))
    ensures !inp.fault.AiResultFail? ==>
      var cr := Classified(env, p, inp);
      && p.messageId in r.1.aiResults
      && r.1.aiResults[p.messageId].classification == cr.classification
      && r.1.aiResults[p.messageId].provider == cr.provider
      && r.1.aiResults[p.messageId].model == cr.model
      && (p.messageId !in t.aiResults ==> DraftFor(r.1.aiResults, p.messageId).None?)
  {
    var cr := Classified(env, p, inp);
    if inp.fault.AiResultFail? then Failure(t, p.messageId, inp.fault, inp.now)
    else AfterAiResult(t.(aiResults := WithAIResult(t.aiResults, p.messageId, cr.classification, cr.provider,
                                                     cr.model, inp.elapsedMs)), env, p, inp)
  }

  /** From the attachment rows on, once the email row is in place. */
  function AfterInsert(t: Tables, env: Env, p: QueueMessage, inp: ProcessInputs): (r: (Result<()>, Tables))
  {
    if inp.fault.AttachmentsFail? then Failure(t, p.messageId, inp.fault, inp.now)
    else AfterAttachments(t.(attachments := t.attachments + AttachmentRows(p.messageId, p.attachments)), env, p, inp)
  }

  function Inserted(t: Tables, p: QueueMessage, now: string): Tables
  {
    t.(emails := t.emails[p.messageId := NewEmailRow(p, Processing, None, now)])
  }

  /** The outcome and the tables after processMessage: a message already
      stored is acknowledged without any write; a new one whose row id is
      taken fails on the insert; a new one is classified, acted on and
      settled as Settled describes. */
  function ProcessEffect(t: Tables, env: Env, p: QueueMessage, inp: ProcessInputs): (r: (Result<()>, Tables))
    ensures HasMessageId(t.emails, p.emailId) ==> r == (Ok(()), t)
    ensures !HasMessageId(t.emails, p.emailId) && p.messageId in t.emails ==> r == (Fail(PrimaryKeyTaken), t)
    ensures !HasMessageId(t.emails, p.emailId) && p.messageId !in t.emails ==>
      && Settled(t, r, p.messageId, inp.fault, ReviewOpened(env, p, inp))
      && r.1.emails.Keys == t.emails.Keys + {p.messageId}
    ensures !HasMessageId(t.emails, p.emailId) && p.messageId !in t.emails
            && !inp.fault.AttachmentsFail? && !inp.fault.AiResultFail? ==>
      var cr := Classified(env, p, inp);
      && p.messageId in r.1.aiResults
      && r.1.aiResults[p.messageId].classification == cr.classification
      && r.1.aiResults[p.messageId].provider == cr.provider
      && r.1.aiResults[p.messageId].model == cr.model
      && (p.messageId !in t.aiResults ==> DraftFor(r.1.aiResults, p.messageId).None?)
  {
    if HasMessageId(t.emails, p.emailId) then (Ok(()), t)
    else if p.messageId in t.emails then (Fail(PrimaryKeyTaken), t)
    else AfterInsert(Inserted(t, p, inp.now), env, p, inp)
  }

  /** processMessage: the insert that deduplicates, then the steps in the try block. */
  method ProcessMessage(db: Database, env: Env, p: QueueMessage, inp: ProcessInputs) returns (r: Result<()>)
    requires db.Valid()
    modifies db
    ensures db.Valid()
    ensures (r, db.State()) == ProcessEffect(old(db.State()), env, p, inp)
  {
    var inserted := db.InsertEmailIfNotExists(p, inp.now);
    if inserted.Fail? {
      return Fail(inserted.reason);
    }
    if !inserted.value {
      return Ok(());
    }
    assert db.State() == Inserted(old(db.State()), p, inp.now);
    r := StoreAttachments(db, env, p, inp);
  }

  /** The catch block. */
  method Catch(db: Database, id: string, fault: Fault, now: string) returns (r: Result<()>)
    requires db.Valid() && !fault.NoFault?
    modifies db
    ensures db.Valid()
    ensures (r, db.State()) == Failure(old(db.State()), id, fault, now)
  {
    db.MarkEmailStatus(id, Errored, Some(fault.error), now);
    r := Fail(fault.error);
  }

  method StoreAttachments(db: Database, env: Env, p: QueueMessage, inp: ProcessInputs) returns (r: Result<()>)
    requires db.Valid()
    modifies db
    ensures db.Valid()
    ensures (r, db.State()) == AfterInsert(old(db.State()), env, p, inp)
  {
    if inp.fault.AttachmentsFail? {
      r := Catch(db, p.messageId, inp.fault, inp.now);
      return;
    }
    db.InsertAttachments(p.messageId, p.attachments);
    r := StoreClassification(db, env, p, inp);
  }

  method StoreClassification(db: Database, env: Env, p: QueueMessage, inp: ProcessInputs) returns (r: Result<()>)
    requires db.Valid() && !inp.fault.AttachmentsFail?
    modifies db
    ensures db.Valid()
    ensures (r, db.State()) == AfterAttachments(old(db.State()), env, p, inp)
  {
    var cr := ClassifyEmail(env, p, inp.out, inp.codecs);
    if inp.fault.AiResultFail? {
      r := Catch(db, p.messageId, inp.fault, inp.now);
      return;
    }
    db.UpsertAIResult(p.messageId, cr.classification, cr.provider, cr.model, inp.elapsedMs);
    r := RunActions(db, env, p, inp);
  }

  method RunActions(db: Database, env: Env, p: QueueMessage, inp: ProcessInputs) returns (r: Result<()>)
    requires db.Valid() && !inp.fault.AttachmentsFail? && !inp.fault.AiResultFail?
    modifies db
    ensures db.Valid()
    ensures (r, db.State()) == AfterAiResult(old(db.State()), env, p, inp)
  {
    if inp.fault.RulesFail? {
      r := Catch(db, p.messageId, inp.fault, inp.now);
      return;
    }
    var created := ExecutePostAIFlow(db, env, p, Classified(env, p, inp).classification, inp.actions);
    assert created == ReviewOpened(env, p, inp);
    r := SetFinalStatus(db, p, inp, created);
  }

  method SetFinalStatus(db: Database, p: QueueMessage, inp: ProcessInputs, reviewCreated: bool) returns (r: Result<()>)
    requires db.Valid() && (inp.fault.NoFault? || inp.fault.FinalStatusFail?)
    modifies db
    ensures db.Valid()
    ensures (r, db.State()) == AfterRules(old(db.State()), p, inp, reviewCreated)
  {
    if inp.fault.FinalStatusFail? {
      r := Catch(db, p.messageId, inp.fault, inp.now);
      return;
    }
    assert ErrorLog(p.messageId, FinalStatus(reviewCreated), None) == [];
    ghost var logs := db.actionLogs;
    db.MarkEmailStatus(p.messageId, FinalStatus(reviewCreated), None, inp.now);
    assert db.actionLogs == logs + [] == logs;
    r := Ok(());
  }

  // ---------------------------------------------------------------------
  // The queue consumer
  // ---------------------------------------------------------------------

  /** A delivered queue body: a payload the schema accepts, or one it rejects. */
  datatype QueueItem = Payload(p: QueueMessage) | Malformed

  datatype Ack = Acked | Retried

  function QueueStep(t: Tables, env: Env, item: QueueItem, inp: ProcessInputs): (r: (Ack, Tables))
    ensures item.Malformed? ==> r == (Acked, t)
    ensures item.Payload? ==> (r.0 == Retried <==> ProcessEffect(t, env, item.p, inp).0.Fail?)
  {
    match item
    case Malformed => (Acked, t)
    case Payload(p) =>
      var (outcome, t') := ProcessEffect(t, env, p, inp);
      (if outcome.Ok? then Acked else Retried, t')
  }

  /** The batch loop: each item acked or retried on its own, in order. */
  function QueueEffect(t: Tables, env: Env, items: seq<QueueItem>, inps: seq<ProcessInputs>): (r: (seq<Ack>, Tables))
    requires |items| == |inps|
    decreases |items|
  {
    if |items| == 0 then ([], t)
    else
      var (a, t1) := QueueStep(t, env, items[0], inps[0]);
      var (rest, t2) := QueueEffect(t1, env, items[1..], inps[1..]);
      ([a] + rest, t2)
  }

  /** Every item gets exactly one answer, and a malformed one is acked:
      a failing item does not stop the batch. */
  lemma {:induction false} QueueAnswersEach(t: Tables, env: Env, items: seq<QueueItem>, inps: seq<ProcessInputs>)
    requires |items| == |inps|
    ensures |QueueEffect(t, env, items, inps).0| == |items|
    ensures forall i :: 0 <= i < |items| && items[i].Malformed? ==> QueueEffect(t, env, items, inps).0[i] == Acked
    decreases |items|
  {
    if |items| > 0 {
      var (a, t1) := QueueStep(t, env, items[0], inps[0]);
      QueueAnswersEach(t1, env, items[1..], inps[1..]);
      forall i | 0 < i < |items| && items[i].Malformed?
        ensures QueueEffect(t, env, items, inps).0[i] == Acked
      {
        assert items[1..][i - 1] == items[i];
      }
    }
  }

  lemma QueueEffectStep(t: Tables, env: Env, items: seq<QueueItem>, inps: seq<ProcessInputs>, i: nat)
    requires |items| == |inps| && i < |items|
    ensures var (a, t1) := QueueStep(t, env, items[i], inps[i]);
      QueueEffect(t, env, items[i..], inps[i..])
        == ([a] + QueueEffect(t1, env, items[i + 1..], inps[i + 1..]).0, QueueEffect(t1, env, items[i + 1..], inps[i + 1..]).1)
  {
    assert items[i..][1..] == items[i + 1..] && inps[i..][1..] == inps[i + 1..];
  }

  /** The body of the batch loop for one delivered message. */
  method Deliver(db: Database, env: Env, item: QueueItem, inp: ProcessInputs) returns (a: Ack)
    requires db.Valid()
    modifies db
    ensures db.Valid()
    ensures (a, db.State()) == QueueStep(old(db.State()), env, item, inp)
  {
    a := Acked;
    if item.Payload? {
      var outcome := ProcessMessage(db, env, item.p, inp);
      if outcome.Fail? {
        a := Retried;
      }
    }
  }

  /** The queue consumer: each message acked or retried on its own, in order. */
  method Queue(db: Database, env: Env, items: seq<QueueItem>, inps: seq<ProcessInputs>) returns (acks: seq<Ack>)
    requires |items| == |inps| && db.Valid()
    modifies db
    ensures db.Valid()
    ensures (acks, db.State()) == QueueEffect(old(db.State()), env, items, inps)
  {
    acks := [];
    var i := 0;
    assert items[i..] == items && inps[i..] == inps;
    assert acks + QueueEffect(db.State(), env, items, inps).0 == QueueEffect(db.State(), env, items, inps).0;
    while i < |items|
      invariant 0 <= i <= |items| && db.Valid()
      invariant QueueEffect(old(db.State()), env, items, inps)
        == (acks + QueueEffect(db.State(), env, items[i..], inps[i..]).0, QueueEffect(db.State(), env, items[i..], inps[i..]).1)
      decreases |items| - i
    {
      QueueEffectStep(db.State(), env, items, inps, i);
      var a := Deliver(db, env, items[i], inps[i]);
      assert acks + [a] + QueueEffect(db.State(), env, items[i + 1..], inps[i + 1..]).0
          == acks + ([a] + QueueEffect(db.State(), env, items[i + 1..], inps[i + 1..]).0);
      acks := acks + [a];
      i := i + 1;
    }
    assert items[i..] == [] && inps[i..] == [];
    assert acks + [] == acks;
  }

  // ---------------------------------------------------------------------
  // retryFailedQueueMessages
  // ---------------------------------------------------------------------

  const RetryBatchSize: nat := 50

  /** One listed row: re-sent and back to processing, or failed_queue with
      the send error; a row without a stored payload is skipped. */
  function RetryOne(emails: map<string, EmailRow>, id: string, sendError: string -> Option<string>, now: string)
    : map<string, EmailRow>
  {
    if id !in emails then emails
    else
      var e := sendError(id);
      WithStatus(emails, id, if e.None? then Processing else FailedQueue, e, now)
  }

  function RetryEffect(emails: map<string, EmailRow>, ids: seq<string>, sendError: string -> Option<string>, now: string)
    : map<string, EmailRow>
    decreases |ids|
  {
    if |ids| == 0 then emails else RetryEffect(RetryOne(emails, ids[0], sendError, now), ids[1..], sendError, now)
  }

  lemma RetryEffectStep(emails: map<string, EmailRow>, ids: seq<string>, i: nat,
                        sendError: string -> Option<string>, now: string)
    requires i < |ids|
    ensures RetryEffect(emails, ids[i..], sendError, now)
         == RetryEffect(RetryOne(emails, ids[i], sendError, now), ids[i + 1..], sendError, now)
  {
    assert ids[i..][1..] == ids[i + 1..];
  }

  /** Each listed row ends in processing when its send succeeded and in
      failed_queue with the error otherwise; other rows are untouched. */
  lemma {:induction false} RetryOutcome(emails: map<string, EmailRow>, ids: seq<string>,
                                        sendError: string -> Option<string>, now: string)
    requires forall i, j :: 0 <= i < j < |ids| ==> ids[i] != ids[j]
    ensures var r := RetryEffect(emails, ids, sendError, now);
      && r.Keys == emails.Keys
      && (forall k :: k in emails && k !in ids ==> r[k] == emails[k])
      && (forall k :: k in emails && k in ids ==>
            r[k].status == (if sendError(k).None? then Processing else FailedQueue)
            && r[k].lastError == CutError(sendError(k)))
    decreases |ids|
  {
    if |ids| > 0 {
      var e1 := RetryOne(emails, ids[0], sendError, now);
      RetryOutcome(e1, ids[1..], sendError, now);
      assert ids[0] !in ids[1..];
      forall k | k in ids
        ensures k == ids[0] || k in ids[1..]
      {
        var i :| 0 <= i < |ids| && ids[i] == k;
        if i > 0 {
          assert ids[1..][i - 1] == k;
        }
      }
    }
  }

  /** A retried row is sent back through the queue with its own
      email_message_id, so processMessage finds it stored and skips it: the
      row stays in processing. */
  lemma RetriedRowIsSkipped(t: Tables, id: string, env: Env, inp: ProcessInputs)
    requires id in t.emails
    ensures var m := RowToMessage(t.emails[id], RowsOf(t.attachments, id));
      ProcessEffect(t, env, m, inp) == (Ok(()), t)
  {
    var m := RowToMessage(t.emails[id], RowsOf(t.attachments, id));
    assert t.emails[id].emailMessageId == m.emailId;
  }

  /** The body of the retry loop for one listed row. */
  method RetryRow(db: Database, id: string, sendError: string -> Option<string>, now: string)
    requires db.Valid()
    modifies db
    ensures db.Valid()
    ensures db.State() == old(db.State()).(emails := RetryOne(old(db.emails), id, sendError, now))
  {
    var payload := db.QueueMessageOf(id);
    if payload.Some? {
      var e := sendError(id);
      db.MarkEmailStatus(id, if e.None? then Processing else FailedQueue, e, now);
    }
  }

  method RetryFailedQueueMessages(db: Database, sendError: string -> Option<string>, now: string)
    returns (ids: seq<string>)
    requires db.Valid()
    modifies db
    ensures db.Valid()
    ensures OldestFirst(old(db.FailedQueueKeys()), RetryBatchSize, ids)
    ensures db.State() == old(db.State()).(emails := RetryEffect(old(db.emails), ids, sendError, now))
  {
    ids := db.ListFailedQueueEmails(RetryBatchSize);
    var i := 0;
    assert ids[i..] == ids;
    while i < |ids|
      invariant 0 <= i <= |ids| && db.Valid()
      invariant db.State() == old(db.State()).(emails := db.emails)
      invariant RetryEffect(old(db.emails), ids, sendError, now) == RetryEffect(db.emails, ids[i..], sendError, now)
      decreases |ids| - i
    {
      RetryEffectStep(db.emails, ids, i, sendError, now);
      RetryRow(db, ids[i], sendError, now);
      i := i + 1;
    }
  }

  // ---------------------------------------------------------------------
  // runRetentionCleanup
  // ---------------------------------------------------------------------

  const DefaultRetentionDays := 365
  const CleanupBatchSize: nat := 200
  const DayMs := 24 * 60 * 60 * 1000

  /** The blob deletes and the row cascade, in the order they are issued. */
  datatype CleanupEvent = BlobDeleted(key: string) | RowsDeleted(ids: seq<string>)

  /** The largest distance from the epoch, in milliseconds, a Date can hold. */
  const MaxTimeMs := 8_640_000_000_000_000

  const InvalidTimeValue := "RangeError: Invalid time value"

  /** The retention period in milliseconds. */
  function RetentionMs(env: Env): int
  {
    ParsePositiveInt(env.retentionDaysEmails, DefaultRetentionDays) * DayMs
  }

  /** The cutoff instant as ISO text; `isoAt` renders milliseconds since the
      epoch. An instant a Date cannot hold makes toISOString throw, which is
      `None` here. */
  function RetentionCutoff(env: Env, nowMs: int, isoAt: int -> string): (r: Option<string>)
    ensures r.Some? <==> -MaxTimeMs <= nowMs - RetentionMs(env) <= MaxTimeMs
    ensures r.Some? ==> r.value == isoAt(nowMs - RetentionMs(env))
  {
    var ms := nowMs - RetentionMs(env);
    if -MaxTimeMs <= ms <= MaxTimeMs then Some(isoAt(ms)) else None
  }

  /** With the default of 365 days, any clock a Date can hold gives a cutoff. */
  lemma RetentionCutoffDefault(env: Env, nowMs: int, isoAt: int -> string)
    requires env.retentionDaysEmails.None?
    requires 0 <= nowMs <= MaxTimeMs
    ensures RetentionCutoff(env, nowMs, isoAt) == Some(isoAt(nowMs - 365 * DayMs))
  {
  }

  /** A retention of more than 200,000,000 days reaches before the earliest
      instant a Date can hold, so there is no cutoff. */
  lemma RetentionCutoffOutOfRange(env: Env, nowMs: int, isoAt: int -> string)
    requires 0 <= nowMs <= MaxTimeMs
    requires ParsePositiveInt(env.retentionDaysEmails, DefaultRetentionDays) > 200_000_000
    ensures RetentionCutoff(env, nowMs, isoAt).None?
  {
  }

  /** The non-empty raw blob keys of the expired rows. */
  function RawKeys(rows: seq<EmailObject>): (r: seq<string>)
    ensures forall k :: k in r <==> k != "" && exists e :: e in rows && e.rawR2Key == Some(k)
  {
    if |rows| == 0 then []
    else
      var rest := RawKeys(rows[1..]);
      assert forall e :: e in rows <==> e == rows[0] || e in rows[1..];
      if Truthy(rows[0].rawR2Key) then [rows[0].rawR2Key.value] + rest else rest
  }

  function BlobDeletes(keys: seq<string>): (r: seq<CleanupEvent>)
    ensures |r| == |keys| && forall i :: 0 <= i < |r| ==> r[i] == BlobDeleted(keys[i])
  {
    seq(|keys|, i requires 0 <= i < |keys| => BlobDeleted(keys[i]))
  }

  /** The try block of a run, once the cutoff is known. `storageError` is
      the error of the blob deletes, if any of them throws. It writes exactly
      one cleanup_runs row, and rows are deleted only after all blob deletes. */
  method CleanupBefore(db: Database, cutoff: string, storageError: Option<string>, now: string)
    returns (expired: seq<EmailObject>, trace: seq<CleanupEvent>)
    requires db.Valid()
    modifies db
    ensures db.Valid()
    ensures OldestFirst(old(db.ExpiredKeys(cutoff)), CleanupBatchSize, IdsOf(expired))
    ensures |db.cleanupRuns| == |old(db.cleanupRuns)| + 1
    ensures |expired| == 0 ==>
      trace == [] && db.State() == old(db.State()).(cleanupRuns := old(db.cleanupRuns) + [CleanupRun(0, 0, None, now)])
    ensures |expired| > 0 ==>
      trace == BlobDeletes(RawKeys(expired) + AttachmentKeys(old(db.attachments), IdsOf(expired)))
               + (if storageError.None? then [RowsDeleted(IdsOf(expired))] else [])
    ensures |expired| > 0 && storageError.Some? ==>
      db.State() == old(db.State()).(cleanupRuns := old(db.cleanupRuns) + [CleanupRun(0, 1, CutError(storageError), now)])
    ensures |expired| > 0 && storageError.None? ==>
      db.State() == Cascade(old(db.State()), IdsOf(expired))
                      .(cleanupRuns := old(db.cleanupRuns) + [CleanupRun(|expired|, 0, None, now)])
  {
    expired := db.ListExpiredEmailObjects(cutoff, CleanupBatchSize);
    trace := [];
    if |expired| == 0 {
      db.InsertCleanupRun(0, 0, None, now);
      return;
    }
    ghost var t0 := db.State();
    var ids := IdsOf(expired);
    var keys := RawKeys(expired) + AttachmentKeys(db.attachments, ids);
    trace := BlobDeletes(keys);
    if storageError.Some? {
      db.InsertCleanupRun(0, 1, storageError, now);
      return;
    }
    db.DeleteEmailCascade(ids);
    assert db.State() == Cascade(t0, ids);
    trace := trace + [RowsDeleted(ids)];
    db.InsertCleanupRun(|ids|, 0, None, now);
  }

  /** One run of the cleanup. When the cutoff cannot be computed the run
      throws before its try block (`thrown`) and writes nothing; otherwise it
      is CleanupBefore the cutoff. */
  method RunRetentionCleanup(db: Database, env: Env, nowMs: int, isoAt: int -> string,
                             storageError: Option<string>, now: string)
    returns (thrown: Option<string>, expired: seq<EmailObject>, trace: seq<CleanupEvent>)
    requires db.Valid()
    modifies db
    ensures db.Valid()
    ensures RetentionCutoff(env, nowMs, isoAt).None? ==>
      thrown == Some(InvalidTimeValue) && expired == [] && trace == [] && db.State() == old(db.State())
    ensures RetentionCutoff(env, nowMs, isoAt).Some? ==> thrown.None?
    ensures RetentionCutoff(env, nowMs, isoAt).Some? ==>
      OldestFirst(old(db.ExpiredKeys(RetentionCutoff(env, nowMs, isoAt).value)), CleanupBatchSize, IdsOf(expired))
    ensures RetentionCutoff(env, nowMs, isoAt).Some? ==> |db.cleanupRuns| == |old(db.cleanupRuns)| + 1
    ensures thrown.None? && |expired| == 0 ==>
      trace == [] && db.State() == old(db.State()).(cleanupRuns := old(db.cleanupRuns) + [CleanupRun(0, 0, None, now)])
    ensures |expired| > 0 ==>
      trace == BlobDeletes(RawKeys(expired) + AttachmentKeys(old(db.attachments), IdsOf(expired)))
               + (if storageError.None? then [RowsDeleted(IdsOf(expired))] else [])
    ensures |expired| > 0 && storageError.Some? ==>
      db.State() == old(db.State()).(cleanupRuns := old(db.cleanupRuns) + [CleanupRun(0, 1, CutError(storageError), now)])
    ensures |expired| > 0 && storageError.None? ==>
      db.State() == Cascade(old(db.State()), IdsOf(expired))
                      .(cleanupRuns := old(db.cleanupRuns) + [CleanupRun(|expired|, 0, None, now)])
  {
    var cutoff := RetentionCutoff(env, nowMs, isoAt);
    if cutoff.None? {
      thrown, expired, trace := Some(InvalidTimeValue), [], [];
      return;
    }
    thrown := None;
    expired, trace := CleanupBefore(db, cutoff.value, storageError, now);
  }

  // ---------------------------------------------------------------------
  // Review SLA
  // ---------------------------------------------------------------------

  /** Minutes a review task may stay open: 15 for P0, 30 for P1, 240 otherwise. */
  function ReviewSlaMinutes(p: ReviewPriority): real
  {
    match p
    case P0 => 15.0
    case P1 => 30.0
    case P2 => 240.0
  }

  /** isManualReviewOverdue: strictly more minutes elapsed than the SLA allows. */
  function IsManualReviewOverdue(p: ReviewPriority, elapsedMinutes: real): (r: bool)
    ensures r ==> elapsedMinutes > 15.0
    ensures elapsedMinutes > 240.0 ==> r
    ensures !r ==> elapsedMinutes <= 240.0
    ensures p == P0 ==> (r <==> elapsedMinutes > 15.0)
    ensures p == P1 ==> (r <==> elapsedMinutes > 30.0)
    ensures p == P2 ==> (r <==> elapsedMinutes > 240.0)
  {
    elapsedMinutes > ReviewSlaMinutes(p)
  }

  /** A more urgent priority is overdue no later than a less urgent one. */
  lemma OverdueOrder(elapsedMinutes: real)
    ensures IsManualReviewOverdue(P2, elapsedMinutes) ==> IsManualReviewOverdue(P1, elapsedMinutes)
    ensures IsManualReviewOverdue(P1, elapsedMinutes) ==> IsManualReviewOverdue(P0, elapsedMinutes)
  {
  }

  /** Once overdue, a task stays overdue; exactly at the limit it is not yet. */
  lemma OverdueMonotone(p: ReviewPriority, e1: real, e2: real)
    requires e1 <= e2
    ensures IsManualReviewOverdue(p, e1) ==> IsManualReviewOverdue(p, e2)
    ensures !IsManualReviewOverdue(p, ReviewSlaMinutes(p))
  {
  }
}
