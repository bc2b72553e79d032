// Small helpers used at ingestion: configuration parsing, text truncation,
// domain extraction, keyword priority and the queue payload budget.

module Utils {
  import opened Common
  import opened Types

  // ---------------------------------------------------------------------
  // Configuration numbers
  // ---------------------------------------------------------------------

  /** A positive integer read from an optional setting, or `fallback`:
      NaN, Infinity, zero and negative numbers all fall back. */
  function ParsePositiveInt(raw: Option<string>, fallback: int): (r: int)
    ensures r > 0 || r == fallback
    ensures raw.None? ==> r == fallback
    ensures r != fallback ==> ParseInt(raw.GetOr("")) == Some(r) && IsFiniteNumber(r)
    ensures var n := ParseInt(raw.GetOr(""));
      n.Some? && IsFiniteNumber(n.value) && n.value > 0 ==> r == n.value
    ensures var n := ParseInt(raw.GetOr(""));
      n.None? || !IsFiniteNumber(n.value) || n.value <= 0 ==> r == fallback
  {
    match ParseInt(raw.GetOr(""))
    case Some(n) => if !IsFiniteNumber(n) || n <= 0 then fallback else n
    case None => fallback
  }

  /** The decimal text of a positive finite number is read back exactly;
      zero, and a number too large for a double (Infinity), fall back. */
  lemma ParsePositiveIntDecimal(n: nat, fallback: int)
    ensures 0 < n < InfinityThreshold ==> ParsePositiveInt(Some(NatToDecimal(n)), fallback) == n
    ensures n == 0 ==> ParsePositiveInt(Some(NatToDecimal(n)), fallback) == fallback
    ensures n >= InfinityThreshold ==> ParsePositiveInt(Some(NatToDecimal(n)), fallback) == fallback
  {
    ParseIntDecimal(n);
  }

  /** The Infinity boundary: the digits of 2^1024 - 2^970 are Infinity to
      parseInt and fall back, the number just below it is still finite. */
  lemma ParsePositiveIntInfinityEdge(fallback: int)
    ensures ParsePositiveInt(Some(NatToDecimal(InfinityThreshold)), fallback) == fallback
    ensures ParsePositiveInt(Some(NatToDecimal(InfinityThreshold - 1)), fallback) == InfinityThreshold - 1
  {
    ParsePositiveIntDecimal(InfinityThreshold, fallback);
    ParsePositiveIntDecimal(InfinityThreshold - 1, fallback);
  }

  const DefaultMaxBodyLength := 10000

  function ParseMaxBodyLength(raw: Option<string>): (r: int)
    ensures r > 0
    ensures raw.None? ==> r == DefaultMaxBodyLength
    ensures var n := ParseInt(raw.GetOr(""));
      n.Some? && IsFiniteNumber(n.value) && n.value > 0 ==> r == n.value
    ensures var n := ParseInt(raw.GetOr(""));
      n.None? || !IsFiniteNumber(n.value) || n.value <= 0 ==> r == DefaultMaxBodyLength
  {
    ParsePositiveInt(raw, DefaultMaxBodyLength)
  }

  lemma ParseExamples()
    ensures ParsePositiveInt(None, 7) == 7
    ensures ParsePositiveInt(Some("0"), 7) == 7
    ensures ParsePositiveInt(Some("15"), 7) == 15
    ensures ParseMaxBodyLength(Some("not-a-number")) == 10000
  {
    ParsePositiveIntDecimal(0, 7);
    ParsePositiveIntDecimal(15, 7);
    assert TrimStart("not-a-number") == "not-a-number";
    assert DigitPrefix("not-a-number") == "";
  }

  lemma ParseMaxBodyLengthExample()
    ensures ParseMaxBodyLength(Some("512")) == 512
  {
    assert NatToDecimal(512) == "512" by {
      assert NatToDecimal(5) == "5";
      assert NatToDecimal(51) == "51";
    }
    ParsePositiveIntDecimal(512, DefaultMaxBodyLength);
  }

  // ---------------------------------------------------------------------
  // Truncation
  // ---------------------------------------------------------------------

  datatype Truncated = Truncated(value: string, truncated: bool)

  function TruncateText(text: string, maxLength: nat): (r: Truncated)
    ensures r.truncated <==> |text| > maxLength
    ensures |r.value| == Min(|text|, maxLength)
    ensures StartsWith(text, r.value)
    ensures !r.truncated <==> r.value == text
  {
    if |text| <= maxLength then Truncated(text, false) else Truncated(text[..maxLength], true)
  }

  lemma TruncateTextIdempotent(text: string, maxLength: nat)
    ensures TruncateText(TruncateText(text, maxLength).value, maxLength).value
         == TruncateText(text, maxLength).value
    ensures !TruncateText(TruncateText(text, maxLength).value, maxLength).truncated
  {
  }

  // ---------------------------------------------------------------------
  // Object keys
  // ---------------------------------------------------------------------

  /** `prefix/yyyy/mm/dd/id.ext` for the UTC date passed in. */
  function BuildDatedKey(prefix: string, id: string, ext: string, year: nat, month: nat, day: nat): (key: string)
    ensures StartsWith(key, prefix + "/")
    ensures EndsWith(key, "/" + id + "." + ext)
  {
    var file := id + "." + ext;
    prefix + "/" + (NatToDecimal(year) + "/" + (Pad2(month) + "/" + (Pad2(day) + "/" + file)))
  }

  lemma {:induction false} DecimalHasNoSlash(n: nat)
    ensures '/' !in NatToDecimal(n)
    ensures '/' !in Pad2(n)
  {
    NatToDecimalDigits(n);
  }

  /** When the prefix, id and extension contain no '/', the key splits back
      into its five path components. */
  lemma BuildDatedKeySplit(prefix: string, id: string, ext: string, year: nat, month: nat, day: nat)
    requires '/' !in prefix && '/' !in id && '/' !in ext
    ensures Split(BuildDatedKey(prefix, id, ext, year, month, day), '/')
         == [prefix, NatToDecimal(year), Pad2(month), Pad2(day), id + "." + ext]
  {
    DecimalHasNoSlash(year);
    DecimalHasNoSlash(month);
    DecimalHasNoSlash(day);
    var file := id + "." + ext;
    assert '/' !in file;
    SplitNoSeparator(file, '/');
    var k3 := Pad2(day) + "/" + file;
    SplitAfterPart(Pad2(day), file, '/');
    var k2 := Pad2(month) + "/" + k3;
    SplitAfterPart(Pad2(month), k3, '/');
    var k1 := NatToDecimal(year) + "/" + k2;
    SplitAfterPart(NatToDecimal(year), k2, '/');
    SplitAfterPart(prefix, k1, '/');
  }

  // ---------------------------------------------------------------------
  // Addresses and priority
  // ---------------------------------------------------------------------

  /** The lower-cased text after the last '@', or "" when there is none. */
  function ExtractDomain(email: string): (domain: string)
    ensures '@' !in email ==> domain == ""
    ensures '@' in email ==>
      exists i :: 0 <= i < |email| && email[i] == '@' && '@' !in email[i + 1..] && domain == Lower(email[i + 1..])
    ensures '@' !in domain
  {
    match LastIndexOf(email, '@')
    case None => ""
    case Some(i) => Lower(email[i + 1..])
  }

  /** The domain of `local@domain` is the lower-cased domain, whatever the local part holds. */
  lemma ExtractDomainOf(local: string, domain: string)
    requires '@' !in domain
    ensures ExtractDomain(local + "@" + domain) == Lower(domain)
  {
    var e := local + "@" + domain;
    assert e[|local|] == '@';
    forall k | |local| < k < |e|
      ensures e[k] != '@'
    {
      assert e[k] == domain[k - |local| - 1];
    }
    var i := LastIndexOf(e, '@').value;
    NotInSuffix(e, '@', i + 1);
    assert i == |local|;
    assert e[i + 1..] == domain;
  }

  lemma ExtractDomainExample()
    ensures ExtractDomain("User@Example.COM") == Lower("Example.COM")
  {
    var domain := "Example.COM";
    assert "User@Example.COM" == "User" + "@" + domain;
    ExtractDomainOf("User", domain);
  }

  const UrgentWords: seq<string> := ["urgent", "immediately", "security", "legal", "outage", "down"]
  const BillingWords: seq<string> := ["invoice", "payment", "billing", "contract"]

  /** Keyword priority over the lower-cased subject and sender. */
  function InferPriority(subject: string, from: string): (p: MailPriority)
  {
    var s := Lower(subject + " " + from);
    if ContainsAny(s, UrgentWords) then High
    else if ContainsAny(s, BillingWords) then Normal
    else Low
  }

  /** High exactly when an urgent word occurs; an urgent word wins over a
      billing word; Normal exactly when only a billing word occurs. */
  lemma InferPriorityCases(subject: string, from: string)
    ensures var s := Lower(subject + " " + from);
      && (InferPriority(subject, from) == High <==> ContainsAny(s, UrgentWords))
      && (InferPriority(subject, from) == Normal <==> !ContainsAny(s, UrgentWords) && ContainsAny(s, BillingWords))
      && (InferPriority(subject, from) == Low <==> !ContainsAny(s, UrgentWords) && !ContainsAny(s, BillingWords))
  {
  }

  /** The priority does not depend on letter case. */
  lemma InferPriorityCaseInsensitive(subject: string, from: string)
    ensures InferPriority(Lower(subject), Lower(from)) == InferPriority(subject, from)
  {
    LowerConcat(subject, " ");
    LowerConcat(subject + " ", from);
    LowerConcat(Lower(subject), " ");
    LowerConcat(Lower(subject) + " ", Lower(from));
    LowerIdempotent(subject);
    LowerIdempotent(from);
  }

  lemma InferPriorityExample()
    ensures InferPriority("URGENT: account down", "noreply@example.com") == High
  {
    var rest := ": account down" + " " + "noreply@example.com";
    assert "URGENT: account down" + " " + "noreply@example.com" == "URGENT" + rest;
    LowerConcat("URGENT", rest);
    assert Lower("URGENT") == "urgent";
    var s := Lower("URGENT" + rest);
    assert StartsWith(s, UrgentWords[0]);
  }

  // ---------------------------------------------------------------------
  // Queue payload budget
  // ---------------------------------------------------------------------

  const BodyBudgetFirst := 4000
  const AttachmentBudget := 8
  const BodyBudgetLast := 1500

  /** Step one: cut a body over 4000 characters and flag it. */
  function CutBody(p: QueueMessage): QueueMessage
  {
    if |p.textBody| > BodyBudgetFirst then p.(textBody := p.textBody[..BodyBudgetFirst], bodyTruncated := Some(true))
    else p
  }

  /** Step two: keep the first eight attachments. */
  function CutAttachments(p: QueueMessage): QueueMessage
  {
    if |p.attachments| > AttachmentBudget then p.(attachments := p.attachments[..AttachmentBudget]) else p
  }

  /** Step three: cut the body to 1500 characters and flag it, unconditionally. */
  function CutBodyHard(p: QueueMessage): QueueMessage
  {
    p.(textBody := Take(p.textBody, BodyBudgetLast), bodyTruncated := Some(true))
  }

  /** Every field other than the body, its flag and the attachments. */
  predicate SameEnvelope(a: QueueMessage, b: QueueMessage)
  {
    a.(textBody := b.textBody, bodyTruncated := b.bodyTruncated, attachments := b.attachments) == b
  }

  /** Shrink a payload whose serialised size (`size`) exceeds `maxBytes`,
      stopping after the first step that makes it fit. */
  function ApplyQueuePayloadBudget(p: QueueMessage, maxBytes: int, size: QueueMessage -> int): (r: QueueMessage)
    ensures size(p) <= maxBytes ==> r == p
    ensures StartsWith(p.textBody, r.textBody)
    ensures |r.attachments| <= |p.attachments|
    ensures r.attachments == p.attachments[..|r.attachments|]
    ensures |r.attachments| < |p.attachments| ==> |p.attachments| > AttachmentBudget && |r.attachments| == AttachmentBudget
    ensures r.textBody != p.textBody ==> r.bodyTruncated == Some(true)
    ensures r.bodyTruncated != p.bodyTruncated ==> r.bodyTruncated == Some(true)
    ensures size(p) > maxBytes ==> |r.textBody| <= BodyBudgetFirst
    ensures size(r) > maxBytes ==> |r.textBody| <= BodyBudgetLast && |r.attachments| <= AttachmentBudget
    ensures SameEnvelope(r, p)
  {
    if size(p) <= maxBytes then p
    else
      var first := CutBody(p);
      if size(first) <= maxBytes then first
      else
        var second := CutAttachments(first);
        if size(second) <= maxBytes then second
        else CutBodyHard(second)
  }

  /** A budgeted payload is left alone by a second pass. */
  lemma ApplyQueuePayloadBudgetIdempotent(p: QueueMessage, maxBytes: int, size: QueueMessage -> int)
    ensures var r := ApplyQueuePayloadBudget(p, maxBytes, size);
      ApplyQueuePayloadBudget(r, maxBytes, size) == r
  {
    var r := ApplyQueuePayloadBudget(p, maxBytes, size);
    if size(r) > maxBytes {
      assert CutBody(r) == r;
      assert CutAttachments(r) == r;
      assert Take(r.textBody, BodyBudgetLast) == r.textBody;
      assert CutBodyHard(r) == r;
    }
  }

  /** The result fits whenever the fully shrunk payload would fit. */
  lemma ApplyQueuePayloadBudgetFits(p: QueueMessage, maxBytes: int, size: QueueMessage -> int)
    requires size(CutBodyHard(CutAttachments(CutBody(p)))) <= maxBytes
    ensures size(ApplyQueuePayloadBudget(p, maxBytes, size)) <= maxBytes
  {
  }

  /** An oversized payload with a body over 4000 characters comes back flagged
      and with at most 4000 characters of body. */
  lemma ApplyQueuePayloadBudgetLongBody(p: QueueMessage, maxBytes: int, size: QueueMessage -> int)
    requires size(p) > maxBytes && |p.textBody| > BodyBudgetFirst
    ensures var r := ApplyQueuePayloadBudget(p, maxBytes, size);
      r.bodyTruncated == Some(true) && |r.textBody| <= BodyBudgetFirst
  {
  }

  /** The budget is not a guarantee: a payload whose every shrunk form is
      still too large is returned too large. */
  lemma ApplyQueuePayloadBudgetMayExceed(p: QueueMessage)
    ensures var size := (q: QueueMessage) => 4000;
      size(ApplyQueuePayloadBudget(p, 3500, size)) > 3500
  {
  }
}
