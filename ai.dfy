// The AI layer: the keyword heuristics that can never fail, the extraction
// of a JSON object from a model's reply, the decision to retry against the
// direct OpenAI-compatible endpoint, and the three-tier drivers (gateway,
// Workers AI, heuristic) written as total functions over the outcomes of the
// external calls.

module Ai {
  import opened Common
  import opened Types

  // ---------------------------------------------------------------------
  // Schema range checks
  // ---------------------------------------------------------------------

  /** The numeric ranges the classification schema enforces. */
  predicate SchemaValid(c: Classification)
  {
    1 <= c.priority <= 5 && 0.0 <= c.confidenceScore <= 1.0
  }

  /** The length limits the reply-draft schema enforces. */
  predicate DraftSchemaValid(d: ReplyDraft)
  {
    1 <= |d.subject| <= 200 && 1 <= |d.body| <= 6000
  }

  // ---------------------------------------------------------------------
  // Heuristic classification
  // ---------------------------------------------------------------------

  const InvoiceWords: seq<string> := ["invoice", "receipt", "payment", "billing"]
  const PromoWords: seq<string> := ["promo", "discount", "sale"]
  const NewsletterWords: seq<string> := ["newsletter", "weekly", "digest"]
  const UrgentWords: seq<string> := ["urgent", "asap", "immediately", "security"]
  const SupportWords: seq<string> := ["support", "bug", "issue", "error"]

  /** The keyword groups in the order they are tried. */
  const KeywordGroups: seq<(Category, seq<string>)> := [
    (Invoice, InvoiceWords),
    (Promo, PromoWords),
    (Newsletter, NewsletterWords),
    (Urgent, UrgentWords),
    (Support, SupportWords)
  ]

  /** The category chosen for the lower-cased subject and body. */
  function HeuristicCategory(text: string): Category
  {
    if ContainsAny(text, InvoiceWords) then Invoice
    else if ContainsAny(text, PromoWords) then Promo
    else if ContainsAny(text, NewsletterWords) then Newsletter
    else if ContainsAny(text, UrgentWords) then Urgent
    else if ContainsAny(text, SupportWords) then Support
    else Other
  }

  /** Group `k` is the first whose words occur in `text`. */
  predicate DecidedBy(text: string, k: int)
  {
    0 <= k < |KeywordGroups|
    && ContainsAny(text, KeywordGroups[k].1)
    && forall j :: 0 <= j < k ==> !ContainsAny(text, KeywordGroups[j].1)
  }

  /** The category is that of the first matching keyword group, and Other
      exactly when no group matches. */
  lemma HeuristicCategoryFirstMatch(text: string)
    ensures HeuristicCategory(text) == Other <==>
      forall k :: 0 <= k < |KeywordGroups| ==> !ContainsAny(text, KeywordGroups[k].1)
    ensures HeuristicCategory(text) != Other ==>
      exists k :: DecidedBy(text, k) && KeywordGroups[k].0 == HeuristicCategory(text)
  {
    var c := HeuristicCategory(text);
    if c == Invoice {
      assert DecidedBy(text, 0);
    } else if c == Promo {
      assert DecidedBy(text, 1);
    } else if c == Newsletter {
      assert DecidedBy(text, 2);
    } else if c == Urgent {
      assert DecidedBy(text, 3);
    } else if c == Support {
      assert DecidedBy(text, 4);
    }
  }

  const HeuristicConfidence: real := 0.5

  /** Body's first 120 characters, else the subject, else "No content". */
  function HeuristicSummary(m: QueueMessage): (s: string)
    ensures s != ""
    ensures m.textBody != "" ==> StartsWith(m.textBody, s) && |s| == Min(|m.textBody|, 120)
    ensures m.textBody == "" && m.subject != "" ==> s == m.subject
  {
    var head := Take(m.textBody, 120);
    if head != "" then head else if m.subject != "" then m.subject else "No content"
  }

  function BuildHeuristicClassification(m: QueueMessage): (c: Classification)
    ensures SchemaValid(c)
    ensures c.category == HeuristicCategory(Lower(m.subject + " " + m.textBody))
    ensures c.confidenceScore == HeuristicConfidence
    ensures c.summary != ""
  {
    var category := HeuristicCategory(Lower(m.subject + " " + m.textBody));
    var priority := if category == Urgent then 5 else if category == Support then 4 else 3;
    Classification(
      category, None,
      if category == Urgent then UrgentSentiment else Neutral,
      priority, "unknown", HeuristicSummary(m), [CategoryName(category)],
      category == Support || category == Urgent,
      None, NoEntities, [], HeuristicConfidence)
  }

  function CategoryName(c: Category): string
  {
    match c
    case Invoice => "invoice"
    case Support => "support"
    case Personal => "personal"
    case Promo => "promo"
    case Newsletter => "newsletter"
    case Spam => "spam"
    case Urgent => "urgent"
    case Legal => "legal"
    case Other => "other"
  }

  /** Every other field of the heuristic classification follows from its category. */
  lemma HeuristicFieldsFollowCategory(m: QueueMessage)
    ensures var c := BuildHeuristicClassification(m);
      && (c.priority == 5 <==> c.category == Urgent)
      && (c.priority == 4 <==> c.category == Support)
      && (c.priority == 3 <==> c.category != Urgent && c.category != Support)
      && (c.sentiment == UrgentSentiment <==> c.category == Urgent)
      && (c.sentiment != UrgentSentiment ==> c.sentiment == Neutral)
      && (c.requiresReply <==> c.category in {Support, Urgent})
      && c.tags == [CategoryName(c.category)]
      && c.category in {Invoice, Promo, Newsletter, Urgent, Support, Other}
  {
  }

  /** The category is decided without regard to letter case. */
  lemma HeuristicCategoryCaseInsensitive(m: QueueMessage)
    ensures BuildHeuristicClassification(m).category
         == BuildHeuristicClassification(m.(subject := Lower(m.subject), textBody := Lower(m.textBody))).category
  {
    LowerConcat(m.subject, " ");
    LowerConcat(m.subject + " ", m.textBody);
    LowerConcat(Lower(m.subject), " ");
    LowerConcat(Lower(m.subject) + " ", Lower(m.textBody));
    LowerIdempotent(m.subject);
    LowerIdempotent(m.textBody);
  }

  // ---------------------------------------------------------------------
  // Heuristic reply draft
  // ---------------------------------------------------------------------

  const DefaultReplySubject := "Re: Your message"
  const SummaryLead := "Summary we captured: "

  /** `lines.filter(Boolean)` on strings: the non-empty ones, in order. */
  function NonEmpty(lines: seq<string>): (r: seq<string>)
    ensures forall k :: 0 <= k < |r| ==> r[k] != ""
    ensures |r| <= |lines|
  {
    if |lines| == 0 then []
    else if lines[0] == "" then NonEmpty(lines[1..])
    else [lines[0]] + NonEmpty(lines[1..])
  }

  const Greeting := "Hello,"
  const Acknowledgement := "Thank you for your email. We have received your message and are reviewing it."
  const FollowUp := "We will follow up shortly with next steps."
  const Closing := "Best regards,"
  const Signature := "SmartMail Team"

  /** The body's lines before blank ones are dropped. */
  function ReplyLines(summary: string): seq<string>
  {
    [Greeting, "", Acknowledgement, if summary != "" then SummaryLead + summary else "", FollowUp, "", Closing, Signature]
  }

  /** The lines that survive: the summary line only for a non-empty summary. */
  function KeptReplyLines(summary: string): seq<string>
  {
    [Greeting, Acknowledgement] + (if summary != "" then [SummaryLead + summary] else []) + [FollowUp, Closing, Signature]
  }

  function BuildHeuristicReplyDraft(m: QueueMessage, c: Classification): (d: ReplyDraft)
    ensures !d.autoSendSafe && d.tone == Formal && d.placeholders == []
    ensures 1 <= |d.subject| <= 200
    ensures m.subject == "" ==> d.subject == DefaultReplySubject
    ensures m.subject != "" ==> StartsWith("Re: " + m.subject, d.subject)
    ensures m.subject != "" ==> d.subject == Take("Re: " + m.subject, 200)
    ensures d.language != ""
    ensures c.language != "" ==> d.language == c.language
  {
    var baseSubject := if m.subject != "" then "Re: " + m.subject else DefaultReplySubject;
    ReplyDraft(
      Take(baseSubject, 200),
      Join(NonEmpty(ReplyLines(c.summary)), "\n"),
      Formal,
      if c.language != "" then c.language else "en",
      [],
      false)
  }

  lemma NonEmptyCons(x: string, rest: seq<string>)
    ensures NonEmpty([x] + rest) == (if x == "" then [] else [x]) + NonEmpty(rest)
  {
    assert ([x] + rest)[1..] == rest;
  }

  lemma ReplyTailFiltered()
    ensures NonEmpty([FollowUp, "", Closing, Signature]) == [FollowUp, Closing, Signature]
  {
    NonEmptyCons(Signature, []);
    NonEmptyCons(Closing, [Signature]);
    NonEmptyCons("", [Closing, Signature]);
    NonEmptyCons(FollowUp, ["", Closing, Signature]);
  }

  lemma ReplyMiddleFiltered(line: string)
    ensures NonEmpty([line, FollowUp, "", Closing, Signature])
         == (if line != "" then [line] else []) + [FollowUp, Closing, Signature]
  {
    var tail := [FollowUp, "", Closing, Signature];
    ReplyTailFiltered();
    NonEmptyCons(line, tail);
    assert [line] + tail == [line, FollowUp, "", Closing, Signature];
  }

  lemma ReplyLinesFiltered(summary: string)
    ensures NonEmpty(ReplyLines(summary)) == KeptReplyLines(summary)
  {
    var line := if summary != "" then SummaryLead + summary else "";
    var mid := [line, FollowUp, "", Closing, Signature];
    ReplyMiddleFiltered(line);
    assert line != "" <==> summary != "";
    NonEmptyCons(Acknowledgement, mid);
    NonEmptyCons("", [Acknowledgement] + mid);
    NonEmptyCons(Greeting, ["", Acknowledgement] + mid);
    assert ReplyLines(summary) == [Greeting] + (["", Acknowledgement] + mid);
    assert ["", Acknowledgement] + mid == [""] + ([Acknowledgement] + mid);
  }

  /** The draft body is the kept lines joined by newlines: the summary line
      is there exactly when the summary is non-empty, and no line is blank. */
  lemma HeuristicReplyBody(m: QueueMessage, c: Classification)
    ensures BuildHeuristicReplyDraft(m, c).body == Join(KeptReplyLines(c.summary), "\n")
    ensures "" !in KeptReplyLines(c.summary)
    ensures c.summary != "" ==> Contains(BuildHeuristicReplyDraft(m, c).body, SummaryLead + c.summary)
    ensures c.summary == "" ==> |KeptReplyLines(c.summary)| == 5
  {
    ReplyLinesFiltered(c.summary);
    if c.summary != "" {
      JoinContains(KeptReplyLines(c.summary), 2, "\n");
    }
  }

  // ---------------------------------------------------------------------
  // JSON extraction from a model's text
  // ---------------------------------------------------------------------

  /** The first index at or after `j` that is not white space. */
  function SkipSpace(s: string, j: nat): (k: nat)
    requires j <= |s|
    ensures j <= k <= |s|
    ensures forall t :: j <= t < k ==> IsSpace(s[t])
    ensures k < |s| ==> !IsSpace(s[k])
    decreases |s| - j
  {
    if j < |s| && IsSpace(s[j]) then SkipSpace(s, j + 1) else j
  }

  /** White space then three backticks start at `e`: where the fence can close. */
  predicate ClosesAt(s: string, e: nat)
    requires e <= |s|
  {
    var k := SkipSpace(s, e);
    k + 3 <= |s| && s[k..k + 3] == "```"
  }

  /** The first closing position at or after `e`. */
  function FindClose(s: string, e: nat): (r: Option<nat>)
    requires e <= |s|
    ensures r.Some? ==> e <= r.value <= |s| && ClosesAt(s, r.value)
    ensures r.Some? ==> forall t :: e <= t < r.value ==> !ClosesAt(s, t)
    ensures r.None? ==> forall t :: e <= t <= |s| ==> !ClosesAt(s, t)
    decreases |s| - e
  {
    if ClosesAt(s, e) then Some(e)
    else if e == |s| then None
    else FindClose(s, e + 1)
  }

  /** A fence opener "```json" (letters in any case) at `i`. */
  predicate OpensAt(s: string, i: nat)
  {
    i + 7 <= |s| && s[i..i + 3] == "```" && Lower(s[i + 3..i + 7]) == "json"
  }

  /** The leftmost opener at or after `i` that has a closing after it, as the
      bounds of the fenced text between the skipped white space and the
      closing white space. */
  function FindFence(s: string, i: nat): (r: Option<(nat, nat)>)
    requires i <= |s|
    ensures r.Some? ==> r.value.0 <= r.value.1 <= |s|
    ensures r.Some? ==>
      exists o :: i <= o && o + 7 <= |s| && OpensAt(s, o)
        && r.value.0 == SkipSpace(s, o + 7) && FindClose(s, r.value.0) == Some(r.value.1)
    ensures r.Some? ==> FindClose(s, r.value.0) == Some(r.value.1)
    ensures r.Some? && r.value.0 < |s| ==> !IsSpace(s[r.value.0])
    decreases |s| - i
  {
    if i + 7 > |s| then None
    else if OpensAt(s, i) && FindClose(s, SkipSpace(s, i + 7)).Some? then
      Some((SkipSpace(s, i + 7), FindClose(s, SkipSpace(s, i + 7)).value))
    else FindFence(s, i + 1)
  }

  /** The captured group of the "```json ... ```" pattern, if it matches. */
  function FencedBlock(raw: string): (r: Option<string>)
    ensures r.Some? ==> Contains(raw, r.value)
  {
    match FindFence(raw, 0)
    case None => None
    case Some((p, e)) =>
      assert OccursAt(raw, raw[p..e], p);
      ContainsOccurs(raw, raw[p..e]);
      Some(raw[p..e])
  }

  /** The text handed to JSON.parse: the fenced block (or the whole reply),
      cut from its first '{' to its last '}' when those exist in that order. */
  function ExtractJsonText(raw: string): string
  {
    var c := FencedBlock(raw).GetOr(raw);
    match (IndexOf(c, '{'), LastIndexOf(c, '}'))
    case (Some(a), Some(b)) => if b >= a then c[a..b + 1] else c
    case _ => c
  }

  /** The candidate passes through unchanged when it has no '{' or every '}'
      comes before its first '{'; otherwise the result is the slice of the
      candidate from its first '{' to its last '}'. */
  lemma ExtractJsonTextShape(raw: string)
    ensures var c := FencedBlock(raw).GetOr(raw);
      var r := ExtractJsonText(raw);
      || (r == c && ('{' !in c || forall t :: 0 <= t < |c| && c[t] == '}' ==> '{' !in c[..t + 1]))
      || (exists a, b :: 0 <= a < b <= |c| && r == c[a..b]
            && r[0] == '{' && r[|r| - 1] == '}' && '{' !in c[..a] && '}' !in c[b..])
  {
    var c := FencedBlock(raw).GetOr(raw);
    var r := ExtractJsonText(raw);
    match (IndexOf(c, '{'), LastIndexOf(c, '}'))
    case (Some(a), Some(b)) =>
      if b >= a {
        assert r == c[a..b + 1] && r[0] == c[a] && r[|r| - 1] == c[b];
      } else {
        NotInSuffix(c, '}', b + 1);
        forall t | 0 <= t < |c| && c[t] == '}'
          ensures '{' !in c[..t + 1]
        {
          assert c[..t + 1] == c[..a][..t + 1];
        }
      }
    case (None, _) =>
    case (Some(a), None) =>
  }

  /** A fenced block never begins or ends with white space: the pattern's
      `\s*` on both sides absorbs it. */
  lemma FencedBlockTrimmed(raw: string)
    ensures FencedBlock(raw).Some? ==>
      var b := FencedBlock(raw).value; b == [] || (!IsSpace(b[0]) && !IsSpace(b[|b| - 1]))
  {
    match FindFence(raw, 0)
    case None =>
    case Some((p, e)) =>
      assert FencedBlock(raw) == Some(raw[p..e]);
      if p < e {
        FenceEnds(raw, p, e);
      }
  }

  /** The found bounds sit on characters that are not white space. */
  lemma FenceEnds(raw: string, p: nat, e: nat)
    requires FindFence(raw, 0) == Some((p, e)) && p < e
    ensures !IsSpace(raw[p]) && !IsSpace(raw[e - 1])
    ensures var b := raw[p..e]; b[0] == raw[p] && b[|b| - 1] == raw[e - 1]
  {
    assert ClosesAt(raw, e) && !ClosesAt(raw, e - 1);
    ClosesAfterSpace(raw, e - 1);
  }

  lemma ClosesAfterSpace(s: string, j: nat)
    requires j < |s|
    ensures IsSpace(s[j]) ==> (ClosesAt(s, j) <==> ClosesAt(s, j + 1))
  {
  }

  lemma {:induction false} FindFenceSkips(s: string, i: nat, target: nat)
    requires i <= target <= |s|
    requires forall t :: i <= t < target ==> s[t] != '`'
    ensures FindFence(s, i) == FindFence(s, target)
    decreases target - i
  {
    if i < target && i + 7 <= |s| {
      assert s[i..i + 3][0] == s[i];
      FindFenceSkips(s, i + 1, target);
    }
  }

  lemma {:induction false} FindCloseAt(s: string, e: nat, target: nat)
    requires e <= target <= |s|
    requires ClosesAt(s, target)
    requires forall t :: e <= t < target ==> !ClosesAt(s, t)
    ensures FindClose(s, e) == Some(target)
    decreases target - e
  {
    if e < target {
      FindCloseAt(s, e + 1, target);
    }
  }

  predicate AllSpace(w: string)
  {
    forall k :: 0 <= k < |w| ==> IsSpace(w[k])
  }

  /** The fence found from positions: an opener at `o` preceded by no
      backtick, white space up to `p`, a block up to `e` that neither starts
      nor ends with white space and holds no backtick, white space up to `c`,
      and the closer at `c`. */
  lemma FenceAtIndices(s: string, o: nat, p: nat, e: nat, c: nat)
    requires OpensAt(s, o) && o + 7 <= p < e <= c && c + 3 <= |s|
    requires forall t :: 0 <= t < o ==> s[t] != '`'
    requires forall t :: o + 7 <= t < p ==> IsSpace(s[t])
    requires !IsSpace(s[p]) && !IsSpace(s[e - 1])
    requires forall t :: p <= t < e ==> s[t] != '`'
    requires forall t :: e <= t < c ==> IsSpace(s[t])
    requires s[c..c + 3] == "```"
    ensures FencedBlock(s) == Some(s[p..e])
  {
    SkipSpaceOver(s, o + 7, p);
    assert s[c..c + 3][0] == s[c];
    SkipSpaceOver(s, e, c);
    forall t | p <= t < e
      ensures !ClosesAt(s, t)
    {
      var k := SkipSpace(s, t);
      assert k <= e - 1;
      assert k + 3 > |s| || s[k..k + 3][0] == s[k];
    }
    FindCloseAt(s, p, e);
    FindFenceSkips(s, 0, o);
    assert FindFence(s, 0) == Some((p, e));
  }

  /** A reply holding one fenced block: text without backticks, the opener,
      white space, the block, white space, the closer. The block comes back. */
  lemma FencedBlockFound(pre: string, tag: string, ws1: string, block: string, ws2: string, post: string)
    requires '`' !in pre && '`' !in block
    requires |tag| == 4 && Lower(tag) == "json"
    requires AllSpace(ws1) && AllSpace(ws2)
    requires |block| > 0 && !IsSpace(block[0]) && !IsSpace(block[|block| - 1])
    ensures FencedBlock(pre + "```" + tag + ws1 + block + ws2 + "```" + post) == Some(block)
  {
    var s := pre + "```" + tag + ws1 + block + ws2 + "```" + post;
    var o, p := |pre|, |pre| + 7 + |ws1|;
    var e := p + |block|;
    var c := e + |ws2|;
    FenceLayout(pre, tag, ws1, block, ws2, post);
    FenceAtIndices(s, o, p, e, c);
    assert s[p..e] == block;
  }

  /** The reply laid out as opener, white space, block, white space, closer. */
  function FenceText(pre: string, tag: string, ws1: string, block: string, ws2: string, post: string): (s: string)
    ensures |s| == |pre| + 3 + |tag| + |ws1| + |block| + |ws2| + 3 + |post|
  {
    pre + "```" + tag + ws1 + block + ws2 + "```" + post
  }

  lemma FenceLayout(pre: string, tag: string, ws1: string, block: string, ws2: string, post: string)
    requires '`' !in pre && '`' !in block
    requires |tag| == 4 && Lower(tag) == "json"
    requires AllSpace(ws1) && AllSpace(ws2)
    requires |block| > 0 && !IsSpace(block[0]) && !IsSpace(block[|block| - 1])
    ensures var s := FenceText(pre, tag, ws1, block, ws2, post);
      var o, p := |pre|, |pre| + 7 + |ws1|;
      var e := p + |block|;
      var c := e + |ws2|;
      && OpensAt(s, o) && o + 7 <= p < e <= c && c + 3 <= |s|
      && (forall t :: 0 <= t < o ==> s[t] != '`')
      && (forall t :: o + 7 <= t < p ==> IsSpace(s[t]))
      && !IsSpace(s[p]) && !IsSpace(s[e - 1])
      && (forall t :: p <= t < e ==> s[t] != '`')
      && (forall t :: e <= t < c ==> IsSpace(s[t]))
      && s[c..c + 3] == "```"
      && s[p..e] == block
  {
    FenceOpening(pre, tag, ws1, block, ws2, post);
    FenceBlock(pre, tag, ws1, block, ws2, post);
    FenceClosing(pre, tag, ws1, block, ws2, post);
  }

  lemma FenceOpening(pre: string, tag: string, ws1: string, block: string, ws2: string, post: string)
    requires '`' !in pre && |tag| == 4 && Lower(tag) == "json" && AllSpace(ws1)
    ensures var s := FenceText(pre, tag, ws1, block, ws2, post);
      && OpensAt(s, |pre|)
      && (forall t :: 0 <= t < |pre| ==> s[t] != '`')
      && (forall t :: |pre| + 7 <= t < |pre| + 7 + |ws1| ==> IsSpace(s[t]))
  {
    var s := FenceText(pre, tag, ws1, block, ws2, post);
    var s2 := pre + "```" + tag;
    var s3 := s2 + ws1;
    var o := |pre|;
    assert s[..|s3|] == s3 by {
      assert s == s3 + (block + ws2 + "```" + post);
    }
    assert s[o..o + 3] == s2[o..o + 3] == "```";
    assert s[o + 3..o + 7] == s2[o + 3..o + 7] == tag;
    forall t | 0 <= t < o
      ensures s[t] != '`'
    {
      assert s[t] == s3[t] == pre[t];
    }
    forall t | o + 7 <= t < o + 7 + |ws1|
      ensures IsSpace(s[t])
    {
      assert s[t] == s3[t] == ws1[t - o - 7];
    }
  }

  lemma FenceBlock(pre: string, tag: string, ws1: string, block: string, ws2: string, post: string)
    requires '`' !in block && |tag| == 4
    requires |block| > 0 && !IsSpace(block[0]) && !IsSpace(block[|block| - 1])
    ensures var s := FenceText(pre, tag, ws1, block, ws2, post);
      var p := |pre| + 7 + |ws1|;
      var e := p + |block|;
      && s[p..e] == block
      && !IsSpace(s[p]) && !IsSpace(s[e - 1])
      && (forall t :: p <= t < e ==> s[t] != '`')
  {
    var s := FenceText(pre, tag, ws1, block, ws2, post);
    var s3 := pre + "```" + tag + ws1;
    var s4 := s3 + block;
    var p, e := |s3|, |s4|;
    assert s[..e] == s4 by {
      assert s == s4 + (ws2 + "```" + post);
    }
    forall t | p <= t < e
      ensures s[t] == block[t - p]
    {
      assert s[t] == s4[t];
    }
    assert s[p..e] == block;
  }

  lemma FenceClosing(pre: string, tag: string, ws1: string, block: string, ws2: string, post: string)
    requires AllSpace(ws2) && |tag| == 4
    ensures var s := FenceText(pre, tag, ws1, block, ws2, post);
      var e := |pre| + 7 + |ws1| + |block|;
      var c := e + |ws2|;
      && c + 3 <= |s|
      && (forall t :: e <= t < c ==> IsSpace(s[t]))
      && s[c..c + 3] == "```"
  {
    var s := FenceText(pre, tag, ws1, block, ws2, post);
    var s4 := pre + "```" + tag + ws1 + block;
    var s6 := s4 + ws2 + "```";
    var e, c := |s4|, |s4| + |ws2|;
    assert s[..|s6|] == s6 by {
      assert s == s6 + post;
    }
    forall t | e <= t < c
      ensures IsSpace(s[t])
    {
      assert s[t] == s6[t] == ws2[t - e];
    }
    assert s[c..c + 3] == s6[c..c + 3] == "```";
  }

  lemma {:induction false} SkipSpaceOver(s: string, j: nat, k: nat)
    requires j <= k <= |s|
    requires forall t :: j <= t < k ==> IsSpace(s[t])
    requires k < |s| ==> !IsSpace(s[k])
    ensures SkipSpace(s, j) == k
    decreases k - j
  {
    if j < k {
      SkipSpaceOver(s, j + 1, k);
    }
  }

  /** A fenced JSON object is handed to JSON.parse exactly. */
  lemma ExtractJsonFromFence(pre: string, tag: string, ws1: string, obj: string, ws2: string, post: string)
    requires '`' !in pre && '`' !in obj
    requires |tag| == 4 && Lower(tag) == "json"
    requires AllSpace(ws1) && AllSpace(ws2)
    requires |obj| >= 2 && obj[0] == '{' && obj[|obj| - 1] == '}'
    ensures ExtractJsonText(pre + "```" + tag + ws1 + obj + ws2 + "```" + post) == obj
  {
    FencedBlockFound(pre, tag, ws1, obj, ws2, post);
    assert LastIndexOf(obj, '}') == Some(|obj| - 1);
  }

  /** With no fence, a JSON object surrounded by prose without braces is handed
      to JSON.parse exactly. */
  lemma ExtractJsonFromProse(pre: string, obj: string, post: string)
    requires '`' !in pre && '`' !in obj && '`' !in post
    requires '{' !in pre && '}' !in post
    requires |obj| >= 2 && obj[0] == '{' && obj[|obj| - 1] == '}'
    ensures ExtractJsonText(pre + obj + post) == obj
  {
    var s := pre + obj + post;
    forall t | 0 <= t < |s|
      ensures s[t] != '`'
    {
      if t < |pre| {
        assert s[t] == pre[t];
      } else if t < |pre| + |obj| {
        assert s[t] == obj[t - |pre|];
      } else {
        assert s[t] == post[t - |pre| - |obj|];
      }
    }
    FindFenceSkips(s, 0, |s|);
    assert FencedBlock(s) == None;
    forall t | 0 <= t < |pre|
      ensures s[t] != '{'
    {
      assert s[t] == pre[t];
    }
    assert s[|pre|] == '{';
    var a := IndexOf(s, '{').value;
    assert a == |pre| by {
      assert '{' !in s[..a];
      assert s[..a + 1][a] == '{';
      NotInPrefix(s, '{', a);
    }
    forall t | |pre| + |obj| <= t < |s|
      ensures s[t] != '}'
    {
      assert s[t] == post[t - |pre| - |obj|];
    }
    assert s[|pre| + |obj| - 1] == '}';
    var b := LastIndexOf(s, '}').value;
    NotInSuffix(s, '}', b + 1);
    assert b == |pre| + |obj| - 1;
    assert s[a..b + 1] == obj;
  }

  lemma NotInPrefix(s: string, c: char, a: nat)
    requires a <= |s| && c !in s[..a]
    ensures forall k :: 0 <= k < a ==> s[k] != c
  {
    forall k | 0 <= k < a
      ensures s[k] != c
    {
      assert s[k] == s[..a][k];
    }
  }

  // ---------------------------------------------------------------------
  // Fallback decision
  // ---------------------------------------------------------------------

  /** Whether a failed gateway call may be retried against the direct endpoint. */
  function CanFallbackToDirectOpenAI(status: int, body: string, baseUrl: Option<string>): (r: bool)
  {
    if !Truthy(baseUrl) then false
    else if status >= 500 then true
    else (status == 400 && (Contains(Lower(body), "configure ai gateway") || Contains(Lower(body), "gateway")))
  }

  /** The first alternative of the pattern adds nothing: the decision is
      "a base URL, and a server error or a 400 mentioning gateway". */
  lemma CanFallbackCharacterised(status: int, body: string, baseUrl: Option<string>)
    ensures CanFallbackToDirectOpenAI(status, body, baseUrl) <==>
      Truthy(baseUrl) && (status >= 500 || (status == 400 && Contains(Lower(body), "gateway")))
  {
    if Contains(Lower(body), "configure ai gateway") {
      var w := "configure ai gateway";
      assert w[13..20] == "gateway";
      assert OccursAt(w, "gateway", 13);
      ContainsOccurs(w, "gateway");
      ContainsTransitive(Lower(body), w, "gateway");
    }
  }

  /** Without a base URL there is never a fallback; a 4xx other than 400 never falls back. */
  lemma CanFallbackNever(status: int, body: string, baseUrl: Option<string>)
    ensures !Truthy(baseUrl) ==> !CanFallbackToDirectOpenAI(status, body, baseUrl)
    ensures 400 < status < 500 ==> !CanFallbackToDirectOpenAI(status, body, baseUrl)
  {
  }

  // ---------------------------------------------------------------------
  // Chat completion bodies
  // ---------------------------------------------------------------------

  /** An element of an array `content`: `null`, or an object whose `text` may be absent. */
  datatype ChatPart = NullPart | Part(text: Option<string>)

  /** What `choices[0].message.content` holds. */
  datatype ChatContent = TextContent(text: string) | ArrayContent(parts: seq<ChatPart>) | OtherContent

  /** The result of JSON.parse on a response body, reduced to what is read. */
  datatype ChatBody = NotJson | JsonNull | JsonValue(content: Option<ChatContent>)

  const NonJsonReply := "AI provider returned non-JSON response"

  function PartTexts(parts: seq<ChatPart>): (texts: seq<string>)
    requires forall k :: 0 <= k < |parts| ==> parts[k].Part?
    ensures |texts| == |parts|
    ensures forall k :: 0 <= k < |parts| ==> texts[k] == parts[k].text.GetOr("")
  {
    seq(|parts|, k requires 0 <= k < |parts| => parts[k].text.GetOr(""))
  }

  /** The message content of a chat completion response body. */
  function ParseChatResult(body: ChatBody): (r: Result<string>)
    ensures r.Fail? <==> (
      || body.NotJson?
      || body.JsonNull?
      || (body.JsonValue? && body.content.Some? && body.content.value.ArrayContent?
          && exists k :: 0 <= k < |body.content.value.parts| && body.content.value.parts[k].NullPart?))
    ensures body.NotJson? ==> r == Fail(NonJsonReply)
    ensures body.JsonValue? && body.content.Some? && body.content.value.TextContent? ==>
      r == Ok(body.content.value.text)
    ensures body.JsonValue? && (body.content.None? || body.content.value.OtherContent?) ==> r == Ok("{}")
  {
    match body
    case NotJson => Fail(NonJsonReply)
    case JsonNull => Fail("Cannot read properties of null")
    case JsonValue(None) => Ok("{}")
    case JsonValue(Some(TextContent(t))) => Ok(t)
    case JsonValue(Some(OtherContent)) => Ok("{}")
    case JsonValue(Some(ArrayContent(parts))) =>
      if exists k :: 0 <= k < |parts| && parts[k].NullPart? then Fail("Cannot read properties of null")
      else Ok(Join(PartTexts(parts), "\n"))
  }

  /** An array content's texts are recovered by splitting on newlines, one
      line per part, a missing text being the empty line. */
  lemma ParseChatResultArray(parts: seq<ChatPart>)
    requires |parts| >= 1
    requires forall k :: 0 <= k < |parts| ==> parts[k].Part? && '\n' !in parts[k].text.GetOr("")
    ensures var r := ParseChatResult(JsonValue(Some(ArrayContent(parts))));
      r.Ok? && Split(r.value, '\n') == PartTexts(parts)
  {
    SplitJoin(PartTexts(parts), '\n');
  }

  // ---------------------------------------------------------------------
  // Tiers
  // ---------------------------------------------------------------------

  /** What an HTTP call produced: a status and a body, or a thrown error. */
  datatype Transport = Responded(status: int, body: string) | Threw(error: string)

  predicate Success(t: Transport)
  {
    t.Responded? && 200 <= t.status <= 299
  }

  /** `Boolean(CF_ACCOUNT_ID && AI_GATEWAY_ID)`. */
  predicate GatewayConfigured(env: Env)
  {
    env.cfAccountId != "" && env.aiGatewayId != ""
  }

  /** The call to the direct OpenAI-compatible endpoint. */
  function DirectChat(direct: Transport, decode: string -> ChatBody): (r: Result<string>)
    ensures Success(direct) ==> r == ParseChatResult(decode(direct.body))
    ensures !Success(direct) ==> r.Fail?
  {
    match direct
    case Threw(e) => Fail(e)
    case Responded(status, body) =>
      if 200 <= status <= 299 then ParseChatResult(decode(body))
      else Fail("OpenAI-compatible request failed")
  }

  /** The gateway chat call with its fallback to the direct endpoint.
      `gateway` and `direct` are what each endpoint would produce if called. */
  function RunAIGatewayChat(env: Env, gateway: Transport, direct: Transport, decode: string -> ChatBody): (r: Result<string>)
    ensures !GatewayConfigured(env) && !Truthy(env.openaiBaseUrl) ==> r.Fail?
    ensures r.Ok? ==>
      || (GatewayConfigured(env) && Success(gateway) && r == ParseChatResult(decode(gateway.body)))
      || (Success(direct) && r == ParseChatResult(decode(direct.body)) && Truthy(env.openaiBaseUrl)
          && (!GatewayConfigured(env)
              || (gateway.Responded? && !Success(gateway)
                  && CanFallbackToDirectOpenAI(gateway.status, gateway.body, env.openaiBaseUrl))))
    ensures GatewayConfigured(env) && Success(gateway) ==> r == ParseChatResult(decode(gateway.body))
    ensures (&& GatewayConfigured(env) && gateway.Responded? && !Success(gateway)
             && CanFallbackToDirectOpenAI(gateway.status, gateway.body, env.openaiBaseUrl))
      ==> r == DirectChat(direct, decode)
    ensures !GatewayConfigured(env) && Truthy(env.openaiBaseUrl) ==> r == DirectChat(direct, decode)
  {
    if GatewayConfigured(env) then
      match gateway
      case Threw(e) => Fail(e)
      case Responded(status, body) =>
        if 200 <= status <= 299 then ParseChatResult(decode(body))
        else if CanFallbackToDirectOpenAI(status, body, env.openaiBaseUrl) then DirectChat(direct, decode)
        else Fail("AI gateway request failed")
    else if Truthy(env.openaiBaseUrl) then DirectChat(direct, decode)
    else Fail("Neither AI Gateway nor OPENAI_BASE_URL is configured")
  }

  /** A configured gateway that fails with a client error not about the
      gateway is not retried elsewhere. */
  lemma GatewayClientErrorFails(env: Env, status: int, body: string, direct: Transport, decode: string -> ChatBody)
    requires GatewayConfigured(env)
    requires 400 <= status < 500 && !(status == 400 && Contains(Lower(body), "gateway"))
    ensures RunAIGatewayChat(env, Responded(status, body), direct, decode).Fail?
  {
    CanFallbackCharacterised(status, body, env.openaiBaseUrl);
  }

  /** A gateway server error is retried against the direct endpoint when a
      base URL is set, so the answer is the direct endpoint's. */
  lemma GatewayServerErrorFallsBack(env: Env, status: int, body: string, direct: Transport, decode: string -> ChatBody)
    requires GatewayConfigured(env) && Truthy(env.openaiBaseUrl)
    requires status >= 500
    ensures RunAIGatewayChat(env, Responded(status, body), direct, decode) == DirectChat(direct, decode)
  {
    CanFallbackCharacterised(status, body, env.openaiBaseUrl);
  }

  /** A working gateway is never bypassed, whatever the direct endpoint would answer. */
  lemma GatewaySuccessIgnoresDirect(env: Env, gateway: Transport, direct1: Transport, direct2: Transport, decode: string -> ChatBody)
    requires GatewayConfigured(env) && Success(gateway)
    ensures RunAIGatewayChat(env, gateway, direct1, decode) == RunAIGatewayChat(env, gateway, direct2, decode)
  {
  }

  /** The Workers AI call: the binding's `response` text, or a thrown error. */
  datatype WorkersReply = WorkersResponse(response: Option<string>) | WorkersThrew(error: string)

  /** Decoders standing for JSON.parse followed by the schemas' structural
      parsing (defaults filled in); None stands for a throw. */
  datatype Codecs = Codecs(
    chat: string -> ChatBody,
    classification: string -> Option<Classification>,
    draft: string -> Option<ReplyDraft>)

  /** The outcomes the external calls would have in one run. */
  datatype AiOutcomes = AiOutcomes(gateway: Transport, direct: Transport, workers: WorkersReply)

  const GatewayProvider := "ai-gateway-openai-compat"
  const WorkersProvider := "workers-ai"
  const HeuristicProvider := "heuristic"
  const DefaultModel := "openai/gpt-5-mini"
  const DefaultFallbackModel := "@cf/meta/llama-3.1-8b-instruct"

  /** Decode and range-check a classification from a model's text. */
  function DecodeClassification(text: string, codecs: Codecs): (r: Result<Classification>)
    ensures r.Ok? ==> SchemaValid(r.value)
    ensures r.Ok? <==> (var p := codecs.classification(ExtractJsonText(text)); p.Some? && SchemaValid(p.value))
    ensures r.Ok? ==> codecs.classification(ExtractJsonText(text)) == Some(r.value)
  {
    match codecs.classification(ExtractJsonText(text))
    case None => Fail("invalid JSON")
    case Some(c) => if SchemaValid(c) then Ok(c) else Fail("schema validation failed")
  }

  function DecodeDraft(text: string, codecs: Codecs): (r: Result<ReplyDraft>)
    ensures r.Ok? ==> DraftSchemaValid(r.value)
    ensures r.Ok? <==> (var p := codecs.draft(ExtractJsonText(text)); p.Some? && DraftSchemaValid(p.value))
    ensures r.Ok? ==> codecs.draft(ExtractJsonText(text)) == Some(r.value)
  {
    match codecs.draft(ExtractJsonText(text))
    case None => Fail("invalid JSON")
    case Some(d) => if DraftSchemaValid(d) then Ok(d) else Fail("schema validation failed")
  }

  function GatewayClassify(env: Env, out: AiOutcomes, codecs: Codecs): (r: Result<ClassifyResult>)
    ensures r.Ok? ==> r.value.provider == GatewayProvider && SchemaValid(r.value.classification)
    ensures r.Ok? ==> r.value.model == env.defaultAiModel.GetOr(DefaultModel)
    ensures var chat := RunAIGatewayChat(env, out.gateway, out.direct, codecs.chat);
      r.Ok? <==> chat.Ok? && DecodeClassification(chat.value, codecs).Ok?
    ensures r.Ok? ==>
      r.value.classification == DecodeClassification(RunAIGatewayChat(env, out.gateway, out.direct, codecs.chat).value, codecs).value
  {
    match RunAIGatewayChat(env, out.gateway, out.direct, codecs.chat)
    case Fail(e) => Fail(e)
    case Ok(content) =>
      match DecodeClassification(content, codecs)
      case Fail(e) => Fail(e)
      case Ok(c) => Ok(ClassifyResult(c, GatewayProvider, env.defaultAiModel.GetOr(DefaultModel)))
  }

  function WorkersClassify(env: Env, out: AiOutcomes, codecs: Codecs): (r: Result<ClassifyResult>)
    ensures r.Ok? ==> env.workersAi && r.value.provider == WorkersProvider && SchemaValid(r.value.classification)
    ensures r.Ok? ==> r.value.model == env.fallbackAiModel.GetOr(DefaultFallbackModel)
    ensures r.Ok? <==>
      env.workersAi && out.workers.WorkersResponse? && DecodeClassification(out.workers.response.GetOr("{}"), codecs).Ok?
    ensures r.Ok? ==> r.value.classification == DecodeClassification(out.workers.response.GetOr("{}"), codecs).value
  {
    if !env.workersAi then Fail("no Workers AI binding")
    else match out.workers
      case WorkersThrew(e) => Fail(e)
      case WorkersResponse(response) =>
        match DecodeClassification(response.GetOr("{}"), codecs)
        case Fail(e) => Fail(e)
        case Ok(c) => Ok(ClassifyResult(c, WorkersProvider, env.fallbackAiModel.GetOr(DefaultFallbackModel)))
  }

  function HeuristicClassify(m: QueueMessage): (r: ClassifyResult)
    ensures r.provider == HeuristicProvider && r.classification == BuildHeuristicClassification(m)
  {
    ClassifyResult(BuildHeuristicClassification(m), HeuristicProvider, "heuristic-v1")
  }

  function ClassifyWithWorkersOrHeuristic(env: Env, m: QueueMessage, out: AiOutcomes, codecs: Codecs): (r: ClassifyResult)
    ensures r.provider in {WorkersProvider, HeuristicProvider}
    ensures WorkersClassify(env, out, codecs).Ok? ==> r == WorkersClassify(env, out, codecs).value
    ensures WorkersClassify(env, out, codecs).Fail? ==> r == HeuristicClassify(m)
  {
    match WorkersClassify(env, out, codecs)
    case Ok(res) => res
    case Fail(_) => HeuristicClassify(m)
  }

  /** A Workers AI reply holding a valid classification is what the second
      tier answers. */
  lemma WorkersReplyClassifies(env: Env, m: QueueMessage, out: AiOutcomes, codecs: Codecs, text: string, c: Classification)
    requires env.workersAi && out.workers == WorkersResponse(Some(text))
    requires codecs.classification(ExtractJsonText(text)) == Some(c) && SchemaValid(c)
    ensures ClassifyWithWorkersOrHeuristic(env, m, out, codecs) ==
      ClassifyResult(c, WorkersProvider, env.fallbackAiModel.GetOr(DefaultFallbackModel))
  {
  }

  /** Without the binding the second tier is the heuristic. */
  lemma WorkersOrHeuristicWithoutBinding(env: Env, m: QueueMessage, out: AiOutcomes, codecs: Codecs)
    requires !env.workersAi
    ensures ClassifyWithWorkersOrHeuristic(env, m, out, codecs) == HeuristicClassify(m)
  {
  }

  /** The classification driver: gateway (when a key or token is set), then
      Workers AI, then the heuristic. It always produces a result. */
  function ClassifyEmail(env: Env, m: QueueMessage, out: AiOutcomes, codecs: Codecs): (r: ClassifyResult)
    ensures SchemaValid(r.classification)
    ensures r.provider in {GatewayProvider, WorkersProvider, HeuristicProvider}
    ensures r.provider == GatewayProvider ==>
      (Truthy(env.openaiApiKey) || Truthy(env.cfAigToken)) && GatewayClassify(env, out, codecs) == Ok(r)
    ensures r.provider == WorkersProvider ==> env.workersAi && WorkersClassify(env, out, codecs) == Ok(r)
    ensures r.provider == HeuristicProvider ==> (
      && r == HeuristicClassify(m)
      && WorkersClassify(env, out, codecs).Fail?
      && (Truthy(env.openaiApiKey) || Truthy(env.cfAigToken) ==> GatewayClassify(env, out, codecs).Fail?))
  {
    if !Truthy(env.openaiApiKey) && !Truthy(env.cfAigToken) then ClassifyWithWorkersOrHeuristic(env, m, out, codecs)
    else match GatewayClassify(env, out, codecs)
      case Ok(res) => res
      case Fail(_) => ClassifyWithWorkersOrHeuristic(env, m, out, codecs)
  }

  /** The first tier that succeeds wins: a working gateway is used whenever a
      key or token is set, whatever Workers AI would have answered. */
  lemma ClassifyEmailPrefersGateway(env: Env, m: QueueMessage, out: AiOutcomes, codecs: Codecs)
    requires Truthy(env.openaiApiKey) || Truthy(env.cfAigToken)
    requires GatewayClassify(env, out, codecs).Ok?
    ensures ClassifyEmail(env, m, out, codecs) == GatewayClassify(env, out, codecs).value
  {
  }

  /** Without credentials and without the Workers AI binding, classification
      is the heuristic whatever the network would do. */
  lemma ClassifyEmailOffline(env: Env, m: QueueMessage, out: AiOutcomes, codecs: Codecs)
    requires !Truthy(env.openaiApiKey) && !Truthy(env.cfAigToken) && !env.workersAi
    ensures ClassifyEmail(env, m, out, codecs) == HeuristicClassify(m)
  {
  }

  function GatewayDraft(env: Env, out: AiOutcomes, codecs: Codecs): (r: Result<ReplyDraftResult>)
    ensures r.Ok? ==> r.value.provider == GatewayProvider && DraftSchemaValid(r.value.draft)
    ensures r.Ok? ==> r.value.model == env.defaultAiModel.GetOr(DefaultModel)
    ensures var chat := RunAIGatewayChat(env, out.gateway, out.direct, codecs.chat);
      r.Ok? <==> chat.Ok? && DecodeDraft(chat.value, codecs).Ok?
    ensures r.Ok? ==> r.value.draft == DecodeDraft(RunAIGatewayChat(env, out.gateway, out.direct, codecs.chat).value, codecs).value
  {
    match RunAIGatewayChat(env, out.gateway, out.direct, codecs.chat)
    case Fail(e) => Fail(e)
    case Ok(content) =>
      match DecodeDraft(content, codecs)
      case Fail(e) => Fail(e)
      case Ok(d) => Ok(ReplyDraftResult(d, GatewayProvider, env.defaultAiModel.GetOr(DefaultModel)))
  }

  function WorkersDraft(env: Env, out: AiOutcomes, codecs: Codecs): (r: Result<ReplyDraftResult>)
    ensures r.Ok? ==> env.workersAi && r.value.provider == WorkersProvider && DraftSchemaValid(r.value.draft)
    ensures r.Ok? ==> r.value.model == env.fallbackAiModel.GetOr(DefaultFallbackModel)
    ensures r.Ok? <==>
      env.workersAi && out.workers.WorkersResponse? && DecodeDraft(out.workers.response.GetOr("{}"), codecs).Ok?
    ensures r.Ok? ==> r.value.draft == DecodeDraft(out.workers.response.GetOr("{}"), codecs).value
  {
    if !env.workersAi then Fail("no Workers AI binding")
    else match out.workers
      case WorkersThrew(e) => Fail(e)
      case WorkersResponse(response) =>
        match DecodeDraft(response.GetOr("{}"), codecs)
        case Fail(e) => Fail(e)
        case Ok(d) => Ok(ReplyDraftResult(d, WorkersProvider, env.fallbackAiModel.GetOr(DefaultFallbackModel)))
  }

  function HeuristicDraft(m: QueueMessage, c: Classification): (r: ReplyDraftResult)
    ensures r.provider == HeuristicProvider && r.draft == BuildHeuristicReplyDraft(m, c)
    ensures !r.draft.autoSendSafe
  {
    ReplyDraftResult(BuildHeuristicReplyDraft(m, c), HeuristicProvider, "heuristic-reply-v1")
  }

  function GenerateReplyWithWorkersOrHeuristic(env: Env, m: QueueMessage, c: Classification, out: AiOutcomes, codecs: Codecs): (r: ReplyDraftResult)
    ensures r.provider in {WorkersProvider, HeuristicProvider}
    ensures WorkersDraft(env, out, codecs).Ok? ==> r == WorkersDraft(env, out, codecs).value
    ensures WorkersDraft(env, out, codecs).Fail? ==> r == HeuristicDraft(m, c)
  {
    match WorkersDraft(env, out, codecs)
    case Ok(res) => res
    case Fail(_) => HeuristicDraft(m, c)
  }

  /** The reply-draft driver, with the same tiers as classification. A
      heuristic draft is never marked safe to send automatically. */
  function GenerateReplyDraft(env: Env, m: QueueMessage, c: Classification, out: AiOutcomes, codecs: Codecs): (r: ReplyDraftResult)
    ensures r.provider in {GatewayProvider, WorkersProvider, HeuristicProvider}
    ensures r.provider == HeuristicProvider ==> r.draft == BuildHeuristicReplyDraft(m, c) && !r.draft.autoSendSafe
    ensures r.provider != HeuristicProvider ==> DraftSchemaValid(r.draft)
    ensures r.provider == GatewayProvider ==>
      (Truthy(env.openaiApiKey) || Truthy(env.cfAigToken)) && GatewayDraft(env, out, codecs) == Ok(r)
    ensures r.provider == WorkersProvider ==> env.workersAi && WorkersDraft(env, out, codecs) == Ok(r)
    ensures r.provider == HeuristicProvider ==> (
      && r == HeuristicDraft(m, c)
      && WorkersDraft(env, out, codecs).Fail?
      && (Truthy(env.openaiApiKey) || Truthy(env.cfAigToken) ==> GatewayDraft(env, out, codecs).Fail?))
  {
    if !Truthy(env.openaiApiKey) && !Truthy(env.cfAigToken) then GenerateReplyWithWorkersOrHeuristic(env, m, c, out, codecs)
    else match GatewayDraft(env, out, codecs)
      case Ok(res) => res
      case Fail(_) => GenerateReplyWithWorkersOrHeuristic(env, m, c, out, codecs)
  }

  /** A working gateway drafts the reply whenever a key or token is set. */
  lemma GenerateReplyDraftPrefersGateway(env: Env, m: QueueMessage, c: Classification, out: AiOutcomes, codecs: Codecs)
    requires Truthy(env.openaiApiKey) || Truthy(env.cfAigToken)
    requires GatewayDraft(env, out, codecs).Ok?
    ensures GenerateReplyDraft(env, m, c, out, codecs) == GatewayDraft(env, out, codecs).value
  {
  }

  /** A failed gateway hands over to a working Workers AI binding. */
  lemma GenerateReplyDraftWorkersNext(env: Env, m: QueueMessage, c: Classification, out: AiOutcomes, codecs: Codecs)
    requires GatewayDraft(env, out, codecs).Fail? && WorkersDraft(env, out, codecs).Ok?
    ensures GenerateReplyDraft(env, m, c, out, codecs) == WorkersDraft(env, out, codecs).value
  {
  }

  /** Without credentials and without the binding the draft is the heuristic one. */
  lemma GenerateReplyDraftOffline(env: Env, m: QueueMessage, c: Classification, out: AiOutcomes, codecs: Codecs)
    requires !Truthy(env.openaiApiKey) && !Truthy(env.cfAigToken) && !env.workersAi
    ensures GenerateReplyDraft(env, m, c, out, codecs) == HeuristicDraft(m, c)
  {
  }

  /** The direct endpoint's address: trailing slashes of the base dropped,
      then "/chat/completions". */
  function TrimTrailingSlashes(s: string): (r: string)
    ensures StartsWith(s, r)
    ensures r == [] || r[|r| - 1] != '/'
    ensures forall k :: |r| <= k < |s| ==> s[k] == '/'
    decreases |s|
  {
    if |s| > 0 && s[|s| - 1] == '/' then TrimTrailingSlashes(s[..|s| - 1]) else s
  }

  function DirectChatUrl(baseUrl: string): (url: string)
    ensures EndsWith(url, "/chat/completions")
  {
    TrimTrailingSlashes(baseUrl) + "/chat/completions"
  }

  /** Adding trailing slashes to a base does not change the address. */
  lemma {:induction false} DirectChatUrlSlashes(baseUrl: string, n: nat)
    ensures DirectChatUrl(baseUrl + seq(n, _ => '/')) == DirectChatUrl(baseUrl)
    decreases n
  {
    if n > 0 {
      var longer := baseUrl + seq(n, _ => '/');
      assert longer[..|longer| - 1] == baseUrl + seq(n - 1, _ => '/');
      DirectChatUrlSlashes(baseUrl, n - 1);
    } else {
      assert baseUrl + seq(n, _ => '/') == baseUrl;
    }
  }
}
