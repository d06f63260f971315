/**
 * The rules engine: canned replies chosen by keyword, and the field
 * extractors (description, recipient, date, quantity, priority).
 *
 * Each regular expression is modelled by a matcher that says, for a start
 * position, whether the pattern matches there and where its match or group
 * ends; `FirstMatch` then picks the leftmost start, as `String.prototype.match`
 * without the `g` flag does. Greedy quantifiers take the longest run of their
 * class; where backtracking into such a run could change the outcome, the
 * matcher says so and takes the choice the engine takes.
 */
module Ai {
  import opened Wrappers
  import opened Text
  import opened Types

  /** The four regular expressions of the field extractors. */
  datatype Pattern = QuantityPattern | DatePattern | EmailPattern | NamePattern

  /** The pattern matches `s` at start position `i`. */
  predicate MatchesAt(p: Pattern, s: string, i: nat)
  {
    match p
    case QuantityPattern => QuantityMatchAt(s, i)
    case DatePattern => DateGroupAt(s, i).Some?
    case EmailPattern => EmailEndAt(s, i).Some?
    case NamePattern => NameGroupAt(s, i).Some?
  }

  /** The leftmost start position at or after `from` at which the pattern matches. */
  function FirstMatch(p: Pattern, s: string, from: nat): (r: Option<nat>)
    requires from <= |s|
    ensures r.Some? ==> from <= r.value < |s| && MatchesAt(p, s, r.value)
    ensures r.Some? ==> forall j :: from <= j < r.value ==> !MatchesAt(p, s, j)
    ensures r.None? ==> forall j :: from <= j < |s| ==> !MatchesAt(p, s, j)
    decreases |s| - from
  {
    if from == |s| then None
    else if MatchesAt(p, s, from) then Some(from)
    else FirstMatch(p, s, from + 1)
  }

  /** A match with no match to its left is the one `FirstMatch` finds. */
  lemma LeftmostIsFirst(p: Pattern, s: string)
    ensures forall i :: 0 <= i < |s| && MatchesAt(p, s, i) && (forall j :: 0 <= j < i ==> !MatchesAt(p, s, j)) ==>
                        FirstMatch(p, s, 0) == Some(i)
  {
  }

  // ---------------------------------------------------------------- description

  const DescriptionLimit := 100

  /** `extractTaskDescription`: long messages are cut to 97 characters and an ellipsis. */
  function ExtractTaskDescription(message: string): (r: string)
    ensures |r| <= DescriptionLimit
    ensures |message| <= DescriptionLimit ==> r == message
    ensures |message| > DescriptionLimit ==> |r| == DescriptionLimit && r[..97] == message[..97] && r[97..] == "..."
  {
    if |message| > DescriptionLimit then message[..97] + "..." else message
  }

  // ---------------------------------------------------------------- quantity

  /** `units?|items?|pieces?` under the `i` flag, at index `k` (the optional `s` never changes whether it matches). */
  predicate UnitWordAt(s: string, k: nat)
  {
    StartsWithIgnoringCase(s, k, "unit") || StartsWithIgnoringCase(s, k, "item") || StartsWithIgnoringCase(s, k, "piece")
  }

  /**
   * `/(\d+)\s*(?:units?|items?|pieces?)/i` matches at `i`: the greedy digit
   * run and the greedy white-space run are followed by a unit word. Giving
   * back digits or spaces cannot help, since a unit word starts with neither.
   */
  predicate QuantityMatchAt(s: string, i: nat)
  {
    i < |s| && IsDigit(s[i]) && UnitWordAt(s, SpanEnd(s, SpanEnd(s, i, IsDigit), IsSpace))
  }

  /** The digits captured by the quantity pattern at `i`. */
  function QuantityDigits(s: string, i: nat): (d: string)
    requires i <= |s|
    ensures forall k :: 0 <= k < |d| ==> IsDigit(d[k])
  {
    var e := SpanEnd(s, i, IsDigit);
    assert forall k :: 0 <= k < e - i ==> IsDigit(s[i..e][k]);
    s[i..e]
  }

  /**
   * `extractQuantity`: the number written in the leftmost match of the
   * quantity pattern, or 0 when the pattern does not occur.
   */
  function ExtractQuantity(message: string): (q: nat)
    ensures (forall i :: 0 <= i < |message| ==> !MatchesAt(QuantityPattern, message, i)) ==> q == 0
    ensures forall i :: 0 <= i < |message| && MatchesAt(QuantityPattern, message, i) &&
                        (forall j :: 0 <= j < i ==> !MatchesAt(QuantityPattern, message, j)) ==>
                        q == DecimalValue(QuantityDigits(message, i))
  {
    LeftmostIsFirst(QuantityPattern, message);
    match FirstMatch(QuantityPattern, message, 0)
    case None => 0
    case Some(i) => DecimalValue(QuantityDigits(message, i))
  }

  /**
   * The leftmost quantity match starts a digit run, so the whole written
   * number is read and not a tail of it.
   */
  lemma {:induction false} QuantityMatchReadsWholeNumber(s: string, i: nat)
    requires 0 < i < |s| && MatchesAt(QuantityPattern, s, i)
    requires forall j :: 0 <= j < i ==> !MatchesAt(QuantityPattern, s, j)
    ensures !IsDigit(s[i - 1])
  {
    assert !MatchesAt(QuantityPattern, s, i - 1);
  }

  // ---------------------------------------------------------------- date

  /** The end of `(?:on|for|by)` at `i` under the `i` flag (the three words start with different letters). */
  function DateKeywordEnd(s: string, i: nat): (r: Option<nat>)
    ensures r.Some? ==> i < r.value <= |s|
  {
    if StartsWithIgnoringCase(s, i, "on") then Some(i + 2)
    else if StartsWithIgnoringCase(s, i, "for") then Some(i + 3)
    else if StartsWithIgnoringCase(s, i, "by") then Some(i + 2)
    else None
  }

  /**
   * The end of `\w+\s+\d+` at `b`. A greedy run that gave characters back
   * would leave the next item facing a character of the wrong class, so the
   * longest runs decide.
   */
  function WordSpaceDigitsEnd(s: string, b: nat): (r: Option<nat>)
    requires b <= |s|
    ensures r.Some? ==> b < r.value <= |s|
  {
    var w := SpanEnd(s, b, IsWordChar);
    var x := SpanEnd(s, w, IsSpace);
    var d := SpanEnd(s, x, IsDigit);
    if b < w && w < x && x < d then Some(d) else None
  }

  /** The end of `\d+\/\d+` at `b`. */
  function SlashDateEnd(s: string, b: nat): (r: Option<nat>)
    requires b <= |s|
    ensures r.Some? ==> b < r.value <= |s|
  {
    var d1 := SpanEnd(s, b, IsDigit);
    if b < d1 && d1 < |s| && s[d1] == '/' && SpanEnd(s, d1 + 1, IsDigit) > d1 + 1 then
      Some(SpanEnd(s, d1 + 1, IsDigit))
    else None
  }

  /**
   * The bounds of the group of `/(?:on|for|by)\s+(\w+\s+\d+|\d+\/\d+)/i`
   * when it matches at `i`; the first alternative is tried first.
   */
  function DateGroupAt(s: string, i: nat): (r: Option<(nat, nat)>)
    ensures r.Some? ==> r.value.0 < r.value.1 <= |s|
  {
    match DateKeywordEnd(s, i)
    case None => None
    case Some(k) =>
      var b := SpanEnd(s, k, IsSpace);
      if b == k then None
      else if WordSpaceDigitsEnd(s, b).Some? then Some((b, WordSpaceDigitsEnd(s, b).value))
      else if SlashDateEnd(s, b).Some? then Some((b, SlashDateEnd(s, b).value))
      else None
  }

  /** What the date group can capture: `word spaces digits` or `digits/digits`. */
  ghost predicate DateShaped(t: string)
  {
    (exists p, q :: 0 < p < q < |t| && AllIn(t[..p], IsWordChar) && AllIn(t[p..q], IsSpace) && AllIn(t[q..], IsDigit)) ||
    (exists p :: 0 < p < |t| - 1 && t[p] == '/' && AllIn(t[..p], IsDigit) && AllIn(t[p + 1..], IsDigit))
  }

  lemma WordSpaceDigitsShaped(s: string, b: nat)
    requires b <= |s| && WordSpaceDigitsEnd(s, b).Some?
    ensures DateShaped(s[b..WordSpaceDigitsEnd(s, b).value])
  {
    var w := SpanEnd(s, b, IsWordChar);
    var x := SpanEnd(s, w, IsSpace);
    var d := SpanEnd(s, x, IsDigit);
    var t := s[b..d];
    SpanAllIn(s, b, IsWordChar);
    SpanAllIn(s, w, IsSpace);
    SpanAllIn(s, x, IsDigit);
    assert b < w < x < d <= |s|;
    SliceOfSlice(s, b, b, w, d);
    SliceOfSlice(s, b, w, x, d);
    SliceOfSlice(s, b, x, d, d);
    assert 0 < w - b < x - b < |t| && AllIn(t[..w - b], IsWordChar) && AllIn(t[w - b..x - b], IsSpace) && AllIn(t[x - b..], IsDigit);
  }

  lemma SlashDateShaped(s: string, b: nat)
    requires b <= |s| && SlashDateEnd(s, b).Some?
    ensures DateShaped(s[b..SlashDateEnd(s, b).value])
  {
    var d1 := SpanEnd(s, b, IsDigit);
    var d2 := SpanEnd(s, d1 + 1, IsDigit);
    var t := s[b..d2];
    SpanAllIn(s, b, IsDigit);
    SpanAllIn(s, d1 + 1, IsDigit);
    assert b < d1 && d1 + 1 < d2 <= |s|;
    SliceOfSlice(s, b, b, d1, d2);
    SliceOfSlice(s, b, d1 + 1, d2, d2);
    assert 0 < d1 - b < |t| - 1 && t[d1 - b] == '/' && AllIn(t[..d1 - b], IsDigit) && AllIn(t[d1 - b + 1..], IsDigit);
  }

  /** The date group is always in the language of the group's pattern. */
  lemma DateGroupShaped(s: string, i: nat)
    requires DateGroupAt(s, i).Some?
    ensures DateShaped(s[DateGroupAt(s, i).value.0..DateGroupAt(s, i).value.1])
  {
    var k := DateKeywordEnd(s, i).value;
    var b := SpanEnd(s, k, IsSpace);
    if WordSpaceDigitsEnd(s, b).Some? {
      WordSpaceDigitsShaped(s, b);
    } else {
      SlashDateShaped(s, b);
    }
  }

  const DateDefault := "To be determined"

  /** `extractDate`: the group of the leftmost date match, or "To be determined". */
  function ExtractDate(message: string): (r: string)
    ensures (forall i :: 0 <= i < |message| ==> !MatchesAt(DatePattern, message, i)) ==> r == DateDefault
    ensures forall i :: 0 <= i < |message| && MatchesAt(DatePattern, message, i) &&
                        (forall j :: 0 <= j < i ==> !MatchesAt(DatePattern, message, j)) ==>
                        r == message[DateGroupAt(message, i).value.0..DateGroupAt(message, i).value.1]
    ensures r == DateDefault || DateShaped(r)
  {
    LeftmostIsFirst(DatePattern, message);
    match FirstMatch(DatePattern, message, 0)
    case None => DateDefault
    case Some(i) =>
      DateGroupShaped(message, i);
      message[DateGroupAt(message, i).value.0..DateGroupAt(message, i).value.1]
  }

  // ---------------------------------------------------------------- recipient

  /** `[\w.-]` */
  predicate IsEmailChar(c: char)
  {
    IsWordChar(c) || c == '.' || c == '-'
  }

  /** At `p` stands a dot followed by a word character: where `\.\w+` can match. */
  predicate DotBeforeWord(s: string, p: nat)
  {
    p + 1 < |s| && s[p] == '.' && IsWordChar(s[p + 1])
  }

  /** The last `p` with `lo < p < hi` at which `\.\w+` can match. */
  function LastDotBeforeWord(s: string, lo: nat, hi: nat): (r: Option<nat>)
    ensures r.Some? ==> lo < r.value < hi && DotBeforeWord(s, r.value)
    ensures r.Some? ==> forall p :: r.value < p < hi ==> !DotBeforeWord(s, p)
    ensures r.None? ==> forall p :: lo < p < hi ==> !DotBeforeWord(s, p)
    decreases hi
  {
    if hi <= lo + 1 then None
    else if DotBeforeWord(s, hi - 1) then Some(hi - 1)
    else LastDotBeforeWord(s, lo, hi - 1)
  }

  /**
   * The end of `[\w.-]+\.\w+` at `h`. The run `[\w.-]+` is greedy and
   * includes dots, so the engine gives characters back until `\.\w+` can
   * match: at the last such dot of the run.
   */
  function HostEnd(s: string, h: nat): (r: Option<nat>)
    requires h <= |s|
    ensures r.Some? ==> h < r.value <= |s|
  {
    match LastDotBeforeWord(s, h, SpanEnd(s, h, IsEmailChar))
    case None => None
    case Some(p) => Some(SpanEnd(s, p + 1, IsWordChar))
  }

  /**
   * The end of the match of `/[\w.-]+@[\w.-]+\.\w+/` at `i`: the longest run
   * of `[\w.-]` must be followed by `@` and a host.
   */
  function EmailEndAt(s: string, i: nat): (r: Option<nat>)
    ensures r.Some? ==> i < r.value <= |s|
  {
    if i > |s| then None
    else
      var at := SpanEnd(s, i, IsEmailChar);
      if at == i || at == |s| || s[at] != '@' then None
      else HostEnd(s, at + 1)
  }

  /** The language of the host part: `name.tld`. */
  ghost predicate HostShaped(t: string)
  {
    exists p :: 0 < p && p + 1 < |t| && t[p] == '.' && AllIn(t[..p], IsEmailChar) && AllIn(t[p + 1..], IsWordChar)
  }

  /** The language of the email pattern: `local@host.tld`. */
  ghost predicate EmailShaped(t: string)
  {
    exists a :: 0 < a < |t| && t[a] == '@' && AllIn(t[..a], IsEmailChar) && HostShaped(t[a + 1..])
  }

  lemma HostMatchShaped(s: string, h: nat)
    requires h <= |s| && HostEnd(s, h).Some?
    ensures HostShaped(s[h..HostEnd(s, h).value])
  {
    var hostRun := SpanEnd(s, h, IsEmailChar);
    var p := LastDotBeforeWord(s, h, hostRun).value;
    var e := SpanEnd(s, p + 1, IsWordChar);
    var t := s[h..e];
    SpanAllIn(s, p + 1, IsWordChar);
    assert h < p && p + 1 < e <= |s|;
    SliceOfSlice(s, h, h, p, e);
    assert AllIn(s[h..p], IsEmailChar);
    SliceOfSlice(s, h, p + 1, e, e);
    assert 0 < p - h && p - h + 1 < |t| && t[p - h] == '.' && AllIn(t[..p - h], IsEmailChar) && AllIn(t[p - h + 1..], IsWordChar);
  }

  /** What the email matcher matches is in the language of the email pattern. */
  lemma EmailMatchShaped(s: string, i: nat)
    requires EmailEndAt(s, i).Some?
    ensures EmailShaped(s[i..EmailEndAt(s, i).value])
  {
    var at := SpanEnd(s, i, IsEmailChar);
    var e := EmailEndAt(s, i).value;
    var t := s[i..e];
    SpanAllIn(s, i, IsEmailChar);
    HostMatchShaped(s, at + 1);
    assert i < at && at + 1 < e <= |s|;
    SliceOfSlice(s, i, i, at, e);
    SliceOfSlice(s, i, at + 1, e, e);
    assert 0 < at - i < |t| && t[at - i] == '@' && AllIn(t[..at - i], IsEmailChar) && HostShaped(t[at - i + 1..]);
  }

  /** The end of `(?:to|for|with)` at `i` (case-sensitive; the three words start with different letters). */
  function NameKeywordEnd(s: string, i: nat): (r: Option<nat>)
    ensures r.Some? ==> i < r.value <= |s|
  {
    if i > |s| then None
    else if "to" <= s[i..] then Some(i + 2)
    else if "for" <= s[i..] then Some(i + 3)
    else if "with" <= s[i..] then Some(i + 4)
    else None
  }

  /** The end of `[A-Z][a-z]+` at `b`. */
  function CapitalizedWordEnd(s: string, b: nat): (r: Option<nat>)
    ensures r.Some? ==> b + 1 < r.value <= |s|
  {
    if b < |s| && IsUpper(s[b]) && SpanEnd(s, b + 1, IsLower) > b + 1 then Some(SpanEnd(s, b + 1, IsLower))
    else None
  }

  /**
   * The end of `[A-Z][a-z]+(?:\s+[A-Z][a-z]+)?` at `b`. The optional second
   * word is taken when it is there; the first word never has to give back
   * letters, since the group may stop after it.
   */
  function NameEnd(s: string, b: nat): (r: Option<nat>)
    ensures r.Some? ==> b + 1 < r.value <= |s|
  {
    match CapitalizedWordEnd(s, b)
    case None => None
    case Some(e1) =>
      var c := SpanEnd(s, e1, IsSpace);
      if e1 < c && CapitalizedWordEnd(s, c).Some? then CapitalizedWordEnd(s, c) else Some(e1)
  }

  /** The bounds of the group of `/(?:to|for|with)\s+([A-Z][a-z]+(?:\s+[A-Z][a-z]+)?)/` at `i`. */
  function NameGroupAt(s: string, i: nat): (r: Option<(nat, nat)>)
    ensures r.Some? ==> r.value.0 < r.value.1 <= |s|
  {
    match NameKeywordEnd(s, i)
    case None => None
    case Some(k) =>
      var b := SpanEnd(s, k, IsSpace);
      if b == k || NameEnd(s, b).None? then None else Some((b, NameEnd(s, b).value))
  }

  /** An upper-case letter followed by at least one lower-case letter. */
  ghost predicate CapitalizedWord(w: string)
  {
    |w| >= 2 && IsUpper(w[0]) && AllIn(w[1..], IsLower)
  }

  /** The language of the name group: one or two capitalised words. */
  ghost predicate NameShaped(t: string)
  {
    CapitalizedWord(t) ||
    exists p, q :: 0 < p < q < |t| && CapitalizedWord(t[..p]) && AllIn(t[p..q], IsSpace) && CapitalizedWord(t[q..])
  }

  lemma CapitalizedWordShaped(s: string, b: nat)
    requires CapitalizedWordEnd(s, b).Some?
    ensures CapitalizedWord(s[b..CapitalizedWordEnd(s, b).value])
  {
    var e := CapitalizedWordEnd(s, b).value;
    SpanAllIn(s, b + 1, IsLower);
    assert s[b..e][1..] == s[b + 1..e];
  }

  /** What the name matcher captures is one or two capitalised words. */
  lemma NameGroupShaped(s: string, i: nat)
    requires NameGroupAt(s, i).Some?
    ensures NameShaped(s[NameGroupAt(s, i).value.0..NameGroupAt(s, i).value.1])
  {
    var k := NameKeywordEnd(s, i).value;
    var b := SpanEnd(s, k, IsSpace);
    var e1 := CapitalizedWordEnd(s, b).value;
    var c := SpanEnd(s, e1, IsSpace);
    var e := NameEnd(s, b).value;
    var t := s[b..e];
    CapitalizedWordShaped(s, b);
    if e1 < c && CapitalizedWordEnd(s, c).Some? {
      CapitalizedWordShaped(s, c);
      SpanAllIn(s, e1, IsSpace);
      assert b < e1 < c < e <= |s|;
      SliceOfSlice(s, b, b, e1, e);
      SliceOfSlice(s, b, e1, c, e);
      SliceOfSlice(s, b, c, e, e);
      assert 0 < e1 - b < c - b < |t| && CapitalizedWord(t[..e1 - b]) && AllIn(t[e1 - b..c - b], IsSpace) && CapitalizedWord(t[c - b..]);
    }
  }

  const RecipientDefault := "Not specified"

  /**
   * `extractRecipient`: the leftmost email-shaped token if there is one,
   * otherwise the name after the leftmost "to/for/with", otherwise
   * "Not specified".
   */
  function ExtractRecipient(message: string): (r: string)
    ensures forall i :: 0 <= i < |message| && MatchesAt(EmailPattern, message, i) &&
                        (forall j :: 0 <= j < i ==> !MatchesAt(EmailPattern, message, j)) ==>
                        r == message[i..EmailEndAt(message, i).value]
    ensures (forall i :: 0 <= i < |message| ==> !MatchesAt(EmailPattern, message, i)) ==>
              forall i :: 0 <= i < |message| && MatchesAt(NamePattern, message, i) &&
                          (forall j :: 0 <= j < i ==> !MatchesAt(NamePattern, message, j)) ==>
                          r == message[NameGroupAt(message, i).value.0..NameGroupAt(message, i).value.1]
    ensures (forall i :: 0 <= i < |message| ==> !MatchesAt(EmailPattern, message, i) && !MatchesAt(NamePattern, message, i)) ==>
              r == RecipientDefault
    ensures (exists i :: 0 <= i < |message| && MatchesAt(EmailPattern, message, i)) ==> EmailShaped(r)
    ensures r == RecipientDefault || EmailShaped(r) || NameShaped(r)
  {
    LeftmostIsFirst(EmailPattern, message);
    LeftmostIsFirst(NamePattern, message);
    match FirstMatch(EmailPattern, message, 0)
    case Some(i) =>
      EmailMatchShaped(message, i);
      message[i..EmailEndAt(message, i).value]
    case None =>
      match FirstMatch(NamePattern, message, 0)
      case Some(i) =>
        NameGroupShaped(message, i);
        message[NameGroupAt(message, i).value.0..NameGroupAt(message, i).value.1]
      case None => RecipientDefault
  }

  // ---------------------------------------------------------------- priority

  /** One of the keywords that make a message urgent occurs in `lower`. */
  ghost predicate MentionsUrgency(lower: string)
  {
    Occurs(lower, "urgent") || Occurs(lower, "asap") || Occurs(lower, "critical")
  }

  /** One of the phrases that make a message low priority occurs in `lower`. */
  ghost predicate MentionsLowPriority(lower: string)
  {
    Occurs(lower, "low priority") || Occurs(lower, "when possible")
  }

  /**
   * `determinePriority`: high when an urgency keyword occurs in the
   * lower-cased message, whatever else it says; low when only a
   * low-priority phrase occurs; medium otherwise.
   */
  function DeterminePriority(message: string): (p: Priority)
    ensures p == High <==> MentionsUrgency(ToLower(message))
    ensures p == Low <==> !MentionsUrgency(ToLower(message)) && MentionsLowPriority(ToLower(message))
    ensures p == Medium <==> !MentionsUrgency(ToLower(message)) && !MentionsLowPriority(ToLower(message))
  {
    var lower := ToLower(message);
    if Contains(lower, "urgent") || Contains(lower, "asap") || Contains(lower, "critical") then High
    else if Contains(lower, "low priority") || Contains(lower, "when possible") then Low
    else Medium
  }

  /** Two messages that differ only in the case of ASCII letters get the same priority. */
  lemma PriorityIgnoresCase(m1: string, m2: string)
    requires |m1| == |m2|
    requires forall i :: 0 <= i < |m1| ==> LowerChar(m1[i]) == LowerChar(m2[i])
    ensures DeterminePriority(m1) == DeterminePriority(m2)
  {
    assert ToLower(m1) == ToLower(m2);
  }

  // ---------------------------------------------------------------- replies

  const GatewayOutreachReply := "I've created a draft outreach email task for your review. The email will be personalized based on the prospect's background and your value proposition. You can review and approve it in the task panel."
  const GatewayFollowUpReply := "I've scheduled a follow-up task. I'll remind you to check in with the prospect at the optimal time based on your previous interaction patterns."
  const GatewayDefaultReply := "I'm here to help with sales outreach, follow-ups, and deal analysis. What would you like me to assist with?"
  const RiskSupportReply := "I've prepared a customer support response for your review. The response addresses their concerns while maintaining our brand voice and support standards."
  const RiskDefaultReply := "I can help you manage customer inquiries, draft responses, and track support issues. How can I assist you today?"
  const OperationsScheduleReply := "I've created a scheduling task with the details provided. I'll ensure all stakeholders are notified and conflicts are flagged for your review."
  const OperationsReorderReply := "I've generated a reorder task based on current inventory levels and usage patterns. Please review the quantities and approve the order."
  const OperationsDefaultReply := "I'm here to help with scheduling, inventory management, and operational coordination. What do you need?"

  /** The replies a domain can give. */
  function DomainReplies(d: Domain): seq<string>
  {
    match d
    case Gateway => [GatewayOutreachReply, GatewayFollowUpReply, GatewayDefaultReply]
    case RiskManagement => [RiskSupportReply, RiskDefaultReply]
    case Operations => [OperationsScheduleReply, OperationsReorderReply, OperationsDefaultReply]
  }

  /**
   * `generateAIResponse`: the first keyword test of the domain that the
   * lower-cased message passes picks the reply; a message passing none gets
   * the domain's own default.
   */
  function GenerateAIResponse(domain: Domain, userMessage: string): (reply: string)
    ensures reply in DomainReplies(domain)
    ensures domain == Gateway ==>
      (reply == GatewayOutreachReply <==> Occurs(ToLower(userMessage), "email") || Occurs(ToLower(userMessage), "outreach"))
    ensures domain == Gateway ==>
      (reply == GatewayFollowUpReply <==>
         !(Occurs(ToLower(userMessage), "email") || Occurs(ToLower(userMessage), "outreach")) &&
         Occurs(ToLower(userMessage), "follow up"))
    ensures domain == RiskManagement ==>
      (reply == RiskSupportReply <==> Occurs(ToLower(userMessage), "respond") || Occurs(ToLower(userMessage), "email"))
    ensures domain == Operations ==> (reply == OperationsScheduleReply <==> Occurs(ToLower(userMessage), "schedule"))
    ensures domain == Operations ==>
      (reply == OperationsReorderReply <==>
         !Occurs(ToLower(userMessage), "schedule") && Occurs(ToLower(userMessage), "reorder"))
  {
    var lower := ToLower(userMessage);
    match domain
    case Gateway =>
      if Contains(lower, "email") || Contains(lower, "outreach") then GatewayOutreachReply
      else if Contains(lower, "follow up") then GatewayFollowUpReply
      else GatewayDefaultReply
    case RiskManagement =>
      if Contains(lower, "respond") || Contains(lower, "email") then RiskSupportReply
      else RiskDefaultReply
    case Operations =>
      if Contains(lower, "schedule") then OperationsScheduleReply
      else if Contains(lower, "reorder") then OperationsReorderReply
      else OperationsDefaultReply
  }

  /** The reply depends on the message only through its lower-cased form. */
  lemma ResponseIgnoresCase(domain: Domain, userMessage: string)
    ensures GenerateAIResponse(domain, ToLower(userMessage)) == GenerateAIResponse(domain, userMessage)
  {
    ToLowerIdempotent(userMessage);
  }

  /** No reply of one domain is a reply of another, so the reply tells which domain answered. */
  lemma RepliesIdentifyDomain(d1: Domain, m1: string, d2: Domain, m2: string)
    requires d1 != d2
    ensures GenerateAIResponse(d1, m1) != GenerateAIResponse(d2, m2)
  {
  }

  // ---------------------------------------------------------------- task generation

  /**
   * `generateTaskFromMessage`: its body only lower-cases the message and
   * ends without a `return`, so it yields no task (`undefined`) for every
   * input and adds nothing to the store.
   */
  function GenerateTaskFromMessage(domain: Domain, userMessage: string): (r: Option<Task>)
    ensures r.None?
  {
    var _ := ToLower(userMessage);
    None
  }
}
