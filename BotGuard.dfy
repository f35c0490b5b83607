/**
 * The bot guard: one-time arithmetic challenges with an expiry, a fixed-window
 * rate limiter keyed by client, the client identifier built from request
 * headers, the honeypot field check and HTML escaping. Both in-memory stores
 * live in one `Guard` object; the clock, the random operands and the random
 * token are parameters.
 */
module BotGuard {
  import opened Wrappers
  import opened Text

  /** Challenges stay answerable for five minutes. */
  const TokenExpiry := 5 * 60 * 1000
  /** The clean-up timer fires one second after a challenge expires. */
  const CleanupAfterExpiry := 1000
  const RateLimitWindow := 60 * 1000
  const RateLimitMax := 10

  // ---------------------------------------------------------------------
  // Challenges
  // ---------------------------------------------------------------------

  datatype Operator = Plus | Minus | Times

  datatype MathChallenge = MathChallenge(
    operand1: int,
    operand2: int,
    operator: Operator,
    answer: int,
    token: string,
    expiresAt: int)

  /** What `generateMathChallenge` hands out: the question text and the token. */
  datatype Issued = Issued(challenge: string, token: string)

  /** The expected answer; subtraction is clamped at zero. */
  function Answer(operand1: int, operator: Operator, operand2: int): (answer: int)
    ensures 1 <= operand1 <= 20 && 1 <= operand2 <= 20 ==> 0 <= answer <= 400
    ensures operator == Minus ==> answer >= 0
  {
    match operator
    case Plus => operand1 + operand2
    case Minus => if operand1 - operand2 > 0 then operand1 - operand2 else 0
    case Times => operand1 * operand2
  }

  function OperatorChar(operator: Operator): char {
    match operator
    case Plus => '+'
    case Minus => '-'
    case Times => '*'
  }

  function OperatorOf(c: char): (r: Option<Operator>)
    ensures r.Some? ==> OperatorChar(r.value) == c
  {
    if c == '+' then Some(Plus) else if c == '-' then Some(Minus) else if c == '*' then Some(Times) else None
  }

  predicate IsDigit(c: char) {
    '0' <= c <= '9'
  }

  predicate AllDigits(s: string) {
    forall i :: 0 <= i < |s| ==> IsDigit(s[i])
  }

  function DigitChar(d: nat): char
    requires d < 10
  {
    ('0' as int + d) as char
  }

  /** A non-negative number in decimal, as template interpolation writes it. */
  function Decimal(n: nat): (s: string)
    ensures |s| >= 1 && AllDigits(s)
    ensures n >= 10 ==> s[0] != '0'
    decreases n
  {
    if n < 10 then [DigitChar(n)] else Decimal(n / 10) + [DigitChar(n % 10)]
  }

  /** The number a string of digits denotes. */
  function DecimalValue(s: string): nat
    requires AllDigits(s)
  {
    if s == [] then 0 else DecimalValue(s[..|s| - 1]) * 10 + (s[|s| - 1] as int - '0' as int)
  }

  lemma {:induction false} DecimalRoundTrip(n: nat)
    ensures DecimalValue(Decimal(n)) == n
    decreases n
  {
    if n >= 10 {
      DecimalRoundTrip(n / 10);
      var s := Decimal(n);
      assert s[..|s| - 1] == Decimal(n / 10);
    }
  }

  lemma NoSpaceInDigits(s: string)
    requires AllDigits(s)
    ensures ' ' !in s
  {
    forall i | 0 <= i < |s| ensures s[i] != ' ' {
      assert IsDigit(s[i]);
    }
  }

  /** The question shown to the user: both operands and the operator, separated by spaces. */
  function ChallengeText(operand1: nat, operator: Operator, operand2: nat): string {
    Decimal(operand1) + " " + [OperatorChar(operator)] + " " + Decimal(operand2)
  }

  datatype Question = Question(operand1: nat, operator: Operator, operand2: nat)

  /** Reads a question back from its text; `None` for anything not of that shape. */
  function ParseChallenge(text: string): Option<Question> {
    var parts := Split(text, ' ');
    if |parts| == 3 && parts[0] != [] && AllDigits(parts[0]) && |parts[1]| == 1
       && OperatorOf(parts[1][0]).Some? && parts[2] != [] && AllDigits(parts[2])
    then Some(Question(DecimalValue(parts[0]), OperatorOf(parts[1][0]).value, DecimalValue(parts[2])))
    else None
  }

  /** The question text determines the question: reading it back gives the operands and operator. */
  lemma ChallengeTextRoundTrip(operand1: nat, operator: Operator, operand2: nat)
    ensures ParseChallenge(ChallengeText(operand1, operator, operand2)) == Some(Question(operand1, operator, operand2))
  {
    var a, o, b := Decimal(operand1), [OperatorChar(operator)], Decimal(operand2);
    NoSpaceInDigits(a);
    NoSpaceInDigits(b);
    SplitThree(a, o, b, ' ');
    assert Split(ChallengeText(operand1, operator, operand2), ' ') == [a, o, b];
    DecimalRoundTrip(operand1);
    DecimalRoundTrip(operand2);
  }

  /** A challenge the guard can have issued: operands from 1 to 20 and the matching answer. */
  predicate WellFormed(c: MathChallenge) {
    1 <= c.operand1 <= 20 && 1 <= c.operand2 <= 20 && c.answer == Answer(c.operand1, c.operator, c.operand2)
  }

  // ---------------------------------------------------------------------
  // Rate limiting
  // ---------------------------------------------------------------------

  datatype RateRecord = RateRecord(count: int, resetAt: int)

  datatype RateDecision = RateDecision(allowed: bool, resetAt: int)

  /**
   * One `checkRateLimit` call on a client's record: the decision and the record
   * stored afterwards. A missing or lapsed record opens a new window.
   */
  function RateStep(record: Option<RateRecord>, now: int): (r: (RateDecision, RateRecord))
    ensures r.0.resetAt == r.1.resetAt
    ensures record.Some? && 1 <= record.value.count <= RateLimitMax ==> 1 <= r.1.count <= RateLimitMax
    ensures r.1.count == 1 <==> record.None? || now > record.value.resetAt || record.value.count == 0
    ensures !r.0.allowed <==> record.Some? && now <= record.value.resetAt && record.value.count >= RateLimitMax
    ensures record.None? || now > record.value.resetAt ==> r.1 == RateRecord(1, now + RateLimitWindow)
    ensures record.Some? && now <= record.value.resetAt ==>
      r.1 == if record.value.count >= RateLimitMax then record.value else record.value.(count := record.value.count + 1)
  {
    if record.None? || now > record.value.resetAt then
      (RateDecision(true, now + RateLimitWindow), RateRecord(1, now + RateLimitWindow))
    else if record.value.count >= RateLimitMax then
      (RateDecision(false, record.value.resetAt), record.value)
    else
      (RateDecision(true, record.value.resetAt), record.value.(count := record.value.count + 1))
  }

  /** The decisions for successive calls at the given times, starting from `record`. */
  function Run(record: Option<RateRecord>, times: seq<int>): (allowed: seq<bool>)
    ensures |allowed| == |times|
    decreases |times|
  {
    if times == [] then []
    else
      var step := RateStep(record, times[0]);
      [step.0.allowed] + Run(Some(step.1), times[1..])
  }

  /** Inside an open window that has seen `count` calls, exactly the next `10 - count` calls pass. */
  lemma {:induction false} RunInsideWindow(count: int, resetAt: int, times: seq<int>)
    requires 1 <= count <= RateLimitMax
    requires forall i :: 0 <= i < |times| ==> times[i] <= resetAt
    ensures Run(Some(RateRecord(count, resetAt)), times) == seq(|times|, i => i < RateLimitMax - count)
    decreases |times|
  {
    if times != [] {
      var next := if count < RateLimitMax then count + 1 else count;
      assert RateStep(Some(RateRecord(count, resetAt)), times[0]).1 == RateRecord(next, resetAt);
      RunInsideWindow(next, resetAt, times[1..]);
      var r := Run(Some(RateRecord(count, resetAt)), times);
      assert r == [count < RateLimitMax] + Run(Some(RateRecord(next, resetAt)), times[1..]);
      forall i | 0 <= i < |times| ensures r[i] == (i < RateLimitMax - count) {
      }
    }
  }

  /**
   * A client with no record gets its first ten calls within one minute of the
   * first call through and every further call in that minute refused.
   */
  lemma FirstWindow(times: seq<int>)
    requires |times| >= 1
    requires forall i :: 0 <= i < |times| ==> times[i] <= times[0] + RateLimitWindow
    ensures Run(None, times) == seq(|times|, i => i < RateLimitMax)
  {
    var resetAt := times[0] + RateLimitWindow;
    assert forall i :: 0 <= i < |times[1..]| ==> times[1..][i] == times[i + 1];
    RunInsideWindow(1, resetAt, times[1..]);
    var rest := Run(Some(RateRecord(1, resetAt)), times[1..]);
    assert RateStep(None, times[0]) == (RateDecision(true, resetAt), RateRecord(1, resetAt));
    var r := Run(None, times);
    assert r == [true] + rest;
    forall i | 0 <= i < |times| ensures r[i] == (i < RateLimitMax) {
      if i > 0 {
        assert r[i] == rest[i - 1];
      }
    }
  }

  // ---------------------------------------------------------------------
  // The stores
  // ---------------------------------------------------------------------

  /** The challenge store and the rate-limit store of one server process. */
  class Guard {
    var challenges: map<string, MathChallenge>
    var rateLimits: map<string, RateRecord>

    /** Every stored challenge sits under its own token and is well formed; every count is within the limit. */
    ghost predicate Valid()
      reads this
    {
      && (forall t :: t in challenges ==> challenges[t].token == t && WellFormed(challenges[t]))
      && (forall id :: id in rateLimits ==> 1 <= rateLimits[id].count <= RateLimitMax)
    }

    constructor()
      ensures Valid()
      ensures challenges == map[] && rateLimits == map[]
    {
      challenges := map[];
      rateLimits := map[];
    }

    /**
     * `generateMathChallenge` with its random operands, operator and token
     * given: stores the challenge under the token, expiring five minutes from
     * `now`, and returns the question text with the token.
     */
    method GenerateMathChallenge(operand1: int, operand2: int, operator: Operator, token: string, now: int)
      returns (issued: Issued)
      requires Valid()
      requires 1 <= operand1 <= 20 && 1 <= operand2 <= 20
      modifies this
      ensures Valid()
      ensures issued == Issued(ChallengeText(operand1, operator, operand2), token)
      ensures challenges == old(challenges)[token := MathChallenge(operand1, operand2, operator,
                                                                   Answer(operand1, operator, operand2), token, now + TokenExpiry)]
      ensures rateLimits == old(rateLimits)
    {
      var answer := Answer(operand1, operator, operand2);
      var expiresAt := now + TokenExpiry;
      challenges := challenges[token := MathChallenge(operand1, operand2, operator, answer, token, expiresAt)];
      issued := Issued(ChallengeText(operand1, operator, operand2), token);
    }

    /**
     * `verifyMathChallenge`: true exactly for a stored, unexpired challenge
     * whose answer matches. The token is gone afterwards whatever the outcome.
     */
    method VerifyMathChallenge(token: string, userAnswer: int, now: int) returns (valid: bool)
      requires Valid()
      modifies this
      ensures Valid()
      ensures valid <==> token in old(challenges) && now <= old(challenges)[token].expiresAt
                         && old(challenges)[token].answer == userAnswer
      ensures challenges == old(challenges) - {token}
      ensures rateLimits == old(rateLimits)
    {
      if token !in challenges {
        return false;
      }
      var challenge := challenges[token];
      if now > challenge.expiresAt {
        challenges := challenges - {token};
        return false;
      }
      valid := challenge.answer == userAnswer;
      challenges := challenges - {token};
    }

    /**
     * The clean-up timers that are due by `now`: the timer of a challenge fires
     * one second after it expires and deletes its token.
     */
    method FireCleanupTimers(now: int)
      requires Valid()
      modifies this
      ensures Valid()
      ensures challenges == map t | t in old(challenges) && now < old(challenges)[t].expiresAt + CleanupAfterExpiry :: old(challenges)[t]
      ensures rateLimits == old(rateLimits)
    {
      challenges := map t | t in challenges && now < challenges[t].expiresAt + CleanupAfterExpiry :: challenges[t];
    }

    /** `checkRateLimit` for one client at time `now`. */
    method CheckRateLimit(identifier: string, now: int) returns (decision: RateDecision)
      requires Valid()
      modifies this
      ensures Valid()
      ensures var step := RateStep(if identifier in old(rateLimits) then Some(old(rateLimits)[identifier]) else None, now);
        decision == step.0 && rateLimits == old(rateLimits)[identifier := step.1]
      ensures challenges == old(challenges)
    {
      if identifier !in rateLimits || now > rateLimits[identifier].resetAt {
        var resetAt := now + RateLimitWindow;
        rateLimits := rateLimits[identifier := RateRecord(1, resetAt)];
        return RateDecision(true, resetAt);
      }
      var record := rateLimits[identifier];
      if record.count >= RateLimitMax {
        return RateDecision(false, record.resetAt);
      }
      rateLimits := rateLimits[identifier := record.(count := record.count + 1)];
      return RateDecision(true, record.resetAt);
    }
  }

  /**
   * A token answers one question once: the first answer counts exactly when it
   * is right and in time, and replaying the token is always refused.
   */
  method OneTimeToken(operand1: int, operand2: int, operator: Operator, token: string, issuedAt: int,
                      answer: int, answeredAt: int)
    returns (question: string, first: bool, replay: bool)
    requires 1 <= operand1 <= 20 && 1 <= operand2 <= 20
    ensures ParseChallenge(question) == Some(Question(operand1, operator, operand2))
    ensures first <==> answer == Answer(operand1, operator, operand2) && answeredAt <= issuedAt + TokenExpiry
    ensures !replay
  {
    var guard := new Guard();
    var issued := guard.GenerateMathChallenge(operand1, operand2, operator, token, issuedAt);
    question := issued.challenge;
    ChallengeTextRoundTrip(operand1, operator, operand2);
    first := guard.VerifyMathChallenge(issued.token, answer, answeredAt);
    replay := guard.VerifyMathChallenge(issued.token, answer, answeredAt);
  }

  // ---------------------------------------------------------------------
  // Request checks
  // ---------------------------------------------------------------------

  /** The request headers the guard reads; `None` for an absent header. */
  datatype RequestHeaders = RequestHeaders(forwardedFor: Option<string>, realIp: Option<string>, cookie: Option<string>)

  /** `f[..n]` is the text of `f` before its first comma (all of `f` when it has none). */
  predicate FirstEntry(f: string, n: int) {
    0 <= n <= |f| && ',' !in f[..n] && (n < |f| ==> f[n] == ',')
  }

  /**
   * The client address: the first `x-forwarded-for` entry with the white
   * space around it trimmed, else `x-real-ip`, else "unknown"; empty headers
   * count as absent.
   */
  function ClientIp(headers: RequestHeaders): (ip: string)
    ensures headers.forwardedFor.Some? && headers.forwardedFor.value != [] ==>
      && ',' !in ip
      && exists n, a, b :: FirstEntry(headers.forwardedFor.value, n)
           && TrimmedAt(headers.forwardedFor.value[..n], a, b) && ip == headers.forwardedFor.value[a..b]
    ensures headers.forwardedFor.None? || headers.forwardedFor.value == [] ==>
      ip == if headers.realIp.Some? && headers.realIp.value != [] then headers.realIp.value else "unknown"
  {
    if headers.forwardedFor.Some? && headers.forwardedFor.value != [] then
      var f := headers.forwardedFor.value;
      var first := Split(f, ',')[0];
      ForwardedEntry(f);
      Trim(first)
    else if headers.realIp.Some? && headers.realIp.value != [] then headers.realIp.value
    else "unknown"
  }

  /** The trimmed first piece of a comma split is a trimmed window of the text before the first comma. */
  lemma ForwardedEntry(f: string)
    ensures var ip := Trim(Split(f, ',')[0]);
      ',' !in ip && exists n, a, b :: FirstEntry(f, n) && TrimmedAt(f[..n], a, b) && ip == f[a..b]
  {
    var first := Split(f, ',')[0];
    var n := |first|;
    assert f[..n] == first;
    assert FirstEntry(f, n);
    TrimWindow(first);
    var a, b :| TrimmedAt(first, a, b) && Trim(first) == first[a..b];
    assert first[a..b] == f[a..b];
    assert forall c :: c in first[a..b] ==> c in first;
  }

  const SessionKey := "session_id="

  /**
   * The first match of `session_id=([^;]+)` in `s`: at the first position
   * where the key is followed by a character other than ';', the capture runs
   * up to the next ';' or the end.
   */
  function SessionCapture(s: string): (r: Option<string>)
    ensures r.Some? ==> r.value != [] && ';' !in r.value
    decreases |s|
  {
    if SessionKey <= s && |s| > |SessionKey| && s[|SessionKey|] != ';' then
      Some(Split(s[|SessionKey|..], ';')[0])
    else if s == [] then None
    else SessionCapture(s[1..])
  }

  /** What the capture holds is the value of a `session_id=` pair that occurs in the cookie text. */
  lemma {:induction false} SessionCaptureOccurs(s: string)
    requires SessionCapture(s).Some?
    ensures Contains(s, SessionKey + SessionCapture(s).value)
    decreases |s|
  {
    if SessionKey <= s && |s| > |SessionKey| && s[|SessionKey|] != ';' {
      var v := SessionCapture(s).value;
      assert v <= s[|SessionKey|..];
      assert SessionKey + v <= s;
    } else {
      SessionCaptureOccurs(s[1..]);
    }
  }

  /** At position `p` of `s` the key starts and is followed by a character other than ';'. */
  predicate KeyAt(s: string, p: int) {
    0 <= p && p + |SessionKey| < |s| && SessionKey <= s[p..] && s[p + |SessionKey|] != ';'
  }

  /** `s[i..e]` is a non-empty run without ';' that ends at a ';' or at the end of `s`. */
  predicate ValueRun(s: string, i: int, e: int) {
    0 <= i < e <= |s| && ';' !in s[i..e] && (e < |s| ==> s[e] == ';')
  }

  lemma KeyAtShift(s: string, q: int)
    requires s != [] && q >= 0
    ensures KeyAt(s[1..], q) <==> KeyAt(s, q + 1)
  {
    if q + 1 <= |s| {
      assert s[1..][q..] == s[q + 1..];
    }
  }

  /**
   * The capture is taken at the first position where the key is followed by a
   * character other than ';', and runs up to the next ';' or the end.
   */
  lemma {:induction false} SessionCaptureAt(s: string, p: int, e: int)
    requires KeyAt(s, p) && forall q :: 0 <= q < p ==> !KeyAt(s, q)
    requires ValueRun(s, p + |SessionKey|, e)
    ensures SessionCapture(s) == Some(s[p + |SessionKey|..e])
    decreases p
  {
    var k := |SessionKey|;
    if p == 0 {
      var t := s[k..];
      assert t[..e - k] == s[k..e];
      FirstPiece(t, ';', e - k);
    } else {
      assert !KeyAt(s, 0);
      forall q | 0 <= q < p - 1 ensures !KeyAt(s[1..], q) {
        KeyAtShift(s, q);
      }
      KeyAtShift(s, p - 1);
      assert s[1..][p - 1 + k..e - 1] == s[p + k..e];
      SessionCaptureAt(s[1..], p - 1, e - 1);
    }
  }

  /** Some capture is found exactly when the key occurs followed by a character other than ';'. */
  lemma {:induction false} SessionCaptureNone(s: string)
    ensures SessionCapture(s).None? <==> forall p :: 0 <= p < |s| ==> !KeyAt(s, p)
    decreases |s|
  {
    if !KeyAt(s, 0) && s != [] {
      SessionCaptureNone(s[1..]);
      forall q | 0 <= q < |s| - 1 {
        KeyAtShift(s, q);
      }
      if exists p :: 0 <= p < |s| && KeyAt(s, p) {
        var p :| 0 <= p < |s| && KeyAt(s, p);
        assert KeyAt(s[1..], p - 1);
      }
    }
  }

  /** Without the key in the cookie text there is no session. */
  lemma {:induction false} NoKeyNoSession(s: string)
    requires !Contains(s, SessionKey)
    ensures SessionCapture(s) == None
    decreases |s|
  {
    if s != [] {
      NoKeyNoSession(s[1..]);
    }
  }

  function SessionId(headers: RequestHeaders): string {
    if headers.cookie.None? then []
    else match SessionCapture(headers.cookie.value)
      case None => []
      case Some(v) => v
  }

  /** `getClientIdentifier`: the client address and the session id, joined by a dash. */
  function ClientIdentifier(headers: RequestHeaders): string {
    ClientIp(headers) + "-" + SessionId(headers)
  }

  /**
   * For an address without a dash (any IPv4 or IPv6 address), the identifier
   * splits back at its first dash into the address and the session id.
   */
  lemma IdentifierParts(headers: RequestHeaders)
    requires '-' !in ClientIp(headers)
    ensures var parts := Split(ClientIdentifier(headers), '-');
      parts[0] == ClientIp(headers) && Join(parts[1..], '-') == SessionId(headers)
  {
    var ip, session := ClientIp(headers), SessionId(headers);
    SplitAfter(ip, session, '-');
    JoinSplit(session, '-');
  }

  /** `checkHoneypot`: the request passes when the hidden field is absent, empty or blank. */
  function CheckHoneypot(honeypotValue: Option<string>): (pass: bool)
    ensures pass <==> honeypotValue.None? || AllSpace(honeypotValue.value)
  {
    match honeypotValue
    case None => true
    case Some(value) =>
      TrimEmptyIffBlank(value);
      value == [] || Trim(value) == []
  }

  // ---------------------------------------------------------------------
  // HTML escaping
  // ---------------------------------------------------------------------

  /** `s.replace(/c/g, replacement)` for a one-character pattern. */
  function ReplaceAll(s: string, c: char, replacement: string): string {
    if s == [] then []
    else (if s[0] == c then replacement else [s[0]]) + ReplaceAll(s[1..], c, replacement)
  }

  /** The six global replacements of `sanitizeHtml`, in the order they run: ampersands first. */
  const HtmlPasses: seq<(char, string)> := [
    ('&', "&amp;"), ('<', "&lt;"), ('>', "&gt;"), ('"', "&quot;"), ('\'', "&#x27;"), ('/', "&#x2F;")
  ]

  /** Applies the replacements one after the other, each to the whole output of the one before. */
  function ReplaceInTurn(s: string, passes: seq<(char, string)>): string
    decreases |passes|
  {
    if passes == [] then s else ReplaceInTurn(ReplaceAll(s, passes[0].0, passes[0].1), passes[1..])
  }

  /** `sanitizeHtml`. */
  function SanitizeHtml(text: string): string {
    ReplaceInTurn(text, HtmlPasses)
  }

  /** The entity each character becomes. */
  function EscapeChar(c: char): string {
    match c
    case '&' => "&amp;"
    case '<' => "&lt;"
    case '>' => "&gt;"
    case '"' => "&quot;"
    case '\'' => "&#x27;"
    case '/' => "&#x2F;"
    case _ => [c]
  }

  /** Escaping character by character. */
  function EscapeEach(s: string): string {
    if s == [] then [] else EscapeChar(s[0]) + EscapeEach(s[1..])
  }

  lemma {:induction false} ReplaceAllAppend(a: string, b: string, c: char, replacement: string)
    ensures ReplaceAll(a + b, c, replacement) == ReplaceAll(a, c, replacement) + ReplaceAll(b, c, replacement)
  {
    if a == [] {
      assert a + b == b;
    } else {
      assert (a + b)[1..] == a[1..] + b;
      ReplaceAllAppend(a[1..], b, c, replacement);
    }
  }

  lemma {:induction false} ReplaceInTurnAppend(a: string, b: string, passes: seq<(char, string)>)
    ensures ReplaceInTurn(a + b, passes) == ReplaceInTurn(a, passes) + ReplaceInTurn(b, passes)
    decreases |passes|
  {
    if passes != [] {
      var (c, r) := passes[0];
      ReplaceAllAppend(a, b, c, r);
      ReplaceInTurnAppend(ReplaceAll(a, c, r), ReplaceAll(b, c, r), passes[1..]);
    }
  }

  lemma SanitizeAppend(a: string, b: string)
    ensures SanitizeHtml(a + b) == SanitizeHtml(a) + SanitizeHtml(b)
  {
    ReplaceInTurnAppend(a, b, HtmlPasses);
  }

  /** Running the replacements in sequence escapes each character once: no entity is escaped again. */
  lemma {:induction false} SanitizeIsEscapeEach(text: string)
    ensures SanitizeHtml(text) == EscapeEach(text)
  {
    if text != [] {
      assert text == [text[0]] + text[1..];
      SanitizeAppend([text[0]], text[1..]);
      SanitizeChar(text[0]);
      SanitizeIsEscapeEach(text[1..]);
    }
  }

  lemma {:induction false} ReplaceAllAbsent(s: string, c: char, replacement: string)
    requires c !in s
    ensures ReplaceAll(s, c, replacement) == s
  {
    if s != [] {
      ReplaceAllAbsent(s[1..], c, replacement);
      assert [s[0]] + s[1..] == s;
    }
  }

  lemma ReplaceAllSingle(c: char, d: char, replacement: string)
    ensures ReplaceAll([c], d, replacement) == if c == d then replacement else [c]
  {
    assert [c][1..] == [];
  }

  /** Passes whose characters do not occur leave a string as it is. */
  lemma {:induction false} ReplaceInTurnAbsent(s: string, passes: seq<(char, string)>)
    requires forall i :: 0 <= i < |passes| ==> passes[i].0 !in s
    ensures ReplaceInTurn(s, passes) == s
    decreases |passes|
  {
    if passes != [] {
      ReplaceAllAbsent(s, passes[0].0, passes[0].1);
      ReplaceInTurnAbsent(s, passes[1..]);
    }
  }

  /**
   * A character replaced by pass `k` comes out as that pass's replacement
   * when no pass before touches it and no pass after finds anything in the
   * replacement.
   */
  lemma {:induction false} ReplaceInTurnChar(c: char, passes: seq<(char, string)>, k: nat)
    requires k < |passes| && passes[k].0 == c
    requires forall i :: 0 <= i < k ==> passes[i].0 != c
    requires forall i :: k < i < |passes| ==> passes[i].0 !in passes[k].1
    ensures ReplaceInTurn([c], passes) == passes[k].1
    decreases k
  {
    ReplaceAllSingle(c, passes[0].0, passes[0].1);
    if k == 0 {
      ReplaceInTurnAbsent(passes[0].1, passes[1..]);
    } else {
      ReplaceInTurnChar(c, passes[1..], k - 1);
    }
  }

  /** One character goes through the six passes as its entity. */
  lemma SanitizeChar(c: char)
    ensures SanitizeHtml([c]) == EscapeChar(c)
  {
    if c == '&' {
      ReplaceInTurnChar(c, HtmlPasses, 0);
    } else if c == '<' {
      ReplaceInTurnChar(c, HtmlPasses, 1);
    } else if c == '>' {
      ReplaceInTurnChar(c, HtmlPasses, 2);
    } else if c == '"' {
      ReplaceInTurnChar(c, HtmlPasses, 3);
    } else if c == '\'' {
      ReplaceInTurnChar(c, HtmlPasses, 4);
    } else if c == '/' {
      ReplaceInTurnChar(c, HtmlPasses, 5);
    } else {
      ReplaceInTurnAbsent([c], HtmlPasses);
    }
  }

  /** Decoding the six entities, leftmost first. */
  function UnescapeHtml(s: string): string
    decreases |s|
  {
    if s == [] then []
    else if "&amp;" <= s then "&" + UnescapeHtml(s[5..])
    else if "&lt;" <= s then "<" + UnescapeHtml(s[4..])
    else if "&gt;" <= s then ">" + UnescapeHtml(s[4..])
    else if "&quot;" <= s then "\"" + UnescapeHtml(s[6..])
    else if "&#x27;" <= s then "'" + UnescapeHtml(s[6..])
    else if "&#x2F;" <= s then "/" + UnescapeHtml(s[6..])
    else [s[0]] + UnescapeHtml(s[1..])
  }

  /** Escaping loses nothing: decoding the entities gives back the text. */
  lemma {:induction false} SanitizeRoundTrip(text: string)
    ensures UnescapeHtml(SanitizeHtml(text)) == text
  {
    SanitizeIsEscapeEach(text);
    EscapeRoundTrip(text);
  }

  lemma {:induction false} EscapeRoundTrip(text: string)
    ensures UnescapeHtml(EscapeEach(text)) == text
  {
    if text != [] {
      EscapeRoundTrip(text[1..]);
      UnescapeStep(text[0], EscapeEach(text[1..]));
    }
  }

  /** Decoding an escaped character consumes exactly its escape. */
  lemma UnescapeStep(c: char, rest: string)
    ensures UnescapeHtml(EscapeChar(c) + rest) == [c] + UnescapeHtml(rest)
  {
    if c == '&' || c == '<' || c == '>' || c == '"' {
      UnescapeNamed(c, rest);
    } else if c == '\'' || c == '/' {
      UnescapeNumeric(c, rest);
    } else {
      var e := [c] + rest;
      assert e[0] == c && c != '&';
      assert e[1..] == rest;
    }
  }

  lemma UnescapeNamed(c: char, rest: string)
    requires c == '&' || c == '<' || c == '>' || c == '"'
    ensures UnescapeHtml(EscapeChar(c) + rest) == [c] + UnescapeHtml(rest)
  {
    var e := EscapeChar(c) + rest;
    var n := |EscapeChar(c)|;
    assert e[n..] == rest;
    assert e[..n] == EscapeChar(c);
    if c == '&' {
      assert "&amp;" <= e;
    } else if c == '<' {
      assert "&lt;" <= e && e[1] == 'l';
    } else if c == '>' {
      assert "&gt;" <= e && e[1] == 'g';
    } else {
      assert "&quot;" <= e && e[1] == 'q';
    }
  }

  lemma UnescapeNumeric(c: char, rest: string)
    requires c == '\'' || c == '/'
    ensures UnescapeHtml(EscapeChar(c) + rest) == [c] + UnescapeHtml(rest)
  {
    var e := EscapeChar(c) + rest;
    assert e[6..] == rest;
    assert e[..6] == EscapeChar(c);
    assert e[1] == '#';
    if c == '\'' {
      assert "&#x27;" <= e && e[4] == '7';
    } else {
      assert "&#x2F;" <= e && e[4] == 'F';
    }
  }

  /** The escaped text holds none of the five characters that can open markup or an attribute. */
  lemma NoMarkupAfterSanitize(text: string)
    ensures var out := SanitizeHtml(text);
      '<' !in out && '>' !in out && '"' !in out && '\'' !in out && '/' !in out
  {
    SanitizeIsEscapeEach(text);
    EscapeEachSafe(text);
  }

  lemma {:induction false} EscapeEachSafe(text: string)
    ensures var out := EscapeEach(text);
      '<' !in out && '>' !in out && '"' !in out && '\'' !in out && '/' !in out
  {
    if text != [] {
      EscapeEachSafe(text[1..]);
      EscapeCharSafe(text[0]);
    }
  }

  lemma EscapeCharSafe(c: char)
    ensures var e := EscapeChar(c);
      '<' !in e && '>' !in e && '"' !in e && '\'' !in e && '/' !in e
  {
  }
}
