/**
 * The backend's guardrails: the PII scan that blocks model output, the redaction of
 * context values, and the hard bounds on a transfer the model tries to stage.
 *
 * Each entry of PII_PATTERNS is a regular expression; here each is a hand-written matcher
 * `MatchAt(rule, s, i)` giving the length of the match Python's backtracking engine finds
 * when it tries position i of s (None when it finds none there), with `\d`, `\w`, `\s`
 * and the case-insensitive letters restricted to ASCII.
 */
module Guardrails {
  import opened Wrappers
  import opened Text
  import opened PyValues

  const TransferMaxAmount: real := 10000.0
  const TransferMinAmount: real := 0.01

  // ---------------------------------------------------------------------------
  // PII patterns
  // ---------------------------------------------------------------------------

  datatype Rule = Card16 | CardFormatted | SsnFormatted | NineDigit | Cvv | Pin | Password | Secret | ApiKey

  function Label(r: Rule): string
  {
    match r
    case Card16 => "16-digit card number"
    case CardFormatted => "formatted card number"
    case SsnFormatted => "SSN formatted"
    case NineDigit => "9-digit SSN/routing"
    case Cvv => "CVV value"
    case Pin => "PIN value"
    case Password => "password"
    case Secret => "secret"
    case ApiKey => "API key"
  }

  /** The patterns in the order they are tried. */
  const PiiPatterns: seq<Rule> := [Card16, CardFormatted, SsnFormatted, NineDigit, Cvv, Pin, Password, Secret, ApiKey]

  predicate WordAt(s: string, i: int) { 0 <= i < |s| && IsWordChar(s[i]) }
  predicate DigitAt(s: string, i: int) { 0 <= i < |s| && IsDigit(s[i]) }

  /** `\b` at position i: a word character on exactly one side. */
  predicate Boundary(s: string, i: int) { WordAt(s, i - 1) != WordAt(s, i) }

  /** `\d{n}` at position i. */
  predicate DigitsAt(s: string, i: nat, n: nat) { i + n <= |s| && forall k | i <= k < i + n :: IsDigit(s[k]) }

  /** `[\s-]` at position i. */
  predicate CardSeparatorAt(s: string, i: nat) { i < |s| && (IsSpace(s[i]) || s[i] == '-') }

  predicate CharIs(s: string, i: nat, c: char) { i < |s| && s[i] == c }

  /** The lower-case word w at position i, letters compared without regard to case (`(?i)`). */
  predicate KeywordAt(s: string, i: nat, w: string) { i + |w| <= |s| && Lower(s[i..i + |w|]) == w }

  /** `[\s:]` */
  predicate IsColonSep(c: char) { IsSpace(c) || c == ':' }
  /** `[\s:=]` */
  predicate IsAssignSep(c: char) { IsSpace(c) || c == ':' || c == '=' }
  /** `\S` */
  predicate IsNonSpace(c: char) { !IsSpace(c) }

  /** The length of the longest run of characters satisfying p that starts at i. */
  function RunLength(s: string, i: nat, p: char -> bool): (n: nat)
    requires i <= |s|
    ensures i + n <= |s|
    ensures forall k | i <= k < i + n :: p(s[k])
    ensures i + n < |s| ==> !p(s[i + n])
    decreases |s| - i
  {
    if i < |s| && p(s[i]) then 1 + RunLength(s, i + 1, p) else 0
  }

  function Shift(n: nat, m: Option<nat>): Option<nat>
  {
    match m
    case Some(k) => Some(n + k)
    case None => None
  }

  /**
   * `\b<w>\b[\s:]+\d{lo,hi}` at i, case-insensitive. The greedy run of blanks and colons can
   * give nothing back to the digits, so there is a match exactly when at least lo digits
   * follow it, and the match takes up to hi of them.
   */
  function KeywordDigits(s: string, i: nat, w: string, lo: nat, hi: nat): (m: Option<nat>)
    requires i <= |s| && 0 < |w|
    ensures m.Some? ==> 0 < m.value && i + m.value <= |s|
  {
    if !(Boundary(s, i) && KeywordAt(s, i, w) && Boundary(s, i + |w|)) then None
    else
      var r := RunLength(s, i + |w|, IsColonSep);
      var d := RunLength(s, i + |w| + r, IsDigit);
      if r == 0 || d < lo then None else Some(|w| + r + (if d < hi then d else hi))
  }

  /**
   * The largest j with 1 <= j < k such that s[p + j] is not blank: where `[\s:=]+` backs off
   * to when the run reaches the end of the text and `\S+` needs a character.
   */
  function LastNonSpace(s: string, p: nat, k: nat): (j: Option<nat>)
    requires p + k <= |s|
    ensures j.Some? ==> 1 <= j.value < k && IsNonSpace(s[p + j.value])
    ensures j.Some? ==> forall q | p + j.value < q < p + k :: !IsNonSpace(s[q])
    ensures j.None? ==> forall q | p + 1 <= q < p + k :: !IsNonSpace(s[q])
    decreases k
  {
    if k <= 1 then None
    else if IsNonSpace(s[p + k - 1]) then Some(k - 1)
    else LastNonSpace(s, p, k - 1)
  }

  /** `[\s:=]+\S+` at p. */
  function AssignedValue(s: string, p: nat): (m: Option<nat>)
    requires p <= |s|
    ensures m.Some? ==> 0 < m.value && p + m.value <= |s|
  {
    var r := RunLength(s, p, IsAssignSep);
    if r == 0 then None
    else if p + r < |s| then Some(r + RunLength(s, p + r, IsNonSpace))
    else
      match LastNonSpace(s, p, r)
      case None => None
      case Some(k) => Some(k + RunLength(s, p + k, IsNonSpace))
  }

  /** `(?i)<w>[\s:=]+\S+` at i. */
  function KeywordValue(s: string, i: nat, w: string): (m: Option<nat>)
    requires i <= |s|
    ensures m.Some? ==> 0 < m.value && i + m.value <= |s|
  {
    if KeywordAt(s, i, w) then Shift(|w|, AssignedValue(s, i + |w|)) else None
  }

  /** The length of the match of rule r that starts at position i of s, if there is one. */
  function MatchAt(r: Rule, s: string, i: nat): (m: Option<nat>)
    requires i <= |s|
    ensures m.Some? ==> 0 < m.value && i + m.value <= |s|
  {
    match r
    case Card16 =>
      if Boundary(s, i) && DigitsAt(s, i, 16) && Boundary(s, i + 16) then Some(16) else None
    case CardFormatted =>
      if Boundary(s, i) && DigitsAt(s, i, 4) && CardSeparatorAt(s, i + 4) && DigitsAt(s, i + 5, 4)
         && CardSeparatorAt(s, i + 9) && DigitsAt(s, i + 10, 4) && CardSeparatorAt(s, i + 14)
         && DigitsAt(s, i + 15, 4) && Boundary(s, i + 19)
      then Some(19) else None
    case SsnFormatted =>
      if Boundary(s, i) && DigitsAt(s, i, 3) && CharIs(s, i + 3, '-') && DigitsAt(s, i + 4, 2)
         && CharIs(s, i + 6, '-') && DigitsAt(s, i + 7, 4) && Boundary(s, i + 11)
      then Some(11) else None
    case NineDigit =>
      if Boundary(s, i) && !DigitAt(s, i - 1) && DigitsAt(s, i, 9) && !DigitAt(s, i + 9) && Boundary(s, i + 9)
      then Some(9) else None
    case Cvv => KeywordDigits(s, i, "cvv", 3, 4)
    case Pin => KeywordDigits(s, i, "pin", 4, 6)
    case Password => KeywordValue(s, i, "password")
    case Secret => KeywordValue(s, i, "secret")
    case ApiKey =>
      // `api[_\s]?key`: the optional character is tried first; without it "key" would have
      // to start where that character stands, so there is no second chance.
      if !KeywordAt(s, i, "api") then None
      else if i + 3 < |s| && (s[i + 3] == '_' || IsSpace(s[i + 3])) then
        (if KeywordAt(s, i + 4, "key") then Shift(7, AssignedValue(s, i + 7)) else None)
      else if KeywordAt(s, i + 3, "key") then Shift(6, AssignedValue(s, i + 6))
      else None
  }

  /** `re.search(pattern, s)` succeeds. */
  predicate Found(r: Rule, s: string)
  {
    exists i | 0 <= i < |s| :: MatchAt(r, s, i).Some?
  }

  // ---------------------------------------------------------------------------
  // validate_output
  // ---------------------------------------------------------------------------

  function BlockedMessage(name: string): string
  {
    "Blocked: possible " + name + " in response"
  }

  /** The index of the earliest pattern, from position k of the list on, found anywhere in text. */
  function FirstFound(text: string, k: nat): (r: Option<nat>)
    requires k <= |PiiPatterns|
    ensures r.Some? ==> k <= r.value < |PiiPatterns| && Found(PiiPatterns[r.value], text)
    ensures r.Some? ==> forall j | k <= j < r.value :: !Found(PiiPatterns[j], text)
    ensures r.None? ==> forall j | k <= j < |PiiPatterns| :: !Found(PiiPatterns[j], text)
    decreases |PiiPatterns| - k
  {
    if k == |PiiPatterns| then None
    else if Found(PiiPatterns[k], text) then Some(k)
    else FirstFound(text, k + 1)
  }

  /** What validate_output does with text: hands it back, or raises naming the first pattern found. */
  function OutputVerdict(text: string): Result<string, string>
  {
    match FirstFound(text, 0)
    case None => Ok(text)
    case Some(k) => Err(BlockedMessage(Label(PiiPatterns[k])))
  }

  /**
   * LLMOutputGuardrails.validate_output: Ok(text) unchanged when no pattern occurs in it,
   * otherwise the GuardrailViolation naming the earliest pattern of the list that occurs.
   */
  method ValidateOutput(text: string) returns (r: Result<string, string>)
    ensures r.Ok? <==> forall k | 0 <= k < |PiiPatterns| :: !Found(PiiPatterns[k], text)
    ensures r.Ok? ==> r.value == text
    ensures r.Err? ==> exists k | 0 <= k < |PiiPatterns| ::
              && Found(PiiPatterns[k], text)
              && (forall j | 0 <= j < k :: !Found(PiiPatterns[j], text))
              && r.error == BlockedMessage(Label(PiiPatterns[k]))
    ensures r == OutputVerdict(text)
  {
    for k := 0 to |PiiPatterns|
      invariant forall j | 0 <= j < k :: !Found(PiiPatterns[j], text)
    {
      if Found(PiiPatterns[k], text) {
        return Err(BlockedMessage(Label(PiiPatterns[k])));
      }
    }
    return Ok(text);
  }

  // ---------------------------------------------------------------------------
  // sanitize_context
  // ---------------------------------------------------------------------------

  /** `f"[{label.upper().replace(' ', '_')}-REDACTED]"` */
  function RedactionTag(name: string): string
  {
    "[" + ReplaceChar(Upper(name), ' ', '_') + "-REDACTED]"
  }

  /** The match of rule r at each position of s: what `re` finds when it tries there. */
  function Matches(r: Rule, s: string): (ms: seq<Option<nat>>)
    ensures |ms| == |s| && MatchTable(ms)
  {
    seq(|s|, q requires 0 <= q < |s| => MatchAt(r, s, q))
  }

  /** The table holds, at each position, the match of the rule there. */
  lemma MatchesAt(r: Rule, s: string)
    ensures forall q | 0 <= q < |s| :: Matches(r, s)[q] == MatchAt(r, s, q)
  {
  }

  /** Every match in the table is non-empty and ends inside the text. */
  predicate MatchTable(ms: seq<Option<nat>>)
  {
    forall q | 0 <= q < |ms| && ms[q].Some? :: 0 < ms[q].value && q + ms[q].value <= |ms|
  }

  /**
   * `re.sub(pattern, tag, s)` from position i on, given the matches ms of the pattern in s:
   * every match, taken left to right without overlap, becomes tag. Matches are judged against
   * the whole original s, as `re.sub` does.
   */
  function SubFrom(s: string, ms: seq<Option<nat>>, i: nat, tag: string): (out: string)
    requires |ms| == |s| && MatchTable(ms) && i <= |s|
    ensures (forall j | i <= j < |s| :: ms[j].None?) ==> out == s[i..]
    decreases |s| - i
  {
    if i == |s| then ""
    else
      match ms[i]
      case Some(n) => tag + SubFrom(s, ms, i + n, tag)
      case None =>
        assert s[i..] == [s[i]] + s[i + 1..];
        [s[i]] + SubFrom(s, ms, i + 1, tag)
  }

  /** Taking one character off the front of a slice. */
  lemma SliceCons(s: string, i: nat, j: nat, rest: string)
    requires i < j <= |s|
    ensures [s[i]] + (s[i + 1..j] + rest) == s[i..j] + rest
  {
    assert s[i..j] == [s[i]] + s[i + 1..j];
  }

  /** Where no match starts, the substitution copies the text as it is. */
  lemma {:induction false} SubFromKeepsUpTo(s: string, ms: seq<Option<nat>>, i: nat, j: nat, tag: string)
    requires |ms| == |s| && MatchTable(ms)
    requires i <= j <= |s| && forall q | i <= q < j :: ms[q].None?
    ensures SubFrom(s, ms, i, tag) == s[i..j] + SubFrom(s, ms, j, tag)
    decreases j - i
  {
    if i < j {
      SubFromKeepsUpTo(s, ms, i + 1, j, tag);
      SliceCons(s, i, j, SubFrom(s, ms, j, tag));
    }
  }

  /**
   * `re.sub` searches, then replaces: the text up to the next match is kept, the match becomes
   * the tag, and the substitution goes on after it.
   */
  lemma SubFromSkipsToMatch(s: string, ms: seq<Option<nat>>, i: nat, j: nat, tag: string)
    requires |ms| == |s| && MatchTable(ms)
    requires i <= j < |s| && ms[j].Some? && forall q | i <= q < j :: ms[q].None?
    ensures SubFrom(s, ms, i, tag) == s[i..j] + tag + SubFrom(s, ms, j + ms[j].value, tag)
  {
    SubFromKeepsUpTo(s, ms, i, j, tag);
  }

  /**
   * A table with a match in it has a first one, j: the substitution keeps the text before j,
   * turns that match into the tag and goes on after it.
   */
  lemma SubFromFirstMatch(s: string, ms: seq<Option<nat>>, k: nat, tag: string) returns (j: nat)
    requires |ms| == |s| && MatchTable(ms) && k < |s| && ms[k].Some?
    ensures j <= k && ms[j].Some? && forall q | 0 <= q < j :: ms[q].None?
    ensures SubFrom(s, ms, 0, tag) == s[..j] + tag + SubFrom(s, ms, j + ms[j].value, tag)
  {
    j := 0;
    while ms[j].None?
      invariant j <= k && forall q | 0 <= q < j :: ms[q].None?
      decreases k - j
    {
      j := j + 1;
    }
    SubFromSkipsToMatch(s, ms, 0, j, tag);
  }

  /** `re.sub(pattern, tag, s)` for one pattern: text in which it occurs nowhere comes back unchanged. */
  function Redact(r: Rule, s: string): (out: string)
    ensures !Found(r, s) ==> out == s
  {
    SubFrom(s, Matches(r, s), 0, RedactionTag(Label(r)))
  }

  /** `re.search` succeeds exactly when the table holds a match. */
  lemma FoundInTable(r: Rule, s: string)
    ensures Found(r, s) <==> exists k | 0 <= k < |s| :: Matches(r, s)[k].Some?
  {
    MatchesAt(r, s);
  }

  /**
   * One pattern's substitution on text in which it occurs: the text before its first match j
   * is kept, that match becomes the pattern's tag, and the rest after it is substituted in the
   * same way.
   */
  lemma RedactReplacesFirstMatch(r: Rule, s: string, k: nat) returns (j: nat)
    requires k < |s| && Matches(r, s)[k].Some?
    ensures j <= k && Matches(r, s)[j].Some? && forall q | 0 <= q < j :: Matches(r, s)[q].None?
    ensures Redact(r, s)
            == s[..j] + RedactionTag(Label(r)) + SubFrom(s, Matches(r, s), j + Matches(r, s)[j].value, RedactionTag(Label(r)))
  {
    j := SubFromFirstMatch(s, Matches(r, s), k, RedactionTag(Label(r)));
  }

  /** The substitutions of rules applied one after another, in list order; text none of them occurs in is kept. */
  function RedactAll(rules: seq<Rule>, s: string): (out: string)
    ensures (forall k | 0 <= k < |rules| :: !Found(rules[k], s)) ==> out == s
    decreases |rules|
  {
    if rules == [] then s
    else
      assert forall k | 0 <= k < |rules[1..]| :: rules[1..][k] == rules[k + 1];
      RedactAll(rules[1..], Redact(rules[0], s))
  }

  function SanitizeText(s: string): string
  {
    RedactAll(PiiPatterns, s)
  }

  function SanitizeValue(v: Value): Value
  {
    if v.Str? then Str(SanitizeText(v.s)) else v
  }

  /**
   * LLMOutputGuardrails.sanitize_context: the same keys; every string value has each pattern
   * replaced in turn by its tag; every other value is passed through untouched.
   */
  method SanitizeContext(context: map<string, Value>) returns (sanitized: map<string, Value>)
    ensures sanitized.Keys == context.Keys
    ensures forall key | key in context :: sanitized[key] == SanitizeValue(context[key])
  {
    sanitized := map[];
    var pending := context.Keys;
    while pending != {}
      invariant pending <= context.Keys
      invariant sanitized.Keys == context.Keys - pending
      invariant forall key | key in sanitized :: sanitized[key] == SanitizeValue(context[key])
      decreases pending
    {
      var key :| key in pending;
      var value := SanitizeEntry(context[key]);
      sanitized := sanitized[key := value];
      pending := pending - {key};
    }
  }

  /** One entry of sanitize_context: a string value is redacted, any other is kept. */
  method SanitizeEntry(value: Value) returns (r: Value)
    ensures r == SanitizeValue(value)
  {
    r := value;
    if value.Str? {
      var v := RedactString(value.s);
      r := Str(v);
    }
  }

  /** The inner loop of sanitize_context: `v = re.sub(pattern, tag, v)` for each pattern in turn. */
  method RedactString(value: string) returns (v: string)
    ensures v == SanitizeText(value)
  {
    v := RedactEach(PiiPatterns, value);
  }

  /** The loop over a list of rules, each substitution applied to the result of the one before. */
  method RedactEach(rules: seq<Rule>, value: string) returns (v: string)
    ensures v == RedactAll(rules, value)
  {
    v := value;
    for k := 0 to |rules|
      invariant RedactAll(rules[k..], v) == RedactAll(rules, value)
    {
      RedactAllStep(rules, k, v);
      v := Redact(rules[k], v);
    }
  }

  /** Redacting from the k-th rule on is the k-th rule's substitution, then the rest. */
  lemma RedactAllStep(rules: seq<Rule>, k: nat, v: string)
    requires k < |rules|
    ensures RedactAll(rules[k..], v) == RedactAll(rules[k + 1..], Redact(rules[k], v))
  {
    assert rules[k..][1..] == rules[k + 1..];
  }

  /** Text that validate_output lets through is left exactly as it is by the redaction. */
  lemma AcceptedOutputNeedsNoRedaction(text: string)
    requires OutputVerdict(text).Ok?
    ensures SanitizeText(text) == text
  {
  }

  /** A bare 16-digit card number is redacted to the card-number tag. */
  lemma CardNumberRedacted(s: string)
    requires |s| == 16 && AllDigits(s)
    ensures Redact(Card16, s) == "[16-DIGIT_CARD_NUMBER-REDACTED]"
  {
    var tag := RedactionTag(Label(Card16));
    CardTag();
    assert MatchAt(Card16, s, 0) == Some(16);
    var ms := Matches(Card16, s);
    assert SubFrom(s, ms, 16, tag) == "";
    assert SubFrom(s, ms, 0, tag) == tag + "";
  }

  lemma CardTag()
    ensures RedactionTag(Label(Card16)) == "[16-DIGIT_CARD_NUMBER-REDACTED]"
  {
    CardLabelUpper();
    CardLabelUnderscored();
  }

  lemma CardLabelUpper()
    ensures Upper("16-digit card number") == "16-DIGIT CARD NUMBER"
  {
  }

  lemma CardLabelUnderscored()
    ensures ReplaceChar("16-DIGIT CARD NUMBER", ' ', '_') == "16-DIGIT_CARD_NUMBER"
  {
  }

  /** validate_output blocks a bare 16-digit card number under the first label of the list. */
  lemma CardNumberBlocked(s: string)
    requires |s| == 16 && AllDigits(s)
    ensures OutputVerdict(s) == Err(BlockedMessage("16-digit card number"))
  {
    assert MatchAt(Card16, s, 0) == Some(16);
    assert PiiPatterns[0] == Card16;
    assert Found(PiiPatterns[0], s);
    assert FirstFound(s, 0) == Some(0);
    assert Label(PiiPatterns[0]) == "16-digit card number";
  }

  // ---------------------------------------------------------------------------
  // validate_transfer
  // ---------------------------------------------------------------------------

  datatype Violation =
    | AmountNotNumeric(detail: string)  // float() raised
    | AmountTooSmall
    | AmountTooLarge
    | AccountNotText(detail: string)    // .lower() raised
    | AccountsRequired
    | SameAccount

  /** `str(e)` of the exception raised. */
  function ViolationMessage(v: Violation): string
  {
    match v
    case AmountNotNumeric(detail) => detail
    case AmountTooSmall => "Transfer amount must be " + "at least $0.01"
    case AmountTooLarge =>
      "AI-initiated transfers " + "are limited to $10,000. "
      + "For larger amounts, please " + "visit a Chase branch or " + "call 1-800-935-9935."
    case AccountNotText(detail) => detail
    case AccountsRequired => "Both from_account and " + "to_account are required"
    case SameAccount => "Cannot transfer to the " + "same account"
  }

  /** `float(v)`; a string is read by CPython's float parser, supplied as parseFloat. */
  function ToFloat(v: Value, parseFloat: string -> Option<real>): (r: Result<real, string>)
    ensures r.Ok? <==> v.Int? || v.Float? || v.Bool? || (v.Str? && parseFloat(v.s).Some?)
    ensures v.Int? ==> r == Ok(v.i as real)
    ensures v.Float? ==> r == Ok(v.x)
    ensures v.Str? && parseFloat(v.s).Some? ==> r == Ok(parseFloat(v.s).value)
  {
    match v
    case Int(i) => Ok(i as real)
    case Float(x, _) => Ok(x)
    case Bool(b) => Ok(if b then 1.0 else 0.0)
    case Str(s) =>
      if parseFloat(s).Some? then Ok(parseFloat(s).value)
      else Err("could not convert string " + "to float: '" + s + "'")
    case _ => Err("float() argument must " + "be a string or a real " + "number, not '" + TypeName(v) + "'")
  }

  /** `float(args.get("amount", 0))` */
  function AmountOf(args: map<string, Value>, parseFloat: string -> Option<real>): Result<real, string>
  {
    ToFloat(Get(args, "amount", Int(0)), parseFloat)
  }

  /** `args.get(key, "").lower()` */
  function LoweredArg(args: map<string, Value>, key: string): Result<string, string>
  {
    match Get(args, key, Str(""))
    case Str(s) => Ok(Lower(s))
    case v => Err("'" + TypeName(v) + "' object has no attribute " + "'lower'")
  }

  /**
   * LLMOutputGuardrails.validate_transfer. The checks run in validate_transfer's order (amount
   * conversion, minimum, maximum, account types, empty accounts, same account) and the first
   * that fails is the one reported; a transfer that passes is returned exactly as given.
   */
  function ValidateTransfer(args: map<string, Value>, parseFloat: string -> Option<real>): (r: Result<map<string, Value>, Violation>)
    ensures r.Ok? ==> r.value == args
    ensures r.Ok? <==>
              && AmountOf(args, parseFloat).Ok?
              && TransferMinAmount <= AmountOf(args, parseFloat).value <= TransferMaxAmount
              && "from_account" in args && args["from_account"].Str? && args["from_account"].s != ""
              && "to_account" in args && args["to_account"].Str? && args["to_account"].s != ""
              && Lower(args["from_account"].s) != Lower(args["to_account"].s)
    ensures AmountOf(args, parseFloat).Err? ==> r == Err(AmountNotNumeric(AmountOf(args, parseFloat).error))
    ensures AmountOf(args, parseFloat).Ok? && AmountOf(args, parseFloat).value < TransferMinAmount ==> r == Err(AmountTooSmall)
    ensures AmountOf(args, parseFloat).Ok? && AmountOf(args, parseFloat).value > TransferMaxAmount ==> r == Err(AmountTooLarge)
    ensures "amount" !in args ==> r == Err(AmountTooSmall)
    ensures && AmountOf(args, parseFloat).Ok?
            && TransferMinAmount <= AmountOf(args, parseFloat).value <= TransferMaxAmount
            ==> var from, to := LoweredArg(args, "from_account"), LoweredArg(args, "to_account");
              && (from.Err? ==> r == Err(AccountNotText(from.error)))
              && (from.Ok? && to.Err? ==> r == Err(AccountNotText(to.error)))
              && (from.Ok? && to.Ok? && (from.value == "" || to.value == "") ==> r == Err(AccountsRequired))
              && (from.Ok? && to.Ok? && from.value != "" && to.value != "" && from.value == to.value
                  ==> r == Err(SameAccount))
    ensures r == Err(SameAccount) ==>
              && "from_account" in args && "to_account" in args
              && args["from_account"].Str? && args["to_account"].Str?
              && Lower(args["from_account"].s) == Lower(args["to_account"].s)
  {
    match AmountOf(args, parseFloat)
    case Err(e) => Err(AmountNotNumeric(e))
    case Ok(amount) =>
      if amount < TransferMinAmount then Err(AmountTooSmall)
      else if amount > TransferMaxAmount then Err(AmountTooLarge)
      else
        match LoweredArg(args, "from_account")
        case Err(e) => Err(AccountNotText(e))
        case Ok(fromAccount) =>
          match LoweredArg(args, "to_account")
          case Err(e) => Err(AccountNotText(e))
          case Ok(toAccount) =>
            if fromAccount == "" || toAccount == "" then Err(AccountsRequired)
            else if fromAccount == toAccount then Err(SameAccount)
            else Ok(args)
  }

  /** The bounds are inclusive at both ends: exactly $0.01 and exactly $10,000 go through, one cent more does not. */
  lemma BoundsAreInclusive(parseFloat: string -> Option<real>)
    ensures var accounts := map["from_account" := Str("checking"), "to_account" := Str("savings")];
      && ValidateTransfer(accounts["amount" := Float(0.01, "0.01")], parseFloat).Ok?
      && ValidateTransfer(accounts["amount" := Int(10000)], parseFloat).Ok?
      && ValidateTransfer(accounts["amount" := Float(10000.01, "10000.01")], parseFloat) == Err(AmountTooLarge)
      && ValidateTransfer(accounts, parseFloat) == Err(AmountTooSmall)
  {
    assert Lower("checking") == "checking";
    assert Lower("savings") == "savings";
  }
}
