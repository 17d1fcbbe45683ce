/**
 * The mock banking tools the agent calls: a fixed table of three accounts, fixed rate and
 * portfolio texts, and the strings derived from a draft or transaction id. Arguments come
 * straight from the model's tool call, so they are dynamically typed values; a lookup of an
 * unhashable value fails as Python's would.
 */
module BankingTools {
  import opened Wrappers
  import opened Text
  import opened PyValues
  import opened Audit

  /** One row of the account table. Amounts are held exactly, in cents. */
  datatype Account = Account(name: string, balanceCents: int, availableCents: int, last4: string)

  /** The account table, in its dictionary order. */
  const Accounts: seq<Account> := [
    Account("checking", 482150, 472150, "4821"),
    Account("savings", 1245000, 1245000, "9034"),
    Account("credit", -124000, 876000, "1337")
  ]

  const Bullet: string := "\U{2022}"
  const MaskedPrefix: string := " (\U{2022}\U{2022}\U{2022}\U{2022}"
  const SummaryHeader: string := "Account balances:"

  /** The answer for one named account: its masked number, current and available balance. */
  function DetailLine(a: Account): string
  {
    Title(a.name) + MaskedPrefix + a.last4 + "): $" + FormatCents(a.balanceCents)
    + " current, $" + FormatCents(a.availableCents) + " available"
  }

  /** One bullet of the listing of all accounts: masked number and current balance. */
  function BulletLine(a: Account): string
  {
    Bullet + " " + Title(a.name) + MaskedPrefix + a.last4 + "): $" + FormatCents(a.balanceCents)
  }

  function BulletLines(): (r: seq<string>)
    ensures |r| == |Accounts| && forall i | 0 <= i < |Accounts| :: r[i] == BulletLine(Accounts[i])
  {
    seq(|Accounts|, i requires 0 <= i < |Accounts| => BulletLine(Accounts[i]))
  }

  /** The index of the account called `name`, if the table has one. */
  function FindAccount(name: string): (r: Option<nat>)
    ensures r.Some? ==> r.value < |Accounts| && Accounts[r.value].name == name
    ensures r.None? ==> forall i | 0 <= i < |Accounts| :: Accounts[i].name != name
  {
    if name == "checking" then Some(0)
    else if name == "savings" then Some(1)
    else if name == "credit" then Some(2)
    else None
  }

  /**
   * get_account_summary. A known account name other than "all" gets that account's line;
   * anything else that can be looked up gets the listing of every account; a list or dict
   * cannot be looked up in the table and raises.
   */
  function GetAccountSummary(userId: string, accountType: Value): (r: Result<string, string>)
    ensures r.Err? <==> !Hashable(accountType)
  {
    if !Hashable(accountType) then Err("unhashable type: '" + TypeName(accountType) + "'")
    else if accountType.Str? && accountType.s != "all" && FindAccount(accountType.s).Some? then
      Ok(DetailLine(Accounts[FindAccount(accountType.s).value]))
    else
      Ok(SummaryHeader + "\n" + Join("\n", BulletLines()))
  }

  lemma TitleKeepsLineBreaks(s: string)
    requires '\n' !in s
    ensures '\n' !in Title(s)
  {
  }

  lemma FormatCentsOneLine(c: int)
    ensures '\n' !in FormatCents(c)
  {
  }

  lemma BulletLineIsOneLine(a: Account)
    requires '\n' !in a.name && '\n' !in a.last4
    ensures '\n' !in BulletLine(a)
  {
    TitleKeepsLineBreaks(a.name);
    FormatCentsOneLine(a.balanceCents);
  }

  lemma DetailLineIsOneLine(a: Account)
    requires '\n' !in a.name && '\n' !in a.last4
    ensures '\n' !in DetailLine(a)
  {
    TitleKeepsLineBreaks(a.name);
    FormatCentsOneLine(a.balanceCents);
    FormatCentsOneLine(a.availableCents);
  }

  /**
   * Asking for "checking", "savings" or "credit" gives exactly one line: that account's
   * detail line, showing its last four digits and both balances.
   */
  lemma SummaryOfOneAccount(userId: string, i: nat)
    requires i < |Accounts|
    ensures var r := GetAccountSummary(userId, Str(Accounts[i].name));
      && r == Ok(DetailLine(Accounts[i]))
      && Split(r.value, '\n') == [r.value]
  {
    FindsEveryAccount(i);
    DetailLineIsOneLine(Accounts[i]);
    SplitWithout(DetailLine(Accounts[i]), '\n');
  }

  lemma FindsEveryAccount(i: nat)
    requires i < |Accounts|
    ensures FindAccount(Accounts[i].name) == Some(i) && Accounts[i].name != "all"
    ensures '\n' !in Accounts[i].name && '\n' !in Accounts[i].last4
  {
  }

  lemma HeaderIsOneLine()
    ensures '\n' !in SummaryHeader
  {
  }

  lemma BulletLinesAreLines()
    ensures forall i | 0 <= i < |BulletLines()| :: '\n' !in BulletLines()[i]
  {
    forall i | 0 <= i < |Accounts|
      ensures '\n' !in BulletLines()[i]
    {
      FindsEveryAccount(i);
      BulletLineIsOneLine(Accounts[i]);
    }
  }

  lemma ListingText(userId: string, accountType: Value)
    requires Hashable(accountType)
    requires accountType.Str? ==> accountType.s == "all" || FindAccount(accountType.s).None?
    ensures GetAccountSummary(userId, accountType) == Ok(SummaryHeader + "\n" + Join("\n", BulletLines()))
  {
  }

  /**
   * "all", an unknown account name, or any other hashable value gives the header line and
   * then one bullet per account, in table order: checking, savings, credit.
   */
  lemma SummaryListsEveryAccount(userId: string, accountType: Value)
    requires Hashable(accountType)
    requires accountType.Str? ==> accountType.s == "all" || FindAccount(accountType.s).None?
    ensures var r := GetAccountSummary(userId, accountType);
      && r.Ok?
      && Split(r.value, '\n') == [SummaryHeader] + BulletLines()
  {
    ListingText(userId, accountType);
    BulletLinesAreLines();
    SplitJoin(BulletLines(), '\n');
    HeaderIsOneLine();
    SplitAtFirst(SummaryHeader, '\n', Join("\n", BulletLines()));
  }

  /**
   * `str(e)` of the exception `v[-n:].upper()` raises for a value v that is not a string. A list
   * slices but has no `upper`; a dict looks the slice up as a key and raises KeyError (Python
   * 3.12 and later, where a slice is hashable); a number, a bool or None cannot be sliced.
   */
  function SliceUpperError(v: Value, n: nat): string
    requires !v.Str?
  {
    match v
    case Compound(typeName, _) =>
      if typeName == "dict" then "slice(-" + NatToString(n) + ", None, None)"
      else "'" + typeName + "' object has no attribute " + "'upper'"
    case _ => "'" + TypeName(v) + "' object is not subscriptable"
  }

  /** The `TXN_` code: the upper-cased last eight characters of the draft id. */
  function ConfirmationCode(draftId: string): (r: string)
  {
    "TXN_" + Upper(Suffix(draftId, 8))
  }

  /** execute_transfer_api: the confirmation text for an executed draft. */
  function ExecuteTransferApi(draftId: string, userId: string, confirmationToken: string): (r: string)
    ensures "Transfer " + draftId <= r
    ensures |r| >= |ConfirmationCode(draftId)| && r[|r| - |ConfirmationCode(draftId)|..] == ConfirmationCode(draftId)
  {
    "Transfer " + draftId + " executed successfully. " + "Confirmation: " + ConfirmationCode(draftId)
  }

  /**
   * For a draft id the agent staged, "draft_" and eight hex digits, the confirmation code is
   * "TXN_" and those digits upper-cased; a shorter id is used whole.
   */
  lemma ConfirmationForStagedDraft(h: string)
    requires |h| == 8
    ensures ConfirmationCode("draft_" + h) == "TXN_" + Upper(h)
  {
    assert ("draft_" + h)[6..] == h;
  }

  lemma ConfirmationOfShortId(d: string)
    requires |d| <= 8
    ensures ConfirmationCode(d) == "TXN_" + Upper(d)
  {
  }

  /** Two staged drafts with different hex suffixes never share a confirmation code. */
  lemma ConfirmationIdentifiesDraft(h1: string, h2: string)
    requires |h1| == 8 && |h2| == 8
    requires forall i | 0 <= i < 8 :: IsLowerHex(h1[i]) && IsLowerHex(h2[i])
    requires ConfirmationCode("draft_" + h1) == ConfirmationCode("draft_" + h2)
    ensures h1 == h2
  {
    ConfirmationForStagedDraft(h1);
    ConfirmationForStagedDraft(h2);
    forall i | 0 <= i < 8
      ensures h1[i] == h2[i]
    {
      assert ("TXN_" + Upper(h1))[4 + i] == ("TXN_" + Upper(h2))[4 + i];
      assert UpperChar(h1[i]) == UpperChar(h2[i]);
    }
  }

  /** get_investment_portfolio: a fixed text. */
  function GetInvestmentPortfolio(userId: string): string
  {
    "Investment Portfolio \U{2014} " + "J.P. Morgan Wealth Management:\n"
    + "\U{2022} Total Value: $24,850.32 " + "(+$340.12 today, +1.39%)\n"
    + "\U{2022} S&P 500 Index (VFIAX): " + "45% \U{2014} $11,182.64 \U{2014} +0.8% " + "today\n"
    + "\U{2022} Int'l Equity (VTIAX):  " + "20% \U{2014} $4,970.06  \U{2014} +0.3% " + "today\n"
    + "\U{2022} Bonds (VBTLX):         " + "25% \U{2014} $6,212.58  \U{2014} " + "flat\n"
    + "\U{2022} Cash/MMF:              " + "10% \U{2014} $2,485.04  \U{2014} " + "5.02% APY\n"
    + "YTD Return: +8.2% | Since " + "inception: +34.1%"
  }

  /** The portfolio shown is the same whoever asks. */
  lemma PortfolioIgnoresUser(u1: string, u2: string)
    ensures GetInvestmentPortfolio(u1) == GetInvestmentPortfolio(u2)
  {
  }

  const RateUnavailable: string := "Rate data unavailable"

  const Rates: map<string, string> := map[
    "hysa" := "Chase HYSA: 0.01% | Best " + "market (SoFi/Marcus): " + "5.25% | National avg: " + "0.58%",
    "cd_6mo" := "Chase 6-month CD: 4.25% " + "APY | Best market: 5.40% " + "| Min: $1,000",
    "cd_1yr" := "Chase 1-year CD: 4.50% " + "APY | Best market: 5.35% " + "| Min: $1,000",
    "money_market" := "Chase Money Market: 0.01% " + "| Best market: 5.15% | " + "National avg: 0.64%"
  ]

  /** get_market_rates: `rates.get(rate_type, "Rate data unavailable")`. */
  function GetMarketRates(rateType: Value): (r: Result<string, string>)
    ensures r.Err? <==> !Hashable(rateType)
    ensures r.Ok? && rateType.Str? && rateType.s in Rates ==> r.value == Rates[rateType.s]
    ensures r.Ok? ==> (r.value == RateUnavailable <==> !(rateType.Str? && rateType.s in Rates))
  {
    if !Hashable(rateType) then Err("unhashable type: '" + TypeName(rateType) + "'")
    else if rateType.Str? && rateType.s in Rates then Ok(Rates[rateType.s])
    else Ok(RateUnavailable)
  }

  /** Exactly four rate types are known, and each has its own text. */
  lemma RateTableIsClosed()
    ensures Rates.Keys == {"hysa", "cd_6mo", "cd_1yr", "money_market"}
    ensures forall k1, k2 | k1 in Rates && k2 in Rates && k1 != k2 :: Rates[k1] != Rates[k2]
  {
  }

  /** `now.strftime('%m%d')` */
  function MonthDay(now: DateTime): string
  {
    Pad(now.month, 2) + Pad(now.day, 2)
  }

  /** The dispute case id: "DISP-", the upper-cased last six characters of the transaction id, "-", MMDD. */
  function CaseId(transactionId: string, now: DateTime): string
  {
    "DISP-" + Upper(Suffix(transactionId, 6)) + "-" + MonthDay(now)
  }

  const DisputeHeader: string := "Fraud dispute filed:\nCase ID: "
  const DisputeTerms: string :=
    "\nProvisional credit: Applied " + "within 1-2 business days\n" + "Resolution: 10 business " + "days (Visa Zero Liability)\n" + "Reference: "

  function DisputeDetails(t: string, reason: Value): string
  {
    "\nTransaction: " + t + "\nReason: " + PyStr(reason)
  }

  /**
   * file_fraud_dispute, with the local clock reading passed in. The transaction id is sliced
   * and upper-cased, so it must be a string; the reason is shown with `str()`.
   */
  function FileFraudDispute(transactionId: Value, reason: Value, userId: string, now: DateTime): (r: Result<string, string>)
    ensures r.Ok? <==> transactionId.Str?
  {
    match transactionId
    case Str(t) =>
      var caseId := CaseId(t, now);
      Ok((DisputeHeader + caseId) + DisputeDetails(t, reason) + (DisputeTerms + caseId))
    case _ => Err(SliceUpperError(transactionId, 6))
  }

  /**
   * The error a dispute for a non-string transaction id reports: a dict raises KeyError on
   * the slice, a list has no `upper`, a scalar cannot be sliced.
   */
  lemma DisputeErrors(transactionId: Value, reason: Value, userId: string, now: DateTime)
    requires !transactionId.Str?
    ensures transactionId.Compound? && transactionId.typeName == "dict"
            ==> FileFraudDispute(transactionId, reason, userId, now) == Err("slice(-6, None, None)")
    ensures transactionId.Compound? && transactionId.typeName == "list"
            ==> FileFraudDispute(transactionId, reason, userId, now) == Err("'" + "list" + "' object has no attribute " + "'upper'")
    ensures !transactionId.Compound?
            ==> FileFraudDispute(transactionId, reason, userId, now)
                == Err("'" + TypeName(transactionId) + "' object is not subscriptable")
  {
    if transactionId.Compound? && transactionId.typeName == "dict" {
      DictSliceErrorText(transactionId);
    } else if transactionId.Compound? && transactionId.typeName == "list" {
      ListSliceErrorText(transactionId);
    }
  }

  /** The KeyError text of a dict sliced by `[-6:]`. */
  lemma DictSliceErrorText(v: Value)
    requires v.Compound? && v.typeName == "dict"
    ensures SliceUpperError(v, 6) == "slice(-6, None, None)"
  {
    assert NatToString(6) == [DigitChar(6)] == "6";
  }

  /** The AttributeError text of a list, which slices but has no `upper`. */
  lemma ListSliceErrorText(v: Value)
    requires v.Compound? && v.typeName == "list"
    ensures SliceUpperError(v, 6) == "'" + "list" + "' object has no attribute " + "'upper'"
  {
    assert v.typeName != "dict" by { assert v.typeName[0] == 'l'; }
  }

  /** MMDD reads back as the month and the day. */
  lemma MonthDayDigits(now: DateTime)
    requires ValidDateTime(now)
    ensures var md := MonthDay(now);
      |md| == 4 && AllDigits(md) && DigitsValue(md[..2]) == now.month && DigitsValue(md[2..]) == now.day
  {
    PadFields(now);
    var mm, dd := Pad(now.month, 2), Pad(now.day, 2);
    assert (mm + dd)[..2] == mm && (mm + dd)[2..] == dd;
  }

  /**
   * The case id has a fixed layout: "DISP-", the upper-cased tail of the transaction id, "-",
   * and the month and day, which MonthDayDigits reads back.
   */
  lemma CaseIdLayout(t: string, now: DateTime)
    requires ValidDateTime(now)
    ensures var id := CaseId(t, now);
      var k := if |t| <= 6 then |t| else 6;
      && |id| == 10 + k
      && id[..5] == "DISP-" && id[5..5 + k] == Upper(t[|t| - k..]) && id[5 + k] == '-'
      && id[6 + k..] == MonthDay(now)
  {
    var k := if |t| <= 6 then |t| else 6;
    var u := Upper(Suffix(t, 6));
    MonthDayDigits(now);
    assert |u| == k && Suffix(t, 6) == t[|t| - k..];
    ConcatSlices4("DISP-", u, "-", MonthDay(now));
  }

  /** The same case id opens the dispute text, as its Case ID, and closes it, as its Reference. */
  lemma DisputeQuotesCaseIdTwice(t: string, reason: Value, userId: string, now: DateTime)
    ensures var r := FileFraudDispute(Str(t), reason, userId, now);
      var id := CaseId(t, now);
      && r.Ok?
      && DisputeHeader + id <= r.value
      && r.value[|r.value| - |DisputeTerms + id|..] == DisputeTerms + id
  {
    var id := CaseId(t, now);
    FramedTwice(DisputeHeader + id, DisputeDetails(t, reason), DisputeTerms + id);
  }

  const SpendingTail: string :=
    " days:\nTotal spent: $847.32\n" + "vs prior period: +$124.50 " + "(+17.2%)\n\nBy category:\n"
    + "\U{2022} Dining:      $187.15 (22%)\n"
    + "\U{2022} Groceries:   $203.84 (24%)\n"
    + "\U{2022} Transport:    $89.40 (11%)\n"
    + "\U{2022} Shopping:    $156.23 (18%)\n"
    + "\U{2022} Entertainment: $89.99 (11%)\n"
    + "\U{2022} Utilities:    $120.71 " + "(14%)\n\n"
    + "Top merchants: Whole Foods " + "($187), Chipotle ($89), " + "Amazon ($156)\n"
    + "Insight: Dining up 34% " + "vs last month \U{2014} 6 more " + "transactions"

  const SpendingHead: string := "Spending Analysis \U{2014} Last "

  /** get_spending_analysis: only the number of days is shown; category and user do not matter. */
  function GetSpendingAnalysis(userId: string, days: Value, category: Value): (r: string)
    ensures SpendingHead + PyStr(days) <= r
  {
    SpendingHead + PyStr(days) + SpendingTail
  }

  /**
   * The analysis text is a function of `str(days)` alone: two calls agree exactly when their
   * day counts print the same, whatever the users and categories.
   */
  lemma SpendingDependsOnlyOnDays(u1: string, d1: Value, c1: Value, u2: string, d2: Value, c2: Value)
    ensures GetSpendingAnalysis(u1, d1, c1) == GetSpendingAnalysis(u2, d2, c2) <==> PyStr(d1) == PyStr(d2)
  {
    var r1 := GetSpendingAnalysis(u1, d1, c1);
    var r2 := GetSpendingAnalysis(u2, d2, c2);
    if r1 == r2 {
      assert |PyStr(d1)| == |PyStr(d2)|;
      assert r1[|SpendingHead|..|SpendingHead| + |PyStr(d1)|] == PyStr(d1);
      assert r2[|SpendingHead|..|SpendingHead| + |PyStr(d2)|] == PyStr(d2);
    }
  }
}
