/** utils.js: transaction ids, the field validators, the choice of merchant
    credentials, the UDF sources and the JSON sub-documents that go into the
    hash string. */
module Utils {
  import opened Base
  import opened Json
  import opened State
  import opened Config

  // ---------------------------------------------------------------------------
  // Transaction ids (utils.js:185-226)
  // ---------------------------------------------------------------------------

  /** The short tag of each flow inside a transaction id (utils.js:190-199). */
  function TxnTag(f: Flow): (tag: string)
    ensures 2 <= |tag| <= 3 && '_' !in tag
  {
    match f
    case CrossBorder => "CB"
    case Subscription => "SUB"
    case Tpv => "TPV"
    case UpiOtm => "UPI"
    case PreAuth => "PRE"
    case CheckoutPlus => "CP"
    case SplitPay => "SPL"
    case BankOffer => "BO"
    case NonSeamless => "NS"
  }

  /** `txnPrefixMap[flow] || 'NS'`: an unknown flow gets the tag of nonseamless. */
  function TxnPrefix(flow: string): (tag: string)
    ensures FlowOfId(flow).None? ==> tag == "NS"
  {
    TxnTag(Classify(flow))
  }

  /** No two flows share a transaction-id tag. */
  lemma {:induction false} TxnTagInjective(f: Flow, g: Flow)
    ensures TxnTag(f) == TxnTag(g) ==> f == g
  {
    if TxnTag(f) == TxnTag(g) {
      var t := TxnTag(f);
      assert t[0] == TxnTag(g)[0] && t[1] == TxnTag(g)[1] && |t| == |TxnTag(g)|;
    }
  }

  /** `'TXN_' + txnPrefix + '_' + timestampSec + '_' + randomSuffix` */
  function TxnIdText(flow: string, timestampSec: nat, randomSuffix: nat): string
  {
    "TXN_" + TxnPrefix(flow) + "_" + NatText(timestampSec) + "_" + NatText(randomSuffix)
  }

  /** `Math.floor(Math.random() * 10000)` for a draw `random` in [0, 1). */
  function RandomSuffix(random: real): (n: nat)
    requires 0.0 <= random < 1.0
    ensures n < 10000
  {
    (random * 10000.0).Floor
  }

  /** The four '_'-separated fields of an id: "TXN", the flow tag, the
      seconds and the random suffix. */
  lemma TxnIdFields(flow: string, timestampSec: nat, randomSuffix: nat)
    ensures Split(TxnIdText(flow, timestampSec, randomSuffix), '_')
            == ["TXN", TxnPrefix(flow), NatText(timestampSec), NatText(randomSuffix)]
  {
    var tag, ts, rs := TxnPrefix(flow), NatText(timestampSec), NatText(randomSuffix);
    assert '_' !in ts by { assert AllDigits(ts); }
    assert '_' !in rs by { assert AllDigits(rs); }
    assert TxnIdText(flow, timestampSec, randomSuffix) == "TXN" + ['_'] + (tag + ['_'] + (ts + ['_'] + rs));
    SplitConcat("TXN", tag + ['_'] + (ts + ['_'] + rs), '_');
    SplitConcat(tag, ts + ['_'] + rs, '_');
    SplitConcat(ts, rs, '_');
    SplitNoSeparator("TXN", '_');
    SplitNoSeparator(tag, '_');
    SplitNoSeparator(ts, '_');
    SplitNoSeparator(rs, '_');
  }

  /** Two ids are equal only when their flow tag, second and suffix are. */
  lemma TxnIdInjective(f1: string, t1: nat, r1: nat, f2: string, t2: nat, r2: nat)
    requires TxnIdText(f1, t1, r1) == TxnIdText(f2, t2, r2)
    ensures TxnPrefix(f1) == TxnPrefix(f2) && t1 == t2 && r1 == r2
  {
    TxnIdFields(f1, t1, r1);
    TxnIdFields(f2, t2, r2);
    NatTextValue(t1);
    NatTextValue(t2);
    NatTextValue(r1);
    NatTextValue(r2);
  }

  /** While the seconds since the epoch have at most ten digits (until the
      year 2286) an id never exceeds the 25 characters the gateway accepts. */
  lemma TxnIdLength(flow: string, timestampSec: nat, randomSuffix: nat)
    requires timestampSec < Pow10(10) && randomSuffix < 10000
    ensures |TxnIdText(flow, timestampSec, randomSuffix)| <= 25
  {
    NatTextLength(timestampSec, 10, Pow10(10));
    assert Pow10(4) == 10000;
    NatTextLength(randomSuffix, 4, Pow10(4));
  }

  /** `generateTransactionId(flow)` with the clock reading (milliseconds since
      the epoch) and the random draw passed in. The id is written into the
      flow's hidden `_txnid` field and its visible `_txnid_display` field,
      each only when it exists. */
  method GenerateTransactionId(app: App, flow: string, nowMs: nat, random: real) returns (txnId: string)
    requires 0.0 <= random < 1.0
    modifies app
    ensures txnId == TxnIdText(flow, nowMs / 1000, RandomSuffix(random))
    ensures app.doc == TxnIdWritten(old(app.doc), GetFlowPrefix(flow), txnId)
    ensures GlobalsUnchanged(app)
  {
    var elementPrefix := GetFlowPrefix(flow);
    var txnPrefix := TxnPrefix(flow);
    var timestampSec := nowMs / 1000;
    var randomSuffix := RandomSuffix(random);
    txnId := "TXN_" + txnPrefix + "_" + NatText(timestampSec) + "_" + NatText(randomSuffix);
    if elementPrefix + "_txnid" in app.doc.values {
      app.doc := SetValue(app.doc, elementPrefix + "_txnid", txnId);
    }
    if elementPrefix + "_txnid_display" in app.doc.values {
      app.doc := SetValue(app.doc, elementPrefix + "_txnid_display", txnId);
    }
  }

  /** The page after a generated id was written to the fields that exist. */
  function TxnIdWritten(doc: Doc, prefix: string, txnId: string): (d: Doc)
    ensures forall id :: id in d.values <==> id in doc.values
    ensures prefix + "_txnid" in doc.values ==> d.values[prefix + "_txnid"] == txnId
    ensures prefix + "_txnid_display" in doc.values ==> d.values[prefix + "_txnid_display"] == txnId
  {
    var hidden := prefix + "_txnid";
    var display := prefix + "_txnid_display";
    var d1 := if hidden in doc.values then SetValue(doc, hidden, txnId) else doc;
    if display in d1.values then SetValue(d1, display, txnId) else d1
  }

  // ---------------------------------------------------------------------------
  // Phone (utils.js:270-299)
  // ---------------------------------------------------------------------------

  /** The value validatePhone writes back: the digits, at most the first ten. */
  function NormalizePhone(s: string): (r: string)
    ensures AllDigits(r) && |r| <= 10
    ensures |r| == if |DigitsOnly(s)| < 10 then |DigitsOnly(s)| else 10
    ensures r <= DigitsOnly(s)
  {
    Prefix(DigitsOnly(s), 10)
  }

  /** The normalised phone read character by character: it starts empty and
      a character is kept exactly when it is a digit and fewer than ten
      digits have been kept so far. */
  lemma NormalizePhoneByChar(s: string, c: char)
    ensures NormalizePhone("") == ""
    ensures NormalizePhone(s + [c]) ==
      if IsDigit(c) && |NormalizePhone(s)| < 10 then NormalizePhone(s) + [c] else NormalizePhone(s)
  {
    DigitsOnlyAppend(s, [c]);
    DigitsOnlyChar(c);
    var ds := DigitsOnly(s);
    if IsDigit(c) && |ds| < 10 {
      assert Prefix(ds + [c], 10) == ds + [c];
    } else if IsDigit(c) {
      assert (ds + [c])[..10] == ds[..10];
    } else {
      assert ds + [] == ds;
    }
  }

  predicate PhoneAccepted(v: string)
  {
    |v| == 0 || |v| == 10
  }

  /** Normalising a normalised number changes nothing, so a second call of
      validatePhone sees and writes the same value. */
  lemma NormalizePhoneIdempotent(s: string)
    ensures NormalizePhone(NormalizePhone(s)) == NormalizePhone(s)
  {
  }

  /** A phone is accepted exactly when it has no digit at all or at least ten:
      digits past the tenth are silently dropped, not rejected. */
  lemma PhoneAcceptedDigits(s: string)
    ensures PhoneAccepted(NormalizePhone(s)) <==> (|DigitsOnly(s)| == 0 || |DigitsOnly(s)| >= 10)
  {
  }

  /** `validatePhone(flow)`: a missing phone field is valid; otherwise the
      field is rewritten to its normalised value, which must be empty or ten
      digits long. */
  method ValidatePhone(app: App, flow: string) returns (ok: bool)
    modifies app
    ensures var id := GetFlowPrefix(flow) + "_phone";
      && (id !in old(app.doc).values ==> ok && app.doc == old(app.doc))
      && (id in old(app.doc).values ==>
            && app.doc == SetValue(old(app.doc), id, NormalizePhone(old(app.doc).values[id]))
            && ok == PhoneAccepted(NormalizePhone(old(app.doc).values[id])))
    ensures GlobalsUnchanged(app)
  {
    var id := GetFlowPrefix(flow) + "_phone";
    if id !in app.doc.values {
      return true;
    }
    var phone := DigitsOnly(app.doc.values[id]);
    var limitedPhone := Prefix(phone, 10);
    app.doc := SetValue(app.doc, id, limitedPhone);
    if |limitedPhone| == 0 {
      return true;
    }
    if |limitedPhone| != 10 {
      return false;
    }
    return true;
  }

  // ---------------------------------------------------------------------------
  // E-mail (utils.js:306-334)
  // ---------------------------------------------------------------------------

  predicate NoSpaceOrAt(t: string)
  {
    forall k :: 0 <= k < |t| ==> !IsJsSpace(t[k]) && t[k] != '@'
  }

  /** The regular expression `^[^\s@]+@[^\s@]+\.[^\s@]+$`, literally: three
      non-empty runs without white space or '@', the first two separated by
      '@' and the last two by '.'. */
  ghost predicate EmailRegex(s: string)
  {
    exists i: nat, j: nat :: i < j < |s| && IsEmailSplit(s, i, j)
  }

  ghost predicate IsEmailSplit(s: string, i: nat, j: nat)
    requires i < j < |s|
  {
    0 < i && i + 1 < j && j + 1 < |s| && s[i] == '@' && s[j] == '.'
    && NoSpaceOrAt(s[..i]) && NoSpaceOrAt(s[i + 1..j]) && NoSpaceOrAt(s[j + 1..])
  }

  /** A direct check of the same shape: no white space, exactly one '@' that
      is not first, and a '.' strictly inside the part after it. */
  predicate EmailShape(s: string)
  {
    (forall k :: 0 <= k < |s| ==> !IsJsSpace(s[k]))
    && match IndexOf(s, "@")
       case None => false
       case Some(i) =>
         var d := s[i + 1..];
         i > 0 && '@' !in d && |d| >= 3 && '.' in d[1..|d| - 1]
  }

  /** A stretch of `s` free of white space and '@' qualifies as a run of the pattern. */
  lemma {:induction false} RunOfPattern(s: string, lo: nat, hi: nat)
    requires lo <= hi <= |s|
    requires forall p :: lo <= p < hi ==> !IsJsSpace(s[p]) && s[p] != '@'
    ensures NoSpaceOrAt(s[lo..hi])
  {
    forall k | 0 <= k < hi - lo ensures !IsJsSpace(s[lo..hi][k]) && s[lo..hi][k] != '@' {
      assert s[lo..hi][k] == s[lo + k];
    }
  }

  lemma EmailShapeToRegex(s: string)
    requires EmailShape(s)
    ensures EmailRegex(s)
  {
    var i := IndexOf(s, "@").value;
    var d := s[i + 1..];
    var inner := d[1..|d| - 1];
    var m :| 0 <= m < |inner| && inner[m] == '.';
    var j := i + 2 + m;
    assert s[i..i + 1] == "@";
    assert s[j] == inner[m];
    forall p | 0 <= p < i ensures s[p] != '@' {
      assert !StartsWith(s[p..], "@");
      assert s[p..][..1] == [s[p]];
    }
    forall p | i < p < |s| ensures s[p] != '@' {
      assert s[p] == d[p - i - 1];
    }
    RunOfPattern(s, 0, i);
    RunOfPattern(s, i + 1, j);
    RunOfPattern(s, j + 1, |s|);
    assert IsEmailSplit(s, i, j);
  }

  lemma RegexToEmailShape(s: string)
    requires EmailRegex(s)
    ensures EmailShape(s)
  {
    var i: nat, j: nat :| i < j < |s| && IsEmailSplit(s, i, j);
    EmailSplitChars(s, i, j);
    assert s[i..][..1] == "@";
    var r := IndexOf(s, "@");
    assert r.Some?;
    var i' := r.value;
    assert s[i'..i' + 1] == "@";
    assert s[i'] == '@';
    assert i' == i;
    var d := s[i + 1..];
    forall k | 0 <= k < |d| ensures d[k] != '@' {
      assert d[k] == s[i + 1 + k];
    }
    assert d[1..|d| - 1][j - i - 2] == '.';
  }

  /** In a text the pattern splits at `i` and `j`, no character is white
      space and only the one at `i` is '@'. */
  lemma EmailSplitChars(s: string, i: nat, j: nat)
    requires i < j < |s| && IsEmailSplit(s, i, j)
    ensures forall k :: 0 <= k < |s| ==> !IsJsSpace(s[k]) && (k != i ==> s[k] != '@')
  {
    forall k | 0 <= k < |s| ensures !IsJsSpace(s[k]) && (k != i ==> s[k] != '@') {
      if k < i { assert s[k] == s[..i][k]; }
      else if i < k < j { assert s[k] == s[i + 1..j][k - i - 1]; }
      else if j < k { assert s[k] == s[j + 1..][k - j - 1]; }
    }
  }

  /** The direct check and the regular expression accept the same strings. */
  lemma EmailShapeIsRegex(s: string)
    ensures EmailShape(s) <==> EmailRegex(s)
  {
    if EmailShape(s) { EmailShapeToRegex(s); }
    if EmailRegex(s) { RegexToEmailShape(s); }
  }

  /** `validateEmail(flow)`: a missing or empty field is valid, anything else
      must match the pattern. */
  function ValidateEmail(doc: Doc, flow: string): (ok: bool)
    ensures var id := GetFlowPrefix(flow) + "_email";
      ok <==> (id !in doc.values || doc.values[id] == "" || EmailRegex(doc.values[id]))
  {
    var id := GetFlowPrefix(flow) + "_email";
    if id !in doc.values then true
    else
      var email := doc.values[id];
      EmailShapeIsRegex(email);
      if |email| == 0 then true else EmailShape(email)
  }

  // ---------------------------------------------------------------------------
  // Dates (utils.js:341-419)
  // ---------------------------------------------------------------------------

  /** What the page learns from `Date`: the day number of a date text (None
      for text `new Date` cannot read), the ISO text of a day number, and
      today's day number. */
  datatype Calendar = Calendar(parse: string -> Option<int>, text: int -> string, today: int)

  /** The text of each day reads back as that day. */
  ghost predicate Consistent(cal: Calendar)
  {
    forall d :: cal.parse(cal.text(d)) == Some(d)
  }

  /** A start date is acceptable unless it is an actual date before today. */
  predicate StartDateOk(doc: Doc, id: string, cal: Calendar)
  {
    !(id in doc.values && doc.values[id] != "" && cal.parse(doc.values[id]).Some?
      && cal.parse(doc.values[id]).value < cal.today)
  }

  /** The part of validateSubscriptionStartDate and validateUpiOtmStartDate
      they share: a past start date is replaced by today and rejected. */
  method CheckStartDate(app: App, id: string, cal: Calendar) returns (ok: bool)
    modifies app
    ensures ok == StartDateOk(old(app.doc), id, cal)
    ensures app.doc == (if ok then old(app.doc) else SetValue(old(app.doc), id, cal.text(cal.today)))
    ensures GlobalsUnchanged(app)
  {
    if id !in app.doc.values || app.doc.values[id] == "" {
      return true;
    }
    var selected := cal.parse(app.doc.values[id]);
    if selected.Some? && selected.value < cal.today {
      app.doc := SetValue(app.doc, id, cal.text(cal.today));
      return false;
    }
    return true;
  }

  /** After a reset the start date is accepted. */
  lemma StartDateRepaired(doc: Doc, id: string, cal: Calendar)
    requires Consistent(cal)
    ensures StartDateOk(SetValue(doc, id, cal.text(cal.today)), id, cal)
  {
    assert cal.parse(cal.text(cal.today)) == Some(cal.today);
  }

  /** `validateSubscriptionStartDate(flow)` */
  method ValidateSubscriptionStartDate(app: App, flow: string, cal: Calendar) returns (ok: bool)
    modifies app
    ensures var id := (if flow == "crossborder" then "cb" else "sub") + "_payment_start_date";
      && ok == StartDateOk(old(app.doc), id, cal)
      && app.doc == (if ok then old(app.doc) else SetValue(old(app.doc), id, cal.text(cal.today)))
    ensures GlobalsUnchanged(app)
  {
    var prefix := if flow == "crossborder" then "cb" else "sub";
    ok := CheckStartDate(app, prefix + "_payment_start_date", cal);
  }

  /** `validateUpiOtmStartDate()` */
  method ValidateUpiOtmStartDate(app: App, cal: Calendar) returns (ok: bool)
    modifies app
    ensures ok == StartDateOk(old(app.doc), "upi_payment_start_date", cal)
    ensures app.doc == (if ok then old(app.doc) else SetValue(old(app.doc), "upi_payment_start_date", cal.text(cal.today)))
    ensures GlobalsUnchanged(app)
  {
    ok := CheckStartDate(app, "upi_payment_start_date", cal);
  }

  const UpiStartId: string := "upi_payment_start_date"
  const UpiEndId: string := "upi_payment_end_date"

  /** The outcome of validateUpiOtmDates and the page it leaves: a window
      longer than 14 days has its end moved to seven days after the start, an
      end before the start is set to the start. A missing or empty field, or
      a text that is not a date, passes (every comparison with NaN is false). */
  function UpiWindow(doc: Doc, cal: Calendar): (bool, Doc)
  {
    if UpiStartId !in doc.values || UpiEndId !in doc.values
       || doc.values[UpiStartId] == "" || doc.values[UpiEndId] == "" then (true, doc)
    else
      match (cal.parse(doc.values[UpiStartId]), cal.parse(doc.values[UpiEndId]))
      case (Some(start), Some(end)) =>
        var diffDays := if end >= start then end - start else start - end;
        if diffDays > 14 then (false, SetValue(doc, UpiEndId, cal.text(start + 7)))
        else if end < start then (false, SetValue(doc, UpiEndId, doc.values[UpiStartId]))
        else (true, doc)
      case _ => (true, doc)
  }

  /** `validateUpiOtmDates()` */
  method ValidateUpiOtmDates(app: App, cal: Calendar) returns (ok: bool)
    modifies app
    ensures (ok, app.doc) == UpiWindow(old(app.doc), cal)
    ensures GlobalsUnchanged(app)
  {
    var doc := app.doc;
    if UpiStartId !in doc.values || UpiEndId !in doc.values
       || doc.values[UpiStartId] == "" || doc.values[UpiEndId] == "" {
      return true;
    }
    var start := cal.parse(doc.values[UpiStartId]);
    var end := cal.parse(doc.values[UpiEndId]);
    if start.None? || end.None? {
      return true;
    }
    var diffDays := if end.value >= start.value then end.value - start.value else start.value - end.value;
    if diffDays > 14 {
      app.doc := SetValue(doc, UpiEndId, cal.text(start.value + 7));
      return false;
    }
    if end.value < start.value {
      app.doc := SetValue(doc, UpiEndId, doc.values[UpiStartId]);
      return false;
    }
    return true;
  }

  /** Two dates are accepted exactly when the end is on the start day or at
      most 14 days after it. */
  lemma UpiWindowAccepts(doc: Doc, cal: Calendar, start: int, end: int)
    requires UpiStartId in doc.values && UpiEndId in doc.values
    requires doc.values[UpiStartId] != "" && doc.values[UpiEndId] != ""
    requires cal.parse(doc.values[UpiStartId]) == Some(start) && cal.parse(doc.values[UpiEndId]) == Some(end)
    ensures UpiWindow(doc, cal).0 <==> start <= end <= start + 14
  {
  }

  /** Whatever the window, the page validateUpiOtmDates leaves behind is
      accepted the next time. */
  lemma {:induction false} UpiWindowRepaired(doc: Doc, cal: Calendar)
    requires Consistent(cal)
    ensures var (_, after) := UpiWindow(doc, cal); UpiWindow(after, cal).0
  {
    var (ok, after) := UpiWindow(doc, cal);
    if !ok {
      var start := cal.parse(doc.values[UpiStartId]).value;
      assert after.values[UpiStartId] == doc.values[UpiStartId];
      if after.values[UpiEndId] != doc.values[UpiStartId] {
        assert after.values[UpiEndId] == cal.text(start + 7);
        assert cal.parse(cal.text(start + 7)) == Some(start + 7);
      }
    }
  }

  // ---------------------------------------------------------------------------
  // Credentials (utils.js:430-447)
  // ---------------------------------------------------------------------------

  datatype Credentials = Credentials(key: string, salt: string)

  const Defaults: Credentials := Credentials(DefaultKey, DefaultSalt)

  /** Custom mode is on and both the custom key and salt are filled in. */
  predicate CustomPairGiven(doc: Doc, prefix: string)
  {
    Checked(doc, prefix + "_use_custom_keys")
    && ValueOr(doc, prefix + "_custom_key", "") != ""
    && ValueOr(doc, prefix + "_custom_salt", "") != ""
  }

  /** `getCredentials(flow)`: the custom pair or the default pair, never a
      mix of the two and never an empty key or salt. */
  function GetCredentials(doc: Doc, flow: string): (c: Credentials)
    ensures c.key != "" && c.salt != ""
    ensures var p := GetFlowPrefix(flow);
      && (CustomPairGiven(doc, p) ==>
            c == Credentials(doc.values[p + "_custom_key"], doc.values[p + "_custom_salt"]))
      && (!CustomPairGiven(doc, p) ==> c == Defaults)
  {
    var prefix := GetFlowPrefix(flow);
    if Checked(doc, prefix + "_use_custom_keys") then
      var customKey := ValueOr(doc, prefix + "_custom_key", "");
      var customSalt := ValueOr(doc, prefix + "_custom_salt", "");
      if customKey == "" || customSalt == "" then Defaults else Credentials(customKey, customSalt)
    else Defaults
  }

  // ---------------------------------------------------------------------------
  // UDF values (utils.js:641-659)
  // ---------------------------------------------------------------------------

  /** The element generateHash reads UDF `n` from. */
  function UdfSource(flow: string, paymentType: string, n: nat): string
  {
    if flow == "crossborder" && paymentType == "subscription" then "cb_sub_udf" + NatText(n) + "_input"
    else if flow == "crossborder" then "cb_udf" + NatText(n) + "_input"
    else GetFlowPrefix(flow) + "_udf" + NatText(n)
  }

  /** The five UDF values that are hashed and posted; a missing element gives ''. */
  function ResolveUdfs(doc: Doc, flow: string, paymentType: string): (udfs: seq<string>)
    ensures |udfs| == 5
    ensures forall i :: 0 <= i < 5 ==>
      (udfs[i] == "" <==> UdfSource(flow, paymentType, i + 1) !in doc.values || doc.values[UdfSource(flow, paymentType, i + 1)] == "")
    ensures forall i :: 0 <= i < 5 && udfs[i] != "" ==> udfs[i] == doc.values[UdfSource(flow, paymentType, i + 1)]
  {
    seq(5, i requires 0 <= i < 5 => ValueOr(doc, UdfSource(flow, paymentType, i + 1), ""))
  }

  // ---------------------------------------------------------------------------
  // JSON sub-documents (utils.js:754-802)
  // ---------------------------------------------------------------------------

  /** A member whose value may be `undefined`; JSON.stringify leaves such a member out. */
  function Optional(key: string, v: Option<string>): (ms: seq<Member>)
    ensures |ms| <= 1 && (ms == [] <==> v.None?)
  {
    match v
    case None => []
    case Some(s) => [Member(key, JStr(s))]
  }

  /** `parseInt(billingInterval)`, which JSON.stringify writes as null when it is NaN. */
  function IntervalValue(v: Option<string>): Json
  {
    match v
    case Some(s) =>
      (match ParseInt(s)
       case Some(i) => JNum(i as real)
       case None => JNull)
    case None => JNull
  }

  /** `buildSubscriptionSiDetails(prefix)` as a value. */
  function SubscriptionSiDetails(doc: Doc, prefix: string): Json
  {
    var endDate := ValueOr(doc, prefix + "_payment_end_date", "");
    JObj(
      Optional("billingAmount", Value(doc, prefix + "_billing_amount"))
      + [Member("billingCurrency", JStr("INR"))]
      + Optional("billingCycle", Value(doc, prefix + "_billing_cycle"))
      + [Member("billingInterval", IntervalValue(Value(doc, prefix + "_billing_interval")))]
      + Optional("paymentStartDate", Value(doc, prefix + "_payment_start_date"))
      + (if endDate != "" then [Member("paymentEndDate", JStr(endDate))] else []))
  }

  function Present(doc: Doc, id: string, key: string): seq<string>
  {
    if id in doc.values then [key] else []
  }

  /** The SI details keys, in order: billingAmount, billingCurrency,
      billingCycle, billingInterval, paymentStartDate, paymentEndDate, where
      the first, third and fifth are present when their field exists and the
      last only when its field is non-empty. */
  lemma SubscriptionSiDetailsKeys(doc: Doc, prefix: string)
    ensures Keys(SubscriptionSiDetails(doc, prefix).members)
      == Present(doc, prefix + "_billing_amount", "billingAmount") + ["billingCurrency"]
         + Present(doc, prefix + "_billing_cycle", "billingCycle") + ["billingInterval"]
         + Present(doc, prefix + "_payment_start_date", "paymentStartDate")
         + (if ValueOr(doc, prefix + "_payment_end_date", "") != "" then ["paymentEndDate"] else [])
  {
    var endDate := ValueOr(doc, prefix + "_payment_end_date", "");
    SiMembersKeys(Value(doc, prefix + "_billing_amount"), Value(doc, prefix + "_billing_cycle"),
      IntervalValue(Value(doc, prefix + "_billing_interval")), Value(doc, prefix + "_payment_start_date"),
      if endDate != "" then [Member("paymentEndDate", JStr(endDate))] else []);
  }

  function OptionalKey(key: string, v: Option<string>): seq<string>
  {
    if v.Some? then [key] else []
  }

  /** The keys of the SI members, whichever optional members are there. */
  lemma SiMembersKeys(amount: Option<string>, cycle: Option<string>, interval: Json, start: Option<string>, last: seq<Member>)
    ensures Keys(Optional("billingAmount", amount) + [Member("billingCurrency", JStr("INR"))]
        + Optional("billingCycle", cycle) + [Member("billingInterval", interval)]
        + Optional("paymentStartDate", start) + last)
      == OptionalKey("billingAmount", amount) + ["billingCurrency"] + OptionalKey("billingCycle", cycle)
         + ["billingInterval"] + OptionalKey("paymentStartDate", start) + Keys(last)
  {
    var a, c := Optional("billingAmount", amount), Optional("billingCycle", cycle);
    var cur, iv := Member("billingCurrency", JStr("INR")), Member("billingInterval", interval);
    var e := Optional("paymentStartDate", start);
    KeysAppend(a + [cur] + c + [iv] + e, last);
    KeysAppend(a + [cur] + c + [iv], e);
    KeysAppend(a + [cur] + c, [iv]);
    KeysAppend(a + [cur], c);
    KeysAppend(a, [cur]);
  }

  /** The currency is always INR and the interval is always there, as an
      integer or as null. */
  lemma SubscriptionSiDetailsValues(doc: Doc, prefix: string)
    ensures var ms := SubscriptionSiDetails(doc, prefix).members;
      && Lookup(ms, "billingCurrency") == Some(JStr("INR"))
      && Lookup(ms, "billingInterval") == Some(IntervalValue(Value(doc, prefix + "_billing_interval")))
  {
    var endDate := ValueOr(doc, prefix + "_payment_end_date", "");
    SiMembersLookup(Value(doc, prefix + "_billing_amount"), Value(doc, prefix + "_billing_cycle"),
      IntervalValue(Value(doc, prefix + "_billing_interval")), Value(doc, prefix + "_payment_start_date"),
      if endDate != "" then [Member("paymentEndDate", JStr(endDate))] else []);
  }

  /** The currency and the interval are found whichever optional members are there. */
  lemma SiMembersLookup(amount: Option<string>, cycle: Option<string>, interval: Json, start: Option<string>, last: seq<Member>)
    ensures var ms := Optional("billingAmount", amount) + [Member("billingCurrency", JStr("INR"))]
        + Optional("billingCycle", cycle) + [Member("billingInterval", interval)]
        + Optional("paymentStartDate", start) + last;
      && Lookup(ms, "billingCurrency") == Some(JStr("INR"))
      && Lookup(ms, "billingInterval") == Some(interval)
  {
    var a, c := Optional("billingAmount", amount), Optional("billingCycle", cycle);
    var cur, iv := Member("billingCurrency", JStr("INR")), Member("billingInterval", interval);
    KeysAppend(a + [cur], c);
    KeysAppend(a, [cur]);
    assert "billingInterval"[7] != "billingCurrency"[7];
    var e := Optional("paymentStartDate", start);
    assert a + [cur] + c + [iv] + e + last == a + [cur] + c + [iv] + (e + last);
    SiLookups(a, cur, c, iv, e + last);
  }

  /** Two members found at their places among the others. */
  lemma SiLookups(a: seq<Member>, cur: Member, c: seq<Member>, iv: Member, e: seq<Member>)
    requires cur.key !in Keys(a) && iv.key !in Keys(a + [cur] + c)
    ensures var ms := a + [cur] + c + [iv] + e;
      Lookup(ms, cur.key) == Some(cur.value) && Lookup(ms, iv.key) == Some(iv.value)
  {
    assert a + [cur] + c + [iv] + e == a + [cur] + (c + [iv] + e);
    LookupAt(a, cur, c + [iv] + e);
    LookupAt(a + [cur] + c, iv, e);
  }

  /** `buildUpiOtmSiDetails()` as a value: both dates, '' when missing. */
  function UpiOtmSiDetails(doc: Doc): Json
  {
    JObj([Member("paymentStartDate", JStr(ValueOr(doc, UpiStartId, ""))),
          Member("paymentEndDate", JStr(ValueOr(doc, UpiEndId, "")))])
  }

  /** `buildBeneficiaryDetail()` as a value: account number and IFSC code, '' when missing. */
  function BeneficiaryDetail(doc: Doc): Json
  {
    JObj([Member("beneficiaryAccountNumber", JStr(ValueOr(doc, "tpv_beneficiary_account", ""))),
          Member("ifscCode", JStr(ValueOr(doc, "tpv_ifsc_code", "")))])
  }

  /** The UPI window text carries both dates recoverably: two pages whose
      documents have the same text agree on both dates. */
  lemma UpiOtmSiDetailsDetermines(d1: Doc, d2: Doc)
    requires Serialize(UpiOtmSiDetails(d1)) == Serialize(UpiOtmSiDetails(d2))
    ensures ValueOr(d1, UpiStartId, "") == ValueOr(d2, UpiStartId, "")
    ensures ValueOr(d1, UpiEndId, "") == ValueOr(d2, UpiEndId, "")
  {
    PairTextDetermines("paymentStartDate", "paymentEndDate",
      ValueOr(d1, UpiStartId, ""), ValueOr(d1, UpiEndId, ""),
      ValueOr(d2, UpiStartId, ""), ValueOr(d2, UpiEndId, ""));
  }

  /** Likewise the beneficiary text determines the account number and the IFSC code. */
  lemma BeneficiaryDetailDetermines(d1: Doc, d2: Doc)
    requires Serialize(BeneficiaryDetail(d1)) == Serialize(BeneficiaryDetail(d2))
    ensures ValueOr(d1, "tpv_beneficiary_account", "") == ValueOr(d2, "tpv_beneficiary_account", "")
    ensures ValueOr(d1, "tpv_ifsc_code", "") == ValueOr(d2, "tpv_ifsc_code", "")
  {
    PairTextDetermines("beneficiaryAccountNumber", "ifscCode",
      ValueOr(d1, "tpv_beneficiary_account", ""), ValueOr(d1, "tpv_ifsc_code", ""),
      ValueOr(d2, "tpv_beneficiary_account", ""), ValueOr(d2, "tpv_ifsc_code", ""));
  }
}
