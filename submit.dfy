/** Form validation before a payment is sent (flows.js:656-772), and what
    submitPayment and showCurlCommand send once it passes (flows.js:782-911,
    989-1019). */
module Submit {
  import opened Base
  import opened Json
  import opened State
  import opened Config
  import opened Utils
  import opened SplitPayment
  import opened BankOffer
  import opened Hash
  import opened HashLayout

  // ---------------------------------------------------------------------------
  // The transaction id (flows.js:659-694)
  // ---------------------------------------------------------------------------

  /** A character of `/^[A-Za-z0-9_-]+$/`. */
  predicate TxnIdChar(c: char)
  {
    'A' <= c <= 'Z' || 'a' <= c <= 'z' || '0' <= c <= '9' || c == '_' || c == '-'
  }

  /** The three checks on a custom transaction id, in the order they are
      made: not empty, only allowed characters, at most 25 characters. */
  function CustomTxnIdOk(t: string): (ok: bool)
    ensures ok <==> 1 <= |t| <= 25 && forall k :: 0 <= k < |t| ==> TxnIdChar(t[k])
  {
    if t == "" then false
    else if !(forall k :: 0 <= k < |t| ==> TxnIdChar(t[k])) then false
    else |t| <= 25
  }

  /** The transaction-id part of validateForm: its verdict and the page it
      leaves. In custom mode the trimmed visible id is copied to the hidden
      field (when both exist) before it is checked; otherwise the hidden
      field must hold a non-empty id. */
  function TxnIdStep(doc: Doc, prefix: string): (r: (bool, Doc))
  {
    var display := prefix + "_txnid_display";
    var hidden := prefix + "_txnid";
    if Checked(doc, prefix + "_use_custom_keys") then
      var txnid := if display in doc.values then Trim(doc.values[display]) else "";
      var d := if display in doc.values && hidden in doc.values then SetValue(doc, hidden, txnid) else doc;
      (CustomTxnIdOk(txnid), d)
    else (ValueOr(doc, hidden, "") != "", doc)
  }

  /** Every id generateTransactionId makes passes the custom-id rules, as
      long as the seconds since the epoch have at most ten digits. */
  lemma GeneratedTxnIdAccepted(flow: string, timestampSec: nat, randomSuffix: nat)
    requires timestampSec < Pow10(10) && randomSuffix < 10000
    ensures CustomTxnIdOk(TxnIdText(flow, timestampSec, randomSuffix))
  {
    TxnIdLength(flow, timestampSec, randomSuffix);
    var tag, ts, rs := TxnPrefix(flow), NatText(timestampSec), NatText(randomSuffix);
    assert forall k :: 0 <= k < |tag| ==> TxnIdChar(tag[k]) by {
      assert tag in {"CB", "SUB", "TPV", "UPI", "PRE", "CP", "SPL", "BO", "NS"};
    }
    assert forall k :: 0 <= k < |ts| ==> TxnIdChar(ts[k]) by { assert AllDigits(ts); }
    assert forall k :: 0 <= k < |rs| ==> TxnIdChar(rs[k]) by { assert AllDigits(rs); }
    var t := TxnIdText(flow, timestampSec, randomSuffix);
    assert t == "TXN_" + tag + "_" + ts + "_" + rs;
    forall k | 0 <= k < |t| ensures TxnIdChar(t[k]) {
      if k < 4 {
      } else if k < 4 + |tag| {
        assert t[k] == tag[k - 4];
      } else if k == 4 + |tag| {
      } else if k < 5 + |tag| + |ts| {
        assert t[k] == ts[k - 5 - |tag|];
      } else if k == 5 + |tag| + |ts| {
      } else {
        assert t[k] == rs[k - 6 - |tag| - |ts|];
      }
    }
  }

  // ---------------------------------------------------------------------------
  // Flow-specific checks (flows.js:696-742)
  // ---------------------------------------------------------------------------

  /** The fields every flow requires. */
  const BaseRequired: seq<string> := ["amount", "productinfo", "firstname", "email", "phone"]

  /** The address fields cross-border requires. */
  const CrossBorderRequired: seq<string> := ["address1", "city", "state", "country", "zipcode", "lastname"]

  /** The billing fields of the two subscription modes. */
  const BillingRequired: seq<string> := ["billing_amount", "payment_start_date", "payment_end_date", "billing_cycle", "billing_interval"]

  /** `!field?.value || parseFloat(field.value) <= 0` rejects; text that is
      not a number passes, since NaN <= 0 is false. */
  predicate BillingAmountOk(doc: Doc, id: string)
  {
    id in doc.values && doc.values[id] != ""
    && !(ParseFloat(doc.values[id]).Some? && ParseFloat(doc.values[id]).value <= 0.0)
  }

  /** `validateSplitAmounts()` as a predicate. */
  predicate SplitAmountsOk(doc: Doc)
  {
    |doc.splitRows| > 0 && !(SplitType(doc) == "percentage" && AmountTotal(doc.splitRows) > 100.0)
  }

  /** Some checkbox named `name` is checked (`querySelectorAll('input[name="…"]:checked')` is not empty). */
  predicate AnyChecked(boxes: seq<Checkbox>, name: string)
  {
    exists i :: 0 <= i < |boxes| && boxes[i].name == name && boxes[i].checked
  }

  /** The billing checks of a subscription mode: a positive billing amount,
      then a start date that is not in the past (a past one is replaced by
      today). */
  function BillingChecks(doc: Doc, prefix: string, cal: Calendar): (r: (bool, Doc))
  {
    var start := prefix + "_payment_start_date";
    if !BillingAmountOk(doc, prefix + "_billing_amount") then (false, doc)
    else if !StartDateOk(doc, start, cal) then (false, SetValue(doc, start, cal.text(cal.today)))
    else (true, doc)
  }

  /** The UPI OTM date checks: the start date, then the window. */
  function UpiChecks(doc: Doc, cal: Calendar): (r: (bool, Doc))
  {
    if !StartDateOk(doc, UpiStartId, cal) then (false, SetValue(doc, UpiStartId, cal.text(cal.today)))
    else UpiWindow(doc, cal)
  }

  /** The flow's own fields that must be filled, added to BaseRequired. */
  function ExtraRequired(flow: string, pt: string): seq<string>
  {
    if flow == "crossborder" then
      if pt == "subscription" then CrossBorderRequired + BillingRequired else CrossBorderRequired + ["udf5_input"]
    else if flow == "subscription" then BillingRequired
    else if flow == "tpv" then ["beneficiary_account", "ifsc_code"]
    else if flow == "upiotm" then ["payment_start_date", "payment_end_date"]
    else []
  }

  /** The flow's own checks: their verdict and the page they leave. */
  function FlowChecks(doc: Doc, flow: string, pt: string, cal: Calendar): (r: (bool, Doc))
  {
    if flow == "split" then (SplitAmountsOk(doc), doc)
    else if flow == "crossborder" then
      if pt == "subscription" then BillingChecks(doc, "cb", cal) else (true, doc)
    else if flow == "subscription" then BillingChecks(doc, "sub", cal)
    else if flow == "upiotm" then UpiChecks(doc, cal)
    else if flow == "preauth" then (AnyChecked(doc.paymethods, "preauth_paymethod"), doc)
    else (true, doc)
  }

  // ---------------------------------------------------------------------------
  // Required fields, custom keys, e-mail and phone (flows.js:744-769)
  // ---------------------------------------------------------------------------

  /** The element exists and its value is not blank. */
  predicate Filled(doc: Doc, id: string)
  {
    id in doc.values && Trim(doc.values[id]) != ""
  }

  predicate AllFilled(doc: Doc, prefix: string, fields: seq<string>)
  {
    forall i :: 0 <= i < |fields| ==> Filled(doc, prefix + "_" + fields[i])
  }

  /** In custom mode both a key and a salt must be given. */
  predicate CustomKeysOk(doc: Doc, prefix: string)
  {
    Checked(doc, prefix + "_use_custom_keys") ==>
      ValueOr(doc, prefix + "_custom_key", "") != "" && ValueOr(doc, prefix + "_custom_salt", "") != ""
  }

  /** validatePhone as a value: the verdict and the page it leaves. */
  function PhoneStep(doc: Doc, prefix: string): (r: (bool, Doc))
  {
    var id := prefix + "_phone";
    if id !in doc.values then (true, doc)
    else var p := NormalizePhone(doc.values[id]); (PhoneAccepted(p), SetValue(doc, id, p))
  }

  /** validateForm as a value: the verdict and the page it leaves, check by
      check in the source's order, stopping at the first that fails. */
  function FormCheck(doc: Doc, flow: string, pt: string, cal: Calendar): (bool, Doc)
  {
    var prefix := GetFlowPrefix(flow);
    var (txnOk, d1) := TxnIdStep(doc, prefix);
    if !txnOk then (false, d1)
    else
      var (flowOk, d2) := FlowChecks(d1, flow, pt, cal);
      if !flowOk then (false, d2)
      else if !CustomKeysOk(d2, prefix) then (false, d2)
      else if !AllFilled(d2, prefix, BaseRequired + ExtraRequired(flow, pt)) then (false, d2)
      else if !ValidateEmail(d2, flow) then (false, d2)
      else PhoneStep(d2, prefix)
  }

  /** The loop over `requiredFields`: true exactly when every one is filled. */
  method RequiredFieldsFilled(doc: Doc, prefix: string, fields: seq<string>) returns (ok: bool)
    ensures ok <==> AllFilled(doc, prefix, fields)
  {
    for i := 0 to |fields|
      invariant forall j :: 0 <= j < i ==> Filled(doc, prefix + "_" + fields[j])
    {
      var fieldId := prefix + "_" + fields[i];
      if fieldId !in doc.values || Trim(doc.values[fieldId]) == "" {
        return false;
      }
    }
    return true;
  }

  /** The transaction-id checks. */
  method CheckTxnId(app: App, prefix: string) returns (ok: bool)
    modifies app
    ensures (ok, app.doc) == TxnIdStep(old(app.doc), prefix)
    ensures GlobalsUnchanged(app)
  {
    if Checked(app.doc, prefix + "_use_custom_keys") {
      var display := prefix + "_txnid_display";
      var hidden := prefix + "_txnid";
      if display in app.doc.values && hidden in app.doc.values {
        app.doc := SetValue(app.doc, hidden, Trim(app.doc.values[display]));
      }
      var txnid := if display in app.doc.values then Trim(app.doc.values[display]) else "";
      if txnid == "" {
        return false;
      }
      if !(forall k :: 0 <= k < |txnid| ==> TxnIdChar(txnid[k])) {
        return false;
      }
      if |txnid| > 25 {
        return false;
      }
      return true;
    } else {
      var hidden := prefix + "_txnid";
      ok := hidden in app.doc.values && app.doc.values[hidden] != "";
    }
  }

  /** The flow-specific branch of validateForm. */
  method CheckFlow(app: App, flow: string, cal: Calendar) returns (ok: bool)
    modifies app
    ensures (ok, app.doc) == FlowChecks(old(app.doc), flow, old(app.currentPaymentType), cal)
    ensures GlobalsUnchanged(app)
  {
    ok := true;
    if flow == "split" {
      ok := ValidateSplitAmounts(app.doc);
    } else if flow == "crossborder" {
      if app.currentPaymentType == "subscription" {
        assert "cb" + "_billing_amount" == "cb_billing_amount";
        if !BillingAmountOk(app.doc, "cb_billing_amount") {
          return false;
        }
        ok := ValidateSubscriptionStartDate(app, flow, cal);
      }
    } else if flow == "subscription" {
      assert "sub" + "_billing_amount" == "sub_billing_amount";
      if !BillingAmountOk(app.doc, "sub_billing_amount") {
        return false;
      }
      ok := ValidateSubscriptionStartDate(app, flow, cal);
    } else if flow == "upiotm" {
      ok := ValidateUpiOtmStartDate(app, cal);
      if !ok {
        return;
      }
      ok := ValidateUpiOtmDates(app, cal);
    } else if flow == "preauth" {
      ok := AnyChecked(app.doc.paymethods, "preauth_paymethod");
    }
  }

  /** `validateForm(flow)` */
  method ValidateForm(app: App, flow: string, cal: Calendar) returns (ok: bool)
    modifies app
    ensures (ok, app.doc) == FormCheck(old(app.doc), flow, old(app.currentPaymentType), cal)
    ensures GlobalsUnchanged(app)
  {
    var prefix := GetFlowPrefix(flow);
    ok := CheckTxnId(app, prefix);
    if !ok {
      return;
    }
    var requiredFields := BaseRequired + ExtraRequired(flow, app.currentPaymentType);
    ok := CheckFlow(app, flow, cal);
    if !ok {
      return;
    }
    if !CustomKeysOk(app.doc, prefix) {
      return false;
    }
    ok := RequiredFieldsFilled(app.doc, prefix, requiredFields);
    if !ok {
      return;
    }
    if !ValidateEmail(app.doc, flow) {
      return false;
    }
    ok := ValidatePhone(app, flow);
  }

  // ---------------------------------------------------------------------------
  // What an accepted form guarantees
  // ---------------------------------------------------------------------------

  /** Element prefixes are at most seven characters long. */
  lemma PrefixLength(flow: string)
    ensures 2 <= |GetFlowPrefix(flow)| <= 7
  {
    match Classify(flow)
    case _ =>
  }

  /** The flow checks write only the date fields, whose ids are at least
      twenty characters long. */
  lemma FlowChecksKeep(doc: Doc, flow: string, pt: string, cal: Calendar, id: string)
    requires |id| < 20
    ensures var d := FlowChecks(doc, flow, pt, cal).1;
      d.(values := doc.values) == doc && Value(d, id) == Value(doc, id)
  {
  }

  /** validateForm writes only the hidden transaction id, the date fields
      and the phone. */
  lemma FormCheckKeeps(doc: Doc, flow: string, pt: string, cal: Calendar, id: string)
    requires |id| < 20
    requires id != GetFlowPrefix(flow) + "_txnid" && id != GetFlowPrefix(flow) + "_phone"
    ensures var d := FormCheck(doc, flow, pt, cal).1;
      d.(values := doc.values) == doc && Value(d, id) == Value(doc, id)
  {
    var prefix := GetFlowPrefix(flow);
    var (_, d1) := TxnIdStep(doc, prefix);
    FlowChecksKeep(d1, flow, pt, cal, id);
    PhoneStepKeeps(FlowChecks(d1, flow, pt, cal).1, prefix, id);
  }

  lemma PhoneStepKeeps(d: Doc, prefix: string, id: string)
    requires id != prefix + "_phone"
    ensures var d' := PhoneStep(d, prefix).1;
      d'.(values := d.values) == d && Value(d', id) == Value(d, id)
  {
  }

  /** `p + a` and `p + b` differ when `a` and `b` do. */
  lemma SuffixesDiffer(p: string, a: string, b: string)
    requires a != b
    ensures p + a != p + b
  {
    assert (p + a)[|p|..] == a && (p + b)[|p|..] == b;
  }

  /** The page after the transaction-id and flow checks. */
  function ChecksDoc(doc: Doc, flow: string, pt: string, cal: Calendar): Doc
  {
    FlowChecks(TxnIdStep(doc, GetFlowPrefix(flow)).1, flow, pt, cal).1
  }

  /** An accepted form passed every check in turn. */
  lemma FormStages(doc: Doc, flow: string, pt: string, cal: Calendar)
    requires FormCheck(doc, flow, pt, cal).0
    ensures var prefix := GetFlowPrefix(flow);
      var d2 := ChecksDoc(doc, flow, pt, cal);
      && TxnIdStep(doc, prefix).0
      && FlowChecks(TxnIdStep(doc, prefix).1, flow, pt, cal).0
      && CustomKeysOk(d2, prefix)
      && AllFilled(d2, prefix, BaseRequired + ExtraRequired(flow, pt))
      && ValidateEmail(d2, flow)
      && PhoneStep(d2, prefix) == FormCheck(doc, flow, pt, cal)
  {
  }

  /** The id and the custom pair of an accepted form: in custom mode a
      visible transaction id that passes the three rules and both a custom
      key and salt, so the hash is made with that pair; otherwise a
      non-empty hidden id. */
  lemma FormAcceptedCredentials(doc: Doc, flow: string, pt: string, cal: Calendar)
    requires FormCheck(doc, flow, pt, cal).0
    ensures var prefix := GetFlowPrefix(flow);
      var after := FormCheck(doc, flow, pt, cal).1;
      && (Checked(doc, prefix + "_use_custom_keys") ==>
            && prefix + "_txnid_display" in doc.values
            && CustomTxnIdOk(Trim(doc.values[prefix + "_txnid_display"]))
            && CustomPairGiven(doc, prefix)
            && GetCredentials(after, flow) == Credentials(doc.values[prefix + "_custom_key"], doc.values[prefix + "_custom_salt"]))
      && (!Checked(doc, prefix + "_use_custom_keys") ==> ValueOr(doc, prefix + "_txnid", "") != "")
  {
    var prefix := GetFlowPrefix(flow);
    PrefixLength(flow);
    FormStages(doc, flow, pt, cal);
    var d1 := TxnIdStep(doc, prefix).1;
    if Checked(doc, prefix + "_use_custom_keys") {
      SuffixesDiffer(prefix, "_custom_key", "_txnid");
      SuffixesDiffer(prefix, "_custom_salt", "_txnid");
      FlowChecksKeep(d1, flow, pt, cal, prefix + "_custom_key");
      FlowChecksKeep(d1, flow, pt, cal, prefix + "_custom_salt");
      assert CustomPairGiven(doc, prefix);
      FormCheckKeeps(doc, flow, pt, cal, prefix + "_custom_key");
      FormCheckKeeps(doc, flow, pt, cal, prefix + "_custom_salt");
      SuffixesDiffer(prefix, "_custom_key", "_phone");
      SuffixesDiffer(prefix, "_custom_salt", "_phone");
    }
  }

  /** The checks before the required-field loop leave a short field other
      than the transaction id as it was. */
  lemma ChecksKeepField(doc: Doc, flow: string, pt: string, cal: Calendar, f: string)
    requires f != "txnid" && |f| <= 11
    ensures var id := GetFlowPrefix(flow) + "_" + f;
      Value(ChecksDoc(doc, flow, pt, cal), id) == Value(doc, id)
  {
    var prefix := GetFlowPrefix(flow);
    PrefixLength(flow);
    SuffixesDiffer("_", f, "txnid");
    SuffixesDiffer(prefix, "_" + f, "_txnid");
    assert prefix + ("_" + f) == prefix + "_" + f;
    FlowChecksKeep(TxnIdStep(doc, prefix).1, flow, pt, cal, prefix + "_" + f);
  }

  /** The fields of an accepted form: the five common ones filled, an e-mail
      of the right shape and a phone with no digit or at least ten. */
  lemma FormAcceptedFields(doc: Doc, flow: string, pt: string, cal: Calendar)
    requires FormCheck(doc, flow, pt, cal).0
    ensures var prefix := GetFlowPrefix(flow);
      && (forall i :: 0 <= i < |BaseRequired| ==> Filled(doc, prefix + "_" + BaseRequired[i]))
      && ValidateEmail(doc, flow)
      && prefix + "_phone" in doc.values
      && PhoneAccepted(NormalizePhone(doc.values[prefix + "_phone"]))
  {
    var prefix := GetFlowPrefix(flow);
    FormStages(doc, flow, pt, cal);
    var d2 := ChecksDoc(doc, flow, pt, cal);
    var all := BaseRequired + ExtraRequired(flow, pt);
    BaseFilledBefore(doc, flow, pt, cal);
    ChecksKeepField(doc, flow, pt, cal, "email");
    ChecksKeepField(doc, flow, pt, cal, "phone");
    assert prefix + "_" + "email" == prefix + "_email";
    assert prefix + "_" + "phone" == prefix + "_phone";
    assert all[4] == "phone" && Filled(d2, prefix + "_" + all[4]);
  }

  /** The common fields filled after the first checks were filled before them. */
  lemma BaseFilledBefore(doc: Doc, flow: string, pt: string, cal: Calendar)
    requires AllFilled(ChecksDoc(doc, flow, pt, cal), GetFlowPrefix(flow), BaseRequired + ExtraRequired(flow, pt))
    ensures forall i :: 0 <= i < |BaseRequired| ==> Filled(doc, GetFlowPrefix(flow) + "_" + BaseRequired[i])
  {
    var prefix := GetFlowPrefix(flow);
    var all := BaseRequired + ExtraRequired(flow, pt);
    forall i | 0 <= i < |BaseRequired|
      ensures Filled(doc, prefix + "_" + BaseRequired[i])
    {
      assert all[i] == BaseRequired[i];
      ChecksKeepField(doc, flow, pt, cal, BaseRequired[i]);
    }
  }

  /** An accepted split form has rows within the percentage cap; an accepted
      pre-authorisation form has a checked payment method. */
  lemma FormAcceptedFlow(doc: Doc, flow: string, pt: string, cal: Calendar)
    requires FormCheck(doc, flow, pt, cal).0
    ensures flow == "split" ==> SplitAmountsOk(doc)
    ensures flow == "preauth" ==> AnyChecked(doc.paymethods, "preauth_paymethod")
  {
    FormStages(doc, flow, pt, cal);
  }

  // ---------------------------------------------------------------------------
  // The posted fields (flows.js:800-896)
  // ---------------------------------------------------------------------------

  /** One hidden input of the posted form. */
  datatype Field = Field(name: string, value: string)

  function FieldNames(fs: seq<Field>): seq<string>
  {
    seq(|fs|, i requires 0 <= i < |fs| => fs[i].name)
  }

  /** The names of the ten fields every submission starts with. */
  const PrimaryNames: seq<string> := ["key", "txnid", "amount", "productinfo", "firstname", "email", "phone", "surl", "furl", "hash"]

  /** The inputs read for the eight primary fields between key and hash. */
  function PrimaryIds(prefix: string): (ids: seq<string>)
    ensures |ids| == 8
  {
    [prefix + "_txnid", prefix + "_amount", prefix + "_productinfo", prefix + "_firstname",
     prefix + "_email", prefix + "_phone", prefix + "_surl", prefix + "_furl"]
  }

  /** The first of the elements `ids` that is missing from the page. */
  function FirstMissing(doc: Doc, ids: seq<string>): (r: Option<string>)
    ensures r.None? <==> forall i :: 0 <= i < |ids| ==> ids[i] in doc.values
    ensures r.Some? ==> r.value in ids && r.value !in doc.values
    decreases |ids|
  {
    if ids == [] then None
    else if ids[0] !in doc.values then Some(ids[0])
    else
      var r := FirstMissing(doc, ids[1..]);
      assert forall i :: 1 <= i < |ids| ==> ids[i] == ids[1..][i - 1];
      r
  }

  /** key, the eight inputs and hash; reading a missing input throws. */
  function PrimaryFields(doc: Doc, prefix: string, hd: HashData): Result<seq<Field>, HashError>
  {
    var ids := PrimaryIds(prefix);
    match FirstMissing(doc, ids)
    case Some(id) => Err(MissingElement(id))
    case None =>
      Ok([Field("key", hd.credentials.key),
          Field("txnid", doc.values[ids[0]]),
          Field("amount", doc.values[ids[1]]),
          Field("productinfo", doc.values[ids[2]]),
          Field("firstname", doc.values[ids[3]]),
          Field("email", doc.values[ids[4]]),
          Field("phone", doc.values[ids[5]]),
          Field("surl", doc.values[ids[6]]),
          Field("furl", doc.values[ids[7]]),
          Field("hash", hd.hash)])
  }

  /** The optional inputs, each posted only when its value is not empty. */
  const OptionalNames: seq<string> := ["lastname", "address1", "address2", "city", "state", "country", "zipcode"]

  function OptionalField(doc: Doc, prefix: string, name: string): seq<Field>
  {
    var id := prefix + "_" + name;
    if id in doc.values && doc.values[id] != "" then [Field(name, doc.values[id])] else []
  }

  function OptionalFields(doc: Doc, prefix: string, names: seq<string>): seq<Field>
    decreases |names|
  {
    if names == [] then []
    else OptionalFields(doc, prefix, names[..|names| - 1]) + OptionalField(doc, prefix, names[|names| - 1])
  }

  const UdfNames: seq<string> := ["udf1", "udf2", "udf3", "udf4", "udf5"]

  /** `hashData.udfN`, where a value that is not there reads as empty. */
  function UdfAt(udfs: seq<string>, k: nat): string
  {
    if k < |udfs| then udfs[k] else ""
  }

  /** The UDF fields: `udfN` for each of the first `n` values that is not empty. */
  function UdfFields(udfs: seq<string>, n: nat): seq<Field>
    requires n <= 5
  {
    if n == 0 then []
    else UdfFields(udfs, n - 1) + (if UdfAt(udfs, n - 1) != "" then [Field(UdfNames[n - 1], UdfAt(udfs, n - 1))] else [])
  }

  /** A UDF is posted, under its own name, exactly when its value is not
      empty, and no empty value is posted. */
  lemma {:induction false} UdfFieldsExact(udfs: seq<string>, n: nat)
    requires n <= 5
    ensures forall k :: 0 <= k < n ==> (Field(UdfNames[k], UdfAt(udfs, k)) in UdfFields(udfs, n) <==> UdfAt(udfs, k) != "")
    ensures forall f :: f in UdfFields(udfs, n) ==> f.value != "" && f.name in UdfNames[..n]
  {
    if n > 0 {
      UdfFieldsExact(udfs, n - 1);
      var prev := UdfFields(udfs, n - 1);
      var last := Field(UdfNames[n - 1], UdfAt(udfs, n - 1));
      var tail := if UdfAt(udfs, n - 1) != "" then [last] else [];
      assert UdfFields(udfs, n) == prev + tail;
      forall k | 0 <= k < n
        ensures Field(UdfNames[k], UdfAt(udfs, k)) in prev + tail <==> UdfAt(udfs, k) != ""
      {
        if k < n - 1 {
          UdfNamesDistinct(k, n - 1);
        } else {
          UdfNameNotBefore(n - 1);
        }
      }
      assert UdfNames[..n] == UdfNames[..n - 1] + [UdfNames[n - 1]];
    }
  }

  lemma UdfNameNotBefore(j: nat)
    requires j < 5
    ensures UdfNames[j] !in UdfNames[..j]
  {
    forall i | 0 <= i < j ensures UdfNames[..j][i] != UdfNames[j] {
      UdfNamesDistinct(i, j);
    }
  }

  lemma UdfNamesDistinct(i: nat, j: nat)
    requires i < j < 5
    ensures UdfNames[i] != UdfNames[j]
  {
    assert UdfNames[i][3] != UdfNames[j][3];
  }

  /** `document.getElementById('cb_buyer_type')?.value`, posted only when truthy. */
  function BuyerField(doc: Doc): seq<Field>
  {
    match Value(doc, "cb_buyer_type")
    case Some(b) => if b != "" then [Field("buyer_type_business", b)] else []
    case None => []
  }

  /** An element's value under a name; a missing element throws. */
  function ElementField(doc: Doc, name: string, id: string): Result<Field, HashError>
  {
    if id in doc.values then Ok(Field(name, doc.values[id])) else Err(MissingElement(id))
  }

  /** The bank-offer fields: the cart with API version 19 when there is a
      cart, then the trimmed offer key and user token when not empty. */
  function BankOfferFields(doc: Doc): seq<Field>
  {
    var offerKey := TrimmedOrEmpty(doc, "bo_offer_key");
    var userToken := TrimmedOrEmpty(doc, "bo_user_token");
    (if CartGiven(doc) then [Field("cart_details", BuildBankOfferCartDetails(doc).value), Field("api_version", "19")] else [])
    + (if offerKey != "" then [Field("offer_key", offerKey)] else [])
    + (if userToken != "" then [Field("user_token", userToken)] else [])
  }

  /** The flow's own fields (flows.js:829-878). */
  function FlowFields(doc: Doc, flow: string, pt: string, hd: HashData): Result<seq<Field>, HashError>
  {
    if flow == "crossborder" && pt == "subscription" then
      match ElementField(doc, "si_details", "cb_si_details")
      case Err(e) => Err(e)
      case Ok(si) => Ok([Field("si", "1"), Field("api_version", "7"), si] + BuyerField(doc))
    else if flow == "crossborder" && pt == "onetime" then Ok(BuyerField(doc))
    else if flow == "subscription" then
      match ElementField(doc, "si_details", "sub_si_details")
      case Err(e) => Err(e)
      case Ok(si) => Ok([Field("si", "1"), Field("api_version", "7"), si])
    else if flow == "tpv" then
      match ElementField(doc, "beneficiarydetail", "tpv_beneficiarydetail")
      case Err(e) => Err(e)
      case Ok(bd) => Ok([Field("api_version", "6"), bd])
    else if flow == "upiotm" then
      match ElementField(doc, "si_details", "upi_si_details")
      case Err(e) => Err(e)
      case Ok(si) => Ok([Field("api_version", "7"), si, Field("pre_authorize", "1")])
    else if flow == "preauth" then Ok([Field("pre_authorize", "1")])
    else if flow == "split" then Ok([Field("splitRequest", hd.splitRequest)])
    else if flow == "bankoffer" then Ok(BankOfferFields(doc))
    else Ok([])
  }

  /** Cross-border subscription and subscription, where net banking is e-NACH. */
  predicate SubscriptionMode(flow: string, pt: string)
  {
    (flow == "crossborder" && pt == "subscription") || flow == "subscription"
  }

  /** The gateway code of a checked payment method: the checkbox id without
      `prefix_` names nb, cc, dc or upi, or else the lower-cased checkbox value. */
  function PaymethodCode(box: Checkbox, prefix: string, subscriptionMode: bool): string
  {
    var id := ReplaceFirst(box.id, prefix + "_", "");
    if id == "nb" then (if subscriptionMode then "enach" else "netbanking")
    else if id == "cc" then "creditcard"
    else if id == "dc" then "debitcard"
    else if id == "upi" then "upi"
    else AsciiLower(box.value)
  }

  /** `input[name="prefix_paymethod"]:checked` */
  predicate Selected(box: Checkbox, prefix: string)
  {
    box.name == prefix + "_paymethod" && box.checked
  }

  /** The codes of the selected checkboxes, in document order. */
  function SelectedCodes(boxes: seq<Checkbox>, prefix: string, subscriptionMode: bool): seq<string>
    decreases |boxes|
  {
    if boxes == [] then []
    else
      var last := boxes[|boxes| - 1];
      SelectedCodes(boxes[..|boxes| - 1], prefix, subscriptionMode)
      + (if Selected(last, prefix) then [PaymethodCode(last, prefix, subscriptionMode)] else [])
  }

  /** `enforce_paymethod`, present when some method is selected. */
  function PaymethodFields(codes: seq<string>): seq<Field>
  {
    if |codes| > 0 then [Field("enforce_paymethod", Join(codes, "|"))] else []
  }

  /** The fields submitPayment posts, given the page after generateHash and
      its result; a missing element it reads makes it throw. */
  function PostedFields(doc: Doc, flow: string, pt: string, hd: HashData): Result<seq<Field>, HashError>
  {
    var prefix := GetFlowPrefix(flow);
    match PrimaryFields(doc, prefix, hd)
    case Err(e) => Err(e)
    case Ok(primary) =>
      match FlowFields(doc, flow, pt, hd)
      case Err(e) => Err(e)
      case Ok(own) =>
        Ok(primary + OptionalFields(doc, prefix, OptionalNames) + UdfFields(hd.udfs, 5) + own
           + PaymethodFields(SelectedCodes(doc.paymethods, prefix, SubscriptionMode(flow, pt))))
  }

  /** The optional inputs that are filled in, in order. */
  method CollectOptional(doc: Doc, prefix: string) returns (fields: seq<Field>)
    ensures fields == OptionalFields(doc, prefix, OptionalNames)
  {
    fields := [];
    for i := 0 to |OptionalNames|
      invariant fields == OptionalFields(doc, prefix, OptionalNames[..i])
    {
      assert OptionalNames[..i + 1][..i] == OptionalNames[..i];
      var id := prefix + "_" + OptionalNames[i];
      if id in doc.values && doc.values[id] != "" {
        fields := fields + [Field(OptionalNames[i], doc.values[id])];
      }
    }
    assert OptionalNames[..|OptionalNames|] == OptionalNames;
  }

  /** The five UDF checks. */
  method CollectUdfs(udfs: seq<string>) returns (fields: seq<Field>)
    requires |udfs| == 5
    ensures fields == UdfFields(udfs, 5)
  {
    fields := [];
    if udfs[0] != "" { fields := fields + [Field("udf1", udfs[0])]; }
    assert fields == UdfFields(udfs, 1);
    if udfs[1] != "" { fields := fields + [Field("udf2", udfs[1])]; }
    assert fields == UdfFields(udfs, 2);
    if udfs[2] != "" { fields := fields + [Field("udf3", udfs[2])]; }
    assert fields == UdfFields(udfs, 3);
    if udfs[3] != "" { fields := fields + [Field("udf4", udfs[3])]; }
    assert fields == UdfFields(udfs, 4);
    if udfs[4] != "" { fields := fields + [Field("udf5", udfs[4])]; }
  }

  /** The codes of the checked payment-method boxes of the flow. */
  method CollectPaymethods(boxes: seq<Checkbox>, prefix: string, subscriptionMode: bool) returns (selected: seq<string>)
    ensures selected == SelectedCodes(boxes, prefix, subscriptionMode)
  {
    selected := [];
    for i := 0 to |boxes|
      invariant selected == SelectedCodes(boxes[..i], prefix, subscriptionMode)
    {
      assert boxes[..i + 1][..i] == boxes[..i];
      var box := boxes[i];
      if box.name == prefix + "_paymethod" && box.checked {
        selected := selected + [PaymethodCode(box, prefix, subscriptionMode)];
      }
    }
    assert boxes[..|boxes|] == boxes;
  }

  /** The field-list assembly of submitPayment. */
  method BuildFields(doc: Doc, flow: string, pt: string, hd: HashData) returns (r: Result<seq<Field>, HashError>)
    requires |hd.udfs| == 5
    ensures r == PostedFields(doc, flow, pt, hd)
  {
    var prefix := GetFlowPrefix(flow);
    var primary := PrimaryFields(doc, prefix, hd);
    if primary.Err? {
      return Err(primary.error);
    }
    var optional := CollectOptional(doc, prefix);
    var udfs := CollectUdfs(hd.udfs);
    var own := FlowFields(doc, flow, pt, hd);
    if own.Err? {
      return Err(own.error);
    }
    var fields := primary.value + optional + udfs + own.value;
    var selected := CollectPaymethods(doc.paymethods, prefix, SubscriptionMode(flow, pt));
    if |selected| > 0 {
      fields := fields + [Field("enforce_paymethod", Join(selected, "|"))];
    }
    assert fields == primary.value + optional + udfs + own.value + PaymethodFields(selected);
    return Ok(fields);
  }

  // ---------------------------------------------------------------------------
  // What is posted against what was hashed
  // ---------------------------------------------------------------------------

  /** The ten primary fields head every posted list, in the source's order:
      the key of the hash, the eight inputs as the page holds them, the hash. */
  lemma PostedHead(doc: Doc, flow: string, pt: string, hd: HashData)
    requires PostedFields(doc, flow, pt, hd).Ok?
    ensures var fs := PostedFields(doc, flow, pt, hd).value;
      var prefix := GetFlowPrefix(flow);
      && |fs| >= 10
      && FieldNames(fs[..10]) == PrimaryNames
      && fs[0].value == hd.credentials.key && fs[9].value == hd.hash
      && forall i :: 0 <= i < 8 ==> fs[i + 1].value == doc.values[PrimaryIds(prefix)[i]]
  {
    var prefix := GetFlowPrefix(flow);
    var primary := PrimaryFields(doc, prefix, hd).value;
    var fs := PostedFields(doc, flow, pt, hd).value;
    assert fs[..10] == primary;
  }

  /** The five inputs every hash reads. */
  const CoreSuffixes: set<string> := {"_txnid", "_amount", "_productinfo", "_firstname", "_email"}

  /** Two texts whose `k`-th characters from the end differ are different. */
  lemma EndsDiffer(p: string, s: string, w: string, k: nat)
    requires 0 < k <= |s| && k <= |w| && w[|w| - k] != s[|s| - k]
    ensures p + s != w
  {
    if |p + s| == |w| {
      assert (p + s)[|p + s| - k] == s[|s| - k];
    }
  }

  /** No JSON element is one of the five core inputs of any flow. */
  lemma WriteIdNotCore(prefix: string, suffix: string, w: string)
    requires suffix in CoreSuffixes && w in WriteIds
    ensures prefix + suffix != w
  {
    if w == "tpv_beneficiarydetail" && suffix == "_email" {
      EndsDiffer(prefix, suffix, w, 4);
    } else {
      EndsDiffer(prefix, suffix, w, 1);
    }
  }

  /** generateHash changes none of the five core inputs of the flow. */
  lemma HashWritesKeep(doc: Doc, flow: string, pt: string, suffix: string)
    requires suffix in CoreSuffixes
    ensures var id := GetFlowPrefix(flow) + suffix;
      Value(HashWrites(doc, flow, pt), id) == Value(doc, id)
  {
    var prefix := GetFlowPrefix(flow);
    if MissingCore(doc, prefix).None? && FlowVariant(doc, flow, pt).Ok? && FlowVariant(doc, flow, pt).value.write.Some? {
      VariantWriteIds(doc, flow, pt);
      WriteIdNotCore(prefix, suffix, FlowVariant(doc, flow, pt).value.write.value.0);
    }
  }

  /** What every successful generateHash returns besides the text. */
  lemma OutcomeBasics(doc: Doc, flow: string, pt: string, sha512: string -> string)
    requires HashOutcome(doc, flow, pt, sha512).Ok?
    ensures var hd := HashOutcome(doc, flow, pt, sha512).value;
      && MissingCore(doc, GetFlowPrefix(flow)).None?
      && FlowVariant(doc, flow, pt).Ok?
      && hd.hash == sha512(hd.hashString)
      && hd.credentials == GetCredentials(doc, flow)
      && hd.udfs == ResolveUdfs(doc, flow, pt)
      && hd.siDetails == FlowVariant(doc, flow, pt).value.siDetails
      && hd.splitRequest == (if flow == "split" then hd.siDetails else "")
  {
  }

  /** The key, txnid, amount, productinfo, firstname and email posted are
      the values that were hashed, and so is the hash itself. */
  lemma PostedHeadIsHashed(doc: Doc, flow: string, pt: string, sha512: string -> string, hd: HashData, after: Doc)
    requires HashOutcome(doc, flow, pt, sha512) == Ok(hd)
    requires after == HashWrites(doc, flow, pt)
    requires PostedFields(after, flow, pt, hd).Ok?
    ensures var fs := PostedFields(after, flow, pt, hd).value;
      && |fs| >= 10
      && fs[0].value == GetCredentials(doc, flow).key
      && (forall i :: 0 <= i < 5 ==> fs[i + 1].value == CoreValues(doc, GetFlowPrefix(flow))[i])
      && fs[9].value == sha512(hd.hashString)
  {
    var prefix := GetFlowPrefix(flow);
    OutcomeBasics(doc, flow, pt, sha512);
    PostedStartsWithPrimary(after, flow, pt, hd);
    HashWritesKeep(doc, flow, pt, "_txnid");
    HashWritesKeep(doc, flow, pt, "_amount");
    HashWritesKeep(doc, flow, pt, "_productinfo");
    HashWritesKeep(doc, flow, pt, "_firstname");
    HashWritesKeep(doc, flow, pt, "_email");
    PrimaryKeepsCore(doc, after, prefix, hd);
  }

  /** The primary fields read from a page that kept the five core inputs
      carry those inputs' values. */
  lemma PrimaryKeepsCore(doc: Doc, after: Doc, prefix: string, hd: HashData)
    requires MissingCore(doc, prefix).None?
    requires Value(after, prefix + "_txnid") == Value(doc, prefix + "_txnid")
    requires Value(after, prefix + "_amount") == Value(doc, prefix + "_amount")
    requires Value(after, prefix + "_productinfo") == Value(doc, prefix + "_productinfo")
    requires Value(after, prefix + "_firstname") == Value(doc, prefix + "_firstname")
    requires Value(after, prefix + "_email") == Value(doc, prefix + "_email")
    requires PrimaryFields(after, prefix, hd).Ok?
    ensures var pf := PrimaryFields(after, prefix, hd).value;
      && |pf| == 10
      && pf[0].value == hd.credentials.key
      && (forall i :: 0 <= i < 5 ==> pf[i + 1].value == CoreValues(doc, prefix)[i])
      && pf[9].value == hd.hash
  {
  }

  /** The flow's own fields are among the posted ones. */
  lemma OwnFieldsPosted(doc: Doc, flow: string, pt: string, hd: HashData)
    requires PostedFields(doc, flow, pt, hd).Ok?
    ensures FlowFields(doc, flow, pt, hd).Ok?
    ensures forall f :: f in FlowFields(doc, flow, pt, hd).value ==> f in PostedFields(doc, flow, pt, hd).value
  {
  }

  /** The page after generateHash holds the JSON text in the flow's element. */
  lemma WrittenJson(doc: Doc, flow: string, pt: string)
    requires MissingCore(doc, GetFlowPrefix(flow)).None? && FlowVariant(doc, flow, pt).Ok?
    requires FlowVariant(doc, flow, pt).value.write.Some?
    ensures var w := FlowVariant(doc, flow, pt).value.write.value;
      w.0 in HashWrites(doc, flow, pt).values && HashWrites(doc, flow, pt).values[w.0] == w.1
  {
  }

  /** The SI details posted by cross-border subscription, subscription and
      UPI OTM are the JSON text generateHash has just hashed and written. */
  lemma PostedSiDetailsAreHashed(doc: Doc, flow: string, pt: string, sha512: string -> string, hd: HashData)
    requires HashOutcome(doc, flow, pt, sha512) == Ok(hd)
    requires PostedFields(HashWrites(doc, flow, pt), flow, pt, hd).Ok?
    requires SubscriptionMode(flow, pt) || flow == "upiotm"
    ensures Field("si_details", hd.siDetails) in PostedFields(HashWrites(doc, flow, pt), flow, pt, hd).value
  {
    var after := HashWrites(doc, flow, pt);
    OutcomeBasics(doc, flow, pt, sha512);
    SiVariant(doc, flow, pt);
    WrittenJson(doc, flow, pt);
    OwnFieldsPosted(after, flow, pt, hd);
    SiFieldPosted(after, flow, pt, hd);
  }

  /** The element holding the SI details of a flow that sends them. */
  function SiElement(flow: string): string
  {
    if flow == "crossborder" then "cb_si_details" else if flow == "subscription" then "sub_si_details" else "upi_si_details"
  }

  /** The SI details are written into the flow's SI element. */
  lemma SiVariant(doc: Doc, flow: string, pt: string)
    requires SubscriptionMode(flow, pt) || flow == "upiotm"
    requires FlowVariant(doc, flow, pt).Ok?
    ensures var v := FlowVariant(doc, flow, pt).value; v.write == Some((SiElement(flow), v.siDetails))
  {
    if flow == "upiotm" {
      var f := "upiotm";
      assert f[0] == 'u' && "crossborder"[0] == 'c' && "subscription"[0] == 's' && "tpv"[0] == 't';
      assert FlowVariant(doc, flow, pt) == UpiOtmPart(doc);
    } else if flow == "subscription" {
      var f := "subscription";
      assert f[0] == 's' && "crossborder"[0] == 'c';
      assert FlowVariant(doc, flow, pt) == SubscriptionPart(doc);
    }
  }

  /** The flow posts its SI element's value as `si_details`. */
  lemma SiFieldPosted(d: Doc, flow: string, pt: string, hd: HashData)
    requires SubscriptionMode(flow, pt) || flow == "upiotm"
    requires FlowFields(d, flow, pt, hd).Ok?
    ensures SiElement(flow) in d.values
    ensures Field("si_details", d.values[SiElement(flow)]) in FlowFields(d, flow, pt, hd).value
  {
    if flow == "upiotm" {
      var f := "upiotm";
      assert f[0] == 'u' && "crossborder"[0] == 'c' && "subscription"[0] == 's' && "tpv"[0] == 't';
    } else if flow == "subscription" {
      var f := "subscription";
      assert f[0] == 's' && "crossborder"[0] == 'c';
    }
  }

  /** The beneficiary detail TPV posts is the JSON text generateHash has
      just hashed and written. */
  lemma PostedBeneficiaryIsHashed(doc: Doc, pt: string, sha512: string -> string, hd: HashData)
    requires HashOutcome(doc, "tpv", pt, sha512) == Ok(hd)
    requires PostedFields(HashWrites(doc, "tpv", pt), "tpv", pt, hd).Ok?
    ensures Field("beneficiarydetail", Serialize(BeneficiaryDetail(doc)))
            in PostedFields(HashWrites(doc, "tpv", pt), "tpv", pt, hd).value
  {
    OutcomeBasics(doc, "tpv", pt, sha512);
    TpvVariant(doc, pt);
    WrittenJson(doc, "tpv", pt);
    OwnFieldsPosted(HashWrites(doc, "tpv", pt), "tpv", pt, hd);
    TpvOwnFields(HashWrites(doc, "tpv", pt), pt, hd);
  }

  lemma TpvVariant(doc: Doc, pt: string)
    ensures FlowVariant(doc, "tpv", pt) == TpvPart(doc)
  {
    var f := "tpv";
    assert f[0] == 't' && "crossborder"[0] == 'c' && "subscription"[0] == 's';
  }

  /** TPV posts API version 6 and its beneficiary element's value. */
  lemma TpvOwnFields(d: Doc, pt: string, hd: HashData)
    requires "tpv_beneficiarydetail" in d.values
    ensures FlowFields(d, "tpv", pt, hd) == Ok([Field("api_version", "6"), Field("beneficiarydetail", d.values["tpv_beneficiarydetail"])])
  {
    var f := "tpv";
    assert f[0] == 't' && "crossborder"[0] == 'c' && "subscription"[0] == 's';
  }

  /** The split request posted is the one that was hashed. */
  lemma PostedSplitRequestIsHashed(doc: Doc, pt: string, sha512: string -> string, hd: HashData)
    requires HashOutcome(doc, "split", pt, sha512) == Ok(hd)
    requires PostedFields(HashWrites(doc, "split", pt), "split", pt, hd).Ok?
    ensures SplitRequestText(doc).Some? && hd.splitRequest == SplitRequestText(doc).value
    ensures Field("splitRequest", hd.splitRequest) in PostedFields(HashWrites(doc, "split", pt), "split", pt, hd).value
  {
    OutcomeBasics(doc, "split", pt, sha512);
    SplitVariant(doc, pt);
    OwnFieldsPosted(HashWrites(doc, "split", pt), "split", pt, hd);
    SplitOwnFields(HashWrites(doc, "split", pt), pt, hd);
  }

  lemma SplitVariant(doc: Doc, pt: string)
    ensures FlowVariant(doc, "split", pt) == SplitPart(doc)
  {
    var f := "split";
    assert f[0] == 's' && "crossborder"[0] == 'c' && "tpv"[0] == 't' && "upiotm"[0] == 'u';
    assert f[1] == 'p' && "subscription"[1] == 'u';
  }

  /** Split payment posts the split request as its only field of its own. */
  lemma SplitOwnFields(d: Doc, pt: string, hd: HashData)
    ensures FlowFields(d, "split", pt, hd) == Ok([Field("splitRequest", hd.splitRequest)])
  {
    var f := "split";
    assert f[0] == 's' && "crossborder"[0] == 'c' && "tpv"[0] == 't' && "upiotm"[0] == 'u' && "preauth"[0] == 'p';
    assert f[1] == 'p' && "subscription"[1] == 'u';
  }

  /** The buyer-type divergence: with no `cb_buyer_type` element, a one-time
      cross-border hash ends with `|undefined` after the salt, yet no buyer
      field is posted. */
  lemma MissingBuyerHashedNotPosted(doc: Doc, pt: string, sha512: string -> string)
    requires MissingCore(doc, "cb").None? && "cb_buyer_type" !in doc.values && pt != "subscription"
    ensures HashOutcome(doc, "crossborder", pt, sha512).Ok?
    ensures HashOutcome(doc, "crossborder", pt, sha512).value.hashString
            == HeadText(doc, "crossborder", pt) + (Salt(doc, "crossborder") + "|undefined")
    ensures HashWrites(doc, "crossborder", pt) == doc
    ensures FlowFields(doc, "crossborder", pt, HashOutcome(doc, "crossborder", pt, sha512).value) == Ok([])
  {
    CrossBorderLayout(doc, pt, sha512);
    assert BuyerText(doc) == "undefined";
    UndefinedAfterSalt(Salt(doc, "crossborder"));
    CrossBorderOneTime(doc, pt);
    CrossBorderFields(doc, pt, HashOutcome(doc, "crossborder", pt, sha512).value);
  }

  lemma UndefinedAfterSalt(salt: string)
    ensures ("" + salt) + ("|" + "undefined") == salt + "|undefined"
  {
    assert "|" + "undefined" == "|undefined";
  }

  /** A one-time cross-border payment writes nothing. */
  lemma CrossBorderOneTime(doc: Doc, pt: string)
    requires pt != "subscription"
    ensures FlowVariant(doc, "crossborder", pt) == CrossBorderPart(doc)
    ensures HashWrites(doc, "crossborder", pt) == doc
  {
  }

  /** With no buyer-type element, a one-time cross-border payment posts no
      field of its own. */
  lemma CrossBorderFields(doc: Doc, pt: string, hd: HashData)
    requires "cb_buyer_type" !in doc.values && pt != "subscription"
    ensures FlowFields(doc, "crossborder", pt, hd) == Ok([])
  {
    var f := "crossborder";
    assert f[0] == 'c' && "subscription"[0] == 's' && "tpv"[0] == 't' && "upiotm"[0] == 'u';
    assert "preauth"[0] == 'p' && "split"[0] == 's' && "bankoffer"[0] == 'b';
  }

  // ---------------------------------------------------------------------------
  // enforce_paymethod (flows.js:880-896)
  // ---------------------------------------------------------------------------

  /** A checkbox `prefix_nb` is sent as e-NACH in the subscription modes and
      as net banking otherwise; `prefix_cc`, `prefix_dc` and `prefix_upi` as
      credit card, debit card and UPI. */
  lemma KnownPaymethodCodes(box: Checkbox, prefix: string, x: string, subscriptionMode: bool)
    requires box.id == prefix + "_" + x
    requires x in {"nb", "cc", "dc", "upi"}
    ensures PaymethodCode(box, prefix, subscriptionMode)
      == if x == "nb" then (if subscriptionMode then "enach" else "netbanking")
         else if x == "cc" then "creditcard" else if x == "dc" then "debitcard" else "upi"
  {
    var pat := prefix + "_";
    assert box.id == pat + x;
    assert StartsWith(box.id[0..], pat);
    assert IndexOf(box.id, pat) == Some(0);
    assert ReplaceFirst(box.id, pat, "") == x by {
      assert box.id[|pat|..] == x;
    }
  }

  /** No checked box of the flow, no `enforce_paymethod` field. */
  lemma {:induction false} NoSelectionNoField(boxes: seq<Checkbox>, prefix: string, subscriptionMode: bool)
    ensures SelectedCodes(boxes, prefix, subscriptionMode) == []
            <==> forall i :: 0 <= i < |boxes| ==> !Selected(boxes[i], prefix)
    decreases |boxes|
  {
    if boxes != [] {
      var front := boxes[..|boxes| - 1];
      NoSelectionNoField(front, prefix, subscriptionMode);
      assert forall i :: 0 <= i < |front| ==> front[i] == boxes[i];
    }
  }

  /** The codes come back out of `enforce_paymethod` by splitting at '|',
      as long as none of them contains a '|'. */
  lemma EnforcedCodesRoundTrip(codes: seq<string>)
    requires |codes| > 0
    requires forall k :: 0 <= k < |codes| ==> '|' !in codes[k]
    ensures PaymethodFields(codes) == [Field("enforce_paymethod", Join(codes, "|"))]
    ensures Split(PaymethodFields(codes)[0].value, '|') == codes
  {
    JoinSplit(codes, '|');
  }

  // ---------------------------------------------------------------------------
  // The CURL command (flows.js:999-1010)
  // ---------------------------------------------------------------------------

  const CurlHeader: string := "curl -X POST \"https://test.payu.in/_payment\" \\\n"
    + "  -H \"Content-Type: application/x-www-form-urlencoded\" \\\n"

  /** One `-d "name=value"` argument of the command. */
  function DataArg(f: Field): string
  {
    "  -d \"" + f.name + "=" + f.value + "\""
  }

  /** The arguments, one per line, each line but the last ending in ` \`. */
  function DataArgs(fs: seq<Field>): string
  {
    Join(seq(|fs|, i requires 0 <= i < |fs| => DataArg(fs[i])), " \\\n")
  }

  /** The displayed command for the given fields: the header, then one
      argument per field. */
  function CurlText(fs: seq<Field>): string
  {
    CurlHeader + DataArgs(fs)
  }

  /** Appending one more argument line to a command that so far holds the
      first `k` arguments. */
  lemma CurlStep(parts: seq<string>, k: nat, sep: string, text: string)
    requires 0 < k < |parts|
    requires text == CurlHeader + Join(parts[..k], sep) + sep
    ensures text + parts[k] == CurlHeader + Join(parts[..k + 1], sep)
  {
    JoinAppend(parts[..k], [parts[k]], sep);
    assert parts[..k + 1] == parts[..k] + [parts[k]];
  }

  /** The command for ten fields, written out argument by argument. */
  lemma CurlTextExpanded(fs: seq<Field>)
    requires |fs| == 10
    ensures var sep := " \\\n";
      CurlText(fs) == CurlHeader + DataArg(fs[0]) + sep + DataArg(fs[1]) + sep + DataArg(fs[2]) + sep
        + DataArg(fs[3]) + sep + DataArg(fs[4]) + sep + DataArg(fs[5]) + sep + DataArg(fs[6]) + sep
        + DataArg(fs[7]) + sep + DataArg(fs[8]) + sep + DataArg(fs[9])
  {
    var sep := " \\\n";
    var parts := seq(|fs|, i requires 0 <= i < |fs| => DataArg(fs[i]));
    var text := CurlHeader + DataArg(fs[0]);
    assert parts[..1] == [parts[0]];
    text := text + sep;
    CurlStep(parts, 1, sep, text);
    text := text + DataArg(fs[1]) + sep;
    CurlStep(parts, 2, sep, text);
    text := text + DataArg(fs[2]) + sep;
    CurlStep(parts, 3, sep, text);
    text := text + DataArg(fs[3]) + sep;
    CurlStep(parts, 4, sep, text);
    text := text + DataArg(fs[4]) + sep;
    CurlStep(parts, 5, sep, text);
    text := text + DataArg(fs[5]) + sep;
    CurlStep(parts, 6, sep, text);
    text := text + DataArg(fs[6]) + sep;
    CurlStep(parts, 7, sep, text);
    text := text + DataArg(fs[7]) + sep;
    CurlStep(parts, 8, sep, text);
    text := text + DataArg(fs[8]) + sep;
    CurlStep(parts, 9, sep, text);
    assert parts[..10] == parts;
  }

  // ---------------------------------------------------------------------------
  // submitPayment and showCurlCommand (flows.js:782-911, 989-1019)
  // ---------------------------------------------------------------------------

  /** How a button press ends: the form is refused (an alert), a page
      element is missing (a thrown error), or the result is ready. */
  datatype Outcome<T> = Rejected | Failed(error: HashError) | Done(value: T)

  /** Validation followed by hash generation, with the page they leave. */
  function Prepared(doc: Doc, flow: string, pt: string, sha512: string -> string, cal: Calendar): (r: (Outcome<HashData>, Doc))
    ensures r.0.Done? ==> FormCheck(doc, flow, pt, cal).0 && |r.0.value.udfs| == 5
  {
    var (ok, checked) := FormCheck(doc, flow, pt, cal);
    if !ok then (Rejected, checked)
    else match HashOutcome(checked, flow, pt, sha512)
      case Err(e) => (Failed(e), HashWrites(checked, flow, pt))
      case Ok(hd) =>
        OutcomeBasics(checked, flow, pt, sha512);
        (Done(hd), HashWrites(checked, flow, pt))
  }

  /** The fields submitPayment posts, if it gets that far. */
  function Submitted(doc: Doc, flow: string, pt: string, sha512: string -> string, cal: Calendar): Outcome<seq<Field>>
  {
    var (p, after) := Prepared(doc, flow, pt, sha512, cal);
    match p
    case Rejected => Rejected
    case Failed(e) => Failed(e)
    case Done(hd) =>
      match PostedFields(after, flow, pt, hd)
      case Err(e) => Failed(e)
      case Ok(fs) => Done(fs)
  }

  /** The command showCurlCommand displays, if it gets that far. */
  function CurlShown(doc: Doc, flow: string, pt: string, sha512: string -> string, cal: Calendar): Outcome<string>
  {
    var (p, after) := Prepared(doc, flow, pt, sha512, cal);
    match p
    case Rejected => Rejected
    case Failed(e) => Failed(e)
    case Done(hd) =>
      match PrimaryFields(after, GetFlowPrefix(flow), hd)
      case Err(e) => Failed(e)
      case Ok(fs) => Done(CurlText(fs))
  }

  method Prepare(app: App, flow: string, sha512: string -> string, cal: Calendar) returns (o: Outcome<HashData>)
    modifies app
    ensures (o, app.doc) == Prepared(old(app.doc), flow, old(app.currentPaymentType), sha512, cal)
    ensures GlobalsUnchanged(app)
  {
    var ok := ValidateForm(app, flow, cal);
    if !ok {
      return Rejected;
    }
    var r := GenerateHash(app, flow, sha512);
    if r.Err? {
      return Failed(r.error);
    }
    return Done(r.value);
  }

  /** Validates the form, generates the hash and builds the form that is
      posted to the gateway; the page keeps the written hash fields. */
  method SubmitPayment(app: App, flow: string, sha512: string -> string, cal: Calendar) returns (o: Outcome<seq<Field>>)
    modifies app
    ensures o == Submitted(old(app.doc), flow, old(app.currentPaymentType), sha512, cal)
    ensures app.doc == Prepared(old(app.doc), flow, old(app.currentPaymentType), sha512, cal).1
    ensures GlobalsUnchanged(app)
  {
    var p := Prepare(app, flow, sha512, cal);
    match p {
      case Rejected => return Rejected;
      case Failed(e) => return Failed(e);
      case Done(hd) =>
        var r := BuildFields(app.doc, flow, app.currentPaymentType, hd);
        if r.Err? {
          return Failed(r.error);
        }
        return Done(r.value);
    }
  }

  /** Builds the command line by line, as the page does; reading a missing
      input's value throws. */
  method CurlFor(doc: Doc, prefix: string, hd: HashData) returns (r: Result<string, HashError>)
    ensures PrimaryFields(doc, prefix, hd).Err? ==> r == Err(PrimaryFields(doc, prefix, hd).error)
    ensures PrimaryFields(doc, prefix, hd).Ok? ==> r == Ok(CurlText(PrimaryFields(doc, prefix, hd).value))
  {
    var ids := PrimaryIds(prefix);
    var missing := FirstMissing(doc, ids);
    if missing.Some? {
      return Err(MissingElement(missing.value));
    }
    var sep := " \\\n";
    var text := "curl -X POST \"https://test.payu.in/_payment\" \\\n";
    text := text + "  -H \"Content-Type: application/x-www-form-urlencoded\" \\\n";
    text := text + DataArg(Field("key", hd.credentials.key)) + sep;
    text := text + DataArg(Field("txnid", doc.values[ids[0]])) + sep;
    text := text + DataArg(Field("amount", doc.values[ids[1]])) + sep;
    text := text + DataArg(Field("productinfo", doc.values[ids[2]])) + sep;
    text := text + DataArg(Field("firstname", doc.values[ids[3]])) + sep;
    text := text + DataArg(Field("email", doc.values[ids[4]])) + sep;
    text := text + DataArg(Field("phone", doc.values[ids[5]])) + sep;
    text := text + DataArg(Field("surl", doc.values[ids[6]])) + sep;
    text := text + DataArg(Field("furl", doc.values[ids[7]])) + sep;
    text := text + DataArg(Field("hash", hd.hash));
    CurlOfPrimary(doc, prefix, hd);
    return Ok(text);
  }

  /** The command for the primary fields, argument by argument. */
  lemma CurlOfPrimary(doc: Doc, prefix: string, hd: HashData)
    requires PrimaryFields(doc, prefix, hd).Ok?
    ensures var ids, sep := PrimaryIds(prefix), " \\\n";
      CurlText(PrimaryFields(doc, prefix, hd).value)
        == CurlHeader + DataArg(Field("key", hd.credentials.key)) + sep
           + DataArg(Field("txnid", doc.values[ids[0]])) + sep + DataArg(Field("amount", doc.values[ids[1]])) + sep
           + DataArg(Field("productinfo", doc.values[ids[2]])) + sep + DataArg(Field("firstname", doc.values[ids[3]])) + sep
           + DataArg(Field("email", doc.values[ids[4]])) + sep + DataArg(Field("phone", doc.values[ids[5]])) + sep
           + DataArg(Field("surl", doc.values[ids[6]])) + sep + DataArg(Field("furl", doc.values[ids[7]])) + sep
           + DataArg(Field("hash", hd.hash))
  {
    CurlTextExpanded(PrimaryFields(doc, prefix, hd).value);
  }

  /** Validates the form, generates the hash and shows the command that
      posts the same payment from a terminal. */
  method ShowCurlCommand(app: App, flow: string, sha512: string -> string, cal: Calendar) returns (o: Outcome<string>)
    modifies app
    ensures o == CurlShown(old(app.doc), flow, old(app.currentPaymentType), sha512, cal)
    ensures app.doc == Prepared(old(app.doc), flow, old(app.currentPaymentType), sha512, cal).1
    ensures GlobalsUnchanged(app)
  {
    var p := Prepare(app, flow, sha512, cal);
    if p.Rejected? {
      return Rejected;
    } else if p.Failed? {
      return Failed(p.error);
    }
    var r := CurlFor(app.doc, GetFlowPrefix(flow), p.value);
    if r.Err? {
      return Failed(r.error);
    }
    return Done(r.value);
  }

  /** The command carries exactly the ten primary fields of the posted form,
      in the same order, and nothing else: no UDF, no flow field. */
  lemma CurlMatchesSubmission(doc: Doc, flow: string, pt: string, sha512: string -> string, cal: Calendar)
    requires Submitted(doc, flow, pt, sha512, cal).Done?
    ensures |Submitted(doc, flow, pt, sha512, cal).value| >= 10
    ensures CurlShown(doc, flow, pt, sha512, cal) == Done(CurlText(Submitted(doc, flow, pt, sha512, cal).value[..10]))
  {
    var pr := Prepared(doc, flow, pt, sha512, cal);
    var hd, after := pr.0.value, pr.1;
    PostedStartsWithPrimary(after, flow, pt, hd);
    ShownFromPrimary(after, flow, pt, hd);
  }

  /** The command for the primary fields is the one for the head of the posted list. */
  lemma ShownFromPrimary(after: Doc, flow: string, pt: string, hd: HashData)
    requires PostedFields(after, flow, pt, hd).Ok?
    requires PrimaryFields(after, GetFlowPrefix(flow), hd).Ok?
    requires PostedFields(after, flow, pt, hd).value[..10] == PrimaryFields(after, GetFlowPrefix(flow), hd).value
    ensures |PostedFields(after, flow, pt, hd).value| >= 10
    ensures CurlText(PrimaryFields(after, GetFlowPrefix(flow), hd).value) == CurlText(PostedFields(after, flow, pt, hd).value[..10])
  {
  }

  lemma PostedStartsWithPrimary(doc: Doc, flow: string, pt: string, hd: HashData)
    requires PostedFields(doc, flow, pt, hd).Ok?
    ensures PrimaryFields(doc, GetFlowPrefix(flow), hd).Ok?
    ensures PostedFields(doc, flow, pt, hd).value[..10] == PrimaryFields(doc, GetFlowPrefix(flow), hd).value
  {
  }
}
