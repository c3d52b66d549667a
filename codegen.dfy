/** code-generator.js: the parameters the code generator reads off the page,
    the hash type it picks for the generated server code, and the params
    block it writes into that code, with its escaping. The bodies of the
    generated Java, PHP, Python and Node.js programs are not modelled. */
module CodeGenerator {
  import opened Base
  import opened Json
  import opened State
  import opened Config
  import opened Utils
  import opened SplitPayment
  import opened Hash
  import opened HashLayout
  import opened Submit

  /** The default surl and furl of the generated code. */
  const TestResponseUrl: string := "https://test.payu.in/admin/test_response"

  /** One entry of `splitMerchants`. */
  datatype Merchant = Merchant(merchantKey: string, txnId: string, amount: string, charges: string)

  /** The `flowSpecific` object. A property the source never sets is false,
      `None` or empty here. `buyerTypeBusiness` is `None` both when it is not
      set and when it is set to `undefined`; getHashType cannot tell the two
      apart either. */
  datatype FlowSpecific = FlowSpecific(
    hasSubscription: bool,
    billingAmount: Option<string>,
    billingCycle: Option<string>,
    billingInterval: Option<string>,
    paymentStartDate: Option<string>,
    paymentEndDate: Option<string>,
    hasBeneficiary: bool,
    beneficiaryAccount: string,
    ifscCode: string,
    hasUpiOtm: bool,
    isPreauth: bool,
    hasSplit: bool,
    splitType: string,
    splitMerchants: seq<Merchant>,
    hasBankOffer: bool,
    offerKey: Option<string>,
    cartDetails: Option<Json>,
    hasCartDetails: bool,
    buyerTypeBusiness: Option<string>)

  const NoFlowSpecific: FlowSpecific :=
    FlowSpecific(false, None, None, None, None, None, false, "", "", false, false, false, "", [], false, None, None, false, None)

  /** The `params` object: its properties in insertion order (`_flow` last),
      and `_flowSpecific`. */
  datatype Params = Params(entries: seq<Field>, flowSpecific: FlowSpecific)

  // ---------------------------------------------------------------------------
  // extractFlowParameters (code-generator.js:144-255)
  // ---------------------------------------------------------------------------

  /** The eight inputs every flow has; an empty or missing input gives '',
      or the test response page for surl and furl. */
  function BaseParams(doc: Doc, prefix: string): (fs: seq<Field>)
    ensures |fs| == 8 && fs[0].name == "txnid"
  {
    [Field("txnid", ValueOr(doc, prefix + "_txnid", "")),
     Field("amount", ValueOr(doc, prefix + "_amount", "")),
     Field("productinfo", ValueOr(doc, prefix + "_productinfo", "")),
     Field("firstname", ValueOr(doc, prefix + "_firstname", "")),
     Field("email", ValueOr(doc, prefix + "_email", "")),
     Field("phone", ValueOr(doc, prefix + "_phone", "")),
     Field("surl", ValueOr(doc, prefix + "_surl", TestResponseUrl)),
     Field("furl", ValueOr(doc, prefix + "_furl", TestResponseUrl))]
  }

  /** The elements UDF `n` is looked up in, in order. */
  function UdfCandidates(flow: string, pt: string, n: nat): seq<string>
  {
    var prefix := GetFlowPrefix(flow);
    (if flow == "crossborder" && pt == "subscription" then ["cb_sub_udf" + NatText(n) + "_input"] else [])
    + [prefix + "_udf" + NatText(n) + "_input", prefix + "_udf" + NatText(n)]
  }

  predicate FilledId(doc: Doc, id: string)
  {
    id in doc.values && doc.values[id] != ""
  }

  /** The value of the first of `ids` that is filled, or '' when none is. */
  function FirstFilled(doc: Doc, ids: seq<string>): string
    decreases |ids|
  {
    if ids == [] then ""
    else if FilledId(doc, ids[0]) then doc.values[ids[0]]
    else FirstFilled(doc, ids[1..])
  }

  /** The five UDF values of the generated code, '' where none was found. */
  function CodeUdfs(doc: Doc, flow: string, pt: string): (udfs: seq<string>)
    ensures |udfs| == 5
  {
    seq(5, i requires 0 <= i < 5 => FirstFilled(doc, UdfCandidates(flow, pt, i + 1)))
  }

  /** `pre_authorize` for pre-authorisation and the trimmed `user_token` for
      bank offers. */
  function ExtraParams(doc: Doc, flow: string): seq<Field>
  {
    (if flow == "preauth" then [Field("pre_authorize", "1")] else [])
    + (if flow == "bankoffer" && TrimmedOrEmpty(doc, "bo_user_token") != ""
       then [Field("user_token", TrimmedOrEmpty(doc, "bo_user_token"))] else [])
  }

  /** The split merchant of a complete row: trimmed inputs, charges "0.00"
      when left empty. */
  function MerchantOf(r: SplitRow): Merchant
  {
    Merchant(Trim(r.merchantKey), Trim(r.txnId), Trim(r.amount), Charges(r))
  }

  /** Every complete row, in row order, duplicates included. */
  function SplitMerchants(rows: seq<SplitRow>): seq<Merchant>
    decreases |rows|
  {
    if rows == [] then []
    else SplitMerchants(rows[..|rows| - 1])
         + (if Complete(rows[|rows| - 1]) then [MerchantOf(rows[|rows| - 1])] else [])
  }

  predicate SubscriptionParams(flow: string, pt: string)
  {
    flow == "subscription" || (flow == "crossborder" && pt == "subscription")
  }

  /** `flowSpecific` as the source fills it, flow by flow. */
  function FlowSpecOf(doc: Doc, flow: string, pt: string): FlowSpecific
  {
    var prefix := GetFlowPrefix(flow);
    var sub := SubscriptionParams(flow, pt);
    var upi := flow == "upiotm";
    var bo := flow == "bankoffer";
    var cart := bo && Checked(doc, "bo_enable_sku") && doc.skuPreview.Some?;
    var buyer := Value(doc, "cb_buyer_type");
    FlowSpecific(
      sub,
      if sub then Value(doc, prefix + "_billing_amount") else None,
      if sub then Value(doc, prefix + "_billing_cycle") else None,
      if sub then Value(doc, prefix + "_billing_interval") else None,
      if sub then Value(doc, prefix + "_payment_start_date") else if upi then Value(doc, "upi_payment_start_date") else None,
      if sub then Value(doc, prefix + "_payment_end_date") else if upi then Value(doc, "upi_payment_end_date") else None,
      flow == "tpv",
      if flow == "tpv" then ValueOr(doc, "tpv_beneficiary_account", "") else "",
      if flow == "tpv" then ValueOr(doc, "tpv_ifsc_code", "") else "",
      upi,
      flow == "preauth",
      flow == "split",
      if flow == "split" then SplitType(doc) else "",
      if flow == "split" then SplitMerchants(doc.splitRows) else [],
      bo,
      if bo && FilledId(doc, "bo_offer_key") then Some(doc.values["bo_offer_key"]) else None,
      if cart then doc.skuPreview else None,
      cart,
      if flow == "crossborder" && buyer != Some("") then buyer else None)
  }

  /** What extractFlowParameters returns. */
  function FlowParameters(doc: Doc, flow: string, pt: string): Params
  {
    var prefix := GetFlowPrefix(flow);
    Params(BaseParams(doc, prefix) + OptionalFields(doc, prefix, OptionalNames)
           + UdfFields(CodeUdfs(doc, flow, pt), 5) + ExtraParams(doc, flow) + [Field("_flow", flow)],
           FlowSpecOf(doc, flow, pt))
  }

  /** The `.split-row` loop. */
  method CollectMerchants(rows: seq<SplitRow>) returns (ms: seq<Merchant>)
    ensures ms == SplitMerchants(rows)
  {
    ms := [];
    for i := 0 to |rows|
      invariant ms == SplitMerchants(rows[..i])
    {
      assert rows[..i + 1][..i] == rows[..i];
      var r := rows[i];
      var merchantKey := Trim(r.merchantKey);
      var txnId := Trim(r.txnId);
      var amount := Trim(r.amount);
      var charges := if Trim(r.charges) != "" then Trim(r.charges) else "0.00";
      if merchantKey != "" && txnId != "" && amount != "" {
        ms := ms + [Merchant(merchantKey, txnId, amount, charges)];
      }
    }
    assert rows[..|rows|] == rows;
  }

  /** The UDF loop: for each `i`, the first filled candidate, kept only when
      one was found. */
  method CollectCodeUdfs(doc: Doc, flow: string, pt: string) returns (fields: seq<Field>)
    ensures fields == UdfFields(CodeUdfs(doc, flow, pt), 5)
  {
    var prefix := GetFlowPrefix(flow);
    ghost var udfs := CodeUdfs(doc, flow, pt);
    fields := [];
    for i := 1 to 6
      invariant fields == UdfFields(udfs, i - 1)
    {
      var udf := "";
      if flow == "crossborder" && pt == "subscription" {
        udf := ValueOr(doc, "cb_sub_udf" + NatText(i) + "_input", "");
      }
      if udf == "" {
        udf := ValueOr(doc, prefix + "_udf" + NatText(i) + "_input", "");
      }
      if udf == "" {
        udf := ValueOr(doc, prefix + "_udf" + NatText(i), "");
      }
      FirstFilledSteps(doc, flow, pt, i);
      if udf != "" {
        fields := fields + [Field(UdfNames[i - 1], udf)];
      }
    }
  }

  lemma FirstFilledCons(doc: Doc, x: string, rest: seq<string>)
    ensures FirstFilled(doc, [x] + rest) == if FilledId(doc, x) then doc.values[x] else FirstFilled(doc, rest)
  {
    assert ([x] + rest)[1..] == rest;
  }

  /** FirstFilled over the two or three candidates, unrolled. */
  lemma FirstFilledSteps(doc: Doc, flow: string, pt: string, n: nat)
    ensures var prefix := GetFlowPrefix(flow);
      var a := if flow == "crossborder" && pt == "subscription" then ValueOr(doc, "cb_sub_udf" + NatText(n) + "_input", "") else "";
      var b := if a == "" then ValueOr(doc, prefix + "_udf" + NatText(n) + "_input", "") else a;
      FirstFilled(doc, UdfCandidates(flow, pt, n)) == if b == "" then ValueOr(doc, prefix + "_udf" + NatText(n), "") else b
  {
    var prefix := GetFlowPrefix(flow);
    var x := prefix + "_udf" + NatText(n) + "_input";
    var y := prefix + "_udf" + NatText(n);
    FirstFilledCons(doc, y, []);
    assert [y] + [] == [y];
    FirstFilledCons(doc, x, [y]);
    assert [x] + [y] == [x, y];
    if flow == "crossborder" && pt == "subscription" {
      FirstFilledCons(doc, "cb_sub_udf" + NatText(n) + "_input", [x, y]);
    } else {
      assert UdfCandidates(flow, pt, n) == [x, y];
    }
  }

  /** Builds `flowSpecific` one flow at a time, as the source does. */
  method CollectFlowSpecific(doc: Doc, flow: string, pt: string) returns (spec: FlowSpecific)
    ensures spec == FlowSpecOf(doc, flow, pt)
  {
    var prefix := GetFlowPrefix(flow);
    spec := NoFlowSpecific;
    if flow == "subscription" || (flow == "crossborder" && pt == "subscription") {
      spec := spec.(billingAmount := Value(doc, prefix + "_billing_amount"),
                    billingCycle := Value(doc, prefix + "_billing_cycle"),
                    billingInterval := Value(doc, prefix + "_billing_interval"),
                    paymentStartDate := Value(doc, prefix + "_payment_start_date"),
                    paymentEndDate := Value(doc, prefix + "_payment_end_date"),
                    hasSubscription := true);
    }
    if flow == "tpv" {
      spec := spec.(beneficiaryAccount := ValueOr(doc, "tpv_beneficiary_account", ""),
                    ifscCode := ValueOr(doc, "tpv_ifsc_code", ""),
                    hasBeneficiary := true);
    }
    if flow == "upiotm" {
      spec := spec.(paymentStartDate := Value(doc, "upi_payment_start_date"),
                    paymentEndDate := Value(doc, "upi_payment_end_date"),
                    hasUpiOtm := true);
    }
    if flow == "preauth" {
      spec := spec.(isPreauth := true);
    }
    if flow == "split" {
      var merchants := CollectMerchants(doc.splitRows);
      spec := spec.(hasSplit := true, splitType := SplitType(doc), splitMerchants := merchants);
    }
    if flow == "bankoffer" {
      spec := spec.(hasBankOffer := true);
      var offerKey := Value(doc, "bo_offer_key");
      if offerKey.Some? && offerKey.value != "" {
        spec := spec.(offerKey := offerKey);
      }
      if Checked(doc, "bo_enable_sku") && doc.skuPreview.Some? {
        spec := spec.(cartDetails := doc.skuPreview, hasCartDetails := true);
      }
    }
    if flow == "crossborder" {
      var buyerType := Value(doc, "cb_buyer_type");
      if buyerType != Some("") {
        spec := spec.(buyerTypeBusiness := buyerType);
      }
    }
  }

  /** extractFlowParameters: reads the page and the payment type, changes
      nothing. */
  method ExtractFlowParameters(app: App, flow: string) returns (p: Params)
    ensures p == FlowParameters(app.doc, flow, app.currentPaymentType)
  {
    var doc := app.doc;
    var prefix := GetFlowPrefix(flow);
    var entries := BaseParams(doc, prefix);
    var optional := CollectOptional(doc, prefix);
    entries := entries + optional;
    var udfs := CollectCodeUdfs(doc, flow, app.currentPaymentType);
    entries := entries + udfs;
    var spec := CollectFlowSpecific(doc, flow, app.currentPaymentType);
    if flow == "preauth" {
      entries := entries + [Field("pre_authorize", "1")];
    }
    if flow == "bankoffer" {
      var userToken := TrimmedOrEmpty(doc, "bo_user_token");
      if userToken != "" {
        entries := entries + [Field("user_token", userToken)];
      }
    }
    entries := entries + [Field("_flow", flow)];
    return Params(entries, spec);
  }

  // ---------------------------------------------------------------------------
  // Properties of the extracted parameters
  // ---------------------------------------------------------------------------

  /** UDF `n` is the value of the first filled candidate, and '' only when no
      candidate is filled. */
  lemma {:induction false} FirstFilledIsFirst(doc: Doc, ids: seq<string>)
    ensures FirstFilled(doc, ids) == "" <==> forall k :: 0 <= k < |ids| ==> !FilledId(doc, ids[k])
    ensures forall k :: 0 <= k < |ids| && FilledId(doc, ids[k]) && (forall j :: 0 <= j < k ==> !FilledId(doc, ids[j]))
              ==> FirstFilled(doc, ids) == doc.values[ids[k]]
    decreases |ids|
  {
    if ids != [] {
      FirstFilledIsFirst(doc, ids[1..]);
      forall k | 1 <= k < |ids| && FilledId(doc, ids[k]) && (forall j :: 0 <= j < k ==> !FilledId(doc, ids[j]))
        ensures FirstFilled(doc, ids) == doc.values[ids[k]]
      {
        assert !FilledId(doc, ids[0]);
        assert ids[1..][k - 1] == ids[k];
        forall j | 0 <= j < k - 1 ensures !FilledId(doc, ids[1..][j]) {
          assert ids[1..][j] == ids[j + 1];
        }
      }
      if FirstFilled(doc, ids) == "" && !FilledId(doc, ids[0]) {
        forall k | 0 <= k < |ids| ensures !FilledId(doc, ids[k]) {
          if k > 0 { assert ids[k] == ids[1..][k - 1]; }
        }
      }
    }
  }

  /** Every complete row gives a merchant: none is dropped or merged away. */
  lemma {:induction false} MerchantsCoverCompleteRows(rows: seq<SplitRow>)
    ensures forall i :: 0 <= i < |rows| && Complete(rows[i]) ==> MerchantOf(rows[i]) in SplitMerchants(rows)
    decreases |rows|
  {
    if rows != [] {
      var n := |rows| - 1;
      MerchantsCoverCompleteRows(rows[..n]);
      var front := SplitMerchants(rows[..n]);
      var last := if Complete(rows[n]) then [MerchantOf(rows[n])] else [];
      assert SplitMerchants(rows) == front + last;
      forall i | 0 <= i < |rows| && Complete(rows[i]) ensures MerchantOf(rows[i]) in front + last {
        if i < n {
          assert rows[..n][i] == rows[i];
          assert MerchantOf(rows[i]) in front;
        } else {
          assert MerchantOf(rows[i]) in last;
        }
      }
    }
  }

  /** Every merchant has a key, a transaction id, an amount and charges. */
  lemma {:induction false} MerchantsAreComplete(rows: seq<SplitRow>)
    ensures forall m :: m in SplitMerchants(rows) ==>
              m.merchantKey != "" && m.txnId != "" && m.amount != "" && m.charges != ""
    decreases |rows|
  {
    if rows != [] {
      MerchantsAreComplete(rows[..|rows| - 1]);
    }
  }

  /** The divergence on duplicate merchant keys: the generated code lists
      both rows, while the splitRequest that is hashed and posted keeps only
      the last. */
  lemma DuplicateRowsKept(a: SplitRow, b: SplitRow)
    requires Complete(a) && Complete(b) && Trim(a.merchantKey) == Trim(b.merchantKey)
    ensures SplitMerchants([a, b]) == [MerchantOf(a), MerchantOf(b)]
    ensures |SplitInfo([a, b])| == if Trim(a.merchantKey) == ProtoKey then 0 else 1
  {
    assert [a, b][..1] == [a];
    assert [a][..0] == [];
    assert SplitMerchants([a]) == [MerchantOf(a)];
    DuplicateRowsCollapse(a, b);
  }

  /** The divergence on cross-border subscription UDFs: when
      `cb_sub_udf1_input` is empty and `cb_udf1_input` is not, the hash and
      the posted form carry an empty udf1, the generated code carries the
      one-time value. */
  lemma UdfSourcesDiverge(doc: Doc)
    requires !FilledId(doc, "cb_sub_udf1_input")
    requires FilledId(doc, "cb_udf1_input")
    ensures ResolveUdfs(doc, "crossborder", "subscription")[0] == ""
    ensures CodeUdfs(doc, "crossborder", "subscription")[0] == doc.values["cb_udf1_input"]
  {
    FlowIdRoundTrip(CrossBorder);
    assert NatText(1) == "1";
    assert "cb" + "_udf" + "1" + "_input" == "cb_udf1_input";
    assert UdfSource("crossborder", "subscription", 1) == "cb_sub_udf1_input";
    var ids := UdfCandidates("crossborder", "subscription", 1);
    assert ids[0] == "cb_sub_udf1_input" && ids[1] == "cb_udf1_input";
    assert ids[1..][0] == "cb_udf1_input";
  }

  // ---------------------------------------------------------------------------
  // getHashType (code-generator.js:296-308)
  // ---------------------------------------------------------------------------

  const HashTypes: set<string> := {"crossborder_subscription", "subscription", "tpv", "upiotm", "split",
                                   "bankoffer_sku", "bankoffer_standard", "crossborder", "standard"}

  /** The hash recipe the generated server code uses, first match wins. */
  function GetHashType(spec: FlowSpecific): (t: string)
    ensures t in HashTypes
  {
    if spec.hasSubscription && spec.buyerTypeBusiness.Some? then "crossborder_subscription"
    else if spec.hasSubscription then "subscription"
    else if spec.hasBeneficiary then "tpv"
    else if spec.hasUpiOtm then "upiotm"
    else if spec.hasSplit then "split"
    else if spec.hasCartDetails then "bankoffer_sku"
    else if spec.hasBankOffer then "bankoffer_standard"
    else if spec.buyerTypeBusiness.Some? then "crossborder"
    else "standard"
  }

  predicate BuyerGiven(doc: Doc)
  {
    "cb_buyer_type" in doc.values && doc.values["cb_buyer_type"] != ""
  }

  /** The hash type of the parameters extracted for each flow: cross-border
      takes its buyer variant only when a buyer type is given. */
  lemma CrossBorderHashType(doc: Doc, pt: string)
    ensures GetHashType(FlowParameters(doc, "crossborder", pt).flowSpecific)
      == if pt == "subscription" then (if BuyerGiven(doc) then "crossborder_subscription" else "subscription")
         else (if BuyerGiven(doc) then "crossborder" else "standard")
  {
  }

  lemma SubscriptionHashType(doc: Doc, pt: string)
    ensures GetHashType(FlowParameters(doc, "subscription", pt).flowSpecific) == "subscription"
  {
  }

  /** TPV, UPI OTM and split have their own hash types. */
  lemma OwnHashTypes(doc: Doc, flow: string, pt: string)
    requires flow in {"tpv", "upiotm", "split"}
    ensures GetHashType(FlowParameters(doc, flow, pt).flowSpecific) == flow
  {
  }

  /** Bank offers hash the cart only when SKUs are on and a cart is shown. */
  lemma BankOfferHashType(doc: Doc, pt: string)
    ensures GetHashType(FlowParameters(doc, "bankoffer", pt).flowSpecific)
      == if Checked(doc, "bo_enable_sku") && doc.skuPreview.Some? then "bankoffer_sku" else "bankoffer_standard"
  {
  }

  /** Every other flow, pre-authorisation included, uses the standard hash. */
  lemma StandardHashType(doc: Doc, flow: string, pt: string)
    requires flow !in {"crossborder", "subscription", "tpv", "upiotm", "split", "bankoffer"}
    ensures GetHashType(FlowParameters(doc, flow, pt).flowSpecific) == "standard"
  {
  }

  /** The divergence on a missing buyer-type element: the page hashes
      `undefined` after the salt, the generated code uses the standard hash,
      which has no such part. */
  lemma MissingBuyerDiverges(doc: Doc, pt: string, sha512: string -> string)
    requires MissingCore(doc, "cb").None? && "cb_buyer_type" !in doc.values && pt != "subscription"
    ensures HashOutcome(doc, "crossborder", pt, sha512).Ok?
    ensures HashOutcome(doc, "crossborder", pt, sha512).value.hashString
            == HeadText(doc, "crossborder", pt) + (Salt(doc, "crossborder") + "|undefined")
    ensures GetHashType(FlowParameters(doc, "crossborder", pt).flowSpecific) == "standard"
  {
    MissingBuyerHashedNotPosted(doc, pt, sha512);
    CrossBorderHashType(doc, pt);
  }

  // ---------------------------------------------------------------------------
  // The params block of the generated code (code-generator.js:322-328,
  // 406-412, 473-479, 545-551)
  // ---------------------------------------------------------------------------

  datatype Language = Java | Php | Python | NodeJs

  /** `!key.startsWith('_') && key !== 'txnid'` */
  predicate Emits(key: string)
  {
    !(|key| > 0 && key[0] == '_') && key != "txnid"
  }

  /** The properties that reach the generated code, in insertion order. */
  function Emitted(es: seq<Field>): seq<Field>
    decreases |es|
  {
    if es == [] then []
    else (if Emits(es[0].name) then [es[0]] else []) + Emitted(es[1..])
  }

  /** The quote the language's string literal is written with. */
  function Quote(lang: Language): char
  {
    if lang == Java then '"' else '\''
  }

  /** `String(value).replace(/\\/g, '\\\\').replace(/q/g, '\\q')`: two passes,
      backslashes first. */
  function Escape(s: string, q: char): string
  {
    ReplaceAll(ReplaceAll(s, '\\', "\\\\"), q, ['\\', q])
  }

  /** The per-character escape the two passes amount to. */
  function EscapeChars(s: string, q: char): string
    decreases |s|
  {
    if s == [] then []
    else (if s[0] == '\\' then "\\\\" else if s[0] == q then ['\\', q] else [s[0]]) + EscapeChars(s[1..], q)
  }

  /** The text before the value's literal on a params line. */
  function LineHead(lang: Language, key: string): string
  {
    match lang
    case Java => "        params.put(\"" + key + "\", \""
    case Php => "        '" + key + "' => '"
    case Python => "        '" + key + "': '"
    case NodeJs => "        " + key + ": '"
  }

  /** The text after the value's closing quote. */
  function LineTail(lang: Language): string
  {
    if lang == Java then ");" else ","
  }

  /** One line of the params block. */
  function ParamLine(lang: Language, f: Field): string
  {
    LineHead(lang, f.name) + Escape(f.value, Quote(lang)) + [Quote(lang)] + LineTail(lang)
  }

  function ParamLines(lang: Language, es: seq<Field>): (lines: seq<string>)
    ensures |lines| == |Emitted(es)|
  {
    var fs := Emitted(es);
    seq(|fs|, i requires 0 <= i < |fs| => ParamLine(lang, fs[i]))
  }

  /** The params block: the emitted lines joined by newlines. */
  function ParamsBlock(lang: Language, es: seq<Field>): string
  {
    Join(ParamLines(lang, es), "\n")
  }

  /** Reads a string literal's contents up to its closing quote `q`, where a
      backslash makes the next character literal; gives the contents and what
      follows the quote. */
  function ReadLiteral(t: string, q: char): Option<(string, string)>
    decreases |t|
  {
    if t == [] then None
    else if t[0] == q then Some(([], t[1..]))
    else if t[0] == '\\' then
      if |t| < 2 then None
      else match ReadLiteral(t[2..], q)
        case None => None
        case Some(r) => Some(([t[1]] + r.0, r.1))
    else match ReadLiteral(t[1..], q)
      case None => None
      case Some(r) => Some(([t[0]] + r.0, r.1))
  }

  /** The two passes escape each character on its own. */
  lemma {:induction false} EscapePasses(s: string, q: char)
    requires q != '\\'
    ensures Escape(s, q) == EscapeChars(s, q)
    decreases |s|
  {
    if s != [] {
      var c := [s[0]];
      assert s == c + s[1..];
      ReplaceAllAppend(c, s[1..], '\\', "\\\\");
      var first := ReplaceAll(c, '\\', "\\\\");
      ReplaceAllAppend(first, ReplaceAll(s[1..], '\\', "\\\\"), q, ['\\', q]);
      EscapePasses(s[1..], q);
      if s[0] == '\\' {
        assert first == "\\\\";
        assert ReplaceAll(first, q, ['\\', q]) == "\\\\";
      } else {
        assert first == c;
      }
    }
  }

  /** Reading the escaped text back up to the quote gives the value and
      leaves what follows. */
  lemma {:induction false} LiteralRoundTrip(s: string, q: char, rest: string)
    requires q != '\\'
    ensures ReadLiteral(EscapeChars(s, q) + [q] + rest, q) == Some((s, rest))
    decreases |s|
  {
    if s == [] {
      assert EscapeChars(s, q) + [q] + rest == [q] + rest;
    } else {
      LiteralRoundTrip(s[1..], q, rest);
      var one := if s[0] == '\\' then "\\\\" else if s[0] == q then ['\\', q] else [s[0]];
      var after := EscapeChars(s[1..], q) + [q] + rest;
      assert EscapeChars(s, q) + [q] + rest == one + after;
      ReadOneChar(s[0], q, after);
      assert [s[0]] + s[1..] == s;
    }
  }

  /** Reading one escaped character, then the rest of the literal. */
  lemma ReadOneChar(c: char, q: char, after: string)
    requires q != '\\'
    ensures var one := if c == '\\' then "\\\\" else if c == q then ['\\', q] else [c];
      ReadLiteral(one + after, q)
        == match ReadLiteral(after, q)
           case None => None
           case Some(r) => Some(([c] + r.0, r.1))
  {
    var one := if c == '\\' then "\\\\" else if c == q then ['\\', q] else [c];
    if c == '\\' || c == q {
      assert (one + after)[2..] == after;
    } else {
      assert (one + after)[1..] == after;
    }
  }

  /** The literal on a generated line stands for exactly the parameter's
      value, whatever quotes and backslashes it holds. */
  lemma ParamLineReadsBack(lang: Language, f: Field)
    ensures |LineHead(lang, f.name)| <= |ParamLine(lang, f)|
    ensures ReadLiteral(ParamLine(lang, f)[|LineHead(lang, f.name)|..], Quote(lang)) == Some((f.value, LineTail(lang)))
  {
    var head := LineHead(lang, f.name);
    EscapePasses(f.value, Quote(lang));
    LiteralRoundTrip(f.value, Quote(lang), LineTail(lang));
    assert ParamLine(lang, f) == head + (EscapeChars(f.value, Quote(lang)) + [Quote(lang)] + LineTail(lang));
    assert ParamLine(lang, f)[|head|..] == EscapeChars(f.value, Quote(lang)) + [Quote(lang)] + LineTail(lang);
  }

  /** Only properties whose key neither starts with '_' nor is `txnid`
      reach the generated code, and all of those do. */
  lemma {:induction false} EmittedExactly(es: seq<Field>)
    ensures forall f :: f in Emitted(es) <==> f in es && Emits(f.name)
    decreases |es|
  {
    if es != [] {
      EmittedExactly(es[1..]);
      assert es == [es[0]] + es[1..];
    }
  }

  lemma {:induction false} EmittedAppend(a: seq<Field>, b: seq<Field>)
    ensures Emitted(a + b) == Emitted(a) + Emitted(b)
    decreases |a|
  {
    if a != [] {
      assert (a + b)[1..] == a[1..] + b;
      EmittedAppend(a[1..], b);
    } else {
      assert a + b == b;
    }
  }

  lemma {:induction false} EmittedAll(es: seq<Field>)
    requires forall k :: 0 <= k < |es| ==> Emits(es[k].name)
    ensures Emitted(es) == es
    decreases |es|
  {
    if es != [] {
      EmittedAll(es[1..]);
    }
  }

  lemma {:induction false} OptionalFieldsNames(doc: Doc, prefix: string, names: seq<string>)
    ensures forall f :: f in OptionalFields(doc, prefix, names) ==> f.name in names
    decreases |names|
  {
    if names != [] {
      OptionalFieldsNames(doc, prefix, names[..|names| - 1]);
    }
  }

  lemma ExtraParamsEmitted(doc: Doc, flow: string)
    ensures Emitted(ExtraParams(doc, flow)) == ExtraParams(doc, flow)
  {
    EmitsByFirstLetter("pre_authorize");
    EmitsByFirstLetter("user_token");
    EmittedAll(ExtraParams(doc, flow));
  }

  /** A key with a first letter other than '_' and 't' is always emitted. */
  lemma EmitsByFirstLetter(key: string)
    requires |key| > 0 && key[0] != '_' && key[0] != 't'
    ensures Emits(key)
  {
    assert key[0] != "txnid"[0];
  }

  lemma BaseParamsEmitted(doc: Doc, prefix: string)
    ensures Emitted(BaseParams(doc, prefix)[1..]) == BaseParams(doc, prefix)[1..]
  {
    var fs := BaseParams(doc, prefix)[1..];
    forall k | 0 <= k < |fs| ensures Emits(fs[k].name) {
      EmitsByFirstLetter(fs[k].name);
    }
    EmittedAll(fs);
  }

  lemma OptionalParamsEmitted(doc: Doc, prefix: string)
    ensures Emitted(OptionalFields(doc, prefix, OptionalNames)) == OptionalFields(doc, prefix, OptionalNames)
  {
    var fs := OptionalFields(doc, prefix, OptionalNames);
    OptionalFieldsNames(doc, prefix, OptionalNames);
    forall n | n in OptionalNames ensures Emits(n) {
      EmitsByFirstLetter(n);
    }
    EmittedAll(fs);
  }

  lemma UdfParamsEmitted(udfs: seq<string>)
    ensures Emitted(UdfFields(udfs, 5)) == UdfFields(udfs, 5)
  {
    UdfFieldsExact(udfs, 5);
    forall n | n in UdfNames ensures Emits(n) {
      EmitsByFirstLetter(n);
    }
    EmittedAll(UdfFields(udfs, 5));
  }

  lemma MiddleEmitted(doc: Doc, flow: string, pt: string)
    ensures var prefix := GetFlowPrefix(flow);
      var middle := BaseParams(doc, prefix)[1..] + (OptionalFields(doc, prefix, OptionalNames)
                    + UdfFields(CodeUdfs(doc, flow, pt), 5) + ExtraParams(doc, flow));
      Emitted(middle) == middle
  {
    var prefix := GetFlowPrefix(flow);
    var base := BaseParams(doc, prefix)[1..];
    var optional := OptionalFields(doc, prefix, OptionalNames);
    var udfs := UdfFields(CodeUdfs(doc, flow, pt), 5);
    var extra := ExtraParams(doc, flow);
    BaseParamsEmitted(doc, prefix);
    OptionalParamsEmitted(doc, prefix);
    UdfParamsEmitted(CodeUdfs(doc, flow, pt));
    ExtraParamsEmitted(doc, flow);
    EmittedAppend(optional, udfs);
    EmittedAppend(optional + udfs, extra);
    EmittedAppend(base, optional + udfs + extra);
  }

  lemma EmittedDropsEnds(first: Field, middle: seq<Field>, flow: string)
    requires first.name == "txnid" && Emitted(middle) == middle
    ensures Emitted([first] + middle + [Field("_flow", flow)]) == middle
  {
    var last := [Field("_flow", flow)];
    assert [first] + middle + last == [first] + (middle + last);
    EmittedAppend([first], middle + last);
    EmittedAppend(middle, last);
    assert Emitted(last) == [];
    assert Emitted([first]) == [];
  }

  lemma EntriesEmitted(es: seq<Field>, first: Field, middle: seq<Field>, flow: string)
    requires es == [first] + middle + [Field("_flow", flow)]
    requires first.name == "txnid" && Emitted(middle) == middle
    ensures Emitted(es) == es[1..|es| - 1]
  {
    EmittedDropsEnds(first, middle, flow);
    assert es[1..|es| - 1] == middle;
  }

  /** The generated code carries every extracted parameter except `txnid`,
      which it generates itself, and the `_flow` marker, in the order they
      were read. */
  lemma GeneratedParams(doc: Doc, flow: string, pt: string)
    ensures var es := FlowParameters(doc, flow, pt).entries;
      |es| >= 9 && es[0].name == "txnid" && es[|es| - 1] == Field("_flow", flow)
      && Emitted(es) == es[1..|es| - 1]
  {
    var prefix := GetFlowPrefix(flow);
    MiddleEmitted(doc, flow, pt);
    EntriesShape(BaseParams(doc, prefix), OptionalFields(doc, prefix, OptionalNames),
      UdfFields(CodeUdfs(doc, flow, pt), 5), ExtraParams(doc, flow), flow);
  }

  /** The entries as extractFlowParameters lays them out: the base
      parameters, the optional ones, the UDFs, the flow's own and the marker. */
  lemma EntriesShape(base: seq<Field>, optional: seq<Field>, udfs: seq<Field>, extra: seq<Field>, flow: string)
    requires |base| == 8 && base[0].name == "txnid"
    requires Emitted(base[1..] + (optional + udfs + extra)) == base[1..] + (optional + udfs + extra)
    ensures var es := base + optional + udfs + extra + [Field("_flow", flow)];
      |es| >= 9 && es[0].name == "txnid" && es[|es| - 1] == Field("_flow", flow)
      && Emitted(es) == es[1..|es| - 1]
  {
    var es := base + optional + udfs + extra + [Field("_flow", flow)];
    var middle := base[1..] + (optional + udfs + extra);
    assert es == [base[0]] + middle + [Field("_flow", flow)];
    EntriesEmitted(es, base[0], middle, flow);
  }

  /** With no newline in any key or value, the block splits back into one
      line per emitted parameter. */
  lemma ParamsBlockLines(lang: Language, es: seq<Field>)
    requires Emitted(es) != []
    requires forall f :: f in es ==> '\n' !in f.name && '\n' !in f.value
    ensures Split(ParamsBlock(lang, es), '\n') == ParamLines(lang, es)
  {
    var lines := ParamLines(lang, es);
    EmittedExactly(es);
    forall k | 0 <= k < |lines| ensures '\n' !in lines[k] {
      assert Emitted(es)[k] in es;
      ParamLineOneLine(lang, Emitted(es)[k]);
    }
    JoinSplit(lines, '\n');
  }

  lemma ParamLineOneLine(lang: Language, f: Field)
    requires '\n' !in f.name && '\n' !in f.value
    ensures '\n' !in ParamLine(lang, f)
  {
    EscapePasses(f.value, Quote(lang));
    EscapeCharsKeepsLines(f.value, Quote(lang));
  }

  lemma {:induction false} EscapeCharsKeepsLines(s: string, q: char)
    requires '\n' !in s && q != '\n'
    ensures '\n' !in EscapeChars(s, q)
    decreases |s|
  {
    if s != [] {
      EscapeCharsKeepsLines(s[1..], q);
    }
  }
}
