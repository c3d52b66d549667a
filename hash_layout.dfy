/** What generateHash (utils.js:625-747) promises about the text it hashes,
    stated over the specification in module Hash: every layout opens with the
    same eleven fields and six bars, and the flows differ only in what sits
    between those bars and the salt and in what follows the salt. */
module HashLayout {
  import opened Base
  import opened Json
  import opened State
  import opened Config
  import opened Utils
  import opened SplitPayment
  import opened BankOffer
  import opened Hash

  /** `key|txnid|amount|productinfo|firstname|email|udf1|udf2|udf3|udf4|udf5||||||`
      for the page, the flow and the payment type. */
  function HeadText(doc: Doc, flow: string, pt: string): (t: string)
    requires MissingCore(doc, GetFlowPrefix(flow)).None?
    ensures |t| >= 16 && t[|t| - 6..] == "||||||"
  {
    var key := GetCredentials(doc, flow).key;
    var core := CoreValues(doc, GetFlowPrefix(flow));
    var udfs := ResolveUdfs(doc, flow, pt);
    key + "|" + core[0] + "|" + core[1] + "|" + core[2] + "|" + core[3] + "|" + core[4] + "|"
    + udfs[0] + "|" + udfs[1] + "|" + udfs[2] + "|" + udfs[3] + "|" + udfs[4] + "||||||"
  }

  /** The salt of the credentials the flow uses. */
  function Salt(doc: Doc, flow: string): (s: string)
    ensures s != ""
  {
    GetCredentials(doc, flow).salt
  }

  /** Joining from the left onto `acc` is `acc` followed by the join. */
  lemma {:induction false} PipeIsJoin(acc: string, rest: seq<string>)
    requires |rest| > 0
    ensures Pipe(acc, rest) == acc + Join(rest, "|")
    decreases |rest|
  {
    if |rest| > 1 {
      var front := rest[..|rest| - 1];
      PipeIsJoin(acc, front);
      assert rest == front + [rest[|rest| - 1]];
      JoinSnoc(front, rest[|rest| - 1]);
    }
  }

  /** The text after the six bars: the flow's fields, the salt and the
      tail, joined with '|'. */
  function SectionText(doc: Doc, flow: string, pt: string): string
    requires FlowVariant(doc, flow, pt).Ok?
  {
    var v := FlowVariant(doc, flow, pt).value;
    Join(Values(v.middle + [Slot("SALT", Salt(doc, flow))] + v.tail), "|")
  }

  /** With the required inputs present and the flow's part built, the hash
      text is the head followed by the section, the hash is the digest of
      that text, and `splitRequest` is the flow's JSON only for split. */
  lemma OutcomeOf(doc: Doc, flow: string, pt: string, sha512: string -> string)
    requires MissingCore(doc, GetFlowPrefix(flow)).None?
    requires FlowVariant(doc, flow, pt).Ok?
    ensures var v := FlowVariant(doc, flow, pt).value;
      var text := HeadText(doc, flow, pt) + SectionText(doc, flow, pt);
      && HashOutcome(doc, flow, pt, sha512).Ok?
      && HashOutcome(doc, flow, pt, sha512).value.hash == sha512(text)
      && HashOutcome(doc, flow, pt, sha512).value.hashString == text
      && HashOutcome(doc, flow, pt, sha512).value.siDetails == v.siDetails
      && HashOutcome(doc, flow, pt, sha512).value.splitRequest == (if flow == "split" then v.siDetails else "")
      && HashOutcome(doc, flow, pt, sha512).value.udfs == ResolveUdfs(doc, flow, pt)
      && HashOutcome(doc, flow, pt, sha512).value.credentials == GetCredentials(doc, flow)
  {
    var v := FlowVariant(doc, flow, pt).value;
    var c := GetCredentials(doc, flow);
    var rest := v.middle + [Slot("SALT", c.salt)] + v.tail;
    LayoutOf(doc, flow, pt, v);
    LayoutText(c.key, CoreValues(doc, GetFlowPrefix(flow)), ResolveUdfs(doc, flow, pt), rest);
    SlotsAppend(HeadSlots(c.key, CoreValues(doc, GetFlowPrefix(flow)), ResolveUdfs(doc, flow, pt)) + EmptySlots,
      v.middle, Slot("SALT", c.salt), v.tail);
    PipeIsJoin(HeadText(doc, flow, pt), Values(rest));
  }

  /** generateHash throws exactly when a required input is missing or the
      flow's part cannot be built; otherwise every hash text it returns
      starts with the eleven fixed fields and the six bars. */
  lemma HashStringStartsWithHead(doc: Doc, flow: string, pt: string, sha512: string -> string)
    ensures HashOutcome(doc, flow, pt, sha512).Ok?
        <==> MissingCore(doc, GetFlowPrefix(flow)).None? && FlowVariant(doc, flow, pt).Ok?
    ensures HashOutcome(doc, flow, pt, sha512).Ok? ==>
      && MissingCore(doc, GetFlowPrefix(flow)).None?
      && StartsWith(HashOutcome(doc, flow, pt, sha512).value.hashString, HeadText(doc, flow, pt))
  {
    if MissingCore(doc, GetFlowPrefix(flow)).None? && FlowVariant(doc, flow, pt).Ok? {
      OutcomeOf(doc, flow, pt, sha512);
      var t := HashOutcome(doc, flow, pt, sha512).value.hashString;
      var h := HeadText(doc, flow, pt);
      assert t[..|h|] == h;
    }
  }

  /** nonseamless, preauth, checkoutplus, any unknown flow, and bankoffer
      without a cart: the head, then the salt, and nothing after it; no SI
      details and no split request are reported. */
  lemma StandardLayout(doc: Doc, flow: string, pt: string, sha512: string -> string)
    requires MissingCore(doc, GetFlowPrefix(flow)).None?
    requires flow !in {"crossborder", "subscription", "tpv", "upiotm", "split"}
    requires flow == "bankoffer" ==> !CartGiven(doc)
    ensures HashOutcome(doc, flow, pt, sha512).Ok?
    ensures HashOutcome(doc, flow, pt, sha512).value.hashString == HeadText(doc, flow, pt) + Salt(doc, flow)
    ensures HashOutcome(doc, flow, pt, sha512).value.siDetails == ""
    ensures HashOutcome(doc, flow, pt, sha512).value.splitRequest == ""
  {
    OutcomeOf(doc, flow, pt, sha512);
    assert Values([Slot("SALT", Salt(doc, flow))]) == [Salt(doc, flow)];
  }

  /** A section of at most one field before the salt and at most one after
      it, written out. */
  lemma SectionShape(m: seq<Slot>, s: string, t: seq<Slot>)
    requires |m| <= 1 && |t| <= 1
    ensures Join(Values(m + [Slot("SALT", s)] + t), "|")
         == (if |m| == 1 then m[0].value + "|" else "") + s + (if |t| == 1 then "|" + t[0].value else "")
  {
    var vs := Values(m + [Slot("SALT", s)] + t);
    if |m| == 1 && |t| == 1 {
      assert vs == [m[0].value] + ([s] + [t[0].value]);
      JoinAppend([s], [t[0].value], "|");
      JoinAppend([m[0].value], [s] + [t[0].value], "|");
    } else if |m| == 1 {
      assert vs == [m[0].value] + [s];
      JoinAppend([m[0].value], [s], "|");
    } else if |t| == 1 {
      assert vs == [s] + [t[0].value];
      JoinAppend([s], [t[0].value], "|");
    } else {
      assert vs == [s];
    }
  }

  /** The cross-border section: the SI details only for a subscription, and
      the buyer type after the salt unless its element holds ''. */
  lemma CrossBorderSection(doc: Doc, pt: string)
    requires pt == "subscription" ==> "cb_si_details" in doc.values
    ensures FlowVariant(doc, "crossborder", pt).Ok?
    ensures SectionText(doc, "crossborder", pt)
      == (if pt == "subscription" then Serialize(SubscriptionSiDetails(doc, "cb")) + "|" else "")
         + Salt(doc, "crossborder")
         + (if Value(doc, "cb_buyer_type") != Some("") then "|" + BuyerText(doc) else "")
  {
    var v := FlowVariant(doc, "crossborder", pt).value;
    assert v.tail == BuyerTail(doc);
    SectionShape(v.middle, Salt(doc, "crossborder"), v.tail);
  }

  /** Cross-border, both payment types: the SI details sit between the bars
      and the salt only for a subscription, and `|buyer_type` follows the
      salt exactly when the buyer-type element is not present with the empty
      value; a missing element is appended as "undefined". */
  lemma CrossBorderLayout(doc: Doc, pt: string, sha512: string -> string)
    requires MissingCore(doc, "cb").None?
    requires pt == "subscription" ==> "cb_si_details" in doc.values
    ensures HashOutcome(doc, "crossborder", pt, sha512).Ok?
    ensures HashOutcome(doc, "crossborder", pt, sha512).value.hashString
      == HeadText(doc, "crossborder", pt)
         + ((if pt == "subscription" then Serialize(SubscriptionSiDetails(doc, "cb")) + "|" else "")
            + Salt(doc, "crossborder")
            + (if Value(doc, "cb_buyer_type") != Some("") then "|" + BuyerText(doc) else ""))
    ensures HashOutcome(doc, "crossborder", pt, sha512).value.splitRequest == ""
  {
    CrossBorderSection(doc, pt);
    OutcomeOf(doc, "crossborder", pt, sha512);
  }

  /** The buyer-type scenarios of a one-time cross-border payment: a chosen
      value ends the text with `<salt>|<value>`, the empty value ends it with
      the salt. */
  lemma BuyerTypeScenarios(doc: Doc, pt: string, sha512: string -> string)
    requires MissingCore(doc, "cb").None? && "cb_buyer_type" in doc.values && pt != "subscription"
    ensures HashOutcome(doc, "crossborder", pt, sha512).Ok?
    ensures HashOutcome(doc, "crossborder", pt, sha512).value.hashString
      == HeadText(doc, "crossborder", pt)
         + (if doc.values["cb_buyer_type"] == "" then Salt(doc, "crossborder")
            else Salt(doc, "crossborder") + "|" + doc.values["cb_buyer_type"])
  {
    assert Value(doc, "cb_buyer_type") == Some(doc.values["cb_buyer_type"]);
    CrossBorderLayout(doc, pt, sha512);
    SaltThenBuyer(Salt(doc, "crossborder"), doc.values["cb_buyer_type"]);
  }

  lemma SaltThenBuyer(salt: string, b: string)
    ensures ("" + salt) + ("|" + b) == salt + "|" + b
    ensures ("" + salt) + "" == salt
  {
  }

  /** The section of subscription, TPV and UPI OTM: the flow's JSON, then the salt. */
  lemma DocumentSection(doc: Doc, flow: string, pt: string)
    requires flow in {"subscription", "tpv", "upiotm"} && FlowVariant(doc, flow, pt).Ok?
    ensures var v := FlowVariant(doc, flow, pt).value;
      |v.middle| == 1 && SectionText(doc, flow, pt) == v.middle[0].value + "|" + Salt(doc, flow)
  {
    var v := FlowVariant(doc, flow, pt).value;
    var s := Salt(doc, flow);
    assert Values(v.middle + [Slot("SALT", s)] + v.tail) == [v.middle[0].value] + [s];
    JoinAppend([v.middle[0].value], [s], "|");
  }

  /** Subscription, TPV and UPI OTM: the flow's JSON text between the bars
      and the salt, nothing after the salt; the SI details are reported for
      subscription and UPI OTM, not for TPV. When the hidden element that
      receives the JSON is missing, generateHash throws. */
  lemma DocumentLayouts(doc: Doc, flow: string, pt: string, sha512: string -> string)
    requires MissingCore(doc, GetFlowPrefix(flow)).None?
    requires flow in {"subscription", "tpv", "upiotm"}
    ensures var id := if flow == "subscription" then "sub_si_details" else if flow == "tpv" then "tpv_beneficiarydetail" else "upi_si_details";
      id !in doc.values ==> HashOutcome(doc, flow, pt, sha512) == Err(MissingElement(id))
    ensures var id := if flow == "subscription" then "sub_si_details" else if flow == "tpv" then "tpv_beneficiarydetail" else "upi_si_details";
      var json := if flow == "subscription" then Serialize(SubscriptionSiDetails(doc, "sub"))
                  else if flow == "tpv" then Serialize(BeneficiaryDetail(doc)) else Serialize(UpiOtmSiDetails(doc));
      id in doc.values ==>
        && HashOutcome(doc, flow, pt, sha512).Ok?
        && HashOutcome(doc, flow, pt, sha512).value.hashString == HeadText(doc, flow, pt) + (json + "|" + Salt(doc, flow))
        && HashOutcome(doc, flow, pt, sha512).value.siDetails == (if flow == "tpv" then "" else json)
        && HashOutcome(doc, flow, pt, sha512).value.splitRequest == ""
  {
    if FlowVariant(doc, flow, pt).Ok? {
      DocumentSection(doc, flow, pt);
      OutcomeOf(doc, flow, pt, sha512);
    }
  }

  /** Split: generateHash throws when the split request cannot be built;
      otherwise the request's text follows the salt and is returned as
      `splitRequest`. */
  lemma SplitLayout(doc: Doc, pt: string, sha512: string -> string)
    requires MissingCore(doc, "split").None?
    ensures SplitRequestText(doc).None? ==> HashOutcome(doc, "split", pt, sha512) == Err(SplitRequestFailed)
    ensures SplitRequestText(doc).Some? ==>
      && HashOutcome(doc, "split", pt, sha512).Ok?
      && HashOutcome(doc, "split", pt, sha512).value.hashString
         == HeadText(doc, "split", pt) + (Salt(doc, "split") + "|" + SplitRequestText(doc).value)
      && HashOutcome(doc, "split", pt, sha512).value.splitRequest == SplitRequestText(doc).value
  {
    if SplitRequestText(doc).Some? {
      var j := SplitRequestText(doc).value;
      var s := Salt(doc, "split");
      var v := FlowVariant(doc, "split", pt).value;
      assert Values(v.middle + [Slot("SALT", s)] + v.tail) == [s] + [j];
      JoinAppend([s], [j], "|");
      OutcomeOf(doc, "split", pt, sha512);
    }
  }

  /** The bank-offer section with a cart: six fields, then the salt. */
  lemma BankOfferSection(doc: Doc, pt: string)
    requires CartGiven(doc)
    ensures FlowVariant(doc, "bankoffer", pt).Ok?
    ensures SectionText(doc, "bankoffer", pt)
      == TrimmedOrEmpty(doc, "bo_user_token") + "|" + TrimmedOrEmpty(doc, "bo_offer_key")
         + "||" + BuildBankOfferCartDetails(doc).value + "||" + ValueOr(doc, "bo_phone", "") + "|" + Salt(doc, "bankoffer")
  {
    BankOfferVariant(doc, pt);
    var u, k := TrimmedOrEmpty(doc, "bo_user_token"), TrimmedOrEmpty(doc, "bo_offer_key");
    var c, ph := BuildBankOfferCartDetails(doc).value, ValueOr(doc, "bo_phone", "");
    var s := Salt(doc, "bankoffer");
    var v := BankOfferPart(doc).value;
    assert v.middle + [Slot("SALT", s)] + v.tail == BankOfferSlots(u, k, c, ph, s);
    BankOfferSlotsText(u, k, c, ph, s);
  }

  /** The six bank-offer fields and the salt. */
  function BankOfferSlots(u: string, k: string, c: string, ph: string, s: string): seq<Slot>
  {
    [Slot("user_token", u), Slot("offer_key", k), Slot("offer_auto_apply", ""), Slot("cart_details", c),
     Slot("extra_charges", ""), Slot("phone", ph), Slot("SALT", s)]
  }

  lemma BankOfferSlotsText(u: string, k: string, c: string, ph: string, s: string)
    ensures Join(Values(BankOfferSlots(u, k, c, ph, s)), "|") == u + "|" + k + "||" + c + "||" + ph + "|" + s
  {
    SevenFields(BankOfferSlots(u, k, c, ph, s));
    assert u + "|" + k + "|" + "" + "|" == u + "|" + k + "||";
    assert u + "|" + k + "||" + c + "|" + "" + "|" == u + "|" + k + "||" + c + "||";
  }

  /** The bank-offer flow takes the bank-offer part of the layout. */
  lemma BankOfferVariant(doc: Doc, pt: string)
    ensures FlowVariant(doc, "bankoffer", pt) == BankOfferPart(doc)
  {
    var f := "bankoffer";
    assert f[0] == 'b';
    assert "crossborder"[0] == 'c' && "subscription"[0] == 's' && "tpv"[0] == 't';
    assert "upiotm"[0] == 'u' && "split"[0] == 's';
  }

  /** Seven fields joined with '|', written out. */
  lemma SevenFields(rest: seq<Slot>)
    requires |rest| == 7
    ensures Join(Values(rest), "|") == rest[0].value + "|" + rest[1].value + "|" + rest[2].value + "|" + rest[3].value
      + "|" + rest[4].value + "|" + rest[5].value + "|" + rest[6].value
  {
    Fields7("", rest);
    PipeIsJoin("", Values(rest));
    assert "" + Join(Values(rest), "|") == Join(Values(rest), "|");
  }

  /** Bank offer with a cart: user token, offer key, an always-empty
      auto-apply field, the cart text, an always-empty extra-charges field
      and the phone, between the bars and the salt. */
  lemma BankOfferLayout(doc: Doc, pt: string, sha512: string -> string)
    requires MissingCore(doc, "bo").None? && CartGiven(doc)
    ensures HashOutcome(doc, "bankoffer", pt, sha512).Ok?
    ensures HashOutcome(doc, "bankoffer", pt, sha512).value.hashString
      == HeadText(doc, "bankoffer", pt) + (TrimmedOrEmpty(doc, "bo_user_token") + "|" + TrimmedOrEmpty(doc, "bo_offer_key")
         + "||" + BuildBankOfferCartDetails(doc).value + "||" + ValueOr(doc, "bo_phone", "") + "|" + Salt(doc, "bankoffer"))
    ensures HashOutcome(doc, "bankoffer", pt, sha512).value.splitRequest == ""
  {
    BankOfferSection(doc, pt);
    OutcomeOf(doc, "bankoffer", pt, sha512);
  }

  /** When no field value contains '|', splitting the hash text at '|' gives
      back the fields one by one: the eleven head values, then exactly five
      empty fields, then the flow's fields, the salt and the tail. */
  lemma HashTextFields(doc: Doc, flow: string, pt: string, sha512: string -> string)
    requires HashOutcome(doc, flow, pt, sha512).Ok?
    requires forall k :: 0 <= k < |Values(Layout(doc, flow, pt).value)| ==> '|' !in Values(Layout(doc, flow, pt).value)[k]
    ensures Split(HashOutcome(doc, flow, pt, sha512).value.hashString, '|') == Values(Layout(doc, flow, pt).value)
    ensures var fields := Split(HashOutcome(doc, flow, pt, sha512).value.hashString, '|');
      && |fields| >= 17
      && fields[11..16] == ["", "", "", "", ""]
      && fields[16 + |FlowVariant(doc, flow, pt).value.middle|] == Salt(doc, flow)
  {
    var slots := Layout(doc, flow, pt).value;
    var v := FlowVariant(doc, flow, pt).value;
    var c := GetCredentials(doc, flow);
    LayoutOf(doc, flow, pt, v);
    JoinSplit(Values(slots), '|');
    LayoutValues(HeadSlots(c.key, CoreValues(doc, GetFlowPrefix(flow)), ResolveUdfs(doc, flow, pt)), v.middle, c.salt, v.tail);
  }

  /** Where the empty fields and the salt sit among the values of a layout. */
  lemma LayoutValues(head: seq<Slot>, middle: seq<Slot>, salt: string, tail: seq<Slot>)
    requires |head| == 11
    ensures var vs := Values(head + EmptySlots + middle + [Slot("SALT", salt)] + tail);
      && |vs| >= 17
      && vs[11..16] == ["", "", "", "", ""]
      && vs[16 + |middle|] == salt
  {
    var slots := head + EmptySlots + middle + [Slot("SALT", salt)] + tail;
    var vs := Values(slots);
    assert vs[11..16] == ["", "", "", "", ""] by {
      forall k | 11 <= k < 16 ensures vs[k] == "" { assert slots[k] == EmptySlots[k - 11]; }
    }
    assert slots[16 + |middle|] == Slot("SALT", salt);
  }
}
