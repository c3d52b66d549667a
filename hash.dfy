/** generateHash (utils.js:625-747): the pipe-separated text that is hashed
    for each flow, the formula shown beside it, and the SI or beneficiary
    text written back to the page. The hash text is specified as a list of
    named fields; the method builds the text by concatenation, branch by
    branch, and is proved to produce exactly the fields joined with '|'. */
module Hash {
  import opened Base
  import opened Json
  import opened State
  import opened Config
  import opened Utils
  import opened SplitPayment
  import opened BankOffer

  /** One field of the hash text: the name the formula shows for it and the
      value that is hashed. */
  datatype Slot = Slot(name: string, value: string)

  function Names(slots: seq<Slot>): seq<string>
  {
    seq(|slots|, i requires 0 <= i < |slots| => slots[i].name)
  }

  function Values(slots: seq<Slot>): seq<string>
  {
    seq(|slots|, i requires 0 <= i < |slots| => slots[i].value)
  }

  /** Why generateHash throws: a required element is missing, or the split
      request could not be built. */
  datatype HashError = MissingElement(id: string) | SplitRequestFailed

  /** The object generateHash returns. */
  datatype HashData = HashData(
    hash: string,
    hashString: string,
    hashFormula: string,
    siDetails: string,
    splitRequest: string,
    udfs: seq<string>,
    credentials: Credentials)

  // ---------------------------------------------------------------------------
  // The fields (utils.js:629-725)
  // ---------------------------------------------------------------------------

  /** The first of the five required inputs that is missing from the page,
      in the order the source reads them. */
  function MissingCore(doc: Doc, prefix: string): (r: Option<string>)
    ensures r.None? <==>
      && prefix + "_txnid" in doc.values && prefix + "_amount" in doc.values
      && prefix + "_productinfo" in doc.values && prefix + "_firstname" in doc.values
      && prefix + "_email" in doc.values
    ensures r.Some? ==> r.value !in doc.values
  {
    if prefix + "_txnid" !in doc.values then Some(prefix + "_txnid")
    else if prefix + "_amount" !in doc.values then Some(prefix + "_amount")
    else if prefix + "_productinfo" !in doc.values then Some(prefix + "_productinfo")
    else if prefix + "_firstname" !in doc.values then Some(prefix + "_firstname")
    else if prefix + "_email" !in doc.values then Some(prefix + "_email")
    else None
  }

  /** The five required inputs: txnid, amount, productinfo, firstname, email. */
  function CoreValues(doc: Doc, prefix: string): (core: seq<string>)
    requires MissingCore(doc, prefix).None?
  {
    [doc.values[prefix + "_txnid"], doc.values[prefix + "_amount"], doc.values[prefix + "_productinfo"],
     doc.values[prefix + "_firstname"], doc.values[prefix + "_email"]]
  }

  /** The eleven fields every layout starts with. */
  function HeadSlots(key: string, core: seq<string>, udfs: seq<string>): seq<Slot>
    requires |core| == 5 && |udfs| == 5
  {
    [Slot("key", key), Slot("txnid", core[0]), Slot("amount", core[1]), Slot("productinfo", core[2]),
     Slot("firstname", core[3]), Slot("email", core[4]), Slot("udf1", udfs[0]), Slot("udf2", udfs[1]),
     Slot("udf3", udfs[2]), Slot("udf4", udfs[3]), Slot("udf5", udfs[4])]
  }

  /** The five empty fields after udf5, without a name in the formula. */
  const EmptySlots: seq<Slot> := [Slot("", ""), Slot("", ""), Slot("", ""), Slot("", ""), Slot("", "")]

  /** `document.getElementById('cb_buyer_type')?.value` as string
      concatenation writes it: a missing element gives "undefined". */
  function BuyerText(doc: Doc): string
  {
    match Value(doc, "cb_buyer_type")
    case Some(v) => v
    case None => "undefined"
  }

  /** The buyer-type field after the salt, present unless the element
      exists with an empty value (`buyerTypeBusiness !== ''`). */
  function BuyerTail(doc: Doc): seq<Slot>
  {
    if Value(doc, "cb_buyer_type") != Some("") then [Slot("buyer_type_business", BuyerText(doc))] else []
  }

  /** `if (cartDetails)`: a cart text exists and is not empty. */
  predicate CartGiven(doc: Doc)
  {
    BuildBankOfferCartDetails(doc).Some? && BuildBankOfferCartDetails(doc).value != ""
  }

  /** What differs between flows: the fields between the empty ones and the
      salt, the fields after the salt, the `siDetails` text reported, and the
      element that receives a JSON text. */
  datatype Variant = Variant(middle: seq<Slot>, tail: seq<Slot>, siDetails: string, write: Option<(string, string)>)

  /** Cross-border subscription (utils.js:662-673): the SI details before
      the salt, the buyer type after it. */
  function CrossBorderSubscriptionPart(doc: Doc): Result<Variant, HashError>
  {
    var si := Serialize(SubscriptionSiDetails(doc, "cb"));
    if "cb_si_details" !in doc.values then Err(MissingElement("cb_si_details"))
    else Ok(Variant([Slot("si_details", si)], BuyerTail(doc), si, Some(("cb_si_details", si))))
  }

  /** Subscription (utils.js:674-678): the SI details before the salt. */
  function SubscriptionPart(doc: Doc): Result<Variant, HashError>
  {
    var si := Serialize(SubscriptionSiDetails(doc, "sub"));
    if "sub_si_details" !in doc.values then Err(MissingElement("sub_si_details"))
    else Ok(Variant([Slot("si_details", si)], [], si, Some(("sub_si_details", si))))
  }

  /** Cross-border one-time payment (utils.js:679-687): the buyer type after the salt. */
  function CrossBorderPart(doc: Doc): Result<Variant, HashError>
  {
    Ok(Variant([], BuyerTail(doc), "", None))
  }

  /** TPV (utils.js:688-692): the beneficiary detail before the salt; it is
      not reported as SI details. */
  function TpvPart(doc: Doc): Result<Variant, HashError>
  {
    var bd := Serialize(BeneficiaryDetail(doc));
    if "tpv_beneficiarydetail" !in doc.values then Err(MissingElement("tpv_beneficiarydetail"))
    else Ok(Variant([Slot("beneficiarydetail", bd)], [], "", Some(("tpv_beneficiarydetail", bd))))
  }

  /** UPI OTM (utils.js:693-697): the SI details before the salt. */
  function UpiOtmPart(doc: Doc): Result<Variant, HashError>
  {
    var si := Serialize(UpiOtmSiDetails(doc));
    if "upi_si_details" !in doc.values then Err(MissingElement("upi_si_details"))
    else Ok(Variant([Slot("si_details", si)], [], si, Some(("upi_si_details", si))))
  }

  /** Split payment (utils.js:698-705): the split request after the salt, or
      an error when there is none. */
  function SplitPart(doc: Doc): Result<Variant, HashError>
  {
    match SplitRequestText(doc)
    case None => Err(SplitRequestFailed)
    case Some(j) => Ok(Variant([], [Slot("splitRequest", j)], j, None))
  }

  /** Bank offer (utils.js:706-720): with a cart, six fields before the salt;
      without one, the standard layout. */
  function BankOfferPart(doc: Doc): Result<Variant, HashError>
  {
    if CartGiven(doc) then
      Ok(Variant([Slot("user_token", TrimmedOrEmpty(doc, "bo_user_token")),
                  Slot("offer_key", TrimmedOrEmpty(doc, "bo_offer_key")),
                  Slot("offer_auto_apply", ""),
                  Slot("cart_details", BuildBankOfferCartDetails(doc).value),
                  Slot("extra_charges", ""),
                  Slot("phone", ValueOr(doc, "bo_phone", ""))], [], "", None))
    else StandardPart
  }

  /** Every other flow (utils.js:721-725): nothing but the salt. */
  const StandardPart: Result<Variant, HashError> := Ok(Variant([], [], "", None))

  /** The flow-specific part of the layout (utils.js:662-725). */
  function FlowVariant(doc: Doc, flow: string, paymentType: string): Result<Variant, HashError>
  {
    if flow == "crossborder" && paymentType == "subscription" then CrossBorderSubscriptionPart(doc)
    else if flow == "subscription" then SubscriptionPart(doc)
    else if flow == "crossborder" then CrossBorderPart(doc)
    else if flow == "tpv" then TpvPart(doc)
    else if flow == "upiotm" then UpiOtmPart(doc)
    else if flow == "split" then SplitPart(doc)
    else if flow == "bankoffer" then BankOfferPart(doc)
    else StandardPart
  }

  /** The elements a layout may write its JSON text into. */
  const WriteIds: set<string> := {"cb_si_details", "sub_si_details", "tpv_beneficiarydetail", "upi_si_details"}

  /** Every flow writes, if at all, into one of the JSON elements. */
  lemma VariantWriteIds(doc: Doc, flow: string, pt: string)
    requires FlowVariant(doc, flow, pt).Ok? && FlowVariant(doc, flow, pt).value.write.Some?
    ensures FlowVariant(doc, flow, pt).value.write.value.0 in WriteIds
  {
  }

  /** The whole layout: the eleven head fields, five empty ones, the
      flow's middle fields, the salt and the flow's tail fields. */
  function Layout(doc: Doc, flow: string, paymentType: string): Result<seq<Slot>, HashError>
  {
    var prefix := GetFlowPrefix(flow);
    var credentials := GetCredentials(doc, flow);
    match MissingCore(doc, prefix)
    case Some(id) => Err(MissingElement(id))
    case None =>
      match FlowVariant(doc, flow, paymentType)
      case Err(e) => Err(e)
      case Ok(v) =>
        Ok(HeadSlots(credentials.key, CoreValues(doc, prefix), ResolveUdfs(doc, flow, paymentType))
           + EmptySlots + v.middle + [Slot("SALT", credentials.salt)] + v.tail)
  }

  /** The text that is hashed: the field values separated by '|'. */
  function HashText(slots: seq<Slot>): string
  {
    Join(Values(slots), "|")
  }

  /** The formula shown for a layout: the field names separated by '|'. */
  function FormulaText(slots: seq<Slot>): string
  {
    "SHA512(" + Join(Names(slots), "|") + ")"
  }

  /** generateHash's result as a value, for a given SHA-512. */
  function HashOutcome(doc: Doc, flow: string, paymentType: string, sha512: string -> string): Result<HashData, HashError>
  {
    match Layout(doc, flow, paymentType)
    case Err(e) => Err(e)
    case Ok(slots) =>
      var v := FlowVariant(doc, flow, paymentType).value;
      var text := HashText(slots);
      Ok(HashData(sha512(text), text, FormulaText(slots), v.siDetails,
                  if flow == "split" then v.siDetails else "",
                  ResolveUdfs(doc, flow, paymentType), GetCredentials(doc, flow)))
  }

  /** The page after generateHash: the flow's JSON element holds the JSON
      text when the hash succeeds; nothing changes when it throws. */
  function HashWrites(doc: Doc, flow: string, paymentType: string): Doc
  {
    if MissingCore(doc, GetFlowPrefix(flow)).Some? then doc
    else
      match FlowVariant(doc, flow, paymentType)
      case Err(_) => doc
      case Ok(v) =>
        match v.write
        case None => doc
        case Some(w) => SetValue(doc, w.0, w.1)
  }

  // ---------------------------------------------------------------------------
  // Joining fields, from the left
  // ---------------------------------------------------------------------------

  /** `acc` followed by the parts, each after a '|' but the first. */
  function Pipe(acc: string, rest: seq<string>): string
    decreases |rest|
  {
    if |rest| == 0 then acc
    else if |rest| == 1 then acc + rest[0]
    else Pipe(acc, rest[..|rest| - 1]) + "|" + rest[|rest| - 1]
  }

  lemma JoinSnoc(p: seq<string>, x: string)
    requires |p| > 0
    ensures Join(p + [x], "|") == Join(p, "|") + "|" + x
  {
    JoinAppend(p, [x], "|");
  }

  /** Joining more parts onto a joined prefix. */
  lemma {:induction false} JoinPipe(p: seq<string>, rest: seq<string>)
    requires |p| > 0 && |rest| > 0
    ensures Join(p + rest, "|") == Pipe(Join(p, "|") + "|", rest)
    decreases |rest|
  {
    if |rest| == 1 {
      assert rest == [rest[0]];
      JoinSnoc(p, rest[0]);
    } else {
      var front := rest[..|rest| - 1];
      JoinPipe(p, front);
      assert p + rest == (p + front) + [rest[|rest| - 1]];
      JoinSnoc(p + front, rest[|rest| - 1]);
    }
  }

  const Blank5: seq<string> := ["", "", "", "", ""]

  /** The head of every layout written left to right as the source writes it. */
  lemma JoinHead(h: seq<string>)
    requires |h| == 11
    ensures Join(h + Blank5, "|") + "|"
      == h[0] + "|" + h[1] + "|" + h[2] + "|" + h[3] + "|" + h[4] + "|" + h[5] + "|"
         + h[6] + "|" + h[7] + "|" + h[8] + "|" + h[9] + "|" + h[10] + "||||||"
  {
    var r := h[1..] + Blank5;
    JoinPipe([h[0]], r);
    assert [h[0]] + r == h + Blank5;
    var acc := h[0] + "|";
    PipeTen(acc, r);
    PipeStep(acc, r, 10); PipeStep(acc, r, 11); PipeStep(acc, r, 12); PipeStep(acc, r, 13); PipeStep(acc, r, 14);
    assert r[..15] == r;
    assert r[..10] == h[1..];
    assert r[10] == r[11] == r[12] == r[13] == r[14] == "";
    Bars(h[0] + "|" + h[1] + "|" + h[2] + "|" + h[3] + "|" + h[4] + "|" + h[5] + "|"
         + h[6] + "|" + h[7] + "|" + h[8] + "|" + h[9] + "|" + h[10]);
  }

  /** The first ten parts of `r` joined from the left. */
  lemma PipeTen(acc: string, r: seq<string>)
    requires |r| >= 10
    ensures Pipe(acc, r[..10])
      == acc + r[0] + "|" + r[1] + "|" + r[2] + "|" + r[3] + "|" + r[4] + "|" + r[5] + "|"
         + r[6] + "|" + r[7] + "|" + r[8] + "|" + r[9]
  {
    assert Pipe(acc, r[..1]) == acc + r[0];
    PipeStep(acc, r, 1); PipeStep(acc, r, 2); PipeStep(acc, r, 3); PipeStep(acc, r, 4); PipeStep(acc, r, 5);
    PipeStep(acc, r, 6); PipeStep(acc, r, 7); PipeStep(acc, r, 8); PipeStep(acc, r, 9);
  }

  /** One more part of `r` joined from the left. */
  lemma PipeStep(acc: string, r: seq<string>, k: nat)
    requires 0 < k < |r|
    ensures Pipe(acc, r[..k + 1]) == Pipe(acc, r[..k]) + "|" + r[k]
  {
    assert r[..k + 1][..k] == r[..k];
  }

  /** Five empty parts and a closing bar are six bars. */
  lemma Bars(x: string)
    ensures x + "|" + "" + "|" + "" + "|" + "" + "|" + "" + "|" + "" + "|" == x + "||||||"
  {
  }

  /** Joining one more part onto a left-to-right text. */
  lemma PipeSnoc(acc: string, rest: seq<string>, x: string)
    requires |rest| > 0
    ensures Pipe(acc, rest + [x]) == Pipe(acc, rest) + "|" + x
  {
    assert (rest + [x])[..|rest|] == rest;
  }

  /** The names of the head fields and of the five empty ones. */
  const HeadNames: seq<string> :=
    ["key", "txnid", "amount", "productinfo", "firstname", "email", "udf1", "udf2", "udf3", "udf4", "udf5",
     "", "", "", "", ""]

  /** The text and the formula of a layout, written left to right. */
  lemma LayoutText(key: string, core: seq<string>, udfs: seq<string>, rest: seq<Slot>)
    requires |core| == 5 && |udfs| == 5 && |rest| > 0
    ensures HashText(HeadSlots(key, core, udfs) + EmptySlots + rest)
      == Pipe(key + "|" + core[0] + "|" + core[1] + "|" + core[2] + "|" + core[3] + "|" + core[4] + "|"
              + udfs[0] + "|" + udfs[1] + "|" + udfs[2] + "|" + udfs[3] + "|" + udfs[4] + "||||||", Values(rest))
    ensures FormulaText(HeadSlots(key, core, udfs) + EmptySlots + rest) == "SHA512(" + Join(HeadNames + Names(rest), "|") + ")"
  {
    var h := HeadSlots(key, core, udfs);
    var vs := Values(h);
    assert Values(h + EmptySlots + rest) == (vs + Blank5) + Values(rest);
    assert Names(h + EmptySlots + rest) == HeadNames + Names(rest);
    JoinPipe(vs + Blank5, Values(rest));
    JoinHead(vs);
  }

  lemma Fields1(acc: string, x: Slot)
    ensures Pipe(acc, Values([x])) == acc + x.value
    ensures Names([x]) == [x.name]
  {
    assert Values([x]) == [x.value];
  }

  lemma Fields2(acc: string, x: Slot, y: Slot)
    ensures Pipe(acc, Values([x, y])) == acc + x.value + "|" + y.value
    ensures Names([x, y]) == [x.name, y.name]
  {
    assert Values([x, y]) == [x.value] + [y.value];
    PipeSnoc(acc, [x.value], y.value);
  }

  lemma Fields3(acc: string, x: Slot, y: Slot, z: Slot)
    ensures Pipe(acc, Values([x, y, z])) == acc + x.value + "|" + y.value + "|" + z.value
    ensures Names([x, y, z]) == [x.name, y.name, z.name]
  {
    assert Values([x, y, z]) == Values([x, y]) + [z.value];
    Fields2(acc, x, y);
    PipeSnoc(acc, Values([x, y]), z.value);
  }

  lemma Fields7(acc: string, s: seq<Slot>)
    requires |s| == 7
    ensures Pipe(acc, Values(s)) == acc + s[0].value + "|" + s[1].value + "|" + s[2].value + "|" + s[3].value
      + "|" + s[4].value + "|" + s[5].value + "|" + s[6].value
    ensures Names(s) == [s[0].name, s[1].name, s[2].name, s[3].name, s[4].name, s[5].name, s[6].name]
  {
    var vs := Values(s);
    Fields3(acc, s[0], s[1], s[2]);
    assert vs[..3] == Values([s[0], s[1], s[2]]);
    PipeSnoc(acc, vs[..3], vs[3]);
    assert vs[..4] == vs[..3] + [vs[3]];
    PipeSnoc(acc, vs[..4], vs[4]);
    assert vs[..5] == vs[..4] + [vs[4]];
    PipeSnoc(acc, vs[..5], vs[5]);
    assert vs[..6] == vs[..5] + [vs[5]];
    PipeSnoc(acc, vs[..6], vs[6]);
    assert vs == vs[..6] + [vs[6]];
  }

  /** What each branch of generateHash establishes: the flow's variant, the
      fields after the head, the page after the write, and the texts. */
  ghost predicate Built(doc: Doc, flow: string, pt: string, v: Variant, rest: seq<Slot>, salt: string, doc': Doc,
                        head: string, hashString: string, hashFormula: string, siDetails: string)
  {
    && FlowVariant(doc, flow, pt) == Ok(v)
    && rest == v.middle + [Slot("SALT", salt)] + v.tail
    && doc' == (match v.write case None => doc case Some(w) => SetValue(doc, w.0, w.1))
    && siDetails == v.siDetails
    && hashString == Pipe(head, Values(rest))
    && hashFormula == "SHA512(" + Join(HeadNames + Names(rest), "|") + ")"
  }

  /** A missing required input: generateHash throws before writing anything. */
  lemma CoreMissing(doc: Doc, flow: string, pt: string, sha512: string -> string)
    requires MissingCore(doc, GetFlowPrefix(flow)).Some?
    ensures HashOutcome(doc, flow, pt, sha512) == Err(MissingElement(MissingCore(doc, GetFlowPrefix(flow)).value))
    ensures HashWrites(doc, flow, pt) == doc
  {
  }

  /** A flow part that fails: generateHash throws that error and the page is unchanged. */
  lemma PartFails(doc: Doc, flow: string, pt: string, sha512: string -> string)
    requires MissingCore(doc, GetFlowPrefix(flow)).None?
    requires FlowVariant(doc, flow, pt).Err?
    ensures HashOutcome(doc, flow, pt, sha512) == Err(FlowVariant(doc, flow, pt).error)
    ensures HashWrites(doc, flow, pt) == doc
  {
  }

  /** A finished branch gives generateHash's specified result and page. */
  lemma Assemble(doc: Doc, flow: string, pt: string, sha512: string -> string, v: Variant, rest: seq<Slot>, doc': Doc,
                 head: string, hashString: string, hashFormula: string, siDetails: string)
    requires MissingCore(doc, GetFlowPrefix(flow)).None?
    requires var core := CoreValues(doc, GetFlowPrefix(flow));
      var udfs := ResolveUdfs(doc, flow, pt);
      var c := GetCredentials(doc, flow);
      head == c.key + "|" + core[0] + "|" + core[1] + "|" + core[2] + "|" + core[3] + "|" + core[4] + "|"
              + udfs[0] + "|" + udfs[1] + "|" + udfs[2] + "|" + udfs[3] + "|" + udfs[4] + "||||||"
    requires Built(doc, flow, pt, v, rest, GetCredentials(doc, flow).salt, doc', head, hashString, hashFormula, siDetails)
    ensures HashOutcome(doc, flow, pt, sha512)
      == Ok(HashData(sha512(hashString), hashString, hashFormula, siDetails, if flow == "split" then siDetails else "",
                     ResolveUdfs(doc, flow, pt), GetCredentials(doc, flow)))
    ensures HashWrites(doc, flow, pt) == doc'
  {
    var c := GetCredentials(doc, flow);
    var core := CoreValues(doc, GetFlowPrefix(flow));
    var udfs := ResolveUdfs(doc, flow, pt);
    var h := HeadSlots(c.key, core, udfs) + EmptySlots;
    LayoutOf(doc, flow, pt, v);
    SlotsAppend(h, v.middle, Slot("SALT", c.salt), v.tail);
    LayoutText(c.key, core, udfs, rest);
  }

  lemma SlotsAppend(h: seq<Slot>, m: seq<Slot>, s: Slot, t: seq<Slot>)
    ensures h + m + [s] + t == h + (m + [s] + t)
  {
  }

  /** The layout once the required inputs are present and the flow's part is known. */
  lemma LayoutOf(doc: Doc, flow: string, pt: string, v: Variant)
    requires MissingCore(doc, GetFlowPrefix(flow)).None?
    requires FlowVariant(doc, flow, pt) == Ok(v)
    ensures Layout(doc, flow, pt)
      == Ok(HeadSlots(GetCredentials(doc, flow).key, CoreValues(doc, GetFlowPrefix(flow)), ResolveUdfs(doc, flow, pt))
            + EmptySlots + v.middle + [Slot("SALT", GetCredentials(doc, flow).salt)] + v.tail)
  {
  }

  // Each branch of generateHash, from its inputs to what it establishes.

  lemma CrossBorderSubscriptionBranch(doc: Doc, flow: string, pt: string, head: string, salt: string, hs: string, hf: string)
    returns (v: Variant, rest: seq<Slot>)
    requires flow == "crossborder" && pt == "subscription" && "cb_si_details" in doc.values
    requires var si := Serialize(SubscriptionSiDetails(doc, "cb"));
      if Value(doc, "cb_buyer_type") != Some("") then
        hs == head + si + "|" + salt + "|" + BuyerText(doc)
        && hf == "SHA512(" + Join(HeadNames + ["si_details", "SALT", "buyer_type_business"], "|") + ")"
      else
        hs == head + si + "|" + salt && hf == "SHA512(" + Join(HeadNames + ["si_details", "SALT"], "|") + ")"
    ensures var si := Serialize(SubscriptionSiDetails(doc, "cb"));
      Built(doc, flow, pt, v, rest, salt, SetValue(doc, "cb_si_details", si), head, hs, hf, si)
  {
    var si := Serialize(SubscriptionSiDetails(doc, "cb"));
    v := Variant([Slot("si_details", si)], BuyerTail(doc), si, Some(("cb_si_details", si)));
    rest := v.middle + [Slot("SALT", salt)] + v.tail;
    if Value(doc, "cb_buyer_type") != Some("") {
      assert rest == [Slot("si_details", si), Slot("SALT", salt), Slot("buyer_type_business", BuyerText(doc))];
      Fields3(head, rest[0], rest[1], rest[2]);
    } else {
      assert rest == [Slot("si_details", si), Slot("SALT", salt)];
      Fields2(head, rest[0], rest[1]);
    }
  }

  lemma SubscriptionBranch(doc: Doc, flow: string, pt: string, head: string, salt: string, hs: string, hf: string)
    returns (v: Variant, rest: seq<Slot>)
    requires flow == "subscription" && "sub_si_details" in doc.values
    requires hs == head + Serialize(SubscriptionSiDetails(doc, "sub")) + "|" + salt
    requires hf == "SHA512(" + Join(HeadNames + ["si_details", "SALT"], "|") + ")"
    ensures var si := Serialize(SubscriptionSiDetails(doc, "sub"));
      Built(doc, flow, pt, v, rest, salt, SetValue(doc, "sub_si_details", si), head, hs, hf, si)
  {
    var si := Serialize(SubscriptionSiDetails(doc, "sub"));
    v := Variant([Slot("si_details", si)], [], si, Some(("sub_si_details", si)));
    rest := [Slot("si_details", si), Slot("SALT", salt)];
    Fields2(head, rest[0], rest[1]);
  }

  lemma CrossBorderBranch(doc: Doc, flow: string, pt: string, head: string, salt: string, hs: string, hf: string)
    returns (v: Variant, rest: seq<Slot>)
    requires flow == "crossborder" && pt != "subscription"
    requires
      if Value(doc, "cb_buyer_type") != Some("") then
        hs == head + salt + "|" + BuyerText(doc)
        && hf == "SHA512(" + Join(HeadNames + ["SALT", "buyer_type_business"], "|") + ")"
      else
        hs == head + salt && hf == "SHA512(" + Join(HeadNames + ["SALT"], "|") + ")"
    ensures Built(doc, flow, pt, v, rest, salt, doc, head, hs, hf, "")
  {
    v := Variant([], BuyerTail(doc), "", None);
    rest := v.middle + [Slot("SALT", salt)] + v.tail;
    if Value(doc, "cb_buyer_type") != Some("") {
      assert rest == [Slot("SALT", salt), Slot("buyer_type_business", BuyerText(doc))];
      Fields2(head, rest[0], rest[1]);
    } else {
      assert rest == [Slot("SALT", salt)];
      Fields1(head, rest[0]);
    }
  }

  lemma TpvBranch(doc: Doc, flow: string, pt: string, head: string, salt: string, hs: string, hf: string)
    returns (v: Variant, rest: seq<Slot>)
    requires flow == "tpv" && "tpv_beneficiarydetail" in doc.values
    requires hs == head + Serialize(BeneficiaryDetail(doc)) + "|" + salt
    requires hf == "SHA512(" + Join(HeadNames + ["beneficiarydetail", "SALT"], "|") + ")"
    ensures var bd := Serialize(BeneficiaryDetail(doc));
      Built(doc, flow, pt, v, rest, salt, SetValue(doc, "tpv_beneficiarydetail", bd), head, hs, hf, "")
  {
    var bd := Serialize(BeneficiaryDetail(doc));
    v := Variant([Slot("beneficiarydetail", bd)], [], "", Some(("tpv_beneficiarydetail", bd)));
    rest := [Slot("beneficiarydetail", bd), Slot("SALT", salt)];
    Fields2(head, rest[0], rest[1]);
  }

  lemma UpiOtmBranch(doc: Doc, flow: string, pt: string, head: string, salt: string, hs: string, hf: string)
    returns (v: Variant, rest: seq<Slot>)
    requires flow == "upiotm" && "upi_si_details" in doc.values
    requires hs == head + Serialize(UpiOtmSiDetails(doc)) + "|" + salt
    requires hf == "SHA512(" + Join(HeadNames + ["si_details", "SALT"], "|") + ")"
    ensures var si := Serialize(UpiOtmSiDetails(doc));
      Built(doc, flow, pt, v, rest, salt, SetValue(doc, "upi_si_details", si), head, hs, hf, si)
  {
    var si := Serialize(UpiOtmSiDetails(doc));
    v := Variant([Slot("si_details", si)], [], si, Some(("upi_si_details", si)));
    rest := [Slot("si_details", si), Slot("SALT", salt)];
    Fields2(head, rest[0], rest[1]);
  }

  lemma SplitBranch(doc: Doc, flow: string, pt: string, head: string, salt: string, hs: string, hf: string, j: string)
    returns (v: Variant, rest: seq<Slot>)
    requires flow == "split" && SplitRequestText(doc) == Some(j)
    requires hs == head + salt + "|" + j
    requires hf == "SHA512(" + Join(HeadNames + ["SALT", "splitRequest"], "|") + ")"
    ensures Built(doc, flow, pt, v, rest, salt, doc, head, hs, hf, j)
  {
    v := Variant([], [Slot("splitRequest", j)], j, None);
    rest := [Slot("SALT", salt), Slot("splitRequest", j)];
    Fields2(head, rest[0], rest[1]);
  }

  lemma BankOfferBranch(doc: Doc, flow: string, pt: string, head: string, salt: string, hs: string, hf: string)
    returns (v: Variant, rest: seq<Slot>)
    requires flow == "bankoffer" && CartGiven(doc)
    requires hs == head + TrimmedOrEmpty(doc, "bo_user_token") + "|" + TrimmedOrEmpty(doc, "bo_offer_key") + "|" + "" + "|"
      + BuildBankOfferCartDetails(doc).value + "|" + "" + "|" + ValueOr(doc, "bo_phone", "") + "|" + salt
    requires hf == "SHA512(" + Join(HeadNames + ["user_token", "offer_key", "offer_auto_apply", "cart_details", "extra_charges", "phone", "SALT"], "|") + ")"
    ensures Built(doc, flow, pt, v, rest, salt, doc, head, hs, hf, "")
  {
    v := BankOfferPart(doc).value;
    rest := v.middle + [Slot("SALT", salt)];
    Fields7(head, rest);
  }

  lemma StandardBranch(doc: Doc, flow: string, pt: string, head: string, salt: string, hs: string, hf: string)
    returns (v: Variant, rest: seq<Slot>)
    requires flow !in {"crossborder", "subscription", "tpv", "upiotm", "split"}
    requires flow == "bankoffer" ==> !CartGiven(doc)
    requires hs == head + salt && hf == "SHA512(" + Join(HeadNames + ["SALT"], "|") + ")"
    ensures Built(doc, flow, pt, v, rest, salt, doc, head, hs, hf, "")
  {
    v := StandardPart.value;
    rest := [Slot("SALT", salt)];
    Fields1(head, rest[0]);
  }

  // ---------------------------------------------------------------------------
  // generateHash (utils.js:625-747)
  // ---------------------------------------------------------------------------

  /** The branch of generateHash that follows the eleven head fields and six
      bars (utils.js:661-725): the hash text and formula, the `siDetails`
      text, and the write of the flow's JSON element; or the error thrown.
      `head` is the text up to and including the six bars. */
  method FlowSection(app: App, flow: string, head: string, salt: string)
    returns (r: Result<(string, string, string), HashError>, ghost v: Variant, ghost rest: seq<Slot>)
    modifies app
    ensures r.Err? ==> FlowVariant(old(app.doc), flow, old(app.currentPaymentType)) == Err(r.error) && app.doc == old(app.doc)
    ensures r.Ok? ==> Built(old(app.doc), flow, old(app.currentPaymentType), v, rest, salt, app.doc, head,
                            r.value.0, r.value.1, r.value.2)
    ensures GlobalsUnchanged(app)
  {
    ghost var doc := app.doc;
    ghost var pt := app.currentPaymentType;
    v, rest := StandardPart.value, [];
    var hashString := "";
    var hashFormula := "";
    var siDetailsJson := "";
    if flow == "crossborder" && app.currentPaymentType == "subscription" {
      siDetailsJson := Serialize(SubscriptionSiDetails(app.doc, "cb"));
      if "cb_si_details" !in app.doc.values {
        r := Err(MissingElement("cb_si_details"));
        return;
      }
      app.doc := SetValue(app.doc, "cb_si_details", siDetailsJson);
      var buyerTypeBusiness := Value(app.doc, "cb_buyer_type");
      assert buyerTypeBusiness == Value(doc, "cb_buyer_type");
      var buyerText := match buyerTypeBusiness case Some(b) => b case None => "undefined";
      if buyerTypeBusiness != Some("") {
        hashString := head + siDetailsJson + "|" + salt + "|" + buyerText;
        hashFormula := "SHA512(" + Join(HeadNames + ["si_details", "SALT", "buyer_type_business"], "|") + ")";
      } else {
        hashString := head + siDetailsJson + "|" + salt;
        hashFormula := "SHA512(" + Join(HeadNames + ["si_details", "SALT"], "|") + ")";
      }
      v, rest := CrossBorderSubscriptionBranch(doc, flow, pt, head, salt, hashString, hashFormula);
    } else if flow == "subscription" {
      siDetailsJson := Serialize(SubscriptionSiDetails(app.doc, "sub"));
      if "sub_si_details" !in app.doc.values {
        r := Err(MissingElement("sub_si_details"));
        return;
      }
      app.doc := SetValue(app.doc, "sub_si_details", siDetailsJson);
      hashString := head + siDetailsJson + "|" + salt;
      hashFormula := "SHA512(" + Join(HeadNames + ["si_details", "SALT"], "|") + ")";
      v, rest := SubscriptionBranch(doc, flow, pt, head, salt, hashString, hashFormula);
    } else if flow == "crossborder" {
      var buyerTypeBusiness := Value(app.doc, "cb_buyer_type");
      var buyerText := match buyerTypeBusiness case Some(b) => b case None => "undefined";
      if buyerTypeBusiness != Some("") {
        hashString := head + salt + "|" + buyerText;
        hashFormula := "SHA512(" + Join(HeadNames + ["SALT", "buyer_type_business"], "|") + ")";
      } else {
        hashString := head + salt;
        hashFormula := "SHA512(" + Join(HeadNames + ["SALT"], "|") + ")";
      }
      v, rest := CrossBorderBranch(doc, flow, pt, head, salt, hashString, hashFormula);
    } else if flow == "tpv" {
      var beneficiaryDetail := Serialize(BeneficiaryDetail(app.doc));
      if "tpv_beneficiarydetail" !in app.doc.values {
        r := Err(MissingElement("tpv_beneficiarydetail"));
        return;
      }
      app.doc := SetValue(app.doc, "tpv_beneficiarydetail", beneficiaryDetail);
      hashString := head + beneficiaryDetail + "|" + salt;
      hashFormula := "SHA512(" + Join(HeadNames + ["beneficiarydetail", "SALT"], "|") + ")";
      v, rest := TpvBranch(doc, flow, pt, head, salt, hashString, hashFormula);
    } else if flow == "upiotm" {
      siDetailsJson := Serialize(UpiOtmSiDetails(app.doc));
      if "upi_si_details" !in app.doc.values {
        r := Err(MissingElement("upi_si_details"));
        return;
      }
      app.doc := SetValue(app.doc, "upi_si_details", siDetailsJson);
      hashString := head + siDetailsJson + "|" + salt;
      hashFormula := "SHA512(" + Join(HeadNames + ["si_details", "SALT"], "|") + ")";
      v, rest := UpiOtmBranch(doc, flow, pt, head, salt, hashString, hashFormula);
    } else if flow == "split" {
      var splitRequestJson := BuildSplitRequestJson(app.doc);
      if splitRequestJson.None? {
        r := Err(SplitRequestFailed);
        return;
      }
      siDetailsJson := splitRequestJson.value;
      hashString := head + salt + "|" + siDetailsJson;
      hashFormula := "SHA512(" + Join(HeadNames + ["SALT", "splitRequest"], "|") + ")";
      v, rest := SplitBranch(doc, flow, pt, head, salt, hashString, hashFormula, siDetailsJson);
    } else if flow == "bankoffer" {
      var cartDetails := BuildBankOfferCartDetails(app.doc);
      var phone := ValueOr(app.doc, "bo_phone", "");
      var offerKey := TrimmedOrEmpty(app.doc, "bo_offer_key");
      var userToken := TrimmedOrEmpty(app.doc, "bo_user_token");
      if cartDetails.Some? && cartDetails.value != "" {
        var offerAutoApply := "";
        var extraCharges := "";
        hashString := head + userToken + "|" + offerKey + "|" + offerAutoApply + "|" + cartDetails.value + "|" + extraCharges + "|" + phone + "|" + salt;
        hashFormula := "SHA512(" + Join(HeadNames + ["user_token", "offer_key", "offer_auto_apply", "cart_details", "extra_charges", "phone", "SALT"], "|") + ")";
        v, rest := BankOfferBranch(doc, flow, pt, head, salt, hashString, hashFormula);
      } else {
        hashString := head + salt;
        hashFormula := "SHA512(" + Join(HeadNames + ["SALT"], "|") + ")";
        v, rest := StandardBranch(doc, flow, pt, head, salt, hashString, hashFormula);
      }
    } else {
      // standard hash for nonseamless, preauth, checkoutplus
      hashString := head + salt;
      hashFormula := "SHA512(" + Join(HeadNames + ["SALT"], "|") + ")";
      v, rest := StandardBranch(doc, flow, pt, head, salt, hashString, hashFormula);
    }
    r := Ok((hashString, hashFormula, siDetailsJson));
  }

  /** `generateHash(flow)` with `CryptoJS.SHA512` given as `sha512`: the hash
      data, or the error it throws; the flow's JSON element receives the
      text that was hashed. The formulas are written as their lists of
      field names joined with '|'. */
  method GenerateHash(app: App, flow: string, sha512: string -> string) returns (r: Result<HashData, HashError>)
    modifies app
    ensures r == HashOutcome(old(app.doc), flow, old(app.currentPaymentType), sha512)
    ensures app.doc == HashWrites(old(app.doc), flow, old(app.currentPaymentType))
    ensures GlobalsUnchanged(app)
  {
    var prefix := GetFlowPrefix(flow);
    var credentials := GetCredentials(app.doc, flow);
    if MissingCore(app.doc, prefix).Some? {
      // reading `.value` of the first missing element throws
      CoreMissing(app.doc, flow, app.currentPaymentType, sha512);
      return Err(MissingElement(MissingCore(app.doc, prefix).value));
    }
    var txnid := app.doc.values[prefix + "_txnid"];
    var amount := app.doc.values[prefix + "_amount"];
    var productinfo := app.doc.values[prefix + "_productinfo"];
    var firstname := app.doc.values[prefix + "_firstname"];
    var email := app.doc.values[prefix + "_email"];

    var udfs := ResolveUdfs(app.doc, flow, app.currentPaymentType);
    var udf1, udf2, udf3, udf4, udf5 := udfs[0], udfs[1], udfs[2], udfs[3], udfs[4];
    // every branch of the source starts its text with these eleven fields and six bars
    var head := credentials.key + "|" + txnid + "|" + amount + "|" + productinfo + "|" + firstname + "|" + email
      + "|" + udf1 + "|" + udf2 + "|" + udf3 + "|" + udf4 + "|" + udf5 + "||||||";
    ghost var doc := app.doc;
    ghost var pt := app.currentPaymentType;
    var section, v, rest := FlowSection(app, flow, head, credentials.salt);
    if section.Err? {
      PartFails(doc, flow, pt, sha512);
      return Err(section.error);
    }
    var (hashString, hashFormula, siDetailsJson) := section.value;
    var hash := sha512(hashString);
    Assemble(doc, flow, pt, sha512, v, rest, app.doc, head, hashString, hashFormula, siDetailsJson);
    r := Ok(HashData(hash, hashString, hashFormula, siDetailsJson, if flow == "split" then siDetailsJson else "",
                     udfs, credentials));
  }
}
