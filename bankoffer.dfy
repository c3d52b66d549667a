/** flows.js, bank offers: the SKU rows, the cart document shown in the
    preview and sent in the hash, and the offer-key field of each row. */
module BankOffer {
  import opened Base
  import opened Json
  import opened State

  const MaxSkuRows: nat := 5

  // ---------------------------------------------------------------------------
  // One SKU row (flows.js:527-563)
  // ---------------------------------------------------------------------------

  /** `parseInt(quantity) || 1`: NaN and 0 both count as one item; any other
      integer, a negative one included, is kept. */
  function SkuQuantity(r: SkuRow): (q: int)
    ensures q != 0
  {
    match ParseInt(r.quantity)
    case Some(n) => if n != 0 then n else 1
    case None => 1
  }

  /** The quantity field holding the text of a non-zero integer counts that
      many items; an empty one counts one. */
  lemma SkuQuantityText(r: SkuRow, n: int)
    requires n != 0 && r.quantity == IntText(n)
    ensures SkuQuantity(r) == n
  {
    ParseIntText(n, "");
    assert IntText(n) + "" == IntText(n);
  }

  lemma SkuQuantityEmpty(r: SkuRow)
    requires r.quantity == "" || r.quantity == "0"
    ensures SkuQuantity(r) == 1
  {
    if r.quantity == "0" {
      ParseIntText(0, "");
      assert IntText(0) + "" == "0";
    }
  }

  /** `parseFloat(amount) || 0` */
  function SkuAmount(r: SkuRow): real
  {
    ParseFloatOrZero(r.amount)
  }

  /** A row enters the cart when its trimmed SKU id and name are both non-empty. */
  predicate SkuEntered(r: SkuRow)
  {
    Trim(r.skuId) != "" && Trim(r.skuName) != ""
  }

  /** The comma-separated offer keys, each trimmed, the empty ones dropped. */
  function OfferKeys(parts: seq<string>): (r: seq<string>)
    ensures |r| <= |parts|
    ensures forall i :: 0 <= i < |r| ==> r[i] != ""
    decreases |parts|
  {
    if |parts| == 0 then []
    else
      var k := Trim(parts[0]);
      (if k != "" then [k] else []) + OfferKeys(parts[1..])
  }

  function StrArray(ks: seq<string>): (r: seq<Json>)
    ensures |r| == |ks| && forall i :: 0 <= i < |ks| ==> r[i] == JStr(ks[i])
  {
    seq(|ks|, i requires 0 <= i < |ks| => JStr(ks[i]))
  }

  /** The `offer_key` and `offer_auto_apply` of a row from its offer-key
      input: null and true when it is blank; otherwise a list of keys (split
      at commas when there is one) and false. */
  function ParseOfferKey(input: string): (Json, bool)
  {
    var t := Trim(input);
    if t == "" then (JNull, true)
    else if ',' in t then (JArr(StrArray(OfferKeys(Split(t, ',')))), false)
    else (JArr([JStr(t)]), false)
  }

  /** Auto-apply is on exactly when the key is null, and that is exactly when
      the trimmed input is empty. */
  lemma OfferAutoApplyIffBlank(input: string)
    ensures ParseOfferKey(input).1 <==> Trim(input) == ""
    ensures ParseOfferKey(input).1 <==> ParseOfferKey(input).0 == JNull
  {
  }

  /** A key without a comma is a list of that one key (trimmed). */
  lemma OfferKeySingle(input: string)
    requires Trim(input) != "" && ',' !in Trim(input)
    ensures ParseOfferKey(input) == (JArr([JStr(Trim(input))]), false)
  {
  }

  /** A trimmed, non-empty string begins and ends with something other than
      white space. */
  lemma TrimmedEnds(p: string)
    requires p != "" && Trim(p) == p
    ensures !IsJsSpace(p[0]) && !IsJsSpace(p[|p| - 1])
  {
    TrimEnds(p);
  }

  /** Every part that is already trimmed and non-empty is kept, in order. */
  lemma {:induction false} OfferKeysKeepTrimmed(parts: seq<string>)
    requires forall i :: 0 <= i < |parts| ==> parts[i] != "" && Trim(parts[i]) == parts[i]
    ensures OfferKeys(parts) == parts
    decreases |parts|
  {
    if |parts| > 0 {
      OfferKeysKeepTrimmed(parts[1..]);
      assert [parts[0]] + parts[1..] == parts;
    }
  }

  /** Keys written out joined by commas are read back as the same list:
      several trimmed, non-empty keys without commas survive `split`, `trim`
      and the filter unchanged. */
  lemma OfferKeyRoundTrip(keys: seq<string>)
    requires |keys| >= 2
    requires forall i :: 0 <= i < |keys| ==> keys[i] != "" && Trim(keys[i]) == keys[i] && ',' !in keys[i]
    ensures ParseOfferKey(Join(keys, ",")) == (JArr(StrArray(keys)), false)
  {
    var t := Join(keys, ",");
    JoinedKeysTrimmed(keys);
    JoinSplit(keys, ',');
    OfferKeysKeepTrimmed(keys);
  }

  /** Keys that are trimmed and not empty, joined with commas: a trimmed
      text that holds a comma. */
  lemma JoinedKeysTrimmed(keys: seq<string>)
    requires |keys| >= 2
    requires forall i :: 0 <= i < |keys| ==> keys[i] != "" && Trim(keys[i]) == keys[i]
    ensures Trim(Join(keys, ",")) == Join(keys, ",") && ',' in Join(keys, ",")
  {
    var t := Join(keys, ",");
    JoinUnfold(keys, ",", 0);
    assert t == keys[0] + "," + Join(keys[1..], ",");
    assert t[|keys[0]|] == ',';
    TrimmedEnds(keys[0]);
    assert t[0] == keys[0][0];
    TrimStartFixed(t);
    JoinEndsWithLast(keys, ",");
    var last := keys[|keys| - 1];
    TrimmedEnds(last);
    assert t[|t| - 1] == last[|last| - 1];
    TrimEndFixed(t);
  }

  /** Joining keeps the last part at the end. */
  lemma {:induction false} JoinEndsWithLast(parts: seq<string>, sep: string)
    requires |parts| >= 1 && parts[|parts| - 1] != ""
    ensures var j := Join(parts, sep); var l := parts[|parts| - 1];
      |j| >= |l| && j[|j| - |l|..] == l
    decreases |parts|
  {
    if |parts| > 1 {
      JoinUnfold(parts, sep, 0);
      JoinEndsWithLast(parts[1..], sep);
    }
  }

  /** A `sku_details` entry, keys in the source's order. */
  function Line(skuId: string, skuName: string, amount: real, quantity: int, offer: (Json, bool)): Json
  {
    JObj([Member("sku_id", JStr(skuId)),
          Member("sku_name", JStr(skuName)),
          Member("amount_per_sku", JNum(amount)),
          Member("quantity", JNum(quantity as real)),
          Member("offer_key", offer.0),
          Member("offer_auto_apply", JBool(offer.1))])
  }

  /** The `sku_details` entry of an entered row. */
  function SkuEntry(r: SkuRow): Json
  {
    Line(Trim(r.skuId), Trim(r.skuName), SkuAmount(r), SkuQuantity(r), ParseOfferKey(r.offerKey))
  }

  // ---------------------------------------------------------------------------
  // The running totals of the forEach (flows.js:537-564)
  // ---------------------------------------------------------------------------

  function SkuDetails(rows: seq<SkuRow>): seq<Json>
    decreases |rows|
  {
    if |rows| == 0 then []
    else
      var r := rows[|rows| - 1];
      SkuDetails(rows[..|rows| - 1]) + (if SkuEntered(r) then [SkuEntry(r)] else [])
  }

  function TotalItems(rows: seq<SkuRow>): int
    decreases |rows|
  {
    if |rows| == 0 then 0
    else
      var r := rows[|rows| - 1];
      TotalItems(rows[..|rows| - 1]) + (if SkuEntered(r) then SkuQuantity(r) else 0)
  }

  /** The amount of a line: price times quantity. */
  function Times(x: real, y: real): real
  {
    x * y
  }

  function TotalAmount(rows: seq<SkuRow>): real
    decreases |rows|
  {
    if |rows| == 0 then 0.0
    else
      var r := rows[|rows| - 1];
      TotalAmount(rows[..|rows| - 1]) + (if SkuEntered(r) then Times(SkuAmount(r), SkuQuantity(r) as real) else 0.0)
  }

  /** The cart object the preview holds (flows.js:566-575). */
  function CartDetails(doc: Doc): Json
  {
    var rows := doc.skuRows;
    var preDiscount := match Value(doc, "bo_pre_discount") case Some(v) => ParseFloatOrZero(v) case None => 0.0;
    JObj([Member("amount", JNum(TotalAmount(rows))),
          Member("items", JNum(TotalItems(rows) as real)),
          Member("surcharges", JStr(TrimmedOrEmpty(doc, "bo_surcharges"))),
          Member("pre_discount", JNum(preDiscount)),
          Member("sku_details", JArr(SkuDetails(rows)))])
  }

  /** What the preview shows after an update: nothing when there is no row. */
  function CartPreview(doc: Doc): Option<Json>
  {
    if |doc.skuRows| == 0 then None else Some(CartDetails(doc))
  }

  /** `updateBankOfferSkuPreview()` */
  method UpdateBankOfferSkuPreview(app: App)
    modifies app
    ensures app.doc == old(app.doc).(skuPreview := CartPreview(old(app.doc)))
    ensures GlobalsUnchanged(app)
  {
    var skuRows := app.doc.skuRows;
    if |skuRows| == 0 {
      app.doc := app.doc.(skuPreview := None);
      return;
    }
    var skuDetails: seq<Json> := [];
    var totalItems := 0;
    var calculatedAmount := 0.0;
    for i := 0 to |skuRows|
      invariant skuDetails == SkuDetails(skuRows[..i])
      invariant totalItems == TotalItems(skuRows[..i])
      invariant calculatedAmount == TotalAmount(skuRows[..i])
    {
      assert skuRows[..i + 1][..i] == skuRows[..i];
      var row := skuRows[i];
      var skuId := Trim(row.skuId);
      var skuName := Trim(row.skuName);
      var amountPerSku := ParseFloatOrZero(row.amount);
      var quantity := SkuQuantity(row);
      var (offerKey, offerAutoApply) := ParseOfferKey(row.offerKey);
      if skuId != "" && skuName != "" {
        skuDetails := skuDetails + [JObj([Member("sku_id", JStr(skuId)),
                                          Member("sku_name", JStr(skuName)),
                                          Member("amount_per_sku", JNum(amountPerSku)),
                                          Member("quantity", JNum(quantity as real)),
                                          Member("offer_key", offerKey),
                                          Member("offer_auto_apply", JBool(offerAutoApply))])];
        totalItems := totalItems + quantity;
        calculatedAmount := calculatedAmount + Times(amountPerSku, quantity as real);
      }
    }
    assert skuRows[..|skuRows|] == skuRows;
    var d := app.doc;
    var surcharges := TrimmedOrEmpty(d, "bo_surcharges");
    var preDiscount := match Value(d, "bo_pre_discount") case Some(v) => ParseFloatOrZero(v) case None => 0.0;
    var cartDetails := JObj([Member("amount", JNum(calculatedAmount)),
                             Member("items", JNum(totalItems as real)),
                             Member("surcharges", JStr(surcharges)),
                             Member("pre_discount", JNum(preDiscount)),
                             Member("sku_details", JArr(skuDetails))]);
    app.doc := d.(skuPreview := Some(cartDetails));
  }

  // ---------------------------------------------------------------------------
  // The cart agrees with its own lines
  // ---------------------------------------------------------------------------

  /** The number a member holds, 0 when it is missing or not a number. */
  function NumberAt(e: Json, k: string): real
  {
    if e.JObj? then
      match Lookup(e.members, k)
      case Some(JNum(x)) => x
      case _ => 0.0
    else 0.0
  }

  /** Sum of the `quantity` members of the lines. */
  function QuantitySum(lines: seq<Json>): real
    decreases |lines|
  {
    if |lines| == 0 then 0.0 else QuantitySum(lines[..|lines| - 1]) + NumberAt(lines[|lines| - 1], "quantity")
  }

  /** Sum of `amount_per_sku * quantity` over the lines. */
  function LineSum(lines: seq<Json>): real
    decreases |lines|
  {
    if |lines| == 0 then 0.0
    else
      var e := lines[|lines| - 1];
      LineSum(lines[..|lines| - 1]) + Times(NumberAt(e, "amount_per_sku"), NumberAt(e, "quantity"))
  }

  lemma LineNumbers(skuId: string, skuName: string, amount: real, quantity: int, offer: (Json, bool))
    ensures NumberAt(Line(skuId, skuName, amount, quantity, offer), "quantity") == quantity as real
    ensures NumberAt(Line(skuId, skuName, amount, quantity, offer), "amount_per_sku") == amount
  {
    var ms := Line(skuId, skuName, amount, quantity, offer).members;
    LookupIndex(ms, 3);
    LookupIndex(ms, 2);
  }

  /** The folds over the rows, one row further. */
  lemma RowStep(front: seq<SkuRow>, r: SkuRow)
    ensures SkuDetails(front + [r]) == SkuDetails(front) + (if SkuEntered(r) then [SkuEntry(r)] else [])
    ensures TotalItems(front + [r]) == TotalItems(front) + (if SkuEntered(r) then SkuQuantity(r) else 0)
    ensures TotalAmount(front + [r]) == TotalAmount(front) + (if SkuEntered(r) then Times(SkuAmount(r), SkuQuantity(r) as real) else 0.0)
  {
    assert (front + [r])[..|front|] == front;
  }

  /** The sums over the lines, one line further. */
  lemma LineStep(lines: seq<Json>, e: Json)
    ensures QuantitySum(lines + [e]) == QuantitySum(lines) + NumberAt(e, "quantity")
    ensures LineSum(lines + [e]) == LineSum(lines) + Times(NumberAt(e, "amount_per_sku"), NumberAt(e, "quantity"))
  {
    assert (lines + [e])[..|lines|] == lines;
  }

  /** `items` is the sum of the listed quantities and `amount` the sum of the
      listed line amounts: rows left out of `sku_details` count in neither. */
  lemma {:induction false} TotalsMatchLines(rows: seq<SkuRow>)
    ensures TotalItems(rows) as real == QuantitySum(SkuDetails(rows))
    ensures TotalAmount(rows) == LineSum(SkuDetails(rows))
    decreases |rows|
  {
    if |rows| > 0 {
      var front, r := rows[..|rows| - 1], rows[|rows| - 1];
      assert rows == front + [r];
      TotalsMatchLines(front);
      RowStep(front, r);
      if SkuEntered(r) {
        var e := SkuEntry(r);
        LineStep(SkuDetails(front), e);
        var q, x := SkuQuantity(r), SkuAmount(r);
        LineNumbers(Trim(r.skuId), Trim(r.skuName), x, q, ParseOfferKey(r.offerKey));
        assert NumberAt(e, "quantity") == q as real;
        assert SkuDetails(rows) == SkuDetails(front) + [e];
        assert TotalItems(rows) == TotalItems(front) + q;
        assert QuantitySum(SkuDetails(rows)) == QuantitySum(SkuDetails(front)) + q as real;
        assert TotalAmount(rows) == TotalAmount(front) + Times(x, q as real);
        assert LineSum(SkuDetails(rows)) == LineSum(SkuDetails(front)) + Times(x, q as real);
      } else {
        assert SkuDetails(rows) == SkuDetails(front) + [];
        assert SkuDetails(front) + [] == SkuDetails(front);
      }
    }
  }

  /** The cart's `items` and `amount` members agree with its `sku_details`. */
  lemma CartSelfConsistent(doc: Doc)
    ensures var c := CartDetails(doc);
      && NumberAt(c, "items") == QuantitySum(SkuDetails(doc.skuRows))
      && NumberAt(c, "amount") == LineSum(SkuDetails(doc.skuRows))
      && Lookup(c.members, "sku_details") == Some(JArr(SkuDetails(doc.skuRows)))
  {
    TotalsMatchLines(doc.skuRows);
    var ms := CartDetails(doc).members;
    LookupIndex(ms, 0);
    LookupIndex(ms, 1);
    LookupIndex(ms, 4);
  }

  /** Every listed line comes from an entered row and the two are as many. */
  lemma {:induction false} SkuDetailsCount(rows: seq<SkuRow>)
    ensures |SkuDetails(rows)| == |EnteredRows(rows)|
    ensures forall i :: 0 <= i < |SkuDetails(rows)| ==> SkuDetails(rows)[i] == SkuEntry(EnteredRows(rows)[i])
    decreases |rows|
  {
    if |rows| > 0 {
      SkuDetailsCount(rows[..|rows| - 1]);
    }
  }

  /** The rows whose id and name are both filled in, in order. */
  function EnteredRows(rows: seq<SkuRow>): (r: seq<SkuRow>)
    ensures forall i :: 0 <= i < |r| ==> SkuEntered(r[i])
    decreases |rows|
  {
    if |rows| == 0 then []
    else
      var x := rows[|rows| - 1];
      EnteredRows(rows[..|rows| - 1]) + (if SkuEntered(x) then [x] else [])
  }

  /** A row whose id or name is left blank changes nothing in the cart. */
  lemma BlankRowIgnored(rows: seq<SkuRow>, r: SkuRow)
    requires !SkuEntered(r)
    ensures SkuDetails(rows + [r]) == SkuDetails(rows)
    ensures TotalItems(rows + [r]) == TotalItems(rows)
    ensures TotalAmount(rows + [r]) == TotalAmount(rows)
  {
    assert (rows + [r])[..|rows|] == rows;
  }

  // ---------------------------------------------------------------------------
  // buildBankOfferCartDetails (flows.js:586-606)
  // ---------------------------------------------------------------------------

  /** The compact cart text, or None when SKUs are off or the preview is
      empty. */
  function BuildBankOfferCartDetails(doc: Doc): (r: Option<string>)
    ensures r.Some? <==> Checked(doc, "bo_enable_sku") && doc.skuPreview.Some?
    ensures r.Some? ==> r.value == Serialize(doc.skuPreview.value)
  {
    if !Checked(doc, "bo_enable_sku") then None
    else
      match doc.skuPreview
      case None => None
      case Some(cart) => Some(Serialize(cart))
  }

  /** After a preview update with at least one row and SKUs enabled, the cart
      sent is the text of the cart computed from the rows. */
  lemma CartSentIsComputedCart(doc: Doc)
    requires Checked(doc, "bo_enable_sku") && |doc.skuRows| > 0
    ensures BuildBankOfferCartDetails(doc.(skuPreview := CartPreview(doc))) == Some(Serialize(CartDetails(doc)))
  {
  }

  // ---------------------------------------------------------------------------
  // addBankOfferSkuRow (flows.js:429-503)
  // ---------------------------------------------------------------------------

  /** The id and name a new row is filled in with: the caller's, or, when the
      caller gives neither and the predefined keys are in use, the test
      product of the first or second row. */
  function Prefill(doc: Doc, skuId: string, skuName: string): (string, string)
  {
    var count := |doc.skuRows|;
    if skuId == "" && skuName == "" && !Checked(doc, "bo_use_custom_keys") then
      if count == 0 then ("testProduct11", "SkuTest11")
      else if count == 1 then ("testProduct12", "SkuTest12")
      else (skuId, skuName)
    else (skuId, skuName)
  }

  /** `addBankOfferSkuRow(prefilledSkuId, prefilledSkuName)`; an absent
      argument is passed as "". */
  method AddBankOfferSkuRow(app: App, prefilledSkuId: string, prefilledSkuName: string)
    modifies app
    ensures var d := old(app.doc);
      if !d.skuContainer || |d.skuRows| >= MaxSkuRows then
        app.doc == d && app.boSkuRowCounter == old(app.boSkuRowCounter)
      else
        var (id, name) := Prefill(d, prefilledSkuId, prefilledSkuName);
        var row := SkuRow(old(app.boSkuRowCounter) + 1, id, name, "", "", "");
        var d' := d.(skuRows := d.skuRows + [row]);
        && app.boSkuRowCounter == old(app.boSkuRowCounter) + 1
        && app.doc == d'.(skuPreview := CartPreview(d'))
    ensures app.currentFlow == old(app.currentFlow) && app.currentPaymentType == old(app.currentPaymentType)
    ensures app.splitRowCounter == old(app.splitRowCounter)
  {
    if !app.doc.skuContainer {
      return;
    }
    var currentCount := |app.doc.skuRows|;
    if currentCount >= MaxSkuRows {
      return;
    }
    var d := app.doc;
    var skuId, skuName := prefilledSkuId, prefilledSkuName;
    if skuId == "" && skuName == "" {
      var useCustomKeys := Checked(d, "bo_use_custom_keys");
      if !useCustomKeys {
        if currentCount == 0 {
          skuId, skuName := "testProduct11", "SkuTest11";
        } else if currentCount == 1 {
          skuId, skuName := "testProduct12", "SkuTest12";
        }
      }
    }
    assert (skuId, skuName) == Prefill(d, prefilledSkuId, prefilledSkuName);
    app.boSkuRowCounter := app.boSkuRowCounter + 1;
    var rowId := app.boSkuRowCounter;
    var d' := d.(skuRows := d.skuRows + [SkuRow(rowId, skuId, skuName, "", "", "")]);
    app.doc := d';
    UpdateBankOfferSkuPreview(app);
    assert app.doc == d'.(skuPreview := CartPreview(d'));
  }

  /** The table never grows past five rows, and a new row starts with no
      amount, no quantity and no offer key, so it enters the cart only with
      its id and name and counts one item at amount 0. */
  lemma NewRowCountsOneAtZero(id: string, name: string, rowId: nat)
    requires Trim(id) != "" && Trim(name) != ""
    ensures var r := SkuRow(rowId, id, name, "", "", "");
      SkuEntered(r) && SkuQuantity(r) == 1 && SkuAmount(r) == 0.0 && ParseOfferKey(r.offerKey) == (JNull, true)
  {
    var r := SkuRow(rowId, id, name, "", "", "");
    SkuQuantityEmpty(r);
    assert ParseFloat("") == None;
  }
}
