/** flows.js, split payments: the splitRequest document built from the
    `.split-row` inputs, and the check on the split amounts. */
module SplitPayment {
  import opened Base
  import opened Json
  import opened State

  /** `?.value || 'absolute'` on the checked `split_type` radio button. */
  function SplitType(doc: Doc): (t: string)
    ensures t != ""
  {
    match doc.splitType
    case Some(v) => if v != "" then v else "absolute"
    case None => "absolute"
  }

  /** A row is taken when its merchant key, child transaction id and amount
      are all non-empty once trimmed. */
  predicate Complete(r: SplitRow)
  {
    Trim(r.merchantKey) != "" && Trim(r.txnId) != "" && Trim(r.amount) != ""
  }

  /** The charges of a row, "0.00" when left empty. */
  function Charges(r: SplitRow): (c: string)
    ensures c != ""
  {
    if Trim(r.charges) != "" then Trim(r.charges) else "0.00"
  }

  /** The `splitInfo` entry of a complete row. */
  function SplitEntry(r: SplitRow): Json
  {
    JObj([Member("aggregatorSubTxnId", JStr(Trim(r.txnId))),
          Member("aggregatorSubAmt", JStr(Trim(r.amount))),
          Member("aggregatorCharges", JStr(Charges(r)))])
  }

  predicate Distinct(ks: seq<string>)
  {
    forall i, j :: 0 <= i < j < |ks| ==> ks[i] != ks[j]
  }

  lemma DistinctCons(x: string, ks: seq<string>)
    ensures Distinct([x] + ks) <==> x !in ks && Distinct(ks)
  {
    var l := [x] + ks;
    if x !in ks && Distinct(ks) {
      forall i, j | 0 <= i < j < |l| ensures l[i] != l[j] {
        if i == 0 {
          assert l[j] == ks[j - 1];
        } else {
          assert l[i] == ks[i - 1] && l[j] == ks[j - 1];
        }
      }
    }
    if Distinct(l) {
      forall i, j | 0 <= i < j < |ks| ensures ks[i] != ks[j] {
        assert ks[i] == l[i + 1] && ks[j] == l[j + 1];
      }
      forall j | 0 <= j < |ks| ensures ks[j] != x {
        assert ks[j] == l[j + 1] && l[0] == x;
      }
    }
  }

  lemma OrderCons(x: string, ks: seq<string>)
    ensures InEnumerationOrder([x] + ks) <==>
      InEnumerationOrder(ks) && forall y :: y in ks ==> !EnumeratedBefore(y, x)
  {
    var l := [x] + ks;
    if InEnumerationOrder(ks) && forall y :: y in ks ==> !EnumeratedBefore(y, x) {
      forall i, j | 0 <= i < j < |l| ensures !EnumeratedBefore(l[j], l[i]) {
        assert l[j] == ks[j - 1];
        if i > 0 {
          assert l[i] == ks[i - 1];
        }
      }
    }
    if InEnumerationOrder(l) {
      forall i, j | 0 <= i < j < |ks| ensures !EnumeratedBefore(ks[j], ks[i]) {
        assert ks[i] == l[i + 1] && ks[j] == l[j + 1];
      }
      forall y | y in ks ensures !EnumeratedBefore(y, x) {
        var j :| 0 <= j < |ks| && ks[j] == y;
        assert l[0] == x && l[j + 1] == y;
      }
    }
  }

  /** Assigning `__proto__` replaces the prototype of a plain object and
      creates no own key. */
  const ProtoKey := "__proto__"

  /** `object[k] = v` on an object whose members are in enumeration order:
      `__proto__` adds nothing, an existing key keeps its place and takes the
      new value, and a new key goes where JavaScript enumerates it (an array
      index before the first key it precedes, any other key last). */
  function Assign(ms: seq<Member>, k: string, v: Json): (r: seq<Member>)
    ensures |r| == if k == ProtoKey || k in Keys(ms) then |ms| else |ms| + 1
  {
    if k == ProtoKey then ms
    else if k in Keys(ms) then Replace(ms, k, v)
    else Insert(ms, Member(k, v))
  }

  /** The members with key `k` take the value `v`. */
  function Replace(ms: seq<Member>, k: string, v: Json): (r: seq<Member>)
    ensures |r| == |ms|
    decreases |ms|
  {
    if |ms| == 0 then []
    else [if ms[0].key == k then Member(k, v) else ms[0]] + Replace(ms[1..], k, v)
  }

  /** `m` goes before the first member whose key it is enumerated before. */
  function Insert(ms: seq<Member>, m: Member): (r: seq<Member>)
    ensures |r| == |ms| + 1
    decreases |ms|
  {
    if |ms| == 0 then [m]
    else if EnumeratedBefore(m.key, ms[0].key) then [m] + ms
    else [ms[0]] + Insert(ms[1..], m)
  }

  lemma KeysCons(m: Member, ms: seq<Member>)
    ensures Keys([m] + ms) == [m.key] + Keys(ms)
  {
    KeysAppend([m], ms);
  }

  /** Replacing keeps the keys. */
  lemma {:induction false} ReplaceKeys(ms: seq<Member>, k: string, v: Json)
    ensures Keys(Replace(ms, k, v)) == Keys(ms)
    decreases |ms|
  {
    if |ms| > 0 {
      ReplaceKeys(ms[1..], k, v);
      KeysCons(if ms[0].key == k then Member(k, v) else ms[0], Replace(ms[1..], k, v));
      KeysCons(ms[0], ms[1..]);
      assert ms == [ms[0]] + ms[1..];
    }
  }

  /** Inserting adds exactly the new key. */
  lemma {:induction false} InsertKeys(ms: seq<Member>, m: Member)
    ensures forall x :: x in Keys(Insert(ms, m)) <==> x in Keys(ms) || x == m.key
    decreases |ms|
  {
    if |ms| == 0 {
      assert Keys([m]) == [m.key] && Keys(ms) == [];
    } else {
      assert ms == [ms[0]] + ms[1..];
      KeysCons(ms[0], ms[1..]);
      if EnumeratedBefore(m.key, ms[0].key) {
        KeysCons(m, ms);
      } else {
        InsertKeys(ms[1..], m);
        KeysCons(ms[0], Insert(ms[1..], m));
      }
    }
  }

  /** Inserting a new key keeps the keys distinct. */
  lemma {:induction false} InsertDistinct(ms: seq<Member>, m: Member)
    requires Distinct(Keys(ms)) && m.key !in Keys(ms)
    ensures Distinct(Keys(Insert(ms, m)))
    decreases |ms|
  {
    if |ms| == 0 {
      assert Keys([m]) == [m.key];
    } else {
      assert ms == [ms[0]] + ms[1..];
      KeysCons(ms[0], ms[1..]);
      DistinctCons(ms[0].key, Keys(ms[1..]));
      if EnumeratedBefore(m.key, ms[0].key) {
        KeysCons(m, ms);
        DistinctCons(m.key, Keys(ms));
      } else {
        InsertDistinct(ms[1..], m);
        InsertKeys(ms[1..], m);
        KeysCons(ms[0], Insert(ms[1..], m));
        DistinctCons(ms[0].key, Keys(Insert(ms[1..], m)));
      }
    }
  }

  /** Inserting keeps the members in enumeration order. */
  lemma {:induction false} InsertOrdered(ms: seq<Member>, m: Member)
    requires InEnumerationOrder(Keys(ms))
    ensures InEnumerationOrder(Keys(Insert(ms, m)))
    decreases |ms|
  {
    if |ms| == 0 {
      assert Keys([m]) == [m.key];
    } else {
      assert ms == [ms[0]] + ms[1..];
      KeysCons(ms[0], ms[1..]);
      OrderCons(ms[0].key, Keys(ms[1..]));
      if EnumeratedBefore(m.key, ms[0].key) {
        KeysCons(m, ms);
        OrderCons(m.key, Keys(ms));
      } else {
        InsertOrdered(ms[1..], m);
        InsertKeys(ms[1..], m);
        KeysCons(ms[0], Insert(ms[1..], m));
        OrderCons(ms[0].key, Keys(Insert(ms[1..], m)));
      }
    }
  }

  /** After the assignment a key is present exactly when it was before or
      it is the assigned key, `__proto__` excepted. */
  lemma AssignKeys(ms: seq<Member>, k: string, v: Json)
    ensures forall x :: x in Keys(Assign(ms, k, v)) <==> x in Keys(ms) || (x == k && k != ProtoKey)
  {
    if k != ProtoKey {
      if k in Keys(ms) {
        ReplaceKeys(ms, k, v);
      } else {
        InsertKeys(ms, Member(k, v));
      }
    }
  }

  /** Assigning keeps distinct keys distinct and enumeration order in order. */
  lemma AssignWellFormed(ms: seq<Member>, k: string, v: Json)
    requires Distinct(Keys(ms)) && InEnumerationOrder(Keys(ms))
    ensures Distinct(Keys(Assign(ms, k, v))) && InEnumerationOrder(Keys(Assign(ms, k, v)))
  {
    if k != ProtoKey {
      if k in Keys(ms) {
        ReplaceKeys(ms, k, v);
      } else {
        InsertDistinct(ms, Member(k, v));
        InsertOrdered(ms, Member(k, v));
      }
    }
  }

  lemma {:induction false} ReplaceLookup(ms: seq<Member>, k: string, v: Json, k': string)
    ensures Lookup(Replace(ms, k, v), k') == if k' == k && k in Keys(ms) then Some(v) else Lookup(ms, k')
    decreases |ms|
  {
    if |ms| == 0 {
      assert Keys(ms) == [];
    } else {
      var r := Replace(ms, k, v);
      assert r[1..] == Replace(ms[1..], k, v);
      KeysCons(ms[0], ms[1..]);
      assert ms == [ms[0]] + ms[1..];
      ReplaceLookup(ms[1..], k, v, k');
    }
  }

  lemma {:induction false} InsertLookup(ms: seq<Member>, m: Member, k': string)
    requires m.key !in Keys(ms)
    ensures Lookup(Insert(ms, m), k') == if k' == m.key then Some(m.value) else Lookup(ms, k')
    decreases |ms|
  {
    if |ms| > 0 && !EnumeratedBefore(m.key, ms[0].key) {
      var r := Insert(ms, m);
      assert r[1..] == Insert(ms[1..], m);
      KeysCons(ms[0], ms[1..]);
      assert ms == [ms[0]] + ms[1..];
      InsertLookup(ms[1..], m, k');
    } else if |ms| > 0 {
      var r := Insert(ms, m);
      assert r[1..] == ms;
    }
  }

  /** After the assignment `k` reads `v` (unless it is `__proto__`) and every
      other key reads as before. */
  lemma AssignLookup(ms: seq<Member>, k: string, v: Json, k': string)
    ensures Lookup(Assign(ms, k, v), k') == if k' == k && k != ProtoKey then Some(v) else Lookup(ms, k')
  {
    if k != ProtoKey {
      if k in Keys(ms) {
        ReplaceLookup(ms, k, v, k');
      } else {
        InsertLookup(ms, Member(k, v), k');
      }
    }
  }

  /** The `splitInfo` object after the forEach over `rows`. */
  function SplitInfo(rows: seq<SplitRow>): (ms: seq<Member>)
    decreases |rows|
  {
    if |rows| == 0 then []
    else
      var prev := SplitInfo(rows[..|rows| - 1]);
      var r := rows[|rows| - 1];
      if Complete(r) then Assign(prev, Trim(r.merchantKey), SplitEntry(r)) else prev
  }

  /** Each merchant key has one entry. */
  lemma {:induction false} SplitInfoDistinct(rows: seq<SplitRow>)
    ensures Distinct(Keys(SplitInfo(rows)))
    ensures InEnumerationOrder(Keys(SplitInfo(rows)))
    decreases |rows|
  {
    if |rows| > 0 {
      var r := rows[|rows| - 1];
      SplitInfoDistinct(rows[..|rows| - 1]);
      if Complete(r) {
        AssignWellFormed(SplitInfo(rows[..|rows| - 1]), Trim(r.merchantKey), SplitEntry(r));
      }
    }
  }

  /** The request as a value: None (the page alerts and gives up) when there
      is no row or no complete row. */
  function SplitRequest(doc: Doc): Option<Json>
  {
    if |doc.splitRows| == 0 then None
    else
      var info := SplitInfo(doc.splitRows);
      if |info| == 0 then None
      else Some(JObj([Member("type", JStr(SplitType(doc))), Member("splitInfo", JObj(info))]))
  }

  /** The text `buildSplitRequestJson` returns. */
  function SplitRequestText(doc: Doc): Option<string>
  {
    match SplitRequest(doc)
    case None => None
    case Some(v) => Some(Serialize(v))
  }

  /** `buildSplitRequestJson()` */
  method BuildSplitRequestJson(doc: Doc) returns (r: Option<string>)
    ensures r == SplitRequestText(doc)
  {
    var splitType := SplitType(doc);
    var splitRows := doc.splitRows;
    if |splitRows| == 0 {
      return None;
    }
    var splitInfo: seq<Member> := [];
    for i := 0 to |splitRows|
      invariant splitInfo == SplitInfo(splitRows[..i])
    {
      assert splitRows[..i + 1][..i] == splitRows[..i];
      var row := splitRows[i];
      var merchantKey := Trim(row.merchantKey);
      var txnId := Trim(row.txnId);
      var amount := Trim(row.amount);
      var charges := if Trim(row.charges) != "" then Trim(row.charges) else "0.00";
      if merchantKey != "" && txnId != "" && amount != "" {
        splitInfo := Assign(splitInfo, merchantKey, JObj([Member("aggregatorSubTxnId", JStr(txnId)),
                                                          Member("aggregatorSubAmt", JStr(amount)),
                                                          Member("aggregatorCharges", JStr(charges))]));
      }
    }
    assert splitRows[..|splitRows|] == splitRows;
    if |splitInfo| == 0 {
      return None;
    }
    var splitRequest := JObj([Member("type", JStr(splitType)), Member("splitInfo", JObj(splitInfo))]);
    return Some(Serialize(splitRequest));
  }

  /** Row `r` is complete and carries merchant key `k`. */
  predicate Carries(r: SplitRow, k: string)
  {
    Complete(r) && Trim(r.merchantKey) == k
  }

  /** The `splitInfo` of one more row. */
  lemma SplitInfoStep(rows: seq<SplitRow>, r: SplitRow)
    ensures SplitInfo(rows + [r]) == if Complete(r) then Assign(SplitInfo(rows), Trim(r.merchantKey), SplitEntry(r)) else SplitInfo(rows)
  {
    assert (rows + [r])[..|rows|] == rows;
  }

  /** A merchant key is in `splitInfo` exactly when some complete row
      carries it and it is not `__proto__`. */
  lemma {:induction false} SplitInfoKeys(rows: seq<SplitRow>, k: string)
    ensures k in Keys(SplitInfo(rows)) <==> k != ProtoKey && exists i :: 0 <= i < |rows| && Carries(rows[i], k)
    decreases |rows|
  {
    if |rows| > 0 {
      var front, r := rows[..|rows| - 1], rows[|rows| - 1];
      assert rows == front + [r];
      SplitInfoStep(front, r);
      SplitInfoKeys(front, k);
      if Complete(r) {
        AssignKeys(SplitInfo(front), Trim(r.merchantKey), SplitEntry(r));
      }
      if k in Keys(SplitInfo(front)) {
        var i :| 0 <= i < |front| && Carries(front[i], k);
        assert rows[i] == front[i];
      }
      if exists i :: 0 <= i < |rows| && Carries(rows[i], k) {
        var i :| 0 <= i < |rows| && Carries(rows[i], k);
        if i < |front| {
          assert Carries(front[i], k);
        }
      }
    }
  }

  /** The entry of a merchant key comes from the LAST complete row with that
      key: a later duplicate overwrites the earlier one and the earlier row
      is lost. A `__proto__` key has no entry at all. */
  lemma {:induction false} SplitInfoLastWins(rows: seq<SplitRow>, i: nat)
    requires i < |rows| && Complete(rows[i])
    requires forall j :: i < j < |rows| ==> !Carries(rows[j], Trim(rows[i].merchantKey))
    ensures Lookup(SplitInfo(rows), Trim(rows[i].merchantKey)) ==
      if Trim(rows[i].merchantKey) == ProtoKey then None else Some(SplitEntry(rows[i]))
    decreases |rows|
  {
    var k := Trim(rows[i].merchantKey);
    var front, r := rows[..|rows| - 1], rows[|rows| - 1];
    assert rows == front + [r];
    SplitInfoStep(front, r);
    if Complete(r) {
      AssignLookup(SplitInfo(front), Trim(r.merchantKey), SplitEntry(r), k);
    }
    if i < |front| {
      assert front[i] == rows[i];
      forall j | i < j < |front| ensures !Carries(front[j], k) {
        assert front[j] == rows[j];
      }
      SplitInfoLastWins(front, i);
      assert !Carries(r, k);
    } else if k == ProtoKey {
      SplitInfoKeys(front, k);
    }
  }

  /** A row whose entry reaches `splitInfo`. */
  predicate Sent(r: SplitRow)
  {
    Complete(r) && Trim(r.merchantKey) != ProtoKey
  }

  /** The request is None exactly when no row is complete with a merchant
      key other than `__proto__`. */
  lemma SplitRequestNone(doc: Doc)
    ensures SplitRequest(doc).None? <==> forall i :: 0 <= i < |doc.splitRows| ==> !Sent(doc.splitRows[i])
  {
    var rows := doc.splitRows;
    if exists i :: 0 <= i < |rows| && Sent(rows[i]) {
      var i :| 0 <= i < |rows| && Sent(rows[i]);
      SplitInfoKeys(rows, Trim(rows[i].merchantKey));
    } else if |rows| > 0 {
      var info := SplitInfo(rows);
      if |info| > 0 {
        assert Keys(info)[0] in Keys(info);
        SplitInfoKeys(rows, Keys(info)[0]);
      }
    }
  }

  /** A request that exists is `{"type", "splitInfo"}` in that order, with
      one entry per distinct merchant key. */
  lemma SplitRequestShape(doc: Doc)
    requires SplitRequest(doc).Some?
    ensures var v := SplitRequest(doc).value;
      && v.JObj? && Keys(v.members) == ["type", "splitInfo"]
      && v.members[0].value == JStr(SplitType(doc))
      && v.members[1].value.JObj? && Distinct(Keys(v.members[1].value.members))
      && InEnumerationOrder(Keys(v.members[1].value.members))
  {
    SplitInfoDistinct(doc.splitRows);
  }

  /** Two complete rows with the same merchant key give one entry (none
      for `__proto__`). */
  lemma DuplicateRowsCollapse(a: SplitRow, b: SplitRow)
    requires Complete(a) && Complete(b) && Trim(a.merchantKey) == Trim(b.merchantKey)
    ensures SplitInfo([a, b]) == if Trim(b.merchantKey) == ProtoKey then [] else [Member(Trim(b.merchantKey), SplitEntry(b))]
  {
    var k := Trim(b.merchantKey);
    assert [a, b][..1] == [a];
    assert [a][..0] == [];
    assert SplitInfo([a]) == Assign([], k, SplitEntry(a));
    assert SplitInfo([a, b]) == Assign(SplitInfo([a]), k, SplitEntry(b));
    if k != ProtoKey {
      assert Keys([]) == [];
      assert Assign([], k, SplitEntry(a)) == [Member(k, SplitEntry(a))];
      var one := [Member(k, SplitEntry(a))];
      assert Keys(one) == [k];
      assert Replace(one, k, SplitEntry(b)) == [Member(k, SplitEntry(b))] by {
        assert one[1..] == [];
      }
    }
  }

  /** JavaScript enumerates array-index keys first: a complete row whose
      merchant key is an index such as "5" is written before an earlier
      row's non-index key such as "abc". */
  lemma IndexKeyFirst(a: SplitRow, b: SplitRow)
    requires Complete(a) && Complete(b)
    requires !IsArrayIndex(Trim(a.merchantKey)) && Trim(a.merchantKey) != ProtoKey
    requires IsArrayIndex(Trim(b.merchantKey))
    ensures Keys(SplitInfo([a, b])) == [Trim(b.merchantKey), Trim(a.merchantKey)]
  {
    var ka, kb := Trim(a.merchantKey), Trim(b.merchantKey);
    assert [a, b][..1] == [a];
    assert [a][..0] == [];
    assert Keys([]) == [];
    var one := [Member(ka, SplitEntry(a))];
    assert SplitInfo([a]) == one;
    assert Keys(one) == [ka];
    assert kb != ProtoKey by { assert IsDigit(kb[0]) && ProtoKey[0] == '_'; }
    assert kb != ka;
    assert Insert(one, Member(kb, SplitEntry(b))) == [Member(kb, SplitEntry(b))] + one;
    KeysCons(Member(kb, SplitEntry(b)), one);
  }

  // ---------------------------------------------------------------------------
  // addSplitRow (flows.js:95-167)
  // ---------------------------------------------------------------------------

  /** The row `addSplitRow` appends, given how many rows the page already
      has, the `split_use_custom_keys` box, `Date.now()` and
      `Math.floor(Math.random() * 10000)`: the first two rows get the test
      merchant keys and every row a generated child id unless custom keys
      are on; the amount is empty and the charges read 0.00. */
  function NewSplitRow(existingRows: nat, useCustomKeys: bool, timestamp: nat, randomSuffix: nat): SplitRow
  {
    var merchantKey :=
      if useCustomKeys then ""
      else if existingRows == 0 then "gYoEaY"
      else if existingRows == 1 then "5rgA73"
      else "";
    var childTxnId := if useCustomKeys then "" else "child_" + NatText(timestamp) + "_" + NatText(randomSuffix);
    SplitRow(merchantKey, childTxnId, "", "0.00")
  }

  /** `addSplitRow()`: the counter always goes up; when the container exists
      a new row goes at the end of the rows. */
  method AddSplitRow(app: App, containerExists: bool, timestamp: nat, randomSuffix: nat)
    requires randomSuffix < 10000
    modifies app
    ensures app.splitRowCounter == old(app.splitRowCounter) + 1
    ensures app.doc == if !containerExists then old(app.doc)
      else old(app.doc).(splitRows := old(app.doc).splitRows +
        [NewSplitRow(|old(app.doc).splitRows|, Checked(old(app.doc), "split_use_custom_keys"), timestamp, randomSuffix)])
    ensures app.currentFlow == old(app.currentFlow) && app.currentPaymentType == old(app.currentPaymentType)
    ensures app.boSkuRowCounter == old(app.boSkuRowCounter)
  {
    app.splitRowCounter := app.splitRowCounter + 1;
    if !containerExists {
      return;
    }
    var useCustomKeys := Checked(app.doc, "split_use_custom_keys");
    var existingRows := |app.doc.splitRows|;
    var defaultMerchantKey := "";
    if !useCustomKeys {
      if existingRows == 0 {
        defaultMerchantKey := "gYoEaY";
      } else if existingRows == 1 {
        defaultMerchantKey := "5rgA73";
      }
    }
    var childTxnId := "";
    if !useCustomKeys {
      childTxnId := "child_" + NatText(timestamp) + "_" + NatText(randomSuffix);
    }
    app.doc := app.doc.(splitRows := app.doc.splitRows + [SplitRow(defaultMerchantKey, childTxnId, "", "0.00")]);
  }

  /** A row just added has no amount, so it is never complete: a page whose
      rows are all fresh sends no split request, its total is 0, and the
      amount check lets it through whatever the split type. */
  lemma FreshRowsNotSent(doc: Doc, useCustomKeys: bool, timestamp: nat, randomSuffix: nat)
    ensures !Complete(NewSplitRow(0, useCustomKeys, timestamp, randomSuffix))
    ensures Charges(NewSplitRow(0, useCustomKeys, timestamp, randomSuffix)) == "0.00"
    ensures var d := doc.(splitRows := [NewSplitRow(0, useCustomKeys, timestamp, randomSuffix)]);
      && SplitRequest(d).None?
      && AmountTotal(d.splitRows) == 0.0
      && |d.splitRows| > 0 && !(SplitType(d) == "percentage" && AmountTotal(d.splitRows) > 100.0)
  {
    var r := NewSplitRow(0, useCustomKeys, timestamp, randomSuffix);
    assert Trim(r.amount) == "" by { assert r.amount == ""; }
    assert Trim("0.00") == "0.00" by {
      var z := "0.00";
      assert !IsJsSpace(z[0]) && !IsJsSpace(z[|z| - 1]);
      TrimStartFixed(z);
      TrimEndFixed(z);
    }
    var d := doc.(splitRows := [r]);
    SplitRequestNone(d);
    assert ParseFloat("") == None;
    assert [r][..0] == [];
  }

  // ---------------------------------------------------------------------------
  // validateSplitAmounts (flows.js:280-301)
  // ---------------------------------------------------------------------------

  /** The sum of `parseFloat(amount) || 0` over all rows, complete or not. */
  function AmountTotal(rows: seq<SplitRow>): real
    decreases |rows|
  {
    if |rows| == 0 then 0.0
    else AmountTotal(rows[..|rows| - 1]) + ParseFloatOrZero(rows[|rows| - 1].amount)
  }

  /** `validateSplitAmounts()` */
  method ValidateSplitAmounts(doc: Doc) returns (ok: bool)
    ensures ok <==> |doc.splitRows| > 0 && !(SplitType(doc) == "percentage" && AmountTotal(doc.splitRows) > 100.0)
  {
    var splitType := SplitType(doc);
    var splitRows := doc.splitRows;
    if |splitRows| == 0 {
      return false;
    }
    var splitTotal := 0.0;
    for i := 0 to |splitRows|
      invariant splitTotal == AmountTotal(splitRows[..i])
    {
      assert splitRows[..i + 1][..i] == splitRows[..i];
      splitTotal := splitTotal + ParseFloatOrZero(splitRows[i].amount);
    }
    assert splitRows[..|splitRows|] == splitRows;
    if splitType == "percentage" && splitTotal > 100.0 {
      return false;
    }
    return true;
  }

  /** For any type but percentage the amounts are never looked at. */
  lemma AbsoluteAmountsUnchecked(doc: Doc, other: seq<SplitRow>)
    requires SplitType(doc) != "percentage" && |other| > 0 && |doc.splitRows| > 0
    ensures var d := doc.(splitRows := other);
      (|d.splitRows| > 0 && !(SplitType(d) == "percentage" && AmountTotal(d.splitRows) > 100.0))
  {
  }

  /** The total adds rows one after another. */
  lemma {:induction false} AmountTotalAppend(a: seq<SplitRow>, b: seq<SplitRow>)
    ensures AmountTotal(a + b) == AmountTotal(a) + AmountTotal(b)
    decreases |b|
  {
    if |b| == 0 {
      assert a + b == a;
    } else {
      assert (a + b)[..|a + b| - 1] == a + b[..|b| - 1];
      AmountTotalAppend(a, b[..|b| - 1]);
    }
  }

  /** The percentage check counts every row, including the incomplete ones and
      the duplicates that the request leaves out: of two complete rows of 60
      percent for the same merchant, the request keeps one, and the check
      still rejects 120. */
  lemma PercentCheckCountsDroppedRows(a: SplitRow, b: SplitRow)
    requires Complete(a) && Complete(b) && Trim(a.merchantKey) == Trim(b.merchantKey)
    requires ParseFloatOrZero(a.amount) == 60.0 && ParseFloatOrZero(b.amount) == 60.0
    ensures |SplitInfo([a, b])| == if Trim(a.merchantKey) == ProtoKey then 0 else 1
    ensures AmountTotal([a, b]) == 120.0
  {
    DuplicateRowsCollapse(a, b);
    AmountTotalAppend([a], [b]);
    assert [a] + [b] == [a, b];
    assert [a][..0] == [] && [b][..0] == [];
  }
}
