/** The page the core reads from and writes to, as a value: the `.value` of
    every input element by id, which checkboxes are checked, and the rows the
    operator added for split payments and bank-offer SKUs. `App` holds that
    value together with the page's global variables (config.js:8-17); the
    operations that change fields or globals in place modify an `App`. */
module State {
  import opened Base
  import opened Json

  /** One `.split-row`: its merchant key, child transaction id, amount and
      charges inputs (addSplitRow always creates all four). */
  datatype SplitRow = SplitRow(merchantKey: string, txnId: string, amount: string, charges: string)

  /** One `#boSkuRowsContainer > div` row; `rowId` is the number in its
      element id `bo_sku_row_<rowId>`. */
  datatype SkuRow = SkuRow(rowId: nat, skuId: string, skuName: string, amount: string, quantity: string, offerKey: string)

  /** A payment-method checkbox: its `name`, `id` and `value` attributes. */
  datatype Checkbox = Checkbox(name: string, id: string, value: string, checked: bool)

  datatype Doc = Doc(
    values: map<string, string>,   // element id -> .value; an id that is absent has no element
    checked: set<string>,          // ids of the checkboxes that are checked
    paymethods: seq<Checkbox>,     // every payment-method checkbox, in document order
    splitType: Option<string>,     // value of the checked `split_type` radio button
    splitRows: seq<SplitRow>,      // the `.split-row` elements, in document order
    skuContainer: bool,            // whether `boSkuRowsContainer` exists
    skuRows: seq<SkuRow>,          // the SKU rows, in document order
    skuPreview: Option<Json>       // the cart shown in `bo-json-preview`; None while that text is empty
  )

  /** `document.getElementById(id)?.value` */
  function Value(doc: Doc, id: string): Option<string>
  {
    if id in doc.values then Some(doc.values[id]) else None
  }

  /** `document.getElementById(id)?.value || d`: the default replaces both a
      missing element and an empty value. */
  function ValueOr(doc: Doc, id: string, d: string): (r: string)
    ensures r == (if id in doc.values && doc.values[id] != "" then doc.values[id] else d)
  {
    if id in doc.values && doc.values[id] != "" then doc.values[id] else d
  }

  /** `document.getElementById(id)?.value.trim() || ''` */
  function TrimmedOrEmpty(doc: Doc, id: string): string
  {
    if id in doc.values then Trim(doc.values[id]) else ""
  }

  /** `document.getElementById(id)?.checked`, false for a missing element. */
  predicate Checked(doc: Doc, id: string)
  {
    id in doc.checked
  }

  /** `doc` with the element `id` given a new value (`element.value = v`). */
  function SetValue(doc: Doc, id: string, v: string): (d: Doc)
    ensures d.values == doc.values[id := v]
    ensures d.(values := doc.values) == doc
  {
    doc.(values := doc.values[id := v])
  }

  /** Only the page changed, none of the globals. */
  twostate predicate GlobalsUnchanged(app: App)
    reads app
  {
    && app.currentFlow == old(app.currentFlow)
    && app.currentPaymentType == old(app.currentPaymentType)
    && app.splitRowCounter == old(app.splitRowCounter)
    && app.boSkuRowCounter == old(app.boSkuRowCounter)
  }

  /** The page and its global variables. */
  class App {
    var doc: Doc
    var currentFlow: string
    var currentPaymentType: string
    var splitRowCounter: nat
    var boSkuRowCounter: nat

    /** The state when the scripts have loaded (config.js:8-17). */
    constructor (initial: Doc)
      ensures doc == initial
      ensures currentFlow == "" && currentPaymentType == "onetime"
      ensures splitRowCounter == 0 && boSkuRowCounter == 0
    {
      doc := initial;
      currentFlow := "";
      currentPaymentType := "onetime";
      splitRowCounter := 0;
      boSkuRowCounter := 0;
    }
  }
}
