# PayU Integration Lab: hash and payload core in Dafny

The PayU Integration Lab is a browser page. It collects the fields of nine
payment flows: cross-border, non-seamless, subscription, TPV, UPI OTM,
pre-authorisation, Checkout Plus, split and bank offer. From these fields it
computes the SHA-512 request hash, posts the form to the gateway, shows the
equivalent CURL command, and generates sample server code.

This project models the part of the page that decides what is hashed and
what is sent:

- `Base`: string helpers with the page's own semantics. These cover JavaScript
  `trim`, `split` and `join`, `replace(/x/g, …)`, and `parseInt`/`parseFloat`
  on exact numbers.
- `Json`: a JSON value with ordered object members, its serialiser as
  `JSON.stringify` writes it, and a reader for string literals.
- `State`: the page as data. The `Doc` datatype holds input values by element
  id, with an absent id meaning no element. It also holds the ticked
  checkboxes, the payment-method boxes, the split rows, the SKU rows and the
  cart preview. The class `App` holds that page together with the script
  globals `currentFlow`, `currentPaymentType`, `splitRowCounter` and
  `boSkuRowCounter`.
- `Config` (js/config.js): the flow prefix table and URL route resolution.
- `Utils` (js/utils.js): transaction ids, the phone, e-mail and date
  validators, credential choice, UDF resolution, and the SI-details, UPI and
  beneficiary documents.
- `SplitPayment` and `BankOffer` (js/flows.js): the split request document and
  the split-total check, and the SKU cart with its preview, offer-key parsing
  and the five-row cap.
- `Hash` and `HashLayout` (js/utils.js `generateHash`):
  - `Hash` holds the layout of every flow, the outcome (hash, string, formula,
    documents, UDFs and credentials), the document fields it writes back, and
    the imperative `GenerateHash` proved against that function.
  - `HashLayout` holds the layout theorems: the fixed head
    `key|txnid|amount|productinfo|firstname|email|udf1..udf5`, then `||||||`,
    then the flow's section, the salt and the tail.
- `Submit` (js/flows.js):
  - `validateForm`.
  - The ordered field list that `submitPayment` posts, including
    `enforce_paymethod`.
  - The CURL text of `showCurlCommand`.
  - Theorems that the posted and shown values are the hashed ones.
- `CodeGenerator` (js/code-generator.js):
  - `extractFlowParameters` with its UDF fallback and split merchant list.
  - `getHashType`.
  - The params block that the four generated programs contain, with its
    filtering and escaping.

Three external inputs are parameters rather than definitions:

- SHA-512, a function `string -> string` passed in.
- The clock and `Math.random`, passed in as numbers.
- Date parsing and today's date, the `Calendar` value of `Utils`.

### Where the code differs from its stated intent

The model follows the code in each of these cases.

- A phone field left empty is accepted (js/utils.js:281-285), not only an
  exactly-10-digit one (`Utils.PhoneAcceptedDigits`).
- The cross-border buyer segment is appended whenever the value is not the
  empty string (js/utils.js:667, 681). If the `cb_buyer_type` element is
  missing, the hash ends in `|undefined`, and the form posts no
  `buyer_type_business` field (`Submit.MissingBuyerHashedNotPosted`).
- `validateUpiOtmDates` first compares the absolute day difference with 14.
  If the difference is larger, it resets the end date to the start plus 7 days,
  even when the end date lies before the start (js/utils.js:401-415,
  `Utils.UpiWindowRepaired`).
- In cross-border subscription mode, the generated code falls back to
  `cb_udfN_input` where the hash uses `''` (`CodeGenerator.UdfSourcesDiverge`).
  The generated code also lists every complete split row, where the split
  request keeps one entry per merchant key (`CodeGenerator.DuplicateRowsKept`,
  `SplitPayment.DuplicateRowsCollapse`).
- `splitInfo` is a plain object keyed by the typed merchant key
  (js/flows.js:254). Keys that are array indices, such as `5`, are written
  before the other keys whatever the row order (`SplitPayment.IndexKeyFirst`).
  A row whose key is `__proto__` passes the row checks but leaves no entry
  (`SplitPayment.SplitInfoKeys`).

## Model

| member | source | states |
|---|---|---|
| State.App.constructor | js/config.js:8-17 | the globals start as `currentFlow = ''`, `currentPaymentType = 'onetime'` and both row counters 0 |
| Config.FlowIdRoundTrip | js/config.js:120-130 | every one of the nine flow ids is recognised as the flow it names |
| Config.GetFlowPrefix | js/config.js:119-132 | a known flow id gives that flow's prefix; any other id gives `ns` |
| Config.PrefixInjective | js/config.js:120-130 | the nine element prefixes are pairwise distinct |
| Config.ResolveRoute | js/config.js:211-237 | a resolved flow is always one of the nine internal ids, never `payu-hosted` |
| Config.FragmentReachesEveryFlow | js/config.js:221-226 | for every flow, its route in the fragment resolves to that flow, whatever the path |
| Config.NonseamlessIsNotARoute | js/config.js:211-216 | for every fragment and path: the fragment `#nonseamless` is ignored, and a last path segment reading `nonseamless` gives the home page unless the fragment is a route |
| Config.FragmentFirst | js/config.js:221-230 | a fragment that is a valid route wins over the path, and `payu-hosted` is mapped to `nonseamless` |
| Config.PathIgnoresCaseFragmentDoesNot | js/config.js:223-236 | the last path segment is lower-cased (`/Split` gives split) but the fragment is not (`#Split` resolves nothing) |
| Config.LoadFlowFromUrl | js/config.js:210-294 | `currentFlow` becomes the resolved flow; cross-border restores a saved payment type; on the split route with a rows container the rows become the single fresh row of `addSplitRow` and the counter 1; every other page value is untouched |
| Utils.TxnPrefix | js/utils.js:189-200 | an unknown flow id uses the tag `NS` |
| Utils.TxnTagInjective | js/utils.js:189-199 | distinct flows have distinct transaction-id tags |
| Utils.TxnIdFields | js/utils.js:203-205 | splitting the id on `_` gives back `TXN`, the tag, the timestamp and the random suffix |
| Utils.TxnIdInjective | js/utils.js:203-205 | equal ids come from equal tags, timestamps and suffixes |
| Utils.TxnIdLength | js/utils.js:202-209 | with a 10-digit timestamp and a suffix below 10000, the id is at most 25 characters |
| Utils.GenerateTransactionId | js/utils.js:185-226 | returns `TXN_<tag>_<seconds>_<floor(random*10000)>` and writes it into the txnid and display fields when they exist, and nowhere else |
| Utils.NormalizePhone | js/utils.js:277-278 | the rewritten phone is all digits, a prefix of the input's digits, and as long as they are up to ten |
| Utils.NormalizePhoneByChar | js/utils.js:277-278 | read character by character, a character is kept exactly when it is a digit and fewer than ten digits are kept, so the result is the first ten digits in order |
| Utils.NormalizePhoneIdempotent | js/utils.js:277-279 | normalising an already normalised phone changes nothing |
| Utils.PhoneAcceptedDigits | js/utils.js:281-298 | accepted exactly when the input has no digits or at least ten |
| Utils.ValidatePhone | js/utils.js:270-299 | a missing element is accepted unchanged; otherwise the field is rewritten to its normalised value and the result is whether that value is accepted |
| Utils.EmailShapeIsRegex | js/utils.js:314 | the executable e-mail check agrees with `^[^\s@]+@[^\s@]+\.[^\s@]+$` on every string |
| Utils.ValidateEmail | js/utils.js:306-334 | accepted exactly when the element is missing, empty, or matches the regular expression |
| Utils.ValidateSubscriptionStartDate | js/utils.js:341-360 | rejects a start date before today and resets it to today; otherwise accepts and leaves the page alone |
| Utils.ValidateUpiOtmStartDate | js/utils.js:366-384 | the same rule for the UPI OTM start date |
| Utils.StartDateRepaired | js/utils.js:351-356 | in the calendar's day numbers, the date written on rejection passes the check |
| Utils.ValidateUpiOtmDates | js/utils.js:390-419 | result and page are those of the window rule |
| Utils.UpiWindowAccepts | js/utils.js:398-418 | with both dates given, accepted exactly when start <= end <= start + 14 |
| Utils.UpiWindowRepaired | js/utils.js:404-415 | in the calendar's day numbers, the corrected window is accepted after a rejection |
| Utils.GetCredentials | js/utils.js:430-447 | the custom pair only when custom mode is on and both are non-empty, otherwise the defaults; the key and salt are never empty |
| Utils.ResolveUdfs | js/utils.js:641-659 | five values, each read from the flow's UDF source, `''` when the element is missing or empty |
| Utils.SubscriptionSiDetailsKeys | js/utils.js:754-774 | key order billingAmount, billingCurrency, billingCycle, billingInterval, paymentStartDate, with paymentEndDate only when non-empty |
| Utils.SubscriptionSiDetailsValues | js/utils.js:761-767 | billingCurrency is `"INR"` and billingInterval is the parsed integer |
| Utils.UpiOtmSiDetailsDetermines | js/utils.js:780-788 | the serialised UPI document determines both dates (`''` for a missing one) |
| Utils.BeneficiaryDetailDetermines | js/utils.js:794-802 | the serialised beneficiary document determines the account number and the IFSC code |
| Json.QuoteRoundTrip | js/utils.js:773 | reading back a string literal written by the serialiser gives the string and the rest of the text |
| Json.PairTextDetermines | js/utils.js:784-787 | a two-member object of strings with fixed keys determines both values |
| SplitPayment.BuildSplitRequestJson | js/flows.js:236-274 | the loop's result is the split request text: null or `{"type","splitInfo"}` |
| SplitPayment.AssignKeys | js/flows.js:254 | after `splitInfo[k] = v` a key is present exactly when it was before or is `k`, and `__proto__` never becomes a key |
| SplitPayment.AssignLookup | js/flows.js:254 | after `splitInfo[k] = v`, `k` reads `v` (none for `__proto__`) and every other key reads as before |
| SplitPayment.AssignWellFormed | js/flows.js:254 | assignment keeps the keys distinct and in JavaScript's enumeration order |
| SplitPayment.SplitInfoDistinct | js/flows.js:245-260 | the merchant keys of `splitInfo` are pairwise distinct and in enumeration order: array-index keys first, ascending, then the rest by first insertion |
| SplitPayment.SplitInfoKeys | js/flows.js:247-260 | a key is in `splitInfo` exactly when it is not `__proto__` and some complete row carries it |
| SplitPayment.SplitInfoLastWins | js/flows.js:253-258 | a merchant's entry is the one from its last complete row; a `__proto__` row has none |
| SplitPayment.SplitRequestNone | js/flows.js:240-265 | the request is null exactly when no row is complete with a key other than `__proto__` |
| SplitPayment.SplitRequestShape | js/flows.js:267-273 | the request object has the keys `type` then `splitInfo`, with the split type and a map whose keys are distinct and in enumeration order |
| SplitPayment.DuplicateRowsCollapse | js/flows.js:254 | two complete rows with one merchant key leave only the second entry (none for `__proto__`) |
| SplitPayment.IndexKeyFirst | js/flows.js:245-270 | a later row with an array-index key such as `5` comes before an earlier row's key such as `abc` |
| SplitPayment.AddSplitRow | js/flows.js:95-170 | the counter goes up by one; with a container, one row is appended with the test key for the first two rows, a `child_<ms>_<n>` id unless custom keys are on, no amount and charges `0.00` |
| SplitPayment.FreshRowsNotSent | js/flows.js:95-170 | a fresh row is incomplete, so a page with only that row sends no split request and passes the amount check whatever the type |
| SplitPayment.ValidateSplitAmounts | js/flows.js:280-301 | fails exactly when there are no rows, or the type is percentage and the amounts sum to more than 100 |
| SplitPayment.AbsoluteAmountsUnchecked | js/flows.js:289-300 | for a non-percentage type, any non-empty row list passes |
| SplitPayment.PercentCheckCountsDroppedRows | js/flows.js:289-296 | the percentage total counts rows whose entry the split map overwrote |
| BankOffer.SkuQuantity | js/flows.js:540 | the quantity used is never 0; an empty or zero quantity counts as 1 |
| BankOffer.OfferAutoApplyIffBlank | js/flows.js:543-549 | auto-apply is on exactly when the trimmed offer key is empty, which is exactly when offer_key is null |
| BankOffer.OfferKeyRoundTrip | js/flows.js:543-547 | comma-joined trimmed keys parse back to the same list with auto-apply off |
| BankOffer.UpdateBankOfferSkuPreview | js/flows.js:522-580 | the preview becomes the cart computed from the rows; nothing else changes |
| BankOffer.TotalsMatchLines | js/flows.js:537-564 | `items` and `amount`, summed in the loop, equal the sums over the `sku_details` lines |
| BankOffer.CartSelfConsistent | js/flows.js:566-575 | the cart's `items`, `amount` and `sku_details` agree with each other |
| BankOffer.SkuDetailsCount | js/flows.js:551-563 | `sku_details` has one line per row with both id and name, in row order |
| BankOffer.BlankRowIgnored | js/flows.js:551-563 | a row without id or name changes neither the lines nor the totals |
| BankOffer.BuildBankOfferCartDetails | js/flows.js:586-606 | the cart text exists exactly when SKU mode is on and a preview exists, and is that preview serialised |
| BankOffer.CartSentIsComputedCart | js/flows.js:586-606 | after a preview update, the cart sent is the serialised cart computed from the rows |
| BankOffer.AddBankOfferSkuRow | js/flows.js:429-503 | with no container, or 5 rows already, nothing changes; otherwise one prefilled row is appended, the counter goes up and the preview is recomputed |
| BankOffer.NewRowCountsOneAtZero | js/flows.js:461-491 | a new prefilled row counts as quantity 1 at amount 0 with no offer key |
| Hash.MissingCore | js/utils.js:629-639 | reports a missing core element exactly when one of txnid, amount, productinfo, firstname or email is absent |
| Hash.CoreMissing | js/utils.js:629-639 | a missing core element fails the hash and writes nothing |
| Hash.PartFails | js/utils.js:662-705 | a missing document element, or a split request that is null, fails the hash and writes nothing |
| Hash.GenerateHash | js/utils.js:625-747 | the branchy method returns the hash outcome and writes exactly the documents of the flow's layout |
| HashLayout.OutcomeOf | js/utils.js:727-746 | hash = sha512(string); the result carries the flow's document, the split request only for split, the resolved UDFs and credentials |
| HashLayout.HashStringStartsWithHead | js/utils.js:662-725 | a hash exists exactly when the core fields and the flow's document exist, and every string starts with the head and `||||||` |
| HashLayout.StandardLayout | js/utils.js:717-725 | non-seamless, pre-auth, Checkout Plus, unknown flows and a bank offer without a cart hash the head, `||||||` and the salt only |
| HashLayout.CrossBorderLayout | js/utils.js:662-687 | cross-border puts si_details before the salt in subscription mode and appends `|buyer` when the buyer value is not `''` |
| HashLayout.BuyerTypeScenarios | js/utils.js:679-687 | one-time mode: an empty buyer value ends the string at the salt; a value `B` ends it with `SALT|B` |
| HashLayout.DocumentLayouts | js/utils.js:674-697 | subscription, TPV and UPI OTM put their document before the salt, or fail when its element is missing |
| HashLayout.SplitLayout | js/utils.js:698-705 | split appends the split request after the salt and returns it; with no request the hash fails |
| HashLayout.BankOfferLayout | js/utils.js:706-716 | with a cart: `user_token|offer_key||cart_details||phone` before the salt |
| HashLayout.HashTextFields | js/utils.js:727 | when no value holds a pipe, splitting the string on `|` gives back the laid-out values, with slots 12 to 16 empty and the salt after the section |
| Submit.CustomTxnIdOk | js/flows.js:669-687 | a custom id is accepted exactly when it has 1 to 25 characters from `[A-Za-z0-9_-]` |
| Submit.GeneratedTxnIdAccepted | js/flows.js:669-687 | every generated id passes the custom-id rule |
| Submit.RequiredFieldsFilled | js/flows.js:754-764 | the loop accepts exactly when every required field is present and non-blank |
| Submit.CheckTxnId | js/flows.js:659-694 | the transaction-id step of the form check |
| Submit.CheckFlow | js/flows.js:696-742 | the flow's own checks (billing amount, dates, split total, pre-auth methods) |
| Submit.ValidateForm | js/flows.js:656-772 | result and page are those of the whole form check |
| Submit.FormAcceptedCredentials | js/flows.js:659-752 | an accepted form in custom mode has a valid custom id and both custom key and salt, which are then used; in default mode it has a generated txnid |
| Submit.FormAcceptedFields | js/flows.js:754-769 | an accepted form has every base field filled, an accepted e-mail and an accepted phone |
| Submit.FormAcceptedFlow | js/flows.js:700-741 | an accepted split form passes the split check; an accepted pre-auth form has a method ticked |
| Submit.BuildFields | js/flows.js:800-896 | the append-by-append field list equals the posted-fields function |
| Submit.PostedHead | js/flows.js:800-811 | the first ten posted fields are key, txnid, amount, productinfo, firstname, email, phone, surl, furl, hash, with the page's values, key and hash |
| Submit.PostedHeadIsHashed | js/flows.js:800-811 | the posted key, the five core values and the hash are exactly those that were hashed |
| Submit.PostedSiDetailsAreHashed | js/flows.js:829-858 | subscription and UPI OTM post the si_details that was hashed |
| Submit.PostedBeneficiaryIsHashed | js/flows.js:849-852 | TPV posts the beneficiary document that was hashed |
| Submit.PostedSplitRequestIsHashed | js/flows.js:864-866 | split posts the split request that was hashed |
| Submit.MissingBuyerHashedNotPosted | js/flows.js:834-841 | with no buyer element, `|undefined` is hashed but no buyer field is posted |
| Submit.KnownPaymethodCodes | js/flows.js:885-892 | nb maps to enach in subscription modes and to netbanking otherwise; cc, dc and upi map to creditcard, debitcard and upi |
| Submit.NoSelectionNoField | js/flows.js:881-896 | no code is collected exactly when no method box is ticked |
| Submit.EnforcedCodesRoundTrip | js/flows.js:893-895 | `enforce_paymethod` is the codes joined with `|`, and splitting it gives back the codes |
| Submit.CurlFor | js/flows.js:999-1010 | the line-by-line text is the CURL command over the ten primary fields |
| Submit.SubmitPayment | js/flows.js:782-911 | validate, hash, then post: the result and the new page follow that sequence |
| Submit.ShowCurlCommand | js/flows.js:989-1019 | validate, hash, then render the CURL text |
| Submit.CurlMatchesSubmission | js/flows.js:999-1010 | whenever the form would be posted, the CURL command shows exactly the first ten posted fields in order |
| Submit.Prepare | js/flows.js:789-792 | the validation-then-hash prefix shared by submit and CURL |
| CodeGenerator.ExtractFlowParameters | js/code-generator.js:144-255 | the mutating builder returns the params of the specification function |
| CodeGenerator.CollectCodeUdfs | js/code-generator.js:165-174 | the loop stores udfN only when its first filled source is non-empty |
| CodeGenerator.CollectMerchants | js/code-generator.js:210-219 | the loop pushes one merchant per complete row, in order |
| CodeGenerator.CollectFlowSpecific | js/code-generator.js:177-249 | the flow-specific object is the one the specification function gives |
| CodeGenerator.FirstFilledIsFirst | js/code-generator.js:166-171 | the UDF fallback picks the first filled source, and `''` exactly when none is filled |
| CodeGenerator.MerchantsCoverCompleteRows | js/code-generator.js:210-219 | every complete row appears in the merchant list |
| CodeGenerator.MerchantsAreComplete | js/code-generator.js:212-218 | every listed merchant has key, txn id, amount and charges non-empty |
| CodeGenerator.DuplicateRowsKept | js/code-generator.js:216-218 | two complete rows with one key give two merchants, where the split map keeps one |
| CodeGenerator.UdfSourcesDiverge | js/code-generator.js:166-171 | cross-border subscription with empty `cb_sub_udf1_input`: the hash uses `''` while the code uses `cb_udf1_input` |
| CodeGenerator.GetHashType | js/code-generator.js:296-308 | always one of the nine hash types |
| CodeGenerator.CrossBorderHashType | js/code-generator.js:244-249 | cross-border classifies by sub-mode and by whether a buyer value was given |
| CodeGenerator.SubscriptionHashType | js/code-generator.js:300 | the subscription flow classifies as subscription |
| CodeGenerator.OwnHashTypes | js/code-generator.js:301-303 | TPV, UPI OTM and split classify as themselves |
| CodeGenerator.BankOfferHashType | js/code-generator.js:304-305 | a bank offer classifies as `bankoffer_sku` exactly when SKU mode is on with a preview |
| CodeGenerator.StandardHashType | js/code-generator.js:307 | every other flow classifies as standard |
| CodeGenerator.MissingBuyerDiverges | js/code-generator.js:244-249 | with no buyer element, the hash has the buyer tail but the generated code says standard |
| CodeGenerator.EscapePasses | js/code-generator.js:325 | doubling backslashes and then escaping the quote equals escaping character by character |
| CodeGenerator.LiteralRoundTrip | js/code-generator.js:325-326 | the escaped value reads back as the original up to the closing quote |
| CodeGenerator.ParamLineReadsBack | js/code-generator.js:322-328 | every params line holds its value as a literal that reads back, for all four languages |
| CodeGenerator.EmittedExactly | js/code-generator.js:323 | a param is emitted exactly when its key does not start with `_` and is not `txnid` |
| CodeGenerator.GeneratedParams | js/code-generator.js:147-251 | the params start with txnid and end with `_flow`, and exactly the entries between are emitted |
| CodeGenerator.ParamsBlockLines | js/code-generator.js:322-328 | with no newline in keys or values, the block splits into exactly one line per emitted param |

## Left out

- The DOM is modelled only through the values it holds. Alerts, focus,
  showing and hiding sections, `innerHTML`, `escapeHtml`, character counters
  and error labels are not modelled.
- Navigation and the form `submit()`, the Checkout Plus `bolt` SDK, the
  clipboard, Blob downloads, `localStorage` writes and Google Analytics calls
  have no effect on hashed or posted values. A saved payment type that is
  read back is a parameter of `Config.LoadFlowFromUrl`.
- SHA-512 (CryptoJS) is a function parameter. Nothing about it is assumed,
  including the 128-character length of its result.
- `Date.now`, `Math.random` and `new Date` parsing are parameters (the
  `Calendar` of `Utils`). Dates are whole day numbers, and one
  `cal.today` stands for today both in local time and in UTC. The page
  does not work that way: it parses `YYYY-MM-DD` as UTC midnight, compares
  it with local midnight, and writes dates back through `toISOString()`,
  which gives the UTC date. The day arithmetic of
  `Math.ceil(|end - start| / 86400000)` is likewise taken as a difference of
  day numbers.
- Utils.StartDateRepaired: holds only under that single-day reading. East
  of UTC just after local midnight, the date written on rejection
  (js/utils.js:351-355, 375-379) is yesterday's UTC date, which the next
  check rejects again.
- Utils.UpiWindowRepaired: holds only under the same reading. In the page,
  `setDate(start.getDate() + 7)` then `toISOString()` (js/utils.js:411-413)
  works in local time and reads the UTC date. Across a daylight-saving change
  the written end date can be start + 6.
- Base.ParseInt: the `0x` prefix that `parseInt` without a radix reads as
  hexadecimal is not modelled (a billing interval typed as `0x10`).
- Numbers are exact: `parseFloat` and `parseInt` read exact decimals, sums
  and products are exact reals, and JSON number text is exact decimal.
  Floating-point rounding is not modelled.
- The cart preview is kept as a JSON value. The `JSON.stringify(…, null, 2)`
  and `JSON.parse` round trip through the preview text
  (js/flows.js:577, 597-601) is taken to give back the same document, and its
  parse failure path is not modelled.
- `regenerateSplitChildTransactionIds` (js/flows.js:187-210) runs before
  validation in `submitPayment` and `showCurlCommand`. It draws new ids from
  the clock and `Math.random`, so the split rows are taken as they are when
  validation starts.
- `showCodeGeneratorModal` and the text of the generated Java, PHP, Python
  and Node.js programs are not modelled. Only the extracted params,
  `getHashType` and the params block with its filtering and escaping are.
- `showDebugInfo` is not modelled. It shows the same values the model proves
  about `generateHash`.
- Property lookups that hit `Object.prototype`, such as a flow id named
  `toString` in a prefix map, are not modelled. Such ids behave as unknown
  flows.
- `toLowerCase` on path segments is modelled for ASCII letters only.
- CodeGenerator.FlowSpecOf: `buyerTypeBusiness` left unset and set to
  `undefined` are both `None`, because `getHashType` cannot tell them apart.
- BankOffer.AddBankOfferSkuRow: the row limit message and the input event
  listeners are not modelled.
