/** config.js: the nine flows, their element-id prefixes, the default
    credentials, and the URL routing that chooses the active flow. */
module Config {
  import opened Base
  import opened State
  import opened SplitPayment

  datatype Flow = CrossBorder | Subscription | Tpv | UpiOtm | PreAuth | CheckoutPlus | SplitPay | BankOffer | NonSeamless

  const DefaultKey: string := "a4vGC2"
  const DefaultSalt: string := "hKvGJP28d2ZUuCRz5BnDag58QBdCxBli"

  /** The internal flow identifier every function of the page is called with. */
  function FlowId(f: Flow): string
  {
    match f
    case CrossBorder => "crossborder"
    case Subscription => "subscription"
    case Tpv => "tpv"
    case UpiOtm => "upiotm"
    case PreAuth => "preauth"
    case CheckoutPlus => "checkoutplus"
    case SplitPay => "split"
    case BankOffer => "bankoffer"
    case NonSeamless => "nonseamless"
  }

  function FlowOfId(id: string): (r: Option<Flow>)
    ensures r.Some? ==> FlowId(r.value) == id
  {
    if id == "crossborder" then Some(CrossBorder)
    else if id == "subscription" then Some(Subscription)
    else if id == "tpv" then Some(Tpv)
    else if id == "upiotm" then Some(UpiOtm)
    else if id == "preauth" then Some(PreAuth)
    else if id == "checkoutplus" then Some(CheckoutPlus)
    else if id == "split" then Some(SplitPay)
    else if id == "bankoffer" then Some(BankOffer)
    else if id == "nonseamless" then Some(NonSeamless)
    else None
  }

  /** Every flow's identifier is recognised as that flow, so FlowId and
      FlowOfId are inverse on the nine flows. */
  lemma FlowIdRoundTrip(f: Flow)
    ensures FlowOfId(FlowId(f)) == Some(f)
  {
    match f
    case CrossBorder =>
    case Subscription =>
    case Tpv =>
    case UpiOtm =>
    case PreAuth =>
    case CheckoutPlus =>
    case SplitPay =>
    case BankOffer =>
    case NonSeamless =>
  }

  /** How every function of the page treats a flow identifier: the nine
      known ones as themselves, anything else exactly as 'nonseamless' (the
      prefix map falls back to 'ns' and every flow test fails). */
  function Classify(id: string): (f: Flow)
    ensures FlowOfId(id).Some? ==> f == FlowOfId(id).value
    ensures FlowOfId(id).None? ==> f == NonSeamless
  {
    match FlowOfId(id)
    case Some(f) => f
    case None => NonSeamless
  }

  /** The element-id namespace of each flow (config.js:120-130). */
  function FlowPrefix(f: Flow): string
  {
    match f
    case CrossBorder => "cb"
    case Subscription => "sub"
    case Tpv => "tpv"
    case UpiOtm => "upi"
    case PreAuth => "preauth"
    case CheckoutPlus => "cp"
    case SplitPay => "split"
    case BankOffer => "bo"
    case NonSeamless => "ns"
  }

  /** getFlowPrefix(flow) */
  function GetFlowPrefix(id: string): (p: string)
    ensures FlowOfId(id).Some? ==> p == FlowPrefix(FlowOfId(id).value)
    ensures FlowOfId(id).None? ==> p == "ns"
  {
    FlowPrefix(Classify(id))
  }

  /** No two flows share an element prefix, so the fields of one flow are
      never read as another's. */
  lemma {:induction false} PrefixInjective(f: Flow, g: Flow)
    ensures FlowPrefix(f) == FlowPrefix(g) ==> f == g
  {
    if FlowPrefix(f) == FlowPrefix(g) {
      var p := FlowPrefix(f);
      assert p[0] == FlowPrefix(g)[0] && |p| == |FlowPrefix(g)|;
      match f
      case CrossBorder =>
      case Subscription =>
      case Tpv =>
      case UpiOtm =>
      case PreAuth => assert p[1] == FlowPrefix(g)[1];
      case CheckoutPlus =>
      case SplitPay => assert p[1] == FlowPrefix(g)[1];
      case BankOffer =>
      case NonSeamless =>
    }
  }

  /** The routes the page accepts (config.js:211). */
  const ValidRoutes: seq<string> :=
    ["crossborder", "payu-hosted", "subscription", "tpv", "upiotm", "preauth", "checkoutplus", "split", "bankoffer"]

  /** `routeToFlowMap[route] || route` */
  function RouteToFlow(route: string): string
  {
    if route == "payu-hosted" then "nonseamless" else route
  }

  /** The non-empty segments of a path (`pathname.split('/').filter(s => s !== '')`). */
  function PathSegments(pathname: string): (r: seq<string>)
    ensures forall k :: 0 <= k < |r| ==> r[k] != "" && '/' !in r[k]
  {
    NonEmpty(Split(pathname, '/'))
  }

  function NonEmpty(parts: seq<string>): (r: seq<string>)
    requires forall k :: 0 <= k < |parts| ==> '/' !in parts[k]
    ensures |r| <= |parts|
    ensures forall k :: 0 <= k < |r| ==> r[k] != "" && '/' !in r[k]
    decreases |parts|
  {
    if |parts| == 0 then []
    else if parts[0] == "" then NonEmpty(parts[1..])
    else [parts[0]] + NonEmpty(parts[1..])
  }

  /** The flow chosen by `loadFlowFromURL` (config.js:211-237), from
      `window.location.hash` (with its '#') and `window.location.pathname`;
      None when the page shows its home page. A fragment is taken only when
      it is literally a valid route; otherwise the last non-empty path
      segment is lower-cased and taken when it is a valid route. */
  function ResolveRoute(locationHash: string, pathname: string): (r: Option<string>)
    ensures r.Some? ==> FlowOfId(r.value).Some? && r.value != "payu-hosted"
  {
    var fragment := if |locationHash| >= 1 then locationHash[1..] else "";
    if fragment != "" && fragment in ValidRoutes then Some(RouteToFlow(fragment))
    else
      var segs := PathSegments(pathname);
      if |segs| == 0 then None
      else
        var last := AsciiLower(segs[|segs| - 1]);
        if last in ValidRoutes then Some(RouteToFlow(last)) else None
  }

  /** The route that leads to each flow. */
  function RouteOf(f: Flow): (route: string)
    ensures route in ValidRoutes
  {
    if f == NonSeamless then "payu-hosted" else FlowId(f)
  }

  /** Every flow can be reached from a fragment, and 'payu-hosted' leads to
      the pre-built checkout ('nonseamless'). */
  lemma FragmentReachesEveryFlow(f: Flow, pathname: string)
    ensures ResolveRoute("#" + RouteOf(f), pathname) == Some(FlowId(f))
  {
    var h := "#" + RouteOf(f);
    assert h[1..] == RouteOf(f);
  }

  /** A path of one segment has that segment as its only one. */
  lemma OneSegmentPath(seg: string)
    requires seg != "" && '/' !in seg
    ensures PathSegments("/" + seg) == [seg]
  {
    var p := "/" + seg;
    assert p[1..] == seg;
    SplitNoSeparator(seg, '/');
    assert Split(p, '/') == [""] + [seg];
    assert NonEmpty([seg]) == [seg];
  }

  /** The internal name 'nonseamless' is not itself a route: as a fragment
      it is ignored (the path alone decides), and a path whose last segment
      reads 'nonseamless' in any case shows the home page unless the
      fragment names a route. */
  lemma NonseamlessIsNotARoute(locationHash: string, pathname: string)
    ensures ResolveRoute("#nonseamless", pathname) == ResolveRoute("", pathname)
    ensures var segs := PathSegments(pathname);
      && (|locationHash| < 1 || locationHash[1..] !in ValidRoutes)
      && |segs| > 0 && AsciiLower(segs[|segs| - 1]) == "nonseamless"
      ==> ResolveRoute(locationHash, pathname) == None
  {
    NonseamlessNotListed();
    assert ("#nonseamless")[1..] == "nonseamless";
  }

  lemma NonseamlessNotListed()
    ensures "nonseamless" !in ValidRoutes
  {
    var n := "nonseamless";
    forall i | 0 <= i < |ValidRoutes| ensures ValidRoutes[i] != n {
      assert |ValidRoutes[i]| != |n| || ValidRoutes[i][0] != n[0];
    }
  }

  /** A valid fragment wins over whatever the path says. */
  lemma FragmentFirst(locationHash: string, pathname: string)
    requires |locationHash| >= 1 && locationHash[1..] in ValidRoutes
    ensures ResolveRoute(locationHash, pathname) == Some(RouteToFlow(locationHash[1..]))
  {
  }

  /** The path is matched without regard to ASCII case, the fragment is not. */
  lemma PathIgnoresCaseFragmentDoesNot()
    ensures ResolveRoute("", "/Split") == Some("split")
    ensures ResolveRoute("#Split", "") == None
  {
    OneSegmentPath("Split");
    assert AsciiLower("Split") == "split";
    assert "Split" !in ValidRoutes by {
      forall r | r in ValidRoutes ensures r != "Split" {
        assert |r| != 5 || r[0] != 'S';
      }
    }
    assert ("#Split")[1..] == "Split";
    assert Split("", '/') == [""];
    assert PathSegments("") == [];
  }

  /** What `loadFlowFromURL` does to the page and its globals: the resolved
      flow becomes current (the home page resets it to ''); for cross-border
      a saved payment type is restored; for split, when the rows container
      exists, its rows are cleared, the row counter restarts and
      `addSplitRow` puts one fresh row in (which brings the counter to 1).
      `Date.now()` and the random suffix of that row's child id are
      parameters. */
  method LoadFlowFromUrl(app: App, locationHash: string, pathname: string, savedPaymentType: Option<string>,
                         splitContainer: bool, timestamp: nat, randomSuffix: nat)
    requires randomSuffix < 10000
    modifies app
    ensures var r := ResolveRoute(locationHash, pathname);
      && app.currentFlow == (if r.Some? then r.value else "")
      && app.currentPaymentType ==
           (if r == Some("crossborder") && savedPaymentType.Some? && savedPaymentType.value != ""
            then savedPaymentType.value else old(app.currentPaymentType))
      && app.splitRowCounter == (if r == Some("split") && splitContainer then 1 else old(app.splitRowCounter))
      && app.doc == (if r == Some("split") && splitContainer
                     then old(app.doc).(splitRows := [NewSplitRow(0, Checked(old(app.doc), "split_use_custom_keys"), timestamp, randomSuffix)])
                     else old(app.doc))
    ensures app.boSkuRowCounter == old(app.boSkuRowCounter)
  {
    var flow := ResolveRoute(locationHash, pathname);
    if flow.Some? {
      app.currentFlow := flow.value;
      if flow.value == "crossborder" && savedPaymentType.Some? && savedPaymentType.value != "" {
        app.currentPaymentType := savedPaymentType.value;
      }
      if flow.value == "split" && splitContainer {
        app.doc := app.doc.(splitRows := []);
        app.splitRowCounter := 0;
        AddSplitRow(app, true, timestamp, randomSuffix);
      }
    } else {
      app.currentFlow := "";
    }
  }
}
