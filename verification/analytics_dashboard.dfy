/** The analytics dashboard panel: the text extraction used for list entries,
    the analytics request's effect on the panel, the six-tab selector and the
    panel it shows, and two display fallbacks (recommended price, impact
    colour). The analytics payload itself is an opaque `JsValue`. */
module AnalyticsDashboard {
  import opened JsValues
  import opened Http

  // ---------------------------------------------------------------------
  // extractText
  // ---------------------------------------------------------------------

  /** The keys tried, in order, before any other property. */
  const PriorityKeys: seq<string> := ["insight", "opportunity", "text", "description", "name"]

  /** The position in `keys` of the first key whose value in `props` is
      truthy, if any. */
  function FirstTruthyKey(props: seq<(string, JsValue)>, keys: seq<string>): (r: Option<nat>)
    ensures r.Some? ==> r.value < |keys| && Truthy(Get(props, keys[r.value]))
    ensures r.Some? ==> forall j :: 0 <= j < r.value ==> !Truthy(Get(props, keys[j]))
    ensures r.None? ==> forall j :: 0 <= j < |keys| ==> !Truthy(Get(props, keys[j]))
    decreases |keys|
  {
    if |keys| == 0 then None
    else if Truthy(Get(props, keys[0])) then Some(0)
    else match FirstTruthyKey(props, keys[1..])
      case Some(i) => Some(i + 1)
      case None => None
  }

  /** `Object.values(props).find(v => typeof v === 'string')`, as a position. */
  function FirstStringIndex(props: seq<(string, JsValue)>): (r: Option<nat>)
    ensures r.Some? ==> r.value < |props| && props[r.value].1.JsString?
    ensures r.Some? ==> forall j :: 0 <= j < r.value ==> !props[j].1.JsString?
    ensures r.None? ==> forall j :: 0 <= j < |props| ==> !props[j].1.JsString?
    decreases |props|
  {
    if |props| == 0 then None
    else if props[0].1.JsString? then Some(0)
    else match FirstStringIndex(props[1..])
      case Some(i) => Some(i + 1)
      case None => None
  }

  /** What `extractText` returns: a value (which React renders), or the
      cleaned-up `JSON.stringify` of an object, kept symbolic. */
  datatype Extracted = Value(v: JsValue) | JsonFallback(obj: seq<(string, JsValue)>)

  /** `extractText(item)`. A string comes back unchanged. An object yields
      the first truthy value among insight, opportunity, text, description,
      name; failing that, its first string-valued property when that string
      is non-empty; failing that, the JSON fallback — so an empty first
      string falls through even when a later property holds text. Anything
      else (numbers, booleans, null, undefined) yields `String(item)`. */
  function ExtractText(item: JsValue): (r: Extracted)
    ensures item.JsString? ==> r == Value(item)
    ensures !item.JsString? && !item.JsObject? ==> r == Value(JsString(ToJsString(item)))
    ensures item.JsObject? && FirstTruthyKey(item.props, PriorityKeys).Some? ==>
      r == Value(Get(item.props, PriorityKeys[FirstTruthyKey(item.props, PriorityKeys).value]))
    ensures item.JsObject? && FirstTruthyKey(item.props, PriorityKeys).None? ==>
      var k := FirstStringIndex(item.props);
      if k.Some? && item.props[k.value].1.s != "" then r == Value(item.props[k.value].1)
      else r == JsonFallback(item.props)
    ensures item.JsObject? && r.Value? ==> Truthy(r.v)
  {
    match item
    case JsString(_) => Value(item)
    case JsObject(props) =>
      if Truthy(Get(props, "insight")) then Value(Get(props, "insight"))
      else if Truthy(Get(props, "opportunity")) then Value(Get(props, "opportunity"))
      else if Truthy(Get(props, "text")) then Value(Get(props, "text"))
      else if Truthy(Get(props, "description")) then Value(Get(props, "description"))
      else if Truthy(Get(props, "name")) then Value(Get(props, "name"))
      else
        (match FirstStringIndex(props)
         case Some(i) => if props[i].1.s != "" then Value(props[i].1) else JsonFallback(props)
         case None => JsonFallback(props))
    case _ => Value(JsString(ToJsString(item)))
  }

  /** The fall-through, concretely: the first string is empty, so the
      non-empty second one is never reached. */
  lemma EmptyFirstStringFallsThrough()
    ensures ExtractText(JsObject([("a", JsString("")), ("b", JsString("kept"))])) ==
            JsonFallback([("a", JsString("")), ("b", JsString("kept"))])
  {
  }

  // ---------------------------------------------------------------------
  // Tabs
  // ---------------------------------------------------------------------

  datatype Tab = Overview | Market | Pricing | Customers | Forecast | Recommendations {
    /** The id the tab button stores as the active tab. */
    function Id(): string {
      match this
      case Overview => "overview"
      case Market => "market"
      case Pricing => "pricing"
      case Customers => "customers"
      case Forecast => "forecast"
      case Recommendations => "recommendations"
    }
  }

  /** The tab bar, in display order; the content panels are checked in the same order. */
  const TabBar: seq<Tab> := [Overview, Market, Pricing, Customers, Forecast, Recommendations]

  /** The panel's state; `activeTab` holds a tab id, as the page does. */
  datatype Dashboard = Dashboard(analytics: JsValue, loading: bool, activeTab: string)

  const InitialDashboard := Dashboard(JsNull, false, "overview")

  /** Clicking a tab button: that tab becomes active, from any state, and
      nothing else changes. */
  function SelectTab(d: Dashboard, t: Tab): (r: Dashboard)
    ensures r.activeTab == t.Id()
    ensures r.analytics == d.analytics && r.loading == d.loading
  {
    d.(activeTab := t.Id())
  }

  /** The panels among `tabs` whose `activeTab === id` test passes. */
  function PanelsFor(activeTab: string, tabs: seq<Tab>): seq<Tab>
    decreases |tabs|
  {
    if |tabs| == 0 then []
    else (if activeTab == tabs[0].Id() then [tabs[0]] else []) + PanelsFor(activeTab, tabs[1..])
  }

  /** The content panels rendered for the active tab. */
  function RenderedPanels(activeTab: string): seq<Tab> {
    PanelsFor(activeTab, TabBar)
  }

  /** Each tab shows exactly its own panel: the six tests are mutually exclusive. */
  lemma OnePanelPerTab(t: Tab)
    ensures RenderedPanels(t.Id()) == [t]
  {
  }

  /** A request for analytics: pressing "Generate" (or "Refresh"), or the
      request settling with the service's reply (the response body). */
  datatype Event = Select(tab: Tab) | BeginGenerate | FinishGenerate(reply: Reply<JsValue>)

  /** `generateAnalytics` up to the request: the busy flag is set. */
  function BeginAnalytics(d: Dashboard): (r: Dashboard)
    ensures r.loading && r.analytics == d.analytics && r.activeTab == d.activeTab
  {
    d.(loading := true)
  }

  /** `response.data.dashboard`: reading a property of null or undefined
      throws; of any other primitive it gives undefined. */
  function DashboardOf(body: JsValue): Option<JsValue> {
    match body
    case JsObject(props) => Some(Get(props, "dashboard"))
    case JsNull => None
    case JsUndefined => None
    case _ => Some(JsUndefined)
  }

  /** The analytics request settles: the payload's `dashboard` on success,
      null on any failure (including a body without properties to read).
      The busy flag is cleared either way; the active tab is kept. */
  function FinishAnalytics(d: Dashboard, reply: Reply<JsValue>): (r: Dashboard)
    ensures !r.loading && r.activeTab == d.activeTab
    ensures !reply.Success? ==> r.analytics == JsNull
    ensures reply.Success? && reply.body.JsObject? ==> r.analytics == Get(reply.body.props, "dashboard")
    ensures reply.Success? && (reply.body.JsNull? || reply.body.JsUndefined?) ==> r.analytics == JsNull
    ensures reply.Success? && !reply.body.JsObject? && !reply.body.JsNull? && !reply.body.JsUndefined? ==>
      r.analytics == JsUndefined
  {
    var done := d.(loading := false);
    match reply
    case Success(body) =>
      (match DashboardOf(body)
       case Some(a) => done.(analytics := a)
       case None => done.(analytics := JsNull))
    case Failure(_) => done.(analytics := JsNull)
    case Thrown => done.(analytics := JsNull)
  }

  function Step(d: Dashboard, e: Event): Dashboard {
    match e
    case Select(t) => SelectTab(d, t)
    case BeginGenerate => BeginAnalytics(d)
    case FinishGenerate(reply) => FinishAnalytics(d, reply)
  }

  function Run(d: Dashboard, events: seq<Event>): Dashboard
    decreases |events|
  {
    if |events| == 0 then d else Run(Step(d, events[0]), events[1..])
  }

  /** What the panel shows: the generate prompt (its button disabled while
      busy) until analytics are held, then the tab bar with its panels. */
  datatype View = GeneratePrompt(busy: bool) | Tabbed(activeTab: string, panels: seq<Tab>)

  function Render(d: Dashboard): (r: View)
    ensures !Truthy(d.analytics) <==> r.GeneratePrompt?
    ensures r.GeneratePrompt? ==> r.busy == d.loading
    ensures Truthy(d.analytics) ==> r == Tabbed(d.activeTab, RenderedPanels(d.activeTab))
  {
    if !Truthy(d.analytics) then GeneratePrompt(d.loading)
    else Tabbed(d.activeTab, RenderedPanels(d.activeTab))
  }

  predicate HoldsTabId(d: Dashboard) {
    exists t: Tab :: d.activeTab == t.Id()
  }

  /** However the events unfold from the initial state, the active tab is one
      of the six ids, so a tabbed view shows exactly one panel. */
  lemma {:induction false} ReachableShowsOnePanel(d: Dashboard, events: seq<Event>)
    requires HoldsTabId(d)
    ensures HoldsTabId(Run(d, events))
    ensures Render(Run(d, events)).Tabbed? ==> |Render(Run(d, events)).panels| == 1
    ensures Render(Run(d, events)).Tabbed? ==>
      exists t: Tab :: Run(d, events).activeTab == t.Id() && Render(Run(d, events)).panels == [t]
    decreases |events|
  {
    if |events| == 0 {
      var t: Tab :| d.activeTab == t.Id();
      OnePanelPerTab(t);
    } else {
      var d' := Step(d, events[0]);
      if events[0].Select? {
        assert d'.activeTab == events[0].tab.Id();
      } else {
        assert d'.activeTab == d.activeTab;
      }
      ReachableShowsOnePanel(d', events[1..]);
    }
  }

  /** The dashboard starts on the overview tab. */
  lemma InitialTabIsOverview()
    ensures InitialDashboard.activeTab == Overview.Id()
    ensures HoldsTabId(InitialDashboard)
    ensures Render(InitialDashboard) == GeneratePrompt(false)
  {
  }

  /** After a failed request the prompt is back, not busy. */
  lemma FailureShowsPrompt(d: Dashboard, reply: Reply<JsValue>)
    requires !reply.Success?
    ensures Render(FinishAnalytics(d, reply)) == GeneratePrompt(false)
  {
  }

  // ---------------------------------------------------------------------
  // Display fallbacks
  // ---------------------------------------------------------------------

  /** `v?.key`: undefined unless `v` is an object. */
  function Member(v: JsValue, key: string): JsValue {
    if v.JsObject? then Get(v.props, key) else JsUndefined
  }

  /** `range?.recommended || range?.max || 'N/A'`: the recommended price when
      set, else the maximum, else the text N/A — never a blank. */
  function RecommendedPrice(range: JsValue): (r: JsValue)
    ensures Truthy(r)
    ensures Truthy(Member(range, "recommended")) ==> r == Member(range, "recommended")
    ensures !Truthy(Member(range, "recommended")) && Truthy(Member(range, "max")) ==> r == Member(range, "max")
    ensures !Truthy(Member(range, "recommended")) && !Truthy(Member(range, "max")) ==> r == JsString("N/A")
  {
    Or(Or(Member(range, "recommended"), Member(range, "max")), JsString("N/A"))
  }

  datatype Colour = Red | Yellow | Green

  /** The badge colour of a recommendation's impact: High is red, Medium is
      yellow, and anything else — including a missing impact — is green. */
  function ImpactColour(impact: JsValue): (r: Colour)
    ensures r == Red <==> impact == JsString("High")
    ensures r == Yellow <==> impact == JsString("Medium")
    ensures r == Green <==> impact != JsString("High") && impact != JsString("Medium")
  {
    if impact == JsString("High") then Red
    else if impact == JsString("Medium") then Yellow
    else Green
  }
}
