/** The research assistant's tool-call indicators: for a tool name and the
    state of its invocation, the style, icon, label and tooltip a chip shows,
    and the row of chips shown for a message's tool invocations. */
module ToolIndicator {
  import opened JsValues

  datatype InvocationState = PartialCall | Call | Result

  /** The state the style table falls back to. */
  const DEFAULT_STATE: InvocationState := Call

  /** The tools with an entry in the style table, in table order. */
  const TOOL_NAMES: seq<string> :=
    ["planYieldResearch", "yieldSearch", "getTokenPrice", "getSwapEstimate",
     "getBridgeQuote", "getTokenInfo", "getWeather", "getProtocolTvl",
     "getChainTvl", "getProtocolFees", "deepSearch", "createDocument",
     "updateDocument", "requestSuggestions"]

  /** A name with an entry in the style table: one of `TOOL_NAMES`. */
  predicate IsKnownTool(name: string)
    ensures IsKnownTool(name) <==> name in TOOL_NAMES
  {
    || name == "planYieldResearch" || name == "yieldSearch" || name == "getTokenPrice"
    || name == "getSwapEstimate" || name == "getBridgeQuote" || name == "getTokenInfo"
    || name == "getWeather" || name == "getProtocolTvl" || name == "getChainTvl"
    || name == "getProtocolFees" || name == "deepSearch" || name == "createDocument"
    || name == "updateDocument" || name == "requestSuggestions"
  }

  // ---------------------------------------------------------------------------
  // Lookups.
  // ---------------------------------------------------------------------------

  function StatusText(state: InvocationState): string
  {
    match state
    case PartialCall => "Preparing..."
    case Call => "Processing..."
    case Result => "Complete"
  }

  /** The status text for the state prop as given: the comparisons in the
      component match only `partial-call` and `call`, so any other value,
      a missing state included, reads as complete. */
  function StatusTextOf(state: Option<InvocationState>): (t: string)
    ensures state.Some? ==> t == StatusText(state.value)
    ensures state.None? ==> t == "Complete"
    ensures t == "Complete" <==> state != Some(PartialCall) && state != Some(Call)
  {
    if state == Some(PartialCall) then "Preparing..."
    else if state == Some(Call) then "Processing..."
    else "Complete"
  }

  /** The states' texts tell them apart. */
  lemma StatusTextDistinct(a: InvocationState, b: InvocationState)
    ensures StatusText(a) == StatusText(b) <==> a == b
  {
  }

  datatype Glyph =
    | Search | ChartBar | DollarSign | ArrowUp | Database | Globe | BarChart
    | Coins | LayoutDashboard | File | Terminal | Sparkles

  /** Icons are sized either by the `size-4` class or by a pixel size. */
  datatype IconSize = SizeClass4 | Pixels(px: nat)

  datatype Icon = Icon(glyph: Glyph, size: IconSize)

  function IconFor(toolName: string): Icon
  {
    if toolName == "planYieldResearch" then Icon(Search, SizeClass4)
    else if toolName == "yieldSearch" then Icon(ChartBar, SizeClass4)
    else if toolName == "getTokenPrice" then Icon(DollarSign, SizeClass4)
    else if toolName == "getSwapEstimate" then Icon(ArrowUp, Pixels(14))
    else if toolName == "getTokenInfo" then Icon(Database, Pixels(14))
    else if toolName == "getBridgeQuote" then Icon(ArrowUp, Pixels(14))
    else if toolName == "getWeather" then Icon(Globe, Pixels(14))
    else if toolName == "getProtocolTvl" then Icon(BarChart, Pixels(14))
    else if toolName == "getChainTvl" then Icon(Database, Pixels(14))
    else if toolName == "getProtocolFees" then Icon(Coins, Pixels(14))
    else if toolName == "deepSearch" then Icon(LayoutDashboard, Pixels(14))
    else if toolName == "createDocument" || toolName == "updateDocument" then Icon(File, Pixels(14))
    else if toolName == "requestSuggestions" then Icon(Terminal, Pixels(14))
    else Icon(Sparkles, Pixels(14))
  }

  const FALLBACK_DESCRIPTION := "Using a tool"

  function Description(toolName: string): string
  {
    if toolName == "planYieldResearch" then "Creating a research plan for yield opportunities"
    else if toolName == "yieldSearch" then "Searching for yield farming opportunities"
    else if toolName == "getTokenPrice" then "Retrieving token price information"
    else if toolName == "getSwapEstimate" then "Calculating token swap estimates (same chain)"
    else if toolName == "getTokenInfo" then "Finding token contract address and details on a specific blockchain"
    else if toolName == "getBridgeQuote" then "Estimating costs for moving tokens between blockchains"
    else if toolName == "getWeather" then "Checking weather information"
    else if toolName == "getProtocolTvl" then "Fetching Total Value Locked for a DeFi protocol"
    else if toolName == "getChainTvl" then "Fetching Total Value Locked for a blockchain"
    else if toolName == "getProtocolFees" then "Retrieving fee and revenue data for a protocol"
    else if toolName == "deepSearch" then "Comprehensive search across DeFi protocols, yields, TVL and fees"
    else if toolName == "createDocument" then "Creating a new document"
    else if toolName == "updateDocument" then "Updating an existing document"
    else if toolName == "requestSuggestions" then "Generating suggestions"
    else FALLBACK_DESCRIPTION
  }

  /** The style table's tool column, keyed by variant name. */
  function ToolVariant(key: string): Option<string>
  {
    if key == "planYieldResearch" then Some("bg-purple-100 text-purple-800 border-purple-200")
    else if key == "yieldSearch" then Some("bg-blue-100 text-blue-800 border-blue-200")
    else if key == "getTokenPrice" then Some("bg-green-100 text-green-800 border-green-200")
    else if key == "getSwapEstimate" then Some("bg-amber-100 text-amber-800 border-amber-200")
    else if key == "getBridgeQuote" then Some("bg-pink-100 text-pink-800 border-pink-200")
    else if key == "getTokenInfo" then Some("bg-cyan-100 text-cyan-800 border-cyan-200")
    else if key == "getWeather" then Some("bg-sky-100 text-sky-800 border-sky-200")
    else if key == "getProtocolTvl" then Some("bg-orange-100 text-orange-800 border-orange-200")
    else if key == "getChainTvl" then Some("bg-teal-100 text-teal-800 border-teal-200")
    else if key == "getProtocolFees" then Some("bg-lime-100 text-lime-800 border-lime-200")
    else if key == "deepSearch" then Some("bg-violet-100 text-violet-800 border-violet-200")
    else if key == "createDocument" then Some("bg-indigo-100 text-indigo-800 border-indigo-200")
    else if key == "updateDocument" then Some("bg-purple-100 text-purple-800 border-purple-200")
    else if key == "requestSuggestions" then Some("bg-rose-100 text-rose-800 border-rose-200")
    else if key == "default" then Some("bg-gray-100 text-gray-800 border-gray-200")
    else None
  }

  /** The tool class the style table yields for a tool name: the name itself
      is the variant key, and only an empty name falls back to `default`. */
  function ToolStyle(toolName: string): Option<string>
  {
    ToolVariant(if toolName == "" then "default" else toolName)
  }

  /** The state column of the style table, as opacity percentages. */
  function StateOpacity(state: InvocationState): nat
  {
    match state
    case PartialCall => 60
    case Call => 90
    case Result => 100
  }

  function StateClass(state: InvocationState): string
  {
    match state
    case PartialCall => "opacity-60"
    case Call => "opacity-90"
    case Result => "opacity-100"
  }

  /** The state a missing state prop falls back to. */
  function StateOrDefault(state: Option<InvocationState>): (s: InvocationState)
    ensures state.Some? ==> s == state.value
    ensures state.None? ==> StateOpacity(s) == 90
  {
    if state.Some? then state.value else DEFAULT_STATE
  }

  /** How far an invocation has progressed. */
  function Progress(state: InvocationState): nat
  {
    match state
    case PartialCall => 0
    case Call => 1
    case Result => 2
  }

  // ---------------------------------------------------------------------------
  // Properties of the lookups.
  // ---------------------------------------------------------------------------

  /** A chip grows more opaque as its invocation progresses, and the state
      class names the opacity. */
  lemma OpacityFollowsProgress(a: InvocationState, b: InvocationState)
    ensures Progress(a) < Progress(b) <==> StateOpacity(a) < StateOpacity(b)
    ensures StateClass(a) == "opacity-" + (if a == Result then "100" else if a == Call then "90" else "60")
    ensures StateOpacity(a) == 100 <==> a == Result
  {
  }

  /** Names outside the tool table get the sparkles icon and the generic
      description, and no tool in the table gets either. */
  lemma UnknownToolFallbacks(toolName: string)
    ensures !IsKnownTool(toolName) <==> IconFor(toolName).glyph == Sparkles
    ensures !IsKnownTool(toolName) <==> Description(toolName) == FALLBACK_DESCRIPTION
    ensures !IsKnownTool(toolName) ==> IconFor(toolName) == Icon(Sparkles, Pixels(14))
  {
  }

  /** Only the three research tools size their icon with the `size-4` class;
      every other icon, the fallback included, is 14 pixels. */
  lemma IconSizes(toolName: string)
    ensures IconFor(toolName).size == SizeClass4 <==>
              toolName == "planYieldResearch" || toolName == "yieldSearch" || toolName == "getTokenPrice"
    ensures IconFor(toolName).size != SizeClass4 ==> IconFor(toolName).size == Pixels(14)
  {
  }

  /** The tools drawn with each glyph, as a reference table. */
  function GlyphOwners(g: Glyph): set<string>
  {
    match g
    case Search => {"planYieldResearch"}
    case ChartBar => {"yieldSearch"}
    case DollarSign => {"getTokenPrice"}
    case ArrowUp => {"getSwapEstimate", "getBridgeQuote"}
    case Database => {"getTokenInfo", "getChainTvl"}
    case Globe => {"getWeather"}
    case BarChart => {"getProtocolTvl"}
    case Coins => {"getProtocolFees"}
    case LayoutDashboard => {"deepSearch"}
    case File => {"createDocument", "updateDocument"}
    case Terminal => {"requestSuggestions"}
    case Sparkles => {}
  }

  /** A name is drawn with a glyph other than sparkles exactly when the
      reference table lists it for that glyph. */
  lemma GlyphOwnersExact(toolName: string, g: Glyph)
    ensures IconFor(toolName).glyph == g && g != Sparkles <==> toolName in GlyphOwners(g)
  {
    var h := IconFor(toolName).glyph;
    if h != Sparkles {
      assert toolName in GlyphOwners(h);
    }
    if toolName in GlyphOwners(g) {
      assert h == g;
    }
  }

  /** `{a, b}` is the pair `{x, y}`. */
  predicate IsPair(a: string, b: string, x: string, y: string)
  {
    (a == x && b == y) || (a == y && b == x)
  }

  /** Exactly three pairs of tools share a glyph: the two document tools, the
      swap and bridge tools, and the token-info and chain-TVL tools. */
  lemma SharedIcons(a: string, b: string)
    requires a != b
    ensures IconFor(a).glyph == IconFor(b).glyph && IconFor(a).glyph != Sparkles <==>
              || IsPair(a, b, "createDocument", "updateDocument")
              || IsPair(a, b, "getSwapEstimate", "getBridgeQuote")
              || IsPair(a, b, "getTokenInfo", "getChainTvl")
  {
    var g := IconFor(a).glyph;
    GlyphOwnersExact(a, g);
    GlyphOwnersExact(b, g);
    if IconFor(b).glyph == g && g != Sparkles {
      match g
      case ArrowUp =>
      case Database =>
      case File =>
      case _ => assert false;
    }
  }

  /** The tool column of the style table lists exactly the tools with an icon
      and a description of their own, plus the `default` key. */
  lemma StyleTableMatchesLookups(key: string)
    ensures ToolVariant(key).Some? <==> IsKnownTool(key) || key == "default"
    ensures IsKnownTool(key) ==> IconFor(key).glyph != Sparkles && Description(key) != FALLBACK_DESCRIPTION
  {
    UnknownToolFallbacks(key);
  }

  /** An empty name takes the gray default style; any other name takes its
      own table entry, so a name outside the table adds no tool class. */
  lemma ToolStyleFallback(toolName: string)
    ensures toolName == "" ==> ToolStyle(toolName) == Some("bg-gray-100 text-gray-800 border-gray-200")
    ensures toolName != "" ==> ToolStyle(toolName) == ToolVariant(toolName)
    ensures toolName != "default" && toolName != "" ==> (ToolStyle(toolName).Some? <==> IsKnownTool(toolName))
  {
    StyleTableMatchesLookups(toolName);
  }

  // ---------------------------------------------------------------------------
  // Rendering.
  // ---------------------------------------------------------------------------

  datatype IndicatorProps = IndicatorProps(toolName: string, state: Option<InvocationState>,
                                           animate: Option<bool>)

  /** What one chip shows: its tool and state classes, the icon, the label and
      the tooltip text, and whether it fades in. */
  datatype Indicator = Indicator(toolStyle: Option<string>, stateClass: string, icon: Icon,
                                 caption: string, tooltip: string, entrance: bool)

  const SEPARATOR := " • "

  function Render(props: IndicatorProps): (r: Indicator)
    ensures r.caption == props.toolName + SEPARATOR + StatusTextOf(props.state)
    ensures r.stateClass == StateClass(StateOrDefault(props.state))
    ensures r.icon == IconFor(props.toolName) && r.tooltip == Description(props.toolName)
    ensures r.toolStyle == ToolStyle(props.toolName)
    ensures r.entrance <==> props.animate != Some(false)
  {
    Indicator(ToolStyle(props.toolName), StateClass(StateOrDefault(props.state)), IconFor(props.toolName),
              props.toolName + SEPARATOR + StatusTextOf(props.state), Description(props.toolName),
              if props.animate.Some? then props.animate.value else true)
  }

  /** The label starts with the tool name and ends with the status text, so it
      reveals both the tool and how far its call has got. */
  lemma LabelShowsToolAndStatus(props: IndicatorProps, state: InvocationState)
    requires props.state == Some(state)
    ensures var l := Render(props).caption;
            && StartsWith(l, props.toolName)
            && l[|props.toolName|..|props.toolName| + |SEPARATOR|] == SEPARATOR
            && l[|props.toolName| + |SEPARATOR|..] == StatusText(state)
  {
  }

  /** A chip without a state prop takes the `call` opacity from the style
      table's default but reads "Complete", so its opacity and its text
      disagree; with a state given they always agree. */
  lemma MissingStateShowsComplete(props: IndicatorProps)
    ensures props.state.None? ==>
              && Render(props).stateClass == "opacity-90"
              && Render(props).caption == props.toolName + SEPARATOR + "Complete"
              && StatusText(StateOrDefault(props.state)) != "Complete"
    ensures props.state.Some? ==>
              var c := Render(props).caption;
              (StateOpacity(props.state.value) == 100 <==> |c| >= 8 && c[|c| - 8..] == "Complete")
  {
    if props.state.Some? {
      var c := Render(props).caption;
      var t := StatusText(props.state.value);
      assert c == (props.toolName + SEPARATOR) + t;
      assert c[|c| - |t|..] == t;
      if |c| >= 8 && c[|c| - 8..] == "Complete" {
        assert t[|t| - 8..] == c[|c| - 8..];
      }
    }
  }

  datatype Invocation = Invocation(toolName: string, state: InvocationState, toolCallId: string)

  datatype KeyedIndicator = KeyedIndicator(key: string, indicator: Indicator)

  /** One chip for an invocation, with the default `animate`. */
  function RenderInvocation(inv: Invocation): KeyedIndicator
  {
    KeyedIndicator(inv.toolCallId, Render(IndicatorProps(inv.toolName, Some(inv.state), None)))
  }

  /** `invocations.map(...)`. */
  function RenderAll(invocations: seq<Invocation>): (r: seq<KeyedIndicator>)
    ensures |r| == |invocations|
    ensures forall i :: 0 <= i < |r| ==> r[i] == RenderInvocation(invocations[i])
    decreases |invocations|
  {
    if |invocations| == 0 then []
    else [RenderInvocation(invocations[0])] + RenderAll(invocations[1..])
  }

  /** The row of chips: nothing for a missing or empty list, otherwise one chip
      per invocation, in order, keyed by its call id. */
  function Group(invocations: Option<seq<Invocation>>): (r: Option<seq<KeyedIndicator>>)
    ensures r.None? <==> invocations.None? || |invocations.value| == 0
    ensures r.Some? ==>
              && |r.value| == |invocations.value|
              && forall i :: 0 <= i < |r.value| ==>
                   && r.value[i].key == invocations.value[i].toolCallId
                   && r.value[i].indicator.caption
                        == invocations.value[i].toolName + SEPARATOR + StatusText(invocations.value[i].state)
                   && r.value[i].indicator.icon == IconFor(invocations.value[i].toolName)
                   && r.value[i].indicator.tooltip == Description(invocations.value[i].toolName)
                   && r.value[i].indicator.stateClass == StateClass(invocations.value[i].state)
                   && r.value[i].indicator.entrance
  {
    if invocations.None? || |invocations.value| == 0 then None
    else Some(RenderAll(invocations.value))
  }

  /** Rendering a longer list extends the row: the chips of a prefix are the
      first chips of the whole. */
  lemma RenderAllAppend(xs: seq<Invocation>, ys: seq<Invocation>)
    ensures RenderAll(xs + ys) == RenderAll(xs) + RenderAll(ys)
  {
    var whole, parts := RenderAll(xs + ys), RenderAll(xs) + RenderAll(ys);
    forall i | 0 <= i < |whole| ensures whole[i] == parts[i] {
      if i < |xs| {
        assert (xs + ys)[i] == xs[i];
      } else {
        assert (xs + ys)[i] == ys[i - |xs|];
      }
    }
  }
}
