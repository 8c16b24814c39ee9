/** The decisions of the cost-estimate panel: the icon of a category, the
    badge styling of an urgency, and which of its three views is shown. */
module CostEstimator {
  import opened Wrappers
  import opened Text
  import opened Types

  // ---------------------------------------------------------------------
  // Category icons
  // ---------------------------------------------------------------------

  const PAINT_ICON: string := "🎨"
  const FLOOR_ICON: string := "🪵"
  const LIGHT_ICON: string := "💡"
  const WATER_ICON: string := "🚰"
  const WALL_ICON: string := "🧱"
  const CLEANING_ICON: string := "🧹"
  const FURNITURE_ICON: string := "🪑"
  const TOOLS_ICON: string := "🛠️"

  /** A keyword group and the icon it selects. */
  datatype IconRule = IconRule(keywords: seq<string>, icon: string)

  /** The keyword groups in the order they are tried. */
  const ICON_RULES: seq<IconRule> := [
    IconRule(["pintura"], PAINT_ICON),
    IconRule(["piso", "suelo"], FLOOR_ICON),
    IconRule(["electric", "luz"], LIGHT_ICON),
    IconRule(["agua", "plomer"], WATER_ICON),
    IconRule(["albañil", "pared"], WALL_ICON),
    IconRule(["limpieza"], CLEANING_ICON),
    IconRule(["mueble", "deco"], FURNITURE_ICON)
  ]

  predicate RuleMatches(cat: string, rule: IconRule) {
    exists k :: k in rule.keywords && Includes(cat, k)
  }

  /** The index of the first rule one of whose keywords `cat` includes. */
  function FirstMatchingRule(cat: string, rules: seq<IconRule>): (k: Option<nat>)
    ensures k.Some? ==> k.value < |rules| && RuleMatches(cat, rules[k.value])
    ensures k.Some? ==> forall j :: 0 <= j < k.value ==> !RuleMatches(cat, rules[j])
    ensures k.None? ==> forall j :: 0 <= j < |rules| ==> !RuleMatches(cat, rules[j])
  {
    if rules == [] then None
    else if RuleMatches(cat, rules[0]) then Some(0)
    else match FirstMatchingRule(cat, rules[1..])
      case None => None
      case Some(k) => Some(k + 1)
  }

  /** The rule table spelled out keyword by keyword. */
  lemma IconRulesSpelledOut(cat: string)
    ensures |ICON_RULES| == 7
    ensures RuleMatches(cat, ICON_RULES[0]) <==> Includes(cat, "pintura")
    ensures RuleMatches(cat, ICON_RULES[1]) <==> Includes(cat, "piso") || Includes(cat, "suelo")
    ensures RuleMatches(cat, ICON_RULES[2]) <==> Includes(cat, "electric") || Includes(cat, "luz")
    ensures RuleMatches(cat, ICON_RULES[3]) <==> Includes(cat, "agua") || Includes(cat, "plomer")
    ensures RuleMatches(cat, ICON_RULES[4]) <==> Includes(cat, "albañil") || Includes(cat, "pared")
    ensures RuleMatches(cat, ICON_RULES[5]) <==> Includes(cat, "limpieza")
    ensures RuleMatches(cat, ICON_RULES[6]) <==> Includes(cat, "mueble") || Includes(cat, "deco")
  {
  }

  /** `getCategoryIcon`: the icon of the first keyword group the lower-cased
      category includes, and the tools icon when it includes none. */
  function CategoryIcon(category: string): (icon: string)
    ensures icon == match FirstMatchingRule(Lower(category), ICON_RULES)
                    case Some(k) => ICON_RULES[k].icon
                    case None => TOOLS_ICON
  {
    var cat := Lower(category);
    IconRulesSpelledOut(cat);
    if Includes(cat, "pintura") then PAINT_ICON
    else if Includes(cat, "piso") || Includes(cat, "suelo") then FLOOR_ICON
    else if Includes(cat, "electric") || Includes(cat, "luz") then LIGHT_ICON
    else if Includes(cat, "agua") || Includes(cat, "plomer") then WATER_ICON
    else if Includes(cat, "albañil") || Includes(cat, "pared") then WALL_ICON
    else if Includes(cat, "limpieza") then CLEANING_ICON
    else if Includes(cat, "mueble") || Includes(cat, "deco") then FURNITURE_ICON
    else TOOLS_ICON
  }

  /** The icon depends on the category only through its lower-case form:
      categories that differ only in case get the same icon. */
  lemma CategoryIconIgnoresCase(category: string)
    ensures CategoryIcon(Lower(category)) == CategoryIcon(category)
  {
    LowerIdempotent(category);
  }

  /** The tools icon is given exactly when no keyword of any group occurs. */
  lemma CategoryIconFallback(category: string)
    ensures CategoryIcon(category) == TOOLS_ICON <==>
      forall j :: 0 <= j < |ICON_RULES| ==> !RuleMatches(Lower(category), ICON_RULES[j])
  {
    assert forall j :: 0 <= j < |ICON_RULES| ==> ICON_RULES[j].icon != TOOLS_ICON;
  }

  /** Painting is tried first: it wins over every other keyword, floors
      included. */
  lemma PaintWins(category: string)
    requires Includes(Lower(category), "pintura")
    ensures CategoryIcon(category) == PAINT_ICON
  {
  }

  /** The icons of the four categories of the demonstration estimate. */
  lemma DemoWallIcon()
    ensures CategoryIcon("Albañilería y Paredes") == WALL_ICON
  {
    var wall := "albañilería y paredes";
    LowerMatches("Albañilería y Paredes", wall);
    NotIncludesMissingChar(wall, "pintura", 't');
    NotIncludesMissingChar(wall, "piso", 'o');
    NotIncludesMissingChar(wall, "suelo", 'u');
    NotIncludesMissingChar(wall, "electric", 'c');
    NotIncludesMissingChar(wall, "luz", 'u');
    NotIncludesMissingChar(wall, "agua", 'g');
    NotIncludesMissingChar(wall, "plomer", 'o');
    assert StartsWith(wall, "albañil");
  }

  lemma DemoFloorIcon()
    ensures CategoryIcon("Pisos y Revestimientos") == FLOOR_ICON
  {
    var floor := "pisos y revestimientos";
    LowerMatches("Pisos y Revestimientos", floor);
    NotIncludesMissingChar(floor, "pintura", 'u');
    assert StartsWith(floor, "piso");
  }

  lemma DemoPaintIcon()
    ensures CategoryIcon("Pintura General") == PAINT_ICON
  {
    var paint := "pintura general";
    LowerMatches("Pintura General", paint);
    assert StartsWith(paint, "pintura");
  }

  lemma DemoLightIcon()
    ensures CategoryIcon("Electricidad") == LIGHT_ICON
  {
    var light := "electricidad";
    LowerMatches("Electricidad", light);
    NotIncludesMissingChar(light, "pintura", 'p');
    NotIncludesMissingChar(light, "piso", 'p');
    NotIncludesMissingChar(light, "suelo", 's');
    assert StartsWith(light, "electric");
  }

  /** Lower-casing a concrete string, checked character by character. */
  lemma LowerMatches(s: string, t: string)
    requires |s| == |t| && forall i :: 0 <= i < |s| ==> LowerChar(s[i]) == t[i]
    ensures Lower(s) == t
  {
  }

  // ---------------------------------------------------------------------
  // Urgency badges
  // ---------------------------------------------------------------------

  const URGENCY_LEVELS: seq<string> := ["Alta", "Media", "Baja"]

  const HIGH_STYLE: string := "bg-red-100 text-red-700 border-red-200"
  const MEDIUM_STYLE: string := "bg-amber-100 text-amber-700 border-amber-200"
  const LOW_STYLE: string := "bg-emerald-100 text-emerald-700 border-emerald-200"
  const DEFAULT_STYLE: string := "bg-slate-100 text-slate-700 border-slate-200"

  /** `getUrgencyStyles`: one style per known level, the slate default for
      any other string. */
  function UrgencyStyles(urgency: string): (style: string)
    ensures style == DEFAULT_STYLE <==> urgency !in URGENCY_LEVELS
  {
    match urgency
    case "Alta" => HIGH_STYLE
    case "Media" => MEDIUM_STYLE
    case "Baja" => LOW_STYLE
    case _ => DEFAULT_STYLE
  }

  /** The three levels get pairwise distinct styles. */
  lemma UrgencyStylesDistinct(u1: string, u2: string)
    requires u1 in URGENCY_LEVELS && u2 in URGENCY_LEVELS
    requires UrgencyStyles(u1) == UrgencyStyles(u2)
    ensures u1 == u2
  {
  }

  // ---------------------------------------------------------------------
  // View selection
  // ---------------------------------------------------------------------

  datatype EstimatorView =
    | LoadingView
    | EmptyView(showDemoButton: bool)
    | BreakdownView(analysis: CostAnalysis)

  /** Loading wins over everything; without an analysis the empty view is
      shown, with the demonstration button only when a handler for it was
      supplied; otherwise the breakdown of the analysis. */
  function SelectView(analysis: Option<CostAnalysis>, loading: bool, hasOnSimulate: bool): (view: EstimatorView)
    ensures view.LoadingView? <==> loading
    ensures view.EmptyView? <==> !loading && analysis.None?
    ensures view.EmptyView? ==> view.showDemoButton == hasOnSimulate
    ensures view.BreakdownView? ==> analysis == Some(view.analysis)
  {
    if loading then LoadingView
    else if analysis.None? then EmptyView(hasOnSimulate)
    else BreakdownView(analysis.value)
  }

  /** The demonstration button appears only in the empty view, and only
      with a handler. */
  lemma DemoButtonOnlyWhenEmpty(analysis: Option<CostAnalysis>, loading: bool, hasOnSimulate: bool)
    requires SelectView(analysis, loading, hasOnSimulate) == EmptyView(true)
    ensures !loading && analysis.None? && hasOnSimulate
  {
  }
}
