/** The page controller: one `AppState` record, changed by the upload,
    analysis, style, demonstration and reset handlers. Each remote call is
    replaced by the reply it received, passed in as a parameter; the
    handlers run to completion one after another. */
module App {
  import opened Wrappers
  import opened Types
  import opened GeminiService
  import opened Text

  const INITIAL_STATE: AppState := AppState(None, None, false, false, None, Original)

  /** The picture shown by the demonstration when nothing was uploaded. */
  const PLACEHOLDER_IMAGE: string :=
    "https://images.unsplash.com/photo-1513694203232-719a280e022f?q=80&w=1000&auto=format&fit=crop"

  /** The fixed estimate the demonstration loads. */
  const MOCK_ANALYSIS: CostAnalysis := CostAnalysis(
    [
      RenovationItem(
        "Albañilería y Paredes",
        "Picado de revoque en sector con humedad ascendente (12m²), tratamiento con bloqueador hidrófugo inyectable y revoque nuevo completo con terminación fina.",
        850000, 850, "Alta"),
      RenovationItem(
        "Pisos y Revestimientos",
        "Pulido integral de parquet de Roble de Eslavonia existente y aplicación de 3 manos de laca poliuretánica satinada de alto tránsito (Plastificado).",
        420000, 420, "Media"),
      RenovationItem(
        "Pintura General",
        "Aplicación de enduido completo en muros y cielorrasos para alisar imperfecciones, lijado y 2 manos de látex interior lavable premium (Alba/Sherwin).",
        380000, 380, "Media"),
      RenovationItem(
        "Electricidad",
        "Reemplazo de 8 cajas de tomas y puntos por línea moderna (Cambre Siglo XXII). Verificación de cableado y puesta a tierra.",
        150000, 150, "Baja")
    ],
    1800000,
    1800,
    "La propiedad tiene excelente potencial. La inversión principal debe enfocarse en resolver la humedad de cimientos antes de cualquier tratamiento estético. El piso de roble es recuperable y aumentará significativamente el valor de tasación.")

  function SumARS(items: seq<RenovationItem>): int {
    if items == [] then 0 else items[0].estimatedCostARS + SumARS(items[1..])
  }

  function SumUSD(items: seq<RenovationItem>): int {
    if items == [] then 0 else items[0].estimatedCostUSD + SumUSD(items[1..])
  }

  /** In the demonstration estimate the items add up to the totals, in both
      currencies (the totals of a real analysis are taken as the service
      gives them and are not checked). */
  lemma MockAnalysisTotalsMatchItems()
    ensures SumARS(MOCK_ANALYSIS.items) == MOCK_ANALYSIS.totalCostARS == 1800000
    ensures SumUSD(MOCK_ANALYSIS.items) == MOCK_ANALYSIS.totalCostUSD == 1800
  {
    var items := MOCK_ANALYSIS.items;
    assert items[1..][1..][1..][1..] == [];
  }

  // ---------------------------------------------------------------------
  // Display
  // ---------------------------------------------------------------------

  const REDESIGNING_LABEL: string := "Rediseñando espacio..."
  const ANALYZING_LABEL: string := "Analizando reparaciones..."

  /** The picture on screen: the generated one when there is one, the
      upload otherwise. */
  function DisplayedImage(s: AppState): (image: Option<string>)
    ensures image == s.generatedImage || image == s.originalImage
    ensures Present(s.generatedImage) ==> image == s.generatedImage
    ensures Present(s.originalImage) ==> Present(image)
  {
    if Present(s.generatedImage) then s.generatedImage else s.originalImage
  }

  /** The loading overlay: part of the picture panel, which exists only while
      an upload is present; shown there while either call is pending, naming
      the redesign when one is pending and the analysis otherwise. */
  function LoadingLabel(s: AppState): (overlay: Option<string>)
    ensures overlay.None? <==> !Present(s.originalImage) || (!s.isAnalyzing && !s.isGenerating)
    ensures overlay == Some(REDESIGNING_LABEL) <==> Present(s.originalImage) && s.isGenerating
    ensures overlay == Some(ANALYZING_LABEL) <==> Present(s.originalImage) && s.isAnalyzing && !s.isGenerating
  {
    if Present(s.originalImage) && (s.isGenerating || s.isAnalyzing) then
      Some(if s.isGenerating then REDESIGNING_LABEL else ANALYZING_LABEL)
    else None
  }

  // ---------------------------------------------------------------------
  // Handlers as transitions of the state record
  // ---------------------------------------------------------------------

  /** A user action together with the reply its remote call received. */
  datatype Action =
    | Upload(file: Option<string>, analysisReply: AnalysisReply)
    | ChangeStyle(style: TransformationStyle, previewReply: PreviewReply)
    | LoadDemo
    | ResetImages

  /** A call to the remote service. */
  datatype Call =
    | AnalyzeCall(image: string)
    | TransformCall(image: string, style: TransformationStyle)

  /** Folding the outcome of an analysis into the state. */
  function WithAnalysis(s: AppState, outcome: Result<CostAnalysis, ServiceError>): (t: AppState)
    ensures !t.isAnalyzing
    ensures outcome.Success? ==> t.analysis == Some(outcome.value)
    ensures outcome.Failure? ==> t.analysis == s.analysis
    ensures t.(analysis := s.analysis, isAnalyzing := s.isAnalyzing) == s
  {
    match outcome
    case Success(a) => s.(analysis := Some(a), isAnalyzing := false)
    case Failure(_) => s.(isAnalyzing := false)
  }

  /** Folding the outcome of a transformation into the state. */
  function WithPreview(s: AppState, outcome: Result<string, ServiceError>): (t: AppState)
    ensures !t.isGenerating
    ensures outcome.Success? ==> t.generatedImage == Some(outcome.value)
    ensures outcome.Failure? ==> t.generatedImage == s.generatedImage
    ensures t.(generatedImage := s.generatedImage, isGenerating := s.isGenerating) == s
  {
    match outcome
    case Success(image) => s.(generatedImage := Some(image), isGenerating := false)
    case Failure(_) => s.(isGenerating := false)
  }

  /** A file upload: without a file nothing happens; otherwise the new image
      replaces everything derived from the old one, and the analysis of it
      runs to its outcome. */
  function AfterUpload(s: AppState, file: Option<string>, reply: AnalysisReply): (t: AppState)
    ensures file.None? ==> t == s
    ensures file.Some? ==> t.originalImage == file && t.generatedImage.None? && t.selectedStyle == Original
    ensures file.Some? ==> !t.isAnalyzing && t.isGenerating == s.isGenerating
    ensures file.Some? ==> t.analysis == AnalyzeImageCosts(reply).ToOption()
  {
    match file
    case None => s
    case Some(base64) =>
      var loaded := s.(originalImage := Some(base64), generatedImage := None, analysis := None,
                       selectedStyle := Original);
      WithAnalysis(loaded.(isAnalyzing := true), AnalyzeImageCosts(reply))
  }

  /** A style choice: nothing without an image; `Original` drops the
      generated image without any call; any other style is applied to the
      uploaded image and its outcome folded in. */
  function AfterStyleChange(s: AppState, style: TransformationStyle, reply: PreviewReply): (t: AppState)
    ensures !Present(s.originalImage) ==> t == s
    ensures t.originalImage == s.originalImage && t.analysis == s.analysis && t.isAnalyzing == s.isAnalyzing
    ensures Present(s.originalImage) && style == Original ==>
      t == s.(selectedStyle := Original, generatedImage := None)
    ensures Present(s.originalImage) && style != Original ==>
      t.selectedStyle == style && !t.isGenerating &&
      t.generatedImage == match GenerateRenovationPreview(s.originalImage.value, style, reply)
                          case Success(image) => Some(image)
                          case Failure(_) => s.generatedImage
  {
    if !Present(s.originalImage) then s
    else
      var chosen := s.(selectedStyle := style);
      if style == Original then chosen.(generatedImage := None)
      else WithPreview(chosen.(isGenerating := true), GenerateRenovationPreview(s.originalImage.value, style, reply))
  }

  /** The demonstration: the fixed estimate, and the placeholder picture
      only when no image is present. */
  function AfterDemo(s: AppState): (t: AppState)
    ensures t.analysis == Some(MOCK_ANALYSIS)
    ensures Present(s.originalImage) ==> t.originalImage == s.originalImage
    ensures !Present(s.originalImage) ==> t.originalImage == Some(PLACEHOLDER_IMAGE)
    ensures t.(originalImage := s.originalImage, analysis := s.analysis) == s
  {
    s.(analysis := Some(MOCK_ANALYSIS),
       originalImage := if Present(s.originalImage) then s.originalImage else Some(PLACEHOLDER_IMAGE))
  }

  /** The reset button: both images and the analysis go; the style and the
      busy flags stay. */
  function AfterReset(s: AppState): (t: AppState)
    ensures t.originalImage.None? && t.generatedImage.None? && t.analysis.None?
    ensures t.selectedStyle == s.selectedStyle && t.isAnalyzing == s.isAnalyzing && t.isGenerating == s.isGenerating
  {
    s.(originalImage := None, generatedImage := None, analysis := None)
  }

  function Step(s: AppState, action: Action): AppState {
    match action
    case Upload(file, reply) => AfterUpload(s, file, reply)
    case ChangeStyle(style, reply) => AfterStyleChange(s, style, reply)
    case LoadDemo => AfterDemo(s)
    case ResetImages => AfterReset(s)
  }

  /** The calls to the remote service an action makes. */
  function Calls(s: AppState, action: Action): (calls: seq<Call>)
    ensures |calls| <= 1
    ensures action.Upload? ==> (calls == [] <==> action.file.None?)
    ensures (action.LoadDemo? || action.ResetImages?) ==> calls == []
    ensures action.ChangeStyle? ==>
      (calls != [] <==> Present(s.originalImage) && action.style != Original)
    ensures action.Upload? && action.file.Some? ==> calls == [AnalyzeCall(action.file.value)]
    ensures action.ChangeStyle? && calls != [] ==>
      calls == [TransformCall(s.originalImage.value, action.style)]
  {
    match action
    case Upload(file, _) => if file.Some? then [AnalyzeCall(file.value)] else []
    case ChangeStyle(style, _) =>
      if Present(s.originalImage) && style != Original then [TransformCall(s.originalImage.value, style)] else []
    case LoadDemo => []
    case ResetImages => []
  }

  function Run(s: AppState, actions: seq<Action>): AppState
    decreases |actions|
  {
    if actions == [] then s else Run(Step(s, actions[0]), actions[1..])
  }

  // ---------------------------------------------------------------------
  // Invariants and properties of the transitions
  // ---------------------------------------------------------------------

  /** The page never shows a generated image under the `Original` style, and
      never has a generated image without an upload. */
  predicate Consistent(s: AppState) {
    && (s.selectedStyle == Original ==> s.generatedImage.None?)
    && (s.generatedImage.Some? ==> Present(s.originalImage))
  }

  /** No call is pending: both busy flags are clear. */
  predicate Idle(s: AppState) {
    !s.isAnalyzing && !s.isGenerating
  }

  lemma InitialStateIsConsistent()
    ensures Consistent(INITIAL_STATE) && Idle(INITIAL_STATE)
    ensures INITIAL_STATE.originalImage.None? && INITIAL_STATE.generatedImage.None? && INITIAL_STATE.analysis.None?
  {
  }

  /** Every completed handler keeps the state consistent and leaves no busy
      flag set. */
  lemma StepPreservesInvariant(s: AppState, action: Action)
    requires Consistent(s) && Idle(s)
    ensures Consistent(Step(s, action)) && Idle(Step(s, action))
  {
  }

  /** Whatever the user does, and whatever the service replies, the page is
      consistent and idle between handlers. */
  lemma {:induction false} RunPreservesInvariant(s: AppState, actions: seq<Action>)
    requires Consistent(s) && Idle(s)
    ensures Consistent(Run(s, actions)) && Idle(Run(s, actions))
    decreases |actions|
  {
    if actions != [] {
      StepPreservesInvariant(s, actions[0]);
      RunPreservesInvariant(Step(s, actions[0]), actions[1..]);
    }
  }

  /** Under the `Original` style a consistent page shows the upload. */
  lemma OriginalStyleShowsUpload(s: AppState)
    requires Consistent(s) && s.selectedStyle == Original
    ensures DisplayedImage(s) == s.originalImage
  {
  }

  /** In every state reachable from the initial one, the `Original` style
      shows the upload and no loading overlay is left on screen. */
  lemma {:induction false} ReachableStatesShowUpload(actions: seq<Action>)
    ensures Run(INITIAL_STATE, actions).selectedStyle == Original ==>
      DisplayedImage(Run(INITIAL_STATE, actions)) == Run(INITIAL_STATE, actions).originalImage
    ensures LoadingLabel(Run(INITIAL_STATE, actions)).None?
  {
    RunPreservesInvariant(INITIAL_STATE, actions);
  }

  /** A successful redesign is what the page then shows. */
  lemma SuccessfulPreviewIsShown(s: AppState, style: TransformationStyle, reply: PreviewReply)
    requires Present(s.originalImage) && style != Original
    requires GenerateRenovationPreview(s.originalImage.value, style, reply).Success?
    ensures DisplayedImage(AfterStyleChange(s, style, reply)) ==
      Some(GenerateRenovationPreview(s.originalImage.value, style, reply).value)
  {
    var image := GenerateRenovationPreview(s.originalImage.value, style, reply).value;
    assert StartsWith(image, "data:");
  }

  /** A new upload makes a preceding reset irrelevant: the upload replaces
      everything the reset clears. */
  lemma UploadAfterReset(s: AppState, base64: string, reply: AnalysisReply)
    ensures AfterUpload(AfterReset(s), Some(base64), reply) == AfterUpload(s, Some(base64), reply)
  {
  }

  /** On a consistent page, choosing `Original` always leaves no generated
      image, whether or not the guard let the handler run. */
  lemma OriginalStyleClearsPreview(s: AppState, reply: PreviewReply)
    requires Consistent(s)
    ensures AfterStyleChange(s, Original, reply).generatedImage.None?
    ensures Calls(s, ChangeStyle(Original, reply)) == []
  {
  }

  /** Choosing `Original` twice is choosing it once. */
  lemma OriginalStyleIdempotent(s: AppState, reply: PreviewReply, reply': PreviewReply)
    ensures AfterStyleChange(AfterStyleChange(s, Original, reply), Original, reply') ==
      AfterStyleChange(s, Original, reply)
  {
  }

  /** Transformations are not chained: the image sent is the upload, whatever
      image was generated before. */
  lemma TransformIgnoresGeneratedImage(s: AppState, style: TransformationStyle, reply: PreviewReply, generated: Option<string>)
    ensures Calls(s.(generatedImage := generated), ChangeStyle(style, reply)) == Calls(s, ChangeStyle(style, reply))
  {
  }

  // ---------------------------------------------------------------------
  // The component
  // ---------------------------------------------------------------------

  /** The page component. Each step method is one `setState` updater; the
      handler methods run those steps in the order the source does and are
      proved to perform the transitions above. */
  class AppComponent {
    var state: AppState

    ghost predicate Valid()
      reads this
    {
      Consistent(state) && Idle(state)
    }

    constructor()
      ensures state == INITIAL_STATE
      ensures Valid()
    {
      state := INITIAL_STATE;
    }

    /** The updater run once the file has been read. */
    method StoreUpload(base64: string)
      modifies this
      ensures state == old(state).(originalImage := Some(base64), generatedImage := None, analysis := None,
                                   selectedStyle := Original)
    {
      state := state.(originalImage := Some(base64), generatedImage := None, analysis := None,
                      selectedStyle := Original);
    }

    method BeginAnalysis()
      modifies this
      ensures state == old(state).(isAnalyzing := true)
    {
      state := state.(isAnalyzing := true);
    }

    method EndAnalysis(outcome: Result<CostAnalysis, ServiceError>)
      modifies this
      ensures state == WithAnalysis(old(state), outcome)
    {
      match outcome {
        case Success(a) => state := state.(analysis := Some(a), isAnalyzing := false);
        case Failure(_) => state := state.(isAnalyzing := false);
      }
    }

    method SelectStyle(style: TransformationStyle)
      modifies this
      ensures state == old(state).(selectedStyle := style)
    {
      state := state.(selectedStyle := style);
    }

    method ClearGenerated()
      modifies this
      ensures state == old(state).(generatedImage := None)
    {
      state := state.(generatedImage := None);
    }

    method BeginGenerating()
      modifies this
      ensures state == old(state).(isGenerating := true)
    {
      state := state.(isGenerating := true);
    }

    method EndGenerating(outcome: Result<string, ServiceError>)
      modifies this
      ensures state == WithPreview(old(state), outcome)
    {
      match outcome {
        case Success(image) => state := state.(generatedImage := Some(image), isGenerating := false);
        case Failure(_) => state := state.(isGenerating := false);
      }
    }

    /** `performAnalysis`: raise the flag, make the call, fold in its outcome. */
    method PerformAnalysis(base64: string, reply: AnalysisReply) returns (call: Call)
      modifies this
      ensures call == AnalyzeCall(base64)
      ensures state == WithAnalysis(old(state).(isAnalyzing := true), AnalyzeImageCosts(reply))
    {
      BeginAnalysis();
      call := AnalyzeCall(base64);
      EndAnalysis(AnalyzeImageCosts(reply));
    }

    /** `handleImageUpload`: with a file, store it and analyse it. */
    method HandleImageUpload(file: Option<string>, reply: AnalysisReply) returns (calls: seq<Call>)
      requires Valid()
      modifies this
      ensures Valid()
      ensures state == AfterUpload(old(state), file, reply)
      ensures calls == Calls(old(state), Upload(file, reply))
    {
      calls := [];
      if file.Some? {
        StoreUpload(file.value);
        var call := PerformAnalysis(file.value, reply);
        calls := [call];
      }
      StepPreservesInvariant(old(state), Upload(file, reply));
    }

    /** `handleStyleChange`: guarded by the presence of an upload; `Original`
      returns early, any other style is requested for the upload. */
    method HandleStyleChange(style: TransformationStyle, reply: PreviewReply) returns (calls: seq<Call>)
      requires Valid()
      modifies this
      ensures Valid()
      ensures state == AfterStyleChange(old(state), style, reply)
      ensures calls == Calls(old(state), ChangeStyle(style, reply))
    {
      calls := [];
      if !Present(state.originalImage) {
        return;
      }
      var source := state.originalImage.value;
      SelectStyle(style);
      if style == Original {
        ClearGenerated();
        StepPreservesInvariant(old(state), ChangeStyle(style, reply));
        return;
      }
      BeginGenerating();
      calls := [TransformCall(source, style)];
      EndGenerating(GenerateRenovationPreview(source, style, reply));
      StepPreservesInvariant(old(state), ChangeStyle(style, reply));
    }

    /** `handleSimulate`: load the demonstration estimate. */
    method HandleSimulate()
      requires Valid()
      modifies this
      ensures Valid()
      ensures state == AfterDemo(old(state))
    {
      state := state.(analysis := Some(MOCK_ANALYSIS),
                      originalImage := if Present(state.originalImage) then state.originalImage
                                       else Some(PLACEHOLDER_IMAGE));
    }

    /** The reset button's updater. */
    method HandleReset()
      requires Valid()
      modifies this
      ensures Valid()
      ensures state == AfterReset(old(state))
    {
      state := state.(originalImage := None, generatedImage := None, analysis := None);
    }
  }
}
