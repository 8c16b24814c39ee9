/** The records of types.ts. JavaScript numbers become `int` for the money
    amounts (every amount the application produces itself is a whole number)
    and `real` for a provider's rating; `string | null` becomes
    `Option<string>`. */
module Types {
  import opened Wrappers

  /** One line of a repair estimate. The urgency is declared as
      'Baja' | 'Media' | 'Alta', but it arrives from an unchecked JSON parse,
      so any string can occur; the badge styling has a default for that. */
  datatype RenovationItem = RenovationItem(
    category: string,
    description: string,
    estimatedCostARS: int,
    estimatedCostUSD: int,
    urgency: string)

  datatype CostAnalysis = CostAnalysis(
    items: seq<RenovationItem>,
    totalCostARS: int,
    totalCostUSD: int,
    summary: string)

  /** A directory entry; `isPromoted` is optional in the source and absent
      means false. */
  datatype Provider = Provider(
    id: string,
    name: string,
    profession: string,
    rating: real,
    location: string,
    imageUrl: string,
    isPromoted: bool)

  datatype TransformationStyle =
    | Original
    | FixHumidity
    | Modern
    | Scandinavian
    | Industrial
    | Minimalist

  /** The single state record of the page. */
  datatype AppState = AppState(
    originalImage: Option<string>,
    generatedImage: Option<string>,
    isAnalyzing: bool,
    isGenerating: bool,
    analysis: Option<CostAnalysis>,
    selectedStyle: TransformationStyle)

  /** JavaScript truthiness of a `string | null`: neither null nor empty. */
  predicate Present(image: Option<string>) {
    image.Some? && image.value != ""
  }
}
