/** The gateway to the generative-AI service: what is sent for an image, and
    how the two kinds of reply become a result or a failure. The calls
    themselves are not modelled; each reply is given as a value. */
module GeminiService {
  import opened Wrappers
  import opened Text
  import opened Types

  datatype ServiceError = AnalysisFailure | TransformationFailure

  /** The inline image of an outbound request. */
  datatype OutboundImage = OutboundImage(mimeType: string, data: string)

  /** An image-editing request: the image and the editing instruction. */
  datatype PreviewCall = PreviewCall(image: OutboundImage, prompt: string)

  /** The inline data of a reply part; the empty string stands for a missing
      field, since the code treats missing and empty alike. */
  datatype InlineData = InlineData(mimeType: string, data: string)

  datatype Part = Part(inlineData: Option<InlineData>)

  /** The reply to an analysis request: either the call threw (network,
      quota, key), or it answered with a text and the value that parsing
      that text as JSON gave (`None` when the parse threw). */
  datatype AnalysisReply =
    | AnalysisCallFailed
    | AnalysisReplied(text: string, parsed: Option<CostAnalysis>)

  /** The reply to an editing request: either the call threw, or it answered
      with the parts of its first candidate (a reply with no candidate or no
      content is `PreviewReplied([])`). */
  datatype PreviewReply =
    | PreviewCallFailed
    | PreviewReplied(parts: seq<Part>)

  // ---------------------------------------------------------------------
  // The data-URL prefix (a narrow subset of the "dataurl" production of
  // RFC 2397, section 3)
  // ---------------------------------------------------------------------

  /** The image subtypes the prefix pattern accepts, in its order. */
  const IMAGE_SUBTYPES: seq<string> := ["png", "jpeg", "jpg", "webp"]

  const DEFAULT_MIME_TYPE: string := "image/jpeg"

  function DataPrefix(subtype: string): (p: string)
    ensures StartsWith(p, "data:image/")
  {
    "data:image/" + subtype + ";base64,"
  }

  predicate HasDataPrefix(s: string) {
    exists m :: m in IMAGE_SUBTYPES && StartsWith(s, DataPrefix(m))
  }

  /** The anchored, non-global replace of
      `^data:image/(png|jpeg|jpg|webp);base64,` by the empty string. */
  function StripDataPrefix(s: string): (r: string)
    ensures HasDataPrefix(s) ==> exists m :: m in IMAGE_SUBTYPES && s == DataPrefix(m) + r
    ensures r == s <==> !HasDataPrefix(s)
    ensures |r| <= |s|
  {
    if StartsWith(s, DataPrefix("png")) then s[|DataPrefix("png")|..]
    else if StartsWith(s, DataPrefix("jpeg")) then s[|DataPrefix("jpeg")|..]
    else if StartsWith(s, DataPrefix("jpg")) then s[|DataPrefix("jpg")|..]
    else if StartsWith(s, DataPrefix("webp")) then s[|DataPrefix("webp")|..]
    else s
  }

  /** Stripping the prefix of a supported type gives back exactly the payload. */
  lemma StripRoundTrip(m: string, d: string)
    requires m in IMAGE_SUBTYPES
    ensures StripDataPrefix(DataPrefix(m) + d) == d
  {
    var s := DataPrefix(m) + d;
    // The four prefixes part at index 11 ('p', 'j', 'w'), and the two
    // JPEG spellings at index 13 ('e' against 'g').
    assert s[11] == m[0];
    if m != "png" {
      assert s[11] != DataPrefix("png")[11];
    }
    if m == "jpg" {
      assert s[13] != DataPrefix("jpeg")[13];
    }
    if m == "webp" {
      assert s[11] != DataPrefix("jpeg")[11];
      assert s[11] != DataPrefix("jpg")[11];
    }
    assert StartsWith(s, DataPrefix(m));
    assert s[|DataPrefix(m)|..] == d;
  }

  /** Only one prefix is removed: a doubled prefix keeps its second copy. */
  lemma StripRemovesOnePrefix(m: string, m': string, d: string)
    requires m in IMAGE_SUBTYPES && m' in IMAGE_SUBTYPES
    ensures StripDataPrefix(DataPrefix(m) + DataPrefix(m') + d) == DataPrefix(m') + d
  {
    assert DataPrefix(m) + DataPrefix(m') + d == DataPrefix(m) + (DataPrefix(m') + d);
    StripRoundTrip(m, DataPrefix(m') + d);
  }

  /** The pattern is anchored: a supported prefix that does not start the
      string, behind text whose first character is not 'd', is kept. */
  lemma StripIsAnchored(p: string, m: string, d: string)
    requires p != [] && p[0] != 'd' && m in IMAGE_SUBTYPES
    ensures StripDataPrefix(p + DataPrefix(m) + d) == p + DataPrefix(m) + d
  {
    var s := p + DataPrefix(m) + d;
    assert s[0] == p[0];
    forall m' | m' in IMAGE_SUBTYPES
      ensures !StartsWith(s, DataPrefix(m'))
    {
      assert DataPrefix(m')[0] == 'd';
    }
  }

  /** A data URL of an unsupported type, such as GIF, is sent unchanged. */
  lemma StripKeepsGif(d: string)
    ensures StripDataPrefix("data:image/gif;base64," + d) == "data:image/gif;base64," + d
  {
    var s := "data:image/gif;base64," + d;
    assert s[11] == 'g';
    forall m | m in IMAGE_SUBTYPES
      ensures !StartsWith(s, DataPrefix(m))
    {
      assert DataPrefix(m)[11] != 'g';
    }
  }

  /** The data URL rebuilt from a reply's inline image. */
  function EncodeDataUrl(mimeType: string, data: string): (url: string)
    ensures StartsWith(url, "data:")
    ensures |data| <= |url| && url[|url| - |data|..] == data
    ensures mimeType == "" ==> url == DataPrefix("jpeg") + data
    ensures mimeType != "" ==> url == "data:" + mimeType + ";base64," + data
  {
    "data:" + (if mimeType == "" then DEFAULT_MIME_TYPE else mimeType) + ";base64," + data
  }

  /** Re-encoding an image of a supported type and stripping the result
      gives back the image data; a missing type counts as JPEG. */
  lemma EncodeThenStrip(mimeType: string, data: string)
    requires mimeType == "" || exists m :: m in IMAGE_SUBTYPES && mimeType == "image/" + m
    ensures StripDataPrefix(EncodeDataUrl(mimeType, data)) == data
  {
    var m := if mimeType == "" then "jpeg" else var m :| m in IMAGE_SUBTYPES && mimeType == "image/" + m; m;
    assert EncodeDataUrl(mimeType, data) == DataPrefix(m) + data;
    StripRoundTrip(m, data);
  }

  // ---------------------------------------------------------------------
  // Cost analysis
  // ---------------------------------------------------------------------

  /** The image sent for analysis: the payload without its data-URL prefix,
      always declared as JPEG. */
  function AnalysisRequest(base64Image: string): (img: OutboundImage)
    ensures img.mimeType == DEFAULT_MIME_TYPE
    ensures img.data == base64Image <==> !HasDataPrefix(base64Image)
  {
    OutboundImage(DEFAULT_MIME_TYPE, StripDataPrefix(base64Image))
  }

  /** The outcome of an analysis: the parsed record when the call answered
      with a non-empty text that parsed, and the analysis failure otherwise. */
  function AnalyzeImageCosts(reply: AnalysisReply): (r: Result<CostAnalysis, ServiceError>)
    ensures r.Success? <==> reply.AnalysisReplied? && reply.text != "" && reply.parsed.Some?
    ensures r.Success? ==> reply.parsed == Some(r.value)
    ensures r.Failure? ==> r.error == AnalysisFailure
  {
    match reply
    case AnalysisCallFailed => Failure(AnalysisFailure)
    case AnalysisReplied(text, parsed) =>
      if text == "" then Failure(AnalysisFailure)
      else if parsed.None? then Failure(AnalysisFailure)
      else Success(parsed.value)
  }

  /** A data URL of a supported type sends exactly its payload. */
  lemma AnalysisRequestSendsPayload(m: string, d: string)
    requires m in IMAGE_SUBTYPES
    ensures AnalysisRequest(DataPrefix(m) + d) == OutboundImage(DEFAULT_MIME_TYPE, d)
  {
    StripRoundTrip(m, d);
  }

  // ---------------------------------------------------------------------
  // Renovation preview
  // ---------------------------------------------------------------------

  const FIX_HUMIDITY_PROMPT: string := "Corrige la humedad de las paredes, repara grietas y pinta las paredes de blanco inmaculado. Mantén la estructura original y los muebles. Iluminación natural y limpia. Calidad fotorrealista 4k."
  const MODERN_PROMPT: string := "Rediseña esta habitación con un estilo interior moderno y lujoso. Muebles contemporáneos, iluminación cálida, paleta de colores neutros. Calidad fotorrealista 4k, revista de arquitectura."
  const SCANDINAVIAN_PROMPT: string := "Rediseña esta habitación con estilo escandinavo (nórdico). Mucha madera clara, blanco, plantas, minimalismo acogedor. Calidad fotorrealista 4k."
  const INDUSTRIAL_PROMPT: string := "Rediseña esta habitación con estilo industrial. Paredes de ladrillo visto, conductos visibles, metal negro, cuero, madera rústica. Calidad fotorrealista 4k."
  const MINIMALIST_PROMPT: string := "Rediseña esta habitación con estilo minimalista extremo. Espacios abiertos, pocos muebles, líneas limpias, colores monocromáticos. Calidad fotorrealista 4k."

  /** The editing instruction of a style; `Original` has none. */
  function StylePrompt(style: TransformationStyle): (p: Option<string>)
    ensures p.None? <==> style == Original
    ensures p.Some? ==> p.value != ""
  {
    match style
    case FixHumidity => Some(FIX_HUMIDITY_PROMPT)
    case Modern => Some(MODERN_PROMPT)
    case Scandinavian => Some(SCANDINAVIAN_PROMPT)
    case Industrial => Some(INDUSTRIAL_PROMPT)
    case Minimalist => Some(MINIMALIST_PROMPT)
    case Original => None
  }

  /** The five instructions are pairwise distinct: no two styles share one. */
  lemma StylePromptInjective(s1: TransformationStyle, s2: TransformationStyle)
    requires StylePrompt(s1) == StylePrompt(s2)
    ensures s1 == s2
  {
  }

  /** The request an editing call sends, or none for `Original`. */
  function PreviewRequest(base64Image: string, style: TransformationStyle): (call: Option<PreviewCall>)
    ensures call.None? <==> style == Original
    ensures call.Some? ==> call.value.image == AnalysisRequest(base64Image) && Some(call.value.prompt) == StylePrompt(style)
  {
    match StylePrompt(style)
    case None => None
    case Some(prompt) => Some(PreviewCall(OutboundImage(DEFAULT_MIME_TYPE, StripDataPrefix(base64Image)), prompt))
  }

  /** The index of the first part carrying inline data (`parts.find`). */
  function FirstInlinePart(parts: seq<Part>): (k: Option<nat>)
    ensures k.Some? ==> k.value < |parts| && parts[k.value].inlineData.Some?
    ensures k.Some? ==> forall j :: 0 <= j < k.value ==> parts[j].inlineData.None?
    ensures k.None? ==> forall j :: 0 <= j < |parts| ==> parts[j].inlineData.None?
  {
    if parts == [] then None
    else if parts[0].inlineData.Some? then Some(0)
    else match FirstInlinePart(parts[1..])
      case None => None
      case Some(k) => Some(k + 1)
  }

  /** The image found in an editing reply: the first inline part is the one
      used, and it must carry data; the result is that data as a data URL. */
  function ReadPreview(parts: seq<Part>): (r: Result<string, ServiceError>)
    ensures r.Failure? ==> r.error == TransformationFailure
    ensures r.Success? <==> FirstInlinePart(parts).Some? && parts[FirstInlinePart(parts).value].inlineData.value.data != ""
    ensures r.Success? ==>
      (exists k :: 0 <= k < |parts| && parts[k].inlineData.Some?
        && (forall j :: 0 <= j < k ==> parts[j].inlineData.None?)
        && r.value == EncodeDataUrl(parts[k].inlineData.value.mimeType, parts[k].inlineData.value.data))
  {
    match FirstInlinePart(parts)
    case None => Failure(TransformationFailure)
    case Some(k) =>
      var d := parts[k].inlineData.value;
      if d.data == "" then Failure(TransformationFailure)
      else Success(EncodeDataUrl(d.mimeType, d.data))
  }

  /** `generateRenovationPreview`: the input unchanged for `Original` (no
      call is made, the reply is not read); otherwise the image read from
      the reply, or the transformation failure. */
  function GenerateRenovationPreview(base64Image: string, style: TransformationStyle, reply: PreviewReply)
    : (r: Result<string, ServiceError>)
    ensures style == Original ==> r == Success(base64Image)
    ensures style != Original && reply.PreviewCallFailed? ==> r == Failure(TransformationFailure)
    ensures style != Original && reply.PreviewReplied? ==> r == ReadPreview(reply.parts)
    ensures style != Original && r.Success? ==> StartsWith(r.value, "data:")
  {
    match StylePrompt(style)
    case None => Success(base64Image)
    case Some(_) =>
      match reply
      case PreviewCallFailed => Failure(TransformationFailure)
      case PreviewReplied(parts) => ReadPreview(parts)
  }

  /** A preview whose image has a supported type (or none) strips back to
      the image data the service returned. */
  lemma PreviewStripsToReplyData(parts: seq<Part>, k: nat)
    requires k < |parts| && parts[k].inlineData.Some?
    requires forall j :: 0 <= j < k ==> parts[j].inlineData.None?
    requires parts[k].inlineData.value.data != ""
    requires var t := parts[k].inlineData.value.mimeType;
      t == "" || exists m :: m in IMAGE_SUBTYPES && t == "image/" + m
    ensures ReadPreview(parts).Success?
    ensures StripDataPrefix(ReadPreview(parts).value) == parts[k].inlineData.value.data
  {
    assert FirstInlinePart(parts) == Some(k);
    EncodeThenStrip(parts[k].inlineData.value.mimeType, parts[k].inlineData.value.data);
  }
}
