/** The image service client and the comic orchestrator: response
    normalisation, failure wrapping for the remote calls, the edit request
    payload, and the four-panel comic fold. The remote SDK and JSON.parse
    are oracles passed in as functions. */
module GeminiService {
  import opened Types
  import opened Text

  /** Inline binary data of a part: base64 text and its MIME type. */
  datatype Blob = Blob(data: string, mimeType: string)

  /** One part of a request or response: optional inline data, optional text. */
  datatype Part = Part(inlineData: Option<Blob>, text: Option<string>)

  /** What an image-model call settles to: a rejection carrying a thrown
      value, or a reply whose first candidate's parts list may be missing. */
  datatype ImageReply = Rejected(thrown: Thrown) | Replied(parts: Option<seq<Part>>)

  /** What the narrative (text-model) call settles to: a rejection, or the
      reply's text. */
  datatype StoryReply = StoryRejected(thrown: Thrown) | StoryReplied(text: string)

  /** The `panels` member of the parsed narrative: an array (its items as
      the strings later embedded in prompts) or some other value. */
  datatype PanelsField = NotAnArray | AnArray(items: seq<string>)

  /** `JSON.parse(text).panels`: it throws, or yields the `panels` member. */
  datatype ParseResult = ParseFailed | Parsed(panels: PanelsField)

  /** The image model, as an oracle from the request's parts to its reply. */
  type ImageModel = seq<Part> -> ImageReply

  /** The text model, as an oracle from the request's parts to its reply. */
  type TextModel = seq<Part> -> StoryReply

  /** One call of EditImage made while building a comic. */
  datatype EditCall = EditCall(prompt: string, reference: GeneratedImage)

  /** The three remote operations, each with its failure prefix and the
      detail used when nothing better is known. */
  datatype Operation = Generate | Edit | Story

  const NoPartsMessage: string :=
    "La generación de imagen falló. La respuesta no contenía datos de imagen, posiblemente debido a filtros de seguridad o un error de API."
  const NoImageMessage: string := "No se encontraron datos de imagen en la respuesta."
  const ApiErrorLabel: string := "Error de API: "
  const InvalidJsonLabel: string :=
    "La IA devolvió un JSON inválido para los paneles del cómic. La respuesta fue: "
  const PanelCountMessage: string := "La IA no devolvió 4 descripciones de paneles de cómic."
  const ExcerptLength: nat := 200
  const PanelCount: nat := 4

  const StoryPrompt: string :=
    "Eres un creativo escritor de cómics. Basado en la imagen proporcionada, inventa una historia sencilla y coherente de 4 paneles sobre una niña pequeña.\n"
    + "La historia debe ser consistente, con un comienzo, un desarrollo y un final claros.\n"
    + "Para cada uno de los 4 paneles, escribe una descripción visual corta, clara y vívida que un generador de imágenes de IA pueda usar para crear el panel.\n"
    + "El primer panel debe inspirarse en la imagen original del usuario, estableciendo a la niña y el escenario.\n"
    + "Asegúrate de que las descripciones de todos los paneles mantengan el mismo personaje (la niña pequeña) y el mismo escenario."

  const PanelPromptHead: string :=
    "**Mantén estrictamente el diseño del personaje, el escenario y el estilo artístico de la imagen de referencia.** Crea un NUEVO panel de cómic mostrando esta escena: \""
  const PanelPromptTail: string :=
    "\". Estilo: arte de cómic con contornos claros y audaces de tinta negra."

  function Prefix(op: Operation): string {
    match op
    case Generate => "La llamada a la API de Gemini falló para la generación de imagen: "
    case Edit => "La llamada a la API de Gemini falló para la edición de imagen: "
    case Story => "La llamada a la API de Gemini falló para la generación de historia de cómic: "
  }

  function Fallback(op: Operation): string {
    match op
    case Generate => "Ocurrió un error desconocido durante la generación de imagen."
    case Edit => "Ocurrió un error desconocido durante la edición de imagen."
    case Story => "Ocurrió un error desconocido durante la generación de historia de cómic."
  }

  predicate StartsWith(s: string, prefix: string) {
    |prefix| <= |s| && s[..|prefix|] == prefix
  }

  /** The RFC 2397 data URI for base64 `data` of type `mimeType`. */
  function DataUrl(mimeType: string, data: string): string {
    "data:" + mimeType + ";base64," + data
  }

  /** True of a part that carries inline image data. */
  predicate HasImage(p: Part) {
    p.inlineData.Some?
  }

  /** The index of the first part that carries inline data, if any. */
  function FirstImageIndex(parts: seq<Part>): (r: Option<nat>)
    ensures r.None? <==> forall j :: 0 <= j < |parts| ==> !HasImage(parts[j])
    ensures r.Some? ==>
              r.value < |parts| && HasImage(parts[r.value])
              && forall j :: 0 <= j < r.value ==> !HasImage(parts[j])
  {
    if |parts| == 0 then None
    else if HasImage(parts[0]) then Some(0)
    else match FirstImageIndex(parts[1..])
      case None => None
      case Some(k) => Some(k + 1)
  }

  /** processImageResponse: the image of the first part with inline data, its
      url the data URI of that data; a missing parts list and a list without
      such a part fail with their own messages. */
  function ProcessImageResponse(parts: Option<seq<Part>>): (r: Result<GeneratedImage>)
    ensures parts.None? ==> r == Err(ErrorObject(NoPartsMessage))
    ensures parts.Some? ==>
      (r.Ok? <==> exists i :: 0 <= i < |parts.value| && HasImage(parts.value[i]))
    ensures parts.Some? && r.Err? ==> r.error == ErrorObject(NoImageMessage)
    ensures r.Ok? ==>
              parts.Some? &&
              exists k :: 0 <= k < |parts.value|
                && parts.value[k].inlineData == Some(Blob(r.value.base64, r.value.mimeType))
                && forall j :: 0 <= j < k ==> !HasImage(parts.value[j])
    ensures r.Ok? ==> r.value.url == DataUrl(r.value.mimeType, r.value.base64)
  {
    if parts.None? then Err(ErrorObject(NoPartsMessage))
    else match FirstImageIndex(parts.value)
      case None => Err(ErrorObject(NoImageMessage))
      case Some(k) =>
        var blob := parts.value[k].inlineData.value;
        Ok(GeneratedImage(DataUrl(blob.mimeType, blob.data), blob.data, blob.mimeType))
  }

  /** Parts after the first image part never change the outcome. */
  lemma {:induction false} LaterPartsIgnored(parts: seq<Part>, extra: seq<Part>)
    requires ProcessImageResponse(Some(parts)).Ok?
    ensures ProcessImageResponse(Some(parts + extra)) == ProcessImageResponse(Some(parts))
  {
    FirstImageIndexAppend(parts, extra);
  }

  lemma {:induction false} FirstImageIndexAppend(parts: seq<Part>, extra: seq<Part>)
    requires FirstImageIndex(parts).Some?
    ensures FirstImageIndex(parts + extra) == FirstImageIndex(parts)
  {
    if !HasImage(parts[0]) {
      assert (parts + extra)[1..] == parts[1..] + extra;
      FirstImageIndexAppend(parts[1..], extra);
    }
  }

  /** Parts without inline data before the first image part (text parts,
      for one) never change the outcome. */
  lemma {:induction false} LeadingNonImagePartsSkipped(leading: seq<Part>, parts: seq<Part>)
    requires forall i :: 0 <= i < |leading| ==> !HasImage(leading[i])
    ensures ProcessImageResponse(Some(leading + parts)) == ProcessImageResponse(Some(parts))
  {
    FirstImageIndexSkip(leading, parts);
    var k := FirstImageIndex(parts);
    if k.Some? {
      assert (leading + parts)[k.value + |leading|] == parts[k.value];
    }
  }

  lemma {:induction false} FirstImageIndexSkip(leading: seq<Part>, parts: seq<Part>)
    requires forall i :: 0 <= i < |leading| ==> !HasImage(leading[i])
    ensures FirstImageIndex(leading + parts) ==
              match FirstImageIndex(parts)
              case None => None
              case Some(k) => Some(k + |leading|)
  {
    if leading != [] {
      assert (leading + parts)[1..] == leading[1..] + parts;
      FirstImageIndexSkip(leading[1..], parts);
    } else {
      assert leading + parts == parts;
    }
  }

  /** The detail the catch blocks choose for a thrown value: its message
      first, otherwise its response's error, otherwise the value itself when
      it is a string, otherwise the operation's fallback text. */
  function FailureDetail(op: Operation, e: Thrown): (d: string)
    ensures e.ObjectThrown? && e.message != "" ==> d == e.message
    ensures e.ObjectThrown? && e.message == "" && e.responseError.Some? ==>
      d == ApiErrorLabel + (if e.responseError.value.message != "" then e.responseError.value.message
                            else e.responseError.value.json)
    ensures e.StringThrown? ==> d == e.text
    ensures e.PrimitiveThrown? || (e.ObjectThrown? && e.message == "" && e.responseError.None?) ==>
      d == Fallback(op)
  {
    if e.ObjectThrown? && e.message != "" then e.message
    else if e.ObjectThrown? && e.responseError.Some? then
      var body := e.responseError.value;
      ApiErrorLabel + (if body.message != "" then body.message else body.json)
    else if e.StringThrown? then e.text
    else Fallback(op)
  }

  /** The Error a catch block rethrows: the operation's prefix, then the detail. */
  function Failure(op: Operation, e: Thrown): (f: Thrown)
    ensures f.ObjectThrown? && f.isError && f.responseError.None?
    ensures StartsWith(f.message, Prefix(op)) && f.message[|Prefix(op)|..] == FailureDetail(op, e)
  {
    ErrorObject(Prefix(op) + FailureDetail(op, e))
  }

  /** Runs one image-model request and normalises its reply. A throw from
      the normalisation happens inside the same try block and is wrapped too. */
  function CallImageModel(op: Operation, model: ImageModel, request: seq<Part>): (r: Result<GeneratedImage>)
  {
    match model(request)
    case Rejected(e) => Err(Failure(op, e))
    case Replied(parts) =>
      match ProcessImageResponse(parts)
      case Ok(img) => Ok(img)
      case Err(e) => Err(Failure(op, e))
  }

  /** The request generateImage sends: the prompt alone. */
  function GenerateRequest(prompt: string): seq<Part> {
    [Part(None, Some(prompt))]
  }

  /** The request editImage sends: the source image's payload and MIME type,
      then the prompt. */
  function EditRequest(prompt: string, original: GeneratedImage): seq<Part> {
    [Part(Some(Blob(original.base64, original.mimeType)), None), Part(None, Some(prompt))]
  }

  /** generateImage: a reply is normalised by ProcessImageResponse, whose
      error is wrapped like a rejection; every failure is an Error whose
      message starts with the generation prefix. */
  function GenerateImage(model: ImageModel, prompt: string): (r: Result<GeneratedImage>)
    ensures r.Ok? ==> r.value.url == DataUrl(r.value.mimeType, r.value.base64)
    ensures r.Err? ==> r.error.ObjectThrown? && r.error.isError && StartsWith(r.error.message, Prefix(Generate))
    ensures model(GenerateRequest(prompt)).Rejected? ==>
      r == Err(Failure(Generate, model(GenerateRequest(prompt)).thrown))
    ensures model(GenerateRequest(prompt)).Replied? ==>
      var normalised := ProcessImageResponse(model(GenerateRequest(prompt)).parts);
      (normalised.Ok? ==> r == normalised) && (normalised.Err? ==> r == Err(Failure(Generate, normalised.error)))
  {
    CallImageModel(Generate, model, GenerateRequest(prompt))
  }

  /** editImage: as GenerateImage, for the edit request and with the edit prefix. */
  function EditImage(model: ImageModel, prompt: string, original: GeneratedImage): (r: Result<GeneratedImage>)
    ensures r.Ok? ==> r.value.url == DataUrl(r.value.mimeType, r.value.base64)
    ensures r.Err? ==> r.error.ObjectThrown? && r.error.isError && StartsWith(r.error.message, Prefix(Edit))
    ensures model(EditRequest(prompt, original)).Rejected? ==>
      r == Err(Failure(Edit, model(EditRequest(prompt, original)).thrown))
    ensures model(EditRequest(prompt, original)).Replied? ==>
      var normalised := ProcessImageResponse(model(EditRequest(prompt, original)).parts);
      (normalised.Ok? ==> r == normalised) && (normalised.Err? ==> r == Err(Failure(Edit, normalised.error)))
  {
    CallImageModel(Edit, model, EditRequest(prompt, original))
  }

  /** The edit request carries the source image unchanged: normalising the
      request itself gives back a well-formed source image, and its other
      part is the prompt. */
  lemma EditRequestCarriesImage(prompt: string, original: GeneratedImage)
    requires original.url == DataUrl(original.mimeType, original.base64)
    ensures ProcessImageResponse(Some(EditRequest(prompt, original))) == Ok(original)
    ensures |EditRequest(prompt, original)| == 2 && EditRequest(prompt, original)[1].text == Some(prompt)
  {
    assert HasImage(EditRequest(prompt, original)[0]);
  }

  /** The prompt for one comic panel: the fixed instruction to keep the
      reference image's character, setting and style, the description
      between quotes, and the fixed ink-outline style directive. */
  function PanelPrompt(description: string): string {
    PanelPromptHead + description + PanelPromptTail
  }

  /** Each panel prompt embeds its description verbatim, between the fixed
      head and tail, so distinct descriptions give distinct prompts. */
  lemma PanelPromptEmbeds(description: string, other: string)
    ensures var p := PanelPrompt(description);
            |p| == |PanelPromptHead| + |description| + |PanelPromptTail|
            && p[..|PanelPromptHead|] == PanelPromptHead
            && p[|PanelPromptHead|..|PanelPromptHead| + |description|] == description
            && p[|PanelPromptHead| + |description|..] == PanelPromptTail
    ensures PanelPrompt(description) == PanelPrompt(other) ==> description == other
  {
    var p := PanelPrompt(description);
    assert p == PanelPromptHead + (description + PanelPromptTail);
    if PanelPrompt(description) == PanelPrompt(other) {
      var q := PanelPrompt(other);
      assert |description| == |other|;
      assert description == p[|PanelPromptHead|..|PanelPromptHead| + |description|];
      assert other == q[|PanelPromptHead|..|PanelPromptHead| + |other|];
    }
  }

  /** The narrative request: the base image, then the writer instruction. */
  function StoryRequest(baseImage: GeneratedImage): seq<Part> {
    [Part(Some(Blob(baseImage.base64, baseImage.mimeType)), None), Part(None, Some(StoryPrompt))]
  }

  /** The first 200 characters of the reply, shown when it does not parse. */
  function Excerpt(text: string): (x: string)
    ensures |x| <= ExcerptLength && x <= text
    ensures |text| <= ExcerptLength ==> x == text
    ensures |text| > ExcerptLength ==> |x| == ExcerptLength
  {
    if |text| <= ExcerptLength then text else text[..ExcerptLength]
  }

  /** The gates before the panel loop: the narrative call, JSON parsing of
      its trimmed text, and the exactly-four check. */
  function PanelDescriptions(baseImage: GeneratedImage, textModel: TextModel, parse: string -> ParseResult)
    : (r: Result<seq<string>>)
    ensures textModel(StoryRequest(baseImage)).StoryRejected? ==>
              r == Err(Failure(Story, textModel(StoryRequest(baseImage)).thrown))
    ensures textModel(StoryRequest(baseImage)).StoryReplied? ==>
              var responseText := Trim(textModel(StoryRequest(baseImage)).text);
              match parse(responseText)
              case ParseFailed =>
                r == Err(ErrorObject(InvalidJsonLabel + Excerpt(responseText) + "..."))
              case Parsed(panels) =>
                if panels.AnArray? && |panels.items| == PanelCount then r == Ok(panels.items)
                else r == Err(ErrorObject(PanelCountMessage))
    ensures r.Ok? ==> |r.value| == PanelCount
  {
    match textModel(StoryRequest(baseImage))
    case StoryRejected(e) => Err(Failure(Story, e))
    case StoryReplied(text) =>
      var responseText := Trim(text);
      match parse(responseText)
      case ParseFailed => Err(ErrorObject(InvalidJsonLabel + Excerpt(responseText) + "..."))
      case Parsed(panels) =>
        if !panels.AnArray? || |panels.items| != PanelCount then Err(ErrorObject(PanelCountMessage))
        else Ok(panels.items)
  }

  /** The edit operation the comic loop calls: editImage on the image model. */
  function EditWith(imageModel: ImageModel): (string, GeneratedImage) -> Result<GeneratedImage> {
    (prompt, reference) => EditImage(imageModel, prompt, reference)
  }

  /** The outcome of a run of edit calls and the calls it issued, in order. */
  datatype Chain = Chain(outcome: Result<seq<GeneratedImage>>, calls: seq<EditCall>)

  /** The reference definition of the panel fold: edit the styled first
      description against `reference`, then fold the rest against the new
      panel; the first failure ends the fold. */
  function PanelChain(reference: GeneratedImage, descriptions: seq<string>, styled: string -> string,
                      edit: (string, GeneratedImage) -> Result<GeneratedImage>): Chain
    decreases |descriptions|
  {
    if descriptions == [] then Chain(Ok([]), [])
    else
      var call := EditCall(styled(descriptions[0]), reference);
      match edit(call.prompt, call.reference)
      case Err(e) => Chain(Err(e), [call])
      case Ok(panel) => Resume([panel], [call], PanelChain(panel, descriptions[1..], styled, edit))
  }

  /** A chain that continues after `panels` were produced by `calls`. */
  function Resume(panels: seq<GeneratedImage>, calls: seq<EditCall>, rest: Chain): (c: Chain)
    ensures c.calls == calls + rest.calls
    ensures c.outcome.Ok? <==> rest.outcome.Ok?
    ensures c.outcome.Ok? ==> c.outcome.value == panels + rest.outcome.value
    ensures c.outcome.Err? ==> c.outcome == rest.outcome
  {
    Chain(if rest.outcome.Ok? then Ok(panels + rest.outcome.value) else rest.outcome, calls + rest.calls)
  }

  lemma ResumeNothing(rest: Chain)
    ensures Resume([], [], rest) == rest
  {
    assert [] + rest.calls == rest.calls;
    if rest.outcome.Ok? {
      assert [] + rest.outcome.value == rest.outcome.value;
    }
  }

  lemma ResumeTwice(panels: seq<GeneratedImage>, calls: seq<EditCall>,
                    morePanels: seq<GeneratedImage>, moreCalls: seq<EditCall>, rest: Chain)
    ensures Resume(panels, calls, Resume(morePanels, moreCalls, rest))
            == Resume(panels + morePanels, calls + moreCalls, rest)
  {
    assert calls + (moreCalls + rest.calls) == (calls + moreCalls) + rest.calls;
    if rest.outcome.Ok? {
      assert panels + (morePanels + rest.outcome.value) == (panels + morePanels) + rest.outcome.value;
    }
  }

  /** The calls of the fold: at most one per description, call k carrying
      the styled description k, the first referencing `reference`. */
  lemma {:induction false} PanelChainPrompts(reference: GeneratedImage, descriptions: seq<string>,
                                             styled: string -> string,
                                             edit: (string, GeneratedImage) -> Result<GeneratedImage>)
    ensures var c := PanelChain(reference, descriptions, styled, edit);
            |c.calls| <= |descriptions|
            && (descriptions != [] ==> c.calls != [] && c.calls[0].reference == reference)
            && forall k :: 0 <= k < |c.calls| ==> c.calls[k].prompt == styled(descriptions[k])
    decreases |descriptions|
  {
    if descriptions != [] {
      var call := EditCall(styled(descriptions[0]), reference);
      var outcome := edit(call.prompt, call.reference);
      if outcome.Ok? {
        var rest := PanelChain(outcome.value, descriptions[1..], styled, edit);
        PanelChainPrompts(outcome.value, descriptions[1..], styled, edit);
        var c := PanelChain(reference, descriptions, styled, edit);
        assert c.calls == [call] + rest.calls;
        forall k | 0 < k < |c.calls| ensures c.calls[k].prompt == styled(descriptions[k]) {
          assert c.calls[k] == rest.calls[k - 1];
          assert descriptions[1..][k - 1] == descriptions[k];
        }
      }
    }
  }

  /** Every call after the first references the output of the call before it. */
  lemma {:induction false} PanelChainReferences(reference: GeneratedImage, descriptions: seq<string>,
                                                styled: string -> string,
                                                edit: (string, GeneratedImage) -> Result<GeneratedImage>)
    ensures var c := PanelChain(reference, descriptions, styled, edit);
            forall k :: 0 <= k < |c.calls| - 1 ==>
              edit(c.calls[k].prompt, c.calls[k].reference) == Ok(c.calls[k + 1].reference)
    decreases |descriptions|
  {
    if descriptions != [] {
      var call := EditCall(styled(descriptions[0]), reference);
      var outcome := edit(call.prompt, call.reference);
      if outcome.Ok? {
        var rest := PanelChain(outcome.value, descriptions[1..], styled, edit);
        PanelChainReferences(outcome.value, descriptions[1..], styled, edit);
        PanelChainPrompts(outcome.value, descriptions[1..], styled, edit);
        var c := PanelChain(reference, descriptions, styled, edit);
        assert c.calls == [call] + rest.calls;
        forall k | 0 <= k < |c.calls| - 1
          ensures edit(c.calls[k].prompt, c.calls[k].reference) == Ok(c.calls[k + 1].reference)
        {
          if k == 0 {
            assert c.calls[1] == rest.calls[0];
          } else {
            assert c.calls[k] == rest.calls[k - 1] && c.calls[k + 1] == rest.calls[k];
          }
        }
      }
    }
  }

  /** Success yields one panel per description, panel k the output of call
      k; a failure is the outcome of the last call issued. */
  lemma {:induction false} PanelChainOutcome(reference: GeneratedImage, descriptions: seq<string>,
                                             styled: string -> string,
                                             edit: (string, GeneratedImage) -> Result<GeneratedImage>)
    ensures var c := PanelChain(reference, descriptions, styled, edit);
            (c.outcome.Ok? ==>
               |c.outcome.value| == |c.calls| == |descriptions|
               && forall k :: 0 <= k < |c.calls| ==>
                    edit(c.calls[k].prompt, c.calls[k].reference) == Ok(c.outcome.value[k]))
            && (c.outcome.Err? ==>
                  c.calls != []
                  && edit(c.calls[|c.calls| - 1].prompt, c.calls[|c.calls| - 1].reference) == Err(c.outcome.error))
    decreases |descriptions|
  {
    if descriptions != [] {
      var call := EditCall(styled(descriptions[0]), reference);
      var outcome := edit(call.prompt, call.reference);
      if outcome.Ok? {
        var rest := PanelChain(outcome.value, descriptions[1..], styled, edit);
        PanelChainOutcome(outcome.value, descriptions[1..], styled, edit);
        var c := PanelChain(reference, descriptions, styled, edit);
        assert c.calls == [call] + rest.calls;
        if c.outcome.Ok? {
          assert c.outcome.value == [outcome.value] + rest.outcome.value;
          forall k | 0 < k < |c.calls|
            ensures edit(c.calls[k].prompt, c.calls[k].reference) == Ok(c.outcome.value[k])
          {
            assert c.calls[k] == rest.calls[k - 1];
            assert c.outcome.value[k] == rest.outcome.value[k - 1];
          }
        } else if rest.calls != [] {
          assert c.calls[|c.calls| - 1] == rest.calls[|rest.calls| - 1];
        }
      }
    }
  }

  /** The panel loop of generateComicPanels: the loop computes the fold,
      building the panel list and reassigning the reference image as it goes. */
  method ChainPanels(baseImage: GeneratedImage, descriptions: seq<string>, styled: string -> string,
                     edit: (string, GeneratedImage) -> Result<GeneratedImage>)
    returns (r: Result<seq<GeneratedImage>>, calls: seq<EditCall>)
    ensures Chain(r, calls) == PanelChain(baseImage, descriptions, styled, edit)
  {
    calls := [];
    var panels: seq<GeneratedImage> := [];
    var referenceImage := baseImage;
    var i := 0;
    assert descriptions[i..] == descriptions;
    ResumeNothing(PanelChain(baseImage, descriptions, styled, edit));
    while i < |descriptions|
      invariant 0 <= i <= |descriptions|
      invariant PanelChain(baseImage, descriptions, styled, edit)
                == Resume(panels, calls, PanelChain(referenceImage, descriptions[i..], styled, edit))
    {
      assert descriptions[i..][1..] == descriptions[i + 1..];
      var prompt := styled(descriptions[i]);
      var call := EditCall(prompt, referenceImage);
      var newPanel := edit(prompt, referenceImage);
      if newPanel.Err? {
        assert PanelChain(referenceImage, descriptions[i..], styled, edit) == Chain(Err(newPanel.error), [call]);
        calls := calls + [call];
        r := Err(newPanel.error);
        return;
      }
      ghost var rest := PanelChain(newPanel.value, descriptions[i + 1..], styled, edit);
      assert PanelChain(referenceImage, descriptions[i..], styled, edit) == Resume([newPanel.value], [call], rest);
      ResumeTwice(panels, calls, [newPanel.value], [call], rest);
      calls := calls + [call];
      panels := panels + [newPanel.value];
      referenceImage := newPanel.value;
      i := i + 1;
    }
    assert descriptions[i..] == [];
    assert panels + [] == panels && calls + [] == calls;
    r := Ok(panels);
  }

  /** generateComicPanels: a failed gate ends the build with its error and
      issues no edit call; otherwise the result is the fold over the four
      descriptions with the styled panel prompt and editImage, so success
      yields exactly four panels. */
  method GenerateComicPanels(baseImage: GeneratedImage, textModel: TextModel,
                             parse: string -> ParseResult, imageModel: ImageModel)
    returns (r: Result<seq<GeneratedImage>>, calls: seq<EditCall>)
    ensures PanelDescriptions(baseImage, textModel, parse).Err? ==>
              r == Err(PanelDescriptions(baseImage, textModel, parse).error) && calls == []
    ensures PanelDescriptions(baseImage, textModel, parse).Ok? ==>
              Chain(r, calls)
              == PanelChain(baseImage, PanelDescriptions(baseImage, textModel, parse).value,
                            PanelPrompt, EditWith(imageModel))
    ensures r.Ok? ==> |r.value| == |calls| == PanelCount
    ensures r.Err? ==> |calls| <= PanelCount
  {
    var gate := PanelDescriptions(baseImage, textModel, parse);
    if gate.Err? {
      r, calls := Err(gate.error), [];
      return;
    }
    r, calls := ChainPanels(baseImage, gate.value, PanelPrompt, EditWith(imageModel));
    PanelChainPrompts(baseImage, gate.value, PanelPrompt, EditWith(imageModel));
    PanelChainOutcome(baseImage, gate.value, PanelPrompt, EditWith(imageModel));
  }
}
