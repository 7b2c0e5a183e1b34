/** The application component: five state fields changed by the event
    handlers. Each asynchronous handler is split into its two phases: the
    start (run on the event, it shows the loader) and the completion (run
    when the awaited call settles, with that call's outcome). */
module App {
  import opened Types
  import FileUtils

  const GenerateLoadingMessage: string := "Invocando píxeles del éter digital..."
  const EditLoadingMessage: string := "Aplicando alteraciones artísticas..."
  const ComicLoadingMessage: string := "Generando un universo, un panel a la vez..."
  const DownloadLoadingMessage: string := "Uniendo paneles..."

  const GenerateFailureContext: string := "Fallo al generar la imagen. Intenta con un prompt diferente."
  const EditFailureContext: string := "Fallo al editar la imagen. La IA podría estar un poco testaruda."
  const ComicFailureContext: string := "Fallo al crear el cómic. La historia tomó un giro inesperado."

  const ComicFileName: string := "ai-comic.png"

  const DetailsLabel: string := "\nDetalles del error: "
  const Guidance: string :=
    "\n\nAcción Requerida: Los fallos en las llamadas a la API, especialmente 'Rpc failed due to xhr error' o '500 Internal Server Error', a menudo indican un problema con tu clave API de Google Gemini o su cuenta de facturación asociada. Por favor, asegúrate de que tu clave API sea válida y esté vinculada a un proyecto con la facturación activa. Visita ai.google.dev/gemini-api/docs/billing para más información."

  /** The raw details handleError extracts from a thrown value: an Error's
      message, another object's JSON text, a string itself; nothing for
      any other primitive. */
  function ErrorDetails(e: Thrown): (d: Option<string>)
    ensures d.None? <==> e.PrimitiveThrown?
    ensures e.ObjectThrown? ==> d == Some(if e.isError then e.message else e.json)
    ensures e.StringThrown? ==> d == Some(e.text)
  {
    match e
    case ObjectThrown(isError, message, _, json) => Some(if isError then message else json)
    case StringThrown(text) => Some(text)
    case PrimitiveThrown => None
  }

  /** True when handleError adds a details line: the details exist and are
      not the empty string. */
  predicate HasDetails(e: Thrown) {
    ErrorDetails(e).Some? && ErrorDetails(e).value != ""
  }

  /** The message handleError shows: the context first, the guidance last,
      and between them the details line exactly when there are details. */
  function ErrorMessage(context: string, e: Thrown): (m: string)
    ensures |context| + |Guidance| <= |m|
    ensures m[..|context|] == context
    ensures m[|m| - |Guidance|..] == Guidance
    ensures HasDetails(e) ==> m[|context|..|m| - |Guidance|] == DetailsLabel + ErrorDetails(e).value
    ensures !HasDetails(e) ==> m == context + Guidance
  {
    var details := if HasDetails(e) then DetailsLabel + ErrorDetails(e).value else "";
    var m := context + details + Guidance;
    assert m[|context|..|m| - |Guidance|] == details;
    m
  }

  /** The two prompt forms. */
  datatype Form = GenerateForm | EditForm

  /** What renderContent shows. `Blank` is what an image state without an
      image renders (nothing). */
  datatype View =
    | Placeholder
    | Loader(loading: string)
    | ImageView(image: GeneratedImage)
    | ComicView(panels: seq<GeneratedImage>)
    | ErrorView(shown: Option<string>)
    | Blank

  /** The user actions a rendered screen offers. */
  datatype Action = SubmitGenerate | SubmitEdit | CreateComic | DownloadImage | DownloadComic | StartOver

  /** isFormDisabled. */
  predicate IsFormDisabled(s: AppState) {
    s == Loading || s == ComicDisplayed
  }

  /** The prompt form rendered above the content, if any. */
  function FormShown(s: AppState): (f: Option<Form>)
    ensures f.Some? ==> !IsFormDisabled(s)
    ensures f.Some? <==> s == Idle || s == ImageDisplayed
  {
    match s
    case Idle => Some(GenerateForm)
    case ImageDisplayed => Some(EditForm)
    case _ => None
  }

  /** The actions offered by a view's buttons. */
  function ViewActions(v: View): set<Action> {
    match v
    case ImageView(_) => {CreateComic, DownloadImage, StartOver}
    case ComicView(_) => {DownloadComic, StartOver}
    case ErrorView(_) => {StartOver}
    case _ => {}
  }

  /** The actions a form offers (its submit), when it is enabled. */
  function FormActions(f: Option<Form>, disabled: bool): set<Action> {
    match f
    case Some(GenerateForm) => if disabled then {} else {SubmitGenerate}
    case Some(EditForm) => if disabled then {} else {SubmitEdit}
    case None => {}
  }

  /** The awaited call a loading screen is waiting for. */
  datatype Pending = NothingPending | GeneratePending | EditPending | ComicPending | DownloadPending

  /** The URLs of the comic's panels, in order. */
  function PanelUrls(panels: seq<GeneratedImage>): (urls: seq<string>)
    ensures |urls| == |panels| && forall i :: 0 <= i < |panels| ==> urls[i] == panels[i].url
  {
    seq(|panels|, i requires 0 <= i < |panels| => panels[i].url)
  }

  class AppComponent {
    var appState: AppState
    var generatedImage: Option<GeneratedImage>
    var comicPanels: seq<GeneratedImage>
    var loadingMessage: string
    var error: Option<string>
    /** Which handler's await is in progress: the one whose start phase
        entered the loading state. */
    ghost var pending: Pending

    /** The error state always holds a message, the image state always
        holds an image, and the loading state is exactly the state in which
        some handler awaits its call. */
    ghost predicate Valid()
      reads this
    {
      (appState == Error ==> error.Some?)
      && (appState == ImageDisplayed ==> generatedImage.Some?)
      && (appState == Loading <==> pending != NothingPending)
    }

    constructor ()
      ensures Valid()
      ensures appState == Idle && generatedImage.None? && comicPanels == []
      ensures loadingMessage == "" && error.None?
    {
      appState := Idle;
      generatedImage := None;
      comicPanels := [];
      loadingMessage := "";
      error := None;
      pending := NothingPending;
    }

    /** renderContent. In a valid state the image screen always has an
        image to show and the error screen a message. */
    function RenderContent(): (v: View)
      reads this
      ensures Valid() ==> v != Blank && (v.ErrorView? ==> v.shown.Some?)
      ensures v.Loader? <==> appState == Loading
      ensures appState == Loading ==> v == Loader(loadingMessage)
      ensures appState == ImageDisplayed && generatedImage.Some? ==> v == ImageView(generatedImage.value)
      ensures appState == ComicDisplayed ==> v == ComicView(comicPanels)
      ensures appState == Error ==> v == ErrorView(error)
      ensures appState == Idle ==> v == Placeholder
    {
      match appState
      case Loading => Loader(loadingMessage)
      case ImageDisplayed => if generatedImage.Some? then ImageView(generatedImage.value) else Blank
      case ComicDisplayed => ComicView(comicPanels)
      case Error => ErrorView(error)
      case Idle => Placeholder
    }

    /** Every action the rendered screen offers. While loading there is
        none, so a completion always runs with nothing else in between. */
    function Actions(): (acts: set<Action>)
      reads this
      ensures appState == Loading ==> acts == {}
      ensures appState == Idle ==> acts == {SubmitGenerate}
      ensures appState == ComicDisplayed ==> acts == {Action.DownloadComic, Action.StartOver}
      ensures appState == Error ==> acts == {Action.StartOver}
      ensures Valid() && appState == ImageDisplayed ==> acts == {SubmitEdit, CreateComic, DownloadImage, Action.StartOver}
    {
      FormActions(FormShown(appState), IsFormDisabled(appState)) + ViewActions(RenderContent())
    }

    /** handleError: the message built from the context and the thrown
        value, and the error state. */
    method HandleError(context: string, e: Thrown)
      modifies this
      ensures appState == Error && error == Some(ErrorMessage(context, e))
      ensures generatedImage == old(generatedImage) && comicPanels == old(comicPanels)
      ensures loadingMessage == old(loadingMessage) && pending == NothingPending
      ensures Valid()
    {
      error := Some(ErrorMessage(context, e));
      appState := Error;
      pending := NothingPending;
    }

    /** handleGenerateImage, start: loader shown, error, image and panels cleared. */
    method StartGenerateImage()
      modifies this
      ensures appState == Loading && loadingMessage == GenerateLoadingMessage
      ensures error.None? && generatedImage.None? && comicPanels == []
      ensures pending == GeneratePending
      ensures Valid()
    {
      appState := Loading;
      pending := GeneratePending;
      loadingMessage := GenerateLoadingMessage;
      error := None;
      generatedImage := None;
      comicPanels := [];
    }

    /** handleGenerateImage, completion with generateImage's outcome: the
        returned image is displayed, or the error state is entered. */
    method FinishGenerateImage(outcome: Result<GeneratedImage>)
      requires Valid() && pending == GeneratePending
      modifies this
      ensures outcome.Ok? ==>
                appState == ImageDisplayed && generatedImage == Some(outcome.value) && error == old(error)
      ensures outcome.Err? ==>
                appState == Error && error == Some(ErrorMessage(GenerateFailureContext, outcome.error))
                && generatedImage == old(generatedImage)
      ensures comicPanels == old(comicPanels) && loadingMessage == old(loadingMessage)
      ensures pending == NothingPending
      ensures Valid()
    {
      match outcome
      case Ok(image) =>
        generatedImage := Some(image);
        appState := ImageDisplayed;
        pending := NothingPending;
      case Err(e) =>
        HandleError(GenerateFailureContext, e);
    }

    /** handleEditImage, start: a no-op without an image; otherwise the
        loader is shown and the error cleared, the image kept for the call. */
    method StartEditImage() returns (started: bool)
      requires Valid()
      modifies this
      ensures started <==> old(generatedImage).Some?
      ensures !started ==> unchanged(this)
      ensures started ==>
                appState == Loading && loadingMessage == EditLoadingMessage && error.None?
                && generatedImage == old(generatedImage) && comicPanels == old(comicPanels)
                && pending == EditPending
      ensures Valid()
    {
      if generatedImage.None? {
        return false;
      }
      appState := Loading;
      pending := EditPending;
      loadingMessage := EditLoadingMessage;
      error := None;
      return true;
    }

    /** handleEditImage, completion with editImage's outcome: only success
        replaces the image; a failure keeps the old one. */
    method FinishEditImage(outcome: Result<GeneratedImage>)
      requires Valid() && pending == EditPending
      modifies this
      ensures outcome.Ok? ==>
                appState == ImageDisplayed && generatedImage == Some(outcome.value) && error == old(error)
      ensures outcome.Err? ==>
                appState == Error && error == Some(ErrorMessage(EditFailureContext, outcome.error))
                && generatedImage == old(generatedImage)
      ensures comicPanels == old(comicPanels) && loadingMessage == old(loadingMessage)
      ensures pending == NothingPending
      ensures Valid()
    {
      match outcome
      case Ok(image) =>
        generatedImage := Some(image);
        appState := ImageDisplayed;
        pending := NothingPending;
      case Err(e) =>
        HandleError(EditFailureContext, e);
    }

    /** handleCreateComic, start: a no-op without an image; otherwise the
        loader is shown and the error cleared. */
    method StartCreateComic() returns (started: bool)
      requires Valid()
      modifies this
      ensures started <==> old(generatedImage).Some?
      ensures !started ==> unchanged(this)
      ensures started ==>
                appState == Loading && loadingMessage == ComicLoadingMessage && error.None?
                && generatedImage == old(generatedImage) && comicPanels == old(comicPanels)
                && pending == ComicPending
      ensures Valid()
    {
      if generatedImage.None? {
        return false;
      }
      appState := Loading;
      pending := ComicPending;
      loadingMessage := ComicLoadingMessage;
      error := None;
      return true;
    }

    /** handleCreateComic, completion with generateComicPanels's outcome:
        success shows the returned panels; the image is kept either way. */
    method FinishCreateComic(outcome: Result<seq<GeneratedImage>>)
      requires Valid() && pending == ComicPending
      modifies this
      ensures outcome.Ok? ==>
                appState == ComicDisplayed && comicPanels == outcome.value && error == old(error)
      ensures outcome.Err? ==>
                appState == Error && error == Some(ErrorMessage(ComicFailureContext, outcome.error))
                && comicPanels == old(comicPanels)
      ensures generatedImage == old(generatedImage) && loadingMessage == old(loadingMessage)
      ensures pending == NothingPending
      ensures Valid()
    {
      match outcome
      case Ok(panels) =>
        comicPanels := panels;
        appState := ComicDisplayed;
        pending := NothingPending;
      case Err(e) =>
        HandleError(ComicFailureContext, e);
    }

    /** handleDownloadComic, start: a no-op without panels; otherwise the
        loader is shown and the panels' URLs are handed to downloadComic. */
    method StartDownloadComic() returns (panelUrls: Option<seq<string>>)
      requires Valid()
      modifies this
      ensures panelUrls.Some? <==> |old(comicPanels)| > 0
      ensures panelUrls.None? ==> unchanged(this)
      ensures panelUrls.Some? ==>
                appState == Loading && loadingMessage == DownloadLoadingMessage
                && panelUrls.value == PanelUrls(comicPanels)
                && generatedImage == old(generatedImage) && comicPanels == old(comicPanels)
                && error == old(error) && pending == DownloadPending
      ensures Valid()
    {
      if |comicPanels| == 0 {
        return None;
      }
      appState := Loading;
      pending := DownloadPending;
      loadingMessage := DownloadLoadingMessage;
      panelUrls := Some(PanelUrls(comicPanels));
    }

    /** handleDownloadComic, completion: downloadComic never rejects, so the
        comic is shown again, unchanged. */
    method FinishDownloadComic()
      requires Valid() && pending == DownloadPending
      modifies this
      ensures appState == ComicDisplayed
      ensures generatedImage == old(generatedImage) && comicPanels == old(comicPanels)
      ensures error == old(error) && loadingMessage == old(loadingMessage)
      ensures pending == NothingPending
      ensures Valid()
    {
      appState := ComicDisplayed;
      pending := NothingPending;
    }

    /** handleDownloadComic as a whole: without panels nothing happens;
        otherwise the panels' URLs are composited by downloadComic under the
        name `ai-comic.png`, and the comic is shown again. `hasContext` and
        `loads` are passed on to downloadComic. */
    method HandleDownloadComic(hasContext: bool, loads: string -> bool)
      returns (saved: Option<FileUtils.Download>, alerted: bool)
      requires Valid()
      modifies this
      ensures |old(comicPanels)| == 0 ==> unchanged(this) && saved.None? && !alerted
      ensures |old(comicPanels)| > 0 ==>
                appState == ComicDisplayed && loadingMessage == DownloadLoadingMessage
                && generatedImage == old(generatedImage) && comicPanels == old(comicPanels)
                && error == old(error) && pending == NothingPending
      ensures !hasContext ==> saved.None? && !alerted
      ensures |old(comicPanels)| > 0 && hasContext && FileUtils.AllLoad(PanelUrls(old(comicPanels)), loads) ==>
                !alerted
                && saved == Some(FileUtils.Download(ComicFileName, FileUtils.ExportType,
                                   [FileUtils.FillRect(FileUtils.Background, 0, 0, FileUtils.CanvasSide, FileUtils.CanvasSide)]
                                   + FileUtils.PanelDraws(PanelUrls(old(comicPanels)))))
      ensures |old(comicPanels)| > 0 && hasContext && !FileUtils.AllLoad(PanelUrls(old(comicPanels)), loads) ==>
                saved.None? && alerted
      ensures Valid()
    {
      var panelUrls := StartDownloadComic();
      if panelUrls.None? {
        return None, false;
      }
      var canvas;
      canvas, saved, alerted := FileUtils.DownloadComic(panelUrls.value, ComicFileName, hasContext, loads);
      FinishDownloadComic();
    }

    /** handleStartOver: from any state, back to the idle screen with
        nothing held. */
    method StartOver()
      modifies this
      ensures appState == Idle && generatedImage.None? && comicPanels == [] && error.None?
      ensures loadingMessage == old(loadingMessage) && pending == NothingPending
      ensures Valid()
    {
      appState := Idle;
      pending := NothingPending;
      generatedImage := None;
      comicPanels := [];
      error := None;
    }
  }
}
