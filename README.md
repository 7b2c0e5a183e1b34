# AI Image & Comic Creator — a Dafny model of its core

The application turns a text prompt into an image through a remote
image model, edits the current image with further prompts, and builds a
four-panel comic from it: a text model writes four panel descriptions
as JSON, and the panels are produced one after another, each an edit of
the previous panel. The finished comic is composited onto a 2x2 canvas and
downloaded. This project models that core and proves properties of it:

- `types.dfy` (`Types`): the image record, the application states, and
  the values a JavaScript `catch` can receive (an `Error` or other object,
  a string, any other primitive).
- `text.dfy` (`Text`): `String.prototype.trim` over the ECMAScript white
  space and line terminator characters.
- `gemini_service.dfy` (`GeminiService`): the image service client.
  - Response normalisation keeps the first part that carries inline data
    and builds its `data:` URL.
  - The catch blocks choose a failure detail and wrap it with a
    per-operation prefix.
  - The generate and edit request payloads.
  - The comic orchestrator: a narrative call, parsing, a count gate of
    exactly four, then a sequential fold of edit calls in which each new
    panel is the next reference. The loop is a method proved equal to a
    recursive reference definition (`PanelChain`).
  - The remote models and `JSON.parse` are oracles passed in as functions.
- `file_utils.dfy` (`FileUtils`): the comic compositor.
  - The grid constants and the cell geometry.
  - A `Canvas` class whose methods change its size, fill style and log of
    drawing commands.
  - `DownloadComic`: it fills the background, waits for every image to
    load, draws image i into cell i (the first four only) and saves. If
    any image fails to load, nothing is drawn over the background and an
    alert is raised.
- `app.dfy` (`App`): the application component, as a class holding the
  five state fields.
  - Each asynchronous handler is split into a start phase (run on the
    event) and a completion phase (run with the awaited call's outcome).
    While loading, the rendered screen offers no action, so nothing else
    can run in between.
  - `Valid()` holds from construction through every handler. It says that
    the error screen always has a message, the image screen always has
    an image, and the loading screen is shown exactly while a handler
    awaits its call. A ghost field `pending` records which handler that is,
    and each completion phase requires its own start phase to have run.
  - `handleError` builds its message from the context, the details of the
    thrown value and fixed guidance.
- `prompt_form.dfy` (`Components`): the prompt form. It submits the
  trimmed prompt exactly when its button is enabled.

Some behaviours of the code are easy to misread, and the model keeps them
as the code has them:

- A normalised image's base64 payload may be empty: the code only checks
  that `inlineData` is present.
- A failed comic build leaves `comicPanels` as it was, not cleared. The
  error screen is what is shown.
- The image stays held while the comic is displayed.
- An edit failure during the comic build is reported with the edit prefix
  and does not name the panel.
- Preparing a comic download does not clear the error field.

## Model

| member | source | states |
|---|---|---|
| Types.ErrorObject | services/geminiService.ts:26 | `new Error(m)` is an Error object whose message is `m` and which has no response body |
| Text.SkipLeading | components/PromptForm.tsx:24 | the offset of the first non-white-space character at or after `i`; everything skipped is white space |
| Text.SkipTrailing | components/PromptForm.tsx:24 | the end of the last non-white-space character before `j`; everything skipped is white space |
| Text.Trim | components/PromptForm.tsx:24-25 | `trim()` returns an infix of the input with only white space outside it, and a non-empty result neither starts nor ends with white space |
| Text.TrimEmptyIff | components/PromptForm.tsx:24 | the trimmed prompt is empty (falsy) exactly when the prompt is all white space |
| Text.TrimIdempotent | components/PromptForm.tsx:24-25 | trimming the already trimmed value passed to `onSubmit` changes nothing |
| GeminiService.FirstImageIndex | services/geminiService.ts:29-38 | the loop's exit index: it is absent iff no part has inline data; otherwise it is the first part that has it |
| GeminiService.ProcessImageResponse | services/geminiService.ts:21-40 | a missing parts list gives the no-parts error; otherwise the result is Ok iff some part has inline data. The image is that of the first such part, with `url` the `data:` URL of its payload; otherwise the no-image error |
| GeminiService.FirstImageIndexAppend | services/geminiService.ts:29-38 | appending parts never moves an existing first image index |
| GeminiService.LaterPartsIgnored | services/geminiService.ts:29-38 | parts after the first image part never change the normalised result |
| GeminiService.FirstImageIndexSkip | services/geminiService.ts:29-38 | leading parts without inline data shift the first image index by their count |
| GeminiService.LeadingNonImagePartsSkipped | services/geminiService.ts:29-38 | leading parts without inline data never change the normalised result |
| GeminiService.FailureDetail | services/geminiService.ts:58-65 | the detail priority: a truthy `message`, then `Error de API: ` with the response error's message or its JSON, then a thrown string, then the operation's fallback text |
| GeminiService.Failure | services/geminiService.ts:66 | the rethrown value is an Error whose message starts with the operation's prefix and continues with exactly the detail |
| GeminiService.GenerateImage | services/geminiService.ts:42-68 | a reply is normalised by `processImageResponse`: its image is the result, and its error is wrapped through `Failure`, as a rejected call is. So success is exactly a reply with an image part, and every failure is an Error starting with the generation prefix |
| GeminiService.EditImage | services/geminiService.ts:70-104 | as GenerateImage, for the edit request and with the edit prefix: a normalised reply's image is the result, and a normalisation error or a rejection is wrapped through `Failure` |
| GeminiService.EditRequestCarriesImage | services/geminiService.ts:72-91 | the edit request carries the source image's payload and type unchanged (normalising it gives the image back), followed by the prompt |
| GeminiService.PanelPromptEmbeds | services/geminiService.ts:179 | the panel prompt is the fixed head, the description verbatim, then the fixed tail; distinct descriptions give distinct prompts |
| GeminiService.Excerpt | services/geminiService.ts:165 | a prefix of the reply: the whole reply when it has at most 200 characters, otherwise exactly its first 200 |
| GeminiService.PanelDescriptions | services/geminiService.ts:113-170 | a narrative rejection is wrapped with the story prefix; unparsable trimmed text gives the invalid-JSON error with an excerpt and `...`. `panels` that is not an array of exactly four gives the count error, so success always holds four descriptions |
| GeminiService.PanelChainPrompts | services/geminiService.ts:174-182 | at most one edit call per description; call k carries the styled description k, and the first call references the base image |
| GeminiService.PanelChainReferences | services/geminiService.ts:182-186 | every call after the first references the panel returned by the call before it |
| GeminiService.PanelChainOutcome | services/geminiService.ts:172-189 | success yields one panel per description, panel k being call k's output; a failure is exactly the error of the last call issued, and nothing follows it |
| GeminiService.ChainPanels | services/geminiService.ts:172-189 | the imperative loop (push, then reassign the reference) computes exactly the reference fold `PanelChain`, results and calls alike |
| GeminiService.GenerateComicPanels | services/geminiService.ts:106-190 | a failed gate returns its error with no edit call. Otherwise the result is the fold over the four descriptions with the panel prompt and editImage: success yields exactly four panels, and a failure issues at most four calls |
| App.ErrorDetails | App.tsx:21-29 | an Error gives its message, another object its JSON, a string itself, any other value no details |
| App.ErrorMessage | App.tsx:18-36 | the context comes first and the guidance last; between them is the details line exactly when the details are non-empty, and otherwise nothing |
| App.FormShown | App.tsx:153-182 | a form is shown only in the idle and image states, and a shown form is never disabled |
| App.AppComponent.constructor | App.tsx:12-16 | idle, no image, no panels, empty loading message, no error |
| App.AppComponent.RenderContent | App.tsx:107-151 | loading shows the loader with the loading message, the image state the held image, the comic state the panels, the error state the message, idle the placeholder; in a valid state nothing renders blank and the error screen has a message |
| App.AppComponent.Actions | App.tsx:107-182 | no action while loading; only generate when idle; download comic and start over on the comic; only start over on the error screen; edit, create comic, download and start over on an image |
| App.AppComponent.HandleError | App.tsx:18-40 | the error state with the built message; image, panels and loading message kept |
| App.AppComponent.StartGenerateImage | App.tsx:42-47 | loading with its message; error, image and panels cleared |
| App.AppComponent.FinishGenerateImage | App.tsx:48-54 | success displays the returned image; failure enters the error state with the generation context and keeps everything else |
| App.AppComponent.StartEditImage | App.tsx:57-61 | a no-op without an image; otherwise loading with its message, error cleared, image kept for the call |
| App.AppComponent.FinishEditImage | App.tsx:62-68 | only success replaces the image; failure keeps the previous one and shows the edit context |
| App.AppComponent.StartCreateComic | App.tsx:71-75 | a no-op without an image; otherwise loading with its message and the error cleared |
| App.AppComponent.FinishCreateComic | App.tsx:76-82 | success displays the returned panels; failure shows the comic context and keeps the old panels; the image is kept either way |
| App.PanelUrls | App.tsx:95 | URL i is panel i's url, one per panel |
| App.AppComponent.StartDownloadComic | App.tsx:91-95 | a no-op without panels; otherwise loading, with URL i being panel i's url |
| App.AppComponent.FinishDownloadComic | App.tsx:95-96 | the comic is shown again with everything else unchanged |
| App.AppComponent.HandleDownloadComic | App.tsx:91-98 | without panels nothing happens. Otherwise downloadComic composites the panels' URLs and, when all load, saves them as `ai-comic.png`; a failed load raises the alert. The comic is shown again with the panels, image and error unchanged |
| App.AppComponent.StartOver | App.tsx:100-105 | idle with no image, no panels and no error, from any state |
| FileUtils.CanvasSideValue | utils/fileUtils.ts:16-21 | the canvas side is two panels and three gaps, 2168 |
| FileUtils.CellsInsideCanvas | utils/fileUtils.ts:38-43 | each of the four cells lies inside the canvas |
| FileUtils.CellsDisjoint | utils/fileUtils.ts:38-43 | no point lies in two cells |
| FileUtils.CellsInReadingOrder | utils/fileUtils.ts:38-43 | the cells are in reading order; two cells share a column iff they are two apart |
| FileUtils.UniformGaps | utils/fileUtils.ts:17-43 | the margins and the gaps between cells are all exactly 40 |
| FileUtils.PanelDraws | utils/fileUtils.ts:45-50 | one draw per image up to four, image i into cell i at full panel size |
| FileUtils.PanelDrawInCanvas | utils/fileUtils.ts:45-50 | no more than four draws; each draws its own image at full panel size, inside the canvas |
| FileUtils.PanelDrawsDisjoint | utils/fileUtils.ts:45-50 | no two panel draws overlap |
| FileUtils.Canvas.constructor | utils/fileUtils.ts:12 | a new canvas is 300 by 150 with a black fill style and nothing drawn |
| FileUtils.Canvas.SetSize | utils/fileUtils.ts:20-21 | sets the size; as for an HTML canvas, this resets the fill style to its default and clears what was drawn |
| FileUtils.Canvas.SetFillStyle | utils/fileUtils.ts:23 | sets the fill style and nothing else |
| FileUtils.Canvas.FillRectangle | utils/fileUtils.ts:24 | appends a rectangle in the current fill style and nothing else |
| FileUtils.Canvas.DrawImageAt | utils/fileUtils.ts:48 | appends an image draw and nothing else |
| FileUtils.DownloadComic | utils/fileUtils.ts:11-57 | no 2D context: nothing is done. Otherwise a 2168-square canvas with the background filled first. If all images load, exactly the panel draws follow and the canvas is saved under the file name as PNG; otherwise nothing more is drawn, nothing is saved, and an alert is raised |
| Components.InitialPrompt | components/PromptForm.tsx:17-20 | the prompt starts as `initialValue`, the empty string when it is absent |
| Components.ButtonAgreesWithSubmit | components/PromptForm.tsx:24-41 | the button is enabled exactly when submitting calls `onSubmit`, which is exactly when the form is enabled and the prompt is not all white space |
| Components.WhitespaceNeverSubmits | components/PromptForm.tsx:24 | a prompt of white space only never submits |
| Components.PromptForm.constructor | components/PromptForm.tsx:20 | the field starts with the initial prompt |
| Components.PromptForm.Change | components/PromptForm.tsx:33 | the field becomes the typed value |
| Components.PromptForm.HandleSubmit | components/PromptForm.tsx:22-27 | `onSubmit` is called iff the form is enabled and the prompt is not all white space. It receives the trimmed prompt: non-empty, with no white space at either end |

## Left out

- The Gemini SDK, the network, the model names, the API key check, the
  `aspectRatio`, `responseSchema` and `thinkingConfig` settings, and console
  logging. The two models are oracle functions from the request's parts to
  their reply.
- `JSON.parse` and the `.panels` lookup are an oracle (`parse`). Array items
  are represented by the strings they become inside the panel prompt's
  template literal.
- `substring(0, 200)` counts UTF-16 code units; `Excerpt` counts characters.
- A reply whose `text` is missing (so `trim` throws inside the narrative
  try block) is not modelled: the text model always replies with a string.
- Rejections with `null` or `undefined` are not modelled: reading
  `e.message` on them would throw a TypeError out of the catch block.
  `PrimitiveThrown` stands for the other non-string primitives.
- Canvas pixels, image decoding, `toDataURL` and the download link are not
  modelled. The saved image is represented by the log of drawing commands
  made on the canvas, and `alert` by a flag.
- `loads` says which URLs decode as images. The order in which images
  finish loading is not modelled.
- `downloadImage` and `handleDownloadImage` are left out: they only create
  and click a link, which is browser I/O.
- The display components (image display, comic display, loader) and the
  page layout are not modelled. The actions their buttons offer are, in
  `Actions`.
- React's rendering and state batching are not modelled. Each await is
  modelled by splitting its handler into a start and a completion method.
  The ghost field `pending` pairs them: a completion requires the pending
  operation its own start recorded.
- downloadComic's default file name `comic.png` is not modelled. Its only
  caller always passes `ai-comic.png`, so `DownloadComic` takes the name as
  a parameter.
