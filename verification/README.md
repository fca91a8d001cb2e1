# eroxai: OCR, translation and document templates

This project models the core of eroxai, which has three parts:

- **Django backend.** It has user profiles with a free-usage quota, premium keys that lift the quota, uploaded documents that go through OCR, and document templates. A template is filled by translating the user's input and rendering it either onto the pages of a PDF template, into a spreadsheet, or onto a blank A4 list. A separate renderer typesets free text onto A4 pages.
- **Cloudflare worker.** It forwards OCR requests to Google Vision and translation requests to OpenAI.
- **React front end.** This part covers the client that calls the worker, the application store kept in local storage, and the colour theme.

Each source file has a module of its own. Modules are imperative where the source changes state step by step:

- the reportlab canvas and the openpyxl workbook are classes, `Pdf.Canvas` and `Workbook.Workbook`;
- the view handlers are methods of `Views.Backend`, whose fields hold the stored records;
- the front-end store is the class `AppStore.Store`;
- the renderers' loops are methods with loop invariants.

Each of these is proved against a specification function. Pure code is written as functions and lemmas:

- the data-URL pattern;
- the preset and colour normalisation of the theme;
- the worker's routing and answers.

Outside services are parameters:

- translation, OCR and file-type detection;
- the PDF and spreadsheet readers;
- the Vision and OpenAI endpoints, and the worker as seen by the front end;
- reportlab's text-width measure.

Shared helpers:

- `Wrappers` (Option, Result);
- `Seqs` (concatenation);
- `PyText` (Python's `split`, `strip` and `join`);
- `Values` (JSON-like values with Python's `str()`, truthiness and `float()`);
- `JsValues` (JavaScript values, truthiness, `||`, optional chaining, and `fetch` replies);
- `DataUrl`: the `data:image/<type>;base64,<payload>` form shared by the backend and the worker. It is a restricted form of the `data:[<mediatype>][;base64],<data>` syntax in section 3 of RFC 2397.

Python and JavaScript read the same pattern differently:

- Python's `.` excludes only `\n`, and its `$` also matches before a final newline. So `Utils.ExtractBase64` drops a trailing newline from the payload, and its result is then not a suffix of the input.
- JavaScript's `.` excludes all four line terminators, and its `$` matches only at the end. So `Worker.ExtractBase64` always returns a suffix.
- On input without line terminators the two agree (`Worker.ExtractAgreesWithBackend`).

Where the code and its own data model disagree, the model follows the code:

- `views.py` uses fields that `backend/core/models.py` does not declare. The model declares them as the views use them:
  - `template_type`, `output_language` and `fields` of a template (`Models.DocumentTemplate`);
  - `file_type` of a document (`Models.Document.fileType`, read at `backend/core/views.py:143` and `:158`);
  - `output_file` of a template fill (`Models.TemplateFill.output`, saved at `backend/core/views.py:244`).
- `views.py` also imports the classes `TemplateField` and `SiteSettings` (`backend/core/views.py:14`), which `backend/core/models.py` does not define at all. `Models.TemplateField` stands for the first, with the fields the renderers read. The second is read and updated by the settings endpoints `site_settings` and `update_site_settings` (`backend/core/views.py:275-289`), and the services read their API keys from it. Neither those endpoints nor the key lookup are part of this model.
- The reference column `label` is called `caption`, because `label` is a reserved word in Dafny.

## Model

| member | source | states |
|---|---|---|
| Models.ParseStatus | backend/core/models.py:41-53 | exactly the three status codes parse |
| Models.StatusRoundTrip | backend/core/models.py:41-45 | status codes and statuses map one-to-one in both directions |
| Models.OutputLanguage | backend/core/views.py:227 | the template's output language when set and non-empty, else "ja"; never empty |
| Views.UsesAdd | backend/core/views.py:50-54 | n uses add exactly n to the usage count and change nothing else in the profile |
| Views.FreeQuota | backend/core/views.py:43-47 | for a free user the gate is open after n more uses iff count + n < limit |
| Views.PremiumUnlimited | backend/core/views.py:43-46 | a premium user passes the gate after any number of uses |
| Views.FindActiveKey | backend/core/views.py:118 | the key found is active and has the code; when none is found, no active key has it |
| Views.RedeemOutcome | backend/core/views.py:114-126 | a stripped, non-blank code with an active key that has uses left gives "Premium activated.", raises only that key's count by one and makes the user premium; a missing or blank code, no active key, or no uses left gives its error and changes nothing |
| Views.RedeemKeepsBound | backend/core/views.py:119-122 | redemption never takes a key past its max uses, keeps codes unique and the number of keys |
| Views.CellTexts | backend/core/views.py:166-174 | a row's kept cells are at most its cells |
| Views.KeptRowsAppend | backend/core/views.py:164-176 | the chunks of rows read in two parts are the chunks of each part in order |
| Views.KeptRowsNonBlank | backend/core/views.py:166-168 | no chunk is blank after stripping, and there is at most one chunk per row |
| Views.EmptyRowDropped | backend/core/views.py:166-168 | a row of None cells leaves no chunk |
| Views.CollectRows | backend/core/views.py:165-168 | the loop appends exactly the kept, non-blank row texts in order |
| Views.FlattenSheets | backend/core/views.py:161-177 | the extracted text is the chunks of all sheets joined by newlines |
| Views.ExtractDocumentText | backend/core/views.py:158-179 | OCR text for pdf and image files, and 500 when the OCR service raises; flattened sheets via openpyxl, else xlrd, else an error; 400 "Unsupported file type." otherwise |
| Views.TranslateInput | backend/core/views.py:224-227 | a result exactly when no translation raises; then every input key, and no other, maps to the translation of str(value) from "auto" into the output language |
| Views.DispatchCases | backend/core/views.py:229-235 | a pdf template with a file is overlaid; an xlsx template is filled with its file iff it has one; everything else, a file-less pdf template included, gets the blank list |
| Views.Render | backend/core/views.py:229-235 | the dispatch runs the chosen renderer |
| Views.Backend.constructor | backend/core/models.py:6-11 | every user starts with a fresh profile (not premium, zero uses) and no records |
| Views.Backend.IncrementUsage | backend/core/views.py:50-54 | one more use on the user's profile, one usage log entry, and nothing else changes |
| Views.Backend.RedeemKey | backend/core/views.py:112-126 | keys and the profile change exactly as the redemption says; the key invariants hold |
| Views.Backend.UploadDocument | backend/core/views.py:129-147 | in order: the gate (403), a file (400), a known type (400), then one new document owned by the user with status "uploaded"; no use is counted |
| Views.Backend.RunOcr | backend/core/views.py:150-184 | another user's or a missing document gives 404; a closed gate gives 403; an unsupported type gives 400, and an OCR service that raises gives 500, both changing nothing; otherwise the text is stored, the status becomes "ocr_done" and one use is counted |
| Views.Backend.FillTemplate | backend/core/views.py:218-246 | an unknown template gives 404 and a closed gate 403, both with nothing changed; otherwise one fill with the translated data and the rendered file is recorded and one use is counted; a translation that raises, or a failing renderer (a rejected cell reference or cell text included), gives 500 and changes nothing |
| TemplateRender.SelectMembers | backend/core/services/template_render.py:25-31 | a page's overlay draws exactly the fields with a value whose page setting equals the page number, each as often as it occurs |
| TemplateRender.PlaceAllEach | backend/core/services/template_render.py:25-36 | the overlay succeeds iff every selected field places, its i-th draw is the i-th field's, and a failure is the first failing field's |
| TemplateRender.PlaceDefaults | backend/core/services/template_render.py:29-36 | a field without mapping is drawn at x 72, 72 points below the top, in Helvetica 11 |
| TemplateRender.PlaceFromTop | backend/core/services/template_render.py:32-36 | numeric settings put str(value) at x and at y measured down from the top edge, in the named font and size |
| TemplateRender.PlaceUnknownFont | backend/core/services/template_render.py:35 | a font that is not a standard font fails the render |
| TemplateRender.DrawField | backend/core/services/template_render.py:32-36 | the canvas gains exactly the placed draw, or the method reports the placement error |
| TemplateRender.OverlayNext | backend/core/services/template_render.py:25-36 | one turn of the field loop either fails as the remaining overlay does, or leaves the draws still to come exactly those of the fields after it |
| TemplateRender.DrawTextOverlay | backend/core/services/template_render.py:19-40 | the overlay loop yields the draws of the selected fields in order |
| TemplateRender.MergePagesEach | backend/core/services/template_render.py:47-50 | page k of the output is input page k merged with the overlay of page number first + k |
| TemplateRender.RenderPdfPages | backend/core/services/template_render.py:43-56 | the filled PDF has the template's pages in order, each merged with its 1-based overlay; it fails iff the template is unreadable or an overlay fails |
| TemplateRender.MergeOverlays | backend/core/services/template_render.py:47-50 | merging the template fields' overlays succeeds iff every page's overlay does, and output page k is page k merged with the overlay of page number k + 1 |
| TemplateRender.RenderPdf | backend/core/services/template_render.py:43-56 | the page loop produces the specified document |
| TemplateRender.FieldPastLastPage | backend/core/services/template_render.py:30-31 | a field mapped to a page outside 1..n is drawn on none of the n pages |
| TemplateRender.ListedFields | backend/core/services/template_render.py:64-66 | the blank list holds exactly the fields whose value is truthy, and no more entries than there are fields |
| TemplateRender.RenderBlank | backend/core/services/template_render.py:59-70 | the loop produces one page holding exactly the blank lines of the listed fields |
| TemplateRender.BlankLayout | backend/core/services/template_render.py:63-68 | the k-th line is "caption: value" of the k-th listed field at x 72, y 800 - 20k, in the canvas's initial font |
| TemplateRender.AddSheet | backend/core/services/template_render.py:118 | a new empty sheet is appended; the others and the active sheet stay |
| TemplateRender.ImportExtends | backend/core/services/template_render.py:113-120 | importing legacy sheet names keeps existing sheets and the active one, and adds only empty sheets with listed names |
| TemplateRender.ImportCovers | backend/core/services/template_render.py:116-118 | when every legacy name is an acceptable title, each becomes a sheet |
| Workbook.BindText | backend/core/services/template_render.py:131 | a cell keeps at most the first 32,767 characters of a string, and refuses it iff what it keeps holds a control character U+0000-U+0008, U+000B, U+000C or U+000E-U+001F |
| TemplateRender.Target | backend/core/services/template_render.py:121-131 | a write always targets an existing sheet |
| TemplateRender.TargetSheet | backend/core/services/template_render.py:126-131 | a write goes to the named sheet, to the first sheet when none is named, or to the active sheet for an unknown name; it writes str(value) as the cell takes it |
| TemplateRender.TargetWritten | backend/core/services/template_render.py:122-131 | a field is written iff its value is not None, its cell is a non-empty, readable reference and the cell takes str(value); a truthy unreadable reference is rejected, and so is text with an illegal control character under a readable one |
| TemplateRender.WriteCell | backend/core/services/template_render.py:131 | exactly one cell changes, and sheet titles and the active sheet stay |
| TemplateRender.TargetsAt | backend/core/services/template_render.py:121-131 | the j-th planned write is what the j-th field does |
| TemplateRender.ApplyWrites | backend/core/services/template_render.py:121-131 | the writes keep the sheet titles and the active sheet |
| TemplateRender.ApplyWritesFails | backend/core/services/template_render.py:121-131 | the writes fail iff some field's cell reference or cell text is rejected |
| TemplateRender.ApplyWritesCells | backend/core/services/template_render.py:121-131 | each cell holds the text of the last field's write to it, and cells no field writes keep their value |
| TemplateRender.PerformCells | backend/core/services/template_render.py:121-131 | after a sequence of writes a cell holds the text of the last write to it, or its old value when none writes to it |
| TemplateRender.OpenWorkbook | backend/core/services/template_render.py:104-112 | the opened workbook is the template's, or a fresh one when there is no path or loading fails |
| TemplateRender.ImportSheets | backend/core/services/template_render.py:113-120 | the legacy-name loop performs the specified import |
| TemplateRender.WriteField | backend/core/services/template_render.py:121-131 | a skipped field leaves the workbook as it was, a rejected cell reference or cell text is reported with the workbook unchanged, and a write changes exactly its cell on an existing sheet |
| TemplateRender.WriteNext | backend/core/services/template_render.py:121-131 | one turn of the field loop keeps sheet titles and the active sheet, and either fails as the remaining writes do or leaves exactly the later writes to perform |
| TemplateRender.RenderXlsx | backend/core/services/template_render.py:103-135 | the method produces the specified workbook |
| FreeTextRender.WrapFromConcat | backend/core/services/template_render.py:85-98 | wrapping neither drops, splits nor reorders words |
| FreeTextRender.WrapFromWords | backend/core/services/template_render.py:86-96 | every line is made of whole words |
| FreeTextRender.DrawnWords | backend/core/services/template_render.py:85-98 | the drawn lines read in order are the text's words, and each line splits back into its own words |
| FreeTextRender.WrapFromGreedy | backend/core/services/template_render.py:86-96 | the wrap is greedy: a word joins a line only if the line then fits, and a line ends only because its next word does not fit |
| FreeTextRender.WrapFirstLine | backend/core/services/template_render.py:86-91 | the first line is empty iff the first word alone does not fit |
| FreeTextRender.WrapGreedy | backend/core/services/template_render.py:86-96 | the wrap of any text is greedy |
| FreeTextRender.SlotBounds | backend/core/services/template_render.py:91-95 | every line lies between the 20 mm bottom margin and the 30 mm top margin, on the same page as the previous line or the next one |
| FreeTextRender.SlotsDown | backend/core/services/template_render.py:92 | until the bottom margin, lines go down the first page in 7 mm steps |
| FreeTextRender.PageCapacity | backend/core/services/template_render.py:78-95 | a page begun at the top holds 36 lines; a first page under a title holds 34 |
| FreeTextRender.SlotsAfterBreak | backend/core/services/template_render.py:93-95 | after a page break, lines continue as on a page begun at the top |
| FreeTextRender.FlowNext | backend/core/services/template_render.py:91-95 | after n lines the next goes to slot n, and one page is finished per page break |
| FreeTextRender.FlowLines | backend/core/services/template_render.py:84-98 | flowing keeps every draw in order across pages |
| FreeTextRender.DocLines | backend/core/services/template_render.py:73-100 | the document read page by page is the title followed by the body lines, on as many pages as the last line's page number + 1 |
| FreeTextRender.DrawLine | backend/core/services/template_render.py:91 | the canvas gains exactly the line's draw at its slot |
| FreeTextRender.EmitLine | backend/core/services/template_render.py:91-95 | drawing a line and moving down (with a page break) takes the canvas to the next specified state |
| FreeTextRender.TakeWord | backend/core/services/template_render.py:86-96 | a word that fits joins the current line; otherwise the current line is finished and drawn and the word starts the next one |
| FreeTextRender.FlowWords | backend/core/services/template_render.py:85-96 | the loop draws exactly the wrap's finished lines and holds back the last one |
| FreeTextRender.Begin | backend/core/services/template_render.py:76-83 | a fresh A4 canvas holding the title (when there is one) with the body font selected, at the body's first slot |
| FreeTextRender.End | backend/core/services/template_render.py:97-99 | the last line, if non-empty, is drawn, and the saved document is that of all the wrapped lines |
| FreeTextRender.Typeset | backend/core/services/template_render.py:76-99 | the canvas ends with the specified document |
| FreeTextRender.RenderFreeText | backend/core/services/template_render.py:73-100 | the renderer as written: after a page break the body is drawn at the canvas's initial 12 points |
| FreeTextRender.RenderFreeTextCorrected | backend/core/services/template_render.py:73-100 | the renderer with the body font selected again after each page break |
| FreeTextRender.AsWrittenLaterPageSize | backend/core/services/template_render.py:83-95 | the 37th body line of an untitled text is drawn at 12 points, not 11 |
| FreeTextRender.CorrectedBodySize | backend/core/services/template_render.py:83-95 | with the font selected again, every body line is at 11 points |
| DataUrl.ParseSound | backend/core/services/utils.py:21 | what parses is exactly the scheme, a non-empty subtype without ";", the marker and the payload |
| DataUrl.ParseRoundTrip | backend/core/services/utils.py:21 | every such data URL parses back into its subtype and payload |
| Utils.ExtractCases | backend/core/services/utils.py:18-22 | None or "" gives None; a data URL whose payload has no newline gives the payload; any other string, and a data URL whose payload the pattern cannot capture, comes back unchanged |
| Utils.CaptureShape | backend/core/services/utils.py:21 | the captured group is the whole payload, or the payload minus its final newline |
| Utils.ExtractSuffix | backend/core/services/utils.py:18-22 | the result is a suffix of the input, or of the input minus its final newline |
| Utils.FinalNewlineDropped | backend/core/services/utils.py:21-22 | a payload ending in its only newline comes back without that newline |
| Utils.NotAlwaysSuffix | backend/core/services/utils.py:21-22 | a concrete input whose result is not a suffix of it |
| Worker.JsonResponse | cloudflare/worker.js:7-15 | a JSON response has Content-Type application/json and every CORS header, and no other header |
| Worker.ErrorResponse | cloudflare/worker.js:17-18 | an error is `{ error: message }` with the given status, the JSON content type and the CORS headers |
| Worker.ExtractBase64 | cloudflare/worker.js:20-24 | a falsy image gives null; a truthy image that is not a string throws |
| Worker.ExtractCases | cloudflare/worker.js:20-24 | a data URL whose payload has no line terminator gives the payload; any other non-empty string, including a data URL whose payload has one, comes back unchanged |
| Worker.ExtractSuffix | cloudflare/worker.js:22-23 | the result is always a suffix of the input |
| Worker.ExtractAgreesWithBackend | cloudflare/worker.js:20-24 | on input without line terminators, the worker and the backend extract the same text |
| Worker.VisionAnswer | cloudflare/worker.js:57-64 | an upstream error passes its text (or "Vision API error") and status on; otherwise 200 with the detected text or "" |
| Worker.HandleVisionOcr | cloudflare/worker.js:26-65 | a missing or empty image gives 400 "Image payload missing" with no upstream call; otherwise exactly one Vision request whose one entry has exactly the image, the TEXT_DETECTION feature, and languageHints iff the hint is truthy |
| Worker.TranslateAnswer | cloudflare/worker.js:99-110 | an upstream error passes its text (or "OpenAI API error") and status on; otherwise 200 with the first output text, else output_text, else "" |
| Worker.Display | cloudflare/worker.js:93 | a string shows as itself and other primitives always show; an object shows as [object Object] unless it has its own toString key, which throws; an array throws iff one of its object or array elements does |
| Worker.HandleOpenAiTranslate | cloudflare/worker.js:67-111 | source, target and model default to auto, en and gpt-4o-mini; blank text gives 400 "Text is required" with no upstream call; a source or target that cannot be shown throws with no call; otherwise exactly one request with the system prompt and the user message |
| Worker.RouteOf | cloudflare/worker.js:115-127 | OPTIONS on any path is a preflight; POST to each endpoint path goes to its handler; everything else has no route |
| Worker.Fetch | cloudflare/worker.js:113-129 | a preflight gets 204 with the CORS headers and no body; an unrouted request gets 404 "Not Found"; on the two POST routes a body that is not JSON throws, a missing image gives 400 "Image payload missing" and blank text 400 "Text is required", all with no upstream call; a request with an image makes exactly the Vision call, and one with text and displayable languages exactly the OpenAI call, each answered as its handler answers; every response carries the CORS headers |
| CloudService.NormalizeWorkerUrl | frontend/src/services/cloudService.js:1 | the result is a prefix of the input without a trailing "/", and only "/" was removed |
| CloudService.NormalizeIdempotent | frontend/src/services/cloudService.js:1 | normalising twice is normalising once |
| CloudService.NormalizeEmpty | frontend/src/services/cloudService.js:1 | the result is empty iff the input is empty or slashes only |
| CloudService.ToLanguageHint | frontend/src/services/cloudService.js:3-15 | exactly the eight OCR codes have a two-letter hint |
| CloudService.HintsDistinct | frontend/src/services/cloudService.js:4-13 | no two codes share a hint |
| CloudService.Answer | frontend/src/services/cloudService.js:38-44 | a non-ok reply throws its text or the fallback message; a successful result is the named field or "" |
| CloudService.CloudOcr | frontend/src/services/cloudService.js:17-45 | an empty base URL throws "Worker URL tanımlı değil" with no request; otherwise one POST to base + "/v1/vision/ocr" (no doubled slash), whose body has exactly the image and, iff the code has a hint, languageHint |
| CloudService.CloudTranslate | frontend/src/services/cloudService.js:47-72 | an empty base URL throws with no request; otherwise one POST to base + "/v1/openai/translate" whose body has exactly text, source, target and model |
| AppStore.InitialState | frontend/src/store/useAppStore.js:18-28 | each stored field, else its default ("" for both texts, eng, auto, tr, no history); an empty mode or preset falls back to dark or ocean; settings are the defaults overlaid key by key; there is no file |
| AppStore.FirstStart | frontend/src/store/useAppStore.js:5-16 | with nothing stored, the store starts from the defaults |
| AppStore.ReloadRestores | frontend/src/store/useAppStore.js:19-34 | reloading a saved snapshot restores it without the file, provided its mode and preset are non-empty and its settings keep the default keys |
| AppStore.WithEntry | frontend/src/store/useAppStore.js:72 | the new entry comes first, followed by the newest min(old, 49) old entries in order; 50 at most |
| AppStore.HistoryKeepsNewest | frontend/src/store/useAppStore.js:71-75 | after k additions, old entry i sits at position k + i while k + i < 50 |
| AppStore.Store.constructor | frontend/src/store/useAppStore.js:30-31 | the store starts in the initial state and has saved nothing |
| AppStore.Store.Persist | frontend/src/store/useAppStore.js:32-34 | the saved snapshot is the current state with file null |
| AppStore.Store.SetMode | frontend/src/store/useAppStore.js:35-38 | only mode changes; the state is saved |
| AppStore.Store.SetFile | frontend/src/store/useAppStore.js:39-42 | only file changes; the saved snapshot never holds the file |
| AppStore.Store.SetOcrResult | frontend/src/store/useAppStore.js:43-46 | only ocrText changes; the state is saved |
| AppStore.Store.SetTranslation | frontend/src/store/useAppStore.js:47-50 | only translationText changes; the state is saved |
| AppStore.Store.SetOcrLanguage | frontend/src/store/useAppStore.js:51-54 | only ocrLanguage changes; the state is saved |
| AppStore.Store.SetSourceLanguage | frontend/src/store/useAppStore.js:55-58 | only sourceLanguage changes; the state is saved |
| AppStore.Store.SetTargetLanguage | frontend/src/store/useAppStore.js:59-62 | only targetLanguage changes; the state is saved |
| AppStore.Store.UpdateSettings | frontend/src/store/useAppStore.js:63-66 | the settings object is replaced as a whole; nothing else changes |
| AppStore.Store.SetThemePreset | frontend/src/store/useAppStore.js:67-70 | only themePreset changes; the state is saved |
| AppStore.Store.AddHistory | frontend/src/store/useAppStore.js:71-75 | only the history changes, to the capped newest-first history |
| AppStore.Store.ClearHistory | frontend/src/store/useAppStore.js:76-79 | only the history changes, to empty |
| Theme.NormalizeMode | frontend/src/theme/theme.js:50 | "light" or "dark" as given; anything else becomes "dark" |
| Theme.NormalizePreset | frontend/src/theme/theme.js:51 | a non-empty string as given; anything else becomes "ocean" |
| Theme.NormalizeColor | frontend/src/theme/theme.js:52 | a non-empty string as given; anything else becomes null |
| Theme.PresetColorsAsWritten | frontend/src/theme/theme.js:64 | the lookup as written: known presets give their colours, unknown names give ocean, but inherited object members give no colours |
| Theme.PresetColors | frontend/src/theme/theme.js:43-48 | the intended lookup: known presets give their colours, every other name gives ocean |
| Theme.InheritedPresetHasNoColors | frontend/src/theme/theme.js:64 | the preset "toString" gives no colours as written, where ocean was intended |
| Theme.PresetLookupsAgree | frontend/src/theme/theme.js:64 | apart from inherited names, the written and intended lookups agree |
| Theme.GetTheme | frontend/src/theme/theme.js:54-104 | custom colours are used iff both are non-empty strings, else the intended preset's (ocean when unknown); the mode is normalised; the backgrounds and text colours are the dark or the light ones by that mode; the status colours are fixed |
| Theme.SurfacesFollowMode | frontend/src/theme/theme.js:72-79 | two themes have the same backgrounds and text colours iff their modes normalise alike, whatever their presets and colours |
| Theme.DefaultTheme | frontend/src/theme/theme.js:54 | with no arguments, the theme is dark ocean |

## Left out

- Network, database and file I/O are not modelled. This covers the ORM, file storage, `ensure_output_dir` and output file names, HTTP transport, the `fetch` calls and local storage itself. Each is replaced by a parameter or a field.
- Authentication, permissions, e-mail verification and serializers are left out. The exception is the stripping and blank check that the `code` CharField of the premium-key serializer applies (`backend/core/serializers.py:36-37`).
- `translate_document` is not part of this model. Neither are the other handlers that only read records or pass them on to outside services. The site settings endpoints (`backend/core/views.py:275-289`), which read and update the service keys, are not part of this model either.
- get_file_type is not part of this model. `views.py` calls it, but `backend/core/services/file_processing.py` does not define it, so the file type is the `fileTypeOf` parameter.
- The admin handler's key generation uses `uuid` without importing it. That handler is not part of this model.
- Views.Backend.RedeemKey: requires that the user has a profile. Django creates one through a signal, which is not modelled.
- Views.TranslateInput: input values are Null, Bool, Int or Str, as the model's `Value` has them. Floats, lists and dicts in `input_data`, which `str(value)` also accepts, are not modelled. Neither is an `input_data` that is not a dict, where `.items()` raises (`backend/core/views.py:225-226`).
- Views.Backend.FillTemplate: for the same reason, its request data is a map from names to those four kinds of value. A translation that raises is modelled as a service result of None, which answers 500 and changes nothing.
- Views.Backend.RunOcr: an OCR service that raises is modelled as a result of None, which answers 500 and changes nothing. Why it raised (a missing key or an HTTP error) is not distinguished.
- Views.ExtractDocumentText: spreadsheet cells are Null, Bool, Int or Str. xlrd's floats and dates are not modelled.
- TemplateRender.ImportSheets: openpyxl renames an empty title, or one that duplicates another regardless of case, instead of raising. The model stops at the first such title, as an exception would, and compares titles exactly.
- Pdf.Canvas: text width, fonts beyond the standard names, and reportlab's drawing operators are parameters or not modelled. The page and draw events are modelled.
- Worker.HandleOpenAiTranslate: how the engine turns a number into text inside a template literal is the `numberText` parameter.
- Worker.Fetch: the URL is taken as a method and a path; parsing it is not modelled.
- TemplateRender.WriteCell: openpyxl types a cell text that starts with "=" and is longer than one character as a formula. The model stores it as text, since nothing in this model reads a cell's type.
- CloudService.CloudOcr: the abort signal is not modelled. A request URL whose base has a path of its own is not checked against the worker's routes.
- CloudService.ToLanguageHint: codes that name inherited members of a JavaScript object, such as "constructor" and "__proto__", find those members in the source. The model treats them as unknown codes.
- AppStore.InitialState: stored values are assumed to have the types the store writes, and a stored value that is not an object reads as nothing stored. Storage errors, which the source ignores, are not modelled.
- AppStore.Store.Persist: the argument is not modelled. Every caller passes the field it has just set, so the saved snapshot is the current state.
- Theme.GetTheme: it uses the corrected preset lookup `Theme.PresetColors` (see Findings). So an inherited name such as "toString" gives the ocean colours, where the source as written yields no colours (`Theme.PresetColorsAsWritten`).
- Theme.GetTheme: the UI toolkit's theme building (`createTheme`, `responsiveFontSizes`), the typography and the component overrides are not modelled. The palette is.

## Findings

| source | as written | input that shows it | evidently intended | confidence | as-written member | corrected member |
|---|---|---|---|---|---|---|
| backend/core/services/template_render.py:83-95 | the body font is set once, before the loop; `showPage()` resets the canvas to Helvetica 12 | an untitled text that wraps into 37 or more lines: its 37th line, at the top of page 2, is drawn at 12 points though it was measured at 11 | every body line in 11-point Helvetica | not executed; relies on reportlab resetting the graphics state on each new page | FreeTextRender.AsWrittenLaterPageSize | FreeTextRender.CorrectedBodySize |
| frontend/src/theme/theme.js:64 | `presetPalettes[safePreset]` also finds members inherited from `Object.prototype` | preset "toString": the lookup yields a function, which is truthy, so the ocean fallback is skipped and both main colours are undefined | an unknown preset name falls back to the ocean palette | not executed | Theme.InheritedPresetHasNoColors | Theme.PresetColors |
