/**
 * The request handlers of the backend that read or change the stored records: the usage gate
 * and counter, premium-key redemption, document upload, OCR (with the flattening of a
 * spreadsheet into text) and template filling. Translation, OCR, file-type detection and the
 * spreadsheet readers are collaborators passed in as functions.
 */
module Views {
  import opened Wrappers
  import opened Seqs
  import opened PyText
  import opened Values
  import opened Pdf
  import opened Models
  import opened TemplateRender

  /** What a handler answers, by HTTP status. */
  datatype Response =
    | Done                        // 200 with the serialized record
    | Message(text: string)       // 200 with a message
    | Created(id: nat)            // 201 with the new record
    | BadRequest(reason: string)  // 400
    | Forbidden(reason: string)   // 403
    | NotFound                    // 404
    | ServerError                 // 500: an exception escaped the handler

  const LimitReached: string := "Free usage limit reached."
  const Unsupported: string := "Unsupported file type."

  /** The collaborators of the handlers. */
  datatype Services = Services(
    translate: (string, string, string) -> Option<string>,    // translate_text(text, source, target), None when it raises
    ocr: (string, string, Option<string>) -> Option<string>,   // run_google_vision_ocr(path, type, hint), None when it raises
    fileTypeOf: string -> string,                              // get_file_type(name)
    openXlsx: string -> Option<seq<seq<seq<Value>>>>,          // openpyxl: sheets of rows of cells, None when it raises
    openXls: string -> Option<seq<seq<seq<Value>>>>)           // xlrd: the same, None when it raises

  // ----- Usage -----

  /** `check_usage_limit`: premium users always pass, others while under the free limit. */
  predicate UsageAllowed(p: UserProfile, limit: nat) {
    p.isPremium || p.usageCount < limit
  }

  /** The profile after `increment_usage`. */
  function Incremented(p: UserProfile): UserProfile {
    p.(usageCount := p.usageCount + 1)
  }

  /** The profile after `n` more uses. */
  function IncrementedTimes(p: UserProfile, n: nat): UserProfile {
    if n == 0 then p else Incremented(IncrementedTimes(p, n - 1))
  }

  /** Uses only ever add to the count; nothing else in the profile changes. */
  lemma {:induction false} UsesAdd(p: UserProfile, n: nat)
    ensures IncrementedTimes(p, n) == p.(usageCount := p.usageCount + n)
  {
    if n > 0 {
      UsesAdd(p, n - 1);
    }
  }

  /**
   * For a free user the gate stays open exactly while the count is under the limit, so a new
   * free user gets `limit` gated uses.
   */
  lemma FreeQuota(p: UserProfile, limit: nat, n: nat)
    requires !p.isPremium
    ensures UsageAllowed(IncrementedTimes(p, n), limit) <==> p.usageCount + n < limit
  {
    UsesAdd(p, n);
  }

  /** A premium user passes the gate however often they have used the service. */
  lemma PremiumUnlimited(p: UserProfile, limit: nat, n: nat)
    requires p.isPremium
    ensures UsageAllowed(IncrementedTimes(p, n), limit)
  {
    UsesAdd(p, n);
  }

  // ----- Premium keys -----

  predicate UniqueCodes(keys: seq<PremiumKey>) {
    forall i, j :: 0 <= i < j < |keys| ==> keys[i].code != keys[j].code
  }

  /** No key has been redeemed more often than it allows. */
  predicate WithinUses(keys: seq<PremiumKey>) {
    forall i :: 0 <= i < |keys| ==> keys[i].usedCount <= keys[i].maxUses
  }

  /** The active key with this code, if any (`get_object_or_404(PremiumKey, code=code, is_active=True)`). */
  function FindActiveKey(keys: seq<PremiumKey>, code: string): (r: Option<nat>)
    ensures r.Some? ==> r.value < |keys| && keys[r.value].code == code && keys[r.value].isActive
    ensures r.None? ==> forall i :: 0 <= i < |keys| ==> !(keys[i].code == code && keys[i].isActive)
    decreases |keys|
  {
    if keys == [] then None
    else if keys[|keys| - 1].code == code && keys[|keys| - 1].isActive then Some(|keys| - 1)
    else FindActiveKey(keys[..|keys| - 1], code)
  }

  /** The answer to a redemption, the keys and the redeeming user's profile afterwards. */
  datatype Redemption = Redemption(response: Response, keys: seq<PremiumKey>, profile: UserProfile)

  /**
   * `redeem_key`: the submitted code, stripped of surrounding whitespace, must be present and
   * not blank; the active key with that code must exist and have uses left; then its use count
   * goes up by one and the user becomes premium.
   */
  function Redeem(keys: seq<PremiumKey>, profile: UserProfile, code: Option<string>): Redemption {
    if code.None? then Redemption(BadRequest("This field is required."), keys, profile)
    else if Strip(code.value) == "" then Redemption(BadRequest("This field may not be blank."), keys, profile)
    else match FindActiveKey(keys, Strip(code.value))
      case None => Redemption(NotFound, keys, profile)
      case Some(i) =>
        if keys[i].usedCount >= keys[i].maxUses then Redemption(BadRequest("Key already used."), keys, profile)
        else Redemption(Message("Premium activated."), keys[i := keys[i].(usedCount := keys[i].usedCount + 1)], profile.(isPremium := true))
  }

  /**
   * A redemption succeeds exactly when an active key has the stripped code and uses left; it
   * then raises that key's count by one and makes the user premium, and otherwise changes nothing.
   */
  lemma RedeemOutcome(keys: seq<PremiumKey>, profile: UserProfile, code: Option<string>)
    requires UniqueCodes(keys)
    ensures var r := Redeem(keys, profile, code);
      r.response.Message? <==>
        code.Some? && Strip(code.value) != "" &&
        exists i :: 0 <= i < |keys| && keys[i].code == Strip(code.value) && keys[i].isActive && keys[i].usedCount < keys[i].maxUses
    ensures var r := Redeem(keys, profile, code);
      !r.response.Message? ==> r.keys == keys && r.profile == profile
    ensures var r := Redeem(keys, profile, code);
      r.response.Message? ==>
        r.profile == profile.(isPremium := true) && |r.keys| == |keys| &&
        forall i :: 0 <= i < |keys| ==>
          r.keys[i] == if keys[i].code == Strip(code.value) then keys[i].(usedCount := keys[i].usedCount + 1) else keys[i]
  {
  }

  /** Redemption never lets a key be used more often than it allows, and keeps codes unique. */
  lemma RedeemKeepsBound(keys: seq<PremiumKey>, profile: UserProfile, code: Option<string>)
    requires UniqueCodes(keys) && WithinUses(keys)
    ensures WithinUses(Redeem(keys, profile, code).keys) && UniqueCodes(Redeem(keys, profile, code).keys)
    ensures |Redeem(keys, profile, code).keys| == |keys|
  {
  }

  // ----- Spreadsheet flattening -----

  /** A cell a row keeps: openpyxl rows drop None cells; legacy xlrd rows also drop "" cells. */
  predicate KeptCell(c: Value, legacy: bool) {
    c != Null && !(legacy && c == Str(""))
  }

  /** `[str(cell) for cell in row if ...]`. */
  function CellTexts(row: seq<Value>, legacy: bool): (texts: seq<string>)
    ensures |texts| <= |row|
  {
    if row == [] then []
    else CellTexts(row[..|row| - 1], legacy) + (if KeptCell(row[|row| - 1], legacy) then [PyStr(row[|row| - 1])] else [])
  }

  /** The text of a row: its kept cells joined by single spaces. */
  function RowText(row: seq<Value>, legacy: bool): string {
    JoinWith(" ", CellTexts(row, legacy))
  }

  /** The texts of the rows, in order, without the blank ones. */
  function KeptRows(rows: seq<seq<Value>>, legacy: bool): seq<string> {
    if rows == [] then []
    else
      var text := RowText(rows[|rows| - 1], legacy);
      KeptRows(rows[..|rows| - 1], legacy) + (if Strip(text) != "" then [text] else [])
  }

  /** The text `run_ocr` extracts from a workbook: the kept rows of all sheets joined by newlines. */
  function SheetText(sheets: seq<seq<seq<Value>>>, legacy: bool): string {
    JoinWith("\n", KeptRows(Concat(sheets), legacy))
  }

  /** Rows read in two parts give the chunks of each part, in order. */
  lemma {:induction false} KeptRowsAppend(a: seq<seq<Value>>, b: seq<seq<Value>>, legacy: bool)
    ensures KeptRows(a + b, legacy) == KeptRows(a, legacy) + KeptRows(b, legacy)
    decreases |b|
  {
    if b == [] {
      assert a + b == a;
    } else {
      var n := |b| - 1;
      assert (a + b)[..|a + b| - 1] == a + b[..n];
      KeptRowsAppend(a, b[..n], legacy);
    }
  }

  /** No chunk is blank, there is at most one per row, and a row of empty cells gives none. */
  lemma {:induction false} KeptRowsNonBlank(rows: seq<seq<Value>>, legacy: bool)
    ensures |KeptRows(rows, legacy)| <= |rows|
    ensures forall i :: 0 <= i < |KeptRows(rows, legacy)| ==> Strip(KeptRows(rows, legacy)[i]) != ""
    decreases |rows|
  {
    if rows != [] {
      KeptRowsNonBlank(rows[..|rows| - 1], legacy);
    }
  }

  /** A row whose cells are all None leaves no chunk. */
  lemma {:induction false} EmptyRowDropped(row: seq<Value>, legacy: bool)
    requires forall i :: 0 <= i < |row| ==> row[i] == Null
    ensures CellTexts(row, legacy) == []
    ensures KeptRows([row], legacy) == []
    decreases |row|
  {
    if row != [] {
      EmptyRowDropped(row[..|row| - 1], legacy);
    }
    assert [row][..0] == [];
  }

  /** One more row: its text is kept after the others unless it is blank. */
  lemma KeptRowsStep(rows: seq<seq<Value>>, r: nat, legacy: bool)
    requires r < |rows|
    ensures var text := RowText(rows[r], legacy);
      KeptRows(rows[..r + 1], legacy) == KeptRows(rows[..r], legacy) + (if Strip(text) != "" then [text] else [])
  {
    assert rows[..r + 1][..r] == rows[..r];
  }

  /** The inner loop of the spreadsheet branch of `run_ocr`: the chunks of one sheet's rows. */
  method CollectRows(chunks0: seq<string>, rows: seq<seq<Value>>, legacy: bool) returns (chunks: seq<string>)
    ensures chunks == chunks0 + KeptRows(rows, legacy)
  {
    chunks := chunks0;
    for r := 0 to |rows|
      invariant chunks == chunks0 + KeptRows(rows[..r], legacy)
    {
      KeptRowsStep(rows, r, legacy);
      var row := rows[r];
      var rowText := JoinWith(" ", CellTexts(row, legacy));
      if Strip(rowText) != "" {
        assert chunks + [rowText] == chunks0 + (KeptRows(rows[..r], legacy) + [rowText]);
        chunks := chunks + [rowText];
      }
    }
    assert rows[..|rows|] == rows;
  }

  /** The loops of the spreadsheet branch of `run_ocr`, collecting the chunks sheet by sheet. */
  method FlattenSheets(sheets: seq<seq<seq<Value>>>, legacy: bool) returns (text: string)
    ensures text == SheetText(sheets, legacy)
  {
    var chunks: seq<string> := [];
    for s := 0 to |sheets|
      invariant chunks == KeptRows(Concat(sheets[..s]), legacy)
    {
      chunks := CollectRows(chunks, sheets[s], legacy);
      KeptRowsAppend(Concat(sheets[..s]), sheets[s], legacy);
      assert sheets[..s + 1] == sheets[..s] + [sheets[s]];
      ConcatSnoc(sheets[..s], sheets[s]);
    }
    assert sheets[..|sheets|] == sheets;
    text := JoinWith("\n", chunks);
  }

  /**
   * The text `run_ocr` extracts from a document: OCR for a PDF or an image, the flattened
   * workbook for a spreadsheet (read by openpyxl, or by xlrd when openpyxl fails; an exception
   * when both fail), and a 400 for any other type.
   */
  function ExtractText(doc: Document, hint: Option<string>, svc: Services): Result<string, Response> {
    if doc.fileType == "pdf" || doc.fileType == "image" then
      match svc.ocr(doc.file, doc.fileType, hint)
      case Some(text) => Success(text)
      case None => Failure(ServerError)
    else if doc.fileType == "xlsx" then
      match svc.openXlsx(doc.file)
      case Some(sheets) => Success(SheetText(sheets, false))
      case None =>
        match svc.openXls(doc.file)
        case Some(sheets) => Success(SheetText(sheets, true))
        case None => Failure(ServerError)
    else Failure(BadRequest(Unsupported))
  }

  method ExtractDocumentText(doc: Document, hint: Option<string>, svc: Services) returns (r: Result<string, Response>)
    ensures r == ExtractText(doc, hint, svc)
  {
    if doc.fileType == "pdf" || doc.fileType == "image" {
      var text := svc.ocr(doc.file, doc.fileType, hint);
      if text.None? {
        return Failure(ServerError);
      }
      return Success(text.value);
    } else if doc.fileType == "xlsx" {
      var text;
      var workbook := svc.openXlsx(doc.file);
      if workbook.Some? {
        text := FlattenSheets(workbook.value, false);
      } else {
        var legacy := svc.openXls(doc.file);
        if legacy.None? {
          return Failure(ServerError);
        }
        text := FlattenSheets(legacy.value, true);
      }
      return Success(text);
    }
    return Failure(BadRequest(Unsupported));
  }

  // ----- Template filling -----

  /**
   * `output_data`: every input value, as `str`, translated from auto-detection into `lang`;
   * None when one of the translations raises.
   */
  function OutputData(input: map<string, Value>, translate: (string, string, string) -> Option<string>, lang: string)
    : Option<map<string, Value>>
  {
    if forall k :: k in input ==> translate(PyStr(input[k]), AutoDetect, lang).Some? then
      Some(map k | k in input :: Str(translate(PyStr(input[k]), AutoDetect, lang).value))
    else None
  }

  /** The translation loop of `fill_template`: the first translation that raises ends it. */
  method TranslateInput(input: map<string, Value>, translate: (string, string, string) -> Option<string>, lang: string)
    returns (output: Option<map<string, Value>>)
    ensures output.Some? <==> forall k :: k in input ==> translate(PyStr(input[k]), AutoDetect, lang).Some?
    ensures output.Some? ==> output.value.Keys == input.Keys
    ensures output.Some? ==> forall k :: k in input ==> output.value[k] == Str(translate(PyStr(input[k]), AutoDetect, lang).value)
  {
    var done: map<string, Value> := map[];
    var pending := input.Keys;
    while pending != {}
      invariant pending <= input.Keys
      invariant done.Keys == input.Keys - pending
      invariant forall k :: k in done ==> translate(PyStr(input[k]), AutoDetect, lang).Some?
      invariant forall k :: k in done ==> done[k] == Str(translate(PyStr(input[k]), AutoDetect, lang).value)
      decreases pending
    {
      var key :| key in pending;
      var translated := translate(PyStr(input[key]), AutoDetect, lang);
      if translated.None? {
        return None;
      }
      done := done[key := Str(translated.value)];
      pending := pending - {key};
    }
    output := Some(done);
  }

  /** `if template.file`: a file field is truthy when it names a file. */
  function FileOf(t: DocumentTemplate): Option<string> {
    if t.file.Some? && t.file.value != "" then t.file else None
  }

  /** The renderer `fill_template` hands a template to. */
  datatype Renderer = PdfRenderer(path: string) | XlsxRenderer(source: Option<string>) | BlankRenderer

  function ChooseRenderer(t: DocumentTemplate): Renderer {
    if t.templateType == "pdf" && FileOf(t).Some? then PdfRenderer(FileOf(t).value)
    else if t.templateType == "xlsx" then XlsxRenderer(FileOf(t))
    else BlankRenderer
  }

  /**
   * A PDF template with a file is overlaid, a spreadsheet template is filled with or without
   * its file, and every other template, a PDF template without a file included, gets the blank list.
   */
  lemma DispatchCases(t: DocumentTemplate)
    ensures t.templateType == "pdf" && t.file.Some? && t.file.value != "" ==> ChooseRenderer(t) == PdfRenderer(t.file.value)
    ensures t.templateType == "pdf" && (t.file.None? || t.file.value == "") ==> ChooseRenderer(t) == BlankRenderer
    ensures t.templateType == "xlsx" ==> ChooseRenderer(t).XlsxRenderer? && (ChooseRenderer(t).source.Some? <==> t.file.Some? && t.file.value != "")
    ensures t.templateType != "pdf" && t.templateType != "xlsx" ==> ChooseRenderer(t) == BlankRenderer
  {
  }

  /** The file a fill produces, or the renderer's failure. */
  function RenderFor(t: DocumentTemplate, data: map<string, Value>, files: Files, tk: Toolkit): Result<Artifact, RenderError> {
    match ChooseRenderer(t)
    case PdfRenderer(path) =>
      (match RenderPdfSpec(path, t.fields, data, files, tk)
       case Success(pages) => Success(PdfFile(pages))
       case Failure(e) => Failure(e))
    case XlsxRenderer(path) =>
      (match RenderXlsxSpec(path, t.fields, data, files, tk)
       case Success(book) => Success(XlsxFile(book))
       case Failure(e) => Failure(e))
    case BlankRenderer => Success(PdfFile(AsPages(A4Width, A4Height, [BlankDraws(t.fields, data)])))
  }

  /** The dispatch of `fill_template`. */
  method Render(t: DocumentTemplate, data: map<string, Value>, files: Files, tk: Toolkit) returns (r: Result<Artifact, RenderError>)
    ensures r == RenderFor(t, data, files, tk)
  {
    var renderer := ChooseRenderer(t);
    match renderer {
      case PdfRenderer(path) =>
        var pages := RenderPdf(path, t.fields, data, files, tk);
        r := if pages.Success? then Success(PdfFile(pages.value)) else Failure(pages.error);
      case XlsxRenderer(path) =>
        var book := RenderXlsx(path, t.fields, data, files, tk);
        r := if book.Success? then Success(XlsxFile(book.value)) else Failure(book.error);
      case BlankRenderer =>
        var doc := RenderBlank(data, t.fields);
        r := Success(PdfFile(AsPages(A4Width, A4Height, doc)));
    }
  }

  // ----- The stored records -----

  class Backend {
    /** `settings.FREE_USAGE_LIMIT`. */
    const freeUsageLimit: nat
    const templates: seq<DocumentTemplate>
    var profiles: map<UserId, UserProfile>
    var keys: seq<PremiumKey>
    /** Documents by id. */
    var documents: seq<Document>
    /** Template fills by id. */
    var fills: seq<TemplateFill>
    var logs: seq<UsageLog>

    ghost predicate Valid()
      reads this
    {
      && (forall u :: u in profiles ==> profiles[u].user == u)
      && UniqueCodes(keys) && WithinUses(keys)
    }

    /** A store where every user has a fresh profile and nothing has happened yet. */
    constructor (freeUsageLimit: nat, templates: seq<DocumentTemplate>, users: set<UserId>, keys: seq<PremiumKey>)
      requires UniqueCodes(keys) && WithinUses(keys)
      ensures Valid()
      ensures this.freeUsageLimit == freeUsageLimit && this.templates == templates && this.keys == keys
      ensures profiles == map u | u in users :: NewProfile(u)
      ensures documents == [] && fills == [] && logs == []
    {
      this.freeUsageLimit := freeUsageLimit;
      this.templates := templates;
      profiles := map u | u in users :: NewProfile(u);
      this.keys := keys;
      documents := [];
      fills := [];
      logs := [];
    }

    /** `check_usage_limit(user)`. */
    predicate CheckUsageLimit(user: UserId)
      reads this
      requires user in profiles
    {
      UsageAllowed(profiles[user], freeUsageLimit)
    }

    /** `increment_usage`: one more use on the profile and one log entry. */
    method IncrementUsage(user: UserId, action: string, metadata: map<string, Value>)
      requires Valid() && user in profiles
      modifies this
      ensures Valid()
      ensures profiles == old(profiles)[user := Incremented(old(profiles[user]))]
      ensures logs == old(logs) + [UsageLog(user, action, metadata)]
      ensures keys == old(keys) && documents == old(documents) && fills == old(fills)
    {
      var profile := profiles[user];
      profiles := profiles[user := profile.(usageCount := profile.usageCount + 1)];
      logs := logs + [UsageLog(user, action, metadata)];
    }

    /** `redeem_key`. */
    method RedeemKey(user: UserId, code: Option<string>) returns (response: Response)
      requires Valid() && user in profiles
      modifies this
      ensures Valid()
      ensures var r := Redeem(old(keys), old(profiles[user]), code);
        response == r.response && keys == r.keys && profiles == old(profiles)[user := r.profile]
      ensures documents == old(documents) && fills == old(fills) && logs == old(logs)
    {
      RedeemKeepsBound(keys, profiles[user], code);
      if code.None? {
        return BadRequest("This field is required.");
      }
      var stripped := Strip(code.value);
      if stripped == "" {
        return BadRequest("This field may not be blank.");
      }
      var found := FindActiveKey(keys, stripped);
      if found.None? {
        return NotFound;
      }
      var i := found.value;
      if keys[i].usedCount >= keys[i].maxUses {
        return BadRequest("Key already used.");
      }
      keys := keys[i := keys[i].(usedCount := keys[i].usedCount + 1)];
      var profile := profiles[user];
      profiles := profiles[user := profile.(isPremium := true)];
      response := Message("Premium activated.");
    }

    /** `upload_document`: the gate, then a file of a known type, then a new document. No use is counted. */
    method UploadDocument(user: UserId, file: Option<string>, sourceLanguage: Option<string>, svc: Services)
      returns (response: Response)
      requires Valid() && user in profiles
      modifies this
      ensures Valid()
      ensures profiles == old(profiles) && keys == old(keys) && fills == old(fills) && logs == old(logs)
      ensures !UsageAllowed(profiles[user], freeUsageLimit) ==> response == Forbidden(LimitReached) && documents == old(documents)
      ensures UsageAllowed(profiles[user], freeUsageLimit) && (file.None? || file.value == "") ==>
        response == BadRequest("File required.") && documents == old(documents)
      ensures UsageAllowed(profiles[user], freeUsageLimit) && file.Some? && file.value != "" && svc.fileTypeOf(file.value) == "unknown" ==>
        response == BadRequest(Unsupported) && documents == old(documents)
      ensures UsageAllowed(profiles[user], freeUsageLimit) && file.Some? && file.value != "" && svc.fileTypeOf(file.value) != "unknown" ==>
        response == Created(|old(documents)|) &&
        documents == old(documents) + [NewDocument(user, file.value, svc.fileTypeOf(file.value), sourceLanguage.GetOr(AutoDetect))]
    {
      if !CheckUsageLimit(user) {
        return Forbidden(LimitReached);
      }
      if file.None? || file.value == "" {
        return BadRequest("File required.");
      }
      var fileType := svc.fileTypeOf(file.value);
      if fileType == "unknown" {
        return BadRequest(Unsupported);
      }
      var doc := NewDocument(user, file.value, fileType, sourceLanguage.GetOr(AutoDetect));
      documents := documents + [doc];
      response := Created(|documents| - 1);
    }

    /** `run_ocr`: the caller's own document, the gate, the text, then status "ocr_done" and one use. */
    method RunOcr(user: UserId, docId: nat, hint: Option<string>, svc: Services) returns (response: Response)
      requires Valid() && user in profiles
      modifies this
      ensures Valid()
      ensures keys == old(keys) && fills == old(fills)
      ensures !(docId < |old(documents)| && old(documents)[docId].owner == Some(user)) ==>
        response == NotFound && unchanged(this)
      ensures docId < |old(documents)| && old(documents)[docId].owner == Some(user) && !UsageAllowed(old(profiles[user]), freeUsageLimit) ==>
        response == Forbidden(LimitReached) && unchanged(this)
      ensures docId < |old(documents)| && old(documents)[docId].owner == Some(user) && UsageAllowed(old(profiles[user]), freeUsageLimit) ==>
        match ExtractText(old(documents)[docId], hint, svc)
        case Failure(answer) => response == answer && unchanged(this)
        case Success(text) =>
          && response == Done
          && documents == old(documents)[docId := old(documents)[docId].(extractedText := text, status := OcrDone)]
          && profiles == old(profiles)[user := Incremented(old(profiles[user]))]
          && logs == old(logs) + [UsageLog(user, "ocr", map["document" := Int(docId)])]
    {
      if !(docId < |documents| && documents[docId].owner == Some(user)) {
        return NotFound;
      }
      if !CheckUsageLimit(user) {
        return Forbidden(LimitReached);
      }
      var doc := documents[docId];
      var text := ExtractDocumentText(doc, hint, svc);
      if text.Failure? {
        return text.error;
      }
      documents := documents[docId := doc.(extractedText := text.value, status := OcrDone)];
      IncrementUsage(user, "ocr", map["document" := Int(docId)]);
      response := Done;
    }

    /**
     * `fill_template`: the template, the gate, the translated data, the rendered file, then the
     * fill record and one use. A failing renderer leaves everything as it was.
     */
    method FillTemplate(user: UserId, templateId: nat, input: map<string, Value>, svc: Services, files: Files, tk: Toolkit)
      returns (response: Response)
      requires Valid() && user in profiles
      modifies this
      ensures Valid()
      ensures keys == old(keys) && documents == old(documents)
      ensures templateId >= |templates| ==> response == NotFound && unchanged(this)
      ensures templateId < |templates| && !UsageAllowed(old(profiles[user]), freeUsageLimit) ==>
        response == Forbidden(LimitReached) && unchanged(this)
      ensures templateId < |templates| && UsageAllowed(old(profiles[user]), freeUsageLimit) ==>
        var t := templates[templateId];
        match OutputData(input, svc.translate, OutputLanguage(t))
        case None => response == ServerError && unchanged(this)
        case Some(output) =>
          match RenderFor(t, output, files, tk)
          case Failure(_) => response == ServerError && unchanged(this)
          case Success(artifact) =>
            && response == Created(|old(fills)|)
            && fills == old(fills) + [TemplateFill(templateId, Some(user), input, output, Some(artifact))]
            && profiles == old(profiles)[user := Incremented(old(profiles[user]))]
            && logs == old(logs) + [UsageLog(user, "fill_template", map["template" := Int(templateId)])]
    {
      if templateId >= |templates| {
        return NotFound;
      }
      var t := templates[templateId];
      if !CheckUsageLimit(user) {
        return Forbidden(LimitReached);
      }
      var translated := TranslateInput(input, svc.translate, OutputLanguage(t));
      if translated.None? {
        return ServerError;
      }
      var output := translated.value;
      assert output == map k | k in input :: Str(svc.translate(PyStr(input[k]), AutoDetect, OutputLanguage(t)).value);
      assert translated == OutputData(input, svc.translate, OutputLanguage(t));
      var rendered := Render(t, output, files, tk);
      if rendered.Failure? {
        return ServerError;
      }
      fills := fills + [TemplateFill(templateId, Some(user), input, output, Some(rendered.value))];
      IncrementUsage(user, "fill_template", map["template" := Int(templateId)]);
      response := Created(|fills| - 1);
    }
  }
}
