/**
 * The persisted records of the backend: user profiles, premium keys, documents, templates
 * with their fields, template fills and usage logs, each with the defaults a new row gets.
 * Timestamps and the ORM itself are outside the model.
 */
module Models {
  import opened Wrappers
  import opened Values
  import Pdf
  import Workbook

  type UserId = nat

  /** A point in time, in seconds. */
  type Timestamp = int

  datatype UserProfile = UserProfile(
    user: UserId,
    isEmailVerified: bool,
    usageCount: nat,
    isPremium: bool,
    premiumUntil: Option<Timestamp>)

  /** The profile a new user gets. */
  function NewProfile(user: UserId): UserProfile {
    UserProfile(user, false, 0, false, None)
  }

  datatype PremiumKey = PremiumKey(
    code: string,
    isActive: bool,
    maxUses: nat,
    usedCount: nat,
    expiresAt: Option<Timestamp>)

  /** A key created with only its code: active, usable once, never used, no expiry. */
  function NewPremiumKey(code: string): PremiumKey {
    PremiumKey(code, true, 1, 0, None)
  }

  /** The processing stage of an uploaded document. */
  datatype DocStatus = Uploaded | OcrDone | Translated

  /** The value stored in the status column. */
  function StatusCode(s: DocStatus): string {
    match s
    case Uploaded => "uploaded"
    case OcrDone => "ocr_done"
    case Translated => "translated"
  }

  /** Reading a status column back; a code outside the three choices is rejected. */
  function ParseStatus(code: string): (r: Option<DocStatus>)
    ensures r.Some? <==> code in {"uploaded", "ocr_done", "translated"}
  {
    if code == "uploaded" then Some(Uploaded)
    else if code == "ocr_done" then Some(OcrDone)
    else if code == "translated" then Some(Translated)
    else None
  }

  lemma StatusRoundTrip(s: DocStatus, code: string)
    ensures ParseStatus(StatusCode(s)) == Some(s)
    ensures ParseStatus(code) == Some(s) ==> StatusCode(s) == code
  {
  }

  datatype Document = Document(
    owner: Option<UserId>,
    file: string,
    fileType: string,
    sourceLanguage: string,
    targetLanguage: string,
    extractedText: string,
    translatedText: string,
    status: DocStatus)

  /** A freshly uploaded document: no text yet, target language Japanese, status "uploaded". */
  function NewDocument(owner: UserId, file: string, fileType: string, sourceLanguage: string): Document {
    Document(Some(owner), file, fileType, sourceLanguage, "ja", "", "", Uploaded)
  }

  /** The default source language of a document. */
  const AutoDetect: string := "auto"

  /** A field of a template: the input key it takes its value from, its caption (the label column), and where the value goes. */
  datatype TemplateField = TemplateField(
    key: string,
    caption: string,
    fieldType: string,
    required: bool,
    order: int,
    mapping: Option<Mapping>)

  /** `field.mapping or {}`: a null or empty mapping places the field by the defaults alone. */
  function MappingOf(f: TemplateField): Mapping {
    f.mapping.GetOr(map[])
  }

  datatype DocumentTemplate = DocumentTemplate(
    name: string,
    description: string,
    file: Option<string>,
    templateType: string,
    outputLanguage: Option<string>,
    fields: seq<TemplateField>)

  /** `template.output_language or "ja"`. */
  function OutputLanguage(t: DocumentTemplate): (lang: string)
    ensures lang != []
    ensures t.outputLanguage.Some? && t.outputLanguage.value != [] ==> lang == t.outputLanguage.value
  {
    match t.outputLanguage
    case Some(l) => if l != [] then l else "ja"
    case None => "ja"
  }

  /** The file a fill produced: pages of a PDF, or a workbook. */
  datatype Artifact = PdfFile(pages: seq<Pdf.Page>) | XlsxFile(book: Workbook.Book)

  datatype TemplateFill = TemplateFill(
    template: nat,
    user: Option<UserId>,
    inputData: map<string, Value>,
    outputData: map<string, Value>,
    output: Option<Artifact>)

  /** A fill row before any data is attached. */
  function NewFill(template: nat, user: UserId): TemplateFill {
    TemplateFill(template, Some(user), map[], map[], None)
  }

  datatype UsageLog = UsageLog(user: UserId, action: string, metadata: map<string, Value>)
}
