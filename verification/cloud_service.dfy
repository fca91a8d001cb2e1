/**
 * The front end's client for the worker: the worker base URL it derives from the settings,
 * the OCR language hint it sends, and the two requests `cloudOcr` and `cloudTranslate` make.
 * The worker behind the URL is the `worker` parameter.
 */
module CloudService {
  import opened Wrappers
  import opened JsValues
  import Worker

  /** What a front-end call throws: an `Error` with a message, or an engine error (network failure, a non-JSON body, a property of null). */
  datatype Thrown = Raised(message: string) | Rejected

  const MissingWorkerUrl: string := "Worker URL tanımlı değil"

  /** `normalizeWorkerUrl(url)`: the URL without the run of `/` it ends with (`/\/+$/` replaced by ""). */
  function NormalizeWorkerUrl(url: string): (r: string)
    ensures |r| <= |url| && url[..|r|] == r
    ensures r == [] || r[|r| - 1] != '/'
    ensures forall i :: |r| <= i < |url| ==> url[i] == '/'
    decreases |url|
  {
    if url != [] && url[|url| - 1] == '/' then NormalizeWorkerUrl(url[..|url| - 1]) else url
  }

  /** Normalising twice changes nothing more. */
  lemma {:induction false} NormalizeIdempotent(url: string)
    ensures NormalizeWorkerUrl(NormalizeWorkerUrl(url)) == NormalizeWorkerUrl(url)
  {
  }

  /** The normalised URL is empty exactly when the input is empty or slashes only. */
  lemma {:induction false} NormalizeEmpty(url: string)
    ensures NormalizeWorkerUrl(url) == "" <==> forall i :: 0 <= i < |url| ==> url[i] == '/'
  {
    var r := NormalizeWorkerUrl(url);
    if r != "" {
      assert url[|r| - 1] == r[|r| - 1];
    }
  }

  /** The OCR language codes the worker can pass on as Vision language hints. */
  const HintTable: map<string, string> := map[
    "eng" := "en", "tur" := "tr", "jpn" := "ja", "deu" := "de",
    "fra" := "fr", "spa" := "es", "ita" := "it", "rus" := "ru"
  ]

  /** `toLanguageHint(ocrLanguage)`: the hint of a known OCR language code, else `undefined` (None). */
  function ToLanguageHint(ocrLanguage: string): (r: Option<string>)
    ensures r.Some? <==> ocrLanguage in {"eng", "tur", "jpn", "deu", "fra", "spa", "ita", "rus"}
    ensures r.Some? ==> |r.value| == 2
  {
    if ocrLanguage in HintTable then Some(HintTable[ocrLanguage]) else None
  }

  /** No two codes share a hint, so the hint names the language the user picked. */
  lemma {:induction false} HintsDistinct(a: string, b: string)
    requires ToLanguageHint(a).Some? && ToLanguageHint(b).Some?
    requires ToLanguageHint(a) == ToLanguageHint(b)
    ensures a == b
  {
  }

  /** What the caller gets from the worker's reply: its text or a fallback message thrown, or the named field or "". */
  function Answer(reply: Upstream, field: string, fallback: string): (r: Result<JsValue, Thrown>)
    ensures reply.Reply? && !reply.ok ==>
      r == Failure(Raised(if reply.text != "" then reply.text else fallback))
    ensures r.Success? ==>
      reply.Reply? && reply.ok && reply.json.Some? &&
      r.value == (if Truthy(Get(reply.json.value, field)) then Get(reply.json.value, field) else Str(""))
    ensures reply.Reply? && reply.ok && reply.json.Some? && !reply.json.value.Null? && !reply.json.value.Undefined? ==> r.Success?
  {
    match reply
    case Unreachable => Failure(Rejected)
    case Reply(ok, _, text, json) =>
      if !ok then Failure(Raised(if text != "" then text else fallback))
      else if json.None? then Failure(Rejected)
      else match Member(json.value, field)
        case None => Failure(Rejected)
        case Some(v) => Success(Or(v, Str("")))
  }

  /**
   * `cloudOcr`: an empty base URL throws before any request; otherwise one POST goes to the
   * worker's OCR path under the base URL, with the image and, exactly when the language has
   * a hint, that hint; the reply's `text` (or "") is the result.
   */
  method CloudOcr(dataUrl: string, language: string, workerUrl: string, worker: Call -> Upstream)
    returns (result: Result<JsValue, Thrown>, calls: seq<Call>)
    ensures NormalizeWorkerUrl(workerUrl) == "" ==> result == Failure(Raised(MissingWorkerUrl)) && calls == []
    ensures NormalizeWorkerUrl(workerUrl) != "" ==>
      var base := NormalizeWorkerUrl(workerUrl);
      var hint := ToLanguageHint(language);
      |calls| == 1 &&
      calls[0].url == base + Worker.OcrPath && base[|base| - 1] != '/' &&
      calls[0].headers == JsonContentType &&
      calls[0].payload.Obj? && Get(calls[0].payload, "image") == Str(dataUrl) &&
      calls[0].payload.fields.Keys == {"image"} + (if hint.Some? then {"languageHint"} else {}) &&
      (Truthy(Get(calls[0].payload, "languageHint")) <==> hint.Some?) &&
      (hint.Some? ==> Get(calls[0].payload, "languageHint") == Str(hint.value)) &&
      result == Answer(worker(calls[0]), "text", "Cloud OCR failed")
  {
    var baseUrl := NormalizeWorkerUrl(workerUrl);
    if baseUrl == "" {
      return Failure(Raised(MissingWorkerUrl)), [];
    }
    var payload := map["image" := Str(dataUrl)];
    var hint := ToLanguageHint(language);
    if hint.Some? {
      payload := payload["languageHint" := Str(hint.value)];
    }
    var call := Call(baseUrl + Worker.OcrPath, JsonContentType, Obj(payload));
    calls := [call];
    result := Answer(worker(call), "text", "Cloud OCR failed");
  }

  /**
   * `cloudTranslate`: an empty base URL throws before any request; otherwise one POST goes to
   * the worker's translate path with the text, both languages and the model; the reply's
   * `translation` (or "") is the result. An undefined model stands for a key left out of the body.
   */
  method CloudTranslate(text: string, source: string, target: string, model: JsValue, workerUrl: string, worker: Call -> Upstream)
    returns (result: Result<JsValue, Thrown>, calls: seq<Call>)
    ensures NormalizeWorkerUrl(workerUrl) == "" ==> result == Failure(Raised(MissingWorkerUrl)) && calls == []
    ensures NormalizeWorkerUrl(workerUrl) != "" ==>
      var base := NormalizeWorkerUrl(workerUrl);
      |calls| == 1 &&
      calls[0].url == base + Worker.TranslatePath && base[|base| - 1] != '/' &&
      calls[0].headers == JsonContentType &&
      calls[0].payload.Obj? && calls[0].payload.fields.Keys == {"text", "source", "target", "model"} &&
      Get(calls[0].payload, "text") == Str(text) &&
      Get(calls[0].payload, "source") == Str(source) &&
      Get(calls[0].payload, "target") == Str(target) &&
      Get(calls[0].payload, "model") == model &&
      result == Answer(worker(calls[0]), "translation", "Cloud translation failed")
  {
    var baseUrl := NormalizeWorkerUrl(workerUrl);
    if baseUrl == "" {
      return Failure(Raised(MissingWorkerUrl)), [];
    }
    var payload := Obj(map["text" := Str(text), "source" := Str(source), "target" := Str(target), "model" := model]);
    var call := Call(baseUrl + Worker.TranslatePath, JsonContentType, payload);
    calls := [call];
    result := Answer(worker(call), "translation", "Cloud translation failed");
  }
}
