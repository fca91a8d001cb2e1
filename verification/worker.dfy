/**
 * The Cloudflare worker in front of Google Vision and OpenAI: CORS preflight, routing of the
 * two POST endpoints, image and text validation, the upstream requests it builds, and the JSON
 * responses it sends back. The upstream services are the `vision` and `openAi` parameters.
 */
module Worker {
  import opened Wrappers
  import opened PyText
  import opened JsValues
  import opened DataUrl
  import Utils

  /** The CORS headers every response carries. */
  const CorsHeaders: map<string, string> := map[
    "Access-Control-Allow-Origin" := "*",
    "Access-Control-Allow-Methods" := "POST, OPTIONS",
    "Access-Control-Allow-Headers" := "Content-Type, Authorization"
  ]

  const OcrPath: string := "/v1/vision/ocr"
  const TranslatePath: string := "/v1/openai/translate"
  const VisionEndpoint: string := "https://vision.googleapis.com/v1/images:annotate?key="
  const OpenAiEndpoint: string := "https://api.openai.com/v1/responses"
  const SystemPrompt: string :=
    "You are a professional translator. Translate the input text exactly and only output the translated text."

  /** A response: its status, its headers and its JSON body (None for the empty preflight body). */
  datatype HttpResponse = HttpResponse(status: int, headers: map<string, string>, body: Option<JsValue>)

  /** A handler either answers or throws (the runtime then answers with its own error page). */
  datatype Outcome = Respond(response: HttpResponse) | Threw

  /** The request as the worker reads it: method, URL path, and the body `request.json()` yields (None: not JSON). */
  datatype Request = Request(verb: string, path: string, body: Option<JsValue>)

  /** The secrets the worker's environment provides. */
  datatype Env = Env(visionKey: string, openAiKey: string)

  /** `jsonResponse(data, { status })`: the body, with the JSON content type and every CORS header. */
  function JsonResponse(data: JsValue, status: int): (r: HttpResponse)
    ensures r.status == status && r.body == Some(data)
    ensures "Content-Type" in r.headers && r.headers["Content-Type"] == "application/json"
    ensures forall k :: k in CorsHeaders ==> k in r.headers && r.headers[k] == CorsHeaders[k]
    ensures r.headers.Keys == CorsHeaders.Keys + {"Content-Type"}
  {
    HttpResponse(status, JsonContentType + CorsHeaders, Some(data))
  }

  /** `errorResponse(message, status)`: `{ error: message }` as a JSON response. */
  function ErrorResponse(message: string, status: int): (r: HttpResponse)
    ensures r.status == status && r.body == Some(Single("error", Str(message)))
    ensures r.headers == JsonContentType + CorsHeaders
  {
    JsonResponse(Single("error", Str(message)), status)
  }

  /** The characters JavaScript's `.` does not match: the four line terminators. */
  predicate LineTerminator(c: char) {
    c == '\n' || c == '\r' || c == '\U{2028}' || c == '\U{2029}'
  }

  /** What `extractBase64(image)` does: return null, return a string, or throw (`image.match` is not a function). */
  datatype Extracted = Missing | Data(text: string) | NotAString

  /**
   * `extractBase64(image)`: null for a falsy image; for a string, the payload after
   * `data:image/<type>;base64,` when the string is such a data URL whose payload has no line
   * terminator (JavaScript's `(.*)$` without flags), else the string itself.
   */
  function ExtractBase64(image: JsValue): (r: Extracted)
    ensures r.Missing? <==> !Truthy(image)
    ensures r.NotAString? <==> Truthy(image) && !image.Str?
  {
    if !Truthy(image) then Missing
    else if !image.Str? then NotAString
    else match Parse(image.s)
      case Some(parts) =>
        if forall i :: 0 <= i < |parts.payload| ==> !LineTerminator(parts.payload[i])
        then Data(parts.payload) else Data(image.s)
      case None => Data(image.s)
  }

  /**
   * A data URL gives back its payload when the payload has no line terminator; any other
   * non-empty string, including a data URL whose payload has one, comes back unchanged.
   */
  lemma {:induction false} ExtractCases(subtype: string, payload: string, s: string)
    ensures subtype != [] && ';' !in subtype && (forall i :: 0 <= i < |payload| ==> !LineTerminator(payload[i])) ==>
      ExtractBase64(Str(Scheme + subtype + Marker + payload)) == Data(payload)
    ensures s != "" && Parse(s).None? ==> ExtractBase64(Str(s)) == Data(s)
    ensures Parse(s).Some? && (exists i :: 0 <= i < |Parse(s).value.payload| && LineTerminator(Parse(s).value.payload[i])) ==>
      ExtractBase64(Str(s)) == Data(s)
  {
    if subtype != [] && ';' !in subtype {
      ParseRoundTrip(subtype, payload);
    }
  }

  /** Unlike the backend's pattern, JavaScript's `$` matches only at the very end: the result is always a suffix of the input. */
  lemma {:induction false} ExtractSuffix(s: string)
    ensures ExtractBase64(Str(s)).Data? ==>
      var r := ExtractBase64(Str(s)).text;
      |r| <= |s| && s[|s| - |r|..] == r
  {
    if s != "" && Parse(s).Some? {
      ParseSound(s);
      var p := Parse(s).value;
      assert s == (Scheme + p.subtype + Marker) + p.payload;
      assert s[|s| - |p.payload|..] == p.payload;
    }
  }

  /**
   * On an input with no line terminator the worker and the backend (`extract_base64`)
   * agree: both give the payload of a data URL and every other non-empty string unchanged.
   */
  lemma {:induction false} ExtractAgreesWithBackend(s: string)
    requires s != ""
    requires forall i :: 0 <= i < |s| ==> !LineTerminator(s[i])
    ensures Utils.ExtractBase64(Some(s)) == Some(ExtractBase64(Str(s)).text)
  {
    if Parse(s).Some? {
      ParseSound(s);
      var p := Parse(s).value;
      assert s == (Scheme + p.subtype + Marker) + p.payload;
      forall i | 0 <= i < |p.payload| ensures !LineTerminator(p.payload[i]) {
        assert p.payload[i] == s[|s| - |p.payload| + i];
      }
      assert '\n' !in p.payload by {
        forall i | 0 <= i < |p.payload| ensures p.payload[i] != '\n' {
          assert !LineTerminator(p.payload[i]);
        }
      }
    }
  }

  /** The answer to a Vision reply: its error text (or a fallback) with its status, or the detected text (or ""). */
  function VisionAnswer(reply: Upstream): (out: Outcome)
    ensures reply.Unreachable? || (reply.ok && reply.json.None?) <==> out.Threw?
    ensures reply.Reply? && !reply.ok ==>
      out == Respond(ErrorResponse(if reply.text != "" then reply.text else "Vision API error", reply.status))
    ensures reply.Reply? && reply.ok && reply.json.Some? ==>
      var text := Get(Get(First(Get(reply.json.value, "responses")), "fullTextAnnotation"), "text");
      out == Respond(JsonResponse(Single("text", if Truthy(text) then text else Str("")), 200))
  {
    match reply
    case Unreachable => Threw
    case Reply(ok, status, text, json) =>
      if !ok then Respond(ErrorResponse(if text != "" then text else "Vision API error", status))
      else if json.None? then Threw
      else
        var data := json.value;
        var found := Get(Get(First(Get(data, "responses")), "fullTextAnnotation"), "text");
        Respond(JsonResponse(Single("text", Or(found, Str(""))), 200))
  }

  /** The Vision request body for an image payload and a language hint, as `handleVisionOcr` builds it. */
  function VisionPayload(image: string, hint: JsValue): JsValue {
    var request := map[
      "image" := Single("content", Str(image)),
      "features" := Arr([Single("type", Str("TEXT_DETECTION"))])
    ];
    Single("requests", Arr([Obj(if Truthy(hint) then request["imageContext" := Single("languageHints", Arr([hint]))] else request)]))
  }

  /**
   * `handleVisionOcr`: a missing, empty or non-string image is refused before any upstream
   * call; otherwise one request goes to Vision, with `imageContext.languageHints` exactly
   * when the body's `languageHint` is truthy, and its reply becomes the answer.
   */
  method HandleVisionOcr(body: Option<JsValue>, env: Env, vision: Call -> Upstream) returns (out: Outcome, calls: seq<Call>)
    ensures body.None? || body.value.Undefined? || body.value.Null? ==> out == Threw && calls == []
    ensures |calls| <= 1 && (calls != [] ==> calls[0].url == VisionEndpoint + env.visionKey && out == VisionAnswer(vision(calls[0])))
    ensures out.Respond? ==> out.response.headers == JsonContentType + CorsHeaders
    ensures body.Some? && !body.value.Undefined? && !body.value.Null? ==>
      var image := ExtractBase64(Get(body.value, "image"));
      var hint := Get(body.value, "languageHint");
      (image.NotAString? ==> out == Threw && calls == []) &&
      (image.Missing? || image == Data("") ==>
        out == Respond(ErrorResponse("Image payload missing", 400)) && calls == []) &&
      (image.Data? && image.text != "" ==>
        |calls| == 1 &&
        calls[0].url == VisionEndpoint + env.visionKey &&
        calls[0].headers == JsonContentType &&
        calls[0].payload.Obj? && calls[0].payload.fields.Keys == {"requests"} &&
        var requests := calls[0].payload.fields["requests"];
        requests.Arr? && |requests.items| == 1 && requests.items[0].Obj? &&
        var request := requests.items[0].fields;
        request.Keys == {"image", "features"} + (if Truthy(hint) then {"imageContext"} else {}) &&
        request["image"] == Single("content", Str(image.text)) &&
        request["features"] == Arr([Single("type", Str("TEXT_DETECTION"))]) &&
        ("imageContext" in request ==> request["imageContext"] == Single("languageHints", Arr([hint]))) &&
        calls == [Call(VisionEndpoint + env.visionKey, JsonContentType, VisionPayload(image.text, hint))] &&
        out == VisionAnswer(vision(calls[0])))
  {
    calls := [];
    if body.None? {
      return Threw, calls;
    }
    var image := Member(body.value, "image");
    if image.None? {
      return Threw, calls;
    }
    var base64 := ExtractBase64(image.value);
    if base64.NotAString? {
      return Threw, calls;
    }
    if base64.Missing? || base64.text == "" {
      return Respond(ErrorResponse("Image payload missing", 400)), calls;
    }
    var call := Call(VisionEndpoint + env.visionKey, JsonContentType, VisionPayload(base64.text, Get(body.value, "languageHint")));
    calls := [call];
    out := VisionAnswer(vision(call));
  }

  /** JavaScript white space and line terminators, which `String.prototype.trim` removes. */
  predicate JsSpace(c: char) {
    c == '\t' || c == '\n' || c == '\U{b}' || c == '\U{c}' || c == '\r' || c == ' ' ||
    c == '\U{a0}' || c == '\U{1680}' || ('\U{2000}' <= c <= '\U{200a}') ||
    c == '\U{2028}' || c == '\U{2029}' || c == '\U{202f}' || c == '\U{205f}' ||
    c == '\U{3000}' || c == '\U{feff}'
  }

  /** `text.trim()` is empty exactly when every character is white space. */
  predicate Blank(s: string) {
    forall i :: 0 <= i < |s| ==> JsSpace(s[i])
  }

  /**
   * A template literal's `${v}`: a string as is, a boolean as its word, an array as its
   * elements joined by commas (null and undefined elements empty), any other object as
   * `[object Object]`. Number formatting is the engine's, the `numberText` parameter.
   * None when the conversion throws: an object parsed from JSON that has its own `toString`
   * key holds no function there, and its inherited `valueOf` gives back the object, so no
   * primitive is found (a TypeError); an array throws when one of its elements does.
   */
  function Display(v: JsValue, numberText: real -> string): (r: Option<string>)
    ensures v.Obj? ==> (r.None? <==> "toString" in v.fields)
    ensures v.Obj? && r.Some? ==> r.value == "[object Object]"
    ensures v.Str? ==> r == Some(v.s)
    ensures !v.Obj? && !v.Arr? ==> r.Some?
    ensures v.Arr? ==> (r.None? <==>
      exists i :: 0 <= i < |v.items| && (v.items[i].Obj? || v.items[i].Arr?) && Display(v.items[i], numberText).None?)
    ensures v.Arr? && r.Some? ==>
      exists parts: seq<string> :: |parts| == |v.items| && r.value == JoinWith(",", parts)
    decreases v
  {
    match v
    case Undefined => Some("undefined")
    case Null => Some("null")
    case Bool(b) => Some(if b then "true" else "false")
    case Num(n) => Some(numberText(n))
    case Str(s) => Some(s)
    case Obj(fields) => if "toString" in fields then None else Some("[object Object]")
    case Arr(items) =>
      var parts := seq(|items|, i requires 0 <= i < |items| =>
        if items[i].Undefined? || items[i].Null? then Some("") else Display(items[i], numberText));
      if forall i :: 0 <= i < |parts| ==> parts[i].Some? then
        assert forall i :: 0 <= i < |items| && (items[i].Obj? || items[i].Arr?) ==> parts[i] == Display(items[i], numberText);
        Some(JoinWith(",", seq(|parts|, i requires 0 <= i < |parts| && parts[i].Some? => parts[i].value)))
      else None
  }

  /** The OpenAI request for a model and a user message, as `handleOpenAiTranslate` sends it. */
  function TranslateCall(key: string, model: JsValue, user: string): Call {
    Call(OpenAiEndpoint, JsonContentType + map["Authorization" := "Bearer " + key],
      Obj(map["model" := model, "input" := Arr([
        Obj(map["role" := Str("system"), "content" := Str(SystemPrompt)]),
        Obj(map["role" := Str("user"), "content" := Str(user)])])]))
  }

  /** The user message of a translation request. */
  function UserContent(source: string, target: string, text: string): string {
    "Source language: " + source + "\nTarget language: " + target + "\n\nText:\n" + text
  }

  /** The answer to an OpenAI reply: its error text (or a fallback), or the first output text, `output_text`, or "". */
  function TranslateAnswer(reply: Upstream): (out: Outcome)
    ensures reply.Unreachable? || (reply.ok && reply.json.None?) <==> out.Threw?
    ensures reply.Reply? && !reply.ok ==>
      out == Respond(ErrorResponse(if reply.text != "" then reply.text else "OpenAI API error", reply.status))
    ensures reply.Reply? && reply.ok && reply.json.Some? ==>
      var data := reply.json.value;
      var first := Get(First(Get(First(Get(data, "output")), "content")), "text");
      var fallback := Get(data, "output_text");
      out == Respond(JsonResponse(Single("translation",
        if Truthy(first) then first else if Truthy(fallback) then fallback else Str("")), 200))
  {
    match reply
    case Unreachable => Threw
    case Reply(ok, status, text, json) =>
      if !ok then Respond(ErrorResponse(if text != "" then text else "OpenAI API error", status))
      else if json.None? then Threw
      else
        var data := json.value;
        var first := Get(First(Get(First(Get(data, "output")), "content")), "text");
        Respond(JsonResponse(Single("translation", Or(Or(first, Get(data, "output_text")), Str(""))), 200))
  }

  /**
   * `handleOpenAiTranslate`: source, target and model default to "auto", "en" and
   * "gpt-4o-mini"; blank text is refused before any upstream call; otherwise one request
   * goes to OpenAI with the system prompt and a user message naming both languages.
   */
  method HandleOpenAiTranslate(body: Option<JsValue>, env: Env, openAi: Call -> Upstream, numberText: real -> string)
    returns (out: Outcome, calls: seq<Call>)
    ensures body.None? || body.value.Undefined? || body.value.Null? ==> out == Threw && calls == []
    ensures |calls| <= 1 && (calls != [] ==> calls[0].url == OpenAiEndpoint && out == TranslateAnswer(openAi(calls[0])))
    ensures out.Respond? ==> out.response.headers == JsonContentType + CorsHeaders
    ensures body.Some? && !body.value.Undefined? && !body.value.Null? ==>
      var b := body.value;
      var text := if Truthy(Get(b, "text")) then Get(b, "text") else Str("");
      var source := if Truthy(Get(b, "source")) then Get(b, "source") else Str("auto");
      var target := if Truthy(Get(b, "target")) then Get(b, "target") else Str("en");
      var model := if Truthy(Get(b, "model")) then Get(b, "model") else Str("gpt-4o-mini");
      (!text.Str? ==> out == Threw && calls == []) &&
      (text.Str? && Blank(text.s) ==> out == Respond(ErrorResponse("Text is required", 400)) && calls == []) &&
      (text.Str? && !Blank(text.s) && (Display(source, numberText).None? || Display(target, numberText).None?) ==>
        out == Threw && calls == []) &&
      (text.Str? && !Blank(text.s) && Display(source, numberText).Some? && Display(target, numberText).Some? ==>
        calls == [Call(OpenAiEndpoint, JsonContentType + map["Authorization" := "Bearer " + env.openAiKey],
          Obj(map["model" := model, "input" := Arr([
            Obj(map["role" := Str("system"), "content" := Str(SystemPrompt)]),
            Obj(map["role" := Str("user"), "content" :=
              Str(UserContent(Display(source, numberText).value, Display(target, numberText).value, text.s))])])]))] &&
        out == TranslateAnswer(openAi(calls[0])))
  {
    calls := [];
    if body.None? || body.value.Undefined? || body.value.Null? {
      return Threw, calls;
    }
    var b := body.value;
    var text := Or(Get(b, "text"), Str(""));
    var source := Or(Get(b, "source"), Str("auto"));
    var target := Or(Get(b, "target"), Str("en"));
    var model := Or(Get(b, "model"), Str("gpt-4o-mini"));
    if !text.Str? {
      return Threw, calls;
    }
    if Blank(text.s) {
      return Respond(ErrorResponse("Text is required", 400)), calls;
    }
    var sourceText := Display(source, numberText);
    var targetText := Display(target, numberText);
    if sourceText.None? || targetText.None? {
      return Threw, calls;
    }
    var user := UserContent(sourceText.value, targetText.value, text.s);
    var call := TranslateCall(env.openAiKey, model, user);
    calls := [call];
    out := TranslateAnswer(openAi(call));
  }

  /** Where `fetch` sends a request. */
  datatype Route = Preflight | VisionOcr | OpenAiTranslate | NoRoute

  /** The route of an HTTP method and path: OPTIONS on any path is a preflight, then the two POST endpoints. */
  function RouteOf(verb: string, path: string): (r: Route)
    ensures r == Preflight <==> verb == "OPTIONS"
    ensures r == VisionOcr <==> verb == "POST" && path == OcrPath
    ensures r == OpenAiTranslate <==> verb == "POST" && path == TranslatePath
  {
    if verb == "OPTIONS" then Preflight
    else if verb == "POST" && path == OcrPath then VisionOcr
    else if verb == "POST" && path == TranslatePath then OpenAiTranslate
    else NoRoute
  }

  /**
   * The worker's `fetch`: a preflight gets 204 with the CORS headers and no body, the two
   * endpoints go to their handlers, anything else gets 404 "Not Found"; every response
   * carries the CORS headers, and only the routed handlers call upstream.
   */
  method Fetch(request: Request, env: Env, vision: Call -> Upstream, openAi: Call -> Upstream, numberText: real -> string)
    returns (out: Outcome, calls: seq<Call>)
    ensures RouteOf(request.verb, request.path) == Preflight ==>
      out == Respond(HttpResponse(204, CorsHeaders, None)) && calls == []
    ensures RouteOf(request.verb, request.path) == NoRoute ==>
      out == Respond(ErrorResponse("Not Found", 404)) && calls == []
    ensures |calls| <= 1
    ensures |calls| == 1 && RouteOf(request.verb, request.path) == VisionOcr ==>
      calls[0].url == VisionEndpoint + env.visionKey && out == VisionAnswer(vision(calls[0]))
    ensures |calls| == 1 && RouteOf(request.verb, request.path) == OpenAiTranslate ==>
      calls[0].url == OpenAiEndpoint && out == TranslateAnswer(openAi(calls[0]))
    ensures out.Respond? ==> forall k :: k in CorsHeaders ==>
      k in out.response.headers && out.response.headers[k] == CorsHeaders[k]
    ensures (RouteOf(request.verb, request.path) in {VisionOcr, OpenAiTranslate} &&
      (request.body.None? || request.body.value.Undefined? || request.body.value.Null?)) ==>
      out == Threw && calls == []
    ensures RouteOf(request.verb, request.path) == VisionOcr && request.body.Some? ==>
      var image := ExtractBase64(Get(request.body.value, "image"));
      (!request.body.value.Undefined? && !request.body.value.Null? && (image.Missing? || image == Data(""))) ==>
        out == Respond(ErrorResponse("Image payload missing", 400)) && calls == []
    ensures RouteOf(request.verb, request.path) == OpenAiTranslate && request.body.Some? ==>
      var given := Get(request.body.value, "text");
      var text := if Truthy(given) then given else Str("");
      (!request.body.value.Undefined? && !request.body.value.Null? && text.Str? && Blank(text.s)) ==>
        out == Respond(ErrorResponse("Text is required", 400)) && calls == []
    ensures RouteOf(request.verb, request.path) == VisionOcr && request.body.Some? ==>
      var b := request.body.value;
      var image := ExtractBase64(Get(b, "image"));
      (!b.Undefined? && !b.Null? && image.Data? && image.text != "") ==>
        && calls == [Call(VisionEndpoint + env.visionKey, JsonContentType, VisionPayload(image.text, Get(b, "languageHint")))]
        && out == VisionAnswer(vision(calls[0]))
    ensures RouteOf(request.verb, request.path) == OpenAiTranslate && request.body.Some? ==>
      var b := request.body.value;
      var text := if Truthy(Get(b, "text")) then Get(b, "text") else Str("");
      var source := Display(if Truthy(Get(b, "source")) then Get(b, "source") else Str("auto"), numberText);
      var target := Display(if Truthy(Get(b, "target")) then Get(b, "target") else Str("en"), numberText);
      var model := if Truthy(Get(b, "model")) then Get(b, "model") else Str("gpt-4o-mini");
      (!b.Undefined? && !b.Null? && text.Str? && !Blank(text.s) && source.Some? && target.Some?) ==>
        && calls == [TranslateCall(env.openAiKey, model, UserContent(source.value, target.value, text.s))]
        && out == TranslateAnswer(openAi(calls[0]))
  {
    var route := RouteOf(request.verb, request.path);
    match route {
      case Preflight =>
        out, calls := Respond(HttpResponse(204, CorsHeaders, None)), [];
      case VisionOcr =>
        out, calls := HandleVisionOcr(request.body, env, vision);
      case OpenAiTranslate =>
        out, calls := HandleOpenAiTranslate(request.body, env, openAi, numberText);
      case NoRoute =>
        out, calls := Respond(ErrorResponse("Not Found", 404)), [];
    }
  }
}
