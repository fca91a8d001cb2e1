/**
 * `extract_base64` of the backend: the base64 payload of an image data URL, the input itself
 * when it is not one, and None for no input. Python's pattern `(.*)$` stops at a newline, and
 * its `$` also matches just before a newline that ends the string.
 */
module Utils {
  import opened Wrappers
  import opened DataUrl

  /** Python's `(.*)$` on the text after `;base64,`: the captured text, or no match. */
  function CaptureToEnd(payload: string): Option<string> {
    if '\n' !in payload then Some(payload)
    else if payload[|payload| - 1] == '\n' && '\n' !in payload[..|payload| - 1] then Some(payload[..|payload| - 1])
    else None
  }

  /** `extract_base64(data_url)`. */
  function ExtractBase64(dataUrl: Option<string>): Option<string> {
    if dataUrl.None? || dataUrl.value == "" then None
    else
      var s := dataUrl.value;
      match Parse(s)
      case Some(parts) => (if CaptureToEnd(parts.payload).Some? then CaptureToEnd(parts.payload) else Some(s))
      case None => Some(s)
  }

  /**
   * No input (None or "") gives None; a data URL whose payload has no newline gives the
   * payload; any other non-empty string that is not a data URL, or whose payload the pattern
   * cannot capture, comes back unchanged.
   */
  lemma {:induction false} ExtractCases(dataUrl: Option<string>, subtype: string, payload: string)
    ensures dataUrl.None? || dataUrl == Some("") ==> ExtractBase64(dataUrl) == None
    ensures subtype != [] && ';' !in subtype && '\n' !in payload ==>
      ExtractBase64(Some(Scheme + subtype + Marker + payload)) == Some(payload)
    ensures dataUrl.Some? && dataUrl.value != "" && Parse(dataUrl.value).None? ==> ExtractBase64(dataUrl) == dataUrl
    ensures dataUrl.Some? && Parse(dataUrl.value).Some? && CaptureToEnd(Parse(dataUrl.value).value.payload).None? ==>
      ExtractBase64(dataUrl) == dataUrl
  {
    if subtype != [] && ';' !in subtype {
      ParseRoundTrip(subtype, payload);
      assert Scheme + subtype + Marker + payload != "";
    }
  }

  /** The capture is the whole payload, or the payload without the newline that ends it. */
  lemma {:induction false} CaptureShape(payload: string)
    ensures CaptureToEnd(payload).Some? ==>
      CaptureToEnd(payload).value == payload ||
      (payload != [] && payload[|payload| - 1] == '\n' && CaptureToEnd(payload).value == payload[..|payload| - 1])
  {
  }

  /**
   * A result is a suffix of the input, or of the input without the newline that ends it: the
   * payload is cut off before such a newline.
   */
  lemma {:induction false} ExtractSuffix(s: string)
    ensures var r := ExtractBase64(Some(s));
      r.Some? ==>
        (|r.value| <= |s| && s[|s| - |r.value|..] == r.value) ||
        (s != [] && s[|s| - 1] == '\n' && |r.value| < |s| && s[|s| - 1 - |r.value|..|s| - 1] == r.value)
  {
    if s != "" && Parse(s).Some? && CaptureToEnd(Parse(s).value.payload).Some? {
      ParseSound(s);
      var p := Parse(s).value.payload;
      var prefix := Scheme + Parse(s).value.subtype + Marker;
      assert s == prefix + p;
      CaptureShape(p);
      var c := CaptureToEnd(p).value;
      if c == p {
        assert s[|s| - |p|..] == p;
      } else {
        assert s[|s| - 1 - |c|..|s| - 1] == c;
      }
    }
  }

  /** A payload that ends in its only newline comes back without it. */
  lemma {:induction false} FinalNewlineDropped(subtype: string, body: string)
    requires subtype != [] && ';' !in subtype && '\n' !in body
    ensures ExtractBase64(Some(Scheme + subtype + Marker + body + "\n")) == Some(body)
  {
    var payload := body + "\n";
    assert Scheme + subtype + Marker + body + "\n" == Scheme + subtype + Marker + payload;
    ParseRoundTrip(subtype, payload);
    CaptureFinalNewline(body);
  }

  /** The capture of a newline-free text followed by a newline is that text. */
  lemma {:induction false} CaptureFinalNewline(body: string)
    requires '\n' !in body
    ensures CaptureToEnd(body + "\n") == Some(body)
  {
    var payload := body + "\n";
    assert payload[..|payload| - 1] == body;
    assert payload[|payload| - 1] in payload;
  }

  /**
   * So the result need not be a suffix of the input: `data:image/png;base64,QQ==` followed by a
   * newline gives `QQ==`, which the input does not end with.
   */
  lemma {:induction false} NotAlwaysSuffix()
    ensures var s := Scheme + "png" + Marker + "QQ==" + "\n";
      ExtractBase64(Some(s)) == Some("QQ==") && s[|s| - 4..] != "QQ=="
  {
    var s := Scheme + "png" + Marker + "QQ==" + "\n";
    FinalNewlineDropped("png", "QQ==");
    assert s[|s| - 1] == '\n';
    assert s[|s| - 4..][3] == '\n';
  }
}
