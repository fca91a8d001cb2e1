/**
 * The image data URLs both the backend and the worker accept: `data:image/<type>;base64,<payload>`,
 * a restricted form of the `data:[<mediatype>][;base64],<data>` syntax of section 3 of RFC 2397
 * where the media type is an image type and the data is base64.
 */
module DataUrl {
  import opened Wrappers

  const Scheme: string := "data:image/"
  const Marker: string := ";base64,"

  /** The position of the first `;`, if any. */
  function FirstSemicolon(s: string): (r: Option<nat>)
    ensures r.Some? ==> r.value < |s| && s[r.value] == ';' && ';' !in s[..r.value]
    ensures r.None? ==> ';' !in s
  {
    if s == [] then None
    else if s[0] == ';' then Some(0)
    else match FirstSemicolon(s[1..])
      case Some(i) => (assert s[..i + 1] == [s[0]] + s[1..][..i]; Some(i + 1))
      case None => (assert s == [s[0]] + s[1..]; None)
  }

  /** The image subtype and the payload of a data URL. */
  datatype Parts = Parts(subtype: string, payload: string)

  /**
   * How the pattern `^data:image/[^;]+;base64,` splits a string: the subtype runs to the first
   * `;`, must not be empty, and is followed by `;base64,`; the payload is everything after.
   */
  function Parse(s: string): Option<Parts> {
    if |s| < |Scheme| || s[..|Scheme|] != Scheme then None
    else
      var after := s[|Scheme|..];
      match FirstSemicolon(after)
      case None => None
      case Some(j) =>
        if j > 0 && j + |Marker| <= |after| && after[j..j + |Marker|] == Marker
        then Some(Parts(after[..j], after[j + |Marker|..]))
        else None
  }

  /** What parses is exactly a scheme, a non-empty `;`-free subtype, the marker and the payload. */
  lemma {:induction false} ParseSound(s: string)
    ensures Parse(s).Some? ==>
      var p := Parse(s).value;
      p.subtype != [] && ';' !in p.subtype && s == Scheme + p.subtype + Marker + p.payload
  {
    if Parse(s).Some? {
      var after := s[|Scheme|..];
      var j := FirstSemicolon(after).value;
      assert s == s[..|Scheme|] + after;
      assert after == after[..j] + after[j..j + |Marker|] + after[j + |Marker|..];
    }
  }

  /** Every scheme, non-empty `;`-free subtype, marker and payload parse back into their parts. */
  lemma {:induction false} ParseRoundTrip(subtype: string, payload: string)
    requires subtype != [] && ';' !in subtype
    ensures Parse(Scheme + subtype + Marker + payload) == Some(Parts(subtype, payload))
  {
    var s := Scheme + subtype + Marker + payload;
    var after := subtype + Marker + payload;
    assert s[..|Scheme|] == Scheme && s[|Scheme|..] == after;
    FirstSemicolonAt(subtype, Marker + payload);
    assert after[|subtype|..|subtype| + |Marker|] == Marker;
    assert after[..|subtype|] == subtype;
    assert after[|subtype| + |Marker|..] == payload;
  }

  /** A `;`-free prefix followed by a `;` puts the first `;` right after the prefix. */
  lemma {:induction false} FirstSemicolonAt(prefix: string, rest: string)
    requires ';' !in prefix && rest != [] && rest[0] == ';'
    ensures FirstSemicolon(prefix + rest) == Some(|prefix|)
    decreases |prefix|
  {
    if prefix != [] {
      assert prefix[0] != ';' by {
        assert prefix[0] in prefix;
      }
      assert (prefix + rest)[1..] == prefix[1..] + rest;
      assert ';' !in prefix[1..] by {
        forall i | 0 <= i < |prefix[1..]| ensures prefix[1..][i] != ';' {
          assert prefix[1..][i] == prefix[i + 1] && prefix[i + 1] in prefix;
        }
      }
      FirstSemicolonAt(prefix[1..], rest);
    }
  }
}
