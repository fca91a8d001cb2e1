/**
 * The parts of Python's `str` that the backend relies on: `isspace`, `split()` with no
 * separator, `strip()` with no argument and `sep.join(parts)`.
 */
module PyText {

  /** `c.isspace()`: the characters `str.split()` and `str.strip()` treat as whitespace. */
  predicate IsSpace(c: char) {
    c == ' ' || ('\t' <= c <= '\r') || ('\U{1C}' <= c <= '\U{1F}') || c == '\U{85}' || c == '\U{A0}'
    || c == '\U{1680}' || ('\U{2000}' <= c <= '\U{200A}') || c == '\U{2028}' || c == '\U{2029}'
    || c == '\U{202F}' || c == '\U{205F}' || c == '\U{3000}'
  }

  predicate NoSpace(s: string) {
    forall i :: 0 <= i < |s| ==> !IsSpace(s[i])
  }

  /** One of the items `str.split()` yields: non-empty and free of whitespace. */
  predicate IsWord(w: string) {
    w != [] && NoSpace(w)
  }

  predicate AllWords(ws: seq<string>) {
    forall i :: 0 <= i < |ws| ==> IsWord(ws[i])
  }

  /** `s.split()`: the maximal runs of non-whitespace characters, in order. */
  function Split(s: string): (words: seq<string>)
    ensures AllWords(words)
  {
    SplitFrom(s, [])
  }

  /** Splits `s` when the characters of `word` have already been read as the current run. */
  function SplitFrom(s: string, word: string): (words: seq<string>)
    requires NoSpace(word)
    ensures AllWords(words)
    decreases |s|
  {
    if s == [] then
      (if word == [] then [] else [word])
    else if IsSpace(s[0]) then
      (if word == [] then [] else [word]) + SplitFrom(s[1..], [])
    else
      SplitFrom(s[1..], word + [s[0]])
  }

  /** `sep.join(parts)`. */
  function JoinWith(sep: string, parts: seq<string>): string {
    if parts == [] then ""
    else if |parts| == 1 then parts[0]
    else parts[0] + sep + JoinWith(sep, parts[1..])
  }

  /** `" ".join(words)`. */
  function Join(words: seq<string>): string {
    JoinWith(" ", words)
  }

  function TrimStart(s: string): (r: string)
    ensures r == [] || !IsSpace(r[0])
    decreases |s|
  {
    if s != [] && IsSpace(s[0]) then TrimStart(s[1..]) else s
  }

  function TrimEnd(s: string): (r: string)
    ensures r == [] || !IsSpace(r[|r| - 1])
    decreases |s|
  {
    if s != [] && IsSpace(s[|s| - 1]) then TrimEnd(s[..|s| - 1]) else s
  }

  /** `s.strip()`. */
  function Strip(s: string): string {
    TrimEnd(TrimStart(s))
  }

  /** `s.strip()` is empty exactly when every character of `s` is whitespace. */
  lemma {:induction false} StripEmptyIffBlank(s: string)
    ensures Strip(s) == [] <==> (forall i :: 0 <= i < |s| ==> IsSpace(s[i]))
  {
    TrimStartBlank(s);
    TrimEndEmpty(TrimStart(s));
  }

  lemma {:induction false} TrimStartBlank(s: string)
    ensures TrimStart(s) == [] <==> (forall i :: 0 <= i < |s| ==> IsSpace(s[i]))
    ensures TrimStart(s) != [] ==> !IsSpace(TrimStart(s)[0])
    decreases |s|
  {
    if s != [] && IsSpace(s[0]) {
      TrimStartBlank(s[1..]);
      if TrimStart(s) != [] {
        var k :| 0 <= k < |s[1..]| && !IsSpace(s[1..][k]);
        assert !IsSpace(s[k + 1]);
      } else {
        forall i | 0 <= i < |s| ensures IsSpace(s[i]) {
          if i > 0 { assert s[i] == s[1..][i - 1]; }
        }
      }
    }
  }

  lemma {:induction false} TrimEndEmpty(s: string)
    requires s == [] || !IsSpace(s[0])
    ensures TrimEnd(s) == [] <==> s == []
    decreases |s|
  {
    if s != [] && IsSpace(s[|s| - 1]) {
      assert |s| > 1;
      TrimEndEmpty(s[..|s| - 1]);
    }
  }

  /** A string that starts and ends with non-whitespace is its own `strip()`. */
  lemma StripTrimmed(s: string)
    requires s != [] && !IsSpace(s[0]) && !IsSpace(s[|s| - 1])
    ensures Strip(s) == s
  {
  }

  lemma {:induction false} JoinWordsEnds(ws: seq<string>)
    requires ws != [] && AllWords(ws)
    ensures Join(ws) != [] && !IsSpace(Join(ws)[0]) && !IsSpace(Join(ws)[|Join(ws)| - 1])
  {
    if |ws| > 1 {
      assert AllWords(ws[1..]) by {
        forall i | 0 <= i < |ws[1..]| ensures IsWord(ws[1..][i]) { assert ws[1..][i] == ws[i + 1]; }
      }
      JoinWordsEnds(ws[1..]);
      assert IsWord(ws[0]);
    } else {
      assert IsWord(ws[0]);
    }
  }

  lemma {:induction false} JoinSnoc(ws: seq<string>, w: string)
    requires ws != []
    ensures Join(ws + [w]) == Join(ws) + " " + w
  {
    if |ws| == 1 {
      assert ws + [w] == [ws[0], w];
      assert [ws[0], w][1..] == [w];
      assert JoinWith(" ", [w]) == w;
      assert JoinWith(" ", [ws[0], w]) == ws[0] + " " + JoinWith(" ", [w]);
      assert Join(ws) == ws[0];
    } else {
      assert (ws + [w])[1..] == ws[1..] + [w];
      JoinSnoc(ws[1..], w);
    }
  }

  /**
   * The free-text renderer's `f"{line} {word}".strip()`: when `line` is the words of `ws`
   * joined by spaces, the stripped candidate is the words of `ws + [w]` joined by spaces.
   */
  lemma StripCandidate(ws: seq<string>, w: string)
    requires AllWords(ws) && IsWord(w)
    ensures Strip(Join(ws) + " " + w) == Join(ws + [w])
  {
    if ws == [] {
      assert Join(ws) + " " + w == [' '] + w;
      assert TrimStart([' '] + w) == TrimStart(w);
      StripTrimmed(w);
    } else {
      JoinWordsEnds(ws);
      JoinSnoc(ws, w);
      StripTrimmed(Join(ws) + " " + w);
    }
  }

  /** Reading a run of non-whitespace characters only extends the current word. */
  lemma {:induction false} SplitFromRun(w: string, rest: string, word: string)
    requires NoSpace(w) && NoSpace(word)
    ensures NoSpace(word + w)
    ensures SplitFrom(w + rest, word) == SplitFrom(rest, word + w)
    decreases |w|
  {
    if w == [] {
      assert w + rest == rest;
      assert word + w == word;
    } else {
      assert (w + rest)[0] == w[0];
      assert (w + rest)[1..] == w[1..] + rest;
      assert word + w == (word + [w[0]]) + w[1..];
      SplitFromRun(w[1..], rest, word + [w[0]]);
    }
  }

  /** Splitting words joined by single spaces gives the words back. */
  lemma {:induction false} SplitJoin(ws: seq<string>)
    requires AllWords(ws)
    ensures Split(Join(ws)) == ws
  {
    SplitJoinFrom(ws);
  }

  lemma {:induction false} SplitJoinFrom(ws: seq<string>)
    requires AllWords(ws)
    ensures SplitFrom(Join(ws), []) == ws
  {
    if ws == [] {
    } else if |ws| == 1 {
      assert IsWord(ws[0]);
      assert Join(ws) == ws[0] + [];
      SplitFromRun(ws[0], [], []);
      assert [] + ws[0] == ws[0];
      assert SplitFrom([], ws[0]) == [ws[0]];
    } else {
      assert IsWord(ws[0]);
      assert AllWords(ws[1..]) by {
        forall i | 0 <= i < |ws[1..]| ensures IsWord(ws[1..][i]) { assert ws[1..][i] == ws[i + 1]; }
      }
      var rest := Join(ws[1..]);
      assert Join(ws) == ws[0] + (" " + rest);
      SplitFromRun(ws[0], " " + rest, []);
      assert [] + ws[0] == ws[0];
      assert (" " + rest)[1..] == rest;
      SplitJoinFrom(ws[1..]);
    }
  }
}
