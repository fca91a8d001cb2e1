/**
 * The free-text renderer: a text's words wrapped greedily into lines no wider than the A4 page
 * less two 20 mm margins, drawn 7 mm apart from 30 mm below the top edge (12 mm lower under a
 * title), with a new page whenever the next line would fall below the 20 mm bottom margin.
 */
module FreeTextRender {
  import opened Seqs
  import opened PyText
  import opened Pdf
  import opened TemplateRender

  const Margin: real := 20.0 * MM
  const Top: real := A4Height - 30.0 * MM
  const Bottom: real := 20.0 * MM
  const LineStep: real := 7.0 * MM
  const TitleGap: real := 12.0 * MM
  /** Where the body starts under a title. */
  const TitledStart: real := Top - TitleGap
  const MaxWidth: real := A4Width - 40.0 * MM
  const BodyFont: string := "Helvetica"
  const BodySize: real := 11.0
  const TitleFont: string := "Helvetica-Bold"
  const TitleSize: real := 14.0

  // ----- Greedy wrapping -----

  /** A line fits when its width in 11-point Helvetica is at most the text width. */
  predicate Fits(s: string, tk: Toolkit) {
    tk.stringWidth(s, BodyFont, BodySize) <= MaxWidth
  }

  /**
   * The lines of `words` when the words of `cur` are already on the current line: a word joins
   * the line when the joined line fits, and otherwise the line is finished and the word starts
   * the next one; the last line is kept when it is not empty.
   */
  function WrapFrom(words: seq<string>, cur: seq<string>, tk: Toolkit): seq<seq<string>>
    decreases |words|
  {
    if words == [] then (if cur == [] then [] else [cur])
    else if Fits(Join(cur + [words[0]]), tk) then WrapFrom(words[1..], cur + [words[0]], tk)
    else [cur] + WrapFrom(words[1..], [words[0]], tk)
  }

  function Wrap(words: seq<string>, tk: Toolkit): seq<seq<string>> {
    WrapFrom(words, [], tk)
  }

  /** Wrapping neither drops, splits nor reorders words. */
  lemma {:induction false} WrapFromConcat(words: seq<string>, cur: seq<string>, tk: Toolkit)
    ensures Concat(WrapFrom(words, cur, tk)) == cur + words
    decreases |words|
  {
    if words == [] {
      assert Concat([cur]) == Concat([cur][..0]) + cur;
    } else if Fits(Join(cur + [words[0]]), tk) {
      WrapFromConcat(words[1..], cur + [words[0]], tk);
      assert cur + [words[0]] + words[1..] == cur + words;
    } else {
      WrapFromConcat(words[1..], [words[0]], tk);
      ConcatPrepend(cur, WrapFrom(words[1..], [words[0]], tk));
      assert cur + ([words[0]] + words[1..]) == cur + words;
    }
  }

  /** Every line is made of whole words. */
  lemma {:induction false} WrapFromWords(words: seq<string>, cur: seq<string>, tk: Toolkit)
    requires AllWords(words) && AllWords(cur)
    ensures forall i :: 0 <= i < |WrapFrom(words, cur, tk)| ==> AllWords(WrapFrom(words, cur, tk)[i])
    decreases |words|
  {
    if words != [] {
      assert IsWord(words[0]);
      assert AllWords(words[1..]) by {
        forall i | 0 <= i < |words[1..]| ensures IsWord(words[1..][i]) { assert words[1..][i] == words[i + 1]; }
      }
      if Fits(Join(cur + [words[0]]), tk) {
        WrapFromWords(words[1..], cur + [words[0]], tk);
      } else {
        WrapFromWords(words[1..], [words[0]], tk);
      }
    }
  }

  /**
   * The drawn lines, split again and read in order, give exactly the words of the text:
   * each line's text splits back into the words of that line.
   */
  lemma {:induction false} DrawnWords(text: string, tk: Toolkit)
    ensures Concat(Wrap(Split(text), tk)) == Split(text)
    ensures forall i :: 0 <= i < |Wrap(Split(text), tk)| ==> Split(Join(Wrap(Split(text), tk)[i])) == Wrap(Split(text), tk)[i]
  {
    WrapFromConcat(Split(text), [], tk);
    WrapFromWords(Split(text), [], tk);
    forall i | 0 <= i < |Wrap(Split(text), tk)|
      ensures Split(Join(Wrap(Split(text), tk)[i])) == Wrap(Split(text), tk)[i]
    {
      SplitJoin(Wrap(Split(text), tk)[i]);
    }
  }

  /**
   * The greedy shape of a wrap: only the first line may be empty; each word after the first on
   * a line joined because the line up to it fits; each line ends because its next word did not fit.
   */
  predicate Greedy(lines: seq<seq<string>>, tk: Toolkit) {
    && (forall i :: 1 <= i < |lines| ==> lines[i] != [])
    && (forall i, j :: 0 <= i < |lines| && 2 <= j <= |lines[i]| ==> Fits(Join(lines[i][..j]), tk))
    && (forall i :: 1 <= i < |lines| ==> lines[i] != [] && !Fits(Join(lines[i - 1] + [lines[i][0]]), tk))
  }

  lemma {:induction false} WrapFromGreedy(words: seq<string>, cur: seq<string>, tk: Toolkit)
    requires forall j :: 2 <= j <= |cur| ==> Fits(Join(cur[..j]), tk)
    ensures Greedy(WrapFrom(words, cur, tk), tk)
    ensures cur != [] ==>
      WrapFrom(words, cur, tk) != [] && |cur| <= |WrapFrom(words, cur, tk)[0]| && WrapFrom(words, cur, tk)[0][..|cur|] == cur
    decreases |words|
  {
    if words == [] {
    } else if Fits(Join(cur + [words[0]]), tk) {
      var next := cur + [words[0]];
      forall j | 2 <= j <= |next| ensures Fits(Join(next[..j]), tk) {
        if j <= |cur| {
          assert next[..j] == cur[..j];
        } else {
          assert next[..j] == next;
        }
      }
      WrapFromGreedy(words[1..], next, tk);
      if cur != [] {
        assert next[..|cur|] == cur;
      }
    } else {
      var rest := WrapFrom(words[1..], [words[0]], tk);
      WrapFromGreedy(words[1..], [words[0]], tk);
      var all := [cur] + rest;
      assert rest[0][..1] == [words[0]];
      forall i | 1 <= i < |all| ensures all[i] == rest[i - 1] {}
      forall i, j | 0 <= i < |all| && 2 <= j <= |all[i]| ensures Fits(Join(all[i][..j]), tk) {
        if i == 0 {
          assert cur[..j] == cur[..j];
        }
      }
    }
  }

  /** The first line is empty exactly when the first word does not fit on a line of its own. */
  lemma {:induction false} WrapFirstLine(words: seq<string>, tk: Toolkit)
    requires words != []
    ensures Wrap(words, tk) != []
    ensures Wrap(words, tk)[0] == [] <==> !Fits(words[0], tk)
    ensures Wrap(words, tk)[0] != [] ==> Wrap(words, tk)[0][0] == words[0]
  {
    assert [] + [words[0]] == [words[0]];
    assert Join([words[0]]) == words[0];
    if Fits(words[0], tk) {
      WrapFromGreedy(words[1..], [words[0]], tk);
      assert Wrap(words, tk)[0][..1] == [words[0]];
    }
  }

  /** The wrap of any text is greedy. */
  lemma {:induction false} WrapGreedy(words: seq<string>, tk: Toolkit)
    ensures Greedy(Wrap(words, tk), tk)
  {
    WrapFromGreedy(words, [], tk);
  }

  // ----- Line positions -----

  /** Where a line is drawn: the page (from 0) and the height above the page bottom. */
  datatype Slot = Slot(page: nat, y: real)

  /** The slot after `s`: 7 mm lower, or the top of a new page when that is below the bottom margin. */
  function Advance(s: Slot): Slot {
    if s.y - LineStep < Bottom then Slot(s.page + 1, Top) else Slot(s.page, s.y - LineStep)
  }

  /** The slot of the k-th line (from 0) when the first one is at `start` on the first page. */
  function SlotAt(start: real, k: nat): Slot {
    if k == 0 then Slot(0, start) else Advance(SlotAt(start, k - 1))
  }

  /** Every line lies between the margins, and each line is on the page of the previous one or the next. */
  lemma {:induction false} SlotBounds(start: real, k: nat)
    requires Bottom <= start <= Top
    ensures Bottom <= SlotAt(start, k).y <= Top
    ensures SlotAt(start, k + 1).page == SlotAt(start, k).page || SlotAt(start, k + 1).page == SlotAt(start, k).page + 1
  {
    if k > 0 {
      SlotBounds(start, k - 1);
    }
  }

  /** While the lines stay above the bottom margin they go down the first page in 7 mm steps. */
  lemma {:induction false} SlotsDown(start: real, k: nat)
    requires start - (k as real) * LineStep >= Bottom
    ensures SlotAt(start, k) == Slot(0, start - (k as real) * LineStep)
  {
    if k > 0 {
      assert (k as real) * LineStep == ((k - 1) as real) * LineStep + LineStep;
      SlotsDown(start, k - 1);
    }
  }

  /** A page begun at the top holds 36 lines; a first page under a title holds 34. */
  lemma {:induction false} PageCapacity()
    ensures forall k :: 0 <= k <= 35 ==> SlotAt(Top, k).page == 0
    ensures SlotAt(Top, 36) == Slot(1, Top)
    ensures forall k :: 0 <= k <= 33 ==> SlotAt(TitledStart, k).page == 0
    ensures SlotAt(TitledStart, 34) == Slot(1, Top)
  {
    forall k | 0 <= k <= 35 ensures SlotAt(Top, k).page == 0 {
      SlotsDown(Top, k);
    }
    SlotsDown(Top, 35);
    forall k | 0 <= k <= 33 ensures SlotAt(TitledStart, k).page == 0 {
      SlotsDown(TitledStart, k);
    }
    SlotsDown(TitledStart, 33);
  }

  /** After a page break the lines continue as on a page begun at the top. */
  lemma {:induction false} SlotsAfterBreak(start: real, a: nat, k: nat)
    requires SlotAt(start, a).y == Top
    ensures SlotAt(start, a + k) == Slot(SlotAt(start, a).page + SlotAt(Top, k).page, SlotAt(Top, k).y)
  {
    if k > 0 {
      SlotsAfterBreak(start, a, k - 1);
    }
  }

  // ----- The drawn document -----

  /** The title line, when the title is not empty. */
  function TitleDraws(title: string): seq<Draw> {
    if title == [] then [] else [Draw(Margin, Top, title, TitleFont, TitleSize)]
  }

  /** Where the first body line goes. */
  function BodyStart(title: string): real {
    if title == [] then Top else TitledStart
  }

  /**
   * A body line at its slot, in Helvetica: 11 point on the first page and `laterSize` on the
   * pages after a break, which is what the canvas's font is then.
   */
  function LineDraw(line: seq<string>, s: Slot, laterSize: real): Draw {
    Draw(Margin, s.y, Join(line), BodyFont, if s.page == 0 then BodySize else laterSize)
  }

  /** The finished pages, the page in progress and the slot of the next line. */
  datatype Sheets = Sheets(pages: seq<seq<Draw>>, current: seq<Draw>, next: Slot)

  /** What `save()` writes from them: the page in progress unless it is empty after a break. */
  function Finish(st: Sheets): seq<seq<Draw>> {
    if st.current != [] || st.pages == [] then st.pages + [st.current] else st.pages
  }

  /**
   * One line drawn at the next slot and the position moved on; when the next slot is on a new
   * page, the page in progress is finished.
   */
  function Step(st: Sheets, g: seq<string>, laterSize: real): Sheets {
    var drawn := st.current + [LineDraw(g, st.next, laterSize)];
    var next := Advance(st.next);
    if next.page != st.next.page then Sheets(st.pages + [drawn], [], next) else Sheets(st.pages, drawn, next)
  }

  /** The pages once each of `lines` has been drawn after `header` and the position moved on. */
  function Flow(header: seq<Draw>, lines: seq<seq<string>>, start: real, laterSize: real): Sheets
    decreases |lines|
  {
    if lines == [] then Sheets([], header, Slot(0, start))
    else Step(Flow(header, lines[..|lines| - 1], start, laterSize), lines[|lines| - 1], laterSize)
  }

  /** The document: every line but the last flowed, the last drawn where the flow left off. */
  function Doc(header: seq<Draw>, lines: seq<seq<string>>, start: real, laterSize: real): seq<seq<Draw>> {
    if lines == [] then Finish(Sheets([], header, Slot(0, start)))
    else
      var st := Flow(header, lines[..|lines| - 1], start, laterSize);
      Finish(Sheets(st.pages, st.current + [LineDraw(lines[|lines| - 1], st.next, laterSize)], st.next))
  }

  /** The body lines in order, each at its slot. */
  function LineDraws(lines: seq<seq<string>>, start: real, laterSize: real): seq<Draw> {
    seq(|lines|, i requires 0 <= i < |lines| => LineDraw(lines[i], SlotAt(start, i), laterSize))
  }

  lemma {:induction false} LineDrawsSnoc(lines: seq<seq<string>>, start: real, laterSize: real)
    requires lines != []
    ensures LineDraws(lines, start, laterSize)
      == LineDraws(lines[..|lines| - 1], start, laterSize) + [LineDraw(lines[|lines| - 1], SlotAt(start, |lines| - 1), laterSize)]
  {
    var n := |lines| - 1;
    var all := LineDraws(lines, start, laterSize);
    var init := LineDraws(lines[..n], start, laterSize);
    forall i | 0 <= i < n ensures all[i] == init[i] {
      assert lines[..n][i] == lines[i];
    }
    assert all == init + [all[n]];
  }

  /**
   * Flowing moves through the slots one by one and finishes one page per page break: after
   * `lines` the next line goes to the slot numbered `|lines|`, and as many pages are finished as
   * that slot's page number.
   */
  lemma {:induction false} FlowNext(header: seq<Draw>, lines: seq<seq<string>>, start: real, laterSize: real)
    ensures Flow(header, lines, start, laterSize).next == SlotAt(start, |lines|)
    ensures |Flow(header, lines, start, laterSize).pages| == SlotAt(start, |lines|).page
    decreases |lines|
  {
    if lines != [] {
      FlowNext(header, lines[..|lines| - 1], start, laterSize);
    }
  }

  /**
   * Flowing keeps every draw, in order: the finished pages and the page in progress, read in
   * order, are the header and the lines.
   */
  lemma {:induction false} FlowLines(header: seq<Draw>, lines: seq<seq<string>>, start: real, laterSize: real)
    ensures Concat(Flow(header, lines, start, laterSize).pages) + Flow(header, lines, start, laterSize).current
      == header + LineDraws(lines, start, laterSize)
    decreases |lines|
  {
    if lines == [] {
    } else {
      var k := |lines| - 1;
      var st := Flow(header, lines[..k], start, laterSize);
      FlowLines(header, lines[..k], start, laterSize);
      FlowNext(header, lines[..k], start, laterSize);
      LineDrawsSnoc(lines, start, laterSize);
      StepKeepsDraws(st, lines[k], laterSize);
      var d := LineDraw(lines[k], st.next, laterSize);
      assert Concat(st.pages) + st.current + [d] == header + LineDraws(lines[..k], start, laterSize) + [d];
    }
  }

  /** One step keeps every draw, in order, and adds the line's draw after them. */
  lemma {:induction false} StepKeepsDraws(st: Sheets, g: seq<string>, laterSize: real)
    ensures var st' := Step(st, g, laterSize);
      Concat(st'.pages) + st'.current == Concat(st.pages) + st.current + [LineDraw(g, st.next, laterSize)]
  {
    var d := LineDraw(g, st.next, laterSize);
    var st' := Step(st, g, laterSize);
    if Advance(st.next).page != st.next.page {
      assert st'.pages == st.pages + [st.current + [d]] && st'.current == [];
      ConcatSnoc(st.pages, st.current + [d]);
    } else {
      assert st'.pages == st.pages && st'.current == st.current + [d];
    }
  }

  /**
   * Read page by page, the document is the header followed by the body lines in order, on as
   * many pages as the last line's page number plus one.
   */
  lemma {:induction false} DocLines(header: seq<Draw>, lines: seq<seq<string>>, start: real, laterSize: real)
    ensures Concat(Doc(header, lines, start, laterSize)) == header + LineDraws(lines, start, laterSize)
    ensures lines != [] ==> |Doc(header, lines, start, laterSize)| == SlotAt(start, |lines| - 1).page + 1
  {
    if lines == [] {
      ConcatSnoc([], header);
    } else {
      var k := |lines| - 1;
      var st := Flow(header, lines[..k], start, laterSize);
      FlowLines(header, lines[..k], start, laterSize);
      FlowNext(header, lines[..k], start, laterSize);
      LineDrawsSnoc(lines, start, laterSize);
      var d := LineDraw(lines[k], st.next, laterSize);
      ConcatSnoc(st.pages, st.current + [d]);
      assert Concat(st.pages) + (st.current + [d]) == (Concat(st.pages) + st.current) + [d];
    }
  }

  /** Joined words are empty only when there are none. */
  lemma JoinEmpty(words: seq<string>)
    requires AllWords(words)
    ensures Join(words) == [] <==> words == []
  {
    if words != [] {
      assert IsWord(words[0]);
    }
  }

  /** Saving after the flow gives the document: the last line's page break leaves nothing behind. */
  lemma FinishFlow(header: seq<Draw>, lines: seq<seq<string>>, start: real, laterSize: real)
    ensures Finish(Flow(header, lines, start, laterSize)) == Doc(header, lines, start, laterSize)
  {
  }

  /** Saving after the flow of `lines` and one more line drawn without moving on gives the document. */
  lemma FinishLast(header: seq<Draw>, lines: seq<seq<string>>, last: seq<string>, start: real, laterSize: real)
    ensures var st := Flow(header, lines, start, laterSize);
      Finish(Sheets(st.pages, st.current + [LineDraw(last, st.next, laterSize)], st.next))
        == Doc(header, lines + [last], start, laterSize)
  {
    assert (lines + [last])[..|lines|] == lines && (lines + [last])[|lines|] == last;
  }

  /** `render_free_text(text, title)`, with the body size after a page break as a parameter. */
  function FreeTextDoc(text: string, title: string, tk: Toolkit, laterSize: real): seq<seq<Draw>> {
    Doc(TitleDraws(title), Wrap(Split(text), tk), BodyStart(title), laterSize)
  }

  // ----- The renderer -----

  /**
   * The canvas holds the pages of `st`, its position is the next slot, and its font is the body
   * font in the size of that slot's page.
   */
  ghost predicate Mirrors(c: Canvas, y: real, st: Sheets, laterSize: real)
    reads c
  {
    && c.pages == st.pages && c.current == st.current && y == st.next.y
    && c.font == BodyFont && c.fontSize == (if st.next.page == 0 then BodySize else laterSize)
  }

  /** Draws `line`, the words of `g`, at slot `s`. */
  method DrawLine(c: Canvas, line: string, y: real, ghost g: seq<string>, ghost s: Slot, ghost laterSize: real)
    requires y == s.y && line == Join(g)
    requires c.font == BodyFont && c.fontSize == (if s.page == 0 then BodySize else laterSize)
    modifies c
    ensures c.current == old(c.current) + [LineDraw(g, s, laterSize)]
    ensures c.pages == old(c.pages) && c.font == old(c.font) && c.fontSize == old(c.fontSize)
  {
    c.DrawString(Margin, y, line);
  }

  /**
   * Draws a finished line and moves 7 mm down, to the top of a new page when that is below the
   * bottom margin; with `restoreFont` the body font is selected again on the new page.
   */
  method EmitLine(c: Canvas, line: string, y: real, ghost g: seq<string>, ghost st: Sheets, restoreFont: bool)
    returns (y': real)
    requires Mirrors(c, y, st, if restoreFont then BodySize else InitialFontSize) && line == Join(g)
    modifies c
    ensures Mirrors(c, y', Step(st, g, if restoreFont then BodySize else InitialFontSize), if restoreFont then BodySize else InitialFontSize)
  {
    ghost var laterSize := if restoreFont then BodySize else InitialFontSize;
    DrawLine(c, line, y, g, st.next, laterSize);
    y' := y - LineStep;
    if y' < Bottom {
      c.ShowPage();
      if restoreFont {
        c.SetFont(BodyFont, BodySize);
      }
      y' := Top;
    }
  }

  /** Wrapping from word i looks at that word, then wraps the rest. */
  lemma WrapFromStep(words: seq<string>, i: nat, cur: seq<string>, tk: Toolkit)
    requires i < |words|
    ensures WrapFrom(words[i..], cur, tk) ==
      if Fits(Join(cur + [words[i]]), tk) then WrapFrom(words[i + 1..], cur + [words[i]], tk)
      else [cur] + WrapFrom(words[i + 1..], [words[i]], tk)
  {
    assert words[i..][0] == words[i] && words[i..][1..] == words[i + 1..];
  }

  /** Flowing one more line is one more step. */
  lemma FlowSnoc(header: seq<Draw>, lines: seq<seq<string>>, last: seq<string>, start: real, laterSize: real)
    ensures Flow(header, lines + [last], start, laterSize) == Step(Flow(header, lines, start, laterSize), last, laterSize)
  {
    assert (lines + [last])[..|lines|] == lines && (lines + [last])[|lines|] == last;
  }

  /**
   * One turn of the wrap loop: the word joins the line when the joined line fits, and otherwise
   * the line is drawn and the word starts the next one.
   */
  method TakeWord(c: Canvas, line: string, y: real, word: string, tk: Toolkit, restoreFont: bool,
                  ghost cur: seq<string>, ghost done: seq<seq<string>>, ghost header: seq<Draw>, ghost start: real)
    returns (line': string, y': real, ghost cur': seq<string>, ghost done': seq<seq<string>>)
    requires IsWord(word) && AllWords(cur) && line == Join(cur)
    requires Mirrors(c, y, Flow(header, done, start, if restoreFont then BodySize else InitialFontSize), if restoreFont then BodySize else InitialFontSize)
    modifies c
    ensures AllWords(cur') && line' == Join(cur')
    ensures Fits(Join(cur + [word]), tk) ==> done' == done && cur' == cur + [word]
    ensures !Fits(Join(cur + [word]), tk) ==> done' == done + [cur] && cur' == [word]
    ensures Mirrors(c, y', Flow(header, done', start, if restoreFont then BodySize else InitialFontSize), if restoreFont then BodySize else InitialFontSize)
  {
    ghost var laterSize := if restoreFont then BodySize else InitialFontSize;
    StripCandidate(cur, word);
    var test := Strip(line + " " + word);
    if tk.stringWidth(test, BodyFont, BodySize) <= MaxWidth {
      line', y', cur', done' := test, y, cur + [word], done;
    } else {
      y' := EmitLine(c, line, y, cur, Flow(header, done, start, laterSize), restoreFont);
      FlowSnoc(header, done, cur, start, laterSize);
      line', cur', done' := word, [word], done + [cur];
    }
  }

  /**
   * The wrap loop of `render_free_text`: each word joins the line when the joined line fits in
   * 11-point Helvetica, and otherwise the line is drawn and the word starts the next one. The
   * line left over at the end is returned, undrawn.
   */
  method FlowWords(c: Canvas, words: seq<string>, y0: real, tk: Toolkit, restoreFont: bool,
                   ghost header: seq<Draw>, ghost start: real)
    returns (line: string, y: real, ghost cur: seq<string>, ghost done: seq<seq<string>>)
    requires AllWords(words)
    requires Mirrors(c, y0, Flow(header, [], start, if restoreFont then BodySize else InitialFontSize), if restoreFont then BodySize else InitialFontSize)
    modifies c
    ensures Wrap(words, tk) == done + (if cur == [] then [] else [cur])
    ensures AllWords(cur) && line == Join(cur)
    ensures Mirrors(c, y, Flow(header, done, start, if restoreFont then BodySize else InitialFontSize), if restoreFont then BodySize else InitialFontSize)
  {
    ghost var laterSize := if restoreFont then BodySize else InitialFontSize;
    y := y0;
    line := "";
    cur := [];
    done := [];
    assert words[0..] == words;
    var i := 0;
    ghost var wrap := Wrap(words, tk);
    while i < |words|
      invariant 0 <= i <= |words|
      invariant wrap == done + WrapFrom(words[i..], cur, tk)
      invariant AllWords(cur) && line == Join(cur)
      invariant Mirrors(c, y, Flow(header, done, start, laterSize), laterSize)
    {
      assert IsWord(words[i]);
      WrapFromStep(words, i, cur, tk);
      ghost var done0, cur0 := done, cur;
      line, y, cur, done := TakeWord(c, line, y, words[i], tk, restoreFont, cur, done, header, start);
      if done != done0 {
        assert done + WrapFrom(words[i + 1..], cur, tk) == done0 + ([cur0] + WrapFrom(words[i + 1..], cur, tk));
      }
      i := i + 1;
    }
  }

  /** A fresh A4 canvas with the title drawn, when there is one, and the body font selected. */
  method Begin(title: string, ghost laterSize: real) returns (c: Canvas, y: real)
    ensures fresh(c)
    ensures Mirrors(c, y, Flow(TitleDraws(title), [], BodyStart(title), laterSize), laterSize)
  {
    c := new Canvas(A4Width, A4Height);
    y := Top;
    if title != [] {
      c.SetFont(TitleFont, TitleSize);
      c.DrawString(Margin, y, title);
      y := y - TitleGap;
    }
    c.SetFont(BodyFont, BodySize);
  }

  /** Draws the line left over by the wrap loop, if any, and saves the document. */
  method End(c: Canvas, line: string, y: real, ghost cur: seq<string>, ghost done: seq<seq<string>>,
             ghost header: seq<Draw>, ghost start: real, ghost laterSize: real)
    returns (doc: seq<seq<Draw>>)
    requires AllWords(cur) && line == Join(cur)
    requires Mirrors(c, y, Flow(header, done, start, laterSize), laterSize)
    modifies c
    ensures doc == Doc(header, done + (if cur == [] then [] else [cur]), start, laterSize)
  {
    JoinEmpty(cur);
    if line != [] {
      ghost var st := Flow(header, done, start, laterSize);
      DrawLine(c, line, y, cur, st.next, laterSize);
      FinishLast(header, done, cur, start, laterSize);
    } else {
      FinishFlow(header, done, start, laterSize);
      assert done + [] == done;
    }
    doc := c.Saved();
  }

  /**
   * The body of `render_free_text`: the title, the wrap loop and the last line. With
   * `restoreFont` the body font is selected again after each page break.
   */
  method Typeset(text: string, title: string, tk: Toolkit, restoreFont: bool) returns (doc: seq<seq<Draw>>)
    ensures doc == FreeTextDoc(text, title, tk, if restoreFont then BodySize else InitialFontSize)
  {
    ghost var laterSize := if restoreFont then BodySize else InitialFontSize;
    var c, y := Begin(title, laterSize);
    var words := Split(text);
    var line;
    ghost var cur, done;
    line, y, cur, done := FlowWords(c, words, y, tk, restoreFont, TitleDraws(title), BodyStart(title));
    doc := End(c, line, y, cur, done, TitleDraws(title), BodyStart(title), laterSize);
  }

  /** `render_free_text` as written: after a page break the canvas is back at 12-point Helvetica. */
  method RenderFreeText(text: string, title: string, tk: Toolkit) returns (doc: seq<seq<Draw>>)
    ensures doc == FreeTextDoc(text, title, tk, InitialFontSize)
  {
    doc := Typeset(text, title, tk, false);
  }

  /** `render_free_text` with the body font selected again after every page break. */
  method RenderFreeTextCorrected(text: string, title: string, tk: Toolkit) returns (doc: seq<seq<Draw>>)
    ensures doc == FreeTextDoc(text, title, tk, BodySize)
  {
    doc := Typeset(text, title, tk, true);
  }

  /**
   * As written, an untitled text that wraps to more than 36 lines has its 37th line at the top
   * of the second page in 12 point, though its width was measured in 11 point.
   */
  lemma {:induction false} AsWrittenLaterPageSize(text: string, tk: Toolkit)
    requires |Wrap(Split(text), tk)| > 36
    ensures |Concat(FreeTextDoc(text, "", tk, InitialFontSize))| == |Wrap(Split(text), tk)|
    ensures Concat(FreeTextDoc(text, "", tk, InitialFontSize))[36]
      == Draw(Margin, Top, Join(Wrap(Split(text), tk)[36]), BodyFont, 12.0)
    ensures Concat(FreeTextDoc(text, "", tk, InitialFontSize))[36].size != BodySize
  {
    DocLines([], Wrap(Split(text), tk), Top, InitialFontSize);
    PageCapacity();
  }

  /** Corrected, every body line on every page is drawn in the font its width was measured in. */
  lemma {:induction false} CorrectedBodySize(text: string, title: string, tk: Toolkit)
    ensures var doc := Concat(FreeTextDoc(text, title, tk, BodySize));
      |doc| == |TitleDraws(title)| + |Wrap(Split(text), tk)|
      && forall i :: |TitleDraws(title)| <= i < |doc| ==> doc[i].font == BodyFont && doc[i].size == BodySize
  {
    DocLines(TitleDraws(title), Wrap(Split(text), tk), BodyStart(title), BodySize);
  }
}
