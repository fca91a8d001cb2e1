/**
 * The template renderers: the per-page text overlay merged onto a PDF template, the labelled
 * list drawn on a blank page, and the cell writes into a spreadsheet template.
 * The free-text renderer of the same service lives in module FreeTextRender.
 */
module TemplateRender {
  import opened Wrappers
  import opened Values
  import opened Pdf
  import opened Workbook
  import opened Models

  /** What the renderers ask of the libraries they draw with. */
  datatype Toolkit = Toolkit(
    /** Python's `float()` of a string; None where it raises. */
    parseFloat: string -> Option<real>,
    /** The canvas's `stringWidth(text, font, size)`. */
    stringWidth: (string, string, real) -> real,
    /** The cell a reference such as "B3" names; None where the worksheet rejects it. */
    cellAddress: string -> Option<Coord>)

  /** The template files the renderers open, by path. */
  datatype Files = Files(
    /** The pages of a PDF; None where the reader raises. */
    pdfPages: string -> Option<seq<Page>>,
    /** A workbook read by `load_workbook`; None where it raises. */
    loadXlsx: string -> Option<WfBook>,
    /** The sheet names of a legacy .xls file; None where it cannot be opened. */
    xlsSheetNames: string -> Option<seq<string>>)

  /** Why a renderer raised. */
  datatype RenderError =
    | UnreadablePdf
    | NotANumber(setting: string)
    | UnknownFont(font: Setting)
    | BadCell(cell: Setting)
    | IllegalText(text: string)

  /** A successful result with `done` in front of it; a failure unchanged. */
  function Then<T>(done: seq<T>, r: Result<seq<T>, RenderError>): Result<seq<T>, RenderError> {
    match r
    case Success(rest) => Success(done + rest)
    case Failure(e) => Failure(e)
  }

  // ----- PDF overlay -----

  /** `mapping.get("page", 1) == p`. */
  predicate OnPage(f: TemplateField, p: int) {
    EqualsInt(Get(MappingOf(f), "page", SNum(1.0)), p)
  }

  /** The overlay of page `p` draws `f`: it has a value and is mapped to that page. */
  predicate Selected(f: TemplateField, data: map<string, Value>, p: int) {
    Lookup(data, f.key) != Null && OnPage(f, p)
  }

  /** The fields drawn on page `p`, in list order. */
  function Select(fields: seq<TemplateField>, data: map<string, Value>, p: int): seq<TemplateField> {
    if fields == [] then []
    else (if Selected(fields[0], data, p) then [fields[0]] else []) + Select(fields[1..], data, p)
  }

  /** The overlay of a page draws exactly the selected fields, each as often as it occurs. */
  lemma {:induction false} SelectMembers(fields: seq<TemplateField>, data: map<string, Value>, p: int)
    ensures |Select(fields, data, p)| <= |fields|
    ensures forall g :: g in Select(fields, data, p) <==> g in fields && Selected(g, data, p)
    ensures forall g :: multiset(Select(fields, data, p))[g] == if Selected(g, data, p) then multiset(fields)[g] else 0
  {
    if fields != [] {
      var f, rest := fields[0], fields[1..];
      SelectMembers(rest, data, p);
      var head := if Selected(f, data, p) then [f] else [];
      assert fields == [f] + rest;
      assert Select(fields, data, p) == head + Select(rest, data, p);
      assert multiset(fields) == multiset([f]) + multiset(rest);
      assert multiset(Select(fields, data, p)) == multiset(head) + multiset(Select(rest, data, p));
    }
  }

  /**
   * One field's draw on a page of the given height: its coordinates and font size read as
   * floats (defaults 72, 72 and 11), its font (default Helvetica), and the text `str(value)`
   * at `x` and `pageHeight - y`, since the mapping measures y from the top of the page.
   */
  function Place(f: TemplateField, v: Value, pageHeight: real, tk: Toolkit): Result<Draw, RenderError> {
    var m := MappingOf(f);
    var x := ToFloat(Get(m, "x", SNum(72.0)), tk.parseFloat);
    var y := ToFloat(Get(m, "y", SNum(72.0)), tk.parseFloat);
    var size := ToFloat(Get(m, "font_size", SNum(11.0)), tk.parseFloat);
    var font := Get(m, "font", SStr(InitialFont));
    if x.None? then Failure(NotANumber("x"))
    else if y.None? then Failure(NotANumber("y"))
    else if size.None? then Failure(NotANumber("font_size"))
    else if !(font.SStr? && StandardFont(font.text)) then Failure(UnknownFont(font))
    else Success(Draw(x.value, pageHeight - y.value, PyStr(v), font.text, size.value))
  }

  /** Each item through `step` in order; the first failure stops the run. */
  function Traverse<A, B>(xs: seq<A>, step: A -> Result<B, RenderError>): Result<seq<B>, RenderError> {
    if xs == [] then Success([])
    else match step(xs[0])
      case Failure(e) => Failure(e)
      case Success(d) => Then([d], Traverse(xs[1..], step))
  }

  /**
   * A run succeeds iff every item's step succeeds, and then its i-th result is the i-th item's;
   * otherwise the error is the first failing item's.
   */
  lemma {:induction false} TraverseEach<A, B>(xs: seq<A>, step: A -> Result<B, RenderError>)
    ensures Traverse(xs, step).Success? <==> forall i :: 0 <= i < |xs| ==> step(xs[i]).Success?
    ensures Traverse(xs, step).Success? ==>
      && |Traverse(xs, step).value| == |xs|
      && forall i :: 0 <= i < |xs| ==> step(xs[i]) == Success(Traverse(xs, step).value[i])
    ensures Traverse(xs, step).Failure? ==>
      exists i :: 0 <= i < |xs| && step(xs[i]) == Failure(Traverse(xs, step).error)
        && forall j :: 0 <= j < i ==> step(xs[j]).Success?
  {
    if xs != [] {
      TraverseEach(xs[1..], step);
      assert forall i :: 1 <= i < |xs| ==> xs[1..][i - 1] == xs[i];
      var head := step(xs[0]);
      var rest := Traverse(xs[1..], step);
      if head.Success? && rest.Success? {
        var out := Traverse(xs, step).value;
        assert out == [head.value] + rest.value;
        forall i | 0 <= i < |xs|
          ensures step(xs[i]) == Success(out[i])
        {
          if i > 0 {
            assert out[i] == rest.value[i - 1];
          }
        }
      } else if head.Success? {
        var i :| 0 <= i < |xs[1..]| && step(xs[1..][i]) == Failure(rest.error)
          && forall j :: 0 <= j < i ==> step(xs[1..][j]).Success?;
        assert xs[i + 1] == xs[1..][i];
        assert forall j :: 1 <= j < i + 1 ==> xs[j] == xs[1..][j - 1];
      }
    }
  }

  /** Placing one selected field with its value from `data`. */
  function PlaceStep(data: map<string, Value>, pageHeight: real, tk: Toolkit): TemplateField -> Result<Draw, RenderError> {
    (f: TemplateField) => Place(f, Lookup(data, f.key), pageHeight, tk)
  }

  /** The draws of the selected fields in order, or the first field's failure. */
  function PlaceAll(sel: seq<TemplateField>, data: map<string, Value>, pageHeight: real, tk: Toolkit): Result<seq<Draw>, RenderError> {
    Traverse(sel, PlaceStep(data, pageHeight, tk))
  }

  /**
   * Placing succeeds iff every selected field places, and then the i-th draw is the i-th
   * selected field's; otherwise the error is the first failing field's.
   */
  lemma {:induction false} PlaceAllEach(sel: seq<TemplateField>, data: map<string, Value>, pageHeight: real, tk: Toolkit)
    ensures PlaceAll(sel, data, pageHeight, tk).Success?
      <==> forall i :: 0 <= i < |sel| ==> Place(sel[i], Lookup(data, sel[i].key), pageHeight, tk).Success?
    ensures PlaceAll(sel, data, pageHeight, tk).Success? ==>
      && |PlaceAll(sel, data, pageHeight, tk).value| == |sel|
      && forall i :: 0 <= i < |sel| ==> Place(sel[i], Lookup(data, sel[i].key), pageHeight, tk) == Success(PlaceAll(sel, data, pageHeight, tk).value[i])
    ensures PlaceAll(sel, data, pageHeight, tk).Failure? ==>
      exists i :: 0 <= i < |sel| && Place(sel[i], Lookup(data, sel[i].key), pageHeight, tk) == Failure(PlaceAll(sel, data, pageHeight, tk).error)
        && forall j :: 0 <= j < i ==> Place(sel[j], Lookup(data, sel[j].key), pageHeight, tk).Success?
  {
    TraverseEach(sel, PlaceStep(data, pageHeight, tk));
  }

  /** The draws of the overlay for page `p`. */
  function Overlay(fields: seq<TemplateField>, data: map<string, Value>, p: int, pageHeight: real, tk: Toolkit): Result<seq<Draw>, RenderError> {
    PlaceAll(Select(fields, data, p), data, pageHeight, tk)
  }

  /** A field with no mapping is drawn with every default. */
  lemma PlaceDefaults(f: TemplateField, v: Value, pageHeight: real, tk: Toolkit)
    requires MappingOf(f) == map[]
    ensures Place(f, v, pageHeight, tk) == Success(Draw(72.0, pageHeight - 72.0, PyStr(v), "Helvetica", 11.0))
  {
  }

  /** Numeric settings place the text at `x`, `y` below the top edge, in the named standard font. */
  lemma PlaceFromTop(f: TemplateField, v: Value, pageHeight: real, tk: Toolkit, x: real, y: real, size: real, font: string)
    requires Get(MappingOf(f), "x", SNull) == SNum(x) && Get(MappingOf(f), "y", SNull) == SNum(y)
    requires Get(MappingOf(f), "font_size", SNull) == SNum(size) && Get(MappingOf(f), "font", SNull) == SStr(font)
    requires StandardFont(font)
    ensures Place(f, v, pageHeight, tk) == Success(Draw(x, pageHeight - y, PyStr(v), font, size))
    ensures pageHeight - Place(f, v, pageHeight, tk).value.y == y
  {
  }

  /** A font outside the standard ones makes the overlay fail even when the numbers are fine. */
  lemma PlaceUnknownFont(f: TemplateField, v: Value, pageHeight: real, tk: Toolkit, font: string)
    requires Get(MappingOf(f), "font", SNull) == SStr(font) && !StandardFont(font)
    requires forall k :: k in MappingOf(f) && k in {"x", "y", "font_size"} ==> MappingOf(f)[k].SNum?
    ensures Place(f, v, pageHeight, tk) == Failure(UnknownFont(SStr(font)))
  {
  }

  /** One field on the overlay canvas: read its numbers, select its font, draw its text. */
  method DrawField(overlay: Canvas, f: TemplateField, value: Value, tk: Toolkit) returns (failure: Option<RenderError>)
    modifies overlay
    ensures overlay.pages == old(overlay.pages)
    ensures match Place(f, value, overlay.height, tk)
      case Failure(e) => failure == Some(e)
      case Success(d) => failure == None && overlay.current == old(overlay.current) + [d]
  {
    var m := MappingOf(f);
    var x := ToFloat(Get(m, "x", SNum(72.0)), tk.parseFloat);
    var y := ToFloat(Get(m, "y", SNum(72.0)), tk.parseFloat);
    var size := ToFloat(Get(m, "font_size", SNum(11.0)), tk.parseFloat);
    if x.None? {
      return Some(NotANumber("x"));
    }
    if y.None? {
      return Some(NotANumber("y"));
    }
    if size.None? {
      return Some(NotANumber("font_size"));
    }
    var font := Get(m, "font", SStr(InitialFont));
    if !(font.SStr? && StandardFont(font.text)) {
      return Some(UnknownFont(font));
    }
    overlay.SetFont(font.text, size.value);
    overlay.DrawString(x.value, overlay.height - y.value, PyStr(value));
    failure := None;
  }

  /** Selecting from `fields[i..]` looks at `fields[i]`, then selects from the rest. */
  lemma SelectStep(fields: seq<TemplateField>, data: map<string, Value>, p: int, i: nat)
    requires i < |fields|
    ensures Select(fields[i..], data, p)
      == (if Selected(fields[i], data, p) then [fields[i]] else []) + Select(fields[i + 1..], data, p)
  {
    assert fields[i..][0] == fields[i] && fields[i..][1..] == fields[i + 1..];
  }

  /** Placing a field in front of others: its draw in front of theirs, or its failure. */
  lemma PlaceAllCons(f: TemplateField, rest: seq<TemplateField>, data: map<string, Value>, pageHeight: real, tk: Toolkit)
    ensures PlaceAll([f] + rest, data, pageHeight, tk) ==
      match Place(f, Lookup(data, f.key), pageHeight, tk)
      case Failure(e) => Failure(e)
      case Success(d) => Then([d], PlaceAll(rest, data, pageHeight, tk))
  {
    assert ([f] + rest)[0] == f && ([f] + rest)[1..] == rest;
  }

  /** Draws already made, then one more, then the rest. */
  lemma ThenSnoc<T>(done: seq<T>, d: T, r: Result<seq<T>, RenderError>)
    ensures Then(done, Then([d], r)) == Then(done + [d], r)
  {
    if r.Success? {
      assert done + ([d] + r.value) == done + [d] + r.value;
    }
  }

  /** One field's turn in the loop of `_draw_text_overlay`, against what is left of the overlay's draws. */
  method OverlayNext(overlay: Canvas, fields: seq<TemplateField>, data: map<string, Value>, pageNumber: int, tk: Toolkit, i: nat)
    returns (failure: Option<RenderError>)
    requires i < |fields|
    modifies overlay
    ensures overlay.pages == old(overlay.pages)
    ensures var left := Then(old(overlay.current), PlaceAll(Select(fields[i..], data, pageNumber), data, overlay.height, tk));
      && (failure.Some? ==> left == Failure(failure.value))
      && (failure.None? ==> left == Then(overlay.current, PlaceAll(Select(fields[i + 1..], data, pageNumber), data, overlay.height, tk)))
  {
    var f := fields[i];
    SelectStep(fields, data, pageNumber, i);
    var value := Lookup(data, f.key);
    if value != Null && OnPage(f, pageNumber) {
      ghost var rest := Select(fields[i + 1..], data, pageNumber);
      PlaceAllCons(f, rest, data, overlay.height, tk);
      ghost var before := overlay.current;
      failure := DrawField(overlay, f, value, tk);
      if failure.None? {
        ThenSnoc(before, Place(f, value, overlay.height, tk).value, PlaceAll(rest, data, overlay.height, tk));
      }
    } else {
      assert Select(fields[i..], data, pageNumber) == Select(fields[i + 1..], data, pageNumber);
      failure := None;
    }
  }

  /** `_draw_text_overlay`: the draws of one overlay page. */
  method DrawTextOverlay(page: Page, fields: seq<TemplateField>, data: map<string, Value>, pageNumber: int, tk: Toolkit)
    returns (r: Result<seq<Draw>, RenderError>)
    ensures r == Overlay(fields, data, pageNumber, page.height, tk)
  {
    var overlay := new Canvas(page.width, page.height);
    ghost var goal := Overlay(fields, data, pageNumber, page.height, tk);
    var i := 0;
    assert fields[0..] == fields;
    assert goal == Then([], goal) by {
      if goal.Success? {
        assert [] + goal.value == goal.value;
      }
    }
    while i < |fields|
      invariant 0 <= i <= |fields|
      invariant overlay.pages == [] && overlay.height == page.height
      invariant goal == Then(overlay.current, PlaceAll(Select(fields[i..], data, pageNumber), data, page.height, tk))
    {
      var failure := OverlayNext(overlay, fields, data, pageNumber, tk, i);
      if failure.Some? {
        return Failure(failure.value);
      }
      i := i + 1;
    }
    assert overlay.current + [] == overlay.current;
    r := Success(overlay.Saved()[0]);
  }

  // ----- PDF template -----

  /** `page.merge_page(overlay)`: the overlay becomes the top layer of the page. */
  function Merge(page: Page, draws: seq<Draw>): Page {
    page.(layers := page.layers + [Drawn(draws)])
  }

  /**
   * Each page with the overlay of its page number on top, numbering from `first`; the first
   * failing overlay fails them all.
   */
  function MergePages(pages: seq<Page>, first: int, overlay: (int, real) -> Result<seq<Draw>, RenderError>)
    : Result<seq<Page>, RenderError>
  {
    if pages == [] then Success([])
    else match overlay(first, pages[0].height)
      case Failure(e) => Failure(e)
      case Success(ds) => Then([Merge(pages[0], ds)], MergePages(pages[1..], first + 1, overlay))
  }

  /** One output page per input page, in order, page k (from 0) carrying overlay `first + k`. */
  lemma {:induction false} MergePagesEach(pages: seq<Page>, first: int, overlay: (int, real) -> Result<seq<Draw>, RenderError>)
    ensures MergePages(pages, first, overlay).Success?
      <==> forall k :: 0 <= k < |pages| ==> overlay(first + k, pages[k].height).Success?
    ensures MergePages(pages, first, overlay).Success? ==>
      && |MergePages(pages, first, overlay).value| == |pages|
      && forall k :: 0 <= k < |pages| ==>
        MergePages(pages, first, overlay).value[k] == Merge(pages[k], overlay(first + k, pages[k].height).value)
  {
    if pages != [] {
      var head := overlay(first, pages[0].height);
      var rest := MergePages(pages[1..], first + 1, overlay);
      MergePagesEach(pages[1..], first + 1, overlay);
      forall k | 1 <= k < |pages|
        ensures pages[1..][k - 1] == pages[k] && first + 1 + (k - 1) == first + k
      {
      }
      if head.Success? && rest.Success? {
        var out := MergePages(pages, first, overlay).value;
        assert out == [Merge(pages[0], head.value)] + rest.value;
        forall k | 0 <= k < |pages|
          ensures out[k] == Merge(pages[k], overlay(first + k, pages[k].height).value)
        {
          if k > 0 {
            assert out[k] == rest.value[k - 1];
          }
        }
      }
    }
  }

  /** The overlay drawing of a page, by page number and page height. */
  function OverlayOf(fields: seq<TemplateField>, data: map<string, Value>, tk: Toolkit): (int, real) -> Result<seq<Draw>, RenderError> {
    (p: int, h: real) => Overlay(fields, data, p, h, tk)
  }

  /** `render_pdf`: every page of the template with its overlay merged, page numbers counting from 1. */
  function RenderPdfSpec(path: string, fields: seq<TemplateField>, data: map<string, Value>, files: Files, tk: Toolkit)
    : Result<seq<Page>, RenderError>
  {
    match files.pdfPages(path)
    case None => Failure(UnreadablePdf)
    case Some(pages) => MergePages(pages, 1, OverlayOf(fields, data, tk))
  }

  /**
   * The filled PDF has exactly the template's pages, in order, page k (from 0) merged with the
   * overlay of page number k + 1; it fails iff the template cannot be read or an overlay fails.
   */
  lemma RenderPdfPages(path: string, fields: seq<TemplateField>, data: map<string, Value>, files: Files, tk: Toolkit)
    ensures RenderPdfSpec(path, fields, data, files, tk).Success? <==>
      files.pdfPages(path).Some? &&
      forall k :: 0 <= k < |files.pdfPages(path).value| ==>
        Overlay(fields, data, k + 1, files.pdfPages(path).value[k].height, tk).Success?
    ensures RenderPdfSpec(path, fields, data, files, tk).Success? ==>
      var pages := files.pdfPages(path).value;
      var out := RenderPdfSpec(path, fields, data, files, tk).value;
      |out| == |pages| && forall k :: 0 <= k < |pages| ==> out[k] == Merge(pages[k], Overlay(fields, data, k + 1, pages[k].height, tk).value)
  {
    if files.pdfPages(path).Some? {
      MergeOverlays(files.pdfPages(path).value, fields, data, tk, OverlayOf(fields, data, tk));
    }
  }

  /** `MergePagesEach` for the overlays of the template fields. */
  lemma MergeOverlays(pages: seq<Page>, fields: seq<TemplateField>, data: map<string, Value>, tk: Toolkit,
                      overlays: (int, real) -> Result<seq<Draw>, RenderError>)
    requires forall p, h :: overlays(p, h) == Overlay(fields, data, p, h, tk)
    ensures MergePages(pages, 1, overlays).Success?
      <==> forall k :: 0 <= k < |pages| ==> Overlay(fields, data, k + 1, pages[k].height, tk).Success?
    ensures MergePages(pages, 1, overlays).Success? ==>
      var out := MergePages(pages, 1, overlays).value;
      |out| == |pages| && forall k :: 0 <= k < |pages| ==> out[k] == Merge(pages[k], Overlay(fields, data, k + 1, pages[k].height, tk).value)
  {
    MergePagesEach(pages, 1, overlays);
  }

  /** One page's turn in the loop of `render_pdf`: its overlay fails them all, or its merged page is written. */
  lemma MergeStep(written: seq<Page>, pages: seq<Page>, index: nat, overlay: (int, real) -> Result<seq<Draw>, RenderError>)
    requires index < |pages|
    ensures var o := overlay(index + 1, pages[index].height);
      && (o.Failure? ==> Then(written, MergePages(pages[index..], index + 1, overlay)) == Failure(o.error))
      && (o.Success? ==>
            Then(written, MergePages(pages[index..], index + 1, overlay))
            == Then(written + [Merge(pages[index], o.value)], MergePages(pages[index + 1..], index + 2, overlay)))
  {
    assert pages[index..][0] == pages[index] && pages[index..][1..] == pages[index + 1..];
    var o := overlay(index + 1, pages[index].height);
    if o.Success? {
      ThenSnoc(written, Merge(pages[index], o.value), MergePages(pages[index + 1..], index + 2, overlay));
    }
  }

  method RenderPdf(path: string, fields: seq<TemplateField>, data: map<string, Value>, files: Files, tk: Toolkit)
    returns (r: Result<seq<Page>, RenderError>)
    ensures r == RenderPdfSpec(path, fields, data, files, tk)
  {
    var reader := files.pdfPages(path);
    if reader.None? {
      return Failure(UnreadablePdf);
    }
    var pages := reader.value;
    ghost var overlays := OverlayOf(fields, data, tk);
    ghost var goal := MergePages(pages, 1, overlays);
    var written: seq<Page> := [];
    var index := 0;
    assert pages[0..] == pages;
    match goal {
      case Failure(_) =>
      case Success(ps) => assert [] + ps == ps;
    }
    while index < |pages|
      invariant 0 <= index <= |pages|
      invariant goal == Then(written, MergePages(pages[index..], index + 1, overlays))
    {
      var page := pages[index];
      MergeStep(written, pages, index, overlays);
      var overlay := DrawTextOverlay(page, fields, data, index + 1, tk);
      assert overlay == overlays(index + 1, page.height);
      if overlay.Failure? {
        return Failure(overlay.error);
      }
      written := written + [Merge(page, overlay.value)];
      index := index + 1;
    }
    assert written + [] == written;
    r := Success(written);
  }

  /** A field mapped to a page number outside 1..n is drawn on none of the n pages. */
  lemma FieldPastLastPage(fields: seq<TemplateField>, data: map<string, Value>, pages: seq<Page>, f: TemplateField, q: int)
    requires OnPage(f, q) && !(1 <= q <= |pages|)
    ensures forall p :: 1 <= p <= |pages| ==> f !in Select(fields, data, p)
  {
    forall p | 1 <= p <= |pages|
      ensures f !in Select(fields, data, p)
    {
      SelectMembers(fields, data, p);
      if f in Select(fields, data, p) {
        EqualsIntUnique(Get(MappingOf(f), "page", SNum(1.0)), q, p);
      }
    }
  }

  // ----- Blank document -----

  /** The blank renderer lists a field when its value is truthy. */
  predicate Listed(f: TemplateField, data: map<string, Value>) {
    Truthy(Lookup(data, f.key))
  }

  /** The listed fields, in order. */
  function ListedFields(fields: seq<TemplateField>, data: map<string, Value>): (listed: seq<TemplateField>)
    ensures |listed| <= |fields|
    ensures forall g :: g in listed <==> g in fields && Listed(g, data)
  {
    if fields == [] then []
    else
      var last := fields[|fields| - 1];
      assert fields == fields[..|fields| - 1] + [last];
      ListedFields(fields[..|fields| - 1], data) + (if Listed(last, data) then [last] else [])
  }

  /** The k-th listed line: "caption: value" at the left margin, 20 points below the previous one. */
  function BlankLine(f: TemplateField, data: map<string, Value>, k: nat): Draw {
    Draw(72.0, 800.0 - 20.0 * k as real, f.caption + ": " + PyStr(Lookup(data, f.key)), InitialFont, InitialFontSize)
  }

  function BlankDraws(fields: seq<TemplateField>, data: map<string, Value>): seq<Draw> {
    var listed := ListedFields(fields, data);
    seq(|listed|, k requires 0 <= k < |listed| => BlankLine(listed[k], data, k))
  }

  /**
   * The blank page has one line per listed field, in the order of the fields, at the left
   * margin and 20 points apart from the top, each reading "caption: value".
   */
  lemma {:induction false} BlankLayout(fields: seq<TemplateField>, data: map<string, Value>)
    ensures var ds, listed := BlankDraws(fields, data), ListedFields(fields, data);
      && |ds| == |listed|
      && forall k :: 0 <= k < |ds| ==>
        && ds[k].x == 72.0 && ds[k].y == 800.0 - 20.0 * k as real
        && ds[k].text == listed[k].caption + ": " + PyStr(Lookup(data, listed[k].key))
        && ds[k].font == InitialFont && ds[k].size == InitialFontSize
  {
  }

  /** One more field: its line is added below the others when it is listed. */
  lemma {:induction false} BlankDrawsStep(fields: seq<TemplateField>, data: map<string, Value>, i: nat)
    requires i < |fields|
    ensures var before := BlankDraws(fields[..i], data);
      BlankDraws(fields[..i + 1], data)
      == before + (if Listed(fields[i], data) then [BlankLine(fields[i], data, |before|)] else [])
  {
    assert fields[..i + 1][..i] == fields[..i];
    var listed := ListedFields(fields[..i], data);
    var listed' := ListedFields(fields[..i + 1], data);
    assert listed' == listed + (if Listed(fields[i], data) then [fields[i]] else []);
  }

  /** `render_blank`: one page holding the listed lines, drawn in the canvas's initial font. */
  method RenderBlank(data: map<string, Value>, fields: seq<TemplateField>) returns (doc: seq<seq<Draw>>)
    ensures doc == [BlankDraws(fields, data)]
  {
    var c := new Canvas(A4Width, A4Height);
    var y := 800;
    for i := 0 to |fields|
      invariant c.pages == [] && c.font == InitialFont && c.fontSize == InitialFontSize
      invariant c.current == BlankDraws(fields[..i], data)
      invariant y == 800 - 20 * |c.current|
    {
      BlankDrawsStep(fields, data, i);
      var f := fields[i];
      var value := Lookup(data, f.key);
      if Truthy(value) {
        c.DrawString(72.0, y as real, f.caption + ": " + PyStr(value));
        y := y - 20;
      }
    }
    assert fields[..|fields|] == fields;
    doc := c.Saved();
  }

  // ----- Spreadsheet template -----

  /** `str(path).lower().endswith(".xls")`. */
  predicate HasXlsSuffix(path: string) {
    |path| >= 4 && path[|path| - 4] == '.' && path[|path| - 3] in {'x', 'X'}
    && path[|path| - 2] in {'l', 'L'} && path[|path| - 1] in {'s', 'S'}
  }

  /** `create_sheet(title)` on a workbook value. */
  function AddSheet(b: WfBook, title: string): (r: WfBook)
    requires ValidTitle(title) && title !in Titles(b.sheets)
    ensures r.sheets == b.sheets + [Sheet(title, map[])] && r.active == b.active
  {
    var sheets := b.sheets + [Sheet(title, map[])];
    assert Titles(sheets) == Titles(b.sheets) + [title];
    Book(sheets, b.active)
  }

  /**
   * The legacy sheet names copied into a fresh workbook: each name not present yet becomes a new
   * empty sheet; the first name the workbook refuses as a title ends the copying.
   */
  function Import(b: WfBook, names: seq<string>): WfBook
    decreases |names|
  {
    if names == [] then b
    else if names[0] in Titles(b.sheets) then Import(b, names[1..])
    else if !ValidTitle(names[0]) then b
    else Import(AddSheet(b, names[0]), names[1..])
  }

  /** `r` is `b` with empty sheets named in `names` appended, and the same active sheet. */
  predicate Extends(b: Book, r: Book, names: seq<string>) {
    && r.active == b.active && |b.sheets| <= |r.sheets| && r.sheets[..|b.sheets|] == b.sheets
    && forall i :: |b.sheets| <= i < |r.sheets| ==> r.sheets[i].cells == map[] && r.sheets[i].title in names
  }

  /** Extending by one sheet, then by more, extends by both. */
  lemma {:induction false} ExtendsAfterAdd(b: Book, b1: Book, r: Book, names: seq<string>)
    requires names != [] && b1 == Book(b.sheets + [Sheet(names[0], map[])], b.active)
    requires Extends(b1, r, names[1..])
    ensures Extends(b, r, names)
  {
    assert r.sheets[..|b.sheets|] == r.sheets[..|b1.sheets|][..|b.sheets|];
    assert r.sheets[|b.sheets|] == r.sheets[..|b1.sheets|][|b.sheets|] == b1.sheets[|b.sheets|];
    forall i | |b.sheets| <= i < |r.sheets|
      ensures r.sheets[i].cells == map[] && r.sheets[i].title in names
    {
      if i > |b.sheets| {
        var n := r.sheets[i].title;
        var k :| 0 <= k < |names[1..]| && names[1..][k] == n;
        assert names[k + 1] == n;
      }
    }
  }

  /** Importing keeps the existing sheets and the active one, and adds only empty sheets named in `names`. */
  lemma {:induction false} ImportExtends(b: WfBook, names: seq<string>)
    ensures Extends(b, Import(b, names), names)
    decreases |names|
  {
    if names == [] {
      assert b.sheets[..|b.sheets|] == b.sheets;
    } else if names[0] in Titles(b.sheets) {
      ImportExtends(b, names[1..]);
      var r := Import(b, names);
      forall i | |b.sheets| <= i < |r.sheets|
        ensures r.sheets[i].title in names
      {
        var k :| 0 <= k < |names[1..]| && names[1..][k] == r.sheets[i].title;
        assert names[k + 1] == r.sheets[i].title;
      }
    } else if ValidTitle(names[0]) {
      var b1 := AddSheet(b, names[0]);
      ImportExtends(b1, names[1..]);
      ExtendsAfterAdd(b, b1, Import(b1, names[1..]), names);
    } else {
      assert b.sheets[..|b.sheets|] == b.sheets;
    }
  }

  /** When every legacy name is an acceptable title, every one of them ends up a sheet. */
  lemma {:induction false} ImportCovers(b: WfBook, names: seq<string>)
    requires forall n :: n in names ==> ValidTitle(n)
    ensures forall n :: n in names ==> n in Titles(Import(b, names).sheets)
    decreases |names|
  {
    if names != [] {
      var b1 := if names[0] in Titles(b.sheets) then b else AddSheet(b, names[0]);
      ImportCovers(b1, names[1..]);
      ImportExtends(b1, names[1..]);
      var r := Import(b1, names[1..]);
      assert r == Import(b, names);
      assert names[0] in Titles(b1.sheets);
      var i := IndexOf(Titles(b1.sheets), names[0]);
      assert r.sheets[i] == r.sheets[..|b1.sheets|][i] == b1.sheets[i];
      assert Titles(r.sheets)[i] == names[0];
      assert forall n :: n in names ==> n == names[0] || n in names[1..];
    }
  }

  /**
   * The workbook `render_xlsx` starts from: the template when it loads, otherwise a fresh
   * workbook, extended with the sheet names of a legacy .xls template when that one opens.
   */
  function OpenTemplate(path: Option<string>, files: Files): WfBook {
    if path.Some? && path.value != [] && files.loadXlsx(path.value).Some? then files.loadXlsx(path.value).value
    else if path.Some? && path.value != [] && HasXlsSuffix(path.value) && files.xlsSheetNames(path.value).Some? then
      Import(FreshBook, files.xlsSheetNames(path.value).value)
    else FreshBook
  }

  /** What one field does to the workbook. */
  datatype CellWrite = Skip | Write(sheet: nat, at: Coord, text: string) | Reject(error: RenderError)

  /**
   * A field with a value and a truthy `cell` writes `str(value)`, as the cell binds it, into that
   * cell on the sheet its mapping names (by default the first sheet), or on the active sheet when
   * no sheet has that name. The cell reference is read first, then the text is bound.
   */
  function Target(titles: seq<string>, active: nat, f: TemplateField, data: map<string, Value>, tk: Toolkit): (w: CellWrite)
    requires |titles| > 0 && active < |titles|
    ensures w.Write? ==> w.sheet < |titles|
  {
    var value := Lookup(data, f.key);
    var m := MappingOf(f);
    var name := Get(m, "sheet", SStr(titles[0]));
    var cell := Get(m, "cell", SNull);
    if value == Null || !SettingTruthy(cell) then Skip
    else if !cell.SStr? || tk.cellAddress(cell.text).None? then Reject(BadCell(cell))
    else if BindText(PyStr(value)).None? then Reject(IllegalText(PyStr(value)))
    else
      var sheet := if name.SStr? && name.text in titles then IndexOf(titles, name.text) else active;
      Write(sheet, tk.cellAddress(cell.text).value, BindText(PyStr(value)).value)
  }

  /** Which sheet a write goes to. */
  lemma TargetSheet(titles: seq<string>, active: nat, f: TemplateField, data: map<string, Value>, tk: Toolkit)
    requires |titles| > 0 && active < |titles|
    requires Target(titles, active, f, data, tk).Write?
    ensures var w := Target(titles, active, f, data, tk);
      && ("sheet" !in MappingOf(f) ==> titles[w.sheet] == titles[0])
      && (Get(MappingOf(f), "sheet", SNull).SStr? && Get(MappingOf(f), "sheet", SNull).text in titles ==>
            titles[w.sheet] == Get(MappingOf(f), "sheet", SNull).text)
      && ("sheet" in MappingOf(f) && !(MappingOf(f)["sheet"].SStr? && MappingOf(f)["sheet"].text in titles) ==> w.sheet == active)
      && Some(w.text) == BindText(PyStr(Lookup(data, f.key)))
  {
  }

  /**
   * A field is written iff its value is not None, its cell is a truthy, readable reference and
   * the cell takes its text; a bad reference is rejected before the text is looked at.
   */
  lemma TargetWritten(titles: seq<string>, active: nat, f: TemplateField, data: map<string, Value>, tk: Toolkit)
    requires |titles| > 0 && active < |titles|
    ensures var cell := Get(MappingOf(f), "cell", SNull);
      Target(titles, active, f, data, tk).Write?
      <==> (Lookup(data, f.key) != Null && cell.SStr? && cell.text != [] && tk.cellAddress(cell.text).Some?
            && BindText(PyStr(Lookup(data, f.key))).Some?)
    ensures var cell := Get(MappingOf(f), "cell", SNull);
      Target(titles, active, f, data, tk) == Reject(BadCell(cell))
      <==> (Lookup(data, f.key) != Null && SettingTruthy(cell) && (!cell.SStr? || tk.cellAddress(cell.text).None?))
    ensures var cell := Get(MappingOf(f), "cell", SNull);
      Target(titles, active, f, data, tk) == Reject(IllegalText(PyStr(Lookup(data, f.key))))
      <==> (Lookup(data, f.key) != Null && cell.SStr? && cell.text != [] && tk.cellAddress(cell.text).Some?
            && BindText(PyStr(Lookup(data, f.key))).None?)
  {
  }

  /** `sheet[cell] = text` on a workbook value. */
  function WriteCell(b: WfBook, s: nat, at: Coord, text: string): (r: WfBook)
    requires s < |b.sheets|
    ensures Titles(r.sheets) == Titles(b.sheets) && r.active == b.active
    ensures forall t: nat, c :: t < |b.sheets| ==> CellAt(r, t, c) == if t == s && c == at then Str(text) else CellAt(b, t, c)
  {
    var sheet := b.sheets[s];
    var sheets := b.sheets[s := Sheet(sheet.title, sheet.cells[at := Str(text)])];
    assert Titles(sheets) == Titles(b.sheets);
    Book(sheets, b.active)
  }

  /**
   * What each field does, against the titles and active sheet the workbook has before the
   * writes (writing cells changes neither).
   */
  function Targets(titles: seq<string>, active: nat, fields: seq<TemplateField>, data: map<string, Value>, tk: Toolkit)
    : (ws: seq<CellWrite>)
    requires |titles| > 0 && active < |titles|
    ensures |ws| == |fields| && InRange(ws, |titles|)
    decreases |fields|
  {
    if fields == [] then []
    else
      var rest := Targets(titles, active, fields[1..], data, tk);
      var ws := [Target(titles, active, fields[0], data, tk)] + rest;
      assert forall j :: 1 <= j < |ws| ==> ws[j] == rest[j - 1];
      ws
  }

  /** Every write of `ws` goes to a sheet of a workbook with `n` sheets. */
  predicate InRange(ws: seq<CellWrite>, n: nat) {
    forall j :: 0 <= j < |ws| && ws[j].Write? ==> ws[j].sheet < n
  }

  /** The j-th planned write is what the j-th field does. */
  lemma {:induction false} TargetsAt(titles: seq<string>, active: nat, fields: seq<TemplateField>, data: map<string, Value>, tk: Toolkit, j: nat)
    requires |titles| > 0 && active < |titles| && j < |fields|
    ensures j < |Targets(titles, active, fields, data, tk)|
    ensures Targets(titles, active, fields, data, tk)[j] == Target(titles, active, fields[j], data, tk)
    decreases j
  {
    if j > 0 {
      TargetsAt(titles, active, fields[1..], data, tk, j - 1);
      assert fields[1..][j - 1] == fields[j];
    }
  }

  /** The writes performed in order; the first rejection fails them all. */
  function Perform(b: WfBook, ws: seq<CellWrite>): (r: Result<WfBook, RenderError>)
    requires InRange(ws, |b.sheets|)
    ensures r.Success? ==> Titles(r.value.sheets) == Titles(b.sheets) && r.value.active == b.active
    decreases |ws|
  {
    if ws == [] then Success(b)
    else
      assert InRange(ws[1..], |b.sheets|) by {
        assert forall j :: 0 <= j < |ws[1..]| ==> ws[1..][j] == ws[j + 1];
      }
      match ws[0]
      case Skip => Perform(b, ws[1..])
      case Reject(error) => Failure(error)
      case Write(s, at, text) => Perform(WriteCell(b, s, at, text), ws[1..])
  }

  /** The writes of all fields in order; a rejected cell reference or text fails the whole render. */
  function ApplyWrites(b: WfBook, fields: seq<TemplateField>, data: map<string, Value>, tk: Toolkit): (r: Result<WfBook, RenderError>)
    ensures r.Success? ==> Titles(r.value.sheets) == Titles(b.sheets) && r.value.active == b.active
  {
    var ws := Targets(Titles(b.sheets), b.active, fields, data, tk);
    assert InRange(ws, |b.sheets|);
    Perform(b, ws)
  }

  /** `render_xlsx`. */
  function RenderXlsxSpec(path: Option<string>, fields: seq<TemplateField>, data: map<string, Value>, files: Files, tk: Toolkit)
    : Result<WfBook, RenderError>
  {
    ApplyWrites(OpenTemplate(path, files), fields, data, tk)
  }

  predicate WritesAt(w: CellWrite, s: nat, at: Coord) {
    w.Write? && w.sheet == s && w.at == at
  }

  /** The writes fail exactly when one of them is a rejection. */
  lemma {:induction false} PerformFails(b: WfBook, ws: seq<CellWrite>)
    requires InRange(ws, |b.sheets|)
    ensures Perform(b, ws).Failure? <==> exists j :: 0 <= j < |ws| && ws[j].Reject?
    decreases |ws|
  {
    if ws != [] {
      assert ws[0..] == ws;
      PerformStep(b, ws, 0);
      var b1 := if ws[0].Write? then WriteCell(b, ws[0].sheet, ws[0].at, ws[0].text) else b;
      PerformFails(b1, ws[1..]);
      assert forall j :: 1 <= j < |ws| ==> ws[1..][j - 1] == ws[j];
    }
  }

  /** The writes fail exactly when some field's cell reference or text is rejected. */
  lemma {:induction false} ApplyWritesFails(b: WfBook, fields: seq<TemplateField>, data: map<string, Value>, tk: Toolkit)
    ensures ApplyWrites(b, fields, data, tk).Failure?
      <==> exists j :: 0 <= j < |fields| && Target(Titles(b.sheets), b.active, fields[j], data, tk).Reject?
  {
    var titles := Titles(b.sheets);
    var ws := Targets(titles, b.active, fields, data, tk);
    PerformFails(b, ws);
    forall j | 0 <= j < |fields|
      ensures ws[j] == Target(titles, b.active, fields[j], data, tk)
    {
      TargetsAt(titles, b.active, fields, data, tk, j);
    }
  }

  /** A cell none of the writes touches keeps its value. */
  lemma {:induction false} PerformUntouched(b: WfBook, ws: seq<CellWrite>, s: nat, at: Coord)
    requires InRange(ws, |b.sheets|) && Perform(b, ws).Success? && s < |b.sheets|
    requires forall j :: 0 <= j < |ws| ==> !WritesAt(ws[j], s, at)
    ensures s < |Perform(b, ws).value.sheets|
    ensures CellAt(Perform(b, ws).value, s, at) == CellAt(b, s, at)
    decreases |ws|
  {
    var r := Perform(b, ws).value;
    assert |r.sheets| == |Titles(r.sheets)| == |Titles(b.sheets)| == |b.sheets|;
    if ws != [] {
      assert ws[0..] == ws;
      PerformStep(b, ws, 0);
      var b1 := if ws[0].Write? then WriteCell(b, ws[0].sheet, ws[0].at, ws[0].text) else b;
      assert !WritesAt(ws[0], s, at);
      assert forall j :: 0 <= j < |ws[1..]| ==> ws[1..][j] == ws[j + 1];
      PerformUntouched(b1, ws[1..], s, at);
    }
  }

  /** A cell last written by write j holds that write's text. */
  lemma {:induction false} PerformLast(b: WfBook, ws: seq<CellWrite>, s: nat, at: Coord, j: nat)
    requires InRange(ws, |b.sheets|) && Perform(b, ws).Success? && s < |b.sheets|
    requires j < |ws| && WritesAt(ws[j], s, at)
    requires forall k :: j < k < |ws| ==> !WritesAt(ws[k], s, at)
    ensures s < |Perform(b, ws).value.sheets|
    ensures CellAt(Perform(b, ws).value, s, at) == Str(ws[j].text)
    decreases j
  {
    var r := Perform(b, ws).value;
    assert |r.sheets| == |Titles(r.sheets)| == |Titles(b.sheets)| == |b.sheets|;
    assert ws[0..] == ws;
    PerformStep(b, ws, 0);
    var b1 := if ws[0].Write? then WriteCell(b, ws[0].sheet, ws[0].at, ws[0].text) else b;
    assert forall k :: 0 <= k < |ws[1..]| ==> ws[1..][k] == ws[k + 1];
    if j == 0 {
      assert CellAt(b1, s, at) == Str(ws[0].text);
      PerformUntouched(b1, ws[1..], s, at);
    } else {
      PerformLast(b1, ws[1..], s, at, j - 1);
    }
  }

  /** After writes `ws`, a cell holds the text of the last write to it, or its old value when none writes to it. */
  lemma {:induction false} PerformCells(b: WfBook, ws: seq<CellWrite>, s: nat, at: Coord)
    requires InRange(ws, |b.sheets|) && Perform(b, ws).Success? && s < |b.sheets|
    ensures s < |Perform(b, ws).value.sheets|
    ensures (forall j :: 0 <= j < |ws| ==> !WritesAt(ws[j], s, at)) ==> CellAt(Perform(b, ws).value, s, at) == CellAt(b, s, at)
    ensures forall j ::
      (0 <= j < |ws| && WritesAt(ws[j], s, at) && (forall k :: j < k < |ws| ==> !WritesAt(ws[k], s, at)))
      ==> CellAt(Perform(b, ws).value, s, at) == Str(ws[j].text)
  {
    var r := Perform(b, ws).value;
    assert |r.sheets| == |Titles(r.sheets)| == |Titles(b.sheets)| == |b.sheets|;
    if forall j :: 0 <= j < |ws| ==> !WritesAt(ws[j], s, at) {
      PerformUntouched(b, ws, s, at);
    }
    forall j | 0 <= j < |ws| && WritesAt(ws[j], s, at) && (forall k :: j < k < |ws| ==> !WritesAt(ws[k], s, at))
      ensures CellAt(r, s, at) == Str(ws[j].text)
    {
      PerformLast(b, ws, s, at, j);
    }
  }

  /**
   * After the writes, a cell holds the text of the last field written to it; a cell no field
   * writes to keeps its value. `ws` are the planned writes, `ws[j]` being what field j does (`TargetsAt`).
   */
  lemma {:induction false} ApplyWritesCells(b: WfBook, fields: seq<TemplateField>, data: map<string, Value>, tk: Toolkit, s: nat, at: Coord, ws: seq<CellWrite>)
    requires ws == Targets(Titles(b.sheets), b.active, fields, data, tk)
    requires ApplyWrites(b, fields, data, tk).Success? && s < |b.sheets|
    ensures s < |ApplyWrites(b, fields, data, tk).value.sheets|
    ensures (forall j :: 0 <= j < |ws| ==> !WritesAt(ws[j], s, at))
      ==> CellAt(ApplyWrites(b, fields, data, tk).value, s, at) == CellAt(b, s, at)
    ensures forall j ::
        (0 <= j < |ws| && WritesAt(ws[j], s, at) && (forall k :: j < k < |ws| ==> !WritesAt(ws[k], s, at)))
        ==> CellAt(ApplyWrites(b, fields, data, tk).value, s, at) == Str(ws[j].text)
  {
    PerformCells(b, ws, s, at);
  }

  /** Opening the workbook at the start of `render_xlsx`. */
  method OpenWorkbook(path: Option<string>, files: Files) returns (workbook: Workbook)
    ensures fresh(workbook) && workbook.Valid() && workbook.Snapshot() == OpenTemplate(path, files)
  {
    var loaded: Option<WfBook> := None;
    if path.Some? && path.value != [] {
      loaded := files.loadXlsx(path.value);
    }
    if loaded.Some? {
      workbook := new Workbook.Load(loaded.value);
      return;
    }
    workbook := new Workbook();
    if path.Some? && path.value != [] && HasXlsSuffix(path.value) {
      var legacy := files.xlsSheetNames(path.value);
      if legacy.Some? {
        ImportSheets(workbook, legacy.value);
      }
    }
  }

  /** Importing from index i: the name at i skipped, ending the import, or added, then the rest. */
  lemma ImportStep(b: WfBook, names: seq<string>, i: nat)
    requires i < |names|
    ensures names[i] in Titles(b.sheets) ==> Import(b, names[i..]) == Import(b, names[i + 1..])
    ensures names[i] !in Titles(b.sheets) && !ValidTitle(names[i]) ==> Import(b, names[i..]) == b
    ensures names[i] !in Titles(b.sheets) && ValidTitle(names[i]) ==>
      Import(b, names[i..]) == Import(AddSheet(b, names[i]), names[i + 1..])
  {
    assert names[i..][0] == names[i] && names[i..][1..] == names[i + 1..];
  }

  /** The loop over the legacy sheet names. */
  method ImportSheets(workbook: Workbook, names: seq<string>)
    requires workbook.Valid()
    modifies workbook
    ensures workbook.Valid() && workbook.Snapshot() == Import(old(workbook.Snapshot()), names)
  {
    ghost var goal := Import(workbook.Snapshot(), names);
    var i := 0;
    assert names[0..] == names;
    while i < |names|
      invariant 0 <= i <= |names| && workbook.Valid()
      invariant goal == Import(workbook.Snapshot(), names[i..])
    {
      ImportStep(workbook.Snapshot(), names, i);
      var name := names[i];
      if name !in Titles(workbook.sheets) {
        if !ValidTitle(name) {
          return;
        }
        workbook.CreateSheet(name);
      }
      i := i + 1;
    }
  }

  /** Performing the writes from index i: the write at i, then the rest. */
  lemma PerformStep(b: WfBook, ws: seq<CellWrite>, i: nat)
    requires i < |ws| && InRange(ws[i..], |b.sheets|)
    ensures InRange(ws[i + 1..], |b.sheets|)
    ensures ws[i].Write? ==> ws[i].sheet < |b.sheets|
    ensures ws[i].Skip? ==> Perform(b, ws[i..]) == Perform(b, ws[i + 1..])
    ensures ws[i].Reject? ==> Perform(b, ws[i..]) == Failure(ws[i].error)
    ensures ws[i].Write? ==> Perform(b, ws[i..]) == Perform(WriteCell(b, ws[i].sheet, ws[i].at, ws[i].text), ws[i + 1..])
  {
    assert ws[i..][0] == ws[i] && ws[i..][1..] == ws[i + 1..];
  }

  /** One field's turn in the loop of `render_xlsx`: its cell written, or its cell reference or text rejected. */
  method WriteField(workbook: Workbook, f: TemplateField, data: map<string, Value>, tk: Toolkit) returns (rejected: Option<RenderError>)
    requires workbook.Valid()
    modifies workbook
    ensures workbook.Valid()
    ensures var w := Target(Titles(old(workbook.sheets)), old(workbook.active), f, data, tk);
      && (w.Skip? ==> rejected == None && workbook.Snapshot() == old(workbook.Snapshot()))
      && (w.Reject? ==> rejected == Some(w.error) && workbook.Snapshot() == old(workbook.Snapshot()))
      && (w.Write? ==>
            && rejected == None && w.sheet < |old(workbook.sheets)|
            && workbook.Snapshot() == WriteCell(old(workbook.Snapshot()), w.sheet, w.at, w.text))
  {
    var titles := Titles(workbook.sheets);
    var value := Lookup(data, f.key);
    var m := MappingOf(f);
    var sheetName := Get(m, "sheet", SStr(titles[0]));
    var cell := Get(m, "cell", SNull);
    if value != Null && SettingTruthy(cell) {
      if !cell.SStr? || tk.cellAddress(cell.text).None? {
        return Some(BadCell(cell));
      }
      var text := BindText(PyStr(value));
      if text.None? {
        return Some(IllegalText(PyStr(value)));
      }
      var index := if sheetName.SStr? && sheetName.text in titles then IndexOf(titles, sheetName.text) else workbook.active;
      workbook.SetCell(index, tk.cellAddress(cell.text).value, text.value);
    }
    rejected := None;
  }

  /** The loop step of `render_xlsx` against the planned writes `ws`, of which `ws[i]` is this field's. */
  method WriteNext(workbook: Workbook, fields: seq<TemplateField>, data: map<string, Value>, tk: Toolkit, ghost ws: seq<CellWrite>, i: nat)
    returns (rejected: Option<RenderError>)
    requires workbook.Valid() && i < |fields|
    requires ws == Targets(Titles(workbook.sheets), workbook.active, fields, data, tk) && InRange(ws[i..], |workbook.sheets|)
    modifies workbook
    ensures workbook.Valid()
    ensures Titles(workbook.sheets) == Titles(old(workbook.sheets)) && workbook.active == old(workbook.active)
    ensures rejected.Some? ==> Perform(old(workbook.Snapshot()), ws[i..]) == Failure(rejected.value)
    ensures rejected.None? ==>
      && InRange(ws[i + 1..], |workbook.sheets|)
      && Perform(old(workbook.Snapshot()), ws[i..]) == Perform(workbook.Snapshot(), ws[i + 1..])
  {
    TargetsAt(Titles(workbook.sheets), workbook.active, fields, data, tk, i);
    PerformStep(workbook.Snapshot(), ws, i);
    rejected := WriteField(workbook, fields[i], data, tk);
  }

  method RenderXlsx(path: Option<string>, fields: seq<TemplateField>, data: map<string, Value>, files: Files, tk: Toolkit)
    returns (r: Result<WfBook, RenderError>)
    ensures r == RenderXlsxSpec(path, fields, data, files, tk)
  {
    var workbook := OpenWorkbook(path, files);
    ghost var start := workbook.Snapshot();
    ghost var ws := Targets(Titles(start.sheets), start.active, fields, data, tk);
    ghost var goal := Perform(start, ws);
    assert goal == ApplyWrites(start, fields, data, tk) && goal == Perform(start, ws[0..]) by {
      assert ws[0..] == ws;
    }
    var i := 0;
    while i < |fields|
      invariant 0 <= i <= |fields| && workbook.Valid()
      invariant Titles(workbook.sheets) == Titles(start.sheets) && workbook.active == start.active
      invariant InRange(ws[i..], |workbook.sheets|)
      invariant goal == Perform(workbook.Snapshot(), ws[i..])
    {
      var rejected := WriteNext(workbook, fields, data, tk, ws, i);
      if rejected.Some? {
        return Failure(rejected.value);
      }
      i := i + 1;
    }
    r := Success(workbook.Snapshot());
  }
}
