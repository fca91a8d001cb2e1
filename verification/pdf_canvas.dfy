/**
 * PDF documents as pages of draw events, and the drawing canvas the renderers write on
 * (reportlab's `canvas.Canvas`): a page in progress, the finished pages, and the current font.
 */
module Pdf {

  /** One millimetre in PDF points. */
  const MM: real := 72.0 / 25.4
  /** The A4 page size, 210 mm by 297 mm. */
  const A4Width: real := 210.0 * MM
  const A4Height: real := 297.0 * MM

  /** The font a fresh canvas, and every page after `showPage`, starts with. */
  const InitialFont: string := "Helvetica"
  const InitialFontSize: real := 12.0

  /** The fonts a canvas can select by name without registering one: the 14 standard PDF fonts. */
  predicate StandardFont(name: string) {
    name in {"Courier", "Courier-Bold", "Courier-Oblique", "Courier-BoldOblique",
             "Helvetica", "Helvetica-Bold", "Helvetica-Oblique", "Helvetica-BoldOblique",
             "Times-Roman", "Times-Bold", "Times-Italic", "Times-BoldItalic",
             "Symbol", "ZapfDingbats"}
  }

  /** A `drawString(x, y, text)` in the font selected at that moment; y grows upwards from the page bottom. */
  datatype Draw = Draw(x: real, y: real, text: string, font: string, size: real)

  /** A page's content, bottom layer first: content read from a template file, or text drawn on a canvas. */
  datatype Layer = Original(content: nat) | Drawn(draws: seq<Draw>)

  datatype Page = Page(width: real, height: real, layers: seq<Layer>)

  /** The pages a canvas of the given size writes, one drawn layer each. */
  function AsPages(width: real, height: real, drawn: seq<seq<Draw>>): (pages: seq<Page>)
    ensures |pages| == |drawn|
    ensures forall i :: 0 <= i < |drawn| ==> pages[i] == Page(width, height, [Drawn(drawn[i])])
  {
    if drawn == [] then [] else AsPages(width, height, drawn[..|drawn| - 1]) + [Page(width, height, [Drawn(drawn[|drawn| - 1])])]
  }

  class Canvas {
    const width: real
    const height: real
    /** The pages closed by `showPage`, in order. */
    var pages: seq<seq<Draw>>
    /** The draws of the page in progress. */
    var current: seq<Draw>
    var font: string
    var fontSize: real

    constructor (width: real, height: real)
      ensures this.width == width && this.height == height
      ensures pages == [] && current == []
      ensures font == InitialFont && fontSize == InitialFontSize
    {
      this.width := width;
      this.height := height;
      pages := [];
      current := [];
      font := InitialFont;
      fontSize := InitialFontSize;
    }

    /** `setFont(name, size)`; an unknown font name makes the canvas raise, so callers check it first. */
    method SetFont(name: string, size: real)
      requires StandardFont(name)
      modifies this
      ensures pages == old(pages) && current == old(current)
      ensures font == name && fontSize == size
    {
      font := name;
      fontSize := size;
    }

    method DrawString(x: real, y: real, text: string)
      modifies this
      ensures pages == old(pages) && font == old(font) && fontSize == old(fontSize)
      ensures current == old(current) + [Draw(x, y, text, font, fontSize)]
    {
      current := current + [Draw(x, y, text, font, fontSize)];
    }

    /** `showPage()`: closes the page in progress; the next page starts in the initial font. */
    method ShowPage()
      modifies this
      ensures pages == old(pages) + [old(current)] && current == []
      ensures font == InitialFont && fontSize == InitialFontSize
    {
      pages := pages + [current];
      current := [];
      font := InitialFont;
      fontSize := InitialFontSize;
    }

    /** The pages `save()` writes: the page in progress is kept when it has draws or is the only page. */
    function Saved(): (doc: seq<seq<Draw>>)
      reads this
      ensures |doc| >= 1
    {
      if current != [] || pages == [] then pages + [current] else pages
    }
  }
}
