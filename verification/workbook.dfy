/**
 * Spreadsheet workbooks (openpyxl's `Workbook`): an ordered list of named sheets, each a map
 * from cell coordinates to values, and the index of the active sheet.
 */
module Workbook {
  import opened Wrappers
  import opened Values

  datatype Coord = Coord(column: nat, row: nat)

  datatype Sheet = Sheet(title: string, cells: map<Coord, Value>)

  datatype Book = Book(sheets: seq<Sheet>, active: nat)

  function Titles(sheets: seq<Sheet>): (ts: seq<string>)
    ensures |ts| == |sheets|
    ensures forall i :: 0 <= i < |sheets| ==> ts[i] == sheets[i].title
  {
    if sheets == [] then [] else Titles(sheets[..|sheets| - 1]) + [sheets[|sheets| - 1].title]
  }

  predicate Distinct(ts: seq<string>) {
    forall i, j :: 0 <= i < j < |ts| ==> ts[i] != ts[j]
  }

  /** A workbook openpyxl can hold: at least one sheet, distinct titles, an active sheet that exists. */
  predicate WellFormed(b: Book) {
    |b.sheets| > 0 && b.active < |b.sheets| && Distinct(Titles(b.sheets))
  }

  type WfBook = b: Book | WellFormed(b) witness Book([Sheet("Sheet", map[])], 0)

  /** `Workbook()`: one empty sheet titled "Sheet", which is active. */
  const FreshBook: WfBook := Book([Sheet("Sheet", map[])], 0)

  /** A title openpyxl accepts for a new sheet: non-empty, without any of \ * ? : / [ ]. */
  predicate ValidTitle(t: string) {
    t != [] && forall i :: 0 <= i < |t| ==> t[i] !in {'\\', '*', '?', ':', '/', '[', ']'}
  }

  /** The position of `t` in `ts`. */
  function IndexOf(ts: seq<string>, t: string): (k: nat)
    requires t in ts
    ensures k < |ts| && ts[k] == t
    ensures forall j :: 0 <= j < k ==> ts[j] != t
  {
    if ts[0] == t then 0 else 1 + IndexOf(ts[1..], t)
  }

  /** The most characters a cell holds. */
  const MaxCellText := 32767

  /** The control characters a cell refuses: U+0000 to U+0008, U+000B, U+000C and U+000E to U+001F. */
  predicate IllegalCellChar(c: char) {
    ('\U{0}' <= c <= '\U{8}') || c == '\U{b}' || c == '\U{c}' || ('\U{e}' <= c <= '\U{1f}')
  }

  /**
   * How a cell takes a string (openpyxl's `check_string`): the text is cut to its first
   * 32,767 characters, and an illegal control character in what is kept raises
   * (IllegalCharacterError, here None).
   */
  function BindText(text: string): (r: Option<string>)
    ensures r.None? <==> exists i :: 0 <= i < |text| && i < MaxCellText && IllegalCellChar(text[i])
    ensures r.Some? ==> |r.value| <= MaxCellText && |r.value| <= |text| && r.value == text[..|r.value|]
    ensures r.Some? && |text| <= MaxCellText ==> r.value == text
    ensures r.Some? && |text| > MaxCellText ==> |r.value| == MaxCellText
  {
    var kept := if |text| <= MaxCellText then text else text[..MaxCellText];
    if exists i :: 0 <= i < |kept| && IllegalCellChar(kept[i]) then None else Some(kept)
  }

  /** The value at `at` on sheet `s`, None for an empty cell. */
  function CellAt(b: Book, s: nat, at: Coord): Value
    requires s < |b.sheets|
  {
    if at in b.sheets[s].cells then b.sheets[s].cells[at] else Null
  }

  class Workbook {
    var sheets: seq<Sheet>
    var active: nat

    ghost predicate Valid()
      reads this
    {
      WellFormed(Book(sheets, active))
    }

    function Snapshot(): WfBook
      reads this
      requires Valid()
    {
      Book(sheets, active)
    }

    /** `Workbook()`. */
    constructor ()
      ensures Valid() && Snapshot() == FreshBook
    {
      sheets := [Sheet("Sheet", map[])];
      active := 0;
    }

    /** A workbook read from a file by `load_workbook`. */
    constructor Load(b: WfBook)
      ensures Valid() && Snapshot() == b
    {
      sheets := b.sheets;
      active := b.active;
    }

    /** `create_sheet(title=title)`: appends an empty sheet. */
    method CreateSheet(title: string)
      requires Valid() && ValidTitle(title) && title !in Titles(sheets)
      modifies this
      ensures Valid()
      ensures sheets == old(sheets) + [Sheet(title, map[])] && active == old(active)
    {
      assert Titles(sheets + [Sheet(title, map[])]) == Titles(sheets) + [title];
      sheets := sheets + [Sheet(title, map[])];
    }

    /** `sheet[cell] = text` on the sheet at `index`. */
    method SetCell(index: nat, at: Coord, text: string)
      requires Valid() && index < |sheets|
      modifies this
      ensures Valid() && active == old(active)
      ensures sheets == old(sheets)[index := Sheet(old(sheets)[index].title, old(sheets)[index].cells[at := Str(text)])]
    {
      var s := sheets[index];
      sheets := sheets[index := Sheet(s.title, s.cells[at := Str(text)])];
      assert Titles(sheets) == Titles(old(sheets));
    }
  }
}
