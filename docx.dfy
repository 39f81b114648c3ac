/** The part of a word-processing document the report writes: a sequence of
    blocks, grown one call at a time, and tables whose cells are filled in
    place. */
module Docx {

  /** The style python-docx gives a paragraph added without one. */
  const NormalStyle: string := "Normal"

  /** `add_heading(t, level)` in python-docx writes the same paragraph as
      `add_paragraph(t, style = "Heading <level>")`. The two are kept apart
      only as a record of which call made the paragraph: a `Para` with a
      heading style in the front matter is a heading to a reader, but not a
      `Heading` block. */
  datatype Block =
    | Title(text: string)                                 // a "Title" paragraph with 18 pt runs
    | Para(text: string, style: string)                   // `add_paragraph(text, style)`
    | Heading(text: string, level: nat)                   // `add_heading(text, level)`
    | Table(header: seq<string>, rows: seq<seq<string>>)  // a grid table: header row, then data rows

  /** An empty paragraph, the spacer after the front matter and each section. */
  function Blank(): Block
  {
    Para("", NormalStyle)
  }

  /** A row of `n` empty cells, as a new table row starts. */
  function EmptyCells(n: nat): seq<string>
  {
    seq(n, _ => "")
  }

  /** A document under construction. */
  class Document {
    var blocks: seq<Block>

    constructor ()
      ensures blocks == []
    {
      blocks := [];
    }

    method Append(b: Block)
      modifies this
      ensures blocks == old(blocks) + [b]
    {
      blocks := blocks + [b];
    }

    method AddParagraph(text: string, style: string)
      modifies this
      ensures blocks == old(blocks) + [Para(text, style)]
    {
      Append(Para(text, style));
    }

    method AddHeading(text: string, level: nat)
      modifies this
      ensures blocks == old(blocks) + [Heading(text, level)]
    {
      Append(Heading(text, level));
    }

    method AddTable(header: seq<string>, rows: seq<seq<string>>)
      modifies this
      ensures blocks == old(blocks) + [Table(header, rows)]
    {
      Append(Table(header, rows));
    }
  }

  /** A table with a fixed number of columns; `cells` holds its rows. */
  class GridTable {
    const cols: nat
    var cells: seq<seq<string>>

    ghost predicate Valid()
      reads this
    {
      forall r :: 0 <= r < |cells| ==> |cells[r]| == cols
    }

    /** `add_table(rows, cols)`: `rows` rows of empty cells. */
    constructor (rows: nat, cols: nat)
      ensures Valid() && this.cols == cols
      ensures |cells| == rows && forall r :: 0 <= r < rows ==> cells[r] == EmptyCells(cols)
    {
      this.cols := cols;
      cells := seq(rows, _ => EmptyCells(cols));
    }

    /** `add_row()`: appends a row of empty cells and gives its index. */
    method AddRow() returns (r: nat)
      requires Valid()
      modifies this
      ensures Valid() && r == |old(cells)|
      ensures cells == old(cells) + [EmptyCells(cols)]
    {
      r := |cells|;
      cells := cells + [EmptyCells(cols)];
    }

    /** `rows[r].cells[c].text = text`. */
    method SetCell(r: nat, c: nat, text: string)
      requires Valid() && r < |cells| && c < cols
      modifies this
      ensures Valid()
      ensures cells == old(cells)[r := old(cells)[r][c := text]]
    {
      cells := cells[r := cells[r][c := text]];
    }
  }
}
