/** The report itself: the fixed front matter, one section per uploaded table
    in emission order, and the builder that writes them into a document
    (streamlit_app.py lines 33-87). */
module Report {
  import opened Wrappers
  import opened Ascii
  import opened Headings
  import opened Uploads
  import opened Ordering
  import opened Docx

  /** The values the form collects: term ("SPRING" or "MONSOON"), year,
      semester and section letter. */
  datatype Config = Config(term: string, year: string, semester: string, section: string)

  /** `"<Term> <year>"`, the term capitalised. */
  function TermLine(cfg: Config): string
  {
    Capitalize(cfg.term) + " " + cfg.year
  }

  /** The level-1 programme line of the front matter. */
  function ProgramLine(cfg: Config): string
  {
    "Program: Computer Science & Engineering (Semester " + cfg.semester + ": Section " + cfg.section + ")"
  }

  /** The level-2 line naming term, year, semester and section. */
  function ScheduleLine(cfg: Config): string
  {
    TermLine(cfg) + ", Semester " + cfg.semester + ": Section " + cfg.section
  }

  const Department: string := "Department of Computer Science & Engineering"
  const Institute: string := "Birla Institute of Technology, Mesra"
  const ReportTitle: string := "Faculty Feedback Action Taken Report"
  const FeedbackHeading: string := "Question Wise Feedback"

  /** The four title paragraphs that open the report. */
  function TitleBlocks(cfg: Config): seq<Block>
  {
    [Title(Department), Title(Institute), Title(ReportTitle), Title(TermLine(cfg))]
  }

  /** The programme, feedback and schedule lines with their spacers. */
  function PreambleBlocks(cfg: Config): seq<Block>
  {
    [ Blank(),
      Para(ProgramLine(cfg), "Heading 1"),
      Para(FeedbackHeading, "Heading 2"),
      Blank(),
      Para(ScheduleLine(cfg), "Heading 2"),
      Blank() ]
  }

  /** The ten blocks written before any table. */
  function FrontMatter(cfg: Config): seq<Block>
  {
    TitleBlocks(cfg) + PreambleBlocks(cfg)
  }

  /** The three blocks of one upload's section: its heading, its table and a
      blank paragraph. */
  function Section(u: Upload): seq<Block>
  {
    [ Heading(ResolveHeading(u.name), 1),
      Table(HeaderRow(u.frame.columns), u.frame.rows),
      Blank() ]
  }

  /** The sections of `us`, one after another. */
  function Sections(us: seq<Upload>): seq<Block>
  {
    if us == [] then [] else Sections(us[..|us| - 1]) + Section(us[|us| - 1])
  }

  /** The whole document for a non-empty upload list. */
  function ReportBlocks(cfg: Config, us: seq<Upload>): seq<Block>
  {
    FrontMatter(cfg) + Sections(Ordered(us))
  }

  /** The texts of the `add_heading` blocks, in document order. */
  function HeadingTexts(blocks: seq<Block>): seq<string>
  {
    if blocks == [] then []
    else
      var last := blocks[|blocks| - 1];
      HeadingTexts(blocks[..|blocks| - 1]) + (if last.Heading? then [last.text] else [])
  }

  /** `add_title_paragraph(doc, text)`. */
  method AddTitleParagraph(doc: Docx.Document, text: string)
    modifies doc
    ensures doc.blocks == old(doc.blocks) + [Title(text)]
  {
    doc.Append(Title(text));
  }

  /** The table part of `add_df_to_doc`: a one-row grid whose header cells are
      filled column by column, then one new row per data row, filled value by
      value. */
  method RenderTable(df: Frame) returns (header: seq<string>, rows: seq<seq<string>>)
    requires df.Rectangular()
    ensures |header| == |df.columns|
    ensures forall i :: 0 <= i < |header| ==> header[i] == HeaderCell(df.columns[i])
    ensures rows == df.rows
  {
    var n := |df.columns|;
    var t := new GridTable(1, n);
    for i := 0 to n
      invariant t.Valid() && t.cols == n && |t.cells| == 1
      invariant forall j :: 0 <= j < i ==> t.cells[0][j] == HeaderCell(df.columns[j])
    {
      t.SetCell(0, i, HeaderCell(df.columns[i]));
    }
    for r := 0 to |df.rows|
      invariant t.Valid() && t.cols == n && |t.cells| == r + 1
      invariant forall j :: 0 <= j < n ==> t.cells[0][j] == HeaderCell(df.columns[j])
      invariant t.cells[1..] == df.rows[..r]
    {
      var row := df.rows[r];
      var k := t.AddRow();
      ghost var done := t.cells[..k];
      for i := 0 to |row|
        invariant t.Valid() && t.cols == n && |t.cells| == k + 1
        invariant t.cells[..k] == done
        invariant forall j :: 0 <= j < i ==> t.cells[k][j] == row[j]
      {
        t.SetCell(k, i, row[i]);
      }
      assert t.cells[k] == row;
      assert t.cells[1..] == done[1..] + [row];
      assert df.rows[..r + 1] == df.rows[..r] + [row];
    }
    header := t.cells[0];
    rows := t.cells[1..];
    assert df.rows[..|df.rows|] == df.rows;
  }

  /** `add_df_to_doc(doc, df, title)`. */
  method AddDfToDoc(doc: Docx.Document, df: Frame, title: string)
    requires df.Rectangular()
    modifies doc
    ensures doc.blocks == old(doc.blocks) + [Heading(title, 1), Table(HeaderRow(df.columns), df.rows)]
  {
    doc.AddHeading(title, 1);
    var header, rows := RenderTable(df);
    assert header == HeaderRow(df.columns);
    doc.AddTable(header, rows);
  }

  /** The title paragraphs, lines 57-60 of the handler. */
  method AddTitles(doc: Docx.Document, cfg: Config)
    modifies doc
    ensures doc.blocks == old(doc.blocks) + TitleBlocks(cfg)
  {
    AddTitleParagraph(doc, Department);
    AddTitleParagraph(doc, Institute);
    AddTitleParagraph(doc, ReportTitle);
    AddTitleParagraph(doc, TermLine(cfg));
  }

  /** The paragraphs of lines 61-67 of the handler. */
  method AddPreamble(doc: Docx.Document, cfg: Config)
    modifies doc
    ensures doc.blocks == old(doc.blocks) + PreambleBlocks(cfg)
  {
    doc.AddParagraph("", NormalStyle);
    doc.AddParagraph(ProgramLine(cfg), "Heading 1");
    doc.AddParagraph(FeedbackHeading, "Heading 2");
    doc.AddParagraph("", NormalStyle);
    doc.AddParagraph(ScheduleLine(cfg), "Heading 2");
    doc.AddParagraph("", NormalStyle);
  }

  /** The front matter, lines 57-67 of the handler. */
  method AddFrontMatter(doc: Docx.Document, cfg: Config)
    modifies doc
    ensures doc.blocks == old(doc.blocks) + FrontMatter(cfg)
  {
    AddTitles(doc, cfg);
    AddPreamble(doc, cfg);
  }

  /** One section: the table under its resolved heading, then a blank
      paragraph (the bodies of both emission loops). */
  method AddSection(doc: Docx.Document, u: Upload)
    requires u.frame.Rectangular()
    modifies doc
    ensures doc.blocks == old(doc.blocks) + Section(u)
  {
    AddDfToDoc(doc, u.frame, ResolveHeading(u.name));
    doc.AddParagraph("", NormalStyle);
  }

  /** The loop over the ordinary files: one section each, in order. */
  method AddSections(doc: Docx.Document, us: seq<Upload>)
    requires forall u :: u in us ==> u.frame.Rectangular()
    modifies doc
    ensures doc.blocks == old(doc.blocks) + Sections(us)
  {
    ghost var before := doc.blocks;
    assert us[..0] == [];
    for i := 0 to |us|
      invariant doc.blocks == before + Sections(us[..i])
    {
      AddSection(doc, us[i]);
      SectionsSnoc(us[..i], us[i]);
      assert us[..i + 1] == us[..i] + [us[i]];
    }
    assert us[..|us|] == us;
  }

  /** Lines 68-87 of the handler: split the uploads, then write the
      ordinary files' sections in upload order and the cross table's last. */
  method AddTables(doc: Docx.Document, uploads: seq<Upload>)
    requires forall u :: u in uploads ==> u.frame.Rectangular()
    modifies doc
    ensures doc.blocks == old(doc.blocks) + Sections(Ordered(uploads))
  {
    var others, cross := Partition(uploads);
    AddSections(doc, others);
    if cross.Some? {
      AddSection(doc, cross.value);
    }
    OrderedSections(uploads);
  }

  /** The button handler: nothing without uploads; otherwise the front
      matter, the ordinary files' sections in upload order and the cross
      table's section last. */
  method Generate(cfg: Config, uploads: seq<Upload>) returns (r: Option<seq<Block>>)
    requires forall u :: u in uploads ==> u.frame.Rectangular()
    ensures uploads == [] <==> r.None?
    ensures r.Some? ==> r.value == ReportBlocks(cfg, uploads)
  {
    if uploads == [] {
      return None;
    }
    var doc := new Docx.Document();
    AddFrontMatter(doc, cfg);
    AddTables(doc, uploads);
    r := Some(doc.blocks);
  }

  /** The sections of the emitted files are the ordinary files' sections
      and, when the slot is filled, the cross table's section. */
  lemma OrderedSections(us: seq<Upload>)
    ensures Sections(Ordered(us)) == Sections(Others(us)) +
      (if LastCross(us).Some? then Section(LastCross(us).value) else [])
  {
    if LastCross(us).Some? {
      SectionsSnoc(Others(us), LastCross(us).value);
    } else {
      assert Others(us) + [] == Others(us);
    }
  }

  /** Appending an upload appends its section. */
  lemma SectionsSnoc(us: seq<Upload>, u: Upload)
    ensures Sections(us + [u]) == Sections(us) + Section(u)
  {
    assert (us + [u])[..|us|] == us;
  }

  /** Sections of a concatenation are the concatenation of sections. */
  lemma {:induction false} SectionsAppend(a: seq<Upload>, b: seq<Upload>)
    ensures Sections(a + b) == Sections(a) + Sections(b)
    decreases |b|
  {
    if b == [] {
      assert a + b == a;
    } else {
      var b' := b[..|b| - 1];
      assert (a + b)[..|a + b| - 1] == a + b';
      SectionsAppend(a, b');
    }
  }

  /** Every upload contributes three blocks. */
  lemma {:induction false} SectionsLength(us: seq<Upload>)
    ensures |Sections(us)| == 3 * |us|
  {
    if us != [] {
      SectionsLength(us[..|us| - 1]);
    }
  }

  /** The section of the k-th upload sits at positions 3k, 3k+1 and 3k+2. */
  lemma {:induction false} SectionAt(us: seq<Upload>, k: nat)
    requires k < |us|
    ensures |Sections(us)| == 3 * |us|
    ensures Sections(us)[3 * k] == Heading(ResolveHeading(us[k].name), 1)
    ensures Sections(us)[3 * k + 1] == Table(HeaderRow(us[k].frame.columns), us[k].frame.rows)
    ensures Sections(us)[3 * k + 2] == Blank()
  {
    var n := |us| - 1;
    var us' := us[..n];
    SectionsLength(us);
    SectionsLength(us');
    var prefix, tail := Sections(us'), Section(us[n]);
    assert Sections(us) == prefix + tail;
    if k < n {
      SectionAt(us', k);
      assert us'[k] == us[k];
      assert Sections(us)[3 * k] == prefix[3 * k];
      assert Sections(us)[3 * k + 1] == prefix[3 * k + 1];
      assert Sections(us)[3 * k + 2] == prefix[3 * k + 2];
    } else {
      assert 3 * k == |prefix|;
    }
  }

  /** Every upload gets exactly three blocks, at positions 3k, 3k+1 and 3k+2:
      its resolved heading at level 1, its table with one header cell per
      column and its rows in order, and a blank paragraph. */
  lemma SectionsShape(us: seq<Upload>)
    ensures |Sections(us)| == 3 * |us|
    ensures forall k :: 0 <= k < |us| ==>
      Sections(us)[3 * k] == Heading(ResolveHeading(us[k].name), 1) &&
      Sections(us)[3 * k + 1] == Table(HeaderRow(us[k].frame.columns), us[k].frame.rows) &&
      Sections(us)[3 * k + 2] == Blank()
  {
    SectionsLength(us);
    forall k | 0 <= k < |us|
      ensures Sections(us)[3 * k] == Heading(ResolveHeading(us[k].name), 1)
      ensures Sections(us)[3 * k + 1] == Table(HeaderRow(us[k].frame.columns), us[k].frame.rows)
      ensures Sections(us)[3 * k + 2] == Blank()
    {
      SectionAt(us, k);
    }
  }

  /** The document has the ten front-matter blocks and three blocks per
      emitted table; the front matter comes first. */
  lemma ReportShape(cfg: Config, us: seq<Upload>)
    ensures ReportBlocks(cfg, us)[..10] == FrontMatter(cfg)
    ensures |ReportBlocks(cfg, us)| == 10 + 3 * (|Others(us)| + if CrossCount(us) > 0 then 1 else 0)
  {
    SectionsShape(Ordered(us));
    LastCrossSpec(us);
  }

  /** Headings texts distribute over concatenation. */
  lemma {:induction false} HeadingTextsAppend(a: seq<Block>, b: seq<Block>)
    ensures HeadingTexts(a + b) == HeadingTexts(a) + HeadingTexts(b)
    decreases |b|
  {
    if b == [] {
      assert a + b == a;
    } else {
      var b' := b[..|b| - 1];
      assert (a + b)[..|a + b| - 1] == a + b';
      HeadingTextsAppend(a, b');
    }
  }

  /** A block sequence without `add_heading` blocks has no heading texts. */
  lemma {:induction false} NoHeadings(blocks: seq<Block>)
    requires forall j :: 0 <= j < |blocks| ==> !blocks[j].Heading?
    ensures HeadingTexts(blocks) == []
  {
    if blocks != [] {
      NoHeadings(blocks[..|blocks| - 1]);
    }
  }

  /** The section headings of `Sections(us)` are the resolved headings of
      `us`, in order. */
  lemma {:induction false} SectionHeadings(us: seq<Upload>)
    ensures HeadingTexts(Sections(us)) == seq(|us|, i requires 0 <= i < |us| => ResolveHeading(us[i].name))
  {
    if us != [] {
      var us' := us[..|us| - 1];
      SectionHeadings(us');
      var last := us[|us| - 1];
      HeadingTextsAppend(Sections(us'), Section(last));
      var s := Section(last);
      assert HeadingTexts(s) == [ResolveHeading(last.name)] by {
        assert s == [s[0]] + s[1..];
        HeadingTextsAppend([s[0]], s[1..]);
        assert [s[0]][..0] == [];
        NoHeadings(s[1..]);
      }
    }
  }

  /** The headings written with `add_heading` are exactly the resolved
      headings of the emitted files, in emission order; the front matter
      writes none. */
  lemma ReportHeadings(cfg: Config, us: seq<Upload>)
    ensures HeadingTexts(ReportBlocks(cfg, us)) ==
      seq(|Ordered(us)|, i requires 0 <= i < |Ordered(us)| => ResolveHeading(Ordered(us)[i].name))
  {
    var f := FrontMatter(cfg);
    HeadingTextsAppend(f, Sections(Ordered(us)));
    NoHeadings(f);
    SectionHeadings(Ordered(us));
  }

  /** When some upload is named `cross_table.csv` (in any case), the document
      ends with the section of the last such upload, headed "Deviations
      across questions". */
  lemma CrossTableSectionLast(cfg: Config, us: seq<Upload>)
    requires CrossCount(us) > 0
    ensures LastCross(us).Some?
    ensures var d := ReportBlocks(cfg, us);
      |d| >= 13 && d[|d| - 3..] == Section(LastCross(us).value) &&
      d[|d| - 3] == Heading("Deviations across questions", 1)
  {
    LastCrossSpec(us);
    var c := LastCross(us).value;
    SectionsAppend(Others(us), [c]);
    assert [c][..0] == [];
    SectionsShape(Others(us));
    CrossTableHeading(c.name);
  }
}
