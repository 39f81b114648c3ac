# CSV-to-Word report builder, modelled in Dafny

The repository is a single Streamlit script. It turns a set of uploaded CSV
files into one Word document. The document has a fixed front matter, then one
section per uploaded table. A file named `cross_table.csv`, in any letter
case, is held back and its section is always written last. This project
models the part of the script that decides the document: the ordering of the
uploads, the heading and header-cell rules, and the block-by-block assembly of
the document.

Modules:

- `Ascii` (ascii.dfy): ASCII `str.lower()` and `str.capitalize()`.
- `Headings` (headings.dfy): the static `custom_headings` table, the lookup
  `custom_headings.get(name.lower(), name)` and the header-cell rule for the
  `Unnamed: 0` index column.
- `Uploads` (uploads.dfy): an uploaded file is its name plus its table, already
  parsed into column names and rows of cell texts.
- `Ordering` (ordering.dfy): the one-pass partition loop into ordinary files
  and the single cross-table slot. It has specification functions `Others`,
  `LastCross` and `Ordered`, and lemmas about them.
- `Docx` (docx.dfy): the document as a growing `seq<Block>` (a `Document`
  class) and a table whose cells are filled in place (a `GridTable` class).
  A block is `Title | Para(text, style) | Heading(text, level) | Table(header, rows)`.
- `Report` (report.dfy): the front matter, the sections, the builder methods
  (`add_title_paragraph`, `add_df_to_doc`, the button handler) and lemmas on
  the shape of the finished document.
- `Scenarios` (scenarios.dfy): concrete upload lists and what they produce.

Three behaviours of the code are worth stating:

- Only one cross-table slot exists. Each match overwrites the slot, so with
  several matches only the last one is emitted and the earlier ones are
  dropped (line 73).
- With no uploads, nothing is generated at all: `if uploaded_files:` at line
  53 gates the whole handler.
- The front matter has ten blocks: four titles, a blank paragraph, a Heading 1
  paragraph, a Heading 2 paragraph, a blank paragraph, a Heading 2 paragraph
  and a blank paragraph (lines 57-67). The department line comes before the
  institute line.

## Model

| member | source | states |
|---|---|---|
| Headings.HeaderCell | streamlit_app.py:44-47 | a header cell is empty iff the column is named exactly `Unnamed: 0` (or is itself empty); it differs from the column name iff the name is `Unnamed: 0` |
| Headings.QuestionEntries | streamlit_app.py:21-29 | for k in 0..7, the table maps `q<k>.csv` to `Question <k+1>` |
| Headings.HeadingKeys | streamlit_app.py:21-31 | the table's keys are exactly the eight question files and `cross_table.csv` |
| Headings.QuestionHeading | streamlit_app.py:79 | a name whose lower-cased form is `q<k>.csv`, in any letter case, gets the heading `Question <k+1>` |
| Headings.CrossTableHeading | streamlit_app.py:85 | a name whose lower-cased form is `cross_table.csv` gets the heading `Deviations across questions` |
| Headings.FallbackHeading | streamlit_app.py:79 | any other name is its own heading, in its original letter case |
| Ascii.Lower | streamlit_app.py:72 | `.lower()` keeps the length, leaves no capital, keeps every non-capital and turns each capital into the small letter that upper-cases back to it (also used at lines 79 and 85) |
| Ascii.Capitalize | streamlit_app.py:60 | `.capitalize()` keeps the length, puts no small letter first and no capital after it, and equals its input up to letter case (also used at line 66) |
| Headings.ResolveHeading | streamlit_app.py:79 | the heading is either the file name itself or one of the table's headings, and it differs from the name only when the lower-cased name is a key of the table (the same lookup is at line 85) |
| Ordering.IsCrossTable | streamlit_app.py:72 | the test compares the lower-cased name with `cross_table.csv`; every match has 15 characters and resolves to the heading `Deviations across questions` |
| Docx.Document.constructor | streamlit_app.py:55 | `Document()` starts with no blocks |
| Docx.Document.AddParagraph | streamlit_app.py:61-67 | appends exactly one paragraph with the given text and style (also the blank paragraphs at lines 81 and 87) |
| Docx.Document.AddHeading | streamlit_app.py:39 | appends exactly one heading with the given text and level |
| Docx.Document.AddTable | streamlit_app.py:40 | appends exactly one table block with the given header and rows |
| Docx.GridTable.constructor | streamlit_app.py:40 | `add_table(rows=1, cols=n)` gives a grid of the requested rows, each of `n` empty cells |
| Ascii.CapitalizeTerms | streamlit_app.py:60 | `SPRING` and `MONSOON` render as `Spring` and `Monsoon` |
| Ordering.Partition | streamlit_app.py:69-75 | the loop leaves the non-matching files, in upload order, in `others`; the slot holds the last case-insensitive match of `cross_table.csv`, or nothing |
| Ordering.OthersAppend | streamlit_app.py:71-75 | the ordinary files of a concatenation are the concatenation of the ordinary files, so relative upload order is kept |
| Ordering.OthersMultiset | streamlit_app.py:71-75 | each non-matching file appears among the ordinary files as often as it was uploaded; a matching file never appears |
| Ordering.OthersMembers | streamlit_app.py:71-75 | a file is an ordinary file iff it was uploaded and does not match the sentinel |
| Ordering.OthersLength | streamlit_app.py:71-75 | the number of ordinary files is the number of uploads minus the number of matches |
| Ordering.OthersNoCross | streamlit_app.py:71-75 | without a match, the ordinary files are all the uploads, unchanged |
| Ordering.LastCrossSpec | streamlit_app.py:72-73 | the slot is empty iff no upload matches; otherwise it holds a matching upload after which no upload matches |
| Ordering.OrderedLength | streamlit_app.py:73-87 | the number of sections is the number of uploads minus the matches plus one if any match; two or more matches lose files |
| Ordering.OrderedSubMultiset | streamlit_app.py:69-87 | the emitted files are a sub-multiset of the uploads |
| Ordering.CrossLast | streamlit_app.py:76-87 | an emitted file that matches the sentinel can only be the last one |
| Ordering.OrderedIdempotent | streamlit_app.py:69-87 | ordering an already-ordered list changes nothing |
| Docx.GridTable.AddRow | streamlit_app.py:49 | `add_row` appends one row of empty cells, one per column, and gives its index |
| Docx.GridTable.SetCell | streamlit_app.py:51 | setting a cell's text changes that cell only |
| Report.AddTitleParagraph | streamlit_app.py:33-36 | appends exactly one title block with the given text |
| Report.RenderTable | streamlit_app.py:40-51 | the table's header has one cell per column, in column order, each the header-cell text of its column; its data rows are the input rows, in order, one cell per value |
| Report.AddDfToDoc | streamlit_app.py:38-51 | appends a level-1 heading with the given title, then the rendered table |
| Report.AddTitles | streamlit_app.py:57-60 | appends the department, institute and report-title paragraphs and the `"<Term> <year>"` title, the term capitalised |
| Report.AddPreamble | streamlit_app.py:61-67 | appends a blank paragraph, the Heading 1 programme line with semester and section, the Heading 2 `Question Wise Feedback`, a blank paragraph, the Heading 2 term/semester/section line and a blank paragraph |
| Report.AddFrontMatter | streamlit_app.py:57-67 | appends the ten front-matter blocks, titles first |
| Report.AddSection | streamlit_app.py:78-81 | appends the upload's section: resolved heading, table, blank paragraph |
| Report.AddSections | streamlit_app.py:77-81 | appends the sections of the ordinary files, in order |
| Report.AddTables | streamlit_app.py:68-87 | appends the sections of the ordinary files in upload order, then the section of the last cross-table match if there is one |
| Report.Generate | streamlit_app.py:53-87 | no uploads give no document; otherwise the document is the front matter followed by the sections of `Ordered(uploads)` |
| Report.OrderedSections | streamlit_app.py:76-87 | the emitted sections are the ordinary files' sections, then the cross table's section if the slot is filled |
| Report.SectionsAppend | streamlit_app.py:77-87 | sections of a concatenation are the concatenation of the sections |
| Report.SectionsLength | streamlit_app.py:77-87 | every emitted file contributes exactly three blocks |
| Report.SectionAt | streamlit_app.py:39-51 | the k-th file's heading, table and blank paragraph sit at positions 3k, 3k+1 and 3k+2 |
| Report.SectionsShape | streamlit_app.py:39-51 | each file gets exactly three blocks at 3k, 3k+1 and 3k+2: its level-1 resolved heading, its table (header row and its rows) and a blank paragraph |
| Report.ReportShape | streamlit_app.py:55-87 | the document starts with the front matter and has 10 + 3 × (ordinary files + 1 if any match) blocks |
| Report.SectionHeadings | streamlit_app.py:79-80 | the headings of a run of sections are the resolved headings of its files, in order |
| Report.ReportHeadings | streamlit_app.py:77-87 | the document's `add_heading` texts are the resolved headings of the emitted files, in emission order; the front matter's Heading 1 and Heading 2 paragraphs come from `add_paragraph` with a heading style, so they are not among them |
| Report.CrossTableSectionLast | streamlit_app.py:82-87 | when any upload matches, the document ends with the last match's section, headed `Deviations across questions` |
| Scenarios.UpperCaseQuestion | streamlit_app.py:79 | `Q3.CSV` gets the heading `Question 4` |
| Scenarios.UnmappedName | streamlit_app.py:79 | `mystery.csv` gets the heading `mystery.csv` |
| Scenarios.CrossTableUploadedLast | streamlit_app.py:77-87 | `q0.csv` then `cross_table.csv` give the sections `Question 1`, `Deviations across questions` |
| Scenarios.CrossTableUploadedFirst | streamlit_app.py:69-87 | `cross_table.csv` uploaded before `q1.csv` still gives `Question 2` first and `Deviations across questions` last |
| Scenarios.DuplicateCrossTable | streamlit_app.py:72-73 | of `cross_table.csv`, `q0.csv` and `Cross_Table.CSV`, the first is dropped: the order is `q0.csv`, `Cross_Table.CSV` |

## Left out

- The Streamlit page is not modelled: the title, the term, year, semester and section widgets, the upload widget, the button gate and the download button. The configuration values become a `Config` parameter. The button press is taken as given.
- CSV parsing with `pd.read_csv` and its failures are not modelled, because the parser is a foreign library. Each upload arrives already parsed. A parse failure would abort the handler, and the model does not show that path.
- Turning cell values into text (`str(val)`, floats, NaN) is not modelled, because it is library-defined floating-point formatting. Cells arrive as strings.
- Frames are required to be rectangular (one value per column in every row), as pandas guarantees. Ragged rows are not modelled: at line 51 a row with more values than columns would raise an index error, and a shorter row would leave its trailing cells empty.
- python-docx formatting is not modelled: the 18 pt font of the title runs, the `Table Grid` style, and saving into `BytesIO`. Only the style name or heading level is kept on each block.
- The table is written into a fresh `GridTable` and then appended to the document as a finished block. python-docx adds the table object to the document before filling it. Because nothing else touches the document in between, the final content is the same, but the aliasing is not modelled.
- Case mapping covers ASCII only. Python's Unicode lower-casing and title-casing of other letters is not modelled.
- `if cross_table_file:` is read as "the slot is filled". The truthiness of the upload object is not modelled.
