/** The static heading table and the header-cell rule of the report
    (streamlit_app.py, `custom_headings` and the header loop of
    `add_df_to_doc`). */
module Headings {
  import opened Ascii

  /** The reserved file name whose section always goes last. */
  const CrossTableName: string := "cross_table.csv"

  /** The pandas name of an unlabelled index column. */
  const UnnamedIndexColumn: string := "Unnamed: 0"

  /** Display headings keyed on the lower-cased file name. */
  const CustomHeadings: map<string, string> := map[
    "q0.csv" := "Question 1",
    "q1.csv" := "Question 2",
    "q2.csv" := "Question 3",
    "q3.csv" := "Question 4",
    "q4.csv" := "Question 5",
    "q5.csv" := "Question 6",
    "q6.csv" := "Question 7",
    "q7.csv" := "Question 8",
    CrossTableName := "Deviations across questions"
  ]

  /** Reference description of the question entries: file `q<k>.csv` is
      shown as "Question <k+1>", for k in 0..7. */
  function Digit(k: nat): char
    requires k < 10
  {
    ('0' as int + k) as char
  }

  function QuestionFile(k: nat): string
    requires k < 8
  {
    "q" + [Digit(k)] + ".csv"
  }

  function QuestionTitle(k: nat): string
    requires k < 8
  {
    "Question " + [Digit(k + 1)]
  }

  predicate IsQuestionFile(key: string)
  {
    exists k: nat :: k < 8 && key == QuestionFile(k)
  }

  /** `custom_headings.get(name.lower(), name)`. */
  function ResolveHeading(name: string): (h: string)
    ensures h == name || h in CustomHeadings.Values
    ensures h != name ==> Lower(name) in CustomHeadings
  {
    var key := Lower(name);
    if key in CustomHeadings then CustomHeadings[key] else name
  }

  /** The text written into a header cell for column name `col`. */
  function HeaderCell(col: string): (cell: string)
    ensures cell == "" <==> col == UnnamedIndexColumn || col == ""
    ensures cell != col <==> col == UnnamedIndexColumn
  {
    if col == UnnamedIndexColumn then "" else col
  }

  /** One header cell per column, in column order. */
  function HeaderRow(columns: seq<string>): seq<string>
  {
    seq(|columns|, i requires 0 <= i < |columns| => HeaderCell(columns[i]))
  }

  /** The question entries of the table are exactly the reference ones. */
  lemma QuestionEntries(k: nat)
    requires k < 8
    ensures QuestionFile(k) in CustomHeadings
    ensures CustomHeadings[QuestionFile(k)] == QuestionTitle(k)
  {
    if k == 0 { assert QuestionFile(k) == "q0.csv" && QuestionTitle(k) == "Question 1"; }
    else if k == 1 { assert QuestionFile(k) == "q1.csv" && QuestionTitle(k) == "Question 2"; }
    else if k == 2 { assert QuestionFile(k) == "q2.csv" && QuestionTitle(k) == "Question 3"; }
    else if k == 3 { assert QuestionFile(k) == "q3.csv" && QuestionTitle(k) == "Question 4"; }
    else if k == 4 { assert QuestionFile(k) == "q4.csv" && QuestionTitle(k) == "Question 5"; }
    else if k == 5 { assert QuestionFile(k) == "q5.csv" && QuestionTitle(k) == "Question 6"; }
    else if k == 6 { assert QuestionFile(k) == "q6.csv" && QuestionTitle(k) == "Question 7"; }
    else { assert QuestionFile(k) == "q7.csv" && QuestionTitle(k) == "Question 8"; }
  }

  /** The table has exactly nine keys: the eight question files and the
      cross table. */
  lemma HeadingKeys(key: string)
    ensures key in CustomHeadings <==> IsQuestionFile(key) || key == CrossTableName
  {
    if IsQuestionFile(key) {
      var k: nat :| k < 8 && key == QuestionFile(k);
      QuestionEntries(k);
    }
    if key in CustomHeadings && key != CrossTableName {
      assert QuestionFile(0) == "q0.csv" && QuestionFile(1) == "q1.csv";
      assert QuestionFile(2) == "q2.csv" && QuestionFile(3) == "q3.csv";
      assert QuestionFile(4) == "q4.csv" && QuestionFile(5) == "q5.csv";
      assert QuestionFile(6) == "q6.csv" && QuestionFile(7) == "q7.csv";
      if key == "q0.csv" { assert key == QuestionFile(0); }
      else if key == "q1.csv" { assert key == QuestionFile(1); }
      else if key == "q2.csv" { assert key == QuestionFile(2); }
      else if key == "q3.csv" { assert key == QuestionFile(3); }
      else if key == "q4.csv" { assert key == QuestionFile(4); }
      else if key == "q5.csv" { assert key == QuestionFile(5); }
      else if key == "q6.csv" { assert key == QuestionFile(6); }
      else { assert key == QuestionFile(7); }
    }
  }

  /** A file whose lower-cased name is `q<k>.csv`, in any letter case, gets
      the heading "Question <k+1>". */
  lemma QuestionHeading(name: string, k: nat)
    requires k < 8 && Lower(name) == QuestionFile(k)
    ensures ResolveHeading(name) == QuestionTitle(k)
  {
    QuestionEntries(k);
  }

  /** The cross table, in any letter case, gets its fixed heading. */
  lemma CrossTableHeading(name: string)
    requires Lower(name) == CrossTableName
    ensures ResolveHeading(name) == "Deviations across questions"
  {
  }

  /** Any other name is used as its own heading, in its original case. */
  lemma FallbackHeading(name: string)
    requires !IsQuestionFile(Lower(name)) && Lower(name) != CrossTableName
    ensures ResolveHeading(name) == name
  {
    HeadingKeys(Lower(name));
  }
}
