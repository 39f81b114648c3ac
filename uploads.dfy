/** What the report builder receives: uploaded files, each already parsed into
    a table (the result of `pd.read_csv`, taken as given). */
module Uploads {

  /** A parsed table: its column names and its rows, each cell already turned
      into its display text. */
  datatype Frame = Frame(columns: seq<string>, rows: seq<seq<string>>)
  {
    /** Every row has one value per column, as a parsed table always does. */
    predicate Rectangular()
    {
      forall r :: 0 <= r < |rows| ==> |rows[r]| == |columns|
    }
  }

  /** An uploaded file: its original file name and its parsed content. */
  datatype Upload = Upload(name: string, frame: Frame)
}
