/** Concrete uploads and what the report makes of them. */
module Scenarios {
  import opened Wrappers
  import opened Ascii
  import opened Headings
  import opened Uploads
  import opened Ordering
  import opened Docx
  import opened Report

  /** `Q3.CSV` in capitals is still the fourth question. */
  lemma UpperCaseQuestion()
    ensures ResolveHeading("Q3.CSV") == "Question 4"
  {
    assert Lower("Q3.CSV") == "q3.csv";
    assert QuestionFile(3) == "q3.csv";
    QuestionHeading("Q3.CSV", 3);
  }

  /** An unmapped name is its own heading. */
  lemma UnmappedName()
    ensures ResolveHeading("mystery.csv") == "mystery.csv"
  {
    var key := Lower("mystery.csv");
    assert key == "mystery.csv";
    assert !IsQuestionFile(key) by {
      forall k: nat | k < 8 ensures key != QuestionFile(k) {
        assert |QuestionFile(k)| == 6;
      }
    }
    FallbackHeading("mystery.csv");
  }

  /** A question file followed by the cross table: sections in upload order. */
  lemma CrossTableUploadedLast(cfg: Config, f: Frame, g: Frame)
    ensures var us := [Upload("q0.csv", f), Upload("cross_table.csv", g)];
      HeadingTexts(ReportBlocks(cfg, us)) == ["Question 1", "Deviations across questions"]
  {
    var us := [Upload("q0.csv", f), Upload("cross_table.csv", g)];
    assert Lower("q0.csv") == "q0.csv" && Lower("cross_table.csv") == "cross_table.csv";
    assert us[..1] == [us[0]] && us[..1][..0] == [];
    assert !IsCrossTable(us[0]) && IsCrossTable(us[1]);
    assert Others(us[..1]) == Others([]) + [us[0]];
    assert Others(us) == [us[0]];
    assert LastCross(us).value == us[1];
    assert Ordered(us) == us;
    ReportHeadings(cfg, us);
  }

  /** The cross table uploaded first still comes last. */
  lemma CrossTableUploadedFirst(cfg: Config, f: Frame, g: Frame)
    ensures var us := [Upload("cross_table.csv", f), Upload("q1.csv", g)];
      HeadingTexts(ReportBlocks(cfg, us)) == ["Question 2", "Deviations across questions"]
  {
    var us := [Upload("cross_table.csv", f), Upload("q1.csv", g)];
    assert Lower("q1.csv") == "q1.csv" && Lower("cross_table.csv") == "cross_table.csv";
    assert us[..1] == [us[0]] && us[..1][..0] == [];
    assert IsCrossTable(us[0]) && !IsCrossTable(us[1]);
    assert Others(us[..1]) == Others([]) + [];
    assert Others(us) == [us[1]];
    assert LastCross(us[..1]) == Some(us[0]);
    assert LastCross(us).value == us[0];
    assert Ordered(us) == [us[1], us[0]];
    ReportHeadings(cfg, us);
  }

  /** Of two cross tables only the later one is kept, and it goes last. */
  lemma DuplicateCrossTable(f: Frame, g: Frame, h: Frame)
    ensures var us := [Upload("cross_table.csv", f), Upload("q0.csv", g), Upload("Cross_Table.CSV", h)];
      Ordered(us) == [us[1], us[2]]
  {
    var us := [Upload("cross_table.csv", f), Upload("q0.csv", g), Upload("Cross_Table.CSV", h)];
    assert Lower("Cross_Table.CSV") == "cross_table.csv";
    assert Lower("q0.csv") == "q0.csv" && Lower("cross_table.csv") == "cross_table.csv";
    assert us[..2] == [us[0], us[1]] && us[..2][..1] == [us[0]] && us[..2][..1][..0] == [];
    assert IsCrossTable(us[0]) && !IsCrossTable(us[1]) && IsCrossTable(us[2]);
    assert Others(us[..2][..1]) == Others([]) + [];
    assert Others(us[..2]) == [us[1]];
    assert Others(us) == [us[1]];
    assert LastCross(us).value == us[2];
  }
}
