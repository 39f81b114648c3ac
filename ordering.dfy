/** The one-pass split of the uploads into the ordinary files and the single
    cross-table slot (streamlit_app.py lines 69-75), and the emission order
    that follows from it (lines 77-87). */
module Ordering {
  import opened Wrappers
  import opened Ascii
  import opened Headings
  import opened Uploads

  /** The sentinel test: the lower-cased name is exactly `cross_table.csv`. */
  predicate IsCrossTable(u: Upload)
    ensures IsCrossTable(u) ==> |u.name| == |CrossTableName|
    ensures IsCrossTable(u) ==> ResolveHeading(u.name) == "Deviations across questions"
  {
    Lower(u.name) == CrossTableName
  }

  /** The ordinary files, in upload order. */
  function Others(us: seq<Upload>): seq<Upload>
  {
    if us == [] then []
    else
      var last := us[|us| - 1];
      Others(us[..|us| - 1]) + (if IsCrossTable(last) then [] else [last])
  }

  /** The slot `cross_table_file` after the scan: the last sentinel match. */
  function LastCross(us: seq<Upload>): Option<Upload>
  {
    if us == [] then None
    else if IsCrossTable(us[|us| - 1]) then Some(us[|us| - 1])
    else LastCross(us[..|us| - 1])
  }

  /** The order in which sections are emitted: ordinary files, then the slot. */
  function Ordered(us: seq<Upload>): seq<Upload>
  {
    Others(us) + (if LastCross(us).Some? then [LastCross(us).value] else [])
  }

  /** How many uploads match the sentinel. */
  function CrossCount(us: seq<Upload>): nat
  {
    if us == [] then 0
    else CrossCount(us[..|us| - 1]) + (if IsCrossTable(us[|us| - 1]) then 1 else 0)
  }

  /** The partition loop: ordinary files are appended to `others`, a sentinel
      match overwrites `cross`. */
  method Partition(uploads: seq<Upload>) returns (others: seq<Upload>, cross: Option<Upload>)
    ensures others == Others(uploads) && cross == LastCross(uploads)
    ensures forall j :: 0 <= j < |others| ==> !IsCrossTable(others[j])
    ensures forall u :: u in others ==> u in uploads
    ensures cross.Some? ==> IsCrossTable(cross.value) && cross.value in uploads
  {
    others, cross := [], None;
    for i := 0 to |uploads|
      invariant others == Others(uploads[..i])
      invariant cross == LastCross(uploads[..i])
      invariant forall j :: 0 <= j < |others| ==> !IsCrossTable(others[j])
      invariant forall u :: u in others ==> u in uploads[..i]
      invariant cross.Some? ==> IsCrossTable(cross.value) && cross.value in uploads[..i]
    {
      assert uploads[..i + 1][..i] == uploads[..i];
      if IsCrossTable(uploads[i]) {
        cross := Some(uploads[i]);
      } else {
        others := others + [uploads[i]];
      }
    }
    assert uploads[..|uploads|] == uploads;
  }

  /** Filtering out the sentinel files distributes over concatenation, so the
      ordinary files keep their relative upload order. */
  lemma {:induction false} OthersAppend(a: seq<Upload>, b: seq<Upload>)
    ensures Others(a + b) == Others(a) + Others(b)
    decreases |b|
  {
    if b == [] {
      assert a + b == a;
    } else {
      var b' := b[..|b| - 1];
      assert (a + b)[..|a + b| - 1] == a + b';
      OthersAppend(a, b');
    }
  }

  /** A file is kept among the ordinary files as often as it was uploaded,
      unless it is a sentinel match, which is never kept. */
  lemma {:induction false} OthersMultiset(us: seq<Upload>)
    ensures forall u :: multiset(Others(us))[u] == if IsCrossTable(u) then 0 else multiset(us)[u]
  {
    if us != [] {
      var us' := us[..|us| - 1];
      var last := us[|us| - 1];
      OthersMultiset(us');
      assert us == us' + [last];
      assert multiset(us) == multiset(us') + multiset{last};
    }
  }

  /** Membership form of OthersMultiset. */
  lemma OthersMembers(us: seq<Upload>)
    ensures forall u :: u in Others(us) <==> u in us && !IsCrossTable(u)
  {
    OthersMultiset(us);
  }

  /** Every upload that is not a sentinel match is an ordinary file. */
  lemma {:induction false} OthersLength(us: seq<Upload>)
    ensures |Others(us)| == |us| - CrossCount(us)
  {
    if us != [] {
      OthersLength(us[..|us| - 1]);
    }
  }

  /** Without a sentinel file the ordinary files are all the files. */
  lemma {:induction false} OthersNoCross(us: seq<Upload>)
    requires forall j :: 0 <= j < |us| ==> !IsCrossTable(us[j])
    ensures Others(us) == us
  {
    if us != [] {
      OthersNoCross(us[..|us| - 1]);
    }
  }

  /** The slot is empty iff no file matches; otherwise it holds a match that
      no later upload matches, so earlier matches are dropped. */
  lemma {:induction false} LastCrossSpec(us: seq<Upload>)
    ensures LastCross(us).None? <==> CrossCount(us) == 0
    ensures LastCross(us).None? <==> forall j :: 0 <= j < |us| ==> !IsCrossTable(us[j])
    ensures LastCross(us).Some? ==>
      exists i :: 0 <= i < |us| && us[i] == LastCross(us).value && IsCrossTable(us[i]) &&
        forall j :: i < j < |us| ==> !IsCrossTable(us[j])
  {
    if us != [] {
      var n := |us| - 1;
      var us' := us[..n];
      LastCrossSpec(us');
      assert forall j :: 0 <= j < n ==> us'[j] == us[j];
      if IsCrossTable(us[n]) {
        assert us[n] == LastCross(us).value;
      } else if LastCross(us').Some? {
        var i :| 0 <= i < n && us'[i] == LastCross(us').value && IsCrossTable(us'[i]) &&
          forall j :: i < j < n ==> !IsCrossTable(us'[j]);
        assert us[i] == LastCross(us).value && IsCrossTable(us[i]);
        assert forall j :: i < j < |us| ==> !IsCrossTable(us[j]);
      }
    }
  }

  /** The number of sections: one per ordinary file and one more if any file
      matched; with two or more matches, files are dropped. */
  lemma OrderedLength(us: seq<Upload>)
    ensures |Ordered(us)| == |us| - CrossCount(us) + (if CrossCount(us) > 0 then 1 else 0)
    ensures CrossCount(us) >= 2 ==> |Ordered(us)| < |us|
  {
    OthersLength(us);
    LastCrossSpec(us);
  }

  /** Emission never invents a file: it is a sub-multiset of the uploads. */
  lemma OrderedSubMultiset(us: seq<Upload>)
    ensures multiset(Ordered(us)) <= multiset(us)
  {
    OthersMultiset(us);
    LastCrossSpec(us);
    if LastCross(us).Some? {
      var c := LastCross(us).value;
      assert c in us;
      forall u ensures multiset(Ordered(us))[u] <= multiset(us)[u] {
        assert multiset(Ordered(us)) == multiset(Others(us)) + multiset{c};
      }
    }
  }

  /** A sentinel match among the emitted files can only be the last one. */
  lemma CrossLast(us: seq<Upload>)
    ensures forall k :: 0 <= k < |Ordered(us)| && IsCrossTable(Ordered(us)[k]) ==> k == |Ordered(us)| - 1
  {
    OthersMembers(us);
    forall k | 0 <= k < |Others(us)| ensures !IsCrossTable(Others(us)[k]) {
      assert Others(us)[k] in Others(us);
    }
  }

  /** Ordering an already ordered list changes nothing. */
  lemma OrderedIdempotent(us: seq<Upload>)
    ensures Ordered(Ordered(us)) == Ordered(us)
  {
    var o := Others(us);
    OthersMembers(us);
    forall j | 0 <= j < |o| ensures !IsCrossTable(o[j]) {
      assert o[j] in o;
    }
    OthersNoCross(o);
    if LastCross(us).Some? {
      var c := LastCross(us).value;
      LastCrossSpec(us);
      OthersAppend(o, [c]);
      assert [c][..0] == [];
      assert (o + [c])[..|o|] == o;
    } else {
      LastCrossSpec(o);
      assert o + [] == o;
    }
  }
}
