/** The downloadable summary report of `main`: a header line, a blank line,
    and one section per entry of `summaries`, appended in the dict's order.
    The text is built by `+=`; its line structure is stated separately and
    proved equal to it. */
module Report {
  import opened Text
  import opened Dicts
  import opened Summaries

  /** `f"Claim {selected_claim_id} - Summary Report\n\n"` */
  function ReportHeader(claimId: string): string {
    "Claim " + claimId + " - Summary Report\n\n"
  }

  /** `f"- {point}"` for each key point. */
  function Bullets(points: seq<string>): (b: seq<string>)
    ensures |b| == |points|
    ensures forall i :: 0 <= i < |b| ==> b[i] == "- " + points[i]
  {
    seq(|points|, i requires 0 <= i < |points| => "- " + points[i])
  }

  /** The text one pass of the loop appends for one summary. */
  function Section(docType: string, s: Summary): string {
    "=== " + docType + " ===\n" + "Key Points:\n" + Join(Bullets(s.keyPoints), "\n") + "\n"
      + "Assessment: " + s.aiAssessment + "\n" + "Confidence: " + s.confidenceScore + "\n\n"
  }

  function Sections(items: seq<(string, Summary)>): string
    decreases |items|
  {
    if items == [] then ""
    else
      var last := items[|items| - 1];
      Sections(items[..|items| - 1]) + Section(last.0, last.1)
  }

  /** The report for the summaries, in their dict order; it opens with the
      header. */
  function ReportText(claimId: string, summaries: Dict<Summary>): (r: string)
    requires Valid(summaries)
    ensures |ReportHeader(claimId)| <= |r| && r[..|ReportHeader(claimId)|] == ReportHeader(claimId)
  {
    ReportHeader(claimId) + Sections(Items(summaries))
  }

  /* AppendSection, Assoc, SectionsStep and SectionParts below are proof-step
     hints: each unfolds a definition or regroups a concatenation so that
     the solver need not search for it. */

  /** The five appends of one pass add one section. */
  lemma AppendSection(before: string, docType: string, s: Summary)
    ensures before + "=== " + docType + " ===\n" + "Key Points:\n" + Join(Bullets(s.keyPoints), "\n") + "\n"
      + "Assessment: " + s.aiAssessment + "\n" + "Confidence: " + s.confidenceScore + "\n\n"
      == before + Section(docType, s)
  {
  }

  lemma Assoc(a: string, b: string, c: string)
    ensures (a + b) + c == a + (b + c)
  {
  }

  lemma SectionsStep(items: seq<(string, Summary)>, i: nat)
    requires i < |items|
    ensures Sections(items[..i + 1]) == Sections(items[..i]) + Section(items[i].0, items[i].1)
  {
    assert items[..i + 1][..i] == items[..i];
  }

  /** The report-building loop, one `+=` per line of the source. */
  method BuildReport(claimId: string, summaries: Dict<Summary>) returns (report: string)
    requires Valid(summaries)
    ensures report == ReportText(claimId, summaries)
  {
    var items := Items(summaries);
    report := "Claim " + claimId + " - Summary Report\n\n";
    var i := 0;
    while i < |items|
      invariant 0 <= i <= |items|
      invariant report == ReportHeader(claimId) + Sections(items[..i])
    {
      var docType, summary := items[i].0, items[i].1;
      var before := report;
      report := report + "=== " + docType + " ===\n";
      report := report + "Key Points:\n";
      report := report + Join(Bullets(summary.keyPoints), "\n") + "\n";
      report := report + "Assessment: " + summary.aiAssessment + "\n";
      report := report + "Confidence: " + summary.confidenceScore + "\n\n";
      AppendSection(before, docType, summary);
      SectionsStep(items, i);
      Assoc(ReportHeader(claimId), Sections(items[..i]), Section(docType, summary));
      i := i + 1;
    }
    assert items[..i] == items;
  }

  /** Each line followed by a newline. */
  function Unlines(ls: seq<string>): string
    decreases |ls|
  {
    if ls == [] then "" else ls[0] + "\n" + Unlines(ls[1..])
  }

  /** The key-point lines: one bullet per point; no points leave one empty line. */
  function PointLines(points: seq<string>): seq<string> {
    if points == [] then [""] else Bullets(points)
  }

  function SectionLines(docType: string, s: Summary): seq<string> {
    ["=== " + docType + " ===", "Key Points:"] + PointLines(s.keyPoints)
      + ["Assessment: " + s.aiAssessment, "Confidence: " + s.confidenceScore, ""]
  }

  function AllSectionLines(items: seq<(string, Summary)>): seq<string>
    decreases |items|
  {
    if items == [] then []
    else
      var last := items[|items| - 1];
      AllSectionLines(items[..|items| - 1]) + SectionLines(last.0, last.1)
  }

  /** The report read line by line: the header, a blank line, each
      section's lines, and the empty remainder after the final newline. */
  function ReportLines(claimId: string, summaries: Dict<Summary>): seq<string>
    requires Valid(summaries)
  {
    ["Claim " + claimId + " - Summary Report", ""] + AllSectionLines(Items(summaries)) + [""]
  }

  lemma {:induction false} UnlinesAppend(a: seq<string>, b: seq<string>)
    ensures Unlines(a + b) == Unlines(a) + Unlines(b)
    decreases |a|
  {
    if a == [] {
      assert a + b == b;
    } else {
      assert (a + b)[0] == a[0] && (a + b)[1..] == a[1..] + b;
      UnlinesAppend(a[1..], b);
    }
  }

  lemma {:induction false} JoinUnlines(ls: seq<string>)
    requires |ls| >= 1
    ensures Join(ls, "\n") + "\n" == Unlines(ls)
    decreases |ls|
  {
    if |ls| > 1 {
      JoinUnlines(ls[1..]);
    } else {
      assert ls[1..] == [];
    }
  }

  lemma SectionIsLines(docType: string, s: Summary)
    ensures Section(docType, s) == Unlines(SectionLines(docType, s))
  {
    var head := ["=== " + docType + " ===", "Key Points:"];
    var points := PointLines(s.keyPoints);
    var tail := ["Assessment: " + s.aiAssessment, "Confidence: " + s.confidenceScore, ""];
    var j := Join(Bullets(s.keyPoints), "\n");
    UnlinesAppend(head + points, tail);
    UnlinesAppend(head, points);
    if s.keyPoints == [] {
      assert j + "\n" == Unlines(points);
    } else {
      JoinUnlines(points);
    }
    HeadLines(docType);
    TailLines(s.aiAssessment, s.confidenceScore);
    SectionParts(docType, s);
  }

  /** The first two lines of a section, each ending in a newline. */
  lemma HeadLines(docType: string)
    ensures Unlines(["=== " + docType + " ===", "Key Points:"]) == "=== " + docType + " ===\n" + "Key Points:\n"
  {
    var ls := ["=== " + docType + " ===", "Key Points:"];
    assert ls[1..] == ["Key Points:"] && ls[1..][1..] == [];
    assert Unlines(ls[1..]) == "Key Points:\n";
  }

  /** The assessment and confidence lines and the blank line after them. */
  lemma TailLines(assessment: string, confidence: string)
    ensures Unlines(["Assessment: " + assessment, "Confidence: " + confidence, ""])
         == "Assessment: " + assessment + "\n" + "Confidence: " + confidence + "\n\n"
  {
    var ls := ["Assessment: " + assessment, "Confidence: " + confidence, ""];
    assert ls[1..][1..][1..] == [];
    assert Unlines(ls[1..][1..]) == "\n";
  }

  lemma SectionParts(docType: string, s: Summary)
    ensures Section(docType, s) ==
      ("=== " + docType + " ===\n" + "Key Points:\n") + (Join(Bullets(s.keyPoints), "\n") + "\n")
        + ("Assessment: " + s.aiAssessment + "\n" + "Confidence: " + s.confidenceScore + "\n\n")
  {
  }

  lemma {:induction false} SectionsAreLines(items: seq<(string, Summary)>)
    ensures Sections(items) == Unlines(AllSectionLines(items))
    decreases |items|
  {
    if items != [] {
      var init, last := items[..|items| - 1], items[|items| - 1];
      SectionsAreLines(init);
      SectionIsLines(last.0, last.1);
      UnlinesAppend(AllSectionLines(init), SectionLines(last.0, last.1));
    }
  }

  /** The text built by the loop is its lines joined by newlines. */
  lemma ReportIsLines(claimId: string, summaries: Dict<Summary>)
    requires Valid(summaries)
    ensures ReportText(claimId, summaries) == Join(ReportLines(claimId, summaries), "\n")
  {
    var head := ["Claim " + claimId + " - Summary Report", ""];
    var body := AllSectionLines(Items(summaries));
    SectionsAreLines(Items(summaries));
    UnlinesAppend(head, body);
    assert Unlines(head) == ReportHeader(claimId);
    JoinConcat(head + body, [""], "\n");
    JoinUnlines(head + body);
  }

  /** No field of the summary contains a newline. */
  predicate PlainSection(docType: string, s: Summary) {
    && '\n' !in docType
    && '\n' !in s.aiAssessment
    && '\n' !in s.confidenceScore
    && forall i :: 0 <= i < |s.keyPoints| ==> '\n' !in s.keyPoints[i]
  }

  lemma SectionLinesPlain(docType: string, s: Summary)
    requires PlainSection(docType, s)
    ensures Unseparated(SectionLines(docType, s), "\n")
  {
    var ls := SectionLines(docType, s);
    var head := ["=== " + docType + " ===", "Key Points:"];
    var points := PointLines(s.keyPoints);
    forall i | 0 <= i < |ls|
      ensures '\n' !in ls[i]
    {
      if 2 <= i < 2 + |points| && s.keyPoints != [] {
        assert ls[i] == "- " + s.keyPoints[i - 2];
      }
    }
  }

  lemma {:induction false} AllSectionLinesPlain(items: seq<(string, Summary)>)
    requires forall i :: 0 <= i < |items| ==> PlainSection(items[i].0, items[i].1)
    ensures Unseparated(AllSectionLines(items), "\n")
    decreases |items|
  {
    if items != [] {
      var init, last := items[..|items| - 1], items[|items| - 1];
      AllSectionLinesPlain(init);
      SectionLinesPlain(last.0, last.1);
      var a, b := AllSectionLines(init), SectionLines(last.0, last.1);
      forall i | 0 <= i < |a + b|
        ensures '\n' !in (a + b)[i]
      {
        if i < |a| { assert (a + b)[i] == a[i]; } else { assert (a + b)[i] == b[i - |a|]; }
      }
    }
  }

  /** When no identifier, label or summary field holds a newline, splitting
      the report at newlines gives back exactly its lines. */
  lemma ReportSplits(claimId: string, summaries: Dict<Summary>)
    requires Valid(summaries) && '\n' !in claimId
    requires forall k :: k in summaries.values ==> PlainSection(k, summaries.values[k])
    ensures Split(ReportText(claimId, summaries), "\n") == ReportLines(claimId, summaries)
  {
    var items := Items(summaries);
    forall i | 0 <= i < |items|
      ensures PlainSection(items[i].0, items[i].1)
    {
      assert items[i].0 in summaries.values;
    }
    AllSectionLinesPlain(items);
    var ls := ReportLines(claimId, summaries);
    var body := AllSectionLines(items);
    forall i | 0 <= i < |ls|
      ensures '\n' !in ls[i]
    {
      if 2 <= i < 2 + |body| { assert ls[i] == body[i - 2]; }
    }
    ReportIsLines(claimId, summaries);
    SplitJoin(ls, "\n");
  }
}
