/** The multi-document tab of `main`: fill `docs_content` with one generated
    text per selected label, name the zip entries after the claim and the
    label, and fill `summaries` with one summary per selected label. */
module Bundle {
  import opened Catalog
  import opened Dicts
  import opened Documents
  import opened Summaries

  /** `for doc_type in selected_docs: docs_content[doc_type] =
      generate_document_content(doc_type, selected_claim_id)`; draws[i]
      feeds the i-th call. A label listed twice keeps its first position
      and its last text. */
  method GenerateDocuments(selectedDocs: seq<string>, claimId: string, clock: Clock, draws: seq<seq<int>>)
    returns (docsContent: Dict<string>)
    requires |draws| == |selectedDocs|
    requires forall i :: 0 <= i < |selectedDocs| ==> Fits(TemplateFor(selectedDocs[i]), draws[i])
    ensures Valid(docsContent)
    ensures docsContent.keys == Dedup(selectedDocs)
    ensures Distinct(selectedDocs) ==> docsContent.keys == selectedDocs
    ensures forall k :: k in docsContent.values <==> k in selectedDocs
    ensures forall i :: 0 <= i < |selectedDocs| && selectedDocs[i] !in selectedDocs[i + 1..] ==>
      docsContent.values[selectedDocs[i]] == RenderDocument(selectedDocs[i], claimId, clock, draws[i])
  {
    ghost var texts := seq(|selectedDocs|, j requires 0 <= j < |selectedDocs| =>
      RenderDocument(selectedDocs[j], claimId, clock, draws[j]));
    docsContent := Empty();
    var i := 0;
    while i < |selectedDocs|
      invariant 0 <= i <= |selectedDocs|
      invariant Valid(docsContent)
      invariant docsContent.keys == Dedup(selectedDocs[..i])
      invariant Latest(docsContent, selectedDocs, texts, i)
    {
      var doc := selectedDocs[i];
      PutStep(docsContent, selectedDocs, texts, i);
      docsContent := Put(docsContent, doc, RenderDocument(doc, claimId, clock, draws[i]));
      i := i + 1;
    }
    assert selectedDocs[..i] == selectedDocs;
    Assigned(docsContent, selectedDocs);
    if Distinct(selectedDocs) {
      DedupDistinct(selectedDocs);
    }
  }

  /** `for doc_type in selected_docs: summaries[doc_type] =
      generate_summary(doc_type, docs_content[doc_type])`; the lookup
      raises KeyError for a label `docs_content` lacks, so every label
      must be a key. */
  method GenerateSummaries(selectedDocs: seq<string>, docsContent: Dict<string>, draws: seq<SummaryDraws>)
    returns (summaries: Dict<Summary>)
    requires |draws| == |selectedDocs|
    requires forall i :: 0 <= i < |selectedDocs| ==> ValidSummaryDraws(draws[i])
    requires forall i :: 0 <= i < |selectedDocs| ==> selectedDocs[i] in docsContent.values
    ensures Valid(summaries)
    ensures summaries.keys == Dedup(selectedDocs)
    ensures Distinct(selectedDocs) ==> summaries.keys == selectedDocs
    ensures forall k :: k in summaries.values <==> k in selectedDocs
    ensures forall i :: 0 <= i < |selectedDocs| && selectedDocs[i] !in selectedDocs[i + 1..] ==>
      summaries.values[selectedDocs[i]] == GenerateSummary(selectedDocs[i], docsContent.values[selectedDocs[i]], draws[i])
  {
    ghost var results := seq(|selectedDocs|, j requires 0 <= j < |selectedDocs| =>
      GenerateSummary(selectedDocs[j], docsContent.values[selectedDocs[j]], draws[j]));
    summaries := Empty();
    var i := 0;
    while i < |selectedDocs|
      invariant 0 <= i <= |selectedDocs|
      invariant Valid(summaries)
      invariant summaries.keys == Dedup(selectedDocs[..i])
      invariant Latest(summaries, selectedDocs, results, i)
    {
      var doc := selectedDocs[i];
      PutStep(summaries, selectedDocs, results, i);
      summaries := Put(summaries, doc, GenerateSummary(doc, docsContent.values[doc], draws[i]));
      i := i + 1;
    }
    assert selectedDocs[..i] == selectedDocs;
    Assigned(summaries, selectedDocs);
    if Distinct(selectedDocs) {
      DedupDistinct(selectedDocs);
    }
  }

  /** `f"{selected_claim_id}_{doc_type}.txt"` */
  function EntryName(claimId: string, docType: string): string {
    claimId + "_" + docType + ".txt"
  }

  /** The label is recovered from an entry name by dropping the claim
      prefix and the extension, so names of one claim never collide. */
  lemma EntryNameInjective(claimId: string, d1: string, d2: string)
    ensures EntryName(claimId, d1) == EntryName(claimId, d2) ==> d1 == d2
  {
    var n1, n2 := EntryName(claimId, d1), EntryName(claimId, d2);
    assert n1[|claimId| + 1..|n1| - 4] == d1;
    assert n2[|claimId| + 1..|n2| - 4] == d2;
  }

  /** The dict comprehension over `docs_content.items()` that names the zip
      entries, built entry by entry as the comprehension inserts them. */
  function ZipFiles(claimId: string, items: seq<(string, string)>): (files: Dict<string>)
    ensures Valid(files)
    decreases |items|
  {
    if items == [] then Empty()
    else
      var last := items[|items| - 1];
      Put(ZipFiles(claimId, items[..|items| - 1]), EntryName(claimId, last.0), last.1)
  }

  /** For items with distinct labels, item i becomes entry i, named after
      its label and holding its text. */
  lemma {:induction false} ZipFilesExact(claimId: string, items: seq<(string, string)>)
    requires forall i, j :: 0 <= i < j < |items| ==> items[i].0 != items[j].0
    ensures |ZipFiles(claimId, items).keys| == |items|
    ensures forall i :: 0 <= i < |items| ==>
      ZipFiles(claimId, items).keys[i] == EntryName(claimId, items[i].0) &&
      ZipFiles(claimId, items).values[EntryName(claimId, items[i].0)] == items[i].1
    decreases |items|
  {
    if items != [] {
      var init := items[..|items| - 1];
      var last := items[|items| - 1];
      ZipFilesExact(claimId, init);
      var prev := ZipFiles(claimId, init);
      var name := EntryName(claimId, last.0);
      forall i | 0 <= i < |init|
        ensures prev.keys[i] != name
      {
        EntryNameInjective(claimId, init[i].0, last.0);
      }
      assert name !in prev.values;
    }
  }

  /** The archive of `docs_content` has one entry per stored document, in
      the dict's order, named `<claim>_<label>.txt` and holding its text. */
  lemma ZipEntries(claimId: string, docsContent: Dict<string>)
    requires Valid(docsContent)
    ensures var files := ZipFiles(claimId, Items(docsContent));
      && |files.keys| == |docsContent.keys|
      && forall i :: 0 <= i < |docsContent.keys| ==>
           files.keys[i] == EntryName(claimId, docsContent.keys[i]) &&
           files.values[files.keys[i]] == docsContent.values[docsContent.keys[i]]
  {
    ZipFilesExact(claimId, Items(docsContent));
  }

  /** `f"{selected_claim_id}_documents.zip"` and
      `f"{selected_claim_id}_summary_report.txt"`: the two download names
      differ from each other and from every entry name. */
  function ArchiveName(claimId: string): string {
    claimId + "_documents.zip"
  }

  function ReportName(claimId: string): string {
    claimId + "_summary_report.txt"
  }

  lemma DownloadNamesDistinct(claimId: string, docType: string)
    ensures ArchiveName(claimId) != ReportName(claimId)
    ensures ArchiveName(claimId) != EntryName(claimId, docType)
  {
    var a, r, e := ArchiveName(claimId), ReportName(claimId), EntryName(claimId, docType);
    assert a[|a| - 4..] == ".zip";
    assert r[|r| - 4..] == ".txt";
    assert e[|e| - 4..] == ".txt";
  }
}
