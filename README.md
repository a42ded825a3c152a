# Claim summarizer data pipeline, in Dafny

`claim_summarizer.py` is a Streamlit prototype that makes up insurance
claims. It renders fake supporting documents for a claim, "summarizes" them
and offers the results for download. This project models the part of it that
computes values:

- the claims table built by `generate_claims_dataset`;
- the `", "`-joined document list stored in each record and split again by
  the UI;
- the eight document templates of `generate_document_content`, and the
  placeholder text for any other label;
- the summary table of `generate_summary`;
- the sidebar filter on type and status;
- the `docs_content` and `summaries` dicts filled in loops;
- the zip entry names;
- the summary report built with `+=`.

The Streamlit UI around these pieces is left out. Every call into `random` is a value the
caller supplies, and each such value carries the range the library
guarantees as a precondition (an index below the pool size, or an integer
in `[lo, hi]`). Every property is stated for all such values.

- `random.sample(document_types, k)` follows CPython's selection for a small
  population. Step `i` picks an index below `n - i`, takes that pool
  element, and moves the last live element into the gap. `Sampling.SampleReaches`
  shows that every ordered selection of distinct labels can be drawn.
- `summary_templates` is a dict literal, so each call of `generate_summary`
  evaluates the random choices of all eight rows before `.get` picks one.
  The model therefore takes one row of draws per label.
- `datetime.now()` readings are opaque strings carried by a `Catalog.Clock`
  value: today's date, the timestamp, and the date `n` days ago.
- The claim amount is an opaque real in `[500, 50000]`.
- The two dicts of `main` are `Dicts.Dict` values: insertion-ordered keys plus
  a map. Assigning to a key that is already present keeps its position.

Modules: `Text` (decimal formatting, split/join), `Catalog` (the label lists
and the `DocType` enumeration), `Sampling`, `Claims`, `Documents`,
`Summaries`, `Filter`, `Dicts`, `Bundle` (the multi-document tab) and `Report`.

`f"CLM-{100000 + i}"` has six digits only for indices below 900000 and seven
for indices 900000 to 9899999 (`Claims.ClaimIdWidth`); the default of 10000
claims stays below 900000.

## Model

| member | source | states |
|---|---|---|
| `Claims.ClaimId` | claim_summarizer.py:35 | definition of `f"CLM-{100000 + i}"`; the body is the model; its properties are in `Claims.ClaimIdDecodes`, `Claims.ClaimIdInjective` and `Claims.ClaimIdWidth` |
| `Claims.MakeClaim` | claim_summarizer.py:34-43 | definition of the record appended at index `i`, column for column; the body is the model; its properties are in `Claims.MakeClaimWellFormed` and `Claims.DocumentsRoundTrip` |
| `Claims.WellFormed` | claim_summarizer.py:21-42 | definition of what every generated record satisfies; established by `Claims.MakeClaimWellFormed` |
| `Claims.GenerateClaimsDataset` | claim_summarizer.py:20-45 | returns exactly `num_claims` records (none for a negative count), record `i` is the record built from iteration `i`'s draws, every record is well formed, and the Claim IDs are pairwise distinct |
| `Claims.MakeClaimWellFormed` | claim_summarizer.py:32-42 | each record's type and status come from the fixed lists and its amount lies in `[500, 50000]`; its holder is `Customer n` with `1 <= n <= 5000`; its document list splits into 3 to 8 distinct known labels, as many as "Document Count" says; its ID is `ClaimId(i)` |
| `Claims.ClaimIdDecodes` | claim_summarizer.py:35 | the Claim ID is `CLM-` followed by the decimal digits of `100000 + i`, so dropping the prefix and reading the number gives the index back |
| `Claims.ClaimIdInjective` | claim_summarizer.py:35 | distinct indices give distinct Claim IDs |
| `Claims.ClaimIdWidth` | claim_summarizer.py:35 | the ID is 10 characters for `i < 900000` and 11 for `900000 <= i < 9900000` |
| `Claims.SampledDocs` | claim_summarizer.py:32 | the sampled list has the drawn length, no repeats, and only known labels |
| `Claims.DocumentsRoundTrip` | claim_summarizer.py:41 | splitting the stored "Documents" string on `", "` returns exactly the sampled list, in order |
| `Sampling.Remove` | claim_summarizer.py:32 | taking pool index `j` leaves one element fewer, with the last live element in slot `j` and every other slot unchanged; its contents are in `Sampling.RemoveContents` |
| `Sampling.Sample` | claim_summarizer.py:32 | `random.sample` returns as many elements as picks, all from the population, with no repeats when the population has none |
| `Sampling.RemoveContents` | claim_summarizer.py:32 | after removing one element from a duplicate-free pool, the pool holds exactly the other elements, each once |
| `Sampling.SampleReaches` | claim_summarizer.py:32 | every ordered selection of distinct population members is the result of some valid index sequence |
| `Text.NatToString` | claim_summarizer.py:35 | `str(n)` is a non-empty digit string with no leading zero |
| `Text.ParseNatToString` | claim_summarizer.py:35 | reading back `str(n)` gives `n` |
| `Text.NatToStringInjective` | claim_summarizer.py:35 | distinct numbers print differently |
| `Text.NatToStringLength` | claim_summarizer.py:35 | a number in `[10^(k-1), 10^k)` prints with `k` digits |
| `Text.Pad2` | claim_summarizer.py:57 | `:02d` gives at least two digits, exactly two below 100, and reads back as the number |
| `Text.FindFrom` | claim_summarizer.py:287 | finds the leftmost occurrence of the separator at or after a position, or reports none |
| `Text.Split` | claim_summarizer.py:287 | `str.split(sep)` always returns at least one field |
| `Text.Join` | claim_summarizer.py:41 | definition of `sep.join(parts)`; the body is the model; its properties are in `Text.SplitJoin`, `Text.JoinSplit` and `Text.JoinConcat` |
| `Text.SplitJoin` | claim_summarizer.py:41 | splitting a non-empty join gives the parts back when no part contains the separator's first character |
| `Text.JoinSplit` | claim_summarizer.py:318 | joining a split gives the original string back, whatever the string |
| `Text.JoinConcat` | claim_summarizer.py:370 | for non-empty halves, joining a concatenation joins each half with one separator between them |
| `Text.FirstField` | claim_summarizer.py:50 | the first field of `p + sep + rest` is `p` when `p` lacks the separator's first character |
| `Catalog.Index` | claim_summarizer.py:23-24 | each document type sits at its position in the source's label list |
| `Catalog.Parse` | claim_summarizer.py:49-160 | a string selects a document type exactly when it equals that type's label |
| `Catalog.KnownLabels` | claim_summarizer.py:23-24 | a string is in the label list exactly when it is one of the eight labels |
| `Catalog.LabelsPlain` | claim_summarizer.py:23-24 | no label contains a comma or a newline |
| `Catalog.DocumentTypesDistinct` | claim_summarizer.py:23-24 | the eight labels are distinct |
| `Documents.Title` | claim_summarizer.py:50-148 | definition of the eight title words; the body is the model; their properties are in `Documents.TitlesDiverge` and `Documents.TitleLineIdentifies` |
| `Documents.Header` | claim_summarizer.py:50 | definition of the first template line `<TITLE> - CLAIM {claim_id}`; its property is in `Documents.FillHeader` |
| `Documents.Body` | claim_summarizer.py:51-158 | definition: the rest of each of the eight templates, literal text and random fields in source order; the body is the model |
| `Documents.Template` | claim_summarizer.py:49-158 | definition: header followed by body; its property is in `Documents.RenderDocument` |
| `Documents.TemplateFor` | claim_summarizer.py:49-161 | definition of the if/elif dispatch: a known label selects its template, any other selects none |
| `Documents.Show` | claim_summarizer.py:51-158 | definition of how one f-string field prints its draws: a choice, an integer, `:02d`, `:.2f`, a date, or `random.choices` characters |
| `Documents.Fill` | claim_summarizer.py:50-158 | definition of filling a template left to right, each field taking the next draws; its property is in `Documents.FillHeader` |
| `Documents.RenderDocument` | claim_summarizer.py:48-163 | for a known label the text opens with `<TITLE> - CLAIM <claim_id>` and a newline; any other label gives exactly `Document content not available` |
| `Documents.FillHeader` | claim_summarizer.py:50 | the title line takes no random values, and the rest of the template is filled from the same draws |
| `Documents.FirstLineNamesClaim` | claim_summarizer.py:50 | the first line of a known label's text is exactly `<TITLE> - CLAIM <claim_id>` when the ID holds no newline |
| `Documents.TitlePlain` | claim_summarizer.py:50 | no title line prefix contains a newline |
| `Documents.Tag` | claim_summarizer.py:50 | gives the first six characters of each title |
| `Documents.TitlesDiverge` | claim_summarizer.py:50-148 | distinct document types have titles that differ within six characters |
| `Documents.TitleLineIdentifies` | claim_summarizer.py:50-148 | a title line determines both the document type and the claim ID |
| `Summaries.SummarySlots` | claim_summarizer.py:169-214 | definition of the `summary_templates` row of each label: fixed prefixes and phrase pools; its properties are in `Summaries.KeyPointCount` and `Summaries.KeyPointShape` |
| `Summaries.Point` | claim_summarizer.py:171-212 | definition of one key point, prefix plus `random.choice` or `f"${randint}"`; its property is in `Summaries.KeyPointShape` |
| `Summaries.Points` | claim_summarizer.py:169-214 | definition of one row of key points; its properties are in `Summaries.KeyPointCount` and `Summaries.KeyPointShape` |
| `Summaries.GenerateSummary` | claim_summarizer.py:166-223 | echoes `doc_type`, takes the assessment from the three values, gives `["No summary available"]` for an unknown label, and has one key point per slot of a known label |
| `Summaries.KeyPointCount` | claim_summarizer.py:169-214 | four key points for Police Report, Medical Records, Repair Estimate and Insurance Policy; three for Photos, Witness Statement, Claim Form and Invoices |
| `Summaries.KeyPointShape` | claim_summarizer.py:169-214 | key point `j` starts with slot `j`'s fixed prefix and continues with one of that slot's phrases or with `$` and an amount in its range |
| `Summaries.Confidence` | claim_summarizer.py:220 | `f"{n}%"` for `n` in `[70, 95]` is two digits and `%`, and the digits read back as `n` |
| `Summaries.ConfidenceShape` | claim_summarizer.py:220 | the confidence score is two digits followed by `%`, and the digits read a number in `[70, 95]` |
| `Summaries.ContentIgnored` | claim_summarizer.py:166-223 | the summary is the same whatever `content` is |
| `Filter.Keep` | claim_summarizer.py:257 | `df[mask]` keeps at most as many rows as it is given, and each kept row is an input row satisfying the mask; the exact counts are in `Filter.KeepCounts` |
| `Filter.Selected` | claim_summarizer.py:255-259 | definition of the single criterion: the type matches unless "All", and the status matches unless "All" |
| `Filter.FilterClaims` | claim_summarizer.py:255-259 | the two masks of the source in turn; every kept claim is an input claim meeting the criterion, and no more claims come out than go in; exactness and order are in `Filter.FilterExact` and `Filter.FilterKeepsOrder` |
| `Filter.KeepAll` | claim_summarizer.py:255-259 | a mask that holds everywhere keeps every row |
| `Filter.KeepKeep` | claim_summarizer.py:255-259 | applying two masks in turn equals applying their conjunction |
| `Filter.KeepAppend` | claim_summarizer.py:255-259 | masking a concatenation masks each part, in order |
| `Filter.KeepCounts` | claim_summarizer.py:255-259 | a row satisfying the mask is kept as often as it occurs; any other row is never kept |
| `Filter.FilterIsSelection` | claim_summarizer.py:255-259 | the two-step filter equals one selection by "type matches unless All, and status matches unless All" |
| `Filter.FilterExact` | claim_summarizer.py:255-259 | every matching claim is kept as often as it occurs, no other claim is kept, and membership holds exactly for matching input claims |
| `Filter.FilterKeepsOrder` | claim_summarizer.py:255-259 | filtering a concatenation filters each part, so the result keeps the input order |
| `Dicts.Empty` | claim_summarizer.py:325 | `{}` is a valid dict with no keys |
| `Dicts.Put` | claim_summarizer.py:328 | `d[k] = v` keeps the dict valid and stores `v` under `k`; an existing key keeps its position and a new key goes last |
| `Dicts.Items` | claim_summarizer.py:333 | `d.items()` lists each key of the dict exactly once, in insertion order, paired with its value; no key appears twice and every key appears |
| `Dicts.Dedup` | claim_summarizer.py:326-328 | definition of the key order the loop produces, the first occurrence of each label; its properties are in `Dicts.DedupContents`, `Dicts.DedupDistinct` and `Dicts.PutStep` |
| `Dicts.DedupContents` | claim_summarizer.py:326-328 | the first occurrences of a list have no repeats and the same members as the list |
| `Dicts.DedupDistinct` | claim_summarizer.py:326-328 | a list without repeats is its own first occurrences |
| `Dicts.PutStep` | claim_summarizer.py:326-328 | one more assignment keeps the keys in first-occurrence order and each value the last one assigned |
| `Dicts.LatestStep` | claim_summarizer.py:326-328 | after one more assignment each key holds the value of its last assignment |
| `Dicts.Assigned` | claim_summarizer.py:326-328 | after the loop the keys are exactly the labels assigned |
| `Bundle.GenerateDocuments` | claim_summarizer.py:325-328 | `docs_content` has the selected labels as keys, in first-selected order (the selection itself when it has no repeats); each key holds the text rendered for its last selection |
| `Bundle.GenerateSummaries` | claim_summarizer.py:351-354 | `summaries` has the selected labels as keys, in the same order; each key holds the summary of its label and stored text |
| `Bundle.EntryName` | claim_summarizer.py:332 | definition of `f"{selected_claim_id}_{doc_type}.txt"`; its property is in `Bundle.EntryNameInjective` |
| `Bundle.ArchiveName` | claim_summarizer.py:339 | definition of `f"{selected_claim_id}_documents.zip"`; its property is in `Bundle.DownloadNamesDistinct` |
| `Bundle.ReportName` | claim_summarizer.py:377 | definition of `f"{selected_claim_id}_summary_report.txt"`; its property is in `Bundle.DownloadNamesDistinct` |
| `Bundle.EntryNameInjective` | claim_summarizer.py:331-334 | entry names `<claim>_<label>.txt` of one claim are distinct for distinct labels |
| `Bundle.ZipFiles` | claim_summarizer.py:331-334 | the comprehension's result is a valid dict |
| `Bundle.ZipFilesExact` | claim_summarizer.py:331-334 | for items with distinct labels, entry `i` is named after item `i`'s label and holds its text |
| `Bundle.ZipEntries` | claim_summarizer.py:331-334 | the archive has one entry per stored document, in dict order, named `<claim>_<label>.txt` and holding that document's text |
| `Bundle.DownloadNamesDistinct` | claim_summarizer.py:339 | the archive name differs from the report name and from every entry name |
| `Report.Bullets` | claim_summarizer.py:370 | definition of the `f"- {point}"` generator; the body is the model, and its property is in `Report.SectionIsLines` |
| `Report.ReportHeader` | claim_summarizer.py:366 | definition of the first append, `Claim <id> - Summary Report` and a blank line |
| `Report.Section` | claim_summarizer.py:368-372 | definition of the text one loop pass appends; its line structure is in `Report.SectionIsLines` |
| `Report.Sections` | claim_summarizer.py:367-372 | definition of the sections of all summaries, in dict order; its line structure is in `Report.SectionsAreLines` |
| `Report.SectionLines` | claim_summarizer.py:368-372 | definition of a section read line by line; tied to the text by `Report.SectionIsLines` |
| `Report.ReportLines` | claim_summarizer.py:366-372 | definition of the report read line by line; tied to the text by `Report.ReportIsLines` and `Report.ReportSplits` |
| `Report.ReportText` | claim_summarizer.py:366-372 | the report starts with `Claim <id> - Summary Report` and a blank line |
| `Report.BuildReport` | claim_summarizer.py:366-372 | the `+=` loop builds the header followed by one section per summary, in dict order |
| `Report.AppendSection` | claim_summarizer.py:368-372 | the five appends of one pass add exactly one section |
| `Report.SectionsStep` | claim_summarizer.py:367 | one more summary adds its section after the earlier ones |
| `Report.UnlinesAppend` | claim_summarizer.py:366-372 | newline-terminated lines of a concatenation are the two texts one after the other |
| `Report.JoinUnlines` | claim_summarizer.py:370 | `"\n".join(lines) + "\n"` ends every line with a newline |
| `Report.SectionIsLines` | claim_summarizer.py:368-372 | a section is the lines `=== <doc> ===`, `Key Points:`, one `- <point>` line per key point (one empty line if there are none), `Assessment: <a>`, `Confidence: <c>` and an empty line, each ending in a newline |
| `Report.HeadLines` | claim_summarizer.py:368-369 | the first two lines of a section, each ending in a newline |
| `Report.TailLines` | claim_summarizer.py:371-372 | the assessment and confidence lines and the blank line after them |
| `Report.SectionParts` | claim_summarizer.py:368-372 | a section is its head, the joined bullets with a newline, and its tail |
| `Report.SectionsAreLines` | claim_summarizer.py:367-372 | the sections' text is their lines in order, each ending in a newline |
| `Report.ReportIsLines` | claim_summarizer.py:366-372 | the report is its header line, a blank line and every section's lines, in dict order, joined by newlines |
| `Report.SectionLinesPlain` | claim_summarizer.py:368-372 | a section's lines hold no newline when its label and summary fields hold none |
| `Report.AllSectionLinesPlain` | claim_summarizer.py:367-372 | no line of any section holds a newline when no field does |
| `Report.ReportSplits` | claim_summarizer.py:366-372 | when the claim ID, the labels and the summary fields hold no newline, splitting the report at newlines gives exactly those lines back |

## Left out

- The Streamlit UI is not modelled: page setup, sidebar widgets, tabs,
  spinners, buttons, expanders and `st.*` rendering. The claim picked by the
  selectbox and the `.iloc[0]` row (lines 262-267) are UI choices; the model
  starts from a claim ID and a list of selected labels.
- `time.sleep(1)` in `generate_summary` has no effect on the result and is
  left out.
- `datetime.now()` and `timedelta` arithmetic are not modelled: the dates are
  opaque strings from a `Clock`.
- `Claims.MakeClaim`: the amount is the drawn real itself, in `[500, 50000]`.
  `round(..., 2)` and the uniform float draw are floating point and are not
  modelled.
- The random source is not modelled as a distribution; it is a list of
  supplied values.
- Base64 links, `zipfile`/`BytesIO` and the pandas DataFrame are left out.
  The model keeps only the file names and texts handed to them, and treats
  the table as a sequence of records.
- `@st.cache_data` memoisation is left out.
- The default argument `num_claims=10000` (line 20) is not modelled:
  `Claims.GenerateClaimsDataset` always takes the count from its caller.
  The call at line 247 relies on the default, so a caller of the model
  passes 10000 for it.
- `Summaries.GenerateSummary`: the model has no lemma that key-point phrases
  are free of newlines. So `Report.ReportSplits` takes newline-freedom of
  the summary fields as a hypothesis; it does not derive it.
