/** `generate_summary(doc_type, content)`: a table of key-point slots per
    label, a random assessment and a random confidence percentage. The
    table is a dict literal, so every call evaluates the random choice of
    every slot of every label before `.get(doc_type, ...)` picks one row;
    the draws therefore cover the whole table. `content` is never read. */
module Summaries {
  import opened Text
  import opened Catalog
  import opened Wrappers

  datatype SlotValue =
    | Phrase(pool: seq<string>)     // random.choice(pool)
    | Dollars(lo: nat, hi: nat)     // f"${random.randint(lo, hi)}"

  /** One key point: a fixed prefix followed by a random value. */
  datatype Slot = Slot(prefix: string, value: SlotValue)

  datatype Summary = Summary(
    documentType: string,
    keyPoints: seq<string>,
    aiAssessment: string,
    confidenceScore: string)

  const ASSESSMENTS: seq<string> := ["Valid", "Questionable", "Requires investigation"]
  const NO_SUMMARY := "No summary available"
  const CONFIDENCE_LO := 70
  const CONFIDENCE_HI := 95

  /** The row of `summary_templates` keyed by the label of d. */
  function SummarySlots(d: DocType): seq<Slot> {
    match d
    case PoliceReport => [
      Slot("Incident Type: ", Phrase(["Collision", "Hit-and-run", "Property damage"])),
      Slot("Parties Involved: ", Phrase(["2 vehicles", "Vehicle and pedestrian", "Single vehicle"])),
      Slot("Fault Indication: ", Phrase(["Other driver cited", "No determination", "Shared responsibility"])),
      Slot("Key Details: ", Phrase(["Police report supports claim", "Discrepancies noted", "Consistent with claimant statement"]))]
    case MedicalRecords => [
      Slot("Injury Type: ", Phrase(["Whiplash", "Soft tissue", "Fracture"])),
      Slot("Treatment: ", Phrase(["Conservative", "Surgical", "Ongoing"])),
      Slot("Recovery Time: ", Phrase(["2-4 weeks", "6-8 weeks", "3+ months"])),
      Slot("Relation to Claim: ", Phrase(["Directly related", "Potentially related", "Unclear connection"]))]
    case RepairEstimate => [
      Slot("Damage Severity: ", Phrase(["Minor", "Moderate", "Severe"])),
      Slot("Repair Cost: ", Dollars(1000, 10000)),
      Slot("Parts Required: ", Phrase(["OEM", "Aftermarket", "Salvaged"])),
      Slot("Validation: ", Phrase(["Reasonable", "Above market rate", "Needs review"]))]
    case Photos => [
      Slot("Damage Visible: ", Phrase(["Yes, clearly", "Partially", "Minimal"])),
      Slot("Consistency: ", Phrase(["Matches claim", "Some discrepancies", "Needs clarification"])),
      Slot("Key Evidence: ", Phrase(["License plate visible", "Date stamps match", "Location identifiable"]))]
    case WitnessStatement => [
      Slot("Credibility: ", Phrase(["High", "Medium", "Low"])),
      Slot("Corroboration: ", Phrase(["Supports claimant", "Contradicts claimant", "Neutral"])),
      Slot("Key Points: ", Phrase(["Identified at-fault party", "Described sequence", "Noted conditions"]))]
    case InsurancePolicy => [
      Slot("Coverage Status: ", Phrase(["Active", "Lapsed", "Pending"])),
      Slot("Limits: ", Phrase(["Adequate", "Marginal", "Insufficient"])),
      Slot("Deductible: ", Phrase(["$500", "$1000", "$2000"])),
      Slot("Special Provisions: ", Phrase(["None", "Rental coverage", "Roadside assistance"]))]
    case ClaimForm => [
      Slot("Completeness: ", Phrase(["Complete", "Missing details", "Partially filled"])),
      Slot("Consistency: ", Phrase(["Consistent", "Minor discrepancies", "Major issues"])),
      Slot("Timeliness: ", Phrase(["Filed promptly", "Delayed", "Within window"]))]
    case Invoices => [
      Slot("Reasonableness: ", Phrase(["Market rates", "Above average", "Below average"])),
      Slot("Necessity: ", Phrase(["Clearly related", "Some unrelated", "Needs review"])),
      Slot("Duplication: ", Phrase(["None found", "Possible duplicates", "Exact duplicates"]))]
  }

  /** A draw for a slot: an index into its phrases, or an amount in [lo, hi]. */
  predicate SlotAccepts(s: Slot, n: int) {
    match s.value
    case Phrase(pool) => 0 <= n < |pool|
    case Dollars(lo, hi) => lo <= n <= hi
  }

  predicate SlotsFit(slots: seq<Slot>, ds: seq<int>) {
    |ds| == |slots| && forall j :: 0 <= j < |slots| ==> SlotAccepts(slots[j], ds[j])
  }

  /** The random values of one call: one row of slot draws per table row
      (all eight are evaluated), the assessment index and the confidence. */
  datatype SummaryDraws = SummaryDraws(table: seq<seq<int>>, assessment: int, confidence: int)

  predicate ValidSummaryDraws(sd: SummaryDraws) {
    && |sd.table| == |DOCUMENT_TYPES|
    && (forall d :: SlotsFit(SummarySlots(d), sd.table[Index(d)]))
    && 0 <= sd.assessment < |ASSESSMENTS|
    && CONFIDENCE_LO <= sd.confidence <= CONFIDENCE_HI
  }

  function Point(s: Slot, n: int): string
    requires SlotAccepts(s, n)
  {
    match s.value
    case Phrase(pool) => s.prefix + pool[n]
    case Dollars(_, _) => s.prefix + "$" + NatToString(n)
  }

  function Points(slots: seq<Slot>, ds: seq<int>): seq<string>
    requires SlotsFit(slots, ds)
  {
    seq(|slots|, j requires 0 <= j < |slots| => Point(slots[j], ds[j]))
  }

  /** `f"{n}%"` for a confidence n in [70, 95]: two digits and a percent sign. */
  function Confidence(n: int): (c: string)
    requires CONFIDENCE_LO <= n <= CONFIDENCE_HI
    ensures |c| == 3 && IsDigit(c[0]) && IsDigit(c[1]) && c[2] == '%'
    ensures AllDigits(c[..2]) && ParseNat(c[..2]) == n
  {
    assert Pow10(1) == 10 && Pow10(2) == 100;
    NatToStringLength(n, 2);
    ParseNatToString(n);
    var c := NatToString(n) + "%";
    assert c[..2] == NatToString(n);
    c
  }

  /** `generate_summary(doc_type, content)`. */
  function GenerateSummary(docType: string, content: string, sd: SummaryDraws): (r: Summary)
    requires ValidSummaryDraws(sd)
    ensures r.documentType == docType
    ensures r.aiAssessment in ASSESSMENTS
    ensures Parse(docType).None? ==> r.keyPoints == [NO_SUMMARY]
    ensures Parse(docType).Some? ==> |r.keyPoints| == |SummarySlots(Parse(docType).value)|
  {
    var keyPoints :=
      match Parse(docType)
      case Some(d) => Points(SummarySlots(d), sd.table[Index(d)])
      case None => [NO_SUMMARY];
    Summary(docType, keyPoints, ASSESSMENTS[sd.assessment], Confidence(sd.confidence))
  }

  /** Three key points for Photos, Witness Statement, Claim Form and
      Invoices; four for the other four labels. */
  lemma KeyPointCount(d: DocType, content: string, sd: SummaryDraws)
    requires ValidSummaryDraws(sd)
    ensures |GenerateSummary(Label(d), content, sd).keyPoints| ==
      if d.Photos? || d.WitnessStatement? || d.ClaimForm? || d.Invoices? then 3 else 4
  {
    assert Parse(Label(d)) == Some(d);
  }

  /** Key point j is slot j's prefix followed by one of that slot's values. */
  lemma KeyPointShape(d: DocType, content: string, sd: SummaryDraws, j: nat)
    requires ValidSummaryDraws(sd) && j < |SummarySlots(d)|
    ensures var slot := SummarySlots(d)[j];
      var point := GenerateSummary(Label(d), content, sd).keyPoints[j];
      && |slot.prefix| <= |point| && point[..|slot.prefix|] == slot.prefix
      && match slot.value
         case Phrase(pool) => exists k :: 0 <= k < |pool| && point == slot.prefix + pool[k]
         case Dollars(lo, hi) => exists n: nat :: lo <= n <= hi && point == slot.prefix + "$" + NatToString(n)
  {
    assert Parse(Label(d)) == Some(d);
    var slot := SummarySlots(d)[j];
    var n := sd.table[Index(d)][j];
    assert SlotAccepts(slot, n);
    var point := GenerateSummary(Label(d), content, sd).keyPoints[j];
    assert point == Point(slot, n);
    assert point[..|slot.prefix|] == slot.prefix;
  }

  /** `confidence_score` is two digits and '%', reading 70 to 95. */
  lemma ConfidenceShape(docType: string, content: string, sd: SummaryDraws)
    requires ValidSummaryDraws(sd)
    ensures var c := GenerateSummary(docType, content, sd).confidenceScore;
      && |c| == 3 && IsDigit(c[0]) && IsDigit(c[1]) && c[2] == '%'
      && CONFIDENCE_LO <= ParseNat(c[..2]) <= CONFIDENCE_HI
  {
  }

  /** The summary does not depend on `content`. */
  lemma ContentIgnored(docType: string, c1: string, c2: string, sd: SummaryDraws)
    requires ValidSummaryDraws(sd)
    ensures GenerateSummary(docType, c1, sd) == GenerateSummary(docType, c2, sd)
  {
  }
}
