/** `generate_document_content(doc_type, claim_id)`: an if/elif dispatch
    over the eight labels, each branch an f-string template. A template is
    written here as a list of pieces; each random piece consumes the next
    supplied draws, in the left-to-right order Python evaluates the
    f-string's fields. */
module Documents {
  import opened Text
  import opened Catalog
  import opened Wrappers

  datatype Piece =
    | Lit(text: string)
    | ClaimIdSlot                           // {claim_id}
    | Choice(pool: seq<string>)             // {random.choice(pool)}
    | Number(lo: nat, hi: nat)              // {random.randint(lo, hi)}
    | Padded(lo: nat, hi: nat)              // {random.randint(lo, hi):02d}
    | Money(lo: nat, hi: nat)               // {random.randint(lo, hi):.2f}
    | Today                                 // {datetime.now().strftime('%Y-%m-%d')}
    | Timestamp                             // {datetime.now().strftime('%Y-%m-%d %H:%M')}
    | DaysAgo(lo: nat, hi: nat)             // {(datetime.now() - timedelta(days=randint(lo, hi))).strftime(...)}
    | Chars(alphabet: string, count: nat)   // {''.join(random.choices(alphabet, k=count))}

  /** How many random values a piece consumes. */
  function Need(p: Piece): nat {
    match p
    case Choice(_) => 1
    case Number(_, _) => 1
    case Padded(_, _) => 1
    case Money(_, _) => 1
    case DaysAgo(_, _) => 1
    case Chars(_, count) => count
    case _ => 0
  }

  /** The draws lie where the library call puts them: an index below the
      pool size, or an integer in [lo, hi]. */
  predicate Accepts(p: Piece, ds: seq<int>) {
    |ds| == Need(p) &&
    match p
    case Choice(pool) => 0 <= ds[0] < |pool|
    case Number(lo, hi) => lo <= ds[0] <= hi
    case Padded(lo, hi) => lo <= ds[0] <= hi
    case Money(lo, hi) => lo <= ds[0] <= hi
    case DaysAgo(lo, hi) => lo <= ds[0] <= hi
    case Chars(alphabet, _) => forall i :: 0 <= i < |ds| ==> 0 <= ds[i] < |alphabet|
    case _ => true
  }

  /** The draws cover the template exactly, piece by piece. */
  predicate Fits(ps: seq<Piece>, ds: seq<int>)
    decreases |ps|
  {
    if ps == [] then ds == []
    else Need(ps[0]) <= |ds| && Accepts(ps[0], ds[..Need(ps[0])]) && Fits(ps[1..], ds[Need(ps[0])..])
  }

  function Show(p: Piece, claimId: string, clock: Clock, ds: seq<int>): string
    requires Accepts(p, ds)
  {
    match p
    case Lit(text) => text
    case ClaimIdSlot => claimId
    case Choice(pool) => pool[ds[0]]
    case Number(_, _) => NatToString(ds[0])
    case Padded(_, _) => Pad2(ds[0])
    case Money(_, _) => NatToString(ds[0]) + ".00"
    case Today => clock.today
    case Timestamp => clock.timestamp
    case DaysAgo(_, _) => clock.daysAgo(ds[0])
    case Chars(alphabet, count) => seq(count, i requires 0 <= i < count => alphabet[ds[i]])
  }

  function Fill(ps: seq<Piece>, claimId: string, clock: Clock, ds: seq<int>): string
    requires Fits(ps, ds)
    decreases |ps|
  {
    if ps == [] then ""
    else
      var k := Need(ps[0]);
      Show(ps[0], claimId, clock, ds[..k]) + Fill(ps[1..], claimId, clock, ds[k..])
  }

  /** A line of eight spaces separates the sections of every template. */
  const GAP := "\n        \n"
  const PLACEHOLDER := "Document content not available"
  const VIN_ALPHABET := "ABCDEFGHJKLMNPRSTUVWXYZ1234567890"

  function Title(d: DocType): string {
    match d
    case PoliceReport => "POLICE REPORT"
    case MedicalRecords => "MEDICAL RECORDS"
    case RepairEstimate => "REPAIR ESTIMATE"
    case Photos => "PHOTO DOCUMENTATION"
    case WitnessStatement => "WITNESS STATEMENT"
    case InsurancePolicy => "POLICY DETAILS"
    case ClaimForm => "CLAIM FORM"
    case Invoices => "INVOICES"
  }

  /** The first line of every template: `<TITLE> - CLAIM {claim_id}`. */
  function Header(d: DocType): seq<Piece> {
    [Lit(Title(d) + " - CLAIM "), ClaimIdSlot, Lit("\n")]
  }

  /** Everything after the first line, template by template. */
  function Body(d: DocType): seq<Piece> {
    match d
    case PoliceReport => [
      Lit("Date: "), Today,
      Lit("\nOfficer: Officer "), Choice(["Smith", "Johnson", "Williams", "Brown"]),
      Lit(GAP + "Incident Description:\nThe claimant reported a "),
      Choice(["minor", "moderate", "major"]), Lit(" \n"),
      Choice(["collision", "hit-and-run", "parking lot incident"]),
      Lit(" \noccurring at approximately "), Number(1, 12), Lit(":"), Padded(0, 59), Lit(" \n"),
      Choice(["AM", "PM"]), Lit(" on "), Choice(["Main St", "Oak Ave", "Highway 101"]),
      Lit("." + GAP + "Parties Involved:\n- Claimant: "),
      Choice(["cooperative", "uncooperative", "injured"]),
      Lit("\n- Other Driver: "), Choice(["insured", "uninsured", "fled scene"]),
      Lit(GAP + "Officer Notes:\n"),
      Choice(["No signs of impairment", "Possible distracted driving",
              "Weather conditions may have contributed"]),
      Lit(". \n"), Choice(["Citation issued", "No citations issued"]), Lit(".")]
    case MedicalRecords => [
      Lit("Patient: "), Choice(["John Doe", "Jane Smith", "Robert Johnson"]),
      Lit("\nProvider: "),
      Choice(["City General Hospital", "Regional Medical Center", "Urgent Care Clinic"]),
      Lit(GAP + "Diagnosis:\n- "),
      Choice(["Whiplash", "Concussion", "Sprained wrist", "Lacerations"]),
      Lit("\n- Severity: "), Choice(["Mild", "Moderate", "Severe"]),
      Lit(GAP + "Treatment:\n- "),
      Choice(["Pain medication prescribed", "Physical therapy recommended",
              "Surgery performed", "Follow-up required"]),
      Lit(GAP + "Estimated Recovery Time: "), Number(2, 12), Lit(" weeks")]
    case RepairEstimate => [
      Lit("Shop: "), Choice(["City Auto Body", "Precision Repairs", "Collision Experts"]),
      Lit("\nDate: "), Today,
      Lit(GAP + "Vehicle: "),
      Choice(["2018 Toyota Camry", "2020 Honda Accord", "2019 Ford F-150"]),
      Lit("\nVIN: "), Chars(VIN_ALPHABET, 17),
      Lit(GAP + "Damage Assessment:\n- "),
      Choice(["Front bumper damage", "Passenger side dent", "Rear collision damage"]),
      Lit("\n- "), Choice(["Headlight assembly broken", "Paint scratches", "Frame damage"]),
      Lit(GAP + "Parts: $"), Money(500, 2500),
      Lit("\nLabor: $"), Money(1000, 5000),
      Lit("\nTotal Estimate: $"), Money(1500, 7500)]
    case Photos => [
      Number(3, 12), Lit(" photos attached showing:\n- "),
      Choice(["Vehicle damage", "Property damage", "Injury documentation"]),
      Lit("\n- "), Choice(["Close-up of damage", "Wide shot of scene", "License plate visible"]),
      Lit(GAP + "Photo Notes:\nTimestamp: "), Timestamp,
      Lit("\nLocation: "),
      Choice(["GPS coordinates recorded", "Landmark visible", "Street sign shown"])]
    case WitnessStatement => [
      Lit("Witness: "), Choice(["Mary Johnson", "David Wilson", "Sarah Miller"]),
      Lit("\nContact: "), Number(200, 999), Lit("-"), Number(200, 999), Lit("-"), Number(1000, 9999),
      Lit(GAP + "Statement:\n\"I observed "),
      Choice(["the collision", "the incident", "the aftermath"]),
      Lit(" at approximately \n"), Number(1, 12), Lit(":"), Padded(0, 59), Lit(" "),
      Choice(["AM", "PM"]),
      Lit(". \nThe other vehicle appeared to be at fault. \nI stayed until authorities arrived.")]
    case InsurancePolicy => [
      Lit("Policy Holder: "), Choice(["John Smith", "Emily Johnson", "Michael Williams"]),
      Lit("\nPolicy Number: "), Number(1000000, 9999999),
      Lit(GAP + "Coverage:\n- Liability: $"), Choice(["25000", "50000", "100000"]),
      Lit("\n- Collision: "), Choice(["$500 deductible", "$1000 deductible", "Not covered"]),
      Lit("\n- Comprehensive: "), Choice(["Included", "Not included"]),
      Lit(GAP + "Effective Dates: "),
      Choice(["01/01/2023 - 01/01/2024", "03/15/2023 - 03/15/2024"]),
      Lit("\nStatus: "), Choice(["Active", "Pending renewal", "Cancelled"])]
    case ClaimForm => [
      Lit("Date of Loss: "), DaysAgo(1, 30),
      Lit("\nTime: "), Number(1, 12), Lit(":"), Padded(0, 59), Lit(" "), Choice(["AM", "PM"]),
      Lit("\nLocation: "), Choice(["123 Main St", "456 Oak Ave", "Highway 101 at Exit 42"]),
      Lit(GAP + "Description of Loss:\n"),
      Choice(["Rear-ended at stop light", "Hail damage to roof",
              "Theft from parked vehicle", "Slip and fall at business"]),
      Lit(GAP + "Injuries: "), Choice(["None reported", "Whiplash", "Back pain", "Broken arm"]),
      Lit("\nPolice Report: "), Choice(["Yes", "No", "Pending"])]
    case Invoices => [
      Lit("Provider: "), Choice(["City Hospital", "Towing Services Inc", "Auto Body Specialists"]),
      Lit("\nDate: "), Today,
      Lit(GAP + "Services:\n- "), Choice(["Emergency room visit", "Vehicle tow", "Repair labor"]),
      Lit(": $"), Money(200, 2000),
      Lit("\n- "), Choice(["X-rays", "Storage fees", "Parts"]), Lit(": $"), Money(100, 1500),
      Lit("\n- "), Choice(["Medication", "Rental car", "Diagnostics"]), Lit(": $"), Money(50, 800),
      Lit(GAP + "Total: $"), Money(350, 4300),
      Lit("\nPaid by: "), Choice(["Patient", "Insurance", "Pending"])]
  }

  function Template(d: DocType): seq<Piece> {
    Header(d) + Body(d)
  }

  /** The pieces a label's branch fills; the else branch fills none. */
  function TemplateFor(docType: string): seq<Piece> {
    match Parse(docType)
    case Some(d) => Template(d)
    case None => []
  }

  /** A header consumes no draws and prints the title line. */
  lemma {:induction false} FillHeader(title: string, body: seq<Piece>, claimId: string, clock: Clock, ds: seq<int>)
    requires Fits([Lit(title + " - CLAIM "), ClaimIdSlot, Lit("\n")] + body, ds)
    ensures Fits(body, ds)
    ensures Fill([Lit(title + " - CLAIM "), ClaimIdSlot, Lit("\n")] + body, claimId, clock, ds)
         == title + " - CLAIM " + claimId + "\n" + Fill(body, claimId, clock, ds)
  {
    var t := [Lit(title + " - CLAIM "), ClaimIdSlot, Lit("\n")] + body;
    var t1 := [ClaimIdSlot, Lit("\n")] + body;
    var t2 := [Lit("\n")] + body;
    assert ds[..0] == [] && ds[0..] == ds;
    assert t[0] == Lit(title + " - CLAIM ") && t[1..] == t1;
    assert t1[0] == ClaimIdSlot && t1[1..] == t2;
    assert t2[0] == Lit("\n") && t2[1..] == body;
    assert Fits(t1, ds);
    assert Fits(t2, ds);
    assert Fill(t2, claimId, clock, ds) == "\n" + Fill(body, claimId, clock, ds);
    assert Fill(t1, claimId, clock, ds) == claimId + Fill(t2, claimId, clock, ds);
    assert Fill(t, claimId, clock, ds) == title + " - CLAIM " + Fill(t1, claimId, clock, ds);
  }

  /** `generate_document_content(doc_type, claim_id)`. For one of the eight
      labels the text opens with the line `<TITLE> - CLAIM <claim_id>`; any
      other label gives the placeholder text. */
  function RenderDocument(docType: string, claimId: string, clock: Clock, ds: seq<int>): (text: string)
    requires Fits(TemplateFor(docType), ds)
    ensures Parse(docType).Some? ==>
      var h := Title(Parse(docType).value) + " - CLAIM " + claimId + "\n";
      |h| <= |text| && text[..|h|] == h
    ensures Parse(docType).None? ==> text == PLACEHOLDER
  {
    match Parse(docType)
    case Some(d) =>
      FillHeader(Title(d), Body(d), claimId, clock, ds);
      Fill(Template(d), claimId, clock, ds)
    case None => PLACEHOLDER
  }

  /** The text's first line is exactly the title line when the identifier
      holds no newline (titles hold none). */
  lemma FirstLineNamesClaim(d: DocType, claimId: string, clock: Clock, ds: seq<int>)
    requires Fits(Template(d), ds) && '\n' !in claimId
    ensures Split(RenderDocument(Label(d), claimId, clock, ds), "\n")[0] == Title(d) + " - CLAIM " + claimId
  {
    assert Parse(Label(d)) == Some(d);
    var text := RenderDocument(Label(d), claimId, clock, ds);
    var lead := Title(d) + " - CLAIM ";
    TitlePlain(d);
    var line := lead + claimId;
    assert text[..|line| + 1] == line + "\n";
    var rest := text[|line| + 1..];
    assert text == line + "\n" + rest;
    FirstField(line, "\n", rest);
  }

  lemma TitlePlain(d: DocType)
    ensures '\n' !in Title(d) + " - CLAIM "
  {
  }

  /** The first six characters of a title, spelled out. */
  function Tag(d: DocType): (t: string)
    ensures |Title(d)| >= 6 && Title(d)[..6] == t
  {
    match d
    case PoliceReport => "POLICE"
    case MedicalRecords => "MEDICA"
    case RepairEstimate => "REPAIR"
    case Photos => "PHOTO "
    case WitnessStatement => "WITNES"
    case InsurancePolicy => "POLICY"
    case ClaimForm => "CLAIM "
    case Invoices => "INVOIC"
  }

  /** Titles diverge within their first six characters. */
  lemma TitlesDiverge(d1: DocType, d2: DocType)
    requires d1 != d2
    ensures Title(d1)[..6] != Title(d2)[..6]
  {
    assert Tag(d1) != Tag(d2);
  }

  /** A title line names one document type and one claim: from
      `<TITLE> - CLAIM <id>` both are recovered. */
  lemma TitleLineIdentifies(d1: DocType, id1: string, d2: DocType, id2: string)
    requires Title(d1) + " - CLAIM " + id1 == Title(d2) + " - CLAIM " + id2
    ensures d1 == d2 && id1 == id2
  {
    var l1 := Title(d1) + " - CLAIM " + id1;
    var l2 := Title(d2) + " - CLAIM " + id2;
    assert l1[..6] == Title(d1)[..6] && l2[..6] == Title(d2)[..6];
    if d1 != d2 {
      TitlesDiverge(d1, d2);
    }
    var n := |Title(d1) + " - CLAIM "|;
    assert id1 == l1[n..];
  }
}
