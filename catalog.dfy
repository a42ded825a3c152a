/** The fixed vocabularies of claim_summarizer.py: claim types, statuses and
    the eight document-type labels, plus the clock readings the program
    takes from `datetime.now()`. */
module Catalog {
  import opened Wrappers

  const CLAIM_TYPES: seq<string> :=
    ["Auto Collision", "Property Damage", "Medical", "Theft", "Natural Disaster"]

  const STATUSES: seq<string> :=
    ["Submitted", "In Review", "Approved", "Denied", "Paid"]

  /** `document_types`, in the order `random.sample` draws from. */
  const DOCUMENT_TYPES: seq<string> :=
    ["Police Report", "Medical Records", "Repair Estimate", "Photos",
     "Witness Statement", "Insurance Policy", "Claim Form", "Invoices"]

  datatype DocType =
    | PoliceReport | MedicalRecords | RepairEstimate | Photos
    | WitnessStatement | InsurancePolicy | ClaimForm | Invoices

  function Label(d: DocType): string {
    match d
    case PoliceReport => "Police Report"
    case MedicalRecords => "Medical Records"
    case RepairEstimate => "Repair Estimate"
    case Photos => "Photos"
    case WitnessStatement => "Witness Statement"
    case InsurancePolicy => "Insurance Policy"
    case ClaimForm => "Claim Form"
    case Invoices => "Invoices"
  }

  /** Position of a label in DOCUMENT_TYPES (and in the summary table). */
  function Index(d: DocType): (i: nat)
    ensures i < |DOCUMENT_TYPES| && DOCUMENT_TYPES[i] == Label(d)
  {
    match d
    case PoliceReport => 0
    case MedicalRecords => 1
    case RepairEstimate => 2
    case Photos => 3
    case WitnessStatement => 4
    case InsurancePolicy => 5
    case ClaimForm => 6
    case Invoices => 7
  }

  /** The string comparisons `doc_type == "Police Report"`, ... of the
      if/elif chains, as one lookup. */
  function Parse(s: string): (r: Option<DocType>)
    ensures forall d :: r == Some(d) <==> Label(d) == s
  {
    if s == "Police Report" then Some(PoliceReport)
    else if s == "Medical Records" then Some(MedicalRecords)
    else if s == "Repair Estimate" then Some(RepairEstimate)
    else if s == "Photos" then Some(Photos)
    else if s == "Witness Statement" then Some(WitnessStatement)
    else if s == "Insurance Policy" then Some(InsurancePolicy)
    else if s == "Claim Form" then Some(ClaimForm)
    else if s == "Invoices" then Some(Invoices)
    else None
  }

  /** A string is one of the eight labels exactly when Parse recognises it. */
  lemma KnownLabels(s: string)
    ensures s in DOCUMENT_TYPES <==> Parse(s).Some?
  {
    if Parse(s).Some? {
      assert DOCUMENT_TYPES[Index(Parse(s).value)] == s;
    }
  }

  /** No label contains ',' (so ", " cannot occur inside one) or a newline. */
  lemma LabelsPlain()
    ensures forall i :: 0 <= i < |DOCUMENT_TYPES| ==> ',' !in DOCUMENT_TYPES[i] && '\n' !in DOCUMENT_TYPES[i]
  {
  }

  predicate Distinct<T(==)>(s: seq<T>) {
    forall i, j :: 0 <= i < j < |s| ==> s[i] != s[j]
  }

  lemma DocumentTypesDistinct()
    ensures Distinct(DOCUMENT_TYPES)
  {
  }

  /** What the program reads from `datetime.now()`: today's date
      (`%Y-%m-%d`), the current `%Y-%m-%d %H:%M` stamp, and the date a
      given number of days ago (`(now - timedelta(days=n)).strftime(...)`). */
  datatype Clock = Clock(today: string, timestamp: string, daysAgo: int -> string)
}
