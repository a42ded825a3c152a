/** `generate_claims_dataset`: a loop that appends one synthetic claim
    record per index. The random values of one iteration arrive as a
    ClaimDraw, in the order the loop body asks for them. */
module Claims {
  import opened Text
  import opened Catalog
  import opened Sampling

  /** One iteration's random values: `randint(0, 365*2)` days back, the
      rounded `uniform(500, 50000)` amount, `randint(3, 8)` documents, the
      sample's indices, `choice(claim_types)`, `choice(statuses)` and
      `randint(1, 5000)` for the holder. */
  datatype ClaimDraw = ClaimDraw(
    daysAgo: int,
    amount: real,
    docCount: int,
    docPicks: seq<int>,
    typePick: int,
    statusPick: int,
    holderNumber: int)

  predicate ValidDraw(d: ClaimDraw) {
    && 0 <= d.daysAgo <= 365 * 2
    && 500.0 <= d.amount <= 50000.0
    && 3 <= d.docCount <= 8
    && |d.docPicks| == d.docCount
    && ValidPicks(|DOCUMENT_TYPES|, d.docPicks)
    && 0 <= d.typePick < |CLAIM_TYPES|
    && 0 <= d.statusPick < |STATUSES|
    && 1 <= d.holderNumber <= 5000
  }

  /** One row of the claims table, column for column. */
  datatype Claim = Claim(
    claimId: string,
    claimType: string,
    dateFiled: string,
    amount: real,
    status: string,
    policyHolder: string,
    documents: string,
    documentCount: int)

  const ID_PREFIX := "CLM-"
  const ID_BASE := 100000
  const DOC_SEPARATOR := ", "
  const HOLDER_PREFIX := "Customer "

  /** `f"CLM-{100000 + i}"` */
  function ClaimId(i: nat): string {
    ID_PREFIX + NatToString(ID_BASE + i)
  }

  /** The identifier carries its index: strip "CLM-", read the number,
      subtract the base. */
  lemma ClaimIdDecodes(i: nat)
    ensures |ClaimId(i)| > 4 && ClaimId(i)[..4] == ID_PREFIX
    ensures AllDigits(ClaimId(i)[4..]) && ParseNat(ClaimId(i)[4..]) == ID_BASE + i
  {
    assert ClaimId(i)[4..] == NatToString(ID_BASE + i);
    ParseNatToString(ID_BASE + i);
  }

  lemma ClaimIdInjective(i: nat, j: nat)
    ensures ClaimId(i) == ClaimId(j) ==> i == j
  {
    ClaimIdDecodes(i);
    ClaimIdDecodes(j);
  }

  /** `CLM-` followed by six digits holds only for the first 900000 indices;
      from index 900000 on the number has seven digits. */
  lemma ClaimIdWidth(i: nat)
    ensures i < 900000 ==> |ClaimId(i)| == 10
    ensures 900000 <= i < 9900000 ==> |ClaimId(i)| == 11
  {
    assert Pow10(2) == 100 && Pow10(4) == 10000;
    assert Pow10(6) == 1000000 && Pow10(7) == 10000000;
    if i < 900000 {
      NatToStringLength(ID_BASE + i, 6);
    } else if i < 9900000 {
      NatToStringLength(ID_BASE + i, 7);
    }
  }

  /** The documents sampled for one claim. */
  function SampledDocs(d: ClaimDraw): (docs: seq<string>)
    requires ValidDraw(d)
    ensures |docs| == d.docCount && Distinct(docs)
    ensures forall x :: x in docs ==> x in DOCUMENT_TYPES
  {
    DocumentTypesDistinct();
    Sample(DOCUMENT_TYPES, d.docPicks)
  }

  /** The dictionary appended at index i. */
  function MakeClaim(i: nat, d: ClaimDraw, clock: Clock): Claim
    requires ValidDraw(d)
  {
    var docs := SampledDocs(d);
    Claim(
      ClaimId(i),
      CLAIM_TYPES[d.typePick],
      clock.daysAgo(d.daysAgo),
      d.amount,
      STATUSES[d.statusPick],
      HOLDER_PREFIX + NatToString(d.holderNumber),
      Join(docs, DOC_SEPARATOR),
      |docs|)
  }

  /** What every generated record satisfies. Its "Documents" column
      splits back into 3 to 8 distinct labels, as many as "Document Count"
      says. */
  ghost predicate WellFormed(c: Claim) {
    && c.claimType in CLAIM_TYPES
    && c.status in STATUSES
    && 500.0 <= c.amount <= 50000.0
    && (exists n: nat {:trigger NatToString(n)} ::
          1 <= n <= 5000 && c.policyHolder == HOLDER_PREFIX + NatToString(n))
    && var docs := Split(c.documents, DOC_SEPARATOR);
       && |docs| == c.documentCount
       && 3 <= |docs| <= 8
       && Distinct(docs)
       && forall x :: x in docs ==> x in DOCUMENT_TYPES
  }

  /** The stored document list decodes to exactly the sampled list, in
      order: no label contains ", ". */
  lemma DocumentsRoundTrip(i: nat, d: ClaimDraw, clock: Clock)
    requires ValidDraw(d)
    ensures Split(MakeClaim(i, d, clock).documents, DOC_SEPARATOR) == SampledDocs(d)
  {
    var docs := SampledDocs(d);
    LabelsPlain();
    forall k | 0 <= k < |docs|
      ensures DOC_SEPARATOR[0] !in docs[k]
    {
      assert docs[k] in DOCUMENT_TYPES;
    }
    SplitJoin(docs, DOC_SEPARATOR);
  }

  lemma MakeClaimWellFormed(i: nat, d: ClaimDraw, clock: Clock)
    requires ValidDraw(d)
    ensures WellFormed(MakeClaim(i, d, clock))
    ensures MakeClaim(i, d, clock).claimId == ClaimId(i)
  {
    DocumentsRoundTrip(i, d, clock);
    var c := MakeClaim(i, d, clock);
    assert c.policyHolder == HOLDER_PREFIX + NatToString(d.holderNumber);
  }

  /** `generate_claims_dataset(num_claims)`: `range(num_claims)` is empty
      for a negative count; draws[i] supplies iteration i. */
  method GenerateClaimsDataset(numClaims: int, draws: seq<ClaimDraw>, clock: Clock)
    returns (claims: seq<Claim>)
    requires numClaims <= |draws|
    requires forall i :: 0 <= i < numClaims ==> ValidDraw(draws[i])
    ensures |claims| == if numClaims < 0 then 0 else numClaims
    ensures forall i :: 0 <= i < |claims| ==> claims[i] == MakeClaim(i, draws[i], clock)
    ensures forall i :: 0 <= i < |claims| ==> claims[i].claimId == ClaimId(i) && WellFormed(claims[i])
    ensures forall i, j :: 0 <= i < j < |claims| ==> claims[i].claimId != claims[j].claimId
  {
    claims := [];
    var i := 0;
    while i < numClaims
      invariant 0 <= i <= (if numClaims < 0 then 0 else numClaims) && |claims| == i
      invariant forall k :: 0 <= k < i ==> claims[k] == MakeClaim(k, draws[k], clock)
    {
      claims := claims + [MakeClaim(i, draws[i], clock)];
      i := i + 1;
    }
    forall k | 0 <= k < |claims|
      ensures claims[k].claimId == ClaimId(k) && WellFormed(claims[k])
    {
      MakeClaimWellFormed(k, draws[k], clock);
    }
    forall k, l | 0 <= k < l < |claims|
      ensures claims[k].claimId != claims[l].claimId
    {
      ClaimIdInjective(k, l);
    }
  }
}
