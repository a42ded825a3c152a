/** The sidebar filter of `main`: keep the rows whose "Type" equals the
    chosen type, then the rows whose "Status" equals the chosen status;
    the choice "All" skips that step. */
module Filter {
  import opened Claims

  const ALL := "All"

  /** Boolean-mask selection `df[mask]`: the rows satisfying p, in order. */
  function Keep(s: seq<Claim>, p: Claim -> bool): (r: seq<Claim>)
    ensures |r| <= |s|
    ensures forall c :: c in r ==> c in s && p(c)
    decreases |s|
  {
    if s == [] then [] else (if p(s[0]) then [s[0]] else []) + Keep(s[1..], p)
  }

  /** Lines 255-259 as written: two masks applied one after the other. */
  function FilterClaims(claims: seq<Claim>, claimType: string, claimStatus: string): (r: seq<Claim>)
    ensures |r| <= |claims|
    ensures forall c :: c in r ==> c in claims && Selected(c, claimType, claimStatus)
  {
    var byType := if claimType != ALL then Keep(claims, (c: Claim) => c.claimType == claimType) else claims;
    if claimStatus != ALL then Keep(byType, (c: Claim) => c.status == claimStatus) else byType
  }

  /** The single criterion the two steps implement. */
  predicate Selected(c: Claim, claimType: string, claimStatus: string) {
    (claimType == ALL || c.claimType == claimType) && (claimStatus == ALL || c.status == claimStatus)
  }

  lemma {:induction false} KeepAll(s: seq<Claim>, p: Claim -> bool)
    requires forall c :: p(c)
    ensures Keep(s, p) == s
    decreases |s|
  {
    if s != [] {
      KeepAll(s[1..], p);
    }
  }

  /** Two masks in a row are one mask with the conjunction. */
  lemma {:induction false} KeepKeep(s: seq<Claim>, p: Claim -> bool, q: Claim -> bool, r: Claim -> bool)
    requires forall c :: r(c) == (p(c) && q(c))
    ensures Keep(Keep(s, p), q) == Keep(s, r)
    decreases |s|
  {
    if s != [] {
      KeepKeep(s[1..], p, q, r);
      var ks := Keep(s, p);
      if p(s[0]) {
        assert ks == [s[0]] + Keep(s[1..], p);
        assert ks[0] == s[0] && ks[1..] == Keep(s[1..], p);
        assert Keep(ks, q) == (if q(s[0]) then [s[0]] else []) + Keep(ks[1..], q);
      } else {
        assert ks == Keep(s[1..], p);
      }
    }
  }

  /** Selection distributes over concatenation: what precedes in the input
      precedes in the output. */
  lemma {:induction false} KeepAppend(a: seq<Claim>, b: seq<Claim>, p: Claim -> bool)
    ensures Keep(a + b, p) == Keep(a, p) + Keep(b, p)
    decreases |a|
  {
    if a != [] {
      assert (a + b)[0] == a[0] && (a + b)[1..] == a[1..] + b;
      KeepAppend(a[1..], b, p);
      var head := if p(a[0]) then [a[0]] else [];
      assert Keep(a + b, p) == head + Keep(a[1..] + b, p);
      assert Keep(a, p) == head + Keep(a[1..], p);
      assert Keep(a + b, p) == head + (Keep(a[1..], p) + Keep(b, p));
    } else {
      assert a + b == b;
    }
  }

  /** Each row is kept exactly as often as it occurs, if it satisfies p,
      and never otherwise. */
  lemma {:induction false} KeepCounts(s: seq<Claim>, p: Claim -> bool, x: Claim)
    ensures multiset(Keep(s, p))[x] == if p(x) then multiset(s)[x] else 0
    decreases |s|
  {
    if s != [] {
      KeepCounts(s[1..], p, x);
      assert s == [s[0]] + s[1..];
    }
  }

  /** The filter result is the selection by the single criterion. */
  lemma FilterIsSelection(claims: seq<Claim>, claimType: string, claimStatus: string)
    ensures FilterClaims(claims, claimType, claimStatus) == Keep(claims, (c: Claim) => Selected(c, claimType, claimStatus))
  {
    var t := (c: Claim) => c.claimType == claimType;
    var st := (c: Claim) => c.status == claimStatus;
    var sel := (c: Claim) => Selected(c, claimType, claimStatus);
    if claimType != ALL && claimStatus != ALL {
      KeepKeep(claims, t, st, sel);
    } else if claimType != ALL {
      KeepKeep(claims, t, (c: Claim) => true, sel);
      KeepAll(Keep(claims, t), (c: Claim) => true);
    } else if claimStatus != ALL {
      KeepKeep(claims, (c: Claim) => true, st, sel);
      KeepAll(claims, (c: Claim) => true);
    } else {
      KeepAll(claims, sel);
    }
  }

  /** No row that fails the criterion is kept, and every row that meets it
      is kept as often as it occurs. */
  lemma FilterExact(claims: seq<Claim>, claimType: string, claimStatus: string, x: Claim)
    ensures multiset(FilterClaims(claims, claimType, claimStatus))[x] ==
      if Selected(x, claimType, claimStatus) then multiset(claims)[x] else 0
    ensures x in FilterClaims(claims, claimType, claimStatus) <==> x in claims && Selected(x, claimType, claimStatus)
  {
    FilterIsSelection(claims, claimType, claimStatus);
    KeepCounts(claims, (c: Claim) => Selected(c, claimType, claimStatus), x);
  }

  /** Filtering a concatenation filters each part, so the result keeps the
      input order. */
  lemma FilterKeepsOrder(a: seq<Claim>, b: seq<Claim>, claimType: string, claimStatus: string)
    ensures FilterClaims(a + b, claimType, claimStatus) ==
      FilterClaims(a, claimType, claimStatus) + FilterClaims(b, claimType, claimStatus)
  {
    var sel := (c: Claim) => Selected(c, claimType, claimStatus);
    FilterIsSelection(a + b, claimType, claimStatus);
    FilterIsSelection(a, claimType, claimStatus);
    FilterIsSelection(b, claimType, claimStatus);
    KeepAppend(a, b, sel);
  }
}
