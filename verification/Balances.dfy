/** The money invariant: project balances against the claims that make them up. */
module Balances {
  import opened Basics
  import opened LedgerTypes

  // ----- sums over an unbounded claim map -----

  function Part(claim: Claim, projectId: string, status: ClaimStatus): int {
    if claim.projectId == projectId && claim.status == status then claim.amount else 0
  }

  ghost function Pick(claims: map<string, Claim>): (r: string)
    requires claims != map[]
    ensures r in claims
  {
    var r :| r in claims; r
  }

  /** The total of the claims on a project that have the given status. */
  ghost function SumOf(claims: map<string, Claim>, projectId: string, status: ClaimStatus): int
    decreases |claims|
  {
    if claims == map[] then 0
    else
      var r := Pick(claims);
      Part(claims[r], projectId, status) + SumOf(claims - {r}, projectId, status)
  }

  lemma {:induction false} SumRemove(claims: map<string, Claim>, r: string, projectId: string, status: ClaimStatus)
    requires r in claims
    ensures SumOf(claims, projectId, status) == Part(claims[r], projectId, status) + SumOf(claims - {r}, projectId, status)
    decreases |claims|
  {
    var first := Pick(claims);
    if first != r {
      SumRemove(claims - {first}, r, projectId, status);
      SumRemove(claims - {r}, first, projectId, status);
      assert claims - {first} - {r} == claims - {r} - {first};
    }
  }

  lemma SumPut(claims: map<string, Claim>, r: string, claim: Claim, projectId: string, status: ClaimStatus)
    ensures SumOf(claims[r := claim], projectId, status)
         == SumOf(claims, projectId, status) - (if r in claims then Part(claims[r], projectId, status) else 0)
            + Part(claim, projectId, status)
  {
    SumRemove(claims[r := claim], r, projectId, status);
    assert claims[r := claim] - {r} == claims - {r};
    if r in claims {
      SumRemove(claims, r, projectId, status);
    } else {
      assert claims - {r} == claims;
    }
  }

  ghost predicate PositiveAmounts(claims: map<string, Claim>) {
    forall r :: r in claims ==> claims[r].amount > 0
  }

  lemma {:induction false} SumNonNegative(claims: map<string, Claim>, projectId: string, status: ClaimStatus)
    requires PositiveAmounts(claims)
    ensures SumOf(claims, projectId, status) >= 0
    decreases |claims|
  {
    if claims != map[] {
      SumNonNegative(claims - {Pick(claims)}, projectId, status);
    }
  }

  lemma SumCovers(claims: map<string, Claim>, r: string)
    requires PositiveAmounts(claims) && r in claims
    ensures SumOf(claims, claims[r].projectId, claims[r].status) >= claims[r].amount
  {
    SumRemove(claims, r, claims[r].projectId, claims[r].status);
    SumNonNegative(claims - {r}, claims[r].projectId, claims[r].status);
  }

  lemma {:induction false} SumAbsent(claims: map<string, Claim>, projectId: string, status: ClaimStatus)
    requires forall r :: r in claims ==> claims[r].projectId != projectId || claims[r].status != status
    ensures SumOf(claims, projectId, status) == 0
    decreases |claims|
  {
    if claims != map[] {
      SumAbsent(claims - {Pick(claims)}, projectId, status);
    }
  }

  // ----- the invariant -----

  predicate Funded(status: ProjectStatus) { status.FinancialSettlement? || status.Archived? }

  /** Conservation of the budget, phase by phase. */
  predicate Conserved(p: Project) {
    match p.status
    case FinancialSettlement =>
      p.available + p.reserved + p.paid == p.budget && p.recovered == 0 && p.available >= 0
    case Archived =>
      p.paid + p.recovered == p.budget && p.available == 0 && p.reserved == 0 && p.recovered >= 0
    case ClosureApproved => false
    case _ => p.available == 0 && p.reserved == 0 && p.paid == 0 && p.recovered == 0
  }

  ghost predicate ProjectSound(claims: map<string, Claim>, key: string, p: Project) {
    && p.id == key && Trimmed(key) && key != "" && '#' !in key
    && 0 < p.budget <= MAX_MONEY_CENTS
    && Conserved(p)
    && p.reserved == SumOf(claims, key, Reserved)
    && p.paid == SumOf(claims, key, Paid)
  }

  predicate ClaimSound(projects: map<string, Project>, key: string, c: Claim) {
    && c.id == key && Trimmed(key)
    && 0 < c.amount <= MAX_MONEY_CENTS
    && c.projectId in projects
    && Funded(projects[c.projectId].status)
    && (c.status.Open() ==> projects[c.projectId].status.FinancialSettlement?)
  }

  ghost predicate BooksOk(projects: map<string, Project>, claims: map<string, Claim>) {
    && (forall p :: p in projects ==> ProjectSound(claims, p, projects[p]))
    && (forall r :: r in claims ==> ClaimSound(projects, r, claims[r]))
  }

  lemma BalancesBounded(projects: map<string, Project>, claims: map<string, Claim>, p: string)
    requires BooksOk(projects, claims) && p in projects
    ensures 0 <= projects[p].available <= projects[p].budget
    ensures 0 <= projects[p].reserved <= projects[p].budget
    ensures 0 <= projects[p].paid <= projects[p].budget
    ensures 0 <= projects[p].recovered <= projects[p].budget
  {
    assert ProjectSound(claims, p, projects[p]);
    assert PositiveAmounts(claims) by {
      forall r | r in claims ensures claims[r].amount > 0 { assert ClaimSound(projects, r, claims[r]); }
    }
    SumNonNegative(claims, p, Reserved);
    SumNonNegative(claims, p, Paid);
  }

  lemma ClaimCovered(projects: map<string, Project>, claims: map<string, Claim>, r: string)
    requires BooksOk(projects, claims) && r in claims && claims[r].status.Reserved?
    ensures claims[r].projectId in projects
    ensures projects[claims[r].projectId].reserved >= claims[r].amount
  {
    assert ClaimSound(projects, r, claims[r]);
    assert ProjectSound(claims, claims[r].projectId, projects[claims[r].projectId]);
    assert PositiveAmounts(claims) by {
      forall s | s in claims ensures claims[s].amount > 0 { assert ClaimSound(projects, s, claims[s]); }
    }
    SumCovers(claims, r);
  }

  // ----- what keeps it -----

  /** A step of a project that leaves every claim alone. */
  lemma ProjectMoveKeepsBooks(projects: map<string, Project>, claims: map<string, Claim>, key: string, p: Project)
    requires BooksOk(projects, claims)
    requires p.id == key && Trimmed(key) && key != "" && '#' !in key && 0 < p.budget <= MAX_MONEY_CENTS && Conserved(p)
    requires if key in projects then p.reserved == projects[key].reserved && p.paid == projects[key].paid
             else p.reserved == 0 && p.paid == 0
    requires Funded(p.status) || key !in projects || !Funded(projects[key].status)
    requires p.status.Archived? ==> forall r :: r in claims && claims[r].projectId == key ==> !claims[r].status.Open()
    ensures BooksOk(projects[key := p], claims)
  {
    var projects' := projects[key := p];
    forall q | q in projects' ensures ProjectSound(claims, q, projects'[q]) {
      if q != key {
        assert ProjectSound(claims, q, projects[q]);
      } else if key in projects {
        assert ProjectSound(claims, key, projects[key]);
      } else {
        forall r | r in claims ensures claims[r].projectId != key { assert ClaimSound(projects, r, claims[r]); }
        SumAbsent(claims, key, Reserved);
        SumAbsent(claims, key, Paid);
      }
    }
    forall r | r in claims ensures ClaimSound(projects', r, claims[r]) {
      assert ClaimSound(projects, r, claims[r]);
    }
  }

  /** A step of one claim, with the matching step of the balances of its project. */
  lemma ClaimMoveKeepsBooks(projects: map<string, Project>, claims: map<string, Claim>, r: string, c: Claim, p: Project)
    requires BooksOk(projects, claims)
    requires c.id == r && Trimmed(r) && 0 < c.amount <= MAX_MONEY_CENTS
    requires c.projectId in projects && projects[c.projectId].status.FinancialSettlement?
    requires r in claims ==> claims[r].projectId == c.projectId
    requires var q := projects[c.projectId];
             && p == q.(available := p.available, reserved := p.reserved, paid := p.paid)
             && p.reserved == q.reserved - (if r in claims then Part(claims[r], c.projectId, Reserved) else 0)
                              + Part(c, c.projectId, Reserved)
             && p.paid == q.paid - (if r in claims then Part(claims[r], c.projectId, Paid) else 0)
                          + Part(c, c.projectId, Paid)
             && p.available == q.budget - p.reserved - p.paid && p.available >= 0
    ensures BooksOk(projects[c.projectId := p], claims[r := c])
  {
    var projects', claims' := projects[c.projectId := p], claims[r := c];
    forall q | q in projects' ensures ProjectSound(claims', q, projects'[q]) {
      assert ProjectSound(claims, q, projects[q]);
      SumPut(claims, r, c, q, Reserved);
      SumPut(claims, r, c, q, Paid);
    }
    forall s | s in claims' ensures ClaimSound(projects', s, claims'[s]) {
      if s != r { assert ClaimSound(projects, s, claims[s]); }
    }
  }
}
