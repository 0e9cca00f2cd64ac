/** Why the calls that move money are refused in a sound ledger: every refusal names what was wrong, and no two reasons apply at once. */
module Refusals {
  import opened Basics
  import opened LedgerTypes
  import opened LedgerRules
  import opened LedgerInvariant
  import opened LedgerSteps
  import opened Admission

  /** The claim is stored and its project too, in this status. */
  predicate ClaimIs(w: World, r: string, status: ClaimStatus) { HasProject(w, r) && w.claims[r].status == status }

  predicate WellJudged(decision: Decision, opinionOk: bool, reviewer: string) {
    TrimSpace(reviewer) != "" && opinionOk && !decision.Unrecognised?
  }

  predicate Manages(w: World, tx: Tx, r: string, name: string, role: Role) {
    HasProject(w, r) && IsManager(w, tx, w.projects[w.claims[r].projectId], TrimSpace(name), role)
  }

  /** A review: the claim is unknown; it is not pending; a word is missing; the reviewer is not in scope; or the money is not there. */
  lemma ReviewRefusals(w: World, tx: Tx, id: string, decision: Decision, opinionOk: bool, reviewer: string)
    requires Inv(w)
    ensures var r, result := TrimSpace(id), ReviewReimbursement(w, tx, id, decision, opinionOk, reviewer);
            && (result == Refused(UnknownRecord) <==> r !in w.claims)
            && (result == Refused(WrongStatus) <==> r in w.claims && !ClaimIs(w, r, Pending))
            && (result == Refused(BadField) <==> ClaimIs(w, r, Pending) && !WellJudged(decision, opinionOk, reviewer))
            && (result == Refused(NotAuthorised) <==>
                  ClaimIs(w, r, Pending) && WellJudged(decision, opinionOk, reviewer) && !Manages(w, tx, r, reviewer, ProjectReviewer))
            && (result == Refused(InsufficientBalance) <==>
                  && ClaimIs(w, r, Pending) && WellJudged(decision, opinionOk, reviewer) && Manages(w, tx, r, reviewer, ProjectReviewer)
                  && decision.Approve? && w.projects[w.claims[r].projectId].available < w.claims[r].amount)
  {
    hide Inv, AddsOneEvent, MovesClaim, RestatesClaim, IsManager, TrimSpace, Wrap64;
    if TrimSpace(id) in w.claims { SoundClaim(w, TrimSpace(id)); }
  }

  /** A payment: the claim is unknown; it is not approved; nobody is named; or the name is not of a finance administrator in scope. */
  lemma PaymentRefusals(w: World, tx: Tx, id: string, operator: string)
    requires Inv(w)
    ensures var r, result := TrimSpace(id), LedgerRules.PayReimbursement(w, tx, id, operator);
            && (result == Refused(UnknownRecord) <==> r !in w.claims)
            && (result == Refused(WrongStatus) <==> r in w.claims && !ClaimIs(w, r, Reserved))
            && (result == Refused(BadField) <==> ClaimIs(w, r, Reserved) && TrimSpace(operator) == "")
            && (result == Refused(NotAuthorised) <==>
                  ClaimIs(w, r, Reserved) && TrimSpace(operator) != "" && !Manages(w, tx, r, operator, FinanceAdmin))
  {
    hide Inv, AddsOneEvent, MovesClaim, RestatesClaim, IsManager, TrimSpace, Wrap64;
    if TrimSpace(id) in w.claims { SoundClaim(w, TrimSpace(id)); }
  }

  /** A withdrawal: the claim is unknown; it is closed; or the name is not of a member. */
  lemma WithdrawalRefusals(w: World, tx: Tx, id: string, applicant: string)
    requires Inv(w)
    ensures var r, result := TrimSpace(id), LedgerRules.WithdrawReimbursement(w, tx, id, applicant);
            && (result == Refused(UnknownRecord) <==> r !in w.claims)
            && (result == Refused(WrongStatus) <==> r in w.claims && !w.claims[r].status.Open())
            && (result == Refused(NotAuthorised) <==>
                  && HasProject(w, r) && w.claims[r].status.Open()
                  && !IsMember(w, tx, w.projects[w.claims[r].projectId], applicant))
  {
    hide Inv, AddsOneEvent, MovesClaim, RestatesClaim, IsMember, TrimSpace, Unfreeze;
    var r := TrimSpace(id);
    if r in w.claims {
      SoundClaim(w, r);
      if w.claims[r].status.Open() { UnfreezeSucceeds(w, r); }
    }
  }

  predicate SomeOpen(w: World, p: string) { exists r :: r in w.claims && w.claims[r].projectId == p && w.claims[r].status.Open() }

  /** A settlement: the project is unknown; it is not in settlement; the operator may not; or a claim on it is open. */
  lemma SettlementRefusals(w: World, tx: Tx, id: string, operator: string)
    requires Inv(w)
    ensures var p, result := TrimSpace(id), FinalizeProjectSettlement(w, tx, id, operator);
            && (result == Refused(UnknownRecord) <==> p !in w.projects)
            && (result == Refused(WrongStatus) <==> p in w.projects && !w.projects[p].status.FinancialSettlement?)
            && (result == Refused(NotAuthorised) <==>
                  && p in w.projects && w.projects[p].status.FinancialSettlement?
                  && !IsManager(w, tx, w.projects[p], TrimSpace(operator), FinanceAdmin))
            && (result == Refused(OpenClaims) <==>
                  && p in w.projects && w.projects[p].status.FinancialSettlement?
                  && IsManager(w, tx, w.projects[p], TrimSpace(operator), FinanceAdmin) && SomeOpen(w, p))
  {
    hide Inv, IsManager, TrimSpace, NoneAwaits;
    var p := TrimSpace(id);
    SettlementReads(w, tx, id, operator);
    if p in w.projects {
      SettlementStatus(w, p);
      NoneAwaitsIff(w, p);
    }
  }

  lemma NoneAwaitsIff(w: World, p: string)
    requires Inv(w) && p in w.projects
    ensures w.projects[p].reserved == 0 && NoneAwaits(w, p) <==> !SomeOpen(w, p)
  {
    hide Inv;
    NothingOpenIff(w, p);
  }

  lemma SettlementReads(w: World, tx: Tx, id: string, operator: string)
    ensures var p, result := TrimSpace(id), FinalizeProjectSettlement(w, tx, id, operator);
            if p !in w.projects then result == Refused(UnknownRecord)
            else if !InSettlement(w.projects[p].status) then result == Refused(WrongStatus)
            else if !IsManager(w, tx, w.projects[p], TrimSpace(operator), FinanceAdmin) then result == Refused(NotAuthorised)
            else if w.projects[p].reserved != 0 || !NoneAwaits(w, w.projects[p].id) then result == Refused(OpenClaims)
            else result.Ok?
  {
    hide IsManager, TrimSpace, NoneAwaits, AddsOneEvent, InSettlement;
  }
}
