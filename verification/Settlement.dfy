/** From any reachable state, a project in financial settlement can be brought to the archive. */
module Settlement {
  import opened Basics
  import opened LedgerTypes
  import opened LedgerRules
  import opened Balances
  import opened LedgerInvariant
  import opened LedgerSteps
  import opened LedgerRuns
  import opened Admission

  ghost function OpenClaims(w: World, p: string): set<string> {
    set r | r in w.claims && w.claims[r].projectId == p && w.claims[r].status.Open()
  }

  /** The applicant withdraws the open claims one by one, then the finance operator settles. */
  ghost function Plan(open: set<string>, p: Project, finance: Tx, operator: string, ids: seq<string>): (steps: seq<Step>)
    requires |ids| == |open| + 1
    ensures |steps| == |open| + 1
    decreases |open|
  {
    if open == {} then [Step(Tx(ids[0], finance.msp), CallFinalize(p.id, operator))]
    else
      var r :| r in open;
      [Step(Tx(ids[0], p.applicantMsp), CallWithdrawClaim(r, p.applicant))] + Plan(open - {r}, p, finance, operator, ids[1..])
  }

  ghost predicate AllSucceed(w: World, steps: seq<Step>)
    decreases |steps|
  {
    steps != [] ==>
      var r := Execute(w, steps[0].tx, steps[0].call);
      r.Ok? && AllSucceed(r.value, steps[1..])
  }

  lemma ApplicantMayAct(w: World, tx: Tx, p: string)
    requires Inv(w) && p in w.projects && tx.msp == w.projects[p].applicantMsp
    ensures IsApplicant(w, tx, w.projects[p], w.projects[p].applicant)
  {
    hide Inv;
    SoundProject(w, p);
  }

  /** A withdrawal by the project's applicant always succeeds, closes that claim, and touches no other. */
  lemma ApplicantWithdraws(w: World, tx: Tx, r: string)
    requires Inv(w) && r in w.claims && w.claims[r].status.Open()
    requires w.claims[r].projectId in w.projects && tx.msp == w.projects[w.claims[r].projectId].applicantMsp
    ensures var p := w.claims[r].projectId;
            var result := LedgerRules.WithdrawReimbursement(w, tx, r, w.projects[p].applicant);
            && result.Ok?
            && var w' := result.value;
               && w'.users == w.users && w'.organizations == w.organizations
               && w'.claims == w.claims[r := w.claims[r].(status := Withdrawn)]
               && p in w'.projects
               && w'.projects[p] == w.projects[p].(available := w'.projects[p].available, reserved := w'.projects[p].reserved)
  {
    hide Inv, IsApplicant, Unfreeze, AddsOneEvent, MovesClaim, RestatesClaim, TrimSpace, SumOf;
    SoundClaim(w, r);
    ApplicantMayAct(w, tx, w.claims[r].projectId);
    UnfreezeSucceeds(w, r);
  }

  lemma NothingOpenFinalizes(w: World, tx: Tx, p: string, operator: string)
    requires Inv(w) && p in w.projects && w.projects[p].status.FinancialSettlement? && OpenClaims(w, p) == {}
    requires IsManager(w, tx, w.projects[p], TrimSpace(operator), FinanceAdmin)
    ensures var result := Execute(w, tx, CallFinalize(p, operator));
            && result.Ok? && p in result.value.projects && result.value.projects[p].status.Archived?
            && result.value.projects[p].paid == w.projects[p].paid
  {
    hide Inv, IsManager, TrimSpace, FinalizeProjectSettlement, SumOf, ApplicantSound;
    SoundProject(w, p);
    assert TrimSpace(p) == p;
    forall r | r in w.claims && w.claims[r].projectId == p ensures !w.claims[r].status.Open() { assert r !in OpenClaims(w, p); }
    FinalizeIff(w, tx, p, operator);
    FinalizingCall(w, tx, p, operator);
  }

  lemma FinalizingCall(w: World, tx: Tx, p: string, operator: string)
    ensures Execute(w, tx, CallFinalize(p, operator)) == FinalizeProjectSettlement(w, tx, p, operator)
  {
    hide ExecuteOnInvoices, ExecuteOnClaims, FinalizeProjectSettlement;
  }

  /** The right to settle depends on the directory, the caller's MSP and the owner of the project only. */
  lemma ManagerStays(w: World, tx: Tx, p: Project, w': World, tx': Tx, p': Project, operator: string)
    requires w'.users == w.users && w'.organizations == w.organizations && tx'.msp == tx.msp
    requires p'.organizationId == p.organizationId && p'.applicantMsp == p.applicantMsp
    ensures IsManager(w', tx', p', operator, FinanceAdmin) == IsManager(w, tx, p, operator, FinanceAdmin)
  {}

  ghost predicate FreshIds(w: World, ids: seq<string>) {
    && (forall i :: 0 <= i < |ids| ==> Fresh(w, Tx(ids[i], "")))
    && (forall i, j :: 0 <= i < j < |ids| ==> ids[i] != ids[j])
  }

  lemma FreshIdsTail(w: World, tx: Tx, call: Call, ids: seq<string>)
    requires ids != [] && FreshIds(w, ids) && tx.id == ids[0]
    ensures Fresh(w, tx) && FreshIds(Next(w, tx, call), ids[1..])
  {
    hide Next;
    var rest := ids[1..];
    forall i | 0 <= i < |rest| ensures Fresh(Next(w, tx, call), Tx(rest[i], "")) {
      assert rest[i] == ids[i + 1];
      StaysFresh(w, tx, call, Tx(rest[i], ""));
    }
    assert Fresh(w, Tx(ids[0], ""));
  }

  /** What is left to do after the applicant has withdrawn one open claim. */
  lemma OneFewerOpen(w: World, tx: Tx, p: string, r: string)
    requires Inv(w) && Fresh(w, tx) && p in w.projects && r in OpenClaims(w, p) && tx.msp == w.projects[p].applicantMsp
    ensures var result := Execute(w, tx, CallWithdrawClaim(r, w.projects[p].applicant));
            && result.Ok?
            && var w' := result.value;
               && Inv(w') && w' == Next(w, tx, CallWithdrawClaim(r, w.projects[p].applicant)) && w'.users == w.users && w'.organizations == w.organizations
               && OpenClaims(w', p) == OpenClaims(w, p) - {r}
               && p in w'.projects
               && w'.projects[p] == w.projects[p].(available := w'.projects[p].available, reserved := w'.projects[p].reserved)
  {
    hide Inv, TrimSpace, Fresh, LedgerRules.WithdrawReimbursement, SumOf, AddsOneEvent, MovesClaim, RestatesClaim;
    SoundClaim(w, r);
    ApplicantWithdraws(w, tx, r);
    WithdrawClaimKeepsInv(w, tx, r, w.projects[p].applicant);
    var w' := LedgerRules.WithdrawReimbursement(w, tx, r, w.projects[p].applicant).value;
    assert OpenClaims(w', p) == OpenClaims(w, p) - {r};
  }

  lemma OpenClaimIsKeyed(w: World, p: string, r: string)
    requires Inv(w) && r in OpenClaims(w, p)
    ensures Trimmed(r)
  {
    hide Inv;
    SoundClaim(w, r);
  }

  lemma {:induction false} PlanSettles(w: World, open: set<string>, p: string, before: Project, finance: Tx, operator: string, ids: seq<string>)
    requires Inv(w) && p in w.projects && w.projects[p].status.FinancialSettlement? && open == OpenClaims(w, p)
    requires before.id == p && w.projects[p] == before.(available := w.projects[p].available, reserved := w.projects[p].reserved)
    requires IsManager(w, finance, before, TrimSpace(operator), FinanceAdmin)
    requires |ids| == |open| + 1 && FreshIds(w, ids)
    ensures var steps := Plan(open, before, finance, operator, ids);
            && AllSucceed(w, steps) && Proper(w, steps)
            && p in Run(w, steps).projects && Run(w, steps).projects[p].status.Archived?
            && Run(w, steps).projects[p].paid == before.paid
    decreases |open|
  {
    hide Inv, TrimSpace, FreshIds, Fresh, Execute, IsManager, OpenClaims;
    if open == {} {
      ManagerStays(w, finance, before, w, Tx(ids[0], finance.msp), w.projects[p], TrimSpace(operator));
      NothingOpenFinalizes(w, Tx(ids[0], finance.msp), p, operator);
      FreshIdsTail(w, Tx(ids[0], finance.msp), CallFinalize(p, operator), ids);
    } else {
      var steps := Plan(open, before, finance, operator, ids);
      var tx, call := steps[0].tx, steps[0].call;
      OpenClaimIsKeyed(w, p, call.id);
      FreshIdsTail(w, tx, call, ids);
      OneFewerOpen(w, tx, p, call.id);
      ManagerStays(w, finance, before, Next(w, tx, call), finance, before, TrimSpace(operator));
      PlanSettles(Next(w, tx, call), open - {call.id}, p, before, finance, operator, ids[1..]);
    }
  }

  lemma ProjectNamed(w: World, p: string)
    requires Inv(w) && p in w.projects
    ensures w.projects[p].id == p
  {
    hide Inv, SumOf;
    SoundProject(w, p);
  }

  /** A project in financial settlement reaches the archive in one call for each open claim and one more, all of
      which succeed, with fresh transaction ids, so that everything proved of reachable ledgers holds at its end; what had
      been paid stays paid and the rest of the budget is recovered. */
  lemma SettlementCanFinish(w: World, p: string, finance: Tx, operator: string, ids: seq<string>)
    requires Reachable(w) && p in w.projects && w.projects[p].status.FinancialSettlement?
    requires IsManager(w, finance, w.projects[p], TrimSpace(operator), FinanceAdmin)
    requires |ids| == |OpenClaims(w, p)| + 1 && FreshIds(w, ids)
    ensures exists steps ::
              && |steps| == |OpenClaims(w, p)| + 1
              && AllSucceed(w, steps) && Proper(w, steps) && Reachable(Run(w, steps))
              && p in Run(w, steps).projects
              && Run(w, steps).projects[p].status.Archived?
              && Run(w, steps).projects[p].paid == w.projects[p].paid
  {
    hide Reachable, Inv, AllSucceed, Run, Plan, FreshIds, IsManager, TrimSpace, SumOf, Proper, ProjectSound, ApplicantSound;
    ReachableInv(w);
    ProjectNamed(w, p);
    PlanSettles(w, OpenClaims(w, p), p, w.projects[p], finance, operator, ids);
    RunStaysReachable(w, Plan(OpenClaims(w, p), w.projects[p], finance, operator, ids));
  }

  /** Exactly when the built-in finance administrator may settle a project: nobody has registered that name, or the
      registered bearer is an active finance administrator in the project's scope. */
  lemma BuiltInFinanceAdmin(w: World, p: string, txId: string)
    requires Reachable(w) && p in w.projects
    ensures IsManager(w, Tx(txId, "Org2MSP"), w.projects[p], "finance-admin", FinanceAdmin) <==>
            || "finance-admin" !in w.users
            || var user := w.users["finance-admin"];
               user.active && user.msp == "Org2MSP" && user.role == FinanceAdmin && InManagementScope(w, w.projects[p], user)
  {
    hide Reachable, Inv, SumOf;
    ReachableInv(w);
    SoundProject(w, p);
    assert Trimmed("finance-admin");
  }
}
