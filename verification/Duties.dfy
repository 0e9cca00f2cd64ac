/** Separation of duties: who owns a project never reviews it, never settles it and never pays from it. */
module Duties {
  import opened Basics
  import opened LedgerTypes
  import opened LedgerRules
  import opened LedgerInvariant
  import opened LedgerSteps
  import opened LedgerRuns

  /** Calls that judge a project or a claim, or move its money. */
  function Duty(call: Call): Option<Role> {
    if call.CallReviewProject? || call.CallReviewClosure? || call.CallReviewClaim? then Some(ProjectReviewer)
    else if call.CallFinalize? || call.CallPayClaim? then Some(FinanceAdmin)
    else None
  }

  /** Calls that only the applicant of a project makes. */
  predicate OwnersCall(call: Call) {
    call.CallUpdateProject? || call.CallSubmitProject? || call.CallRequestClosure? || call.CallAddMember?
  }

  function Operator(call: Call): string
    requires Duty(call).Some? || OwnersCall(call)
  {
    TrimSpace(match call
      case CallReviewProject(_, _, _, reviewer) => reviewer
      case CallReviewClosure(_, _, _, reviewer) => reviewer
      case CallReviewClaim(_, _, _, reviewer) => reviewer
      case CallFinalize(_, financeOperator) => financeOperator
      case CallPayClaim(_, financeOperator) => financeOperator
      case CallUpdateProject(_, _, _, applicant) => applicant
      case CallSubmitProject(_, applicant) => applicant
      case CallRequestClosure(_, _, applicant) => applicant
      case CallAddMember(_, _, leader) => leader)
  }

  /** The project that the call is about. */
  function Concerns(w: World, call: Call): Option<string>
    requires Duty(call).Some? || OwnersCall(call)
  {
    if OnClaims(call) then
      var r := TrimSpace(call.id);
      if r in w.claims then Some(w.claims[r].projectId) else None
    else if call.CallAddMember? then Some(TrimSpace(call.projectId))
    else Some(TrimSpace(call.id))
  }

  /** A name bears one role at a time, in the directory or among the built-in accounts. */
  lemma OneRolePerName(w: World, name: string, msp: string, role: Role, msp': string, role': Role)
    requires RegisteredRole(w, name, msp, {role}) && RegisteredRole(w, name, msp', {role'})
    ensures role == role' && msp == msp'
  {
    hide TrimSpace;
  }

  lemma ManagerIsNotApplicant(w: World, tx: Tx, p: string, name: string, role: Role)
    requires Inv(w) && p in w.projects && IsManager(w, tx, w.projects[p], name, role)
    requires role.ProjectReviewer? || role.FinanceAdmin?
    ensures TrimSpace(name) != w.projects[p].applicant
  {
    hide Inv, TrimSpace, InManagementScope;
    SoundProject(w, p);
  }

  lemma ClaimDuty(w: World, tx: Tx, call: Call)
    requires Inv(w) && OnClaims(call) && Duty(call).Some? && ExecuteOnClaims(w, tx, call).Ok?
    ensures Concerns(w, call).Some? && Concerns(w, call).value in w.projects
    ensures IsManager(w, tx, w.projects[Concerns(w, call).value], Operator(call), Duty(call).value)
  {
    hide Inv, TrimSpace, AddsOneEvent, MovesClaim, RestatesClaim, IsManager, Wrap64;
    SoundClaim(w, TrimSpace(call.id));
  }

  lemma ProjectDuty(w: World, tx: Tx, call: Call)
    requires !OnInvoices(call) && !OnClaims(call) && Duty(call).Some? && ExecuteOnProjects(w, tx, call).Ok?
    ensures Concerns(w, call).Some? && Concerns(w, call).value in w.projects
    ensures IsManager(w, tx, w.projects[Concerns(w, call).value], Operator(call), Duty(call).value)
  {
    hide TrimSpace, AddsOneEvent, MovesProject, IsManager, AwaitsAction, Wrap64;
  }

  lemma OwnersDuty(w: World, tx: Tx, call: Call)
    requires OwnersCall(call) && ExecuteOnProjects(w, tx, call).Ok?
    ensures Concerns(w, call).Some? && Concerns(w, call).value in w.projects
    ensures Operator(call) == w.projects[Concerns(w, call).value].applicant
  {
    hide TrimSpace, AddsOneEvent, MovesProject, SameBooks, ActiveUser, UserOrganization, ReadUser;
  }

  lemma OwnerActs(w: World, tx: Tx, call: Call)
    requires OwnersCall(call) && Execute(w, tx, call).Ok?
    ensures Concerns(w, call).Some? && Concerns(w, call).value in w.projects
    ensures Operator(call) == w.projects[Concerns(w, call).value].applicant
  {
    hide ExecuteOnProjects, Concerns, Operator;
    OwnersDuty(w, tx, call);
  }

  lemma DutyIsHeld(w: World, tx: Tx, call: Call)
    requires Inv(w) && Duty(call).Some? && Execute(w, tx, call).Ok?
    ensures Concerns(w, call).Some? && Concerns(w, call).value in w.projects
    ensures IsManager(w, tx, w.projects[Concerns(w, call).value], Operator(call), Duty(call).value)
  {
    hide Inv, ExecuteOnProjects, ExecuteOnClaims, IsManager, Concerns, Operator;
    if OnClaims(call) { ClaimDuty(w, tx, call); } else { ProjectDuty(w, tx, call); }
  }

  /** In every reachable state, a successful review, payment or settlement is by a bearer of that duty in the scope of the
      project, and the applicant, who alone edits, submits and closes the project and adds its members, is someone else. */
  lemma DutiesAreSeparate(w: World, tx: Tx, call: Call)
    requires Reachable(w) && (Duty(call).Some? || OwnersCall(call)) && Execute(w, tx, call).Ok?
    ensures Concerns(w, call).Some? && Concerns(w, call).value in w.projects
    ensures var p := w.projects[Concerns(w, call).value];
            if OwnersCall(call) then Operator(call) == p.applicant
            else IsManager(w, tx, p, Operator(call), Duty(call).value) && Operator(call) != p.applicant
  {
    hide Reachable, Inv, Execute, IsManager, Concerns, Operator;
    ReachableInv(w);
    if OwnersCall(call) {
      OwnerActs(w, tx, call);
    } else {
      DutyIsHeld(w, tx, call);
      ManagerIsNotApplicant(w, tx, Concerns(w, call).value, Operator(call), Duty(call).value);
      OperatorIsTrimmed(call);
    }
  }

  lemma OperatorIsTrimmed(call: Call)
    requires Duty(call).Some? || OwnersCall(call)
    ensures TrimSpace(Operator(call)) == Operator(call)
  {
    hide TrimSpace;
  }

  /** Whoever approves a claim cannot, in the same state, pay any claim or settle any project. */
  lemma ReviewerDoesNotPay(w: World, tx: Tx, r: string, name: string, decision: Decision, ok: bool, tx': Tx, p: Project)
    requires ReviewReimbursement(w, tx, r, decision, ok, name).Ok?
    ensures !IsManager(w, tx', p, TrimSpace(name), FinanceAdmin)
  {
    hide TrimSpace, AddsOneEvent, MovesClaim, RestatesClaim, InManagementScope, Wrap64, RegisteredRole;
    if RegisteredRole(w, TrimSpace(name), tx'.msp, {FinanceAdmin}) {
      OneRolePerName(w, TrimSpace(name), tx.msp, ProjectReviewer, tx'.msp, FinanceAdmin);
    }
  }
}
