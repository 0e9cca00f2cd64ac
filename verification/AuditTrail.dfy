/** The event store read as an audit trail: in every reachable ledger it shows, for each event, that the right person acted. */
module AuditTrail {
  import opened Basics
  import opened LedgerTypes
  import opened LedgerRules
  import opened LedgerInvariant
  import opened LedgerRuns
  import opened LedgerTheorems
  import opened ProjectHistory
  import opened StuckTransfers
  import opened Duties
  import opened Membership
  import opened Lifecycle
  import opened Admission
  import opened InvoiceAdmission
  import opened Charter

  // ----- what the trail should show -----

  predicate OwnersEvent(kind: EventKind) {
    || kind.CreateDraft? || kind.UpdateDraft? || kind.SubmitApplication? || kind.RequestClosure? || kind.AddMember?
  }

  predicate MembersEvent(kind: EventKind) {
    || kind.LinkInvoice? || kind.UnlinkInvoice?
    || kind.SubmitReimbursement? || kind.ResubmitReimbursement? || kind.WithdrawReimbursement?
  }

  predicate JudgesClaim(kind: EventKind) { kind.ReimbursementApprove? || kind.ReimbursementRevision? || kind.PayReimbursement? }

  /** The applicant edits, submits and closes a project and adds its members; members of the project link invoices and make, renew and
      withdraw claims; and who reviews, pays or settles is neither the applicant nor the claimant. */
  predicate RightlyDone(w: World, e: ProjectEvent) {
    var actor := TrimSpace(e.actor);
    && e.projectId in w.projects
    && (if OwnersEvent(e.kind) then actor == w.projects[e.projectId].applicant
        else if MembersEvent(e.kind) then MemberSound(w, e.projectId, actor)
        else && actor != w.projects[e.projectId].applicant
             && (JudgesClaim(e.kind) ==> e.referenceId in w.claims && actor != w.claims[e.referenceId].applicant))
  }

  ghost predicate TrailOk(w: World) { forall e :: e in w.eventLog ==> RightlyDone(w, e) }

  // ----- what stays -----

  /** Who owns a project and who made a claim never changes, and nor does any registration. */
  ghost predicate OwnersKept(w: World, w': World) {
    && (forall u :: u in w.users ==> u in w'.users && w'.users[u] == w.users[u])
    && (forall p :: p in w.projects ==>
          && p in w'.projects && w'.projects[p].applicant == w.projects[p].applicant
          && w'.projects[p].applicantMsp == w.projects[p].applicantMsp && w'.projects[p].organizationId == w.projects[p].organizationId)
    && (forall r :: r in w.claims ==> r in w'.claims && w'.claims[r].applicant == w.claims[r].applicant)
  }

  lemma StaysRight(w: World, w': World, e: ProjectEvent)
    requires OwnersKept(w, w') && RightlyDone(w, e)
    ensures RightlyDone(w', e)
  {
    hide TrimSpace;
  }

  lemma MoveKeepsOwners(w: World, tx: Tx, call: Call, w': World)
    requires MovesStatus(call) && Trimmed(call.id) && ProjectEffect(w, tx, call, w')
    ensures OwnersKept(w, w')
  {
    assert TrimSpace(call.id) == call.id;
    hide TrimSpace, Told, MoveOf;
  }

  lemma MoveIdTrimmed(call: Call)
    requires MovesStatus(call) && TrimmedIds(call)
    ensures Trimmed(call.id)
  {}

  lemma OtherProjectCallKeepsOwners(w: World, tx: Tx, call: Call, w': World)
    requires !MovesStatus(call) && !OnInvoices(call) && !OnClaims(call)
    requires ProjectAllowed(w, tx, call) && ProjectEffect(w, tx, call, w')
    ensures OwnersKept(w, w')
  {
    hide TrimSpace, Entitled, IsManager;
  }

  lemma ProjectCallKeepsOwners(w: World, tx: Tx, call: Call, w': World)
    requires TrimmedIds(call) && !OnInvoices(call) && !OnClaims(call)
    requires ProjectAllowed(w, tx, call) && ProjectEffect(w, tx, call, w')
    ensures OwnersKept(w, w')
  {
    hide TrimmedIds, Trimmed, ProjectAllowed, ProjectEffect, OwnersKept;
    if MovesStatus(call) {
      MoveIdTrimmed(call);
      MoveKeepsOwners(w, tx, call, w');
    } else {
      OtherProjectCallKeepsOwners(w, tx, call, w');
    }
  }

  lemma ApprovalKeepsOwners(w: World, w': World, id: string)
    requires Trimmed(id) && Approves(w, w', id)
    ensures OwnersKept(w, w')
  {
    assert TrimSpace(id) == id;
    hide TrimSpace;
  }

  lemma ReturnKeepsOwners(w: World, w': World, id: string)
    requires Trimmed(id) && Returns(w, w', id)
    ensures OwnersKept(w, w')
  {
    assert TrimSpace(id) == id;
    hide TrimSpace;
  }

  lemma ResubmissionKeepsOwners(w: World, w': World, id: string)
    requires Trimmed(id) && Resubmits(w, w', id)
    ensures OwnersKept(w, w')
  {
    assert TrimSpace(id) == id;
    hide TrimSpace;
  }

  lemma WithdrawalKeepsOwners(w: World, w': World, id: string)
    requires Trimmed(id) && Withdraws(w, w', id)
    ensures OwnersKept(w, w')
  {
    assert TrimSpace(id) == id;
    hide TrimSpace;
  }

  lemma PaymentKeepsOwners(w: World, w': World, id: string)
    requires Trimmed(id) && Pays(w, w', id)
    ensures OwnersKept(w, w')
  {
    assert TrimSpace(id) == id;
    hide TrimSpace;
  }

  lemma NewClaimKeepsOwners(w: World, w': World, r: string, p: string, i: string, applicant: string)
    requires r !in w.claims && Claims(w, w', r, p, i, applicant)
    ensures OwnersKept(w, w')
  {}

  lemma ClaimIdsTrimmed(call: Call)
    requires OnClaims(call) && TrimmedIds(call) && !call.CallCreateClaim?
    ensures Trimmed(call.id)
  {}

  lemma NewClaimIsNew(w: World, tx: Tx, call: Call)
    requires call.CallCreateClaim? && ClaimAllowed(w, tx, call)
    ensures TrimSpace(call.id) !in w.claims
  {
    hide TrimSpace, IsMember, FreeInvoice;
  }

  lemma ClaimCallKeepsOwners(w: World, tx: Tx, call: Call, w': World)
    requires TrimmedIds(call) && OnClaims(call) && ClaimAllowed(w, tx, call) && ClaimEffect(w, tx, call, w')
    ensures OwnersKept(w, w')
  {
    hide TrimSpace, Trimmed, TrimmedIds, ClaimAllowed, OwnersKept, Tells, About, Judged, Approves, Returns, Resubmits, Withdraws, Pays, Claims;
    if call.CallCreateClaim? {
      NewClaimIsNew(w, tx, call);
      NewClaimKeepsOwners(w, w', TrimSpace(call.id), TrimSpace(call.projectId), TrimSpace(call.invoiceId), TrimSpace(call.applicant));
    } else {
      ClaimIdsTrimmed(call);
      match call
      case CallReviewClaim(id, Approve, _, _) => ApprovalKeepsOwners(w, w', id);
      case CallReviewClaim(id, _, _, _) => ReturnKeepsOwners(w, w', id);
      case CallResubmitClaim(id, _, _) => ResubmissionKeepsOwners(w, w', id);
      case CallWithdrawClaim(id, _) => WithdrawalKeepsOwners(w, w', id);
      case CallPayClaim(id, _) => PaymentKeepsOwners(w, w', id);
    }
  }

  lemma InvoiceCallKeepsOwners(w: World, tx: Tx, call: Call, w': World)
    requires OnInvoices(call) && ExecuteOnInvoices(w, tx, call) == Ok(w')
    ensures OwnersKept(w, w')
  {
    hide ExecuteOnInvoices, ExecuteOnProjects, ExecuteOnClaims, UsersKept;
    InvoiceCallKeepsBooks(w, tx, call);
    UsersStay(w, tx, call);
    SameRecordsKeepOwners(w, w');
  }

  lemma SameRecordsKeepOwners(w: World, w': World)
    requires SameBooks(w, w') && UsersKept(w, w')
    ensures OwnersKept(w, w')
  {}

  lemma CallKeepsOwners(w: World, tx: Tx, call: Call, w': World)
    requires Reachable(w) && TrimmedIds(call) && Execute(w, tx, call) == Ok(w')
    ensures OwnersKept(w, w')
  {
    hide Reachable, TrimmedIds, ExecuteOnProjects, ExecuteOnInvoices, ExecuteOnClaims, ProjectAllowed, ClaimAllowed, InvoiceAllowed,
         ProjectEffect, ClaimEffect, InvoiceEffect, OwnersKept;
    CharterHolds(w, tx, call);
    if OnInvoices(call) {
      InvoiceCallKeepsOwners(w, tx, call, w');
    } else if OnClaims(call) {
      ClaimCallKeepsOwners(w, tx, call, w');
    } else {
      ProjectCallKeepsOwners(w, tx, call, w');
    }
  }

  // ----- the new event -----

  /** One event is added, of this kind, by this actor, about this project and claim. */
  predicate AddsEvent(w: World, w': World, e: ProjectEvent) { w'.eventLog == w.eventLog + [e] }

  /** The event of a call by a bearer of a duty: its project and its actor are those that the duty is about. */
  lemma DutyEvent(w: World, tx: Tx, call: Call, w': World)
    requires Reachable(w) && TrimmedIds(call) && Duty(call).Some? && Execute(w, tx, call) == Ok(w')
    ensures exists e :: AddsEvent(w, w', e) && RightlyDone(w, e)
  {
    hide Reachable, TrimmedIds, Execute, IsManager, RightlyDone, Effect, Allowed, Concerns, Operator;
    CharterHolds(w, tx, call);
    DutiesAreSeparate(w, tx, call);
    if call.CallReviewClaim? || call.CallPayClaim? {
      ClaimantNeverJudges(w, tx, call);
      ClaimDutyEvent(w, tx, call, w');
    } else {
      ProjectDutyEvent(w, tx, call, w');
    }
  }

  lemma ClaimDutyEvent(w: World, tx: Tx, call: Call, w': World)
    requires (call.CallReviewClaim? || call.CallPayClaim?) && TrimmedIds(call) && Allowed(w, tx, call) && Effect(w, tx, call, w')
    requires Concerns(w, call).Some? && Concerns(w, call).value in w.projects
    requires Operator(call) != w.projects[Concerns(w, call).value].applicant
    requires TrimSpace(call.id) in w.claims && Operator(call) != w.claims[TrimSpace(call.id)].applicant
    ensures exists e :: AddsEvent(w, w', e) && RightlyDone(w, e)
  {
    hide TrimSpace, IsManager, Approves, Returns, Pays;
    ClaimIdsTrimmed(call);
    var kind := if call.CallPayClaim? then EventKind.PayReimbursement
                else if call.decision.Approve? then ReimbursementApprove else ReimbursementRevision;
    var e := ProjectEvent(ProjectOf(w, TrimSpace(call.id)), tx.id, kind, Operator(call), TrimSpace(call.id));
    assert TrimSpace(Operator(call)) == Operator(call);
    assert AddsEvent(w, w', e) && RightlyDone(w, e);
  }

  lemma SettlementEvent(w: World, tx: Tx, call: Call, w': World)
    requires call.CallFinalize? && ProjectEffect(w, tx, call, w') && TrimSpace(call.id) in w.projects
    requires TrimSpace(call.financeOperator) != w.projects[TrimSpace(call.id)].applicant
    ensures exists e :: AddsEvent(w, w', e) && RightlyDone(w, e)
  {
    hide TrimSpace, Archives;
    var e := ProjectEvent(TrimSpace(call.id), tx.id, FinalizeSettlement, call.financeOperator, "");
    assert AddsEvent(w, w', e) && RightlyDone(w, e);
  }

  /** The event of a move is right if its mover is. */
  lemma MoveEvent(w: World, tx: Tx, call: Call, w': World)
    requires MovesStatus(call) && Trimmed(call.id) && ProjectEffect(w, tx, call, w')
    requires var own := TrimSpace(Name(call)) == w.projects[TrimSpace(call.id)].applicant;
             if OwnersCall(call) then own else !own
    ensures exists e :: AddsEvent(w, w', e) && RightlyDone(w, e)
  {
    hide TrimSpace, Moved;
    assert TrimSpace(TrimSpace(Name(call))) == TrimSpace(Name(call)) && TrimSpace(call.id) == call.id;
    assert AddsEvent(w, w', Told(call, tx)) && RightlyDone(w, Told(call, tx));
  }

  lemma ProjectDutyEvent(w: World, tx: Tx, call: Call, w': World)
    requires Duty(call).Some? && !OnClaims(call) && TrimmedIds(call) && Allowed(w, tx, call) && Effect(w, tx, call, w')
    requires Concerns(w, call).Some? && Concerns(w, call).value in w.projects
    requires Operator(call) != w.projects[Concerns(w, call).value].applicant
    ensures exists e :: AddsEvent(w, w', e) && RightlyDone(w, e)
  {
    hide TrimSpace, Trimmed, TrimmedIds, ProjectAllowed, ProjectEffect, RightlyDone, AddsEvent;
    if call.CallFinalize? {
      SettlementEvent(w, tx, call, w');
    } else {
      MoveIdTrimmed(call);
      MoveEvent(w, tx, call, w');
    }
  }

  lemma NewMemberEvent(w: World, tx: Tx, call: Call, w': World)
    requires call.CallAddMember? && Trimmed(call.projectId) && ProjectAllowed(w, tx, call) && ProjectEffect(w, tx, call, w')
    ensures exists e :: AddsEvent(w, w', e) && RightlyDone(w, e)
  {
    hide TrimSpace;
    var e := ProjectEvent(call.projectId, tx.id, AddMember, call.leader, "");
    assert AddsEvent(w, w', e) && RightlyDone(w, e);
  }

  lemma MoverIsOwner(w: World, tx: Tx, call: Call)
    requires MovesStatus(call) && OwnersCall(call) && MoveAdmitted(w, tx, call)
    ensures TrimSpace(Name(call)) == w.projects[TrimSpace(call.id)].applicant
  {
    hide TrimSpace, WellPut;
  }

  lemma OwnerEvent(w: World, tx: Tx, call: Call, w': World)
    requires TrimmedIds(call) && OwnersCall(call) && Allowed(w, tx, call) && Effect(w, tx, call, w')
    ensures exists e :: AddsEvent(w, w', e) && RightlyDone(w, e)
  {
    hide TrimSpace, Trimmed, ProjectEffect, RightlyDone, AddsEvent, MoveAdmitted, MayAddMember;
    if call.CallAddMember? {
      NewMemberEvent(w, tx, call, w');
    } else {
      MoveIdTrimmed(call);
      MoverIsOwner(w, tx, call);
      MoveEvent(w, tx, call, w');
    }
  }

  /** The project that a new project event is about did not exist before. */
  lemma FirstEvent(w: World, tx: Tx, call: Call, w': World)
    requires call.CallCreateProject? && Allowed(w, tx, call) && Effect(w, tx, call, w')
    ensures exists e :: AddsEvent(w, w', e) && RightlyDone(w', e)
  {
    hide TrimSpace;
    var u := TrimSpace(call.applicant);
    var e := ProjectEvent(TrimSpace(call.id), tx.id, CreateDraft, u, "");
    assert TrimSpace(u) == u;
    assert AddsEvent(w, w', e) && RightlyDone(w', e);
  }

  predicate MembersCall(call: Call) {
    || call.CallLinkInvoice? || call.CallUnlinkInvoice?
    || call.CallCreateClaim? || call.CallResubmitClaim? || call.CallWithdrawClaim?
  }

  lemma ByMember(w: World, w': World, e: ProjectEvent)
    requires MembersEvent(e.kind) && MemberSound(w, e.projectId, TrimSpace(e.actor)) && AddsEvent(w, w', e)
    ensures exists e :: AddsEvent(w, w', e) && RightlyDone(w, e)
  {
    hide TrimSpace;
    assert RightlyDone(w, e);
  }

  lemma LinkEvent(w: World, tx: Tx, call: Call, w': World)
    requires Inv(w) && Ties(w) && (call.CallLinkInvoice? || call.CallUnlinkInvoice?)
    requires InvoiceAllowed(w, tx, call) && InvoiceEffect(w, tx, call, w')
    ensures exists e :: AddsEvent(w, w', e) && RightlyDone(w, e)
  {
    hide Inv, Ties, IsMember, MemberSound, SameOwner, AllWithdrawn, TrimSpace, RightlyDone;
    if call.CallLinkInvoice? {
      var p := TrimSpace(call.projectId);
      MemberByRecords(w, tx, p, call.operator);
      ByMember(w, w', ProjectEvent(p, tx.id, LinkInvoice, call.operator, ""));
    } else {
      var p := w.invoices[call.invoiceId].projectId;
      assert TrimSpace(TrimSpace(call.operator)) == TrimSpace(call.operator);
      MemberByRecords(w, tx, p, TrimSpace(call.operator));
      ByMember(w, w', ProjectEvent(p, tx.id, UnlinkInvoice, call.operator, ""));
    }
  }

  lemma ClaimantEvent(w: World, tx: Tx, call: Call, w': World)
    requires Inv(w) && Ties(w) && (call.CallCreateClaim? || call.CallResubmitClaim? || call.CallWithdrawClaim?)
    requires ClaimAllowed(w, tx, call) && ClaimEffect(w, tx, call, w')
    ensures exists e :: AddsEvent(w, w', e) && RightlyDone(w, e)
  {
    hide Inv, Ties, IsMember, MemberSound, FreeInvoice, TrimSpace, RightlyDone, Claims, Resubmits, Withdraws;
    match call
    case CallCreateClaim(id, project, _, applicant, _) =>
      assert TrimSpace(TrimSpace(applicant)) == TrimSpace(applicant);
      MemberByRecords(w, tx, TrimSpace(project), TrimSpace(applicant));
      ByMember(w, w', ProjectEvent(TrimSpace(project), tx.id, SubmitReimbursement, TrimSpace(applicant), TrimSpace(id)));
    case CallResubmitClaim(id, _, applicant) =>
      MemberByRecords(w, tx, ProjectOf(w, TrimSpace(id)), applicant);
      ByMember(w, w', About(w, tx, id, EventKind.ResubmitReimbursement, applicant));
    case CallWithdrawClaim(id, applicant) =>
      MemberByRecords(w, tx, ProjectOf(w, TrimSpace(id)), applicant);
      ByMember(w, w', About(w, tx, id, EventKind.WithdrawReimbursement, applicant));
  }

  lemma MemberEvent(w: World, tx: Tx, call: Call, w': World)
    requires Inv(w) && Ties(w) && MembersCall(call) && Allowed(w, tx, call) && Effect(w, tx, call, w')
    ensures exists e :: AddsEvent(w, w', e) && RightlyDone(w, e)
  {
    hide Inv, Ties, InvoiceAllowed, InvoiceEffect, ClaimAllowed, ClaimEffect, RightlyDone, AddsEvent;
    if OnInvoices(call) { LinkEvent(w, tx, call, w'); } else { ClaimantEvent(w, tx, call, w'); }
  }

  // ----- every run -----

  lemma TrailGrows(w: World, w': World, e: ProjectEvent)
    requires TrailOk(w) && OwnersKept(w, w') && AddsEvent(w, w', e) && (RightlyDone(w, e) || RightlyDone(w', e))
    ensures TrailOk(w')
  {
    hide RightlyDone, OwnersKept;
    forall f | f in w'.eventLog ensures RightlyDone(w', f) {
      if f in w.eventLog {
        StaysRight(w, w', f);
      } else {
        assert f == e;
        if RightlyDone(w, e) { StaysRight(w, w', e); }
      }
    }
  }

  lemma TrailStays(w: World, w': World)
    requires TrailOk(w) && OwnersKept(w, w') && w'.eventLog == w.eventLog
    ensures TrailOk(w')
  {
    hide RightlyDone, OwnersKept;
    forall f | f in w'.eventLog ensures RightlyDone(w', f) { StaysRight(w, w', f); }
  }

  lemma EveryCallIsOneOf(call: Call)
    ensures Duty(call).Some? || OwnersCall(call) || call.CallCreateProject? || MembersCall(call) || !ProjectCall(call)
  {}

  lemma StepKeepsTrail(w: World, tx: Tx, call: Call, w': World)
    requires Reachable(w) && TrailOk(w) && TrimmedIds(call) && Execute(w, tx, call) == Ok(w')
    ensures TrailOk(w')
  {
    hide Reachable, Inv, Ties, TrailOk, TrimmedIds, Execute, Allowed, Effect, OwnersKept, AddsEvent, RightlyDone, Grows, Duty, OwnersCall,
         MembersCall, ProjectCall;
    CharterHolds(w, tx, call);
    CallKeepsOwners(w, tx, call, w');
    EveryCallIsOneOf(call);
    if Duty(call).Some? {
      DutyEvent(w, tx, call, w');
      var e :| AddsEvent(w, w', e) && RightlyDone(w, e);
      TrailGrows(w, w', e);
    } else if OwnersCall(call) {
      OwnerEvent(w, tx, call, w');
      var e :| AddsEvent(w, w', e) && RightlyDone(w, e);
      TrailGrows(w, w', e);
    } else if call.CallCreateProject? {
      FirstEvent(w, tx, call, w');
      var e :| AddsEvent(w, w', e) && RightlyDone(w', e);
      TrailGrows(w, w', e);
    } else if MembersCall(call) {
      ReachableInv(w);
      ReachableTies(w);
      MemberEvent(w, tx, call, w');
      var e :| AddsEvent(w, w', e) && RightlyDone(w, e);
      TrailGrows(w, w', e);
    } else {
      HistoryGrows(w, tx, call);
      OtherCallsAddNoEvent(w, w', tx, call);
      TrailStays(w, w');
    }
  }

  lemma OneStep(w: World, s: Step, rest: seq<Step>)
    requires Reachable(w) && Proper(w, [s] + rest)
    ensures Reachable(Next(w, s.tx, s.call)) && Proper(Next(w, s.tx, s.call), rest)
  {
    hide Reachable, Next;
    assert ([s] + rest)[1..] == rest && [s][1..] == [];
    var w' := Next(w, s.tx, s.call);
    assert Proper(w', []) && Run(w', []) == w';
    assert Proper(w, [s]) && Run(w, [s]) == w';
    RunStaysReachable(w, [s]);
  }

  lemma {:induction false} RunKeepsTrail(w: World, steps: seq<Step>)
    requires Reachable(w) && TrailOk(w) && Proper(w, steps)
    ensures TrailOk(Run(w, steps))
    decreases |steps|
  {
    hide Reachable, TrailOk, Execute;
    if steps != [] {
      var tx, call := steps[0].tx, steps[0].call;
      assert steps == [steps[0]] + steps[1..];
      OneStep(w, steps[0], steps[1..]);
      if Execute(w, tx, call).Ok? { StepKeepsTrail(w, tx, call, Next(w, tx, call)); }
      RunKeepsTrail(Next(w, tx, call), steps[1..]);
    }
  }

  lemma NoTrail(w: World)
    requires Initial(w)
    ensures TrailOk(w)
  {}

  lemma StartIsReachable(w: World)
    requires Initial(w)
    ensures Reachable(w)
  {
    assert Proper(w, []) && Run(w, []) == w;
  }

  /** In every reachable ledger the event store shows of every event that it was rightly done, measured by the records as they are now. */
  lemma TrailShowsDuties(w: World, e: ProjectEvent)
    requires Reachable(w) && e in w.eventLog
    ensures RightlyDone(w, e)
  {
    var w0, steps :| Initial(w0) && Proper(w0, steps) && w == Run(w0, steps);
    StartIsReachable(w0);
    hide Reachable, Run, Proper, RightlyDone;
    NoTrail(w0);
    RunKeepsTrail(w0, steps);
  }
}
