/** The whole contract said once more, by its records: for each of the 25 calls, when it is allowed and what becomes of the ledger; and
    that in every reachable state the transactions do exactly this. */
module Charter {
  import opened Basics
  import opened LedgerTypes
  import opened LedgerRules
  import opened LedgerInvariant
  import opened LedgerRuns
  import opened Transfers
  import opened StuckTransfers
  import opened VoidRequests
  import opened Entitlement
  import opened Lifecycle
  import opened Admission
  import opened InvoiceAdmission
  import Membership

  // ----- the directory and projects -----

  ghost predicate ProjectAllowed(w: World, tx: Tx, call: Call)
    requires !OnInvoices(call) && !OnClaims(call)
  {
    if MovesStatus(call) then MoveAdmitted(w, tx, call)
    else match call
    case CallRegisterUser(name, ok, msp, role, org) => MayRegister(w, tx, name, ok, msp, role, org)
    case CallCreateOrganization(id, ok, kind, parent, creator) => MayFound(w, tx, id, ok, kind, parent, creator)
    case CallCreateProject(id, ok, budget, applicant, org) => MayCreate(w, tx, id, ok, budget, applicant, org)
    case CallFinalize(id, operator) => MaySettle(w, tx, TrimSpace(id), operator)
    case CallAddMember(id, name, leader) => MayAddMember(w, tx, id, name, leader)
  }

  ghost predicate ProjectEffect(w: World, tx: Tx, call: Call, w': World)
    requires !OnInvoices(call) && !OnClaims(call)
  {
    if MovesStatus(call) then
      MoveOf(call).Some? && TrimSpace(call.id) in w.projects
      && w' == Stored(w, call.id, Moved(w.projects[TrimSpace(call.id)], call), Told(call, tx))
    else match call
    case CallRegisterUser(name, _, _, _, org) =>
      w' == w.(users := w.users[TrimSpace(name) := BusinessUser(tx.msp, TrimSpace(org), ProjectMember, true)])
    case CallCreateOrganization(id, _, kind, parent, _) =>
      w' == w.(organizations :=
                 w.organizations[TrimSpace(id) := BusinessOrganization(TrimSpace(id), tx.msp, TrimSpace(parent), kind, true)])
    case CallCreateProject(id, _, budget, applicant, org) =>
      var p, u := TrimSpace(id), TrimSpace(applicant);
      w' == Stored(w.(members := w.members[(p, u) := Leader]), p, Project(p, u, tx.msp, TrimSpace(org), Draft, budget, 0, 0, 0, 0),
                   ProjectEvent(p, tx.id, CreateDraft, u, ""))
    case CallFinalize(id, operator) =>
      Archives(w, w', TrimSpace(id)) && Tells(w, w', ProjectEvent(TrimSpace(id), tx.id, FinalizeSettlement, operator, ""))
    case CallAddMember(id, name, leader) =>
      var e := ProjectEvent(id, tx.id, AddMember, leader, "");
      w' == w.(members := w.members[(id, TrimSpace(name)) := Member], events := w.events[(id, tx.id) := e], eventLog := w.eventLog + [e])
  }

  lemma ProjectCharter(w: World, tx: Tx, call: Call)
    requires Inv(w) && !OnInvoices(call) && !OnClaims(call)
    ensures ExecuteOnProjects(w, tx, call).Ok? <==> ProjectAllowed(w, tx, call)
    ensures ExecuteOnProjects(w, tx, call).Ok? ==> ProjectEffect(w, tx, call, ExecuteOnProjects(w, tx, call).value)
  {
    hide Inv, TrimSpace, AddsOneEvent, MovesProject, SameBooks, DirectoryGrows, MayRegister, MayFound, MayCreate, MaySettle, MayAddMember,
         MoveAdmitted, Archives, Tells, Moved, Told, MoveOf, Stored,
         RegisterBusinessUser, CreateBusinessOrganization, CreateProject, UpdateProject, SubmitProject,
         ReviewProject, RequestProjectClosure, ReviewProjectClosure, FinalizeProjectSettlement, AddProjectMember;
    if MovesStatus(call) {
      MoveCharter(w, tx, call);
      return;
    }
    match call
    case CallRegisterUser(name, ok, msp, role, org) => RegistrationIff(w, tx, name, ok, msp, role, org);
    case CallCreateOrganization(id, ok, kind, parent, creator) => OrganizationIff(w, tx, id, ok, kind, parent, creator);
    case CallCreateProject(id, ok, budget, applicant, org) => CreationIff(w, tx, id, ok, budget, applicant, org);
    case CallFinalize(id, operator) => FinalizeIff(w, tx, id, operator);
    case CallAddMember(id, name, leader) => AddMemberIff(w, tx, id, name, leader);
  }

  lemma MoveCharter(w: World, tx: Tx, call: Call)
    requires Inv(w) && MovesStatus(call)
    ensures ExecuteOnProjects(w, tx, call).Ok? <==> MoveAdmitted(w, tx, call)
    ensures ExecuteOnProjects(w, tx, call).Ok? ==>
              && MoveOf(call).Some? && TrimSpace(call.id) in w.projects
              && ExecuteOnProjects(w, tx, call).value == Stored(w, call.id, Moved(w.projects[TrimSpace(call.id)], call), Told(call, tx))
  {
    hide Inv, TrimSpace, ExecuteOnProjects, Entitled, WellPut, MoveOf, Moved, Told, Stored;
    LifecycleIff(w, tx, call);
  }

  // ----- claims -----

  predicate ClaimAllowed(w: World, tx: Tx, call: Call)
    requires OnClaims(call)
  {
    match call
    case CallCreateClaim(id, project, invoice, applicant, ok) =>
      ok && MayClaim(w, tx, TrimSpace(id), TrimSpace(project), TrimSpace(invoice), TrimSpace(applicant))
    case CallReviewClaim(id, Approve, ok, reviewer) => ok && MayApprove(w, tx, TrimSpace(id), reviewer)
    case CallReviewClaim(id, Decline, ok, reviewer) => ok && MayReturn(w, tx, TrimSpace(id), reviewer)
    case CallReviewClaim(_, Unrecognised, _, _) => false
    case CallResubmitClaim(id, ok, applicant) => ok && MayResubmit(w, tx, TrimSpace(id), applicant)
    case CallWithdrawClaim(id, applicant) => MayWithdraw(w, tx, TrimSpace(id), applicant)
    case CallPayClaim(id, operator) => MayPay(w, tx, TrimSpace(id), operator)
  }

  predicate ClaimEffect(w: World, tx: Tx, call: Call, w': World)
    requires OnClaims(call)
  {
    match call
    case CallCreateClaim(id, project, invoice, applicant, _) =>
      var r, p, i, u := TrimSpace(id), TrimSpace(project), TrimSpace(invoice), TrimSpace(applicant);
      Claims(w, w', r, p, i, u) && Tells(w, w', ProjectEvent(p, tx.id, SubmitReimbursement, u, r))
    case CallReviewClaim(id, Approve, _, reviewer) => Approves(w, w', id) && Tells(w, w', Judged(w, tx, id, ReimbursementApprove, reviewer))
    case CallReviewClaim(id, _, _, reviewer) => Returns(w, w', id) && Tells(w, w', Judged(w, tx, id, ReimbursementRevision, reviewer))
    case CallResubmitClaim(id, _, applicant) =>
      Resubmits(w, w', id) && Tells(w, w', About(w, tx, id, EventKind.ResubmitReimbursement, applicant))
    case CallWithdrawClaim(id, applicant) =>
      Withdraws(w, w', id) && Tells(w, w', About(w, tx, id, EventKind.WithdrawReimbursement, applicant))
    case CallPayClaim(id, operator) =>
      Pays(w, w', id) && Tells(w, w', About(w, tx, id, EventKind.PayReimbursement, TrimSpace(operator)))
  }

  lemma ClaimCharter(w: World, tx: Tx, call: Call)
    requires Inv(w) && OnClaims(call)
    ensures ExecuteOnClaims(w, tx, call).Ok? <==> ClaimAllowed(w, tx, call)
    ensures ExecuteOnClaims(w, tx, call).Ok? ==> ClaimEffect(w, tx, call, ExecuteOnClaims(w, tx, call).value)
  {
    hide Inv, TrimSpace, AddsOneEvent, MovesClaim, RestatesClaim, MayClaim, MayApprove, MayReturn, MayResubmit, MayWithdraw, MayPay,
         Claims, Approves, Returns, Resubmits, Withdraws, Pays, Tells, Judged, About,
         CreateReimbursement, ReviewReimbursement, LedgerRules.ResubmitReimbursement,
         LedgerRules.WithdrawReimbursement, LedgerRules.PayReimbursement;
    match call
    case CallCreateClaim(id, project, invoice, applicant, ok) => ClaimIff(w, tx, id, project, invoice, applicant, ok);
    case CallReviewClaim(id, _, ok, reviewer) => ApprovalIff(w, tx, id, ok, reviewer); ReturnIff(w, tx, id, ok, reviewer);
    case CallResubmitClaim(id, ok, applicant) => ResubmissionIff(w, tx, id, ok, applicant);
    case CallWithdrawClaim(id, applicant) => WithdrawalIff(w, tx, id, applicant);
    case CallPayClaim(id, operator) => PaymentIff(w, tx, id, operator);
  }

  // ----- invoices -----

  /** An issuer of the invoice decides on the open request; an approval asks for what a direct voiding asks for. */
  predicate MayDecide(w: World, tx: Tx, i: string, decision: Decision, opinionOk: bool, reviewer: string) {
    && i in w.invoices && VoidPendingIn(w, i) && opinionOk && reviewer != "" && IssuerOfRecord(w, tx, w.invoices[i], reviewer)
    && (decision.Decline? || (decision.Approve? && !w.invoices[i].status.Voided? && AllWithdrawn(w, i)))
  }

  ghost predicate InvoiceAllowed(w: World, tx: Tx, call: Call)
    requires OnInvoices(call)
  {
    match call
    case CallCreateInvoice(form) => InvoiceAdmitted(w, tx, form)
    case CallLinkInvoice(i, project, operator) => MayLink(w, tx, i, TrimSpace(project), operator)
    case CallUnlinkInvoice(i, operator) => MayUnlink(w, tx, i, operator)
    case CallTransferInvoice(i, to, toMsp, operator) => MayTransfer(w, tx, i, TrimSpace(to), TrimSpace(toMsp), TrimSpace(operator))
    case CallRequestTransfer(i, to, toMsp, operator) =>
      MayOffer(w, tx, i, TrimSpace(to), TrimSpace(toMsp), TrimSpace(operator)) && !PendingBy(w.flowLog, i)
    case CallRespondTransfer(i, Approve, recipient) =>
      && MayReject(w, tx, i, TrimSpace(recipient)) && i in w.invoices && !w.invoices[i].status.Voided?
      && w.invoices[i].holder == w.transfers[TrimSpace(i)].from
    case CallRespondTransfer(i, Decline, recipient) => MayReject(w, tx, i, TrimSpace(recipient))
    case CallRespondTransfer(_, Unrecognised, _) => false
    case CallCancelTransfer(i, operator) => MayCancel(w, i, operator)
    case CallVoidInvoice(i, ok, operator) => ok && MayVoid(w, tx, i, TrimSpace(operator))
    case CallRequestVoid(i, ok, applicant) => ok && MayPlead(w, tx, i, TrimSpace(applicant))
    case CallReviewVoid(i, decision, ok, reviewer) => MayDecide(w, tx, i, decision, ok, TrimSpace(reviewer))
  }

  ghost predicate InvoiceEffect(w: World, tx: Tx, call: Call, w': World)
    requires OnInvoices(call)
  {
    match call
    case CallCreateInvoice(form) =>
      var invoice := Asked(w, form, tx.msp);
      w' == Kept(w, invoice.id, invoice, FirstFlow(invoice, tx, TrimSpace(form.issuer)))
            .(numbers := w.numbers[invoice.invoiceNo := invoice.id])
    case CallLinkInvoice(i, project, operator) =>
      i in w.invoices
      && w' == Relinked(w, i, w.invoices[i].(projectId := TrimSpace(project)),
                        ProjectEvent(TrimSpace(project), tx.id, LinkInvoice, operator, ""))
    case CallUnlinkInvoice(i, operator) =>
      i in w.invoices
      && w' == Relinked(w, i, w.invoices[i].(projectId := ""), ProjectEvent(w.invoices[i].projectId, tx.id, UnlinkInvoice, operator, ""))
    case CallTransferInvoice(i, to, toMsp, operator) =>
      i in w.invoices
      && w' == Kept(w, i, HandedTo(w.invoices[i], TrimSpace(to), TrimSpace(toMsp), Home(w, TrimSpace(to))),
                    InvoiceFlow(i, tx.id, Transfer, TrimSpace(operator), TrimSpace(to), tx.msp))
    case CallRequestTransfer(i, to, toMsp, operator) =>
      w' == Requests(w, i, InvoiceTransfer(i, TrimSpace(operator), TrimSpace(to), TrimSpace(toMsp), TransferPending),
                     InvoiceFlow(i, tx.id, TransferRequested, TrimSpace(operator), TrimSpace(to), tx.msp))
    case CallRespondTransfer(i, Approve, recipient) =>
      i in w.invoices && TrimSpace(i) in w.transfers && var t, u := w.transfers[TrimSpace(i)], TrimSpace(recipient);
      w' == Kept(w, i, HandedTo(w.invoices[i], u, t.toMsp, Home(w, u)), InvoiceFlow(i, tx.id, TransferAcceptance, t.from, u, t.toMsp))
            .(transfers := w.transfers[i := t.(status := TransferAccepted)])
    case CallRespondTransfer(i, _, _) =>
      TrimSpace(i) in w.transfers && var t := w.transfers[TrimSpace(i)];
      w' == Requests(w, i, t.(status := TransferRejected), InvoiceFlow(i, tx.id, TransferRejection, t.from, t.to, t.toMsp))
    case CallCancelTransfer(i, _) =>
      TrimSpace(i) in w.transfers && i in w.invoices && var t := w.transfers[TrimSpace(i)];
      w' == Requests(w, i, t.(status := TransferCancelled),
                     InvoiceFlow(i, tx.id, TransferCancellation, t.from, t.to, w.invoices[i].holderMsp))
    case CallVoidInvoice(i, _, _) =>
      i in w.invoices
      && w' == Kept(w, i, w.invoices[i].(status := Voided), InvoiceFlow(i, tx.id, Void, w.invoices[i].holder, "VOIDED", tx.msp))
    case CallRequestVoid(i, _, applicant) =>
      w' == Pleads(w, i, Plea(w, i, TrimSpace(applicant)), InvoiceFlow(i, tx.id, VoidRequested, TrimSpace(applicant), "ISSUER_REVIEW", tx.msp))
    case CallReviewVoid(i, Decline, _, reviewer) =>
      i in w.voidRequests && var v := w.voidRequests[i];
      w' == Pleads(w, i, v.(status := VoidRejected), InvoiceFlow(i, tx.id, VoidRejection, TrimSpace(reviewer), v.applicant, tx.msp))
    case CallReviewVoid(i, _, _, _) =>
      i in w.voidRequests && i in w.invoices
      && w' == Kept(w, i, w.invoices[i].(status := Voided), InvoiceFlow(i, tx.id, Void, w.invoices[i].holder, "VOIDED", tx.msp))
               .(voidRequests := w.voidRequests[i := w.voidRequests[i].(status := VoidApproved)])
  }

  lemma IssueCharter(w: World, tx: Tx, form: InvoiceForm)
    requires Inv(w)
    ensures var r := CreateInvoice(w, tx, form);
            && (r.Ok? <==> InvoiceAllowed(w, tx, CallCreateInvoice(form)))
            && (r.Ok? ==> InvoiceEffect(w, tx, CallCreateInvoice(form), r.value))
  {
    hide Inv, TrimSpace, CreateInvoice, InvoiceAdmitted, Asked, Kept;
    InvoiceIff(w, tx, form);
  }

  lemma LinkCharter(w: World, tx: Tx, i: string, project: string, operator: string)
    requires Inv(w)
    ensures var r := LinkInvoiceToProject(w, tx, i, project, operator);
            && (r.Ok? <==> InvoiceAllowed(w, tx, CallLinkInvoice(i, project, operator)))
            && (r.Ok? ==> InvoiceEffect(w, tx, CallLinkInvoice(i, project, operator), r.value))
  {
    hide Inv, TrimSpace, LinkInvoiceToProject, IsMember, SameOwner, Relinked;
    LinkIff(w, tx, i, project, operator);
  }

  lemma UnlinkCharter(w: World, tx: Tx, i: string, operator: string)
    requires Inv(w)
    ensures var r := UnlinkInvoiceFromProject(w, tx, i, operator);
            && (r.Ok? <==> InvoiceAllowed(w, tx, CallUnlinkInvoice(i, operator)))
            && (r.Ok? ==> InvoiceEffect(w, tx, CallUnlinkInvoice(i, operator), r.value))
  {
    hide Inv, TrimSpace, UnlinkInvoiceFromProject, IsMember, SameOwner, AllWithdrawn, Relinked;
    UnlinkIff(w, tx, i, operator);
  }

  lemma CancelCharter(w: World, tx: Tx, i: string, operator: string)
    requires Inv(w)
    ensures var r := CancelInvoiceTransfer(w, tx, i, operator);
            && (r.Ok? <==> InvoiceAllowed(w, tx, CallCancelTransfer(i, operator)))
            && (r.Ok? ==> InvoiceEffect(w, tx, CallCancelTransfer(i, operator), r.value))
  {
    hide Inv, TrimSpace, CancelInvoiceTransfer, Requests;
    CancellationIff(w, tx, i, operator);
  }

  lemma VoidCharter(w: World, tx: Tx, i: string, ok: bool, operator: string)
    requires Inv(w)
    ensures var r := VoidInvoice(w, tx, i, ok, operator);
            && (r.Ok? <==> InvoiceAllowed(w, tx, CallVoidInvoice(i, ok, operator)))
            && (r.Ok? ==> InvoiceEffect(w, tx, CallVoidInvoice(i, ok, operator), r.value))
  {
    hide Inv, TrimSpace, VoidInvoice, IssuerOfRecord, AllWithdrawn, Kept;
    VoidIff(w, tx, i, ok, operator);
  }

  lemma PleaCharter(w: World, tx: Tx, i: string, ok: bool, applicant: string)
    requires Inv(w)
    ensures var r := RequestInvoiceVoid(w, tx, i, ok, applicant);
            && (r.Ok? <==> InvoiceAllowed(w, tx, CallRequestVoid(i, ok, applicant)))
            && (r.Ok? ==> InvoiceEffect(w, tx, CallRequestVoid(i, ok, applicant), r.value))
  {
    hide Inv, TrimSpace, RequestInvoiceVoid, IsMember, AllWithdrawn, Plea, Pleads;
    PleaIff(w, tx, i, ok, applicant);
  }

  lemma OfferCharter(w: World, tx: Tx, i: string, to: string, toMsp: string, operator: string)
    requires Reachable(w)
    ensures var r := RequestInvoiceTransfer(w, tx, i, to, toMsp, operator);
            && (r.Ok? <==> InvoiceAllowed(w, tx, CallRequestTransfer(i, to, toMsp, operator)))
            && (r.Ok? ==> InvoiceEffect(w, tx, CallRequestTransfer(i, to, toMsp, operator), r.value))
  {
    hide Reachable, TrimSpace, RequestInvoiceTransfer, MayOffer, PendingBy;
    RequestAdmittedIff(w, tx, i, to, toMsp, operator);
    if RequestInvoiceTransfer(w, tx, i, to, toMsp, operator).Ok? { OfferStores(w, tx, i, to, toMsp, operator); }
  }

  lemma DecisionCharter(w: World, tx: Tx, i: string, decision: Decision, ok: bool, reviewer: string)
    requires Reachable(w)
    ensures var r := ReviewInvoiceVoid(w, tx, i, decision, ok, reviewer);
            && (r.Ok? <==> InvoiceAllowed(w, tx, CallReviewVoid(i, decision, ok, reviewer)))
            && (r.Ok? ==> InvoiceEffect(w, tx, CallReviewVoid(i, decision, ok, reviewer), r.value))
  {
    hide Reachable, Inv, TrimSpace, ReviewInvoiceVoid, IssuerOfRecord, VoidPendingIn, Pleads, Kept;
    ReachableInv(w);
    if i in w.invoices {
      VoidDecisionIff(w, tx, i, decision, ok, reviewer);
      SameIssuer(w, tx, i, TrimSpace(reviewer));
    }
    if ReviewInvoiceVoid(w, tx, i, decision, ok, reviewer).Ok? {
      VoidDecisionStores(w, tx, i, decision, ok, reviewer);
    }
  }

  lemma SameIssuer(w: World, tx: Tx, i: string, name: string)
    requires i in w.invoices && TrimSpace(name) == name
    ensures Membership.IssuerActs(w, tx, w.invoices[i], name) <==> IssuerOfRecord(w, tx, w.invoices[i], name)
  {
    hide ActiveUser, UserOrganization, IssuerOfRecord, Clash;
    IssuerChecks(w, tx, w.invoices[i], name);
  }

  lemma TransferCharter(w: World, tx: Tx, i: string, to: string, toMsp: string, operator: string)
    ensures var r := TransferInvoice(w, tx, i, to, toMsp, operator);
            && (r.Ok? <==> InvoiceAllowed(w, tx, CallTransferInvoice(i, to, toMsp, operator)))
            && (r.Ok? ==> InvoiceEffect(w, tx, CallTransferInvoice(i, to, toMsp, operator), r.value))
  {
    hide TrimSpace, TransferInvoice, HolderActs, Kept, HandedTo;
    assert TrimSpace(TrimSpace(to)) == TrimSpace(to);
    TransferIff(w, tx, i, to, toMsp, operator);
  }

  lemma AnswerCharter(w: World, tx: Tx, i: string, decision: Decision, recipient: string)
    requires Inv(w)
    ensures var r := RespondInvoiceTransfer(w, tx, i, decision, recipient);
            && (r.Ok? <==> InvoiceAllowed(w, tx, CallRespondTransfer(i, decision, recipient)))
            && (r.Ok? ==> InvoiceEffect(w, tx, CallRespondTransfer(i, decision, recipient), r.value))
  {
    hide Inv, TrimSpace, RespondInvoiceTransfer, ActiveUser, Kept, HandedTo, Requests, Home;
    match decision
    case Approve => AcceptanceIff(w, tx, i, recipient);
    case Decline => RejectionIff(w, tx, i, recipient);
    case Unrecognised => AcceptanceIff(w, tx, i, recipient);
  }

  lemma InvoiceCharter(w: World, tx: Tx, call: Call)
    requires Reachable(w) && OnInvoices(call)
    ensures ExecuteOnInvoices(w, tx, call).Ok? <==> InvoiceAllowed(w, tx, call)
    ensures ExecuteOnInvoices(w, tx, call).Ok? ==> InvoiceEffect(w, tx, call, ExecuteOnInvoices(w, tx, call).value)
  {
    hide Reachable, Inv, InvoiceAllowed, InvoiceEffect, TrimSpace, AddsOneEvent, AddsOneFlow, MovesInvoice, AcceptsTransfer, SameBooks,
         CreateInvoice, LinkInvoiceToProject, UnlinkInvoiceFromProject, TransferInvoice, RequestInvoiceTransfer,
         RespondInvoiceTransfer, CancelInvoiceTransfer, VoidInvoice, RequestInvoiceVoid, ReviewInvoiceVoid;
    ReachableInv(w);
    match call
    case CallTransferInvoice(i, to, toMsp, operator) => TransferCharter(w, tx, i, to, toMsp, operator);
    case CallRequestTransfer(i, to, toMsp, operator) => OfferCharter(w, tx, i, to, toMsp, operator);
    case CallRespondTransfer(i, decision, recipient) => AnswerCharter(w, tx, i, decision, recipient);
    case CallReviewVoid(i, decision, ok, reviewer) => DecisionCharter(w, tx, i, decision, ok, reviewer);
    case CallCreateInvoice(form) => IssueCharter(w, tx, form);
    case CallLinkInvoice(i, project, operator) => LinkCharter(w, tx, i, project, operator);
    case CallUnlinkInvoice(i, operator) => UnlinkCharter(w, tx, i, operator);
    case CallCancelTransfer(i, operator) => CancelCharter(w, tx, i, operator);
    case CallVoidInvoice(i, ok, operator) => VoidCharter(w, tx, i, ok, operator);
    case CallRequestVoid(i, ok, applicant) => PleaCharter(w, tx, i, ok, applicant);
  }

  // ----- all of them -----

  ghost predicate Allowed(w: World, tx: Tx, call: Call) {
    if OnInvoices(call) then InvoiceAllowed(w, tx, call)
    else if OnClaims(call) then ClaimAllowed(w, tx, call)
    else ProjectAllowed(w, tx, call)
  }

  ghost predicate Effect(w: World, tx: Tx, call: Call, w': World) {
    if OnInvoices(call) then InvoiceEffect(w, tx, call, w')
    else if OnClaims(call) then ClaimEffect(w, tx, call, w')
    else ProjectEffect(w, tx, call, w')
  }

  /** In every reachable state each of the 25 calls succeeds exactly when the charter allows it, and then leaves exactly the ledger that the
      charter says. */
  lemma CharterHolds(w: World, tx: Tx, call: Call)
    requires Reachable(w)
    ensures Execute(w, tx, call).Ok? <==> Allowed(w, tx, call)
    ensures Execute(w, tx, call).Ok? ==> Effect(w, tx, call, Execute(w, tx, call).value)
  {
    hide Reachable, Inv, ExecuteOnProjects, ExecuteOnInvoices, ExecuteOnClaims, ProjectAllowed, ClaimAllowed, InvoiceAllowed,
         ProjectEffect, ClaimEffect, InvoiceEffect;
    ReachableInv(w);
    if OnInvoices(call) {
      InvoiceCharter(w, tx, call);
    } else if OnClaims(call) {
      ClaimCharter(w, tx, call);
    } else {
      ProjectCharter(w, tx, call);
    }
  }

  lemma InvoiceEffectIsUnique(w: World, tx: Tx, call: Call, a: World, b: World)
    requires OnInvoices(call) && InvoiceEffect(w, tx, call, a) && InvoiceEffect(w, tx, call, b)
    ensures a == b
  {
    hide TrimSpace, Asked, Home, HandedTo, Plea, Kept, Relinked, Requests, Pleads, FirstFlow;
  }

  lemma ClaimEffectIsUnique(w: World, tx: Tx, call: Call, a: World, b: World)
    requires OnClaims(call) && ClaimEffect(w, tx, call, a) && ClaimEffect(w, tx, call, b)
    ensures a == b
  {
    hide TrimSpace, About, Judged;
  }

  lemma ProjectEffectIsUnique(w: World, tx: Tx, call: Call, a: World, b: World)
    requires !OnInvoices(call) && !OnClaims(call) && ProjectEffect(w, tx, call, a) && ProjectEffect(w, tx, call, b)
    ensures a == b
  {
    hide TrimSpace, Moved, Told, MoveOf, Stored;
  }

  /** The charter leaves nothing open: it determines the ledger after the call. */
  lemma EffectIsUnique(w: World, tx: Tx, call: Call, a: World, b: World)
    requires Effect(w, tx, call, a) && Effect(w, tx, call, b)
    ensures a == b
  {
    hide ProjectEffect, ClaimEffect, InvoiceEffect;
    if OnInvoices(call) {
      InvoiceEffectIsUnique(w, tx, call, a, b);
    } else if OnClaims(call) {
      ClaimEffectIsUnique(w, tx, call, a, b);
    } else {
      ProjectEffectIsUnique(w, tx, call, a, b);
    }
  }
}
