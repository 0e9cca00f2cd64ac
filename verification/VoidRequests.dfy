/** The life of a void request, and what becomes of one whose invoice is voided without it. */
module VoidRequests {
  import opened Basics
  import opened LedgerTypes
  import opened LedgerRules
  import opened LedgerInvariant
  import opened LedgerRuns
  import opened LedgerTheorems
  import opened Transfers
  import opened Membership

  predicate VoidPendingIn(w: World, i: string) { i in w.voidRequests && w.voidRequests[i].status.VoidPending? }

  /** A request is stored under its invoice's id, and an approved one has voided it. */
  predicate RequestSound(w: World, i: string) {
    i in w.voidRequests ==>
      && w.voidRequests[i].invoiceId == i && i in w.invoices
      && (w.voidRequests[i].status.VoidApproved? ==> w.invoices[i].status.Voided?)
  }

  ghost predicate VoidRequestsOk(w: World) { forall i :: RequestSound(w, i) }

  // ----- the two calls -----

  /** What a new request reads and writes, the record before it being read under the trimmed id. */
  lemma AskingWrites(w: World, tx: Tx, i: string, ok: bool, applicant: string)
    requires RequestInvoiceVoid(w, tx, i, ok, applicant).Ok?
    ensures i in w.invoices && !w.invoices[i].status.Voided? && w.invoices[i].projectId != "" && !VoidIsPending(w, i)
    ensures var existing := ReadVoidRequest(w, i);
            var record := if existing.Ok? then existing.value else VoidRequest(i, TrimSpace(applicant), VoidPending);
            RequestInvoiceVoid(w, tx, i, ok, applicant).value.voidRequests ==
            w.voidRequests[i := record.(applicant := TrimSpace(applicant), status := VoidPending)]
  {
    hide AddsOneFlow, SameBooks, TrimSpace, IsMember, EnsureUnclaimed, ReadProject, VoidIsPending, ReadVoidRequest;
  }

  lemma AskingStores(w: World, tx: Tx, i: string, ok: bool, applicant: string)
    requires Inv(w) && RequestSound(w, i) && RequestInvoiceVoid(w, tx, i, ok, applicant).Ok?
    ensures i in w.invoices && !w.invoices[i].status.Voided? && w.invoices[i].projectId != "" && !VoidPendingIn(w, i)
    ensures RequestInvoiceVoid(w, tx, i, ok, applicant).value.voidRequests ==
            w.voidRequests[i := VoidRequest(i, TrimSpace(applicant), VoidPending)]
  {
    hide Inv, RequestInvoiceVoid, TrimSpace;
    AskingWrites(w, tx, i, ok, applicant);
    StoredInvoice(w, i);
  }

  /** What a review reads and writes. */
  lemma ReviewWrites(w: World, tx: Tx, i: string, decision: Decision, ok: bool, reviewer: string)
    requires ReviewInvoiceVoid(w, tx, i, decision, ok, reviewer).Ok?
    ensures ReadVoidRequest(w, i).Ok? && ReadVoidRequest(w, i).value.status.VoidPending? && i in w.invoices
    ensures var w' := ReviewInvoiceVoid(w, tx, i, decision, ok, reviewer).value;
            && w'.voidRequests ==
               w.voidRequests[i := ReadVoidRequest(w, i).value.(status := if decision.Decline? then VoidRejected else VoidApproved)]
            && (!decision.Decline? ==>
                  !w.invoices[i].status.Voided? && w'.invoices == w.invoices[i := w.invoices[i].(status := Voided)])
  {
    hide AddsOneFlow, SameBooks, MovesInvoice, TrimSpace, ActiveUser, UserOrganization, EnsureUnclaimed, ReadVoidRequest, Clash;
  }

  lemma ReviewStores(w: World, tx: Tx, i: string, decision: Decision, ok: bool, reviewer: string)
    requires Inv(w) && ReviewInvoiceVoid(w, tx, i, decision, ok, reviewer).Ok?
    ensures VoidPendingIn(w, i) && i in w.invoices
    ensures var w' := ReviewInvoiceVoid(w, tx, i, decision, ok, reviewer).value;
            && w'.voidRequests == w.voidRequests[i := w.voidRequests[i].(status := if decision.Decline? then VoidRejected else VoidApproved)]
            && (!decision.Decline? ==>
                  !w.invoices[i].status.Voided? && w'.invoices == w.invoices[i := w.invoices[i].(status := Voided)])
  {
    hide Inv, ReviewInvoiceVoid, TrimSpace;
    ReviewWrites(w, tx, i, decision, ok, reviewer);
    StoredInvoice(w, i);
  }

  // ----- any call -----

  /** What may become of the void request of an invoice: it is made, while none is open and the invoice is valid and linked; it
      is rejected while open; or it is approved while open, and that voids the invoice. */
  predicate VoidRequestMoves(w: World, w': World, call: Call, i: string) {
    || (i !in w.voidRequests && i !in w'.voidRequests)
    || (i in w.voidRequests && i in w'.voidRequests && w'.voidRequests[i] == w.voidRequests[i])
    || (&& call.CallRequestVoid? && call.id == i && !VoidPendingIn(w, i) && i in w.invoices
        && !w.invoices[i].status.Voided? && w.invoices[i].projectId != ""
        && i in w'.voidRequests && w'.voidRequests[i] == VoidRequest(i, TrimSpace(call.applicant), VoidPending))
    || (&& call.CallReviewVoid? && call.id == i && VoidPendingIn(w, i) && i in w.invoices && i in w'.voidRequests
        && (if call.decision.Decline? then w'.voidRequests[i] == w.voidRequests[i].(status := VoidRejected)
            else && w'.voidRequests[i] == w.voidRequests[i].(status := VoidApproved)
                 && !w.invoices[i].status.Voided? && i in w'.invoices && w'.invoices[i].status.Voided?))
  }

  lemma SameVoidRequestsMove(w: World, w': World, call: Call, i: string)
    requires w'.voidRequests == w.voidRequests
    ensures VoidRequestMoves(w, w', call, i)
  {}

  lemma TransferSpares(w: World, tx: Tx, i: string, to: string, toMsp: string, operator: string)
    requires TransferInvoice(w, tx, i, to, toMsp, operator).Ok?
    ensures TransferInvoice(w, tx, i, to, toMsp, operator).value.voidRequests == w.voidRequests
  {
    hide AddsOneFlow, MovesInvoice, SameBooks, TrimSpace, ActiveUser, UserOrganization, ReadUser, BusinessMsp, Clash;
  }

  lemma OfferSpares(w: World, tx: Tx, i: string, to: string, toMsp: string, operator: string)
    requires RequestInvoiceTransfer(w, tx, i, to, toMsp, operator).Ok?
    ensures RequestInvoiceTransfer(w, tx, i, to, toMsp, operator).value.voidRequests == w.voidRequests
  {
    hide AddsOneFlow, SameBooks, TrimSpace, ActiveUser, RegisteredRole, TransferIsPending;
  }

  lemma ResponseSpares(w: World, tx: Tx, i: string, decision: Decision, recipient: string)
    requires RespondInvoiceTransfer(w, tx, i, decision, recipient).Ok?
    ensures RespondInvoiceTransfer(w, tx, i, decision, recipient).value.voidRequests == w.voidRequests
  {
    hide AddsOneFlow, AcceptsTransfer, SameBooks, TrimSpace, ActiveUser, UserOrganization, ReadTransfer;
  }

  lemma CancellationSpares(w: World, tx: Tx, i: string, operator: string)
    requires CancelInvoiceTransfer(w, tx, i, operator).Ok?
    ensures CancelInvoiceTransfer(w, tx, i, operator).value.voidRequests == w.voidRequests
  {
    hide AddsOneFlow, SameBooks, TrimSpace, ReadTransfer;
  }

  lemma VoidSpares(w: World, tx: Tx, i: string, ok: bool, operator: string)
    requires VoidInvoice(w, tx, i, ok, operator).Ok?
    ensures VoidInvoice(w, tx, i, ok, operator).value.voidRequests == w.voidRequests
  {
    hide AddsOneFlow, MovesInvoice, SameBooks, TrimSpace, ActiveUser, UserOrganization, EnsureUnclaimed, Clash;
  }

  lemma CreateSpares(w: World, tx: Tx, form: InvoiceForm)
    requires CreateInvoice(w, tx, form).Ok?
    ensures CreateInvoice(w, tx, form).value.voidRequests == w.voidRequests
  {
    hide AddsOneFlow, SameBooks, TrimSpace, DraftInvoice;
  }

  lemma AskingMoves(w: World, tx: Tx, id: string, ok: bool, applicant: string, i: string)
    requires Inv(w) && RequestSound(w, id) && RequestInvoiceVoid(w, tx, id, ok, applicant).Ok?
    ensures VoidRequestMoves(w, RequestInvoiceVoid(w, tx, id, ok, applicant).value, CallRequestVoid(id, ok, applicant), i)
  {
    hide Inv, RequestInvoiceVoid, TrimSpace;
    AskingStores(w, tx, id, ok, applicant);
  }

  lemma ReviewMoves(w: World, tx: Tx, id: string, decision: Decision, ok: bool, reviewer: string, i: string)
    requires Inv(w) && ReviewInvoiceVoid(w, tx, id, decision, ok, reviewer).Ok?
    ensures VoidRequestMoves(w, ReviewInvoiceVoid(w, tx, id, decision, ok, reviewer).value, CallReviewVoid(id, decision, ok, reviewer), i)
  {
    hide Inv, ReviewInvoiceVoid, TrimSpace;
    ReviewStores(w, tx, id, decision, ok, reviewer);
  }

  lemma FlowCallVoidMoves(w: World, tx: Tx, call: Call, i: string)
    requires Inv(w) && VoidRequestsOk(w) && OnInvoices(call) && !ProjectCall(call) && ExecuteOnInvoices(w, tx, call).Ok?
    ensures VoidRequestMoves(w, ExecuteOnInvoices(w, tx, call).value, call, i)
  {
    hide Inv, RequestSound, VoidRequestMoves, AddsOneFlow, MovesInvoice, AcceptsTransfer, SameBooks, TrimSpace,
         CreateInvoice, LinkInvoiceToProject, UnlinkInvoiceFromProject, TransferInvoice, RequestInvoiceTransfer,
         RespondInvoiceTransfer, CancelInvoiceTransfer, VoidInvoice, RequestInvoiceVoid, ReviewInvoiceVoid;
    if call.CallRequestVoid? {
      AskingMoves(w, tx, call.id, call.reasonOk, call.applicant, i);
    } else if call.CallReviewVoid? {
      ReviewMoves(w, tx, call.id, call.decision, call.opinionOk, call.reviewer, i);
    } else {
      FlowCallSpares(w, tx, call);
      SameVoidRequestsMove(w, ExecuteOnInvoices(w, tx, call).value, call, i);
    }
  }

  lemma FlowCallSpares(w: World, tx: Tx, call: Call)
    requires OnInvoices(call) && !ProjectCall(call) && !call.CallRequestVoid? && !call.CallReviewVoid? && ExecuteOnInvoices(w, tx, call).Ok?
    ensures ExecuteOnInvoices(w, tx, call).value.voidRequests == w.voidRequests
  {
    hide AddsOneFlow, MovesInvoice, AcceptsTransfer, SameBooks, TrimSpace,
         CreateInvoice, LinkInvoiceToProject, UnlinkInvoiceFromProject, TransferInvoice, RequestInvoiceTransfer,
         RespondInvoiceTransfer, CancelInvoiceTransfer, VoidInvoice, RequestInvoiceVoid, ReviewInvoiceVoid;
    match call
    case CallCreateInvoice(form) => CreateSpares(w, tx, form);
    case CallTransferInvoice(id, to, toMsp, operator) => TransferSpares(w, tx, id, to, toMsp, operator);
    case CallRequestTransfer(id, to, toMsp, operator) => OfferSpares(w, tx, id, to, toMsp, operator);
    case CallRespondTransfer(id, decision, recipient) => ResponseSpares(w, tx, id, decision, recipient);
    case CallCancelTransfer(id, operator) => CancellationSpares(w, tx, id, operator);
    case CallVoidInvoice(id, ok, operator) => VoidSpares(w, tx, id, ok, operator);
  }

  lemma GrowthSpares(w: World, w': World, tx: Tx, call: Call)
    requires Grows(w, w', tx, call) && (ProjectCall(call) || DirectoryCall(call))
    ensures w'.voidRequests == w.voidRequests
  {}

  lemma CallVoidMoves(w: World, tx: Tx, call: Call, i: string)
    requires Inv(w) && VoidRequestsOk(w) && Execute(w, tx, call).Ok?
    ensures VoidRequestMoves(w, Execute(w, tx, call).value, call, i)
  {
    hide Inv, VoidRequestsOk, VoidRequestMoves, ExecuteOnInvoices, ExecuteOnProjects, ExecuteOnClaims, Grows;
    if OnInvoices(call) && !ProjectCall(call) {
      FlowCallVoidMoves(w, tx, call, i);
    } else {
      HistoryGrows(w, tx, call);
      GrowthSpares(w, Execute(w, tx, call).value, tx, call);
      SameVoidRequestsMove(w, Execute(w, tx, call).value, call, i);
    }
  }

  // ----- any run -----

  lemma MoveIsSound(w: World, w': World, call: Call, i: string)
    requires RequestSound(w, i) && VoidRequestMoves(w, w', call, i) && CustodyRespected(w, w', call)
    ensures RequestSound(w', i)
  {
    hide MayMove, MadeBy, TrimSpace;
  }

  lemma ExecuteKeepsVoidRequests(w: World, tx: Tx, call: Call)
    requires Inv(w) && VoidRequestsOk(w) && Execute(w, tx, call).Ok?
    ensures VoidRequestsOk(Execute(w, tx, call).value)
  {
    hide Inv, RequestSound, Execute, VoidRequestMoves, CustodyRespected;
    var w' := Execute(w, tx, call).value;
    CustodyStep(w, tx, call, w');
    forall i ensures RequestSound(w', i) {
      CallVoidMoves(w, tx, call, i);
      assert RequestSound(w, i);
      MoveIsSound(w, w', call, i);
    }
  }

  lemma {:induction false} RunKeepsVoidRequests(w: World, steps: seq<Step>)
    requires Inv(w) && VoidRequestsOk(w) && Proper(w, steps)
    ensures VoidRequestsOk(Run(w, steps))
    decreases |steps|
  {
    hide Inv, VoidRequestsOk, Execute;
    if steps != [] {
      var tx, call := steps[0].tx, steps[0].call;
      if Execute(w, tx, call).Ok? {
        ExecuteKeepsInv(w, tx, call);
        ExecuteKeepsVoidRequests(w, tx, call);
      }
      RunKeepsVoidRequests(Next(w, tx, call), steps[1..]);
    }
  }

  lemma NoVoidRequests(w: World)
    requires Initial(w)
    ensures VoidRequestsOk(w)
  {}

  lemma ReachableVoidRequests(w: World)
    requires Reachable(w)
    ensures VoidRequestsOk(w)
  {
    hide Inv, Run, Proper, VoidRequestsOk;
    var w0, steps :| Initial(w0) && Proper(w0, steps) && w == Run(w0, steps);
    InitialInv(w0);
    NoVoidRequests(w0);
    RunKeepsVoidRequests(w0, steps);
  }

  // ----- results -----

  /** The void request of an invoice changes in these ways only. */
  lemma VoidRequestLife(w: World, tx: Tx, call: Call, i: string)
    requires Reachable(w) && Execute(w, tx, call).Ok?
    ensures VoidRequestMoves(w, Execute(w, tx, call).value, call, i)
  {
    hide Reachable, Inv, VoidRequestsOk, VoidRequestMoves, Execute;
    ReachableInv(w);
    ReachableVoidRequests(w);
    CallVoidMoves(w, tx, call, i);
  }

  /** An approved request has voided its invoice. */
  lemma ApprovedIsVoided(w: World, i: string)
    requires Reachable(w) && i in w.voidRequests && w.voidRequests[i].status.VoidApproved?
    ensures i in w.invoices && w.invoices[i].status.Voided?
  {
    hide Reachable;
    ReachableVoidRequests(w);
    assert RequestSound(w, i);
  }

  lemma ReviewReads(w: World, tx: Tx, i: string, decision: Decision, ok: bool, reviewer: string)
    requires i in w.invoices && Trimmed(i)
    ensures ReviewInvoiceVoid(w, tx, i, decision, ok, reviewer).Ok? <==>
            && VoidPendingIn(w, i) && ok && TrimSpace(reviewer) != "" && IssuerActs(w, tx, w.invoices[i], TrimSpace(reviewer))
            && (decision.Decline? || (decision.Approve? && !w.invoices[i].status.Voided? && EnsureUnclaimed(w, i).Ok?))
  {
    hide AddsOneFlow, SameBooks, MovesInvoice, TrimSpace, ActiveUser, UserOrganization, EnsureUnclaimed, Clash;
  }

  /** A decision on a void request is admitted exactly for an open one and an issuer of the invoice; an approval also asks that
      the invoice is still valid and every claim on it withdrawn. */
  lemma VoidDecisionIff(w: World, tx: Tx, i: string, decision: Decision, ok: bool, reviewer: string)
    requires Reachable(w) && i in w.invoices
    ensures ReviewInvoiceVoid(w, tx, i, decision, ok, reviewer).Ok? <==>
            && VoidPendingIn(w, i) && ok && TrimSpace(reviewer) != "" && IssuerActs(w, tx, w.invoices[i], TrimSpace(reviewer))
            && (decision.Decline? ||
                (&& decision.Approve? && !w.invoices[i].status.Voided?
                 && forall r :: r in w.claims && w.claims[r].invoiceId == i ==> w.claims[r].status.Withdrawn?))
  {
    hide Reachable, Inv, ReviewInvoiceVoid, IssuerActs, TrimSpace, EnsureUnclaimed;
    ReachableInv(w);
    StoredInvoice(w, i);
    ReviewReads(w, tx, i, decision, ok, reviewer);
    VoidableIffAllWithdrawn(w, i);
  }

  /** When an invoice becomes void, a request on it is open afterwards if and only if one was open and the issuer voided the
      invoice directly: VoidInvoice does not look at the request. */
  lemma OpenOnVoidedIff(w: World, tx: Tx, call: Call, i: string)
    requires Reachable(w) && Execute(w, tx, call).Ok? && i in w.invoices && !w.invoices[i].status.Voided?
    requires VoidedIn(Execute(w, tx, call).value, i)
    ensures VoidPendingIn(Execute(w, tx, call).value, i) <==> VoidPendingIn(w, i) && call.CallVoidInvoice?
  {
    hide Reachable, Inv, VoidRequestsOk, Execute, IssuerActs, TrimSpace;
    VoidRequestLife(w, tx, call, i);
    OnlyIssuersVoid(w, tx, call, i);
    if call.CallReviewVoid? { ApprovalCloses(w, tx, call, i); }
  }

  /** A review that voids the invoice closes its request. */
  lemma ApprovalCloses(w: World, tx: Tx, call: Call, i: string)
    requires Reachable(w) && Execute(w, tx, call).Ok? && call.CallReviewVoid? && call.id == i && !call.decision.Decline?
    ensures !VoidPendingIn(Execute(w, tx, call).value, i)
  {
    hide Reachable, Inv, ReviewInvoiceVoid, TrimSpace;
    ReachableInv(w);
    ReviewingCall(w, tx, call);
    ReviewStores(w, tx, i, call.decision, call.opinionOk, call.reviewer);
  }

  lemma ReviewingCall(w: World, tx: Tx, call: Call)
    requires call.CallReviewVoid?
    ensures Execute(w, tx, call) == ReviewInvoiceVoid(w, tx, call.id, call.decision, call.opinionOk, call.reviewer)
  {
    hide ReviewInvoiceVoid, ExecuteOnProjects, ExecuteOnClaims;
  }

  /** The request of a voided invoice is what it was, or it was open and has been rejected; there is still none if there was
      none. */
  predicate OnlyRejected(w: World, w': World, i: string) {
    if i in w.voidRequests then
      && i in w'.voidRequests
      && (|| w'.voidRequests[i] == w.voidRequests[i]
          || (VoidPendingIn(w, i) && w'.voidRequests[i] == w.voidRequests[i].(status := VoidRejected)))
    else i !in w'.voidRequests
  }

  predicate VoidedIn(w: World, i: string) { i in w.invoices && w.invoices[i].status.Voided? }

  lemma {:induction false} VoidedRun(w: World, steps: seq<Step>, i: string)
    requires Inv(w) && VoidRequestsOk(w) && Proper(w, steps) && VoidedIn(w, i)
    ensures OnlyRejected(w, Run(w, steps), i)
    decreases |steps|
  {
    hide Inv, VoidRequestsOk, Execute, CustodyRespected;
    if steps != [] {
      var tx, call := steps[0].tx, steps[0].call;
      var w1 := Next(w, tx, call);
      if Execute(w, tx, call).Ok? {
        ExecuteKeepsInv(w, tx, call);
        ExecuteKeepsVoidRequests(w, tx, call);
        CallVoidMoves(w, tx, call, i);
        CustodyStep(w, tx, call, w1);
        VoidedStays(w, w1, call, i);
      }
      VoidedRun(w1, steps[1..], i);
    }
  }

  lemma VoidedStays(w: World, w': World, call: Call, i: string)
    requires CustodyRespected(w, w', call) && VoidedIn(w, i)
    ensures VoidedIn(w', i)
  {
    hide MayMove, MadeBy;
  }

  /** VoidInvoice does not close the request that may be open on the invoice. Once an invoice is void, by whatever way, no run
      does anything to its request but reject an open one. */
  lemma VoidedRequestOnlyRejected(w: World, steps: seq<Step>, i: string)
    requires Reachable(w) && Proper(w, steps) && VoidedIn(w, i)
    ensures OnlyRejected(w, Run(w, steps), i)
  {
    hide Reachable, Inv, VoidRequestsOk, Run, Proper, OnlyRejected;
    ReachableInv(w);
    ReachableVoidRequests(w);
    VoidedRun(w, steps, i);
  }
}
