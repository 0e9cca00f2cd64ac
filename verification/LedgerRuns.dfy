/** Runs of the ledger: any sequence of calls with distinct transaction ids, refused ones included. */
module LedgerRuns {
  import opened Basics
  import opened LedgerTypes
  import opened LedgerRules
  import opened LedgerInvariant
  import opened LedgerSteps

  lemma ProjectCallKeepsInv(w: World, tx: Tx, call: Call)
    requires !OnInvoices(call) && !OnClaims(call)
    requires Inv(w) && Fresh(w, tx) && TrimmedIds(call) && ExecuteOnProjects(w, tx, call).Ok?
    ensures Inv(ExecuteOnProjects(w, tx, call).value)
  {
    hide Inv, Fresh, AddsOneEvent, AddsOneFlow, MovesProject, MovesClaim, RestatesClaim, MovesInvoice, AcceptsTransfer,
         SameBooks, DirectoryGrows, TrimSpace,
         RegisterBusinessUser, CreateBusinessOrganization, CreateProject, UpdateProject, SubmitProject,
         ReviewProject, RequestProjectClosure, ReviewProjectClosure, FinalizeProjectSettlement, AddProjectMember;
    match call
    case CallRegisterUser(name, ok, msp, role, org) => RegisterKeepsInv(w, tx, name, ok, msp, role, org);
    case CallCreateOrganization(id, ok, kind, parent, creator) => CreateOrganizationKeepsInv(w, tx, id, ok, kind, parent, creator);
    case CallCreateProject(id, ok, budget, applicant, org) => CreateProjectKeepsInv(w, tx, id, ok, budget, applicant, org);
    case CallUpdateProject(id, ok, budget, applicant) => UpdateProjectKeepsInv(w, tx, id, ok, budget, applicant);
    case CallSubmitProject(id, applicant) => SubmitProjectKeepsInv(w, tx, id, applicant);
    case CallReviewProject(id, decision, ok, reviewer) => ReviewProjectKeepsInv(w, tx, id, decision, ok, reviewer);
    case CallRequestClosure(id, ok, applicant) => RequestClosureKeepsInv(w, tx, id, ok, applicant);
    case CallReviewClosure(id, decision, ok, reviewer) => ReviewClosureKeepsInv(w, tx, id, decision, ok, reviewer);
    case CallFinalize(id, operator) => FinalizeKeepsInv(w, tx, id, operator);
    case CallAddMember(id, name, leader) => AddMemberKeepsInv(w, tx, id, name, leader);
  }

  lemma InvoiceCallKeepsInv(w: World, tx: Tx, call: Call)
    requires OnInvoices(call)
    requires Inv(w) && Fresh(w, tx) && TrimmedIds(call) && ExecuteOnInvoices(w, tx, call).Ok?
    ensures Inv(ExecuteOnInvoices(w, tx, call).value)
  {
    hide Inv, Fresh, AddsOneEvent, AddsOneFlow, MovesProject, MovesClaim, RestatesClaim, MovesInvoice, AcceptsTransfer,
         SameBooks, DirectoryGrows, TrimSpace,
         CreateInvoice, LinkInvoiceToProject, UnlinkInvoiceFromProject, TransferInvoice, RequestInvoiceTransfer,
         RespondInvoiceTransfer, CancelInvoiceTransfer, VoidInvoice, RequestInvoiceVoid, ReviewInvoiceVoid;
    match call
    case CallCreateInvoice(form) => CreateInvoiceKeepsInv(w, tx, form);
    case CallLinkInvoice(id, project, operator) => LinkInvoiceKeepsInv(w, tx, id, project, operator);
    case CallUnlinkInvoice(id, operator) => UnlinkInvoiceKeepsInv(w, tx, id, operator);
    case CallTransferInvoice(id, to, toMsp, operator) => TransferKeepsInv(w, tx, id, to, toMsp, operator);
    case CallRequestTransfer(id, to, toMsp, operator) => RequestTransferKeepsInv(w, tx, id, to, toMsp, operator);
    case CallRespondTransfer(id, decision, recipient) => RespondTransferKeepsInv(w, tx, id, decision, recipient);
    case CallCancelTransfer(id, operator) => CancelTransferKeepsInv(w, tx, id, operator);
    case CallVoidInvoice(id, ok, operator) => VoidInvoiceKeepsInv(w, tx, id, ok, operator);
    case CallRequestVoid(id, ok, applicant) => RequestVoidKeepsInv(w, tx, id, ok, applicant);
    case CallReviewVoid(id, decision, ok, reviewer) => ReviewVoidKeepsInv(w, tx, id, decision, ok, reviewer);
  }

  lemma ClaimCallKeepsInv(w: World, tx: Tx, call: Call)
    requires OnClaims(call)
    requires Inv(w) && Fresh(w, tx) && TrimmedIds(call) && ExecuteOnClaims(w, tx, call).Ok?
    ensures Inv(ExecuteOnClaims(w, tx, call).value)
  {
    hide Inv, Fresh, AddsOneEvent, AddsOneFlow, MovesProject, MovesClaim, RestatesClaim, MovesInvoice, AcceptsTransfer,
         SameBooks, DirectoryGrows, TrimSpace,
         CreateReimbursement, ReviewReimbursement, LedgerRules.ResubmitReimbursement,
         LedgerRules.WithdrawReimbursement, LedgerRules.PayReimbursement;
    match call
    case CallCreateClaim(id, project, invoice, applicant, ok) => CreateClaimKeepsInv(w, tx, id, project, invoice, applicant, ok);
    case CallReviewClaim(id, decision, ok, reviewer) => ReviewClaimKeepsInv(w, tx, id, decision, ok, reviewer);
    case CallResubmitClaim(id, ok, applicant) => ResubmitClaimKeepsInv(w, tx, id, ok, applicant);
    case CallWithdrawClaim(id, applicant) => WithdrawClaimKeepsInv(w, tx, id, applicant);
    case CallPayClaim(id, operator) => PayClaimKeepsInv(w, tx, id, operator);
  }

  /** Every transaction that succeeds keeps the whole-ledger invariant. */
  lemma ExecuteKeepsInv(w: World, tx: Tx, call: Call)
    requires Inv(w) && Fresh(w, tx) && TrimmedIds(call) && Execute(w, tx, call).Ok?
    ensures Inv(Execute(w, tx, call).value)
  {
    hide Inv, Fresh, TrimmedIds, ExecuteOnProjects, ExecuteOnInvoices, ExecuteOnClaims;
    if OnInvoices(call) {
      InvoiceCallKeepsInv(w, tx, call);
    } else if OnClaims(call) {
      ClaimCallKeepsInv(w, tx, call);
    } else {
      ProjectCallKeepsInv(w, tx, call);
    }
  }

  // ----- what a call appends -----

  predicate DirectoryCall(call: Call) { call.CallRegisterUser? || call.CallCreateOrganization? }

  /** Calls whose record in the ledger's history is a project event; the others write an invoice flow. */
  predicate ProjectCall(call: Call) {
    || call.CallCreateProject? || call.CallUpdateProject? || call.CallSubmitProject? || call.CallReviewProject?
    || call.CallRequestClosure? || call.CallReviewClosure? || call.CallFinalize? || call.CallAddMember?
    || call.CallLinkInvoice? || call.CallUnlinkInvoice?
    || call.CallCreateClaim? || call.CallReviewClaim? || call.CallResubmitClaim? || call.CallWithdrawClaim? || call.CallPayClaim?
  }

  ghost predicate Grows(w: World, w': World, tx: Tx, call: Call) {
    if ProjectCall(call) then AddsOneEvent(w, w', tx)
    else if DirectoryCall(call) then DirectoryGrows(w, w')
    else AddsOneFlow(w, w', tx)
  }

  lemma ProjectHistoryGrows(w: World, tx: Tx, call: Call)
    requires !OnInvoices(call) && !OnClaims(call) && ExecuteOnProjects(w, tx, call).Ok?
    ensures Grows(w, ExecuteOnProjects(w, tx, call).value, tx, call)
  {
    hide AddsOneEvent, AddsOneFlow, MovesProject, MovesClaim, RestatesClaim, MovesInvoice, AcceptsTransfer, SameBooks, DirectoryGrows,
         RegisterBusinessUser, CreateBusinessOrganization, CreateProject, UpdateProject, SubmitProject,
         ReviewProject, RequestProjectClosure, ReviewProjectClosure, FinalizeProjectSettlement, AddProjectMember;
  }

  lemma InvoiceHistoryGrows(w: World, tx: Tx, call: Call)
    requires OnInvoices(call) && ExecuteOnInvoices(w, tx, call).Ok?
    ensures Grows(w, ExecuteOnInvoices(w, tx, call).value, tx, call)
  {
    hide AddsOneEvent, AddsOneFlow, MovesProject, MovesClaim, RestatesClaim, MovesInvoice, AcceptsTransfer, SameBooks, DirectoryGrows,
         CreateInvoice, LinkInvoiceToProject, UnlinkInvoiceFromProject, TransferInvoice, RequestInvoiceTransfer,
         RespondInvoiceTransfer, CancelInvoiceTransfer, VoidInvoice, RequestInvoiceVoid, ReviewInvoiceVoid;
  }

  lemma ClaimHistoryGrows(w: World, tx: Tx, call: Call)
    requires OnClaims(call) && ExecuteOnClaims(w, tx, call).Ok?
    ensures Grows(w, ExecuteOnClaims(w, tx, call).value, tx, call)
  {
    hide AddsOneEvent, AddsOneFlow, MovesProject, MovesClaim, RestatesClaim, MovesInvoice, AcceptsTransfer, SameBooks, DirectoryGrows,
         CreateReimbursement, ReviewReimbursement, LedgerRules.ResubmitReimbursement,
         LedgerRules.WithdrawReimbursement, LedgerRules.PayReimbursement;
  }

  lemma HistoryGrows(w: World, tx: Tx, call: Call)
    requires Execute(w, tx, call).Ok?
    ensures Grows(w, Execute(w, tx, call).value, tx, call)
  {
    hide Grows, ExecuteOnProjects, ExecuteOnInvoices, ExecuteOnClaims;
    if OnInvoices(call) {
      InvoiceHistoryGrows(w, tx, call);
    } else if OnClaims(call) {
      ClaimHistoryGrows(w, tx, call);
    } else {
      ProjectHistoryGrows(w, tx, call);
    }
  }

  // ----- runs -----

  datatype Step = Step(tx: Tx, call: Call)

  function Run(w: World, steps: seq<Step>): World
    decreases |steps|
  {
    if steps == [] then w else Run(Next(w, steps[0].tx, steps[0].call), steps[1..])
  }

  /** Every call has trimmed record ids and a transaction id that the history does not hold yet. */
  ghost predicate Proper(w: World, steps: seq<Step>)
    decreases |steps|
  {
    steps != [] ==>
      && TrimmedIds(steps[0].call) && Fresh(w, steps[0].tx)
      && Proper(Next(w, steps[0].tx, steps[0].call), steps[1..])
  }

  /** Fabric's ids: all different, and none of them used before. */
  ghost predicate DistinctIds(w: World, steps: seq<Step>) {
    && (forall i :: 0 <= i < |steps| ==> TrimmedIds(steps[i].call) && Fresh(w, steps[i].tx))
    && (forall i, j :: 0 <= i < j < |steps| ==> steps[i].tx.id != steps[j].tx.id)
  }

  lemma StaysFresh(w: World, tx: Tx, call: Call, other: Tx)
    requires Fresh(w, other) && other.id != tx.id
    ensures Fresh(Next(w, tx, call), other)
  {
    hide Execute, Grows, Fresh;
    if Execute(w, tx, call).Ok? {
      HistoryGrows(w, tx, call);
      GrowthStaysFresh(w, Execute(w, tx, call).value, tx, call, other);
    }
  }

  lemma GrowthStaysFresh(w: World, w': World, tx: Tx, call: Call, other: Tx)
    requires Grows(w, w', tx, call) && Fresh(w, other) && other.id != tx.id
    ensures Fresh(w', other)
  {
    hide ProjectCall, DirectoryCall, AddsOneEvent, AddsOneFlow;
    if ProjectCall(call) {
      EventStaysFresh(w, w', tx, other);
    } else if !DirectoryCall(call) {
      FlowStaysFresh(w, w', tx, other);
    }
  }

  lemma EventStaysFresh(w: World, w': World, tx: Tx, other: Tx)
    requires AddsOneEvent(w, w', tx) && Fresh(w, other) && other.id != tx.id
    ensures Fresh(w', other)
  {
    forall e | e in w'.eventLog ensures e.txId != other.id {
      var i :| 0 <= i < |w'.eventLog| && w'.eventLog[i] == e;
      if i < |w.eventLog| { assert w.eventLog[i] in w.eventLog; }
    }
  }

  lemma FlowStaysFresh(w: World, w': World, tx: Tx, other: Tx)
    requires AddsOneFlow(w, w', tx) && Fresh(w, other) && other.id != tx.id
    ensures Fresh(w', other)
  {
    forall f | f in w'.flowLog ensures f.txId != other.id {
      var i :| 0 <= i < |w'.flowLog| && w'.flowLog[i] == f;
      if i < |w.flowLog| { assert w.flowLog[i] in w.flowLog; }
    }
  }

  /** A run whose transaction ids are all different is proper, whatever its calls do. */
  lemma {:induction false} DistinctIdsAreProper(w: World, steps: seq<Step>)
    requires DistinctIds(w, steps)
    ensures Proper(w, steps)
    decreases |steps|
  {
    hide Next, Fresh, TrimmedIds;
    if steps != [] {
      var rest, w' := steps[1..], Next(w, steps[0].tx, steps[0].call);
      forall i | 0 <= i < |rest| ensures TrimmedIds(rest[i].call) && Fresh(w', rest[i].tx) {
        assert rest[i] == steps[i + 1];
        StaysFresh(w, steps[0].tx, steps[0].call, rest[i].tx);
      }
      DistinctIdsAreProper(w', rest);
    }
  }

  lemma {:induction false} RunKeepsInv(w: World, steps: seq<Step>)
    requires Inv(w) && Proper(w, steps)
    ensures Inv(Run(w, steps))
    decreases |steps|
  {
    hide Inv, Execute;
    if steps != [] {
      var tx, call := steps[0].tx, steps[0].call;
      if Execute(w, tx, call).Ok? { ExecuteKeepsInv(w, tx, call); }
      RunKeepsInv(Next(w, tx, call), steps[1..]);
    }
  }

  /** The states that some run reaches from a ledger holding nothing but a user directory. */
  ghost predicate Reachable(w: World) {
    exists w0, steps :: Initial(w0) && Proper(w0, steps) && w == Run(w0, steps)
  }

  lemma {:induction false} RunsJoin(w: World, steps: seq<Step>, more: seq<Step>)
    requires Proper(w, steps) && Proper(Run(w, steps), more)
    ensures Proper(w, steps + more) && Run(w, steps + more) == Run(Run(w, steps), more)
    decreases |steps|
  {
    hide Next, Fresh, TrimmedIds;
    if steps == [] {
      assert steps + more == more;
    } else {
      assert (steps + more)[1..] == steps[1..] + more;
      RunsJoin(Next(w, steps[0].tx, steps[0].call), steps[1..], more);
    }
  }

  /** A proper run from a reachable ledger ends in a reachable ledger. */
  lemma RunStaysReachable(w: World, steps: seq<Step>)
    requires Reachable(w) && Proper(w, steps)
    ensures Reachable(Run(w, steps))
  {
    hide Run, Proper;
    var w0, before :| Initial(w0) && Proper(w0, before) && w == Run(w0, before);
    RunsJoin(w0, before, steps);
  }

  lemma ReachableInv(w: World)
    requires Reachable(w)
    ensures Inv(w)
  {
    hide Inv, Run;
    var w0, steps :| Initial(w0) && Proper(w0, steps) && w == Run(w0, steps);
    InitialInv(w0);
    RunKeepsInv(w0, steps);
  }
}
