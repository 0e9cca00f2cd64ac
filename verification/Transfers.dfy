/** The life of a transfer request, told by the invoice flows: requested once, answered once. */
module Transfers {
  import opened Basics
  import opened LedgerTypes
  import opened LedgerRules
  import opened Balances
  import opened Backing
  import opened Histories
  import opened LedgerInvariant
  import opened LedgerSteps
  import opened LedgerRuns

  predicate Answers(kind: FlowKind) { kind.TransferAcceptance? || kind.TransferRejection? || kind.TransferCancellation? }

  /** Whether a request on the invoice is open after the flows. */
  function PendingBy(log: seq<InvoiceFlow>, i: string): bool {
    if log == [] then false
    else
      var last := log[|log| - 1];
      if last.invoiceId == i && last.kind.TransferRequested? then true
      else if last.invoiceId == i && Answers(last.kind) then false
      else PendingBy(log[..|log| - 1], i)
  }

  predicate PendingIn(transfers: map<string, InvoiceTransfer>, i: string) {
    i in transfers && transfers[i].status.TransferPending?
  }

  /** A request comes when none is open; an answer, under an id without outer space, comes when one is. */
  predicate InTurn(before: seq<InvoiceFlow>, f: InvoiceFlow) {
    && (f.kind.TransferRequested? ==> !PendingBy(before, f.invoiceId))
    && (Answers(f.kind) && Trimmed(f.invoiceId) ==> PendingBy(before, f.invoiceId))
  }

  ghost predicate RequestsOk(w: World) {
    && (forall i :: PendingBy(w.flowLog, i) <==> PendingIn(w.transfers, i))
    && (forall k :: 0 <= k < |w.flowLog| ==> InTurn(w.flowLog[..k], w.flowLog[k]))
    && (forall i :: i in w.transfers ==> '#' !in i)
    && (forall i :: PendingIn(w.transfers, i) ==> Trimmed(i))
    && (forall f :: f in w.flowLog ==> '#' !in f.invoiceId)
  }

  // ----- what keeps it -----

  /** One flow and the request record that goes with it. */
  ghost predicate FlowMoves(w: World, w': World, i: string, kind: FlowKind) {
    && '#' !in i
    && |w'.flowLog| == |w.flowLog| + 1 && w'.flowLog == w.flowLog + [w'.flowLog[|w.flowLog|]]
    && w'.flowLog[|w.flowLog|].invoiceId == i && w'.flowLog[|w.flowLog|].kind == kind
    && (if kind.TransferRequested? || Answers(kind)
        then i in w'.transfers && w'.transfers == w.transfers[i := w'.transfers[i]]
             && w'.transfers[i].status.TransferPending? == kind.TransferRequested?
        else w'.transfers == w.transfers)
    && (kind.TransferRequested? ==> Trimmed(i) && !PendingIn(w.transfers, i))
    && (Answers(kind) && Trimmed(i) ==> PendingIn(w.transfers, i))
  }

  lemma FlowKeepsRequests(w: World, w': World, i: string, kind: FlowKind)
    requires RequestsOk(w) && FlowMoves(w, w', i, kind)
    ensures RequestsOk(w')
  {
    hide Trimmed;
    var n := |w.flowLog|;
    assert w'.flowLog[..n] == w.flowLog;
    forall j ensures PendingBy(w'.flowLog, j) <==> PendingIn(w'.transfers, j) {
      assert PendingBy(w.flowLog, j) <==> PendingIn(w.transfers, j);
    }
    forall k | 0 <= k < |w'.flowLog| ensures InTurn(w'.flowLog[..k], w'.flowLog[k]) {
      if k < n {
        assert w'.flowLog[..k] == w.flowLog[..k] && InTurn(w.flowLog[..k], w.flowLog[k]);
      } else {
        assert PendingBy(w.flowLog, i) <==> PendingIn(w.transfers, i);
      }
    }
    forall f | f in w'.flowLog ensures '#' !in f.invoiceId {
      assert f in w.flowLog || f == w'.flowLog[n];
    }
  }

  lemma SameFlowsKeepRequests(w: World, w': World)
    requires RequestsOk(w) && w'.flowLog == w.flowLog && w'.transfers == w.transfers
    ensures RequestsOk(w')
  {}

  lemma {:induction false} HashFreeTrim(s: string)
    requires '#' !in TrimSpace(s)
    ensures '#' !in s
    decreases |s|
  {
    if s != "" && IsSpace(s[0]) {
      HashFreeTrim(s[1..]);
      assert s == [s[0]] + s[1..];
    } else if s != "" && IsSpace(s[|s| - 1]) {
      HashFreeTrim(s[..|s| - 1]);
      assert s == s[..|s| - 1] + [s[|s| - 1]];
    }
  }

  /** An invoice that is stored is stored under a trimmed id without '#'. */
  lemma StoredInvoice(w: World, i: string)
    requires Inv(w) && i in w.invoices
    ensures InvoiceKeyed(i, w.invoices[i])
  {
    hide BooksOk, NumbersOk, HistoryOk, CustodyOk, EventStoreOk, FlowStoreOk, ApplicantsOk, OrganizationsOk;
  }

  lemma CreateFlows(w: World, tx: Tx, form: InvoiceForm)
    requires CreateInvoice(w, tx, form).Ok?
    ensures exists i, kind :: FlowMoves(w, CreateInvoice(w, tx, form).value, i, kind)
  {
    hide AddsOneFlow, SameBooks, TrimSpace, DraftInvoice;
    DraftSound(w, tx, form);
    var i := DraftInvoice(w, tx, form).value.id;
    var kind := if DraftInvoice(w, tx, form).value.correctionOf == "" then Issue else Correction;
    assert FlowMoves(w, CreateInvoice(w, tx, form).value, i, kind);
  }

  lemma TransferFlows(w: World, tx: Tx, i: string, to: string, toMsp: string, operator: string)
    requires Inv(w) && TransferInvoice(w, tx, i, to, toMsp, operator).Ok?
    ensures FlowMoves(w, TransferInvoice(w, tx, i, to, toMsp, operator).value, i, Transfer)
  {
    hide Inv, AddsOneFlow, SameBooks, MovesInvoice, TrimSpace, ActiveUser, UserOrganization, ReadUser, BusinessMsp;
    StoredInvoice(w, i);
  }

  lemma RequestFlows(w: World, tx: Tx, i: string, to: string, toMsp: string, operator: string)
    requires Inv(w) && RequestInvoiceTransfer(w, tx, i, to, toMsp, operator).Ok?
    ensures FlowMoves(w, RequestInvoiceTransfer(w, tx, i, to, toMsp, operator).value, i, TransferRequested)
  {
    hide Inv, AddsOneFlow, SameBooks, TrimSpace, ActiveUser, RegisteredRole;
    StoredInvoice(w, i);
  }

  lemma RequestIdHasNoHash(w: World, i: string)
    requires RequestsOk(w) && TrimSpace(i) in w.transfers
    ensures '#' !in i
  {
    HashFreeTrim(i);
  }

  lemma ResponseWrites(w: World, tx: Tx, i: string, decision: Decision, recipient: string)
    requires RespondInvoiceTransfer(w, tx, i, decision, recipient).Ok?
    ensures PendingIn(w.transfers, TrimSpace(i)) && (decision.Approve? ==> i in w.invoices)
    ensures var kind := if decision.Decline? then TransferRejection else TransferAcceptance;
            '#' !in i ==> FlowMoves(w, RespondInvoiceTransfer(w, tx, i, decision, recipient).value, i, kind)
  {
    hide AddsOneFlow, SameBooks, AcceptsTransfer, TrimSpace, ActiveUser, UserOrganization;
  }

  /** A rejection writes under the id as spelled; an acceptance finds no invoice under an id with outer space. */
  lemma RespondFlows(w: World, tx: Tx, i: string, decision: Decision, recipient: string)
    requires Inv(w) && RequestsOk(w) && RespondInvoiceTransfer(w, tx, i, decision, recipient).Ok?
    ensures FlowMoves(w, RespondInvoiceTransfer(w, tx, i, decision, recipient).value, i,
                      if decision.Decline? then TransferRejection else TransferAcceptance)
    ensures decision.Approve? ==> Trimmed(i)
  {
    hide Inv, RequestsOk, TrimSpace, FlowMoves, RespondInvoiceTransfer;
    ResponseWrites(w, tx, i, decision, recipient);
    RequestIdHasNoHash(w, i);
    if decision.Approve? { StoredInvoice(w, i); }
  }

  lemma CancelFlows(w: World, tx: Tx, i: string, operator: string)
    requires Inv(w) && CancelInvoiceTransfer(w, tx, i, operator).Ok?
    ensures Trimmed(i) && FlowMoves(w, CancelInvoiceTransfer(w, tx, i, operator).value, i, TransferCancellation)
  {
    hide Inv, AddsOneFlow, SameBooks, TrimSpace;
    StoredInvoice(w, i);
  }

  lemma VoidFlows(w: World, tx: Tx, i: string, ok: bool, operator: string)
    requires Inv(w) && VoidInvoice(w, tx, i, ok, operator).Ok?
    ensures FlowMoves(w, VoidInvoice(w, tx, i, ok, operator).value, i, Void)
  {
    hide Inv, AddsOneFlow, SameBooks, MovesInvoice, TrimSpace, ActiveUser, UserOrganization, EnsureUnclaimed;
    StoredInvoice(w, i);
  }

  lemma AskVoidFlows(w: World, tx: Tx, i: string, ok: bool, applicant: string)
    requires Inv(w) && RequestInvoiceVoid(w, tx, i, ok, applicant).Ok?
    ensures FlowMoves(w, RequestInvoiceVoid(w, tx, i, ok, applicant).value, i, VoidRequested)
  {
    hide Inv, AddsOneFlow, SameBooks, TrimSpace, IsMember, EnsureUnclaimed, VoidIsPending;
    StoredInvoice(w, i);
  }

  lemma JudgeVoidFlows(w: World, tx: Tx, i: string, decision: Decision, ok: bool, reviewer: string)
    requires Inv(w) && ReviewInvoiceVoid(w, tx, i, decision, ok, reviewer).Ok?
    ensures FlowMoves(w, ReviewInvoiceVoid(w, tx, i, decision, ok, reviewer).value, i,
                      if decision.Decline? then VoidRejection else Void)
  {
    hide Inv, AddsOneFlow, SameBooks, MovesInvoice, TrimSpace, ActiveUser, UserOrganization, EnsureUnclaimed;
    StoredInvoice(w, i);
  }

  // ----- every call -----

  ghost predicate AnyFlow(w: World, w': World) {
    || (w'.flowLog == w.flowLog && w'.transfers == w.transfers)
    || exists i, kind :: FlowMoves(w, w', i, kind)
  }

  lemma InvoiceCallFlows(w: World, tx: Tx, call: Call)
    requires Inv(w) && RequestsOk(w) && OnInvoices(call) && ExecuteOnInvoices(w, tx, call).Ok?
    ensures AnyFlow(w, ExecuteOnInvoices(w, tx, call).value)
  {
    hide Inv, RequestsOk, FlowMoves, AddsOneFlow, MovesInvoice, AcceptsTransfer, SameBooks, TrimSpace,
         CreateInvoice, LinkInvoiceToProject, UnlinkInvoiceFromProject, TransferInvoice, RequestInvoiceTransfer,
         RespondInvoiceTransfer, CancelInvoiceTransfer, VoidInvoice, RequestInvoiceVoid, ReviewInvoiceVoid;
    match call
    case CallCreateInvoice(form) => CreateFlows(w, tx, form);
    case CallLinkInvoice(_, _, _) =>
    case CallUnlinkInvoice(_, _) =>
    case CallTransferInvoice(id, to, toMsp, operator) => TransferFlows(w, tx, id, to, toMsp, operator);
    case CallRequestTransfer(id, to, toMsp, operator) => RequestFlows(w, tx, id, to, toMsp, operator);
    case CallRespondTransfer(id, decision, recipient) => RespondFlows(w, tx, id, decision, recipient);
    case CallCancelTransfer(id, operator) => CancelFlows(w, tx, id, operator);
    case CallVoidInvoice(id, ok, operator) => VoidFlows(w, tx, id, ok, operator);
    case CallRequestVoid(id, ok, applicant) => AskVoidFlows(w, tx, id, ok, applicant);
    case CallReviewVoid(id, decision, ok, reviewer) => JudgeVoidFlows(w, tx, id, decision, ok, reviewer);
  }

  lemma ProjectCallFlows(w: World, tx: Tx, call: Call)
    requires !OnInvoices(call) && !OnClaims(call) && ExecuteOnProjects(w, tx, call).Ok?
    ensures var w' := ExecuteOnProjects(w, tx, call).value; w'.flowLog == w.flowLog && w'.transfers == w.transfers
  {
    hide MovesProject, SameBooks, TrimSpace,
         RegisterBusinessUser, CreateBusinessOrganization, CreateProject, UpdateProject, SubmitProject,
         ReviewProject, RequestProjectClosure, ReviewProjectClosure, FinalizeProjectSettlement, AddProjectMember;
  }

  lemma ClaimCallFlows(w: World, tx: Tx, call: Call)
    requires OnClaims(call) && ExecuteOnClaims(w, tx, call).Ok?
    ensures var w' := ExecuteOnClaims(w, tx, call).value; w'.flowLog == w.flowLog && w'.transfers == w.transfers
  {
    hide MovesClaim, RestatesClaim, TrimSpace,
         CreateReimbursement, ReviewReimbursement, LedgerRules.ResubmitReimbursement,
         LedgerRules.WithdrawReimbursement, LedgerRules.PayReimbursement;
  }

  lemma ExecuteKeepsRequests(w: World, tx: Tx, call: Call)
    requires Inv(w) && RequestsOk(w) && Execute(w, tx, call).Ok?
    ensures RequestsOk(Execute(w, tx, call).value)
  {
    hide Inv, RequestsOk, FlowMoves, ExecuteOnProjects, ExecuteOnInvoices, ExecuteOnClaims;
    var w' := Execute(w, tx, call).value;
    if OnInvoices(call) {
      InvoiceCallFlows(w, tx, call);
    } else if OnClaims(call) {
      ClaimCallFlows(w, tx, call);
    } else {
      ProjectCallFlows(w, tx, call);
    }
    if w'.flowLog == w.flowLog && w'.transfers == w.transfers {
      SameFlowsKeepRequests(w, w');
    } else {
      var i, kind :| FlowMoves(w, w', i, kind);
      FlowKeepsRequests(w, w', i, kind);
    }
  }

  lemma {:induction false} RunKeepsRequests(w: World, steps: seq<Step>)
    requires Inv(w) && RequestsOk(w) && Proper(w, steps)
    ensures RequestsOk(Run(w, steps))
    decreases |steps|
  {
    hide Inv, RequestsOk, Execute;
    if steps != [] {
      var tx, call := steps[0].tx, steps[0].call;
      if Execute(w, tx, call).Ok? {
        ExecuteKeepsInv(w, tx, call);
        ExecuteKeepsRequests(w, tx, call);
      }
      RunKeepsRequests(Next(w, tx, call), steps[1..]);
    }
  }

  lemma NoRequests(w: World)
    requires Initial(w)
    ensures RequestsOk(w)
  {}

  lemma ReachableRequests(w: World)
    requires Reachable(w)
    ensures RequestsOk(w)
  {
    hide Inv, Run, Proper, RequestsOk;
    var w0, steps :| Initial(w0) && Proper(w0, steps) && w == Run(w0, steps);
    InitialInv(w0);
    NoRequests(w0);
    RunKeepsRequests(w0, steps);
  }

  // ----- results -----

  /** Folding the flows in commit order tells whether a transfer request is open. */
  lemma FlowsRebuildRequests(w: World, i: string)
    requires Reachable(w)
    ensures PendingBy(w.flowLog, i) <==> PendingIn(w.transfers, i)
  {
    hide Reachable;
    ReachableRequests(w);
  }

  lemma {:induction false} OpenedBetween(log: seq<InvoiceFlow>, i: string, j: nat, k: nat)
    requires j <= k <= |log| && PendingBy(log[..j], i) != PendingBy(log[..k], i)
    ensures exists m :: j <= m < k && log[m].invoiceId == i &&
                        if PendingBy(log[..k], i) then log[m].kind.TransferRequested? else Answers(log[m].kind)
    decreases k
  {
    assert log[..k][..k - 1] == log[..k - 1];
    if PendingBy(log[..k - 1], i) != PendingBy(log[..k], i) {
      assert log[k - 1].invoiceId == i;
    } else {
      OpenedBetween(log, i, j, k - 1);
    }
  }

  /** In every reachable ledger, between two answers to requests on an invoice there is a request, and between two requests
      an answer: nothing is answered twice. */
  lemma RequestsAlternate(w: World, i: string, j: nat, k: nat)
    requires Reachable(w) && j < k < |w.flowLog| && Trimmed(i) && w.flowLog[j].invoiceId == w.flowLog[k].invoiceId == i
    ensures Answers(w.flowLog[j].kind) && Answers(w.flowLog[k].kind) ==>
              exists m :: j < m < k && w.flowLog[m].invoiceId == i && w.flowLog[m].kind.TransferRequested?
    ensures w.flowLog[j].kind.TransferRequested? && w.flowLog[k].kind.TransferRequested? ==>
              exists m :: j < m < k && w.flowLog[m].invoiceId == i && Answers(w.flowLog[m].kind)
  {
    hide Reachable;
    ReachableRequests(w);
    var log := w.flowLog;
    assert InTurn(log[..k], log[k]);
    assert log[..j + 1][..j] == log[..j];
    if PendingBy(log[..j + 1], i) != PendingBy(log[..k], i) { OpenedBetween(log, i, j + 1, k); }
  }

  /** After an answer to a request, no request is open on the invoice if and only if the id was spelled without outer space:
      otherwise it stays open and can be answered again. */
  lemma AnsweredIffTrimmed(w: World, tx: Tx, i: string, decision: Decision, recipient: string)
    requires Inv(w) && RequestsOk(w) && RespondInvoiceTransfer(w, tx, i, decision, recipient).Ok?
    ensures !PendingIn(RespondInvoiceTransfer(w, tx, i, decision, recipient).value.transfers, TrimSpace(i)) <==> Trimmed(i)
  {
    hide Inv, RequestsOk, RespondInvoiceTransfer, TrimSpace;
    RespondFlows(w, tx, i, decision, recipient);
    ResponseWrites(w, tx, i, decision, recipient);
  }

  lemma RejectionReads(w: World, tx: Tx, i: string, recipient: string)
    ensures RespondInvoiceTransfer(w, tx, i, Decline, recipient).Ok? <==>
            && PendingIn(w.transfers, TrimSpace(i)) && TrimSpace(recipient) == w.transfers[TrimSpace(i)].to
            && ActiveUser(w, tx, TrimSpace(recipient), w.transfers[TrimSpace(i)].toMsp, HANDLERS)
    ensures RespondInvoiceTransfer(w, tx, i, Decline, recipient).Ok? ==>
              RespondInvoiceTransfer(w, tx, i, Decline, recipient).value.users == w.users
  {
    hide SameBooks, AcceptsTransfer, TrimSpace, ActiveUser, UserOrganization;
  }

  /** A rejection that has succeeded can be made once more if and only if the id was spelled with outer space. */
  lemma RejectionRepeatsIff(w: World, tx: Tx, i: string, recipient: string, tx': Tx)
    requires Inv(w) && RequestsOk(w) && RespondInvoiceTransfer(w, tx, i, Decline, recipient).Ok? && tx'.msp == tx.msp
    ensures RespondInvoiceTransfer(RespondInvoiceTransfer(w, tx, i, Decline, recipient).value, tx', i, Decline, recipient).Ok?
            <==> !Trimmed(i)
  {
    hide Inv, RequestsOk, RespondInvoiceTransfer, TrimSpace;
    var w' := RespondInvoiceTransfer(w, tx, i, Decline, recipient).value;
    RejectionReads(w, tx, i, recipient);
    RejectionReads(w', tx', i, recipient);
    ResponseStores(w, tx, i, Decline, recipient);
    AnsweredIffTrimmed(w, tx, i, Decline, recipient);
  }

  /** The recipient chosen in the open request answers, or its requester cancels. The request is read under the trimmed id
      and written back under the id as spelled; only a rejection gets that far with outer space. */
  predicate Answered(w: World, after: InvoiceTransfer, call: Call, i: string) {
    && PendingIn(w.transfers, TrimSpace(i))
    && var before := w.transfers[TrimSpace(i)];
       || (&& call.CallRespondTransfer? && call.id == i && TrimSpace(call.recipient) == before.to
           && (call.decision.Approve? ==> Trimmed(i))
           && after == before.(status := if call.decision.Approve? then TransferAccepted else TransferRejected))
       || (&& call.CallCancelTransfer? && call.id == i && TrimSpace(call.operator) == before.from && Trimmed(i)
           && after == before.(status := TransferCancelled))
  }

  /** The holder makes a request while none is open. */
  predicate Requested(w: World, after: InvoiceTransfer, call: Call, i: string) {
    && !PendingIn(w.transfers, i) && Trimmed(i)
    && call.CallRequestTransfer? && call.id == i && i in w.invoices && TrimSpace(call.operator) == w.invoices[i].holder
    && after == InvoiceTransfer(i, TrimSpace(call.operator), TrimSpace(call.to), TrimSpace(call.toMsp), TransferPending)
  }

  /** What may become of the request record under any id. */
  ghost predicate RequestMoves(w: World, w': World, call: Call, i: string) {
    || (i !in w.transfers && i !in w'.transfers)
    || (i in w.transfers && i in w'.transfers && w'.transfers[i] == w.transfers[i])
    || (i in w'.transfers && (Answered(w, w'.transfers[i], call, i) || Requested(w, w'.transfers[i], call, i)))
  }

  /** What an answer reads and writes. */
  lemma ResponseStores(w: World, tx: Tx, id: string, decision: Decision, recipient: string)
    requires RespondInvoiceTransfer(w, tx, id, decision, recipient).Ok?
    ensures PendingIn(w.transfers, TrimSpace(id)) && TrimSpace(recipient) == w.transfers[TrimSpace(id)].to
    ensures RespondInvoiceTransfer(w, tx, id, decision, recipient).value.transfers ==
            w.transfers[id := w.transfers[TrimSpace(id)].(status := if decision.Approve? then TransferAccepted else TransferRejected)]
  {
    hide AddsOneFlow, SameBooks, AcceptsTransfer, TrimSpace, ActiveUser, UserOrganization;
  }

  lemma ResponseMoves(w: World, tx: Tx, id: string, decision: Decision, recipient: string, i: string)
    requires Inv(w) && RequestsOk(w) && RespondInvoiceTransfer(w, tx, id, decision, recipient).Ok?
    ensures RequestMoves(w, RespondInvoiceTransfer(w, tx, id, decision, recipient).value, CallRespondTransfer(id, decision, recipient), i)
  {
    hide Inv, RequestsOk, FlowMoves, TrimSpace, RespondInvoiceTransfer;
    RespondFlows(w, tx, id, decision, recipient);
    ResponseStores(w, tx, id, decision, recipient);
  }

  lemma CancellationStores(w: World, tx: Tx, id: string, operator: string)
    requires CancelInvoiceTransfer(w, tx, id, operator).Ok?
    ensures PendingIn(w.transfers, TrimSpace(id)) && TrimSpace(operator) == w.transfers[TrimSpace(id)].from
    ensures CancelInvoiceTransfer(w, tx, id, operator).value.transfers ==
            w.transfers[id := w.transfers[TrimSpace(id)].(status := TransferCancelled)]
    ensures id in w.invoices && w.invoices[id].holder == operator
  {
    hide AddsOneFlow, SameBooks, TrimSpace;
  }

  lemma CancellationMoves(w: World, tx: Tx, id: string, operator: string, i: string)
    requires Inv(w) && CancelInvoiceTransfer(w, tx, id, operator).Ok?
    ensures RequestMoves(w, CancelInvoiceTransfer(w, tx, id, operator).value, CallCancelTransfer(id, operator), i)
  {
    hide Inv, TrimSpace, CancelInvoiceTransfer;
    CancellationStores(w, tx, id, operator);
    StoredInvoice(w, id);
  }

  lemma RequestStores(w: World, tx: Tx, id: string, to: string, toMsp: string, operator: string)
    requires RequestInvoiceTransfer(w, tx, id, to, toMsp, operator).Ok?
    ensures !PendingIn(w.transfers, TrimSpace(id)) && id in w.invoices && TrimSpace(operator) == w.invoices[id].holder
    ensures RequestInvoiceTransfer(w, tx, id, to, toMsp, operator).value.transfers ==
            w.transfers[id := InvoiceTransfer(id, TrimSpace(operator), TrimSpace(to), TrimSpace(toMsp), TransferPending)]
    ensures RegisteredRole(w, TrimSpace(to), TrimSpace(toMsp), HANDLERS)
  {
    hide AddsOneFlow, SameBooks, TrimSpace, ActiveUser, RegisteredRole;
  }

  lemma RequestingMoves(w: World, tx: Tx, id: string, to: string, toMsp: string, operator: string, i: string)
    requires Inv(w) && RequestInvoiceTransfer(w, tx, id, to, toMsp, operator).Ok?
    ensures RequestMoves(w, RequestInvoiceTransfer(w, tx, id, to, toMsp, operator).value, CallRequestTransfer(id, to, toMsp, operator), i)
  {
    hide Inv, TrimSpace, RequestInvoiceTransfer, RegisteredRole;
    RequestStores(w, tx, id, to, toMsp, operator);
    StoredInvoice(w, id);
  }

  lemma CallMoves(w: World, tx: Tx, call: Call, i: string)
    requires Inv(w) && RequestsOk(w) && Execute(w, tx, call).Ok?
    ensures RequestMoves(w, Execute(w, tx, call).value, call, i)
  {
    hide Inv, RequestsOk, ExecuteOnProjects, ExecuteOnInvoices, ExecuteOnClaims, TrimSpace;
    if OnInvoices(call) {
      InvoiceCallMoves(w, tx, call, i);
    } else if OnClaims(call) {
      ClaimCallFlows(w, tx, call);
    } else {
      ProjectCallFlows(w, tx, call);
    }
  }

  /** A request record changes in these ways only, under whatever id. */
  lemma RequestLife(w: World, tx: Tx, call: Call, i: string)
    requires Reachable(w) && Execute(w, tx, call).Ok?
    ensures RequestMoves(w, Execute(w, tx, call).value, call, i)
  {
    hide Reachable, Inv, RequestsOk, RequestMoves, Execute;
    ReachableInv(w);
    ReachableRequests(w);
    CallMoves(w, tx, call, i);
  }

  lemma InvoiceCallMoves(w: World, tx: Tx, call: Call, i: string)
    requires Inv(w) && RequestsOk(w) && OnInvoices(call) && ExecuteOnInvoices(w, tx, call).Ok?
    ensures RequestMoves(w, ExecuteOnInvoices(w, tx, call).value, call, i)
  {
    hide Inv, RequestsOk, RequestMoves, AddsOneFlow, MovesInvoice, AcceptsTransfer, SameBooks, TrimSpace,
         CreateInvoice, LinkInvoiceToProject, UnlinkInvoiceFromProject, TransferInvoice, RequestInvoiceTransfer,
         RespondInvoiceTransfer, CancelInvoiceTransfer, VoidInvoice, RequestInvoiceVoid, ReviewInvoiceVoid;
    if call.CallRequestTransfer? {
      RequestingMoves(w, tx, call.id, call.to, call.toMsp, call.operator, i);
    } else if call.CallRespondTransfer? {
      ResponseMoves(w, tx, call.id, call.decision, call.recipient, i);
    } else if call.CallCancelTransfer? {
      CancellationMoves(w, tx, call.id, call.operator, i);
    } else {
      SparesRequests(w, tx, call);
      SameRequestsMove(w, ExecuteOnInvoices(w, tx, call).value, call, i);
    }
  }

  /** The other calls on invoices leave the requests as they are. */
  lemma SparesRequests(w: World, tx: Tx, call: Call)
    requires Inv(w) && OnInvoices(call) && ExecuteOnInvoices(w, tx, call).Ok?
    requires !call.CallRequestTransfer? && !call.CallRespondTransfer? && !call.CallCancelTransfer?
    ensures ExecuteOnInvoices(w, tx, call).value.transfers == w.transfers
  {
    hide Inv, FlowMoves, MovesInvoice, AcceptsTransfer, SameBooks, AddsOneFlow, TrimSpace,
         CreateInvoice, LinkInvoiceToProject, UnlinkInvoiceFromProject, TransferInvoice, RequestInvoiceTransfer,
         RespondInvoiceTransfer, CancelInvoiceTransfer, VoidInvoice, RequestInvoiceVoid, ReviewInvoiceVoid;
    var w' := ExecuteOnInvoices(w, tx, call).value;
    match call
    case CallCreateInvoice(form) => CreateKeepsRequests(w, tx, form);
    case CallTransferInvoice(id, to, toMsp, operator) => TransferFlows(w, tx, id, to, toMsp, operator); OtherFlows(w, w', id, Transfer);
    case CallVoidInvoice(id, ok, operator) => VoidFlows(w, tx, id, ok, operator); OtherFlows(w, w', id, Void);
    case CallRequestVoid(id, ok, applicant) => AskVoidFlows(w, tx, id, ok, applicant); OtherFlows(w, w', id, VoidRequested);
    case CallReviewVoid(id, decision, ok, reviewer) =>
      JudgeVoidFlows(w, tx, id, decision, ok, reviewer);
      OtherFlows(w, w', id, if decision.Decline? then VoidRejection else Void);
    case _ =>
  }

  lemma OtherFlows(w: World, w': World, id: string, kind: FlowKind)
    requires FlowMoves(w, w', id, kind) && !kind.TransferRequested? && !Answers(kind)
    ensures w'.transfers == w.transfers
  {}

  lemma CreateKeepsRequests(w: World, tx: Tx, form: InvoiceForm)
    requires CreateInvoice(w, tx, form).Ok?
    ensures CreateInvoice(w, tx, form).value.transfers == w.transfers
  {
    hide AddsOneFlow, SameBooks, TrimSpace, DraftInvoice;
  }

  lemma SameRequestsMove(w: World, w': World, call: Call, i: string)
    requires w'.transfers == w.transfers
    ensures RequestMoves(w, w', call, i)
  {}
}
