/** When a transfer request can be made, how it can end, and when it cannot end at all. */
module StuckTransfers {
  import opened Basics
  import opened LedgerTypes
  import opened LedgerRules
  import opened LedgerInvariant
  import opened LedgerRuns
  import opened LedgerTheorems
  import opened Transfers

  // ----- making one -----

  /** All that a request asks for but that none is open. */
  predicate MayOffer(w: World, tx: Tx, i: string, to: string, toMsp: string, operator: string) {
    && i in w.invoices && !w.invoices[i].status.Voided?
    && to != "" && to != operator && operator == w.invoices[i].holder && tx.msp == w.invoices[i].holderMsp
    && ActiveUser(w, tx, operator, tx.msp, HANDLERS) && RegisteredRole(w, to, toMsp, HANDLERS)
  }

  lemma RequestReads(w: World, tx: Tx, i: string, to: string, toMsp: string, operator: string)
    ensures RequestInvoiceTransfer(w, tx, i, to, toMsp, operator).Ok? <==>
            MayOffer(w, tx, i, TrimSpace(to), TrimSpace(toMsp), TrimSpace(operator)) && !PendingIn(w.transfers, TrimSpace(i))
  {
    hide AddsOneFlow, SameBooks, TrimSpace, ActiveUser, RegisteredRole;
  }

  /** In a reachable ledger a request is admitted exactly when the holder offers the invoice to somebody else who may have it,
      and the flows show no request on it that is still unanswered. */
  lemma RequestAdmittedIff(w: World, tx: Tx, i: string, to: string, toMsp: string, operator: string)
    requires Reachable(w)
    ensures RequestInvoiceTransfer(w, tx, i, to, toMsp, operator).Ok? <==>
            MayOffer(w, tx, i, TrimSpace(to), TrimSpace(toMsp), TrimSpace(operator)) && !PendingBy(w.flowLog, i)
  {
    hide Reachable, Inv, RequestInvoiceTransfer, TrimSpace, ActiveUser, RegisteredRole;
    ReachableInv(w);
    FlowsRebuildRequests(w, i);
    RequestReads(w, tx, i, to, toMsp, operator);
    if i in w.invoices { StoredInvoice(w, i); }
  }

  // ----- who takes part -----

  /** A name that works as this recipient without a directory record. */
  predicate BuiltInHandler(name: string, msp: string) {
    var role := DemoUserRole(name, msp);
    role.Some? && role.value in HANDLERS
  }

  predicate Serves(user: BusinessUser, msp: string) { user.active && user.msp == msp && user.role in HANDLERS }

  /** The recipient was able to answer when chosen. */
  predicate Chosen(users: map<string, BusinessUser>, t: InvoiceTransfer) {
    && Trimmed(t.from) && Trimmed(t.to)
    && (BuiltInHandler(t.to, t.toMsp) || (t.to in users && Serves(users[t.to], t.toMsp)))
  }

  /** A direct transfer may go to this name. */
  predicate CanReceive(users: map<string, BusinessUser>, name: string) {
    name != "" && name in users && users[name].active && users[name].role.Holder? && BusinessMsp(users[name].msp)
  }

  /** The invoice is where a direct transfer has put it. */
  predicate Placed(users: map<string, BusinessUser>, invoice: Invoice) {
    && CanReceive(users, invoice.holder)
    && users[invoice.holder].msp == invoice.holderMsp && users[invoice.holder].organizationId == invoice.holderOrganizationId
  }

  /** An open request is on a stored invoice, which its requester still holds or has transferred directly. */
  predicate OpenOk(w: World, i: string) {
    PendingIn(w.transfers, i) ==>
      && Chosen(w.users, w.transfers[i]) && i in w.invoices
      && (w.invoices[i].holder != w.transfers[i].from ==> Placed(w.users, w.invoices[i]))
  }

  ghost predicate PartiesOk(w: World) {
    && (forall i :: i in w.invoices ==> Trimmed(w.invoices[i].holder))
    && (forall i :: OpenOk(w, i))
  }

  /** Registrations stay, and the new ones are of project members. */
  ghost predicate UsersKept(w: World, w': World) {
    && (forall u :: u in w.users ==> u in w'.users && w'.users[u] == w.users[u])
    && (forall u :: u in w'.users && u !in w.users ==> w'.users[u].role.ProjectMember?)
  }

  lemma UsersStay(w: World, tx: Tx, call: Call)
    requires Execute(w, tx, call).Ok?
    ensures UsersKept(w, Execute(w, tx, call).value)
  {
    hide Execute, ProjectCall, DirectoryCall;
    HistoryGrows(w, tx, call);
  }

  /** A new request is by the present holder. */
  lemma NewRequestOk(w: World, tx: Tx, call: Call, i: string)
    requires Execute(w, tx, call).Ok? && call.CallRequestTransfer? && call.id == i
    ensures OpenOk(Execute(w, tx, call).value, i)
  {
    hide Execute, RequestInvoiceTransfer, TrimSpace, SameBooks;
    RequestingCall(w, tx, call);
    RequestStores(w, tx, call.id, call.to, call.toMsp, call.operator);
    UsersStay(w, tx, call);
  }

  lemma RequestingCall(w: World, tx: Tx, call: Call)
    requires call.CallRequestTransfer?
    ensures Execute(w, tx, call) == RequestInvoiceTransfer(w, tx, call.id, call.to, call.toMsp, call.operator)
  {
    hide RespondInvoiceTransfer, CancelInvoiceTransfer, CreateInvoice, LinkInvoiceToProject, UnlinkInvoiceFromProject, TransferInvoice,
         RequestInvoiceTransfer, VoidInvoice, RequestInvoiceVoid, ReviewInvoiceVoid, ExecuteOnProjects, ExecuteOnClaims;
  }

  lemma HolderIsTrimmed(w: World, w': World, call: Call, i: string)
    requires PartiesOk(w) && CustodyRespected(w, w', call) && i in w'.invoices
    ensures Trimmed(w'.invoices[i].holder)
  {
    hide TrimSpace;
  }

  /** Where a direct transfer puts the invoice. */
  lemma TransferPlaces(w: World, tx: Tx, i: string, to: string, toMsp: string, operator: string)
    requires TransferInvoice(w, tx, i, to, toMsp, operator).Ok?
    ensures var w' := TransferInvoice(w, tx, i, to, toMsp, operator).value;
            i in w'.invoices && w'.invoices[i].holder == TrimSpace(to) && Placed(w.users, w'.invoices[i])
  {
    hide TrimSpace, ActiveUser, AddsOneFlow, SameBooks, MovesInvoice, BusinessMsp, Clash;
    assert TrimSpace(TrimSpace(to)) == TrimSpace(to);
  }

  lemma TransferringCall(w: World, tx: Tx, call: Call)
    requires call.CallTransferInvoice?
    ensures Execute(w, tx, call) == TransferInvoice(w, tx, call.id, call.to, call.toMsp, call.operator)
  {
    hide RespondInvoiceTransfer, CancelInvoiceTransfer, CreateInvoice, LinkInvoiceToProject, UnlinkInvoiceFromProject, TransferInvoice,
         RequestInvoiceTransfer, VoidInvoice, RequestInvoiceVoid, ReviewInvoiceVoid, ExecuteOnProjects, ExecuteOnClaims;
  }

  lemma PlacedStays(w: World, w': World, invoice: Invoice, invoice': Invoice)
    requires UsersKept(w, w') && Placed(w.users, invoice) && invoice'.Place() == invoice.Place()
    ensures Placed(w'.users, invoice')
  {}

  /** An open request that stays open. */
  lemma OldRequestOk(w: World, tx: Tx, call: Call, i: string)
    requires Inv(w) && RequestsOk(w) && PartiesOk(w) && Execute(w, tx, call).Ok?
    requires PendingIn(w.transfers, i) && PendingIn(Execute(w, tx, call).value.transfers, i)
    requires Execute(w, tx, call).value.transfers[i] == w.transfers[i]
    ensures OpenOk(Execute(w, tx, call).value, i)
  {
    hide Inv, RequestsOk, Execute, Chosen, Placed, TrimSpace, TransferInvoice, Invoice.Place;
    var w' := Execute(w, tx, call).value;
    assert OpenOk(w, i);
    UsersStay(w, tx, call);
    CustodyStep(w, tx, call, w');
    ChosenStays(w, w', w.transfers[i]);
    if w'.invoices[i].Place() == w.invoices[i].Place() {
      SamePlaceSameHolder(w.invoices[i], w'.invoices[i]);
      if w.invoices[i].holder != w.transfers[i].from { PlacedStays(w, w', w.invoices[i], w'.invoices[i]); }
    } else if call.CallTransferInvoice? {
      TransferringCall(w, tx, call);
      TransferPlaces(w, tx, i, call.to, call.toMsp, call.operator);
      PlacedStays(w, w', w'.invoices[i], w'.invoices[i]);
    } else {
      EndingCallEnds(w, tx, call, i);
      assert false;
    }
  }

  lemma SamePlaceSameHolder(a: Invoice, b: Invoice)
    requires a.Place() == b.Place()
    ensures a.holder == b.holder
  {}

  lemma ExecuteKeepsParties(w: World, tx: Tx, call: Call)
    requires Inv(w) && RequestsOk(w) && PartiesOk(w) && Execute(w, tx, call).Ok?
    ensures PartiesOk(Execute(w, tx, call).value)
  {
    hide Inv, RequestsOk, Execute, CustodyRespected, Chosen, Placed, Answered, Requested;
    var w' := Execute(w, tx, call).value;
    CustodyStep(w, tx, call, w');
    forall i | i in w'.invoices ensures Trimmed(w'.invoices[i].holder) { HolderIsTrimmed(w, w', call, i); }
    forall i ensures OpenOk(w', i) {
      if PendingIn(w'.transfers, i) {
        CallMoves(w, tx, call, i);
        if i in w.transfers && w'.transfers[i] == w.transfers[i] {
          OldRequestOk(w, tx, call, i);
        } else {
          AnsweredIsClosed(w, w'.transfers[i], call, i);
          RequestedByCall(w, w'.transfers[i], call, i);
          NewRequestOk(w, tx, call, i);
        }
      }
    }
  }

  lemma AnsweredIsClosed(w: World, t: InvoiceTransfer, call: Call, i: string)
    ensures Answered(w, t, call, i) ==> !t.status.TransferPending?
  {}

  lemma RequestedByCall(w: World, t: InvoiceTransfer, call: Call, i: string)
    ensures Requested(w, t, call, i) ==> call.CallRequestTransfer? && call.id == i
  {}

  lemma ChosenStays(w: World, w': World, t: InvoiceTransfer)
    requires UsersKept(w, w') && Chosen(w.users, t)
    ensures Chosen(w'.users, t)
  {}

  lemma {:induction false} RunKeepsParties(w: World, steps: seq<Step>)
    requires Inv(w) && RequestsOk(w) && PartiesOk(w) && Proper(w, steps)
    ensures PartiesOk(Run(w, steps))
    decreases |steps|
  {
    hide Inv, RequestsOk, PartiesOk, Execute;
    if steps != [] {
      var tx, call := steps[0].tx, steps[0].call;
      if Execute(w, tx, call).Ok? {
        ExecuteKeepsInv(w, tx, call);
        ExecuteKeepsRequests(w, tx, call);
        ExecuteKeepsParties(w, tx, call);
      }
      RunKeepsParties(Next(w, tx, call), steps[1..]);
    }
  }

  lemma ReachableParties(w: World)
    requires Reachable(w)
    ensures PartiesOk(w)
  {
    hide Inv, Run, Proper, RequestsOk, PartiesOk;
    var w0, steps :| Initial(w0) && Proper(w0, steps) && w == Run(w0, steps);
    InitialInv(w0);
    NoRequests(w0);
    NoParties(w0);
    RunKeepsParties(w0, steps);
  }

  lemma NoParties(w: World)
    requires Initial(w)
    ensures PartiesOk(w)
  {}

  // ----- how one ends -----

  predicate AnswersOrCancels(call: Call, i: string) { (call.CallRespondTransfer? || call.CallCancelTransfer?) && call.id == i }

  predicate RejectionOf(call: Call, i: string) { call.CallRespondTransfer? && call.id == i && !call.decision.Approve? }

  predicate HeldBy(w: World, i: string, holder: string) { i in w.invoices && w.invoices[i].holder == holder }

  lemma AcceptanceReads(w: World, tx: Tx, i: string, decision: Decision, recipient: string)
    requires decision.Approve? && RespondInvoiceTransfer(w, tx, i, decision, recipient).Ok?
    ensures TrimSpace(i) in w.transfers && HeldBy(w, i, w.transfers[TrimSpace(i)].from)
  {
    hide AddsOneFlow, SameBooks, AcceptsTransfer, TrimSpace, ActiveUser, UserOrganization;
  }

  /** What the answers and cancellations are. */
  lemma EndingCall(w: World, tx: Tx, call: Call, i: string)
    requires AnswersOrCancels(call, i) && Execute(w, tx, call).Ok?
    ensures Execute(w, tx, call) ==
            if call.CallRespondTransfer? then RespondInvoiceTransfer(w, tx, i, call.decision, call.recipient)
            else CancelInvoiceTransfer(w, tx, i, call.operator)
  {
    hide RespondInvoiceTransfer, CancelInvoiceTransfer, CreateInvoice, LinkInvoiceToProject, UnlinkInvoiceFromProject, TransferInvoice,
         RequestInvoiceTransfer, VoidInvoice, RequestInvoiceVoid, ReviewInvoiceVoid, ExecuteOnProjects, ExecuteOnClaims;
  }

  lemma EndingCallEnds(w: World, tx: Tx, call: Call, i: string)
    requires Inv(w) && RequestsOk(w) && PartiesOk(w) && AnswersOrCancels(call, i) && Execute(w, tx, call).Ok? && PendingIn(w.transfers, i)
    ensures !PendingIn(Execute(w, tx, call).value.transfers, i)
    ensures RejectionOf(call, i) || HeldBy(w, i, w.transfers[i].from)
  {
    hide Inv, RequestsOk, Execute, RespondInvoiceTransfer, CancelInvoiceTransfer, TrimSpace, Chosen;
    EndingCall(w, tx, call, i);
    PendingIsTrimmed(w, i);
    if call.CallRespondTransfer? {
      ResponseStores(w, tx, i, call.decision, call.recipient);
      if call.decision.Approve? { AcceptanceReads(w, tx, i, call.decision, call.recipient); }
    } else {
      CancellationStores(w, tx, i, call.operator);
    }
  }

  lemma PendingIsTrimmed(w: World, i: string)
    requires RequestsOk(w) && PendingIn(w.transfers, i)
    ensures TrimSpace(i) == i
  {
    hide PendingBy, InTurn;
  }

  /** A call that succeeds closes an open request if and only if it is an answer or a cancellation under the id; and unless it
      is a rejection, the requester then still holds the invoice. */
  lemma PendingEndsIff(w: World, tx: Tx, call: Call, i: string)
    requires Reachable(w) && Execute(w, tx, call).Ok? && PendingIn(w.transfers, i)
    ensures !PendingIn(Execute(w, tx, call).value.transfers, i) <==> AnswersOrCancels(call, i)
    ensures AnswersOrCancels(call, i) ==> RejectionOf(call, i) || HeldBy(w, i, w.transfers[i].from)
  {
    hide Reachable, Inv, RequestsOk, PartiesOk, Execute, HeldBy;
    ReachableInv(w);
    ReachableRequests(w);
    ReachableParties(w);
    CallMoves(w, tx, call, i);
    if AnswersOrCancels(call, i) { EndingCallEnds(w, tx, call, i); }
  }

  /** Whether the chosen recipient is able to answer: the name is unregistered, or its bearer may still have invoices. */
  predicate CanAnswer(users: map<string, BusinessUser>, t: InvoiceTransfer) { t.to !in users || Serves(users[t.to], t.toMsp) }

  /** The recipient can reject an open request, whoever holds the invoice by then, unless the recipient was chosen under a
      built-in name and somebody else has registered that name since. */
  lemma RejectionAdmittedIff(w: World, tx: Tx, i: string)
    requires Reachable(w) && PendingIn(w.transfers, i)
    ensures var t := w.transfers[i];
            && (RespondInvoiceTransfer(w, tx, i, Decline, t.to).Ok? <==> tx.msp == t.toMsp && CanAnswer(w.users, t))
            && (CanAnswer(w.users, t) || BuiltInHandler(t.to, t.toMsp))
  {
    hide Reachable, RequestsOk, AddsOneFlow, SameBooks, AcceptsTransfer, TrimSpace;
    ReachableRequests(w);
    ReachableParties(w);
    PendingIsTrimmed(w, i);
    assert OpenOk(w, i);
  }

  // ----- when it lasts -----

  /** The same open request, whose requester does not hold the invoice. */
  predicate Stuck(w: World, i: string, t: InvoiceTransfer) {
    && i in w.transfers && w.transfers[i] == t && t.status.TransferPending?
    && i in w.invoices && w.invoices[i].holder != t.from
  }

  /** At no point of the run does the requester hold the invoice again, and no rejection succeeds. */
  ghost predicate LeftAlone(w: World, steps: seq<Step>, i: string, from: string)
    decreases |steps|
  {
    && !HeldBy(w, i, from)
    && (steps != [] ==>
          && !(RejectionOf(steps[0].call, i) && Execute(w, steps[0].tx, steps[0].call).Ok?)
          && LeftAlone(Next(w, steps[0].tx, steps[0].call), steps[1..], i, from))
  }

  lemma StuckStep(w: World, tx: Tx, call: Call, i: string, t: InvoiceTransfer)
    requires Inv(w) && RequestsOk(w) && PartiesOk(w) && Stuck(w, i, t) && Execute(w, tx, call).Ok?
    requires !RejectionOf(call, i)
    ensures var w' := Execute(w, tx, call).value; i in w'.invoices && i in w'.transfers && w'.transfers[i] == t
  {
    hide Inv, RequestsOk, PartiesOk, Execute, MayMove, TrimSpace;
    CustodyStep(w, tx, call, Execute(w, tx, call).value);
    CallMoves(w, tx, call, i);
    PendingIsTrimmed(w, i);
    if AnswersOrCancels(call, i) {
      EndingCallEnds(w, tx, call, i);
      assert false;
    }
  }

  lemma {:induction false} StuckRun(w: World, steps: seq<Step>, i: string, t: InvoiceTransfer)
    requires Inv(w) && RequestsOk(w) && PartiesOk(w) && Stuck(w, i, t) && Proper(w, steps) && LeftAlone(w, steps, i, t.from)
    ensures Stuck(Run(w, steps), i, t)
    decreases |steps|
  {
    hide Inv, RequestsOk, PartiesOk, Execute;
    if steps != [] {
      var tx, call := steps[0].tx, steps[0].call;
      if Execute(w, tx, call).Ok? {
        ExecuteKeepsInv(w, tx, call);
        ExecuteKeepsRequests(w, tx, call);
        ExecuteKeepsParties(w, tx, call);
        StuckStep(w, tx, call, i, t);
      }
      StuckRun(Next(w, tx, call), steps[1..], i, t);
    }
  }

  /** An open request whose requester does not hold the invoice stays open, and shuts out every other request on the invoice,
      until the requester holds it again or the recipient rejects. */
  lemma StuckLasts(w: World, steps: seq<Step>, i: string, t: InvoiceTransfer, tx: Tx, to: string, toMsp: string, operator: string)
    requires Reachable(w) && Stuck(w, i, t) && Proper(w, steps) && LeftAlone(w, steps, i, t.from)
    ensures Stuck(Run(w, steps), i, t)
    ensures !RequestInvoiceTransfer(Run(w, steps), tx, i, to, toMsp, operator).Ok?
  {
    hide Reachable, Inv, RequestsOk, PartiesOk, Run, Proper, LeftAlone, RequestInvoiceTransfer, MayOffer, TrimSpace;
    ReachableInv(w);
    ReachableRequests(w);
    ReachableParties(w);
    StuckRun(w, steps, i, t);
    PendingIsTrimmed(w, i);
    RequestReads(Run(w, steps), tx, i, to, toMsp, operator);
  }

  // ----- when it lasts for good -----

  /** The recipient is not able to answer, and the invoice cannot come back to the requester by a direct transfer. */
  predicate NoWayOut(w: World, i: string, t: InvoiceTransfer) {
    !CanAnswer(w.users, t) && i in w.invoices && (w.invoices[i].status.Voided? || !CanReceive(w.users, t.from))
  }

  lemma NoWayOutStays(w: World, w': World, call: Call, i: string, t: InvoiceTransfer)
    requires UsersKept(w, w') && CustodyRespected(w, w', call) && NoWayOut(w, i, t)
    ensures NoWayOut(w', i, t)
  {
    hide MayMove, MadeBy;
  }

  lemma AnswerNeedsRecipient(w: World, tx: Tx, i: string, decision: Decision, recipient: string)
    requires RespondInvoiceTransfer(w, tx, i, decision, recipient).Ok? && i in w.transfers && Trimmed(i) && Trimmed(w.transfers[i].to)
    ensures CanAnswer(w.users, w.transfers[i])
  {
    hide TrimSpace, AddsOneFlow, SameBooks, AcceptsTransfer, UserOrganization;
  }

  lemma RecipientIsTrimmed(w: World, i: string)
    requires PartiesOk(w) && PendingIn(w.transfers, i)
    ensures Trimmed(w.transfers[i].to)
  {
    assert OpenOk(w, i);
  }

  lemma CannotAnswer(w: World, i: string, t: InvoiceTransfer)
    requires NoWayOut(w, i, t)
    ensures !CanAnswer(w.users, t)
  {}

  lemma TransferGoesElsewhere(w: World, tx: Tx, call: Call, i: string, t: InvoiceTransfer)
    requires call.CallTransferInvoice? && call.id == i && NoWayOut(w, i, t) && Execute(w, tx, call).Ok?
    ensures var w' := Execute(w, tx, call).value; i in w'.invoices && w'.invoices[i].holder != t.from
  {
    hide Execute, TransferInvoice, TrimSpace, CanAnswer, MovesInvoice, SameBooks;
    TransferringCall(w, tx, call);
    TransferPlaces(w, tx, i, call.to, call.toMsp, call.operator);
    TransferNeedsValid(w, tx, i, call.to, call.toMsp, call.operator);
  }

  lemma TransferNeedsValid(w: World, tx: Tx, i: string, to: string, toMsp: string, operator: string)
    requires TransferInvoice(w, tx, i, to, toMsp, operator).Ok?
    ensures i in w.invoices && !w.invoices[i].status.Voided?
  {
    hide TrimSpace, ActiveUser, UserOrganization, ReadUser, AddsOneFlow, SameBooks, BusinessMsp, Clash;
  }

  lemma NoResponse(w: World, tx: Tx, call: Call, i: string, t: InvoiceTransfer)
    requires RequestsOk(w) && PartiesOk(w) && Stuck(w, i, t) && NoWayOut(w, i, t) && Execute(w, tx, call).Ok?
    ensures !(call.CallRespondTransfer? && call.id == i)
  {
    hide RequestsOk, PartiesOk, Execute, TrimSpace, CanAnswer, NoWayOut, RespondInvoiceTransfer;
    if call.CallRespondTransfer? && call.id == i {
      EndingCall(w, tx, call, i);
      PendingIsTrimmed(w, i);
      RecipientIsTrimmed(w, i);
      AnswerNeedsRecipient(w, tx, i, call.decision, call.recipient);
      CannotAnswer(w, i, t);
      assert false;
    }
  }

  /** The requester does not get the invoice. */
  lemma StaysAway(w: World, tx: Tx, call: Call, i: string, t: InvoiceTransfer)
    requires Execute(w, tx, call).Ok? && CustodyRespected(w, Execute(w, tx, call).value, call) && Stuck(w, i, t) && NoWayOut(w, i, t)
    requires !(call.CallRespondTransfer? && call.id == i)
    ensures var w' := Execute(w, tx, call).value; i in w'.invoices && w'.invoices[i].holder != t.from
  {
    hide Execute, NoWayOut, MadeBy, TrimSpace;
    if call.CallTransferInvoice? && call.id == i { TransferGoesElsewhere(w, tx, call, i, t); }
  }

  lemma NoWayOutStep(w: World, tx: Tx, call: Call, i: string, t: InvoiceTransfer)
    requires Inv(w) && RequestsOk(w) && PartiesOk(w) && Stuck(w, i, t) && NoWayOut(w, i, t) && Execute(w, tx, call).Ok?
    ensures var w' := Execute(w, tx, call).value; Stuck(w', i, t) && NoWayOut(w', i, t)
  {
    hide Inv, RequestsOk, PartiesOk, Execute, NoWayOut, CustodyRespected;
    var w' := Execute(w, tx, call).value;
    UsersStay(w, tx, call);
    CustodyStep(w, tx, call, w');
    NoResponse(w, tx, call, i, t);
    StuckStep(w, tx, call, i, t);
    NoWayOutStays(w, w', call, i, t);
    StaysAway(w, tx, call, i, t);
  }

  lemma {:induction false} NoWayOutRun(w: World, steps: seq<Step>, i: string, t: InvoiceTransfer)
    requires Inv(w) && RequestsOk(w) && PartiesOk(w) && Stuck(w, i, t) && NoWayOut(w, i, t) && Proper(w, steps)
    ensures Stuck(Run(w, steps), i, t)
    decreases |steps|
  {
    hide Inv, RequestsOk, PartiesOk, Execute, Stuck, NoWayOut;
    if steps != [] {
      var tx, call := steps[0].tx, steps[0].call;
      if Execute(w, tx, call).Ok? {
        ExecuteKeepsInv(w, tx, call);
        ExecuteKeepsRequests(w, tx, call);
        ExecuteKeepsParties(w, tx, call);
        NoWayOutStep(w, tx, call, i, t);
      }
      NoWayOutRun(Next(w, tx, call), steps[1..], i, t);
    }
  }

  /** No run ever closes a request that has no way out. */
  lemma StuckForGood(w: World, steps: seq<Step>, i: string, t: InvoiceTransfer)
    requires Reachable(w) && Stuck(w, i, t) && NoWayOut(w, i, t) && Proper(w, steps)
    ensures Stuck(Run(w, steps), i, t)
  {
    hide Reachable, Inv, RequestsOk, PartiesOk, Run, Proper, Stuck, NoWayOut;
    ReachableInv(w);
    ReachableRequests(w);
    ReachableParties(w);
    NoWayOutRun(w, steps, i, t);
  }

  // ----- the ways out -----

  lemma EventIdsBounded(log: seq<ProjectEvent>) returns (n: nat)
    ensures forall e :: e in log ==> |e.txId| < n
  {
    n := 0;
    for k := 0 to |log|
      invariant forall e :: e in log[..k] ==> |e.txId| < n
    {
      assert log[..k + 1] == log[..k] + [log[k]];
      if |log[k].txId| >= n { n := |log[k].txId| + 1; }
    }
    assert log[..|log|] == log;
  }

  lemma FlowIdsBounded(log: seq<InvoiceFlow>) returns (n: nat)
    ensures forall f :: f in log ==> |f.txId| < n
  {
    n := 0;
    for k := 0 to |log|
      invariant forall f :: f in log[..k] ==> |f.txId| < n
    {
      assert log[..k + 1] == log[..k] + [log[k]];
      if |log[k].txId| >= n { n := |log[k].txId| + 1; }
    }
    assert log[..|log|] == log;
  }

  /** There are always new transaction ids. */
  lemma NewIds(w: World) returns (a: string, b: string)
    ensures a != b && forall msp :: Fresh(w, Tx(a, msp)) && Fresh(w, Tx(b, msp))
  {
    var m := EventIdsBounded(w.eventLog);
    var n := FlowIdsBounded(w.flowLog);
    a, b := seq(m + n, _ => 't'), seq(m + n + 1, _ => 't');
    assert |a| == m + n && |b| == m + n + 1;
  }

  /** The recipient rejects. */
  lemma RejectionCloses(w: World, i: string, t: InvoiceTransfer)
    requires Reachable(w) && Stuck(w, i, t) && CanAnswer(w.users, t)
    ensures exists steps :: Proper(w, steps) && !PendingIn(Run(w, steps).transfers, i)
  {
    hide Reachable, Execute, RespondInvoiceTransfer, Fresh, CanAnswer, Run, Proper;
    var a, b := NewIds(w);
    var tx, call := Tx(a, t.toMsp), CallRespondTransfer(i, Decline, t.to);
    RejectionAdmittedIff(w, tx, i);
    RespondingCall(w, tx, i, t.to);
    PendingEndsIff(w, tx, call, i);
    RunOfOne(w, Step(tx, call));
    assert TrimmedIds(call) && Fresh(w, tx);
    assert Proper(w, [Step(tx, call)]) && !PendingIn(Run(w, [Step(tx, call)]).transfers, i);
  }

  lemma RunOfOne(w: World, s: Step)
    ensures Run(w, [s]) == Next(w, s.tx, s.call)
    ensures Proper(w, [s]) <==> TrimmedIds(s.call) && Fresh(w, s.tx)
  {
    hide Next, TrimmedIds, Fresh;
    assert [s][1..] == [];
    assert Run(Next(w, s.tx, s.call), []) == Next(w, s.tx, s.call);
    assert Proper(Next(w, s.tx, s.call), []);
  }

  lemma RespondingCall(w: World, tx: Tx, i: string, recipient: string)
    ensures Execute(w, tx, CallRespondTransfer(i, Decline, recipient)) == RespondInvoiceTransfer(w, tx, i, Decline, recipient)
  {
    hide RespondInvoiceTransfer, ExecuteOnProjects, ExecuteOnClaims;
  }

  /** The present holder transfers the invoice back. */
  lemma ReturnAdmitted(w: World, tx: Tx, i: string, from: string)
    requires i in w.invoices && !w.invoices[i].status.Voided? && Trimmed(w.invoices[i].holder) && Trimmed(from)
    requires Placed(w.users, w.invoices[i]) && CanReceive(w.users, from) && w.invoices[i].holder != from
    requires tx.msp == w.invoices[i].holderMsp
    ensures var r := TransferInvoice(w, tx, i, from, w.users[from].msp, w.invoices[i].holder);
            r.Ok? && i in r.value.invoices && r.value.invoices[i].holder == from && r.value.transfers == w.transfers
  {
    var holder := w.invoices[i].holder;
    assert Trimmed("Org1MSP") && Trimmed("Org2MSP");
    assert TrimSpace(from) == from && TrimSpace(holder) == holder && TrimSpace(w.users[from].msp) == w.users[from].msp;
    hide TrimSpace;
    assert ReadUser(w, from) == Some(w.users[from]) && ReadUser(w, holder) == Some(w.users[holder]);
    assert UserOrganization(w, from).Ok? && UserOrganization(w, holder) == Ok(w.invoices[i].holderOrganizationId);
    assert ActiveUser(w, tx, holder, tx.msp, HANDLERS);
    hide ReadUser, UserOrganization, ActiveUser, AddsOneFlow, SameBooks, MovesInvoice;
  }

  lemma ReceiverRecorded(users: map<string, BusinessUser>, name: string)
    requires CanReceive(users, name)
    ensures name in users
  {}

  lemma RunOfTwo(w: World, s: Step, t: Step)
    ensures Run(w, [s, t]) == Next(Next(w, s.tx, s.call), t.tx, t.call)
  {
    hide Next;
    var w1 := Next(w, s.tx, s.call);
    assert [s, t][1..] == [t] && [t][1..] == [];
    assert Run(w1, [t]) == Run(Next(w1, t.tx, t.call), []);
  }

  /** The requester, holding it again, cancels. */
  lemma CancellationAdmitted(w: World, tx: Tx, i: string, from: string)
    requires PendingIn(w.transfers, i) && w.transfers[i].from == from && Trimmed(i) && Trimmed(from) && HeldBy(w, i, from)
    ensures CancelInvoiceTransfer(w, tx, i, from).Ok? && !PendingIn(CancelInvoiceTransfer(w, tx, i, from).value.transfers, i)
    ensures Execute(w, tx, CallCancelTransfer(i, from)) == CancelInvoiceTransfer(w, tx, i, from)
  {
    hide TrimSpace, AddsOneFlow, SameBooks, ExecuteOnProjects, ExecuteOnClaims;
  }

  lemma ReturnCloses(w: World, i: string, t: InvoiceTransfer)
    requires Reachable(w) && Stuck(w, i, t) && !w.invoices[i].status.Voided? && CanReceive(w.users, t.from)
    ensures exists steps :: Proper(w, steps) && !PendingIn(Run(w, steps).transfers, i)
  {
    hide Reachable, RequestsOk, Execute, TransferInvoice, CancelInvoiceTransfer, Fresh, CanReceive, Placed, TrimSpace, Run, Proper;
    ReachableRequests(w);
    ReachableParties(w);
    PendingIsTrimmed(w, i);
    assert OpenOk(w, i);
    var a, b := NewIds(w);
    ReceiverRecorded(w.users, t.from);
    var holder := w.invoices[i].holder;
    var t1, t2 := Tx(a, w.invoices[i].holderMsp), Tx(b, "");
    var back := CallTransferInvoice(i, t.from, w.users[t.from].msp, holder);
    ReturnAdmitted(w, t1, i, t.from);
    TransferringCall(w, t1, back);
    var w1 := Next(w, t1, back);
    CancellationAdmitted(w1, t2, i, t.from);
    var steps := [Step(t1, back), Step(t2, CallCancelTransfer(i, t.from))];
    assert TrimmedIds(back) && TrimmedIds(CallCancelTransfer(i, t.from));
    DistinctIdsAreProper(w, steps);
    RunOfTwo(w, steps[0], steps[1]);
  }

  /** A request whose requester no longer holds the invoice stays open in every run if and only if the recipient is not able to
      answer, for somebody else bears that built-in name by now, and the invoice is void or the requester is no registered
      holder to whom it could be transferred back. Otherwise a run of at most two calls closes it. */
  lemma StuckForGoodIff(w: World, i: string, t: InvoiceTransfer)
    requires Reachable(w) && Stuck(w, i, t)
    ensures (forall steps :: Proper(w, steps) ==> PendingIn(Run(w, steps).transfers, i)) <==> NoWayOut(w, i, t)
  {
    hide Reachable, Run, Proper, CanAnswer, CanReceive;
    if NoWayOut(w, i, t) {
      forall steps | Proper(w, steps) ensures PendingIn(Run(w, steps).transfers, i) { StuckForGood(w, steps, i, t); }
    } else if CanAnswer(w.users, t) {
      RejectionCloses(w, i, t);
    } else {
      ReturnCloses(w, i, t);
    }
  }
}
