/** What holds in every state that any run of the ledger reaches. */
module LedgerTheorems {
  import opened Basics
  import opened LedgerTypes
  import opened LedgerRules
  import opened Balances
  import opened Backing
  import opened Histories
  import opened LedgerInvariant
  import opened LedgerSteps
  import opened LedgerRuns

  // ----- money -----

  /** Conservation of the budget in every phase; no balance is ever negative or above the budget, so no int64
      operation on balances wraps; and the legacy status is unreachable. */
  lemma BudgetConserved(w: World, p: string)
    requires Reachable(w) && p in w.projects
    ensures var q := w.projects[p];
            && 0 <= q.available <= q.budget && 0 <= q.reserved <= q.budget
            && 0 <= q.paid <= q.budget && 0 <= q.recovered <= q.budget <= MAX_MONEY_CENTS
            && !q.status.ClosureApproved?
            && (if q.status.FinancialSettlement? then q.available + q.reserved + q.paid == q.budget && q.recovered == 0
                else if q.status.Archived? then q.paid + q.recovered == q.budget && q.available == q.reserved == 0
                else q.available == q.reserved == q.paid == q.recovered == 0)
  {
    hide Reachable, SumOf;
    ReachableInv(w);
    BalancesBounded(w.projects, w.claims, p);
    assert ProjectSound(w.claims, p, w.projects[p]);
  }

  /** The frozen and the paid balance of a project are the sums of its claims in those states. */
  lemma BalancesAgreeWithClaims(w: World, p: string)
    requires Reachable(w) && p in w.projects
    ensures w.projects[p].reserved == SumOf(w.claims, p, Reserved)
    ensures w.projects[p].paid == SumOf(w.claims, p, Paid)
  {
    hide Reachable, SumOf;
    ReachableInv(w);
    assert ProjectSound(w.claims, p, w.projects[p]);
  }

  /** Folding the project events in commit order, with nothing but final budgets and claim amounts beside them,
      gives the status and the balances of every project and the status of every claim. */
  lemma ReplayRebuildsBooks(w: World)
    requires Reachable(w)
    ensures Replay(w.eventLog, Budgets(w.projects), Amounts(w.claims)) == View(w.projects, w.claims)
  {
    hide Reachable, Replay, View;
    ReachableInv(w);
  }

  /** A successful project or claim call adds one event under a key that was free, and keeps all others. */
  lemma EventsAreAppended(w: World, tx: Tx, call: Call)
    requires Reachable(w) && Fresh(w, tx) && ProjectCall(call) && Execute(w, tx, call).Ok?
    ensures var w' := Execute(w, tx, call).value;
            exists e :: w'.eventLog == w.eventLog + [e] && (e.projectId, tx.id) !in w.events
                        && w'.events == w.events[(e.projectId, tx.id) := e]
  {
    hide Reachable, Execute;
    HistoryGrows(w, tx, call);
    ReachableInv(w);
    var e := Execute(w, tx, call).value.eventLog[|w.eventLog|];
    EventStoreGrows(w, tx, e.projectId, e.kind, e.actor, e.referenceId);
  }

  /** A project is funded at most once, and no claim is paid twice. */
  lemma FundedAndPaidOnce(w: World, i: nat, j: nat)
    requires Reachable(w) && i < j < |w.eventLog|
    ensures var e, f := w.eventLog[i], w.eventLog[j];
            && (e.kind.ClosureApproveAndReleaseFund? && f.kind.ClosureApproveAndReleaseFund? ==> e.projectId != f.projectId)
            && (e.kind.PayReimbursement? && f.kind.PayReimbursement? ==> e.referenceId != f.referenceId)
  {
    hide Reachable, Replay;
    ReachableInv(w);
    assert NoRepeat(w.eventLog[i], w.eventLog[j]);
  }

  // ----- invoices and claims -----

  lemma GuardFacts(w: World)
    requires Inv(w)
    ensures GuardExact(w.claims, w.guard)
  {
    hide BooksOk, NumbersOk, HistoryOk, CustodyOk, EventStoreOk, FlowStoreOk, ApplicantsOk, OrganizationsOk;
    BackingGivesGuardExact(w.claims, w.guard, w.invoices);
  }

  /** The guard index holds exactly the one claim on an invoice that is not withdrawn. */
  lemma GuardIsTheActiveClaim(w: World, i: string, r: string)
    requires Reachable(w)
    ensures (i in w.guard && w.guard[i] == r) <==> (r in w.claims && w.claims[r].invoiceId == i && Active(w.claims[r]))
  {
    hide Reachable, Inv;
    ReachableInv(w);
    GuardFacts(w);
    assert i in w.guard ==> GuardEntryOk(w.claims, i, w.guard[i]);
  }

  /** ensureInvoiceCanBeVoided lets an invoice through exactly when every claim on it has been withdrawn. */
  lemma VoidableIffAllWithdrawn(w: World, i: string)
    requires Reachable(w)
    ensures EnsureUnclaimed(w, i).Ok? <==> forall r :: r in w.claims && w.claims[r].invoiceId == i ==> w.claims[r].status.Withdrawn?
  {
    hide Reachable, Inv;
    ReachableInv(w);
    GuardFacts(w);
    if i in w.guard {
      assert GuardEntryOk(w.claims, i, w.guard[i]);
    }
  }

  /** No two payments, in any run, are for the same invoice. */
  lemma InvoicePaidOnce(w: World, i: nat, j: nat)
    requires Reachable(w) && i < j < |w.eventLog|
    requires w.eventLog[i].kind.PayReimbursement? && w.eventLog[j].kind.PayReimbursement?
    ensures var r, s := w.eventLog[i].referenceId, w.eventLog[j].referenceId;
            r in w.claims && s in w.claims && w.claims[r].invoiceId != w.claims[s].invoiceId
  {
    hide Reachable, Replay;
    ReachableInv(w);
    GuardFacts(w);
    assert NoRepeat(w.eventLog[i], w.eventLog[j]);
    assert Recorded(w.projects, w.claims, w.eventLog[i]) && Recorded(w.projects, w.claims, w.eventLog[j]);
  }

  /** The invoice behind a claim that is not withdrawn is valid, linked to its project, and of the claimed amount. */
  lemma ActiveClaimIsBacked(w: World, r: string)
    requires Reachable(w) && r in w.claims && Active(w.claims[r])
    ensures var c := w.claims[r];
            && c.invoiceId in w.invoices
            && !w.invoices[c.invoiceId].status.Voided?
            && w.invoices[c.invoiceId].projectId == c.projectId
            && w.invoices[c.invoiceId].total == c.amount
  {
    hide Reachable, Inv;
    ReachableInv(w);
    SoundClaim(w, r);
  }

  predicate NeverRefusedFor(r: Result<World>, reason: Refusal) { r.Refused? ==> r.reason != reason }

  lemma ReviewFindsNoCorruption(w: World, tx: Tx, id: string, decision: Decision, ok: bool, name: string)
    requires Inv(w)
    ensures NeverRefusedFor(ReviewReimbursement(w, tx, id, decision, ok, name), InvoiceVoided)
    ensures NeverRefusedFor(ReviewReimbursement(w, tx, id, decision, ok, name), AmountInvalid)
  {
    hide Inv, IsManager, TrimSpace, AddsOneEvent, MovesClaim, RestatesClaim, Wrap64;
    if TrimSpace(id) in w.claims { SoundClaim(w, TrimSpace(id)); }
  }

  lemma PaymentFindsNoCorruption(w: World, tx: Tx, id: string, name: string)
    requires Inv(w)
    ensures NeverRefusedFor(LedgerRules.PayReimbursement(w, tx, id, name), InvoiceVoided)
    ensures NeverRefusedFor(LedgerRules.PayReimbursement(w, tx, id, name), BalanceInconsistent)
  {
    hide Inv, IsManager, TrimSpace, AddsOneEvent, MovesClaim, RestatesClaim, Wrap64;
    if TrimSpace(id) in w.claims { SoundClaim(w, TrimSpace(id)); }
  }

  lemma WithdrawalFindsNoCorruption(w: World, tx: Tx, id: string, name: string)
    requires Inv(w)
    ensures NeverRefusedFor(LedgerRules.WithdrawReimbursement(w, tx, id, name), BalanceInconsistent)
  {
    hide Inv, IsMember, TrimSpace, AddsOneEvent, MovesClaim, RestatesClaim, Unfreeze;
    var r := TrimSpace(id);
    if r in w.claims {
      SoundClaim(w, r);
      if w.claims[r].status.Open() { UnfreezeSucceeds(w, r); }
    }
  }

  /** The refusals that report a corrupted ledger cannot occur, whatever the arguments of the call. */
  lemma CorruptionRefusalsNeverFire(w: World, tx: Tx, id: string, decision: Decision, ok: bool, name: string)
    requires Reachable(w)
    ensures NeverRefusedFor(ReviewReimbursement(w, tx, id, decision, ok, name), InvoiceVoided)
    ensures NeverRefusedFor(ReviewReimbursement(w, tx, id, decision, ok, name), AmountInvalid)
    ensures NeverRefusedFor(LedgerRules.PayReimbursement(w, tx, id, name), InvoiceVoided)
    ensures NeverRefusedFor(LedgerRules.PayReimbursement(w, tx, id, name), BalanceInconsistent)
    ensures NeverRefusedFor(LedgerRules.WithdrawReimbursement(w, tx, id, name), BalanceInconsistent)
  {
    hide Reachable, Inv, NeverRefusedFor, ReviewReimbursement, LedgerRules.PayReimbursement, LedgerRules.WithdrawReimbursement;
    ReachableInv(w);
    ReviewFindsNoCorruption(w, tx, id, decision, ok, name);
    PaymentFindsNoCorruption(w, tx, id, name);
    WithdrawalFindsNoCorruption(w, tx, id, name);
  }

  // ----- invoice numbers -----

  /** A number is carried by at most two records, at most one of them valid; of two, the newer corrects the older. */
  lemma NumberCarriedAtMostTwice(w: World, a: string, b: string)
    requires Reachable(w) && a in w.invoices && b in w.invoices && a != b
    requires w.invoices[a].invoiceNo == w.invoices[b].invoiceNo
    ensures var no := w.invoices[a].invoiceNo;
            && no in w.numbers
            && var newer := w.numbers[no];
               var older := if newer == a then b else a;
            && (newer == a || newer == b)
            && w.invoices[newer].correctionOf == older
            && w.invoices[older].status.Voided? && w.invoices[older].correctionOf == ""
            && forall c :: c in w.invoices && w.invoices[c].invoiceNo == no ==> c == a || c == b
  {
    hide Reachable, BooksOk, BackingOk, HistoryOk, CustodyOk, EventStoreOk, FlowStoreOk, ApplicantsOk, OrganizationsOk;
    ReachableInv(w);
    assert Corrects(w.invoices, w.numbers, a, b) || Corrects(w.invoices, w.numbers, b, a);
    forall c | c in w.invoices && w.invoices[c].invoiceNo == w.invoices[a].invoiceNo ensures c == a || c == b {
      assert c == a || Corrects(w.invoices, w.numbers, a, c) || Corrects(w.invoices, w.numbers, c, a);
      assert c == b || Corrects(w.invoices, w.numbers, b, c) || Corrects(w.invoices, w.numbers, c, b);
    }
  }

  /** Whether the scan over the records alone would find the number, as it is spelled. */
  ghost predicate Carried(w: World, invoiceNo: string) { exists id :: CarriedBy(w, invoiceNo, id) }

  lemma IndexedNumbers(w: World, invoiceNo: string)
    requires Inv(w)
    ensures TrimSpace(invoiceNo) in w.numbers <==> Carried(w, TrimSpace(invoiceNo))
    ensures Carried(w, invoiceNo) ==> Trimmed(invoiceNo) && invoiceNo in w.numbers
    ensures TrimSpace(invoiceNo) in w.numbers ==> CarriedBy(w, TrimSpace(invoiceNo), w.numbers[TrimSpace(invoiceNo)])
  {
    hide BooksOk, BackingOk, HistoryOk, CustodyOk, EventStoreOk, FlowStoreOk, ApplicantsOk, OrganizationsOk, TrimSpace;
    var no := TrimSpace(invoiceNo);
    forall j | CarriedBy(w, no, j) ensures no in w.numbers { assert IndexedNumber(w.invoices, w.numbers, j); }
    forall j | CarriedBy(w, invoiceNo, j) ensures Trimmed(invoiceNo) && invoiceNo in w.numbers {
      assert IndexedNumber(w.invoices, w.numbers, j);
    }
    if no in w.numbers { assert CarriedBy(w, no, w.numbers[no]); }
  }

  lemma NumberLookup(w: World, invoiceNo: string)
    requires Inv(w)
    ensures InvoiceNumberExists(w, invoiceNo) <==> Carried(w, TrimSpace(invoiceNo))
  {
    hide Inv, TrimSpace;
    IndexedNumbers(w, invoiceNo);
    if Trimmed(invoiceNo) { assert TrimSpace(invoiceNo) == invoiceNo; }
  }

  /** InvoiceNumberExists answers, for any spelling, whether a record carries the trimmed number. The index lookup and the
      scan that it falls back on agree exactly when the number is spelled without outer space or nobody carries it: the
      lookup trims its argument and the scan does not. */
  lemma IndexAgreesWithScanIff(w: World, invoiceNo: string)
    requires Reachable(w)
    ensures InvoiceNumberExists(w, invoiceNo) <==> Carried(w, TrimSpace(invoiceNo))
    ensures (TrimSpace(invoiceNo) in w.numbers <==> Carried(w, invoiceNo)) <==>
            Trimmed(invoiceNo) || !Carried(w, TrimSpace(invoiceNo))
    ensures TrimSpace(invoiceNo) in w.numbers ==> CarriedBy(w, TrimSpace(invoiceNo), w.numbers[TrimSpace(invoiceNo)])
  {
    hide Reachable, Inv, TrimSpace, InvoiceNumberExists;
    ReachableInv(w);
    IndexedNumbers(w, invoiceNo);
    NumberLookup(w, invoiceNo);
    if Trimmed(invoiceNo) { assert TrimSpace(invoiceNo) == invoiceNo; }
  }

  /** A record other than `exceptId` carries the number. */
  ghost predicate CarriedByOther(w: World, invoiceNo: string, exceptId: string) {
    exists id :: CarriedBy(w, invoiceNo, id) && id != exceptId
  }

  lemma StoredUnderOwnId(w: World, i: string)
    requires Inv(w) && i in w.invoices
    ensures w.invoices[i].id == i && i != ""
  {
    hide BooksOk, NumbersOk, HistoryOk, CustodyOk, EventStoreOk, FlowStoreOk, ApplicantsOk, OrganizationsOk;
    assert InvoiceKeyed(i, w.invoices[i]);
  }

  lemma ExceptScan(w: World, invoiceNo: string, exceptId: string)
    requires Inv(w)
    ensures InvoiceNumberExistsExcept(w, invoiceNo, exceptId) <==>
            (TrimSpace(invoiceNo) in w.numbers && w.numbers[TrimSpace(invoiceNo)] != exceptId) || CarriedByOther(w, invoiceNo, exceptId)
  {
    hide Inv, TrimSpace;
    forall id | CarriedBy(w, invoiceNo, id) ensures w.invoices[id].id == id { StoredUnderOwnId(w, id); }
    if CarriedByOther(w, invoiceNo, exceptId) {
      var id :| CarriedBy(w, invoiceNo, id) && id != exceptId;
      assert id in w.invoices && CarriedBy(w, invoiceNo, id) && w.invoices[id].id != exceptId;
    }
  }

  /** InvoiceNumberExistsExcept answers whether another record carries the trimmed number, unless the number is spelled with
      outer space and the one left aside is the one that the index names: the scan then misses the record it corrects. */
  lemma ExceptAgreesIff(w: World, invoiceNo: string, exceptId: string)
    requires Reachable(w)
    ensures var no := TrimSpace(invoiceNo);
            (InvoiceNumberExistsExcept(w, invoiceNo, exceptId) <==> CarriedByOther(w, no, exceptId)) <==>
            Trimmed(invoiceNo) || !(no in w.numbers && w.numbers[no] == exceptId && IsCorrection(w, exceptId))
  {
    hide Reachable, Inv, TrimSpace, InvoiceNumberExistsExcept;
    ReachableInv(w);
    var no := TrimSpace(invoiceNo);
    ExceptScan(w, invoiceNo, exceptId);
    IndexedNumbers(w, invoiceNo);
    if no in w.numbers { OtherCarrier(w, no); }
  }

  predicate IsCorrection(w: World, id: string) { id in w.invoices && w.invoices[id].correctionOf != "" }

  /** Beside the record that the index names there is another with the number exactly when that one is a correction. */
  lemma OtherCarrier(w: World, no: string)
    requires Inv(w) && no in w.numbers
    ensures CarriedByOther(w, no, w.numbers[no]) <==> IsCorrection(w, w.numbers[no])
  {
    hide Inv;
    if IsCorrection(w, w.numbers[no]) {
      CorrectedCarries(w, no);
    } else if CarriedByOther(w, no, w.numbers[no]) {
      var other :| CarriedBy(w, no, other) && other != w.numbers[no];
      SecondIsCorrected(w, no, other);
    }
  }

  lemma CorrectedCarries(w: World, no: string)
    requires Inv(w) && no in w.numbers && IsCorrection(w, w.numbers[no])
    ensures CarriedByOther(w, no, w.numbers[no])
  {
    hide BooksOk, BackingOk, HistoryOk, CustodyOk, EventStoreOk, FlowStoreOk, ApplicantsOk, OrganizationsOk, IndexedNumber;
    var newer := w.numbers[no];
    assert Corrects(w.invoices, w.numbers, newer, w.invoices[newer].correctionOf);
    assert CarriedBy(w, no, w.invoices[newer].correctionOf);
  }

  lemma SecondIsCorrected(w: World, no: string, other: string)
    requires Inv(w) && no in w.numbers && CarriedBy(w, no, other) && other != w.numbers[no]
    ensures IsCorrection(w, w.numbers[no])
  {
    hide BooksOk, BackingOk, HistoryOk, CustodyOk, EventStoreOk, FlowStoreOk, ApplicantsOk, OrganizationsOk, IndexedNumber;
    var newer := w.numbers[no];
    StoredUnderOwnId(w, other);
    assert Corrects(w.invoices, w.numbers, newer, other) || Corrects(w.invoices, w.numbers, other, newer);
  }

  // ----- custody -----

  /** Folding the flows in commit order gives the holder of every invoice and whether it has been voided. */
  lemma FlowsRebuildCustody(w: World, i: string)
    requires Reachable(w) && i in w.invoices
    ensures CustodyOf(w.flowLog, i) == Custody(w.invoices[i].holder, w.invoices[i].status.Voided?)
  {
    hide Reachable, CustodyOf;
    ReachableInv(w);
  }

  /** The holder is who signs away the invoice, or the recipient that the current holder chose and who accepts. */
  predicate MayMove(w: World, call: Call, i: string, to: string)
    requires i in w.invoices
  {
    || (&& call.CallTransferInvoice? && call.id == i
        && TrimSpace(call.operator) == w.invoices[i].holder && TrimSpace(call.to) == to)
    || (&& call.CallRespondTransfer? && call.id == i && call.decision.Approve?
        && TrimSpace(i) in w.transfers
        && var t := w.transfers[TrimSpace(i)];
           t.status.TransferPending? && t.from == w.invoices[i].holder && t.to == to && TrimSpace(call.recipient) == to)
  }

  /** A record that was not there before is one that CreateInvoice made, in the hands of the holder it names. */
  predicate MadeBy(call: Call, invoice: Invoice) {
    call.CallCreateInvoice? && invoice.holder == TrimSpace(call.form.initialHolder)
  }

  /** Invoice records are never removed, renumbered or re-priced; a voided one never changes again; custody begins as MadeBy
      says and moves only as MayMove says. */
  ghost predicate CustodyRespected(w: World, w': World, call: Call) {
    && (forall i :: i in w.invoices ==>
          && i in w'.invoices
          && w'.invoices[i].total == w.invoices[i].total && w'.invoices[i].invoiceNo == w.invoices[i].invoiceNo
          && (w.invoices[i].status.Voided? ==> w'.invoices[i] == w.invoices[i])
          && (w'.invoices[i].Place() != w.invoices[i].Place() ==> MayMove(w, call, i, w'.invoices[i].holder)))
    && (forall i :: i in w'.invoices && i !in w.invoices ==> MadeBy(call, w'.invoices[i]))
  }

  lemma DraftHolder(w: World, tx: Tx, form: InvoiceForm)
    requires DraftInvoice(w, tx, form).Ok?
    ensures DraftInvoice(w, tx, form).value.holder == TrimSpace(form.initialHolder)
  {
    hide TrimSpace, ActiveUser, UserOrganization, CheckLinkedProject, CheckCorrection, CheckedAddMoney, BusinessMsp, MayIssueFor, KeySafe;
  }

  lemma NewInvoiceMoves(w: World, tx: Tx, form: InvoiceForm)
    requires CreateInvoice(w, tx, form).Ok?
    ensures DraftInvoice(w, tx, form).Ok? && DraftInvoice(w, tx, form).value.id !in w.invoices
    ensures MovesInvoice(w, CreateInvoice(w, tx, form).value, DraftInvoice(w, tx, form).value.id)
    ensures CreateInvoice(w, tx, form).value.invoices[DraftInvoice(w, tx, form).value.id].holder == TrimSpace(form.initialHolder)
  {
    hide DraftInvoice, AddsOneFlow, TrimSpace;
    DraftSound(w, tx, form);
    DraftHolder(w, tx, form);
  }

  lemma LinkMoves(w: World, tx: Tx, i: string, p: string, operator: string)
    requires Inv(w) && LinkInvoiceToProject(w, tx, i, p, operator).Ok?
    ensures i in w.invoices && MovesInvoice(w, LinkInvoiceToProject(w, tx, i, p, operator).value, i)
    ensures LinkInvoiceToProject(w, tx, i, p, operator).value.invoices[i].Place() == w.invoices[i].Place()
  {
    hide Inv, IsMember, SameBusiness, EnsureUnclaimed, AddsOneEvent, ReadProject;
    UnclaimedSound(w, i);
  }

  lemma UnlinkMoves(w: World, tx: Tx, i: string, operator: string)
    requires Inv(w) && UnlinkInvoiceFromProject(w, tx, i, operator).Ok?
    ensures i in w.invoices && MovesInvoice(w, UnlinkInvoiceFromProject(w, tx, i, operator).value, i)
    ensures UnlinkInvoiceFromProject(w, tx, i, operator).value.invoices[i].Place() == w.invoices[i].Place()
  {
    hide Inv, IsMember, SameBusiness, EnsureUnclaimed, AddsOneEvent, ReadProject;
    UnclaimedSound(w, i);
  }

  lemma FinalizeMoves(w: World, tx: Tx, id: string, operator: string)
    requires Inv(w) && FinalizeProjectSettlement(w, tx, id, operator).Ok?
    ensures MovesProject(w, FinalizeProjectSettlement(w, tx, id, operator).value, TrimSpace(id))
  {
    hide Inv, IsManager, AddsOneEvent, AwaitsAction, SumOf, TrimSpace, Wrap64, ApplicantSound, Conserved;
    SoundProject(w, TrimSpace(id));
  }

  lemma SameInvoicesRespected(w: World, w': World, call: Call)
    requires w'.invoices == w.invoices
    ensures CustodyRespected(w, w', call)
  {}

  lemma ProjectCallSparesInvoices(w: World, tx: Tx, call: Call)
    requires Inv(w) && !OnInvoices(call) && !OnClaims(call) && ExecuteOnProjects(w, tx, call).Ok?
    ensures ExecuteOnProjects(w, tx, call).value.invoices == w.invoices
  {
    hide Inv, AddsOneEvent, AddsOneFlow, DirectoryGrows, SameBooks, TrimSpace,
         RegisterBusinessUser, CreateBusinessOrganization, CreateProject, UpdateProject, SubmitProject,
         ReviewProject, RequestProjectClosure, ReviewProjectClosure, FinalizeProjectSettlement, AddProjectMember;
    if call.CallFinalize? { FinalizeMoves(w, tx, call.id, call.financeOperator); }
  }

  lemma ClaimCallSparesInvoices(w: World, tx: Tx, call: Call)
    requires OnClaims(call) && ExecuteOnClaims(w, tx, call).Ok?
    ensures ExecuteOnClaims(w, tx, call).value.invoices == w.invoices
  {
    hide AddsOneEvent, RestatesClaim, TrimSpace,
         CreateReimbursement, ReviewReimbursement, LedgerRules.ResubmitReimbursement,
         LedgerRules.WithdrawReimbursement, LedgerRules.PayReimbursement;
  }

  lemma SameHolderRespects(w: World, w': World, call: Call, i: string)
    requires MovesInvoice(w, w', i)
    requires if i in w.invoices then w'.invoices[i].Place() == w.invoices[i].Place() else MadeBy(call, w'.invoices[i])
    ensures CustodyRespected(w, w', call)
  {}

  lemma TransferRespects(w: World, w': World, i: string, to: string, toMsp: string, operator: string)
    requires MovesInvoice(w, w', i) && i in w.invoices
    requires w.invoices[i].holder == TrimSpace(operator) && w'.invoices[i].holder == TrimSpace(to)
    ensures CustodyRespected(w, w', CallTransferInvoice(i, to, toMsp, operator))
  {
    hide TrimSpace;
  }

  lemma AcceptanceRespects(w: World, w': World, i: string, decision: Decision, recipient: string)
    requires decision.Approve? && AcceptsTransfer(w, w', i, TrimSpace(recipient))
    ensures CustodyRespected(w, w', CallRespondTransfer(i, decision, recipient))
  {
    hide TrimSpace, SameBooks, MadeBy;
  }

  lemma RecordCallRespects(w: World, tx: Tx, call: Call, w': World)
    requires Inv(w) && OnInvoices(call) && ExecuteOnInvoices(w, tx, call) == Ok(w')
    requires call.CallCreateInvoice? || call.CallLinkInvoice? || call.CallUnlinkInvoice? || call.CallVoidInvoice?
    ensures CustodyRespected(w, w', call)
  {
    hide Inv, AddsOneEvent, AddsOneFlow, SameBooks, TrimSpace, MovesInvoice, CustodyRespected,
         CreateInvoice, LinkInvoiceToProject, UnlinkInvoiceFromProject, VoidInvoice;
    match call
    case CallCreateInvoice(form) =>
      NewInvoiceMoves(w, tx, form);
      SameHolderRespects(w, w', call, DraftInvoice(w, tx, form).value.id);
    case CallLinkInvoice(id, p, operator) => LinkMoves(w, tx, id, p, operator); SameHolderRespects(w, w', call, id);
    case CallUnlinkInvoice(id, operator) => UnlinkMoves(w, tx, id, operator); SameHolderRespects(w, w', call, id);
    case CallVoidInvoice(id, _, _) => SameHolderRespects(w, w', call, id);
  }

  lemma RequestCallRespects(w: World, tx: Tx, call: Call, w': World)
    requires OnInvoices(call) && ExecuteOnInvoices(w, tx, call) == Ok(w')
    requires !call.CallCreateInvoice? && !call.CallLinkInvoice? && !call.CallUnlinkInvoice? && !call.CallVoidInvoice?
    ensures CustodyRespected(w, w', call)
  {
    hide AddsOneFlow, SameBooks, TrimSpace, MovesInvoice, CustodyRespected, AcceptsTransfer,
         TransferInvoice, RequestInvoiceTransfer, RespondInvoiceTransfer, CancelInvoiceTransfer, RequestInvoiceVoid, ReviewInvoiceVoid;
    if w'.invoices == w.invoices {
      SameInvoicesRespected(w, w', call);
    } else {
      match call
      case CallTransferInvoice(id, to, toMsp, operator) => TransferRespects(w, w', id, to, toMsp, operator);
      case CallRespondTransfer(id, decision, recipient) => AcceptanceRespects(w, w', id, decision, recipient);
      case CallReviewVoid(id, _, _, _) => SameHolderRespects(w, w', call, id);
      case _ =>
    }
  }

  lemma InvoiceCallRespects(w: World, tx: Tx, call: Call, w': World)
    requires Inv(w) && OnInvoices(call) && ExecuteOnInvoices(w, tx, call) == Ok(w')
    ensures CustodyRespected(w, w', call)
  {
    hide Inv, CustodyRespected, ExecuteOnInvoices;
    if call.CallCreateInvoice? || call.CallLinkInvoice? || call.CallUnlinkInvoice? || call.CallVoidInvoice? {
      RecordCallRespects(w, tx, call, w');
    } else {
      RequestCallRespects(w, tx, call, w');
    }
  }

  lemma CustodyStep(w: World, tx: Tx, call: Call, w': World)
    requires Inv(w) && Execute(w, tx, call) == Ok(w')
    ensures CustodyRespected(w, w', call)
  {
    hide Inv, CustodyRespected, ExecuteOnProjects, ExecuteOnInvoices, ExecuteOnClaims;
    if OnInvoices(call) {
      InvoiceCallRespects(w, tx, call, w');
    } else {
      if OnClaims(call) { ClaimCallSparesInvoices(w, tx, call); } else { ProjectCallSparesInvoices(w, tx, call); }
      SameInvoicesRespected(w, w', call);
    }
  }

  /** A voided invoice record never changes again, in any run. */
  lemma {:induction false} VoidedIsFinal(w: World, steps: seq<Step>, i: string)
    requires Inv(w) && Proper(w, steps) && i in w.invoices && w.invoices[i].status.Voided?
    ensures i in Run(w, steps).invoices && Run(w, steps).invoices[i] == w.invoices[i]
    decreases |steps|
  {
    hide Inv, Execute, MayMove;
    if steps != [] {
      var tx, call := steps[0].tx, steps[0].call;
      if Execute(w, tx, call).Ok? {
        ExecuteKeepsInv(w, tx, call);
        CustodyStep(w, tx, call, Next(w, tx, call));
      }
      VoidedIsFinal(Next(w, tx, call), steps[1..], i);
    }
  }

  // ----- settled projects stay settled -----

  /** Project p, its claims and which claims are its own are the same in both states. */
  ghost predicate SameAccount(w: World, w': World, p: string) {
    && p in w.projects && p in w'.projects && w'.projects[p] == w.projects[p]
    && (forall r :: r in w.claims && w.claims[r].projectId == p ==> r in w'.claims && w'.claims[r] == w.claims[r])
    && (forall r :: r in w'.claims && w'.claims[r].projectId == p ==> r in w.claims && w'.claims[r] == w.claims[r])
  }

  lemma ProjectMoveSparesArchived(w: World, w': World, key: string, p: string)
    requires p in w.projects && w.projects[p].status.Archived?
    requires MovesProject(w, w', key) && Trimmed(key)
    ensures SameAccount(w, w', p)
  {}

  lemma SameBooksSpareArchived(w: World, w': World, p: string)
    requires SameBooks(w, w') && p in w.projects
    ensures SameAccount(w, w', p)
  {}

  lemma ClaimMoveSparesArchived(w: World, w': World, r: string, p: string)
    requires Inv(w) && p in w.projects && w.projects[p].status.Archived?
    requires MovesClaim(w, w', r) && Trimmed(r)
    ensures SameAccount(w, w', p)
  {
    hide Inv, SumOf, TrimSpace;
    SoundProject(w, p);
    SoundProject(w, TrimSpace(w'.claims[r].projectId));
    if r in w.claims { SoundClaim(w, r); }
  }

  lemma ProjectCallSparesArchived(w: World, tx: Tx, call: Call, w': World, p: string)
    requires Inv(w) && TrimmedIds(call) && p in w.projects && w.projects[p].status.Archived?
    requires !OnInvoices(call) && !OnClaims(call) && ExecuteOnProjects(w, tx, call) == Ok(w')
    ensures SameAccount(w, w', p)
  {
    hide Inv, AddsOneEvent, DirectoryGrows, MovesProject, SameBooks, SameAccount, TrimSpace,
         RegisterBusinessUser, CreateBusinessOrganization, CreateProject, UpdateProject, SubmitProject,
         ReviewProject, RequestProjectClosure, ReviewProjectClosure, FinalizeProjectSettlement, AddProjectMember;
    match call
    case CallCreateProject(id, _, _, _, _) => ProjectMoveSparesArchived(w, w', TrimSpace(id), p);
    case CallUpdateProject(id, _, _, _) => ProjectMoveSparesArchived(w, w', id, p);
    case CallSubmitProject(id, _) => ProjectMoveSparesArchived(w, w', id, p);
    case CallReviewProject(id, _, _, _) => ProjectMoveSparesArchived(w, w', id, p);
    case CallRequestClosure(id, _, _) => ProjectMoveSparesArchived(w, w', id, p);
    case CallReviewClosure(id, _, _, _) => ProjectMoveSparesArchived(w, w', id, p);
    case CallFinalize(id, operator) => FinalizeMoves(w, tx, id, operator); ProjectMoveSparesArchived(w, w', TrimSpace(id), p);
    case _ => SameBooksSpareArchived(w, w', p);
  }

  lemma ClaimIdTrimmed(call: Call)
    requires TrimmedIds(call) && OnClaims(call) && !call.CallCreateClaim?
    ensures Trimmed(call.id)
  {}

  lemma ClaimCallSparesArchived(w: World, tx: Tx, call: Call, w': World, p: string)
    requires Inv(w) && TrimmedIds(call) && p in w.projects && w.projects[p].status.Archived?
    requires OnClaims(call) && ExecuteOnClaims(w, tx, call) == Ok(w')
    ensures SameAccount(w, w', p)
  {
    hide Inv, AddsOneEvent, MovesClaim, RestatesClaim, SameAccount, TrimSpace, TrimmedIds, Trimmed,
         CreateReimbursement, ReviewReimbursement, LedgerRules.ResubmitReimbursement,
         LedgerRules.WithdrawReimbursement, LedgerRules.PayReimbursement;
    if call.CallCreateClaim? {
      ClaimMoveSparesArchived(w, w', TrimSpace(call.id), p);
    } else {
      ClaimIdTrimmed(call);
      ClaimMoveSparesArchived(w, w', call.id, p);
    }
  }

  lemma InvoiceCallKeepsBooks(w: World, tx: Tx, call: Call)
    requires OnInvoices(call) && ExecuteOnInvoices(w, tx, call).Ok?
    ensures SameBooks(w, ExecuteOnInvoices(w, tx, call).value)
  {
    hide AddsOneEvent, AddsOneFlow, MovesInvoice, AcceptsTransfer, SameBooks, TrimSpace,
         CreateInvoice, LinkInvoiceToProject, UnlinkInvoiceFromProject, TransferInvoice, RequestInvoiceTransfer,
         RespondInvoiceTransfer, CancelInvoiceTransfer, VoidInvoice, RequestInvoiceVoid, ReviewInvoiceVoid;
  }

  lemma ArchivedStep(w: World, tx: Tx, call: Call, w': World, p: string)
    requires Inv(w) && TrimmedIds(call) && Execute(w, tx, call) == Ok(w') && p in w.projects && w.projects[p].status.Archived?
    ensures SameAccount(w, w', p)
  {
    hide Inv, TrimmedIds, SameAccount, SameBooks, ExecuteOnProjects, ExecuteOnInvoices, ExecuteOnClaims;
    if OnInvoices(call) {
      InvoiceCallKeepsBooks(w, tx, call);
      SameBooksSpareArchived(w, w', p);
    } else if OnClaims(call) {
      ClaimCallSparesArchived(w, tx, call, w', p);
    } else {
      ProjectCallSparesArchived(w, tx, call, w', p);
    }
  }

  /** From a reachable state on, no run changes an archived project or any of its claims, nor adds one. */
  lemma {:induction false} ArchivedIsFinal(w: World, steps: seq<Step>, p: string)
    requires Inv(w) && Proper(w, steps) && p in w.projects && w.projects[p].status.Archived?
    ensures SameAccount(w, Run(w, steps), p)
    decreases |steps|
  {
    hide Inv, Execute;
    if steps != [] {
      var tx, call := steps[0].tx, steps[0].call;
      if Execute(w, tx, call).Ok? {
        ExecuteKeepsInv(w, tx, call);
        ArchivedStep(w, tx, call, Next(w, tx, call), p);
      }
      ArchivedIsFinal(Next(w, tx, call), steps[1..], p);
    }
  }

  /** Once archived in a reachable ledger, a project keeps its record, and its claims stay as they are: all paid or
      withdrawn. Review, payment and withdrawal never test the status of the project. */
  lemma ArchivedForever(w: World, steps: seq<Step>, p: string)
    requires Reachable(w) && Proper(w, steps) && p in w.projects && w.projects[p].status.Archived?
    ensures SameAccount(w, Run(w, steps), p)
    ensures forall r :: r in Run(w, steps).claims && Run(w, steps).claims[r].projectId == p
              ==> Run(w, steps).claims[r].status.Paid? || Run(w, steps).claims[r].status.Withdrawn?
  {
    hide Reachable, Inv, Run, Proper;
    ReachableInv(w);
    ArchivedIsFinal(w, steps, p);
    forall r | r in w.claims && w.claims[r].projectId == p ensures w.claims[r].status.Paid? || w.claims[r].status.Withdrawn? {
      ArchivedClaimsAreClosed(w, r);
    }
  }

  /** Every claim of an archived project has been paid or withdrawn. */
  lemma ArchivedClaimsAreClosed(w: World, r: string)
    requires Reachable(w) && r in w.claims
    ensures w.claims[r].projectId in w.projects
    ensures w.projects[w.claims[r].projectId].status.Archived? ==> w.claims[r].status.Paid? || w.claims[r].status.Withdrawn?
  {
    hide Reachable, Inv;
    ReachableInv(w);
    SoundClaim(w, r);
  }
}
