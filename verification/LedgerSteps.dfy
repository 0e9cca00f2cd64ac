/** Every transaction keeps the whole-ledger invariant; so every run does. */
module LedgerSteps {
  import opened Basics
  import opened LedgerTypes
  import opened LedgerRules
  import opened Balances
  import opened Backing
  import opened Histories
  import opened LedgerInvariant

  // ----- directory -----

  lemma RegisterKeepsInv(w: World, tx: Tx, username: string, displayOk: bool, msp: string, role: Role, org: string)
    requires Inv(w)
    requires RegisterBusinessUser(w, tx, username, displayOk, msp, role, org).Ok?
    ensures Inv(RegisterBusinessUser(w, tx, username, displayOk, msp, role, org).value)
  {
    hide AddsOneEvent, AddsOneFlow, TrimSpace, BooksOk, BackingOk, NumbersOk, CustodyOk, FlowStoreOk, OrganizationsOk,
         HistoryOk, EventStoreOk;
    var w' := RegisterBusinessUser(w, tx, username, displayOk, msp, role, org).value;
    forall p | p in w.projects ensures ApplicantSound(w'.users, w.projects[p]) {
      assert ApplicantSound(w.users, w.projects[p]);
    }
  }

  lemma CreateOrganizationKeepsInv(w: World, tx: Tx, id: string, textOk: bool, kind: OrganizationType, parent: string, creator: string)
    requires Inv(w)
    requires CreateBusinessOrganization(w, tx, id, textOk, kind, parent, creator).Ok?
    ensures Inv(CreateBusinessOrganization(w, tx, id, textOk, kind, parent, creator).value)
  {
    hide AddsOneEvent, AddsOneFlow, TrimSpace, BooksOk, BackingOk, NumbersOk, CustodyOk, FlowStoreOk, ApplicantsOk,
         HistoryOk, EventStoreOk, ActiveUser;
    var w' := CreateBusinessOrganization(w, tx, id, textOk, kind, parent, creator).value;
    forall o | o in w'.organizations ensures OrganizationSound(w'.organizations, o, w'.organizations[o]) {
      if o in w.organizations { assert OrganizationSound(w.organizations, o, w.organizations[o]); }
    }
  }

  // ----- projects -----

  lemma CreateProjectKeepsInv(w: World, tx: Tx, id: string, textOk: bool, budget: int, applicant: string, org: string)
    requires Inv(w) && Fresh(w, tx)
    requires CreateProject(w, tx, id, textOk, budget, applicant, org).Ok?
    ensures Inv(CreateProject(w, tx, id, textOk, budget, applicant, org).value)
  {
    hide AddsOneEvent, AddsOneFlow, TrimSpace, BooksOk, BackingOk, NumbersOk, CustodyOk, FlowStoreOk, ApplicantsOk,
         HistoryOk, EventStoreOk, OrganizationsOk, Replay;
    var key, name := TrimSpace(id), TrimSpace(applicant);
    var p := Project(key, name, tx.msp, TrimSpace(org), Draft, budget, 0, 0, 0, 0);
    MoveView(w.projects, w.claims, key, p);
    ProjectStep(w, tx, key, p, CreateDraft, name);
  }

  lemma SoundProject(w: World, key: string)
    requires Inv(w) && key in w.projects
    ensures ProjectSound(w.claims, key, w.projects[key]) && ApplicantSound(w.users, w.projects[key])
  {
    hide AddsOneEvent, AddsOneFlow, TrimSpace, BackingOk, NumbersOk, CustodyOk, FlowStoreOk, HistoryOk, EventStoreOk,
         OrganizationsOk;
  }

  lemma UpdateProjectKeepsInv(w: World, tx: Tx, id: string, textOk: bool, budget: int, applicant: string)
    requires Inv(w) && Fresh(w, tx) && Trimmed(id)
    requires UpdateProject(w, tx, id, textOk, budget, applicant).Ok?
    ensures Inv(UpdateProject(w, tx, id, textOk, budget, applicant).value)
  {
    hide AddsOneEvent, AddsOneFlow, TrimSpace, Inv, IsApplicant;
    StatusStep(w, tx, id, w.projects[id].(budget := budget, status := Draft), UpdateDraft, applicant);
  }

  lemma SubmitProjectKeepsInv(w: World, tx: Tx, id: string, applicant: string)
    requires Inv(w) && Fresh(w, tx) && Trimmed(id)
    requires SubmitProject(w, tx, id, applicant).Ok?
    ensures Inv(SubmitProject(w, tx, id, applicant).value)
  {
    hide AddsOneEvent, AddsOneFlow, TrimSpace, Inv, IsApplicant;
    SoundProject(w, id);
    StatusStep(w, tx, id, w.projects[id].(status := PendingReview), SubmitApplication, applicant);
  }

  lemma ReviewProjectKeepsInv(w: World, tx: Tx, id: string, decision: Decision, opinionOk: bool, reviewer: string)
    requires Inv(w) && Fresh(w, tx) && Trimmed(id)
    requires ReviewProject(w, tx, id, decision, opinionOk, reviewer).Ok?
    ensures Inv(ReviewProject(w, tx, id, decision, opinionOk, reviewer).value)
  {
    hide AddsOneEvent, AddsOneFlow, TrimSpace, Inv, IsManager;
    SoundProject(w, id);
    var status := if decision.Approve? then Executing else RevisionRequired;
    var kind := if decision.Approve? then ProjectApprove else ProjectRevision;
    StatusStep(w, tx, id, w.projects[id].(status := status), kind, TrimSpace(reviewer));
  }

  lemma RequestClosureKeepsInv(w: World, tx: Tx, id: string, materialsOk: bool, applicant: string)
    requires Inv(w) && Fresh(w, tx) && Trimmed(id)
    requires RequestProjectClosure(w, tx, id, materialsOk, applicant).Ok?
    ensures Inv(RequestProjectClosure(w, tx, id, materialsOk, applicant).value)
  {
    hide AddsOneEvent, AddsOneFlow, TrimSpace, Inv, IsApplicant;
    SoundProject(w, id);
    StatusStep(w, tx, id, w.projects[id].(status := ClosureReview), RequestClosure, applicant);
  }

  /** The funds are released here, and only here. */
  lemma FundingKeepsInv(w: World, tx: Tx, id: string, reviewer: string)
    requires Inv(w) && Fresh(w, tx) && id in w.projects && w.projects[id].status.ClosureReview?
    ensures var p := w.projects[id].(status := FinancialSettlement, available := w.projects[id].budget);
            Inv(PutEvent(PutProject(w, id, p), tx, id, ClosureApproveAndReleaseFund, reviewer, ""))
  {
    hide AddsOneEvent, AddsOneFlow, TrimSpace, Inv, Replay, SumOf;
    SoundProject(w, id);
    var p := w.projects[id].(status := FinancialSettlement, available := w.projects[id].budget);
    MoveView(w.projects, w.claims, id, p);
    ProjectStep(w, tx, id, p, ClosureApproveAndReleaseFund, reviewer);
  }

  lemma ReviewClosureKeepsInv(w: World, tx: Tx, id: string, decision: Decision, opinionOk: bool, reviewer: string)
    requires Inv(w) && Fresh(w, tx) && Trimmed(id)
    requires ReviewProjectClosure(w, tx, id, decision, opinionOk, reviewer).Ok?
    ensures Inv(ReviewProjectClosure(w, tx, id, decision, opinionOk, reviewer).value)
  {
    hide AddsOneEvent, AddsOneFlow, TrimSpace, Inv, IsManager;
    SoundProject(w, id);
    if decision.Approve? {
      FundingKeepsInv(w, tx, id, TrimSpace(reviewer));
    } else {
      StatusStep(w, tx, id, w.projects[id].(status := Executing), ClosureRevision, TrimSpace(reviewer));
    }
  }

  /** A project without reserved money and without claims awaiting action has no open claim at all. */
  lemma NothingOpen(w: World, p: string)
    requires Inv(w) && p in w.projects && w.projects[p].reserved == 0
    requires forall r :: r in w.claims ==> !AwaitsAction(w, p, r)
    ensures forall r :: r in w.claims && w.claims[r].projectId == p ==> !w.claims[r].status.Open()
  {
    hide AddsOneEvent, AddsOneFlow, TrimSpace, BackingOk, NumbersOk, CustodyOk, FlowStoreOk, ApplicantsOk, HistoryOk,
         EventStoreOk, OrganizationsOk;
    forall r | r in w.claims && w.claims[r].projectId == p ensures !w.claims[r].status.Open() {
      assert !AwaitsAction(w, p, r) && ClaimSound(w.projects, r, w.claims[r]);
      if w.claims[r].status.Reserved? {
        ClaimCovered(w.projects, w.claims, r);
      }
    }
  }

  lemma ArchivingKeepsInv(w: World, tx: Tx, key: string, actor: string)
    requires Inv(w) && Fresh(w, tx) && key in w.projects && w.projects[key].status.FinancialSettlement?
    requires w.projects[key].reserved == 0
    requires forall r :: r in w.claims ==> !AwaitsAction(w, key, r)
    ensures var p := w.projects[key];
            Inv(PutEvent(PutProject(w, key, p.(recovered := p.available, available := 0, status := Archived)),
                         tx, key, FinalizeSettlement, actor, ""))
  {
    hide AddsOneEvent, AddsOneFlow, TrimSpace, Inv, Replay, SumOf;
    SoundProject(w, key);
    NothingOpen(w, key);
    var p := w.projects[key].(recovered := w.projects[key].available, available := 0, status := Archived);
    MoveView(w.projects, w.claims, key, p);
    ProjectStep(w, tx, key, p, FinalizeSettlement, actor);
  }

  lemma BalancesOf(w: World, p: string)
    requires Inv(w) && p in w.projects
    ensures 0 <= w.projects[p].available <= w.projects[p].budget
  {
    hide BackingOk, NumbersOk, CustodyOk, FlowStoreOk, ApplicantsOk, HistoryOk, EventStoreOk, OrganizationsOk;
    BalancesBounded(w.projects, w.claims, p);
  }

  lemma FinalizeKeepsInv(w: World, tx: Tx, id: string, operator: string)
    requires Inv(w) && Fresh(w, tx)
    requires FinalizeProjectSettlement(w, tx, id, operator).Ok?
    ensures Inv(FinalizeProjectSettlement(w, tx, id, operator).value)
  {
    hide AddsOneEvent, AddsOneFlow, TrimSpace, IsManager, ApplicantSound;
    hide Inv, Fresh, SumOf;
    var key := TrimSpace(id);
    SoundProject(w, key);
    BalancesOf(w, key);
    ArchivingKeepsInv(w, tx, key, operator);
  }

  lemma UnchangedBooksKeepHistory(projects: map<string, Project>, claims: map<string, Claim>, log: seq<ProjectEvent>, e: ProjectEvent)
    requires HistoryOk(projects, claims, log)
    requires e.projectId in projects && (e.kind.AddMember? || e.kind.LinkInvoice? || e.kind.UnlinkInvoice?)
    ensures HistoryOk(projects, claims, log + [e])
  {
    hide AddsOneEvent, AddsOneFlow, TrimSpace, HistoryOk, Replay, NoRepeat;
    AppendKeepsHistory(projects, claims, log, projects, claims, e);
  }

  lemma AddMemberKeepsInv(w: World, tx: Tx, id: string, username: string, leader: string)
    requires Inv(w) && Fresh(w, tx) && Trimmed(id)
    requires AddProjectMember(w, tx, id, username, leader).Ok?
    ensures Inv(AddProjectMember(w, tx, id, username, leader).value)
  {
    hide AddsOneEvent, AddsOneFlow, TrimSpace, BooksOk, BackingOk, NumbersOk, CustodyOk, FlowStoreOk, ApplicantsOk,
         HistoryOk, EventStoreOk, OrganizationsOk, IsApplicant, ReadUser;
    EventStoreGrows(w, tx, id, AddMember, leader, "");
    UnchangedBooksKeepHistory(w.projects, w.claims, w.eventLog, ProjectEvent(id, tx.id, AddMember, leader, ""));
  }

  // ----- invoices -----

  /** A changed invoice record, with its flow; `numbers` is the index afterwards. */
  lemma InvoiceFlowStep(w: World, tx: Tx, i: string, invoice: Invoice, numbers: map<string, string>, kind: FlowKind,
                        from: string, to: string, operator: string)
    requires Inv(w) && Fresh(w, tx)
    requires BackingOk(w.claims, w.guard, w.invoices[i := invoice])
    requires NumbersOk(w.invoices[i := invoice], numbers)
    requires i in w.invoices || kind.Issue? || kind.Correction?
    requires var before := if i in w.invoices then Custody(w.invoices[i].holder, w.invoices[i].status.Voided?) else Custody("", false);
             CustodyAfter(before, InvoiceFlow(i, tx.id, kind, from, to, operator)) == Custody(invoice.holder, invoice.status.Voided?)
    ensures Inv(PutFlow(PutInvoice(w, i, invoice).(numbers := numbers), tx, i, kind, from, to, operator))
  {
    hide AddsOneEvent, AddsOneFlow, TrimSpace, BooksOk, BackingOk, NumbersOk, CustodyOk, CustodyOf, FlowStoreOk,
         ApplicantsOk, HistoryOk, EventStoreOk, OrganizationsOk;
    FlowStoreGrows(w, tx, i, kind, from, to, operator);
    AppendKeepsCustody(w.invoices, w.flowLog, w.invoices[i := invoice], InvoiceFlow(i, tx.id, kind, from, to, operator));
  }

  /** A flow that changes no record the invariant speaks of. */
  lemma RequestFlowStep(w: World, tx: Tx, i: string, kind: FlowKind, from: string, to: string, operator: string)
    requires Inv(w) && Fresh(w, tx)
    requires kind.TransferRequested? || kind.TransferRejection? || kind.TransferCancellation? || kind.VoidRequested? || kind.VoidRejection?
    ensures Inv(PutFlow(w, tx, i, kind, from, to, operator))
  {
    hide AddsOneEvent, AddsOneFlow, TrimSpace, BooksOk, BackingOk, NumbersOk, CustodyOk, CustodyOf, FlowStoreOk,
         ApplicantsOk, HistoryOk, EventStoreOk, OrganizationsOk;
    FlowStoreGrows(w, tx, i, kind, from, to, operator);
    AppendKeepsCustody(w.invoices, w.flowLog, w.invoices, InvoiceFlow(i, tx.id, kind, from, to, operator));
  }

  /** Custody moves to `holder`. */
  lemma HandoverStep(w: World, tx: Tx, i: string, invoice: Invoice, kind: FlowKind, from: string, operator: string)
    requires Inv(w) && Fresh(w, tx) && i in w.invoices && !w.invoices[i].status.Voided?
    requires invoice == w.invoices[i].(holder := invoice.holder, holderMsp := invoice.holderMsp,
                                       holderOrganizationId := invoice.holderOrganizationId, status := InCirculation)
    requires kind.Transfer? || kind.TransferAcceptance?
    ensures Inv(PutFlow(PutInvoice(w, i, invoice), tx, i, kind, from, invoice.holder, operator))
  {
    hide AddsOneEvent, AddsOneFlow, TrimSpace, BooksOk, NumbersOk, CustodyOk, CustodyOf, FlowStoreOk, ApplicantsOk,
         HistoryOk, EventStoreOk, OrganizationsOk;
    assert InvoiceKeyed(i, w.invoices[i]);
    InvoiceMoveKeepsBacking(w.claims, w.guard, w.invoices, i, invoice);
    InvoiceMoveKeepsNumbers(w.invoices, w.numbers, i, invoice);
    InvoiceFlowStep(w, tx, i, invoice, w.numbers, kind, from, invoice.holder, operator);
  }

  lemma VoidStep(w: World, tx: Tx, i: string, operator: string)
    requires Inv(w) && Fresh(w, tx) && i in w.invoices && EnsureUnclaimed(w, i).Ok?
    ensures Inv(PutFlow(PutInvoice(w, i, w.invoices[i].(status := Voided)), tx, i, Void, w.invoices[i].holder, "VOIDED", operator))
  {
    hide AddsOneEvent, AddsOneFlow, TrimSpace, BooksOk, NumbersOk, CustodyOk, CustodyOf, FlowStoreOk, ApplicantsOk,
         HistoryOk, EventStoreOk, OrganizationsOk;
    var invoice := w.invoices[i].(status := Voided);
    assert InvoiceKeyed(i, w.invoices[i]);
    InvoiceMoveKeepsBacking(w.claims, w.guard, w.invoices, i, invoice);
    InvoiceMoveKeepsNumbers(w.invoices, w.numbers, i, invoice);
    InvoiceFlowStep(w, tx, i, invoice, w.numbers, Void, w.invoices[i].holder, "VOIDED", operator);
  }

  /** The link of an unclaimed invoice changes, announced by a project event. */
  lemma LinkStep(w: World, tx: Tx, i: string, link: string, p: string, kind: EventKind, operator: string)
    requires Inv(w) && Fresh(w, tx) && i in w.invoices && p in w.projects && EnsureUnclaimed(w, i).Ok? && Trimmed(link)
    requires kind.LinkInvoice? || kind.UnlinkInvoice?
    ensures Inv(PutEvent(PutInvoice(w, i, w.invoices[i].(projectId := link)), tx, p, kind, operator, ""))
  {
    hide AddsOneEvent, AddsOneFlow, TrimSpace, BooksOk, NumbersOk, CustodyOk, FlowStoreOk, ApplicantsOk, HistoryOk,
         EventStoreOk, OrganizationsOk;
    var invoice := w.invoices[i].(projectId := link);
    LinkKeepsCustody(w.invoices, w.flowLog, i, link);
    assert InvoiceKeyed(i, w.invoices[i]);
    InvoiceMoveKeepsBacking(w.claims, w.guard, w.invoices, i, invoice);
    InvoiceMoveKeepsNumbers(w.invoices, w.numbers, i, invoice);
    EventStoreGrows(w, tx, p, kind, operator, "");
    UnchangedBooksKeepHistory(w.projects, w.claims, w.eventLog, ProjectEvent(p, tx.id, kind, operator, ""));
  }

  lemma UnclaimedSound(w: World, i: string)
    requires Inv(w) && i in w.invoices
    ensures InvoiceKeyed(i, w.invoices[i])
    ensures EnsureUnclaimed(w, i).Ok? <==> i !in w.guard
  {
    hide AddsOneEvent, AddsOneFlow, TrimSpace, BooksOk, NumbersOk, CustodyOk, FlowStoreOk, ApplicantsOk, HistoryOk,
         EventStoreOk, OrganizationsOk;
  }

  /** The records that carry a number are exactly what the two lookups of CheckCorrection find. */
  lemma NumberScan(w: World, invoiceNo: string, correctionOf: string)
    requires Inv(w) && Trimmed(invoiceNo)
    ensures !InvoiceNumberExists(w, invoiceNo) <==> forall j :: j in w.invoices ==> w.invoices[j].invoiceNo != invoiceNo
    ensures !InvoiceNumberExistsExcept(w, invoiceNo, correctionOf) <==>
              forall j :: j in w.invoices && j != correctionOf ==> w.invoices[j].invoiceNo != invoiceNo
  {
    hide AddsOneEvent, AddsOneFlow, TrimSpace, BooksOk, CustodyOk, FlowStoreOk, ApplicantsOk, HistoryOk, EventStoreOk,
         OrganizationsOk;
    forall j | j in w.invoices ensures CarriedBy(w, w.invoices[j].invoiceNo, j) && w.invoices[j].id == j {
      assert InvoiceKeyed(j, w.invoices[j]);
    }
    if invoiceNo in w.numbers {
      var j := w.numbers[invoiceNo];
      assert j in w.invoices && w.invoices[j].invoiceNo == invoiceNo;
    }
  }

  lemma NewInvoiceStep(w: World, tx: Tx, i: string, invoice: Invoice, issuer: string, issuerOrg: string)
    requires Inv(w) && Fresh(w, tx) && i !in w.invoices && InvoiceKeyed(i, invoice)
    requires Trimmed(invoice.invoiceNo) && invoice.status.Issued?
    requires CheckCorrection(w, tx, invoice.invoiceNo, invoice.correctionOf, issuerOrg).Ok?
    ensures var kind := if invoice.correctionOf == "" then Issue else Correction;
            Inv(PutFlow(PutInvoice(w, i, invoice).(numbers := w.numbers[invoice.invoiceNo := i]), tx, i, kind, issuer, invoice.holder, tx.msp))
  {
    hide AddsOneEvent, AddsOneFlow, TrimSpace, BooksOk, NumbersOk, CustodyOk, CustodyOf, FlowStoreOk, ApplicantsOk, HistoryOk, EventStoreOk, OrganizationsOk, Corrects,
         InvoiceNumberExists, InvoiceNumberExistsExcept;
    var kind := if invoice.correctionOf == "" then Issue else Correction;
    NumberScan(w, invoice.invoiceNo, invoice.correctionOf);
    InvoiceMoveKeepsBacking(w.claims, w.guard, w.invoices, i, invoice);
    NewInvoiceKeepsNumbers(w.invoices, w.numbers, i, invoice);
    InvoiceFlowStep(w, tx, i, invoice, w.numbers[invoice.invoiceNo := i], kind, issuer, invoice.holder, tx.msp);
  }

  lemma DraftSound(w: World, tx: Tx, form: InvoiceForm)
    requires DraftInvoice(w, tx, form).Ok?
    ensures var invoice := DraftInvoice(w, tx, form).value;
            && InvoiceKeyed(invoice.id, invoice) && invoice.id !in w.invoices
            && Trimmed(invoice.invoiceNo) && invoice.status.Issued?
            && CheckCorrection(w, tx, invoice.invoiceNo, invoice.correctionOf, invoice.issuerOrganizationId).Ok?
  {
    hide AddsOneEvent, AddsOneFlow, TrimSpace, ActiveUser, CheckLinkedProject, CheckCorrection, CheckedAddMoney,
         BusinessMsp, UserOrganization, MayIssueFor, MoneyInRange;
  }

  lemma CreateInvoiceKeepsInv(w: World, tx: Tx, form: InvoiceForm)
    requires Inv(w) && Fresh(w, tx) && CreateInvoice(w, tx, form).Ok?
    ensures Inv(CreateInvoice(w, tx, form).value)
  {
    hide AddsOneEvent, AddsOneFlow, TrimSpace, Inv, DraftInvoice, CheckCorrection;
    var invoice := DraftInvoice(w, tx, form).value;
    DraftSound(w, tx, form);
    NewInvoiceStep(w, tx, invoice.id, invoice, TrimSpace(form.issuer), invoice.issuerOrganizationId);
  }

  lemma LinkInvoiceKeepsInv(w: World, tx: Tx, i: string, projectId: string, operator: string)
    requires Inv(w) && Fresh(w, tx) && LinkInvoiceToProject(w, tx, i, projectId, operator).Ok?
    ensures Inv(LinkInvoiceToProject(w, tx, i, projectId, operator).value)
  {
    hide AddsOneEvent, AddsOneFlow, TrimSpace, Inv, IsMember, SameBusiness, EnsureUnclaimed;
    var p := TrimSpace(projectId);
    UnclaimedSound(w, i);
    SoundProject(w, p);
    LinkStep(w, tx, i, p, p, LinkInvoice, operator);
  }

  lemma UnlinkInvoiceKeepsInv(w: World, tx: Tx, i: string, operator: string)
    requires Inv(w) && Fresh(w, tx) && UnlinkInvoiceFromProject(w, tx, i, operator).Ok?
    ensures Inv(UnlinkInvoiceFromProject(w, tx, i, operator).value)
  {
    hide AddsOneEvent, AddsOneFlow, TrimSpace, Inv, IsMember, SameBusiness, EnsureUnclaimed;
    UnclaimedSound(w, i);
    LinkStep(w, tx, i, "", w.invoices[i].projectId, UnlinkInvoice, operator);
  }

  lemma TransferKeepsInv(w: World, tx: Tx, i: string, to: string, toMsp: string, operator: string)
    requires Inv(w) && Fresh(w, tx) && TransferInvoice(w, tx, i, to, toMsp, operator).Ok?
    ensures Inv(TransferInvoice(w, tx, i, to, toMsp, operator).value)
  {
    hide AddsOneEvent, AddsOneFlow, TrimSpace, Inv, ActiveUser, BusinessMsp;
    var w' := TransferInvoice(w, tx, i, to, toMsp, operator).value;
    HandoverStep(w, tx, i, w'.invoices[i], Transfer, w.invoices[i].holder, tx.msp);
  }

  lemma RequestTransferKeepsInv(w: World, tx: Tx, i: string, to: string, toMsp: string, operator: string)
    requires Inv(w) && Fresh(w, tx) && RequestInvoiceTransfer(w, tx, i, to, toMsp, operator).Ok?
    ensures Inv(RequestInvoiceTransfer(w, tx, i, to, toMsp, operator).value)
  {
    hide AddsOneEvent, AddsOneFlow, TrimSpace, ActiveUser, RegisteredRole, BooksOk, BackingOk, NumbersOk, CustodyOk,
         FlowStoreOk, ApplicantsOk, HistoryOk, EventStoreOk, OrganizationsOk;
    RequestFlowStep(w, tx, i, TransferRequested, TrimSpace(operator), TrimSpace(to), tx.msp);
  }

  lemma RespondTransferKeepsInv(w: World, tx: Tx, i: string, decision: Decision, recipient: string)
    requires Inv(w) && Fresh(w, tx) && RespondInvoiceTransfer(w, tx, i, decision, recipient).Ok?
    ensures Inv(RespondInvoiceTransfer(w, tx, i, decision, recipient).value)
  {
    hide AddsOneEvent, AddsOneFlow, TrimSpace, ActiveUser, BooksOk, BackingOk, NumbersOk, CustodyOk, FlowStoreOk,
         ApplicantsOk, HistoryOk, EventStoreOk, OrganizationsOk;
    var w' := RespondInvoiceTransfer(w, tx, i, decision, recipient).value;
    var transfer := w.transfers[TrimSpace(i)];
    if decision.Decline? {
      RequestFlowStep(w, tx, i, TransferRejection, transfer.from, transfer.to, transfer.toMsp);
    } else {
      HandoverStep(w, tx, i, w'.invoices[i], TransferAcceptance, transfer.from, transfer.toMsp);
    }
  }

  lemma CancelTransferKeepsInv(w: World, tx: Tx, i: string, operator: string)
    requires Inv(w) && Fresh(w, tx) && CancelInvoiceTransfer(w, tx, i, operator).Ok?
    ensures Inv(CancelInvoiceTransfer(w, tx, i, operator).value)
  {
    hide AddsOneEvent, AddsOneFlow, TrimSpace, BooksOk, BackingOk, NumbersOk, CustodyOk, FlowStoreOk, ApplicantsOk,
         HistoryOk, EventStoreOk, OrganizationsOk;
    var transfer := w.transfers[TrimSpace(i)];
    RequestFlowStep(w, tx, i, TransferCancellation, transfer.from, transfer.to, w.invoices[i].holderMsp);
  }

  lemma VoidInvoiceKeepsInv(w: World, tx: Tx, i: string, reasonOk: bool, operator: string)
    requires Inv(w) && Fresh(w, tx) && VoidInvoice(w, tx, i, reasonOk, operator).Ok?
    ensures Inv(VoidInvoice(w, tx, i, reasonOk, operator).value)
  {
    hide AddsOneEvent, AddsOneFlow, TrimSpace, Inv, ActiveUser, EnsureUnclaimed;
    VoidStep(w, tx, i, tx.msp);
  }

  lemma RequestVoidKeepsInv(w: World, tx: Tx, i: string, reasonOk: bool, applicant: string)
    requires Inv(w) && Fresh(w, tx) && RequestInvoiceVoid(w, tx, i, reasonOk, applicant).Ok?
    ensures Inv(RequestInvoiceVoid(w, tx, i, reasonOk, applicant).value)
  {
    hide AddsOneEvent, AddsOneFlow, TrimSpace, IsMember, EnsureUnclaimed, BooksOk, BackingOk, NumbersOk, CustodyOk,
         FlowStoreOk, ApplicantsOk, HistoryOk, EventStoreOk, OrganizationsOk;
    RequestFlowStep(w, tx, i, VoidRequested, TrimSpace(applicant), "ISSUER_REVIEW", tx.msp);
  }

  lemma ReviewVoidKeepsInv(w: World, tx: Tx, i: string, decision: Decision, opinionOk: bool, reviewer: string)
    requires Inv(w) && Fresh(w, tx) && ReviewInvoiceVoid(w, tx, i, decision, opinionOk, reviewer).Ok?
    ensures Inv(ReviewInvoiceVoid(w, tx, i, decision, opinionOk, reviewer).value)
  {
    hide AddsOneEvent, AddsOneFlow, TrimSpace, ActiveUser, EnsureUnclaimed, BooksOk, BackingOk, NumbersOk, CustodyOk,
         FlowStoreOk, ApplicantsOk, HistoryOk, EventStoreOk, OrganizationsOk;
    if decision.Decline? {
      RequestFlowStep(w, tx, i, VoidRejection, TrimSpace(reviewer), w.voidRequests[TrimSpace(i)].applicant, tx.msp);
    } else {
      VoidStep(w, tx, i, tx.msp);
    }
  }

  // ----- reimbursements -----

  /** What a claim may rely on: its project, its balances and its invoice. */
  lemma SoundClaim(w: World, r: string)
    requires Inv(w) && r in w.claims
    ensures ClaimSound(w.projects, r, w.claims[r]) && ClaimBacked(w.guard, w.invoices, r, w.claims[r])
    ensures var p := w.projects[w.claims[r].projectId];
            && p.id == w.claims[r].projectId && Trimmed(p.id) && 0 < p.budget <= MAX_MONEY_CENTS && Conserved(p)
            && 0 <= p.available <= p.budget && 0 <= p.paid <= p.budget && 0 <= p.reserved <= p.budget
            && (w.claims[r].status.Reserved? ==> w.claims[r].amount <= p.reserved)
  {
    hide AddsOneEvent, AddsOneFlow, TrimSpace, NumbersOk, CustodyOk, FlowStoreOk, ApplicantsOk, HistoryOk,
         EventStoreOk, OrganizationsOk;
    assert ClaimSound(w.projects, r, w.claims[r]);
    assert ProjectSound(w.claims, w.claims[r].projectId, w.projects[w.claims[r].projectId]);
    BalancesBounded(w.projects, w.claims, w.claims[r].projectId);
    if w.claims[r].status.Reserved? { ClaimCovered(w.projects, w.claims, r); }
  }

  lemma CreateClaimKeepsInv(w: World, tx: Tx, id: string, project: string, invoice: string, applicant: string, ok: bool)
    requires Inv(w) && Fresh(w, tx) && CreateReimbursement(w, tx, id, project, invoice, applicant, ok).Ok?
    ensures Inv(CreateReimbursement(w, tx, id, project, invoice, applicant, ok).value)
  {
    hide AddsOneEvent, AddsOneFlow, TrimSpace, Inv, IsMember, SumOf;
    var w' := CreateReimbursement(w, tx, id, project, invoice, applicant, ok).value;
    var r, p := TrimSpace(id), TrimSpace(project);
    SoundProject(w, p);
    assert w.projects[p := w.projects[p]] == w.projects;
    ClaimStep(w, tx, w'.claims[r], w.projects[p], SubmitReimbursement, TrimSpace(applicant));
  }

  lemma ReviewClaimKeepsInv(w: World, tx: Tx, r: string, decision: Decision, opinionOk: bool, reviewer: string)
    requires Inv(w) && Fresh(w, tx) && Trimmed(r) && ReviewReimbursement(w, tx, r, decision, opinionOk, reviewer).Ok?
    ensures Inv(ReviewReimbursement(w, tx, r, decision, opinionOk, reviewer).value)
  {
    hide AddsOneEvent, AddsOneFlow, TrimSpace, Inv, IsManager;
    var w' := ReviewReimbursement(w, tx, r, decision, opinionOk, reviewer).value;
    var p := w.claims[r].projectId;
    SoundClaim(w, r);
    assert w.projects[p := w.projects[p]] == w.projects;
    var kind := if decision.Approve? then ReimbursementApprove else ReimbursementRevision;
    ClaimStep(w, tx, w'.claims[r], w'.projects[p], kind, TrimSpace(reviewer));
  }

  lemma ResubmitClaimKeepsInv(w: World, tx: Tx, r: string, ok: bool, applicant: string)
    requires Inv(w) && Fresh(w, tx) && Trimmed(r) && LedgerRules.ResubmitReimbursement(w, tx, r, ok, applicant).Ok?
    ensures Inv(LedgerRules.ResubmitReimbursement(w, tx, r, ok, applicant).value)
  {
    hide AddsOneEvent, AddsOneFlow, TrimSpace, Inv, IsMember;
    var p := w.claims[r].projectId;
    SoundClaim(w, r);
    assert w.projects[p := w.projects[p]] == w.projects;
    ClaimStep(w, tx, w.claims[r].(status := Pending), w.projects[p], LedgerTypes.ResubmitReimbursement, applicant);
  }

  /** The project record after a withdrawal has given back what the claim had frozen. */
  function Unfrozen(p: Project, c: Claim): Project {
    if c.status.Reserved? then p.(available := p.available + c.amount, reserved := p.reserved - c.amount) else p
  }

  /** The balance check of a withdrawal always passes. */
  lemma UnfreezeSucceeds(w: World, r: string)
    requires Inv(w) && r in w.claims && w.claims[r].status.Open()
    ensures var c := w.claims[r];
            && c.projectId in w.projects
            && Unfreeze(w, w.projects[c.projectId], c) == Ok(PutProject(w, c.projectId, Unfrozen(w.projects[c.projectId], c)))
  {
    hide AddsOneEvent, AddsOneFlow, Inv;
    SoundClaim(w, r);
    var c := w.claims[r];
    if !c.status.Reserved? { assert w.projects[c.projectId := w.projects[c.projectId]] == w.projects; }
  }

  lemma WithdrawClaimKeepsInv(w: World, tx: Tx, r: string, applicant: string)
    requires Inv(w) && Fresh(w, tx) && Trimmed(r) && LedgerRules.WithdrawReimbursement(w, tx, r, applicant).Ok?
    ensures Inv(LedgerRules.WithdrawReimbursement(w, tx, r, applicant).value)
  {
    hide AddsOneEvent, AddsOneFlow, TrimSpace, Inv, IsMember, Unfreeze;
    SoundClaim(w, r);
    UnfreezeSucceeds(w, r);
    var c := w.claims[r];
    ClaimStep(w, tx, c.(status := Withdrawn), Unfrozen(w.projects[c.projectId], c), LedgerTypes.WithdrawReimbursement, applicant);
  }

  lemma PayClaimKeepsInv(w: World, tx: Tx, r: string, operator: string)
    requires Inv(w) && Fresh(w, tx) && Trimmed(r) && LedgerRules.PayReimbursement(w, tx, r, operator).Ok?
    ensures Inv(LedgerRules.PayReimbursement(w, tx, r, operator).value)
  {
    hide AddsOneEvent, AddsOneFlow, TrimSpace, Inv, IsManager;
    var w' := LedgerRules.PayReimbursement(w, tx, r, operator).value;
    SoundClaim(w, r);
    ClaimStep(w, tx, w'.claims[r], w'.projects[w.claims[r].projectId], LedgerTypes.PayReimbursement, TrimSpace(operator));
  }
}
