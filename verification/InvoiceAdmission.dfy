/** When the calls on invoices are admitted in a sound ledger, and what exactly they then do. */
module InvoiceAdmission {
  import opened Basics
  import opened LedgerTypes
  import opened LedgerRules
  import opened Balances
  import opened Backing
  import opened LedgerInvariant
  import opened LedgerSteps
  import opened LedgerTheorems
  import opened Entitlement
  import opened Admission

  /** An invoice record and a flow are put, and nothing else. */
  function Kept(w: World, i: string, invoice: Invoice, f: InvoiceFlow): World {
    w.(invoices := w.invoices[i := invoice], flows := w.flows[(f.invoiceId, f.txId) := f], flowLog := w.flowLog + [f])
  }

  /** The organization that a name acts for: that of its record, or none. */
  function Home(w: World, name: string): string {
    if TrimSpace(name) in w.users then w.users[TrimSpace(name)].organizationId else ""
  }

  lemma BearerHasHome(w: World, name: string, msp: string, role: Role)
    requires Bears(w, name, msp, role)
    ensures UserOrganization(w, name) == Ok(Home(w, name))
  {
    hide TrimSpace;
  }

  // ----- a new invoice -----

  /** The organization for which the invoice is issued. */
  function IssuerOf(w: World, form: InvoiceForm): string {
    if TrimSpace(form.issuerOrganizationId) == "" then Home(w, TrimSpace(form.initialHolder)) else TrimSpace(form.issuerOrganizationId)
  }

  /** Somebody who issues invoices or works on projects, for the MSP and the organization of the invoice. */
  predicate MayIssue(w: World, tx: Tx, form: InvoiceForm) {
    var holder := TrimSpace(form.initialHolder);
    && holder != "" && tx.msp == TrimSpace(form.initialHolderMsp)
    && (tx.msp == "Org1MSP" || tx.msp == "Org2MSP")
    && (TrimSpace(form.buyerMsp) == "Org1MSP" || TrimSpace(form.buyerMsp) == "Org2MSP")
    && (Bears(w, holder, tx.msp, Issuer) || Bears(w, holder, tx.msp, ProjectMember))
    && (Home(w, holder) == "" || Home(w, holder) == IssuerOf(w, form))
  }

  /** No project, or one that is executing or in settlement, of the issuer's MSP and organization, with the holder as a member. */
  predicate MayLinkTo(w: World, tx: Tx, p: string, holder: string, issuerOrg: string) {
    p != "" ==>
      && p in w.projects && (w.projects[p].status.Executing? || w.projects[p].status.FinancialSettlement?)
      && w.projects[p].applicantMsp == tx.msp && w.projects[p].organizationId == issuerOrg
      && IsMember(w, tx, w.projects[p], holder)
  }

  /** A number that nobody carries; or, for a correction, that only the voided original of the same issuer carries. */
  ghost predicate NumberAdmitted(w: World, tx: Tx, no: string, original: string, issuerOrg: string) {
    if original == "" then !Carried(w, no)
    else
      && original in w.invoices && w.invoices[original].status.Voided? && w.invoices[original].invoiceNo == no
      && w.invoices[original].issuerMsp == tx.msp
      && (w.invoices[original].issuerOrganizationId == "" || w.invoices[original].issuerOrganizationId == issuerOrg)
      && !CarriedByOther(w, no, original)
  }

  /** Both amounts in range, and their sum positive and in range. */
  predicate AmountsAdmitted(amount: int, tax: int) {
    0 <= amount <= MAX_MONEY_CENTS && 0 <= tax <= MAX_MONEY_CENTS && 0 < amount + tax <= MAX_MONEY_CENTS
  }

  /** The record that the form asks for: its total is the amount and the tax. */
  function Asked(w: World, form: InvoiceForm, msp: string): Invoice {
    Invoice(TrimSpace(form.id), TrimSpace(form.invoiceNo), form.amount + form.tax, TrimSpace(form.initialHolder), msp,
            IssuerOf(w, form), msp, IssuerOf(w, form), TrimSpace(form.projectId), TrimSpace(form.correctionOf), Issued)
  }

  ghost predicate InvoiceAdmitted(w: World, tx: Tx, form: InvoiceForm) {
    var id, no := TrimSpace(form.id), TrimSpace(form.invoiceNo);
    && PlainId(id) && no != "" && form.textOk && form.currencyOk && form.hashOk && id !in w.invoices
    && MayIssue(w, tx, form)
    && MayLinkTo(w, tx, TrimSpace(form.projectId), TrimSpace(form.initialHolder), IssuerOf(w, form))
    && AmountsAdmitted(form.amount, form.tax)
    && NumberAdmitted(w, tx, no, TrimSpace(form.correctionOf), IssuerOf(w, form))
  }

  lemma LinkedProjectIff(w: World, tx: Tx, p: string, holder: string, issuerOrg: string)
    requires Inv(w) && Trimmed(p)
    ensures CheckLinkedProject(w, tx, p, holder, issuerOrg).Ok? <==> MayLinkTo(w, tx, p, holder, issuerOrg)
  {
    hide Inv, TrimSpace, SumOf, IsMember;
    assert TrimSpace(p) == p;
    if p in w.projects { SoundProject(w, p); }
  }

  /** No claim is left on a voided invoice, so the check for one never refuses a correction. */
  lemma VoidedIsUnclaimed(w: World, i: string)
    requires Inv(w) && i in w.invoices && w.invoices[i].status.Voided?
    ensures EnsureUnclaimed(w, i).Ok?
  {
    hide Inv;
    GuardFacts(w);
    if i in w.guard {
      assert GuardEntryOk(w.claims, i, w.guard[i]);
      SoundClaim(w, w.guard[i]);
    }
  }

  lemma CorrectionIff(w: World, tx: Tx, no: string, original: string, issuerOrg: string)
    requires Inv(w) && Trimmed(no)
    ensures CheckCorrection(w, tx, no, original, issuerOrg).Ok? <==> NumberAdmitted(w, tx, no, original, issuerOrg)
  {
    hide Inv, TrimSpace, InvoiceNumberExists, InvoiceNumberExistsExcept, EnsureUnclaimed, Carried, CarriedByOther;
    assert TrimSpace(no) == no;
    NumberLookup(w, no);
    if original in w.invoices && w.invoices[original].status.Voided? {
      VoidedIsUnclaimed(w, original);
      OnlyOther(w, no, original);
    }
  }

  lemma OnlyOther(w: World, no: string, except: string)
    requires Inv(w) && Trimmed(no)
    ensures InvoiceNumberExistsExcept(w, no, except) <==> CarriedByOther(w, no, except)
  {
    hide Inv, TrimSpace, InvoiceNumberExistsExcept;
    assert TrimSpace(no) == no;
    ExceptScan(w, no, except);
    IndexedNumbers(w, no);
  }

  lemma IssuerIff(w: World, tx: Tx, holder: string)
    requires TrimSpace(holder) == holder
    ensures ActiveUser(w, tx, holder, tx.msp, {Issuer, ProjectMember}) <==>
            Bears(w, holder, tx.msp, Issuer) || Bears(w, holder, tx.msp, ProjectMember)
  {
    hide RegisteredRole, Bears;
    RoleIff(w, holder, tx.msp, {Issuer, ProjectMember});
  }

  /** The sum that the record carries, and when there is one. */
  lemma TotalIff(amount: int, tax: int)
    ensures AmountsAdmitted(amount, tax) <==>
            && MoneyInRange(amount) && MoneyInRange(tax)
            && CheckedAddMoney(amount, tax).Ok? && CheckedAddMoney(amount, tax).value > 0
    ensures AmountsAdmitted(amount, tax) ==> CheckedAddMoney(amount, tax) == Ok(amount + tax)
  {}

  lemma HolderIff(w: World, tx: Tx, holder: string)
    requires TrimSpace(holder) == holder
    ensures ActiveUser(w, tx, holder, tx.msp, {Issuer, ProjectMember}) <==>
            Bears(w, holder, tx.msp, Issuer) || Bears(w, holder, tx.msp, ProjectMember)
    ensures ActiveUser(w, tx, holder, tx.msp, {Issuer, ProjectMember}) ==> UserOrganization(w, holder) == Ok(Home(w, holder))
  {
    hide TrimSpace, Bears, ActiveUser, UserOrganization, Home;
    IssuerIff(w, tx, holder);
    if Bears(w, holder, tx.msp, Issuer) { BearerHasHome(w, holder, tx.msp, Issuer); }
    if Bears(w, holder, tx.msp, ProjectMember) { BearerHasHome(w, holder, tx.msp, ProjectMember); }
  }

  /** The checks of CreateInvoice on who issues and holds the invoice. */
  predicate IssuePermitted(w: World, tx: Tx, form: InvoiceForm) {
    var holder := TrimSpace(form.initialHolder);
    && holder != "" && BusinessMsp(tx.msp) && BusinessMsp(TrimSpace(form.buyerMsp)) && BusinessMsp(TrimSpace(form.initialHolderMsp))
    && tx.msp == TrimSpace(form.initialHolderMsp) && ActiveUser(w, tx, holder, tx.msp, {Issuer, ProjectMember})
    && MayIssueFor(Home(w, holder), IssuerOf(w, form))
  }

  lemma IssuePermittedIff(w: World, tx: Tx, form: InvoiceForm)
    ensures IssuePermitted(w, tx, form) <==> MayIssue(w, tx, form)
  {
    hide TrimSpace, ActiveUser, UserOrganization, Bears, Home;
    HolderIff(w, tx, TrimSpace(form.initialHolder));
  }

  /** The checks of CreateInvoice one by one, and the record. */
  lemma DraftReads(w: World, tx: Tx, form: InvoiceForm)
    ensures var id, no, holder := TrimSpace(form.id), TrimSpace(form.invoiceNo), TrimSpace(form.initialHolder);
            var r := DraftInvoice(w, tx, form);
            && (r.Ok? <==>
                  && id != "" && KeySafe(id) && no != "" && form.textOk && form.currencyOk && form.hashOk && id !in w.invoices
                  && IssuePermitted(w, tx, form)
                  && MoneyInRange(form.amount) && MoneyInRange(form.tax)
                  && CheckedAddMoney(form.amount, form.tax).Ok? && CheckedAddMoney(form.amount, form.tax).value > 0
                  && CheckLinkedProject(w, tx, TrimSpace(form.projectId), holder, IssuerOf(w, form)).Ok?
                  && CheckCorrection(w, tx, no, TrimSpace(form.correctionOf), IssuerOf(w, form)).Ok?)
            && (r.Ok? ==> r.value == Asked(w, form, tx.msp).(total := CheckedAddMoney(form.amount, form.tax).value))
  {
    hide TrimSpace, CheckLinkedProject, CheckCorrection, ActiveUser, UserOrganization, CheckedAddMoney, Home, KeySafe,
         BusinessMsp, MayIssueFor, MoneyInRange;
    HolderIff(w, tx, TrimSpace(form.initialHolder));
  }

  lemma DraftIff(w: World, tx: Tx, form: InvoiceForm)
    requires Inv(w)
    ensures DraftInvoice(w, tx, form).Ok? <==> InvoiceAdmitted(w, tx, form)
    ensures DraftInvoice(w, tx, form).Ok? ==> DraftInvoice(w, tx, form).value == Asked(w, form, tx.msp)
  {
    hide Inv, TrimSpace, DraftInvoice, CheckLinkedProject, CheckCorrection, MayIssue, IssuePermitted, MayLinkTo, NumberAdmitted,
         IssuerOf, AmountsAdmitted, CheckedAddMoney, MoneyInRange, Home;
    DraftReads(w, tx, form);
    IssuePermittedIff(w, tx, form);
    TotalIff(form.amount, form.tax);
    LinkedProjectIff(w, tx, TrimSpace(form.projectId), TrimSpace(form.initialHolder), IssuerOf(w, form));
    CorrectionIff(w, tx, TrimSpace(form.invoiceNo), TrimSpace(form.correctionOf), IssuerOf(w, form));
  }

  /** The flow that tells of a new record. */
  function FirstFlow(invoice: Invoice, tx: Tx, issuer: string): InvoiceFlow {
    InvoiceFlow(invoice.id, tx.id, if invoice.correctionOf == "" then Issue else Correction, issuer, invoice.holder, tx.msp)
  }

  /** CreateInvoice, on a sound ledger: exactly when it succeeds, and then one record under the trimmed id, carrying all that the form
      asks for with the exact sum of amount and tax as its total, its number in the index, one flow, and nothing else. */
  lemma InvoiceIff(w: World, tx: Tx, form: InvoiceForm)
    requires Inv(w)
    ensures var r, invoice := CreateInvoice(w, tx, form), Asked(w, form, tx.msp);
            var f := FirstFlow(invoice, tx, TrimSpace(form.issuer));
            && (r.Ok? <==> InvoiceAdmitted(w, tx, form))
            && (r.Ok? ==> r.value == Kept(w, invoice.id, invoice, f).(numbers := w.numbers[invoice.invoiceNo := invoice.id]))
  {
    hide Inv, TrimSpace, DraftInvoice, InvoiceAdmitted, IssuerOf, AddsOneFlow, SameBooks;
    DraftIff(w, tx, form);
  }

  // ----- links -----

  /** The invoice was issued under the project's MSP, and for its organization where it names one. */
  predicate SameOwner(invoice: Invoice, p: Project) {
    invoice.issuerMsp == p.applicantMsp && (invoice.issuerOrganizationId == "" || invoice.issuerOrganizationId == p.organizationId)
  }

  /** An invoice record and a project event are put, and nothing else. */
  function Relinked(w: World, i: string, invoice: Invoice, e: ProjectEvent): World {
    w.(invoices := w.invoices[i := invoice], events := w.events[(e.projectId, e.txId) := e], eventLog := w.eventLog + [e])
  }

  predicate AllWithdrawn(w: World, i: string) {
    forall r :: r in w.claims && w.claims[r].invoiceId == i ==> w.claims[r].status.Withdrawn?
  }

  lemma UnclaimedIff(w: World, i: string)
    requires Inv(w)
    ensures EnsureUnclaimed(w, i).Ok? <==> AllWithdrawn(w, i)
  {
    hide Inv;
    FreeInGuard(w, i);
  }

  /** An active claim is on a linked invoice. */
  lemma UnlinkedIsUnclaimed(w: World, i: string)
    requires Inv(w) && i in w.invoices && w.invoices[i].projectId == ""
    ensures EnsureUnclaimed(w, i).Ok?
  {
    hide Inv;
    GuardFacts(w);
    if i in w.guard {
      assert GuardEntryOk(w.claims, i, w.guard[i]);
      SoundClaim(w, w.guard[i]);
      SettlementStatus(w, w.claims[w.guard[i]].projectId);
    }
  }

  lemma SoundOwner(w: World, p: string, invoice: Invoice)
    requires Inv(w) && p in w.projects
    ensures w.projects[p].id == p && !w.projects[p].status.ClosureApproved?
    ensures SameBusiness(invoice, w.projects[p]) <==> SameOwner(invoice, w.projects[p])
  {
    hide Inv, SumOf;
    SoundProject(w, p);
  }

  predicate MayLink(w: World, tx: Tx, i: string, p: string, operator: string) {
    && i in w.invoices && !w.invoices[i].status.Voided? && w.invoices[i].projectId == ""
    && p in w.projects && (w.projects[p].status.Executing? || w.projects[p].status.FinancialSettlement?)
    && IsMember(w, tx, w.projects[p], operator) && SameOwner(w.invoices[i], w.projects[p])
  }

  /** A valid invoice without a link is linked by a member to an executing or settling project of its issuer, and nothing else changes.
      That no claim is on it need not be asked. */
  lemma LinkIff(w: World, tx: Tx, i: string, id: string, operator: string)
    requires Inv(w)
    ensures var p, r := TrimSpace(id), LinkInvoiceToProject(w, tx, i, id, operator);
            && (r.Ok? <==> MayLink(w, tx, i, p, operator))
            && (r.Ok? ==>
                  r.value == Relinked(w, i, w.invoices[i].(projectId := p), ProjectEvent(p, tx.id, LinkInvoice, operator, "")))
  {
    hide Inv, TrimSpace, IsMember, SameBusiness, SameOwner, EnsureUnclaimed, AddsOneEvent, SameBooks;
    var p := TrimSpace(id);
    if i in w.invoices { StoredUnderOwnId(w, i); }
    if i in w.invoices && w.invoices[i].projectId == "" { UnlinkedIsUnclaimed(w, i); }
    if p in w.projects && i in w.invoices { SoundOwner(w, p, w.invoices[i]); }
  }

  predicate MayUnlink(w: World, tx: Tx, i: string, operator: string) {
    && i in w.invoices && !w.invoices[i].status.Voided? && w.invoices[i].projectId in w.projects && AllWithdrawn(w, i)
    && var p := w.projects[w.invoices[i].projectId];
       !p.status.Archived? && IsMember(w, tx, p, TrimSpace(operator)) && SameOwner(w.invoices[i], p)
  }

  lemma LinkTrimmed(w: World, i: string)
    requires Inv(w) && i in w.invoices
    ensures TrimSpace(w.invoices[i].projectId) == w.invoices[i].projectId && w.invoices[i].id == i
  {
    hide Inv, TrimSpace;
    UnclaimedSound(w, i);
  }

  lemma NoProjectWithoutName(w: World)
    requires Inv(w)
    ensures "" !in w.projects
  {
    hide Inv;
    if "" in w.projects { SettlementStatus(w, ""); }
  }

  /** A link is undone by a member before the archive, when every claim on the invoice is withdrawn, and nothing else changes. */
  lemma UnlinkIff(w: World, tx: Tx, i: string, operator: string)
    requires Inv(w)
    ensures var r := UnlinkInvoiceFromProject(w, tx, i, operator);
            && (r.Ok? <==> MayUnlink(w, tx, i, operator))
            && (r.Ok? ==>
                  r.value == Relinked(w, i, w.invoices[i].(projectId := ""),
                                      ProjectEvent(w.invoices[i].projectId, tx.id, UnlinkInvoice, operator, "")))
  {
    hide Inv, TrimSpace, IsMember, SameBusiness, SameOwner, EnsureUnclaimed, AllWithdrawn, AddsOneEvent, SameBooks;
    UnclaimedIff(w, i);
    NoProjectWithoutName(w);
    if i in w.invoices {
      LinkTrimmed(w, i);
      if w.invoices[i].projectId in w.projects { SoundOwner(w, w.invoices[i].projectId, w.invoices[i]); }
    }
  }

  // ----- transfers -----

  /** The holder, acting for the MSP and the organization that hold the invoice. */
  predicate HolderActs(w: World, tx: Tx, invoice: Invoice, name: string) {
    && invoice.holder == name && tx.msp == invoice.holderMsp && ActiveUser(w, tx, name, tx.msp, HANDLERS)
    && (invoice.holderOrganizationId == "" || Home(w, name) == "" || Home(w, name) == invoice.holderOrganizationId)
  }

  /** A registered, active holder of one of the two MSPs. */
  predicate IsHolder(w: World, name: string, msp: string) {
    && name in w.users && w.users[name].active && w.users[name].msp == msp && w.users[name].role.Holder?
    && (msp == "Org1MSP" || msp == "Org2MSP")
  }

  function HandedTo(invoice: Invoice, name: string, msp: string, org: string): Invoice {
    invoice.(holder := name, holderMsp := msp, holderOrganizationId := org, status := InCirculation)
  }

  lemma HandlerHasHome(w: World, tx: Tx, name: string, msp: string)
    requires ActiveUser(w, tx, name, msp, HANDLERS)
    ensures UserOrganization(w, name) == Ok(Home(w, name))
  {
    hide TrimSpace, Bears;
    RoleIff(w, name, msp, HANDLERS);
    var role :| role in HANDLERS && Bears(w, name, msp, role);
    BearerHasHome(w, name, msp, role);
  }

  predicate MayTransfer(w: World, tx: Tx, i: string, to: string, toMsp: string, operator: string) {
    && i in w.invoices && !w.invoices[i].status.Voided? && tx.msp != ""
    && to != "" && to != operator && IsHolder(w, to, toMsp) && HolderActs(w, tx, w.invoices[i], operator)
  }

  /** A direct transfer is by the holder to another registered holder; the invoice is in circulation in the new hands, one flow tells
      it, and nothing else changes. */
  lemma TransferIff(w: World, tx: Tx, i: string, rawTo: string, rawToMsp: string, rawOperator: string)
    ensures var to, toMsp, operator := TrimSpace(rawTo), TrimSpace(rawToMsp), TrimSpace(rawOperator);
            var r := TransferInvoice(w, tx, i, rawTo, rawToMsp, rawOperator);
            && (r.Ok? <==> MayTransfer(w, tx, i, to, toMsp, operator))
            && (r.Ok? ==>
                  r.value == Kept(w, i, HandedTo(w.invoices[i], to, toMsp, w.users[to].organizationId),
                                  InvoiceFlow(i, tx.id, Transfer, operator, to, tx.msp)))
  {
    hide TrimSpace, AddsOneFlow, SameBooks, MovesInvoice;
    var to, operator := TrimSpace(rawTo), TrimSpace(rawOperator);
    assert TrimSpace(to) == to;
    assert ReadUser(w, to) == if to in w.users then Some(w.users[to]) else None;
    assert to in w.users ==> UserOrganization(w, to) == Ok(w.users[to].organizationId);
    hide ActiveUser, UserOrganization, ReadUser, Home;
    if ActiveUser(w, tx, operator, tx.msp, HANDLERS) { HandlerHasHome(w, tx, operator, tx.msp); }
  }

  /** A request and a flow are put, and nothing else. */
  function Requests(w: World, i: string, t: InvoiceTransfer, f: InvoiceFlow): World {
    w.(transfers := w.transfers[i := t], flows := w.flows[(f.invoiceId, f.txId) := f], flowLog := w.flowLog + [f])
  }

  /** What a request that is admitted does. */
  lemma OfferStores(w: World, tx: Tx, i: string, to: string, toMsp: string, operator: string)
    requires RequestInvoiceTransfer(w, tx, i, to, toMsp, operator).Ok?
    ensures RequestInvoiceTransfer(w, tx, i, to, toMsp, operator).value ==
            Requests(w, i, InvoiceTransfer(i, TrimSpace(operator), TrimSpace(to), TrimSpace(toMsp), TransferPending),
                     InvoiceFlow(i, tx.id, TransferRequested, TrimSpace(operator), TrimSpace(to), tx.msp))
  {
    hide TrimSpace, ActiveUser, RegisteredRole, TransferIsPending, AddsOneFlow, SameBooks;
  }

  /** The request that is open under the trimmed id. */
  predicate OpenFor(w: World, i: string, recipient: string) {
    && TrimSpace(i) in w.transfers && w.transfers[TrimSpace(i)].status.TransferPending? && w.transfers[TrimSpace(i)].to == recipient
  }

  /** The chosen recipient, who may have invoices. */
  predicate MayReject(w: World, tx: Tx, i: string, recipient: string) {
    OpenFor(w, i, recipient) && ActiveUser(w, tx, recipient, w.transfers[TrimSpace(i)].toMsp, HANDLERS)
  }

  /** An acceptance is by the chosen recipient, while the requester still holds the valid invoice; it hands the invoice over, closes the
      request, adds one flow, and does nothing else. */
  lemma AcceptanceIff(w: World, tx: Tx, i: string, rawRecipient: string)
    requires Inv(w)
    ensures var u, r := TrimSpace(rawRecipient), RespondInvoiceTransfer(w, tx, i, Approve, rawRecipient);
            && (r.Ok? <==>
                  MayReject(w, tx, i, u) && i in w.invoices && !w.invoices[i].status.Voided?
                  && w.invoices[i].holder == w.transfers[TrimSpace(i)].from)
            && (r.Ok? ==>
                  var t := w.transfers[TrimSpace(i)];
                  var f := InvoiceFlow(i, tx.id, TransferAcceptance, t.from, u, t.toMsp);
                  r.value == Kept(w, i, HandedTo(w.invoices[i], u, t.toMsp, Home(w, u)), f)
                             .(transfers := w.transfers[i := t.(status := TransferAccepted)]))
    ensures RespondInvoiceTransfer(w, tx, i, Unrecognised, rawRecipient).Refused?
  {
    hide Inv, TrimSpace, ActiveUser, UserOrganization, Home, AddsOneFlow, SameBooks, AcceptsTransfer;
    var u := TrimSpace(rawRecipient);
    if OpenFor(w, i, u) && ActiveUser(w, tx, u, w.transfers[TrimSpace(i)].toMsp, HANDLERS) {
      HandlerHasHome(w, tx, u, w.transfers[TrimSpace(i)].toMsp);
    }
  }

  /** A rejection is by the chosen recipient, whoever holds the invoice; it closes the request under the id as spelled, adds one flow, and
      does nothing else. */
  lemma RejectionIff(w: World, tx: Tx, i: string, rawRecipient: string)
    ensures var u, r := TrimSpace(rawRecipient), RespondInvoiceTransfer(w, tx, i, Decline, rawRecipient);
            && (r.Ok? <==> MayReject(w, tx, i, u))
            && (r.Ok? ==>
                  var t := w.transfers[TrimSpace(i)];
                  r.value == Requests(w, i, t.(status := TransferRejected),
                                      InvoiceFlow(i, tx.id, TransferRejection, t.from, t.to, t.toMsp)))
  {
    hide TrimSpace, ActiveUser, UserOrganization, AddsOneFlow, SameBooks, AcceptsTransfer;
  }

  predicate MayCancel(w: World, i: string, operator: string) {
    && TrimSpace(i) in w.transfers && w.transfers[TrimSpace(i)].status.TransferPending?
    && w.transfers[TrimSpace(i)].from == TrimSpace(operator) && i in w.invoices && w.invoices[i].holder == operator
  }

  /** A cancellation is by the requester, who still holds the invoice; it closes the request, adds one flow, and does nothing else. */
  lemma CancellationIff(w: World, tx: Tx, i: string, operator: string)
    ensures var r := CancelInvoiceTransfer(w, tx, i, operator);
            && (r.Ok? <==> MayCancel(w, i, operator))
            && (r.Ok? ==>
                  var t := w.transfers[TrimSpace(i)];
                  r.value == Requests(w, i, t.(status := TransferCancelled),
                                      InvoiceFlow(i, tx.id, TransferCancellation, t.from, t.to, w.invoices[i].holderMsp)))
  {
    hide TrimSpace, AddsOneFlow, SameBooks;
  }

  // ----- voiding -----

  /** An active issuer of the MSP that issued the invoice, of its organization where both are known. */
  predicate IssuerOfRecord(w: World, tx: Tx, invoice: Invoice, name: string) {
    && tx.msp == invoice.issuerMsp && Bears(w, name, tx.msp, Issuer)
    && (invoice.issuerOrganizationId == "" || Home(w, name) == "" || Home(w, name) == invoice.issuerOrganizationId)
  }

  lemma IssuerChecks(w: World, tx: Tx, invoice: Invoice, name: string)
    requires TrimSpace(name) == name
    ensures IssuerOfRecord(w, tx, invoice, name) <==>
            && tx.msp == invoice.issuerMsp && ActiveUser(w, tx, name, tx.msp, {Issuer}) && UserOrganization(w, name).Ok?
            && !Clash(invoice.issuerOrganizationId, UserOrganization(w, name).value)
    ensures ActiveUser(w, tx, name, tx.msp, {Issuer}) ==> UserOrganization(w, name).Ok?
  {
    hide TrimSpace, Bears, RegisteredRole, UserOrganization, Home;
    OneRoleIff(w, name, tx.msp, Issuer);
    if Bears(w, name, tx.msp, Issuer) { BearerHasHome(w, name, tx.msp, Issuer); }
  }

  predicate MayVoid(w: World, tx: Tx, i: string, operator: string) {
    && i in w.invoices && !w.invoices[i].status.Voided? && tx.msp != ""
    && IssuerOfRecord(w, tx, w.invoices[i], operator) && AllWithdrawn(w, i)
  }

  /** An invoice is voided directly by an issuer of its own, when it is valid and every claim on it withdrawn. It keeps everything but its
      status, one flow tells it, and nothing else changes. */
  lemma VoidIff(w: World, tx: Tx, i: string, reasonOk: bool, rawOperator: string)
    requires Inv(w)
    ensures var u, r := TrimSpace(rawOperator), VoidInvoice(w, tx, i, reasonOk, rawOperator);
            && (r.Ok? <==> reasonOk && MayVoid(w, tx, i, u))
            && (r.Ok? ==>
                  r.value == Kept(w, i, w.invoices[i].(status := Voided),
                                  InvoiceFlow(i, tx.id, Void, w.invoices[i].holder, "VOIDED", tx.msp)))
  {
    hide Inv, TrimSpace, ActiveUser, UserOrganization, IssuerOfRecord, EnsureUnclaimed, AllWithdrawn, Clash, AddsOneFlow, SameBooks,
         MovesInvoice;
    var u := TrimSpace(rawOperator);
    assert TrimSpace(u) == u;
    UnclaimedIff(w, i);
    if i in w.invoices { IssuerChecks(w, tx, w.invoices[i], u); }
  }

  /** A void request and a flow are put, and nothing else. */
  function Pleads(w: World, i: string, v: VoidRequest, f: InvoiceFlow): World {
    w.(voidRequests := w.voidRequests[i := v], flows := w.flows[(f.invoiceId, f.txId) := f], flowLog := w.flowLog + [f])
  }

  /** The record under the id, or a new one. */
  function Plea(w: World, i: string, applicant: string): VoidRequest {
    if i in w.voidRequests then w.voidRequests[i].(applicant := applicant, status := VoidPending) else VoidRequest(i, applicant, VoidPending)
  }

  predicate MayPlead(w: World, tx: Tx, i: string, applicant: string) {
    && i in w.invoices && applicant != "" && !w.invoices[i].status.Voided? && AllWithdrawn(w, i)
    && w.invoices[i].projectId in w.projects && IsMember(w, tx, w.projects[w.invoices[i].projectId], applicant)
    && !(i in w.voidRequests && w.voidRequests[i].status.VoidPending?)
  }

  /** A void request is made by a member of the linked project, for a valid invoice on which every claim is withdrawn, while none is
      open. It is stored with its flow, and nothing else changes. */
  lemma PleaIff(w: World, tx: Tx, i: string, reasonOk: bool, rawApplicant: string)
    requires Inv(w)
    ensures var u, r := TrimSpace(rawApplicant), RequestInvoiceVoid(w, tx, i, reasonOk, rawApplicant);
            && (r.Ok? <==> reasonOk && MayPlead(w, tx, i, u))
            && (r.Ok? ==> r.value == Pleads(w, i, Plea(w, i, u), InvoiceFlow(i, tx.id, VoidRequested, u, "ISSUER_REVIEW", tx.msp)))
  {
    hide Inv, TrimSpace, IsMember, EnsureUnclaimed, AllWithdrawn, AddsOneFlow, SameBooks;
    UnclaimedIff(w, i);
    NoProjectWithoutName(w);
    if i in w.invoices {
      LinkTrimmed(w, i);
      StoredIdIsTrimmed(w, i);
    }
  }

  lemma StoredIdIsTrimmed(w: World, i: string)
    requires Inv(w) && i in w.invoices
    ensures TrimSpace(i) == i
  {
    hide Inv, TrimSpace;
    UnclaimedSound(w, i);
  }

  /** What a decision on a void request that is admitted does: a rejection closes the request; an approval also voids the invoice and
      leaves everything else of it as it is. Each adds one flow. */
  lemma VoidDecisionStores(w: World, tx: Tx, i: string, decision: Decision, ok: bool, rawReviewer: string)
    requires Inv(w) && ReviewInvoiceVoid(w, tx, i, decision, ok, rawReviewer).Ok?
    ensures i in w.voidRequests && i in w.invoices
    ensures var r, u, v := ReviewInvoiceVoid(w, tx, i, decision, ok, rawReviewer), TrimSpace(rawReviewer), w.voidRequests[i];
            r.value ==
            if decision.Decline? then
              Pleads(w, i, v.(status := VoidRejected), InvoiceFlow(i, tx.id, VoidRejection, u, v.applicant, tx.msp))
            else
              Kept(w, i, w.invoices[i].(status := Voided), InvoiceFlow(i, tx.id, Void, w.invoices[i].holder, "VOIDED", tx.msp))
              .(voidRequests := w.voidRequests[i := v.(status := VoidApproved)])
  {
    hide Inv, TrimSpace, ActiveUser, UserOrganization, EnsureUnclaimed, Clash, AddsOneFlow, SameBooks, MovesInvoice;
    if i in w.invoices { StoredIdIsTrimmed(w, i); }
  }
}
