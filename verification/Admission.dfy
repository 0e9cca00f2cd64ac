/** When the calls that move money are admitted in a sound ledger, and so in every reachable one, and what exactly they then
    do, however the id is spelled: the record is read under the trimmed id and a claim is written back under the id as given.
    The refusals for a corrupted ledger and the int64 wrap-around drop out of these statements. */
module Admission {
  import opened Basics
  import opened LedgerTypes
  import opened LedgerRules
  import opened Balances
  import opened Backing
  import opened Histories
  import opened LedgerInvariant
  import opened LedgerSteps
  import opened LedgerTheorems

  /** Nothing but projects, claims, the guard and the event store changes. */
  predicate SameDirectory(w: World, w': World) {
    w' == w.(projects := w'.projects, claims := w'.claims, guard := w'.guard, events := w'.events, eventLog := w'.eventLog)
  }

  /** One event is added, under its own key. */
  predicate Tells(w: World, w': World, e: ProjectEvent) {
    w'.eventLog == w.eventLog + [e] && w'.events == w.events[(e.projectId, e.txId) := e]
  }

  function ProjectOf(w: World, r: string): string { if r in w.claims then w.claims[r].projectId else "" }

  /** The event about a claim, which names it as the caller spelled it; that of a judgement names it as it is stored. */
  function About(w: World, tx: Tx, id: string, kind: EventKind, actor: string): ProjectEvent {
    ProjectEvent(ProjectOf(w, TrimSpace(id)), tx.id, kind, actor, id)
  }

  function Judged(w: World, tx: Tx, id: string, kind: EventKind, reviewer: string): ProjectEvent {
    ProjectEvent(ProjectOf(w, TrimSpace(id)), tx.id, kind, TrimSpace(reviewer), TrimSpace(id))
  }

  /** The claim is stored, and its project too. */
  predicate HasProject(w: World, r: string) { r in w.claims && w.claims[r].projectId in w.projects }

  // ----- approval -----

  predicate MayApprove(w: World, tx: Tx, r: string, reviewer: string) {
    && HasProject(w, r) && w.claims[r].status.Pending? && TrimSpace(reviewer) != ""
    && var p := w.projects[w.claims[r].projectId];
       IsManager(w, tx, p, TrimSpace(reviewer), ProjectReviewer) && w.claims[r].amount <= p.available
  }

  /** The amount is frozen, in exact arithmetic, and nothing else changes. */
  predicate Approves(w: World, w': World, id: string) {
    var r := TrimSpace(id);
    && HasProject(w, r) && SameDirectory(w, w') && w'.guard == w.guard
    && var c, p := w.claims[r], w.projects[w.claims[r].projectId];
       && w'.claims == w.claims[id := c.(status := Reserved)]
       && w'.projects == w.projects[c.projectId := p.(available := p.available - c.amount, reserved := p.reserved + c.amount)]
  }

  /** An approval asks for a pending claim, a reviewer in scope and enough available money, and for nothing else. */
  lemma ApprovalIff(w: World, tx: Tx, id: string, opinionOk: bool, reviewer: string)
    requires Inv(w)
    ensures var result := ReviewReimbursement(w, tx, id, Approve, opinionOk, reviewer);
            && (result.Ok? <==> opinionOk && MayApprove(w, tx, TrimSpace(id), reviewer))
            && (result.Ok? ==>
                  && Approves(w, result.value, id)
                  && Tells(w, result.value, Judged(w, tx, id, ReimbursementApprove, reviewer)))
  {
    hide Inv, AddsOneEvent, MovesClaim, RestatesClaim, IsManager, TrimSpace;
    if TrimSpace(id) in w.claims { SoundClaim(w, TrimSpace(id)); }
  }

  // ----- return -----

  predicate MayReturn(w: World, tx: Tx, r: string, reviewer: string) {
    && HasProject(w, r) && w.claims[r].status.Pending? && TrimSpace(reviewer) != ""
    && IsManager(w, tx, w.projects[w.claims[r].projectId], TrimSpace(reviewer), ProjectReviewer)
  }

  /** The claim is sent back to its applicant; no money moves, and nothing else changes. */
  predicate Returns(w: World, w': World, id: string) {
    var r := TrimSpace(id);
    && HasProject(w, r) && SameDirectory(w, w') && w'.guard == w.guard && w'.projects == w.projects
    && w'.claims == w.claims[id := w.claims[r].(status := Revision)]
  }

  /** A return asks for what an approval asks for, but for the money. A decision that is neither word is never accepted. */
  lemma ReturnIff(w: World, tx: Tx, id: string, opinionOk: bool, reviewer: string)
    requires Inv(w)
    ensures var result := ReviewReimbursement(w, tx, id, Decline, opinionOk, reviewer);
            && (result.Ok? <==> opinionOk && MayReturn(w, tx, TrimSpace(id), reviewer))
            && (result.Ok? ==>
                  && Returns(w, result.value, id)
                  && Tells(w, result.value, Judged(w, tx, id, ReimbursementRevision, reviewer)))
    ensures ReviewReimbursement(w, tx, id, Unrecognised, opinionOk, reviewer).Refused?
  {
    hide Inv, AddsOneEvent, MovesClaim, RestatesClaim, IsManager, TrimSpace, Wrap64;
    if TrimSpace(id) in w.claims { SoundClaim(w, TrimSpace(id)); }
  }

  // ----- resubmission -----

  predicate MayResubmit(w: World, tx: Tx, r: string, applicant: string) {
    && HasProject(w, r) && w.claims[r].status.Revision?
    && IsMember(w, tx, w.projects[w.claims[r].projectId], applicant)
  }

  /** The claim is pending again, and nothing else changes. */
  predicate Resubmits(w: World, w': World, id: string) {
    var r := TrimSpace(id);
    && HasProject(w, r) && SameDirectory(w, w') && w'.guard == w.guard && w'.projects == w.projects
    && w'.claims == w.claims[id := w.claims[r].(status := Pending)]
  }

  /** A resubmission asks for a returned claim, a member of its project and evidence. */
  lemma ResubmissionIff(w: World, tx: Tx, id: string, evidenceOk: bool, applicant: string)
    requires Inv(w)
    ensures var result := LedgerRules.ResubmitReimbursement(w, tx, id, evidenceOk, applicant);
            && (result.Ok? <==> evidenceOk && MayResubmit(w, tx, TrimSpace(id), applicant))
            && (result.Ok? ==>
                  && Resubmits(w, result.value, id)
                  && Tells(w, result.value, About(w, tx, id, EventKind.ResubmitReimbursement, applicant)))
  {
    hide Inv, AddsOneEvent, MovesClaim, RestatesClaim, IsMember, TrimSpace;
    if TrimSpace(id) in w.claims { SoundClaim(w, TrimSpace(id)); }
  }

  // ----- a new claim -----

  /** The invoice is valid, linked to the project, and every claim on it has been withdrawn. */
  predicate FreeInvoice(w: World, i: string, p: string) {
    && i in w.invoices && !w.invoices[i].status.Voided? && w.invoices[i].projectId == p
    && forall r :: r in w.claims && w.claims[r].invoiceId == i ==> w.claims[r].status.Withdrawn?
  }

  predicate MayClaim(w: World, tx: Tx, r: string, p: string, i: string, applicant: string) {
    && r != "" && (forall c :: c in r ==> c != '#' && c != '\0') && r !in w.claims
    && applicant != "" && p in w.projects && w.projects[p].status.FinancialSettlement?
    && IsMember(w, tx, w.projects[p], applicant) && FreeInvoice(w, i, p)
  }

  /** The claim is stored as pending, for the full total of the invoice, and the guard entry of the invoice names it; nothing else
      changes. */
  predicate Claims(w: World, w': World, r: string, p: string, i: string, applicant: string) {
    && i in w.invoices && SameDirectory(w, w') && w'.projects == w.projects
    && w'.claims == w.claims[r := Claim(r, p, i, applicant, w.invoices[i].total, Pending)]
    && w'.guard == w.guard[i := r]
  }

  lemma FreeInGuard(w: World, i: string)
    requires Inv(w)
    ensures i !in w.guard <==> forall r :: r in w.claims && w.claims[r].invoiceId == i ==> w.claims[r].status.Withdrawn?
  {
    hide Inv;
    GuardFacts(w);
    if i in w.guard { assert GuardEntryOk(w.claims, i, w.guard[i]); }
  }

  lemma TotalInRange(w: World, i: string)
    requires Inv(w) && i in w.invoices
    ensures 0 < w.invoices[i].total <= MAX_MONEY_CENTS && i != ""
  {
    hide BooksOk, NumbersOk, HistoryOk, CustodyOk, EventStoreOk, FlowStoreOk, ApplicantsOk, OrganizationsOk;
    assert InvoiceKeyed(i, w.invoices[i]);
  }

  lemma SettlementStatus(w: World, p: string)
    requires Inv(w) && p in w.projects
    ensures InSettlement(w.projects[p].status) <==> w.projects[p].status.FinancialSettlement?
    ensures p != "" && w.projects[p].id == p
  {
    hide Inv, SumOf;
    SoundProject(w, p);
  }

  /** The checks of CreateReimbursement, as they stand in the source. */
  predicate ClaimPasses(w: World, tx: Tx, r: string, p: string, i: string, u: string, evidenceOk: bool) {
    && r != "" && p != "" && i != "" && u != "" && KeySafe(r) && r !in w.claims
    && p in w.projects && InSettlement(w.projects[p].status) && IsMember(w, tx, w.projects[p], u)
    && i in w.invoices && !w.invoices[i].status.Voided? && w.invoices[i].projectId == p && i !in w.guard
    && evidenceOk && 0 < w.invoices[i].total <= MAX_MONEY_CENTS
  }

  lemma ClaimRequires(w: World, tx: Tx, rawId: string, rawProject: string, rawInvoice: string, rawApplicant: string, evidenceOk: bool)
    requires CreateReimbursement(w, tx, rawId, rawProject, rawInvoice, rawApplicant, evidenceOk).Ok?
    ensures ClaimPasses(w, tx, TrimSpace(rawId), TrimSpace(rawProject), TrimSpace(rawInvoice), TrimSpace(rawApplicant), evidenceOk)
  {
    hide AddsOneEvent, MovesClaim, IsMember, InSettlement, TrimSpace, KeySafe;
    assert TrimSpace(TrimSpace(rawProject)) == TrimSpace(rawProject);
  }

  lemma ClaimSuffices(w: World, tx: Tx, rawId: string, rawProject: string, rawInvoice: string, rawApplicant: string, evidenceOk: bool)
    requires ClaimPasses(w, tx, TrimSpace(rawId), TrimSpace(rawProject), TrimSpace(rawInvoice), TrimSpace(rawApplicant), evidenceOk)
    ensures CreateReimbursement(w, tx, rawId, rawProject, rawInvoice, rawApplicant, evidenceOk).Ok?
  {
    hide AddsOneEvent, MovesClaim, IsMember, InSettlement, TrimSpace, KeySafe;
    assert TrimSpace(TrimSpace(rawProject)) == TrimSpace(rawProject);
  }

  lemma ClaimWrites(w: World, tx: Tx, rawId: string, rawProject: string, rawInvoice: string, rawApplicant: string, evidenceOk: bool)
    requires CreateReimbursement(w, tx, rawId, rawProject, rawInvoice, rawApplicant, evidenceOk).Ok?
    ensures var r, p, i, u := TrimSpace(rawId), TrimSpace(rawProject), TrimSpace(rawInvoice), TrimSpace(rawApplicant);
            var w' := CreateReimbursement(w, tx, rawId, rawProject, rawInvoice, rawApplicant, evidenceOk).value;
            Claims(w, w', r, p, i, u) && Tells(w, w', ProjectEvent(p, tx.id, SubmitReimbursement, u, r))
  {
    hide AddsOneEvent, MovesClaim, IsMember, InSettlement, TrimSpace, KeySafe, ReadProject;
  }

  /** A claim asks for a new plain id, a project in settlement, a member of it, a free invoice of it, and evidence. */
  lemma ClaimIff(w: World, tx: Tx, rawId: string, rawProject: string, rawInvoice: string, rawApplicant: string, evidenceOk: bool)
    requires Inv(w)
    ensures var r, p, i, u := TrimSpace(rawId), TrimSpace(rawProject), TrimSpace(rawInvoice), TrimSpace(rawApplicant);
            var result := CreateReimbursement(w, tx, rawId, rawProject, rawInvoice, rawApplicant, evidenceOk);
            && (result.Ok? <==> evidenceOk && MayClaim(w, tx, r, p, i, u))
            && (result.Ok? ==>
                  && Claims(w, result.value, r, p, i, u)
                  && Tells(w, result.value, ProjectEvent(p, tx.id, SubmitReimbursement, u, r)))
  {
    hide Inv, IsMember, InSettlement, TrimSpace, CreateReimbursement, Claims, Tells;
    var p, i := TrimSpace(rawProject), TrimSpace(rawInvoice);
    if ClaimPasses(w, tx, TrimSpace(rawId), p, i, TrimSpace(rawApplicant), evidenceOk) {
      ClaimSuffices(w, tx, rawId, rawProject, rawInvoice, rawApplicant, evidenceOk);
    }
    if CreateReimbursement(w, tx, rawId, rawProject, rawInvoice, rawApplicant, evidenceOk).Ok? {
      ClaimRequires(w, tx, rawId, rawProject, rawInvoice, rawApplicant, evidenceOk);
      ClaimWrites(w, tx, rawId, rawProject, rawInvoice, rawApplicant, evidenceOk);
    }
    FreeInGuard(w, i);
    if p in w.projects { SettlementStatus(w, p); }
    if i in w.invoices { TotalInRange(w, i); }
  }

  // ----- payment -----

  predicate MayPay(w: World, tx: Tx, r: string, operator: string) {
    && HasProject(w, r) && w.claims[r].status.Reserved? && TrimSpace(operator) != ""
    && IsManager(w, tx, w.projects[w.claims[r].projectId], TrimSpace(operator), FinanceAdmin)
  }

  /** The amount moves from frozen to paid, in exact arithmetic, and nothing else changes. */
  predicate Pays(w: World, w': World, id: string) {
    var r := TrimSpace(id);
    && HasProject(w, r) && SameDirectory(w, w') && w'.guard == w.guard
    && var c, p := w.claims[r], w.projects[w.claims[r].projectId];
       && w'.claims == w.claims[id := c.(status := Paid)]
       && w'.projects == w.projects[c.projectId := p.(reserved := p.reserved - c.amount, paid := p.paid + c.amount)]
  }

  /** A payment asks for an approved claim and a finance administrator in scope, and for nothing else. */
  lemma PaymentIff(w: World, tx: Tx, id: string, operator: string)
    requires Inv(w)
    ensures var result := LedgerRules.PayReimbursement(w, tx, id, operator);
            && (result.Ok? <==> MayPay(w, tx, TrimSpace(id), operator))
            && (result.Ok? ==>
                  && Pays(w, result.value, id)
                  && Tells(w, result.value, About(w, tx, id, EventKind.PayReimbursement, TrimSpace(operator))))
  {
    hide Inv, AddsOneEvent, MovesClaim, RestatesClaim, IsManager, TrimSpace;
    if TrimSpace(id) in w.claims { SoundClaim(w, TrimSpace(id)); }
  }

  // ----- withdrawal -----

  predicate MayWithdraw(w: World, tx: Tx, r: string, applicant: string) {
    && HasProject(w, r) && w.claims[r].status.Open()
    && IsMember(w, tx, w.projects[w.claims[r].projectId], applicant)
  }

  /** The invoice is free again, what was frozen is available again, and nothing else changes. */
  predicate Withdraws(w: World, w': World, id: string) {
    var r := TrimSpace(id);
    && HasProject(w, r) && SameDirectory(w, w')
    && var c, p := w.claims[r], w.projects[w.claims[r].projectId];
       && w'.claims == w.claims[id := c.(status := Withdrawn)]
       && w'.guard == w.guard - {c.invoiceId}
       && w'.projects == w.projects[c.projectId := Unfrozen(p, c)]
  }

  /** A withdrawal asks for an open claim and a member of its project, and for nothing else. */
  lemma WithdrawalIff(w: World, tx: Tx, id: string, applicant: string)
    requires Inv(w)
    ensures var result := LedgerRules.WithdrawReimbursement(w, tx, id, applicant);
            && (result.Ok? <==> MayWithdraw(w, tx, TrimSpace(id), applicant))
            && (result.Ok? ==>
                  && Withdraws(w, result.value, id)
                  && Tells(w, result.value, About(w, tx, id, EventKind.WithdrawReimbursement, applicant)))
  {
    hide Inv, AddsOneEvent, MovesClaim, RestatesClaim, IsMember, TrimSpace, Unfreeze;
    var r := TrimSpace(id);
    if r in w.claims {
      SoundClaim(w, r);
      if w.claims[r].status.Open() { UnfreezeSucceeds(w, r); }
    }
  }

  // ----- settlement -----

  /** The two tests of the settlement together see every open claim: the scan looks at pending and returned ones only,
      and the reserved balance is zero exactly when no claim is frozen. */
  lemma NothingOpenIff(w: World, p: string)
    requires Inv(w) && p in w.projects
    ensures w.projects[p].reserved == 0 && (forall r :: r in w.claims ==> !AwaitsAction(w, p, r)) <==>
            forall r :: r in w.claims && w.claims[r].projectId == p ==> !w.claims[r].status.Open()
    ensures 0 <= w.projects[p].available <= w.projects[p].budget
  {
    hide BackingOk, NumbersOk, HistoryOk, CustodyOk, EventStoreOk, FlowStoreOk, ApplicantsOk, OrganizationsOk, SumOf;
    assert ProjectSound(w.claims, p, w.projects[p]);
    BalancesBounded(w.projects, w.claims, p);
    if w.projects[p].reserved == 0 && forall r :: r in w.claims ==> !AwaitsAction(w, p, r) {
      NothingOpen(w, p);
    }
    if forall r :: r in w.claims && w.claims[r].projectId == p ==> !w.claims[r].status.Open() {
      SumAbsent(w.claims, p, Reserved);
    }
  }

  ghost predicate MaySettle(w: World, tx: Tx, p: string, operator: string) {
    && p in w.projects && w.projects[p].status.FinancialSettlement?
    && IsManager(w, tx, w.projects[p], TrimSpace(operator), FinanceAdmin)
    && forall r :: r in w.claims && w.claims[r].projectId == p ==> !w.claims[r].status.Open()
  }

  /** The project is archived, the rest of the budget recovered, and nothing else changes. */
  predicate Archives(w: World, w': World, p: string) {
    && p in w.projects && SameDirectory(w, w') && w'.claims == w.claims && w'.guard == w.guard
    && var project := w.projects[p];
       w'.projects == w.projects[p :=
         project.(status := Archived, available := 0, recovered := project.budget - project.paid)]
  }

  /** What is sound in the record of a project, as far as its settlement needs it. */
  predicate InSums(p: Project, id: string) {
    && p.id == id && !p.status.ClosureApproved?
    && (p.status.FinancialSettlement? ==>
          p.recovered == 0 && 0 <= p.available <= MAX_MONEY_CENTS && p.available + p.reserved + p.paid == p.budget)
  }

  lemma SoundSums(w: World, p: string)
    requires Inv(w) && p in w.projects
    ensures InSums(w.projects[p], p)
  {
    hide Inv, SumOf;
    SoundProject(w, p);
    NothingOpenIff(w, p);
  }

  lemma FinalizeReads(w: World, tx: Tx, id: string, operator: string)
    requires TrimSpace(id) in w.projects && InSums(w.projects[TrimSpace(id)], TrimSpace(id))
    ensures var p, result := TrimSpace(id), FinalizeProjectSettlement(w, tx, id, operator);
            && (result.Ok? <==>
                  && w.projects[p].status.FinancialSettlement? && IsManager(w, tx, w.projects[p], TrimSpace(operator), FinanceAdmin)
                  && w.projects[p].reserved == 0 && NoneAwaits(w, p))
            && (result.Ok? ==>
                  && Archives(w, result.value, p)
                  && Tells(w, result.value, ProjectEvent(p, tx.id, FinalizeSettlement, operator, "")))
  {
    hide AddsOneEvent, IsManager, TrimSpace, NoneAwaits;
  }

  /** Settlement is finalized exactly when no claim on the project is open: the reserved balance and the scan, which
      looks at pending and returned claims only, together see all of them. */
  lemma FinalizeIff(w: World, tx: Tx, id: string, operator: string)
    requires Inv(w)
    ensures var result := FinalizeProjectSettlement(w, tx, id, operator);
            && (result.Ok? <==> MaySettle(w, tx, TrimSpace(id), operator))
            && (result.Ok? ==>
                  && Archives(w, result.value, TrimSpace(id))
                  && Tells(w, result.value, ProjectEvent(TrimSpace(id), tx.id, FinalizeSettlement, operator, "")))
  {
    hide Inv, IsManager, TrimSpace, FinalizeProjectSettlement, Archives, Tells;
    var p := TrimSpace(id);
    if p in w.projects {
      SoundSums(w, p);
      FinalizeReads(w, tx, id, operator);
      NothingOpenIff(w, p);
    } else {
      UnknownIsRefused(w, tx, id, operator);
    }
  }

  lemma UnknownIsRefused(w: World, tx: Tx, id: string, operator: string)
    requires TrimSpace(id) !in w.projects
    ensures FinalizeProjectSettlement(w, tx, id, operator).Refused?
  {
    hide TrimSpace, IsManager, NoneAwaits, AddsOneEvent;
  }
}
