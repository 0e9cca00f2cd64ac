/** Who belongs to what: members to the organization of their project, linked invoices to its business, claims to its
    members. From this, nobody reviews or pays a claim of their own. */
module Membership {
  import opened Basics
  import opened LedgerTypes
  import opened LedgerRules
  import opened LedgerInvariant
  import opened LedgerSteps
  import opened LedgerRuns
  import opened LedgerTheorems
  import opened Duties

  /** u is registered, active, and of the MSP and the organization of project p, in a role that works on projects. */
  predicate MemberSound(w: World, p: string, u: string) {
    && p in w.projects && u in w.users
    && var project, user := w.projects[p], w.users[u];
       && user.active && user.msp == project.applicantMsp && user.organizationId == project.organizationId
       && (user.role.ProjectMember? || user.role.Issuer?)
  }

  /** The invoice was issued under the MSP of its project, and for the same organization where it names one. */
  predicate LinkSound(w: World, invoice: Invoice) {
    invoice.projectId != "" ==>
      && invoice.projectId in w.projects
      && invoice.issuerMsp == w.projects[invoice.projectId].applicantMsp
      && (invoice.issuerOrganizationId == "" || invoice.issuerOrganizationId == w.projects[invoice.projectId].organizationId)
  }

  ghost predicate Ties(w: World) {
    && (forall m :: m in w.members ==> MemberSound(w, m.0, m.1))
    && (forall i :: i in w.invoices ==> LinkSound(w, w.invoices[i]))
    && (forall r :: r in w.claims ==> MemberSound(w, w.claims[r].projectId, w.claims[r].applicant))
  }

  ghost predicate ProjectsInPlace(w: World) { forall p :: p in w.projects ==> w.projects[p].id == p }

  ghost predicate DirectoryKept(w: World, w': World) {
    && (forall u :: u in w.users ==> u in w'.users && w'.users[u] == w.users[u])
    && (forall p :: p in w.projects ==>
          && p in w'.projects && w'.projects[p].applicantMsp == w.projects[p].applicantMsp
          && w'.projects[p].organizationId == w.projects[p].organizationId)
  }

  /** Nothing that ties speak of changes. */
  ghost predicate KeepsTies(w: World, w': World) {
    && DirectoryKept(w, w')
    && w'.members == w.members
    && (forall i :: i in w'.invoices ==>
          && i in w.invoices && w'.invoices[i].projectId == w.invoices[i].projectId
          && w'.invoices[i].issuerMsp == w.invoices[i].issuerMsp
          && w'.invoices[i].issuerOrganizationId == w.invoices[i].issuerOrganizationId)
    && (forall r :: r in w'.claims ==>
          && r in w.claims && w'.claims[r].projectId == w.claims[r].projectId && w'.claims[r].applicant == w.claims[r].applicant)
  }

  lemma MemberStays(w: World, w': World, p: string, u: string)
    requires DirectoryKept(w, w') && MemberSound(w, p, u)
    ensures MemberSound(w', p, u)
  {}

  lemma LinkStays(w: World, w': World, invoice: Invoice)
    requires DirectoryKept(w, w') && LinkSound(w, invoice)
    ensures LinkSound(w', invoice)
  {}

  lemma TiesStay(w: World, w': World)
    requires Ties(w) && KeepsTies(w, w')
    ensures Ties(w')
  {
    hide DirectoryKept, MemberSound;
    forall m | m in w'.members ensures MemberSound(w', m.0, m.1) { MemberStays(w, w', m.0, m.1); }
    forall i | i in w'.invoices ensures LinkSound(w', w'.invoices[i]) {
      LinkStays(w, w', w.invoices[i]);
    }
    forall r | r in w'.claims ensures MemberSound(w', w'.claims[r].projectId, w'.claims[r].applicant) {
      MemberStays(w, w', w.claims[r].projectId, w.claims[r].applicant);
    }
  }

  lemma RecordsInPlace(w: World)
    requires Inv(w)
    ensures ProjectsInPlace(w)
  {
    hide Inv;
    forall p | p in w.projects ensures w.projects[p].id == p { SoundProject(w, p); }
  }

  // ----- calls that leave the ties alone -----

  lemma DirectoryKeepsTies(w: World, w': World)
    requires DirectoryGrows(w, w')
    ensures KeepsTies(w, w')
  {}

  lemma UpdateKeepsTies(w: World, tx: Tx, id: string, textOk: bool, budget: int, applicant: string)
    requires Trimmed(id) && UpdateProject(w, tx, id, textOk, budget, applicant).Ok?
    ensures KeepsTies(w, UpdateProject(w, tx, id, textOk, budget, applicant).value)
  {
    hide AddsOneEvent, AddsOneFlow, MovesProject, MovesClaim, RestatesClaim, MovesInvoice, AcceptsTransfer, SameBooks,
         TrimSpace, IsApplicant;
  }

  lemma SubmitKeepsTies(w: World, tx: Tx, id: string, applicant: string)
    requires Trimmed(id) && SubmitProject(w, tx, id, applicant).Ok?
    ensures KeepsTies(w, SubmitProject(w, tx, id, applicant).value)
  {
    hide AddsOneEvent, AddsOneFlow, MovesProject, MovesClaim, RestatesClaim, MovesInvoice, AcceptsTransfer, SameBooks,
         TrimSpace, IsApplicant;
  }

  lemma ReviewKeepsTies(w: World, tx: Tx, id: string, decision: Decision, ok: bool, reviewer: string)
    requires Trimmed(id) && ReviewProject(w, tx, id, decision, ok, reviewer).Ok?
    ensures KeepsTies(w, ReviewProject(w, tx, id, decision, ok, reviewer).value)
  {
    hide AddsOneEvent, AddsOneFlow, MovesProject, MovesClaim, RestatesClaim, MovesInvoice, AcceptsTransfer, SameBooks,
         TrimSpace, IsManager;
  }

  lemma ClosureKeepsTies(w: World, tx: Tx, id: string, ok: bool, applicant: string)
    requires Trimmed(id) && RequestProjectClosure(w, tx, id, ok, applicant).Ok?
    ensures KeepsTies(w, RequestProjectClosure(w, tx, id, ok, applicant).value)
  {
    hide AddsOneEvent, AddsOneFlow, MovesProject, MovesClaim, RestatesClaim, MovesInvoice, AcceptsTransfer, SameBooks,
         TrimSpace, IsApplicant;
  }

  lemma FundingKeepsTies(w: World, tx: Tx, id: string, decision: Decision, ok: bool, reviewer: string)
    requires Trimmed(id) && ReviewProjectClosure(w, tx, id, decision, ok, reviewer).Ok?
    ensures KeepsTies(w, ReviewProjectClosure(w, tx, id, decision, ok, reviewer).value)
  {
    hide AddsOneEvent, AddsOneFlow, MovesProject, MovesClaim, RestatesClaim, MovesInvoice, AcceptsTransfer, SameBooks,
         TrimSpace, IsManager;
  }

  lemma ProjectPutKeepsTies(w: World, w': World, key: string, p: Project)
    requires w'.users == w.users && w'.members == w.members && w'.invoices == w.invoices && w'.claims == w.claims
    requires key in w.projects && w'.projects == w.projects[key := p]
    requires p.applicantMsp == w.projects[key].applicantMsp && p.organizationId == w.projects[key].organizationId
    ensures KeepsTies(w, w')
  {}

  lemma SettlingKeepsTies(w: World, tx: Tx, id: string, operator: string)
    requires ProjectsInPlace(w) && FinalizeProjectSettlement(w, tx, id, operator).Ok?
    ensures KeepsTies(w, FinalizeProjectSettlement(w, tx, id, operator).value)
  {
    hide AddsOneEvent, TrimSpace, IsManager, AwaitsAction, Wrap64, KeepsTies;
    var w' := FinalizeProjectSettlement(w, tx, id, operator).value;
    var key := TrimSpace(id);
    assert w.projects[key].id == key;
    ProjectPutKeepsTies(w, w', key, w'.projects[key]);
  }

  lemma TransferKeepsTies(w: World, tx: Tx, id: string, to: string, toMsp: string, operator: string)
    requires TransferInvoice(w, tx, id, to, toMsp, operator).Ok?
    ensures KeepsTies(w, TransferInvoice(w, tx, id, to, toMsp, operator).value)
  {
    hide AddsOneEvent, AddsOneFlow, MovesProject, MovesClaim, RestatesClaim, MovesInvoice, AcceptsTransfer, SameBooks,
         TrimSpace, ActiveUser, UserOrganization, BusinessMsp, ReadUser;
  }

  lemma RequestKeepsTies(w: World, tx: Tx, id: string, to: string, toMsp: string, operator: string)
    requires RequestInvoiceTransfer(w, tx, id, to, toMsp, operator).Ok?
    ensures KeepsTies(w, RequestInvoiceTransfer(w, tx, id, to, toMsp, operator).value)
  {
    hide AddsOneEvent, AddsOneFlow, MovesProject, MovesClaim, RestatesClaim, MovesInvoice, AcceptsTransfer, SameBooks,
         TrimSpace, ActiveUser, RegisteredRole, TransferIsPending;
  }

  lemma RespondKeepsTies(w: World, tx: Tx, id: string, decision: Decision, recipient: string)
    requires RespondInvoiceTransfer(w, tx, id, decision, recipient).Ok?
    ensures KeepsTies(w, RespondInvoiceTransfer(w, tx, id, decision, recipient).value)
  {
    hide AddsOneEvent, AddsOneFlow, MovesProject, MovesClaim, RestatesClaim, MovesInvoice, AcceptsTransfer, SameBooks,
         TrimSpace, ActiveUser, UserOrganization, ReadTransfer;
  }

  lemma CancelKeepsTies(w: World, tx: Tx, id: string, operator: string)
    requires CancelInvoiceTransfer(w, tx, id, operator).Ok?
    ensures KeepsTies(w, CancelInvoiceTransfer(w, tx, id, operator).value)
  {
    hide AddsOneEvent, AddsOneFlow, MovesProject, MovesClaim, RestatesClaim, MovesInvoice, AcceptsTransfer, SameBooks,
         TrimSpace;
  }

  lemma VoidKeepsTies(w: World, tx: Tx, id: string, ok: bool, operator: string)
    requires VoidInvoice(w, tx, id, ok, operator).Ok?
    ensures KeepsTies(w, VoidInvoice(w, tx, id, ok, operator).value)
  {
    hide AddsOneEvent, AddsOneFlow, MovesProject, MovesClaim, RestatesClaim, MovesInvoice, AcceptsTransfer, SameBooks,
         TrimSpace, ActiveUser, UserOrganization, EnsureUnclaimed;
  }

  lemma AskVoidKeepsTies(w: World, tx: Tx, id: string, ok: bool, applicant: string)
    requires RequestInvoiceVoid(w, tx, id, ok, applicant).Ok?
    ensures KeepsTies(w, RequestInvoiceVoid(w, tx, id, ok, applicant).value)
  {
    hide AddsOneEvent, AddsOneFlow, MovesProject, MovesClaim, RestatesClaim, MovesInvoice, AcceptsTransfer, SameBooks,
         TrimSpace, IsMember, EnsureUnclaimed, VoidIsPending;
  }

  lemma JudgeVoidKeepsTies(w: World, tx: Tx, id: string, decision: Decision, ok: bool, reviewer: string)
    requires ReviewInvoiceVoid(w, tx, id, decision, ok, reviewer).Ok?
    ensures KeepsTies(w, ReviewInvoiceVoid(w, tx, id, decision, ok, reviewer).value)
  {
    hide AddsOneEvent, AddsOneFlow, MovesProject, MovesClaim, RestatesClaim, MovesInvoice, AcceptsTransfer, SameBooks,
         TrimSpace, ActiveUser, UserOrganization, EnsureUnclaimed;
  }

  lemma ReviewClaimKeepsTies(w: World, tx: Tx, id: string, decision: Decision, ok: bool, reviewer: string)
    requires Trimmed(id) && ProjectsInPlace(w) && ReviewReimbursement(w, tx, id, decision, ok, reviewer).Ok?
    ensures KeepsTies(w, ReviewReimbursement(w, tx, id, decision, ok, reviewer).value)
  {
    hide AddsOneEvent, AddsOneFlow, MovesProject, MovesClaim, RestatesClaim, MovesInvoice, AcceptsTransfer, SameBooks,
         TrimSpace, IsManager, Wrap64;
  }

  lemma ResubmitKeepsTies(w: World, tx: Tx, id: string, ok: bool, applicant: string)
    requires Trimmed(id) && LedgerRules.ResubmitReimbursement(w, tx, id, ok, applicant).Ok?
    ensures KeepsTies(w, LedgerRules.ResubmitReimbursement(w, tx, id, ok, applicant).value)
  {
    hide AddsOneEvent, AddsOneFlow, MovesProject, MovesClaim, RestatesClaim, MovesInvoice, AcceptsTransfer, SameBooks,
         TrimSpace, IsMember;
  }

  lemma WithdrawKeepsTies(w: World, tx: Tx, id: string, applicant: string)
    requires Inv(w) && Trimmed(id) && LedgerRules.WithdrawReimbursement(w, tx, id, applicant).Ok?
    ensures KeepsTies(w, LedgerRules.WithdrawReimbursement(w, tx, id, applicant).value)
  {
    hide Inv, AddsOneEvent, MovesClaim, RestatesClaim, TrimSpace, IsMember, Unfreeze;
    SoundClaim(w, id);
    UnfreezeSucceeds(w, id);
  }

  lemma PayKeepsTies(w: World, tx: Tx, id: string, operator: string)
    requires Trimmed(id) && ProjectsInPlace(w) && LedgerRules.PayReimbursement(w, tx, id, operator).Ok?
    ensures KeepsTies(w, LedgerRules.PayReimbursement(w, tx, id, operator).value)
  {
    hide AddsOneEvent, AddsOneFlow, MovesProject, MovesClaim, RestatesClaim, MovesInvoice, AcceptsTransfer, SameBooks,
         TrimSpace, IsManager, Wrap64;
  }

  // ----- calls that tie -----

  /** A member of a project, by the check of the contract, is one by its records. */
  lemma MemberByRecords(w: World, tx: Tx, p: string, name: string)
    requires Inv(w) && Ties(w) && p in w.projects && IsMember(w, tx, w.projects[p], name)
    ensures MemberSound(w, p, TrimSpace(name))
  {
    hide Inv, TrimSpace, ActiveUser, UserOrganization;
    SoundProject(w, p);
    if !IsApplicant(w, tx, w.projects[p], name) { assert (p, TrimSpace(name)) in w.members; }
  }

  /** Everything is as before but for one more or one changed record, which is sound. */
  ghost predicate TiesOne(w: World, w': World) {
    && DirectoryKept(w, w')
    && (forall m :: m in w'.members ==> m in w.members || MemberSound(w', m.0, m.1))
    && (forall i :: i in w'.invoices ==> (i in w.invoices && w'.invoices[i] == w.invoices[i]) || LinkSound(w', w'.invoices[i]))
    && (forall r :: r in w'.claims ==>
          (r in w.claims && w'.claims[r] == w.claims[r]) || MemberSound(w', w'.claims[r].projectId, w'.claims[r].applicant))
  }

  lemma OneMoreTie(w: World, w': World)
    requires Ties(w) && TiesOne(w, w')
    ensures Ties(w')
  {
    hide DirectoryKept, MemberSound, LinkSound;
    forall m | m in w'.members ensures MemberSound(w', m.0, m.1) {
      if m in w.members { MemberStays(w, w', m.0, m.1); }
    }
    forall i | i in w'.invoices ensures LinkSound(w', w'.invoices[i]) {
      if i in w.invoices { LinkStays(w, w', w.invoices[i]); }
    }
    forall r | r in w'.claims ensures MemberSound(w', w'.claims[r].projectId, w'.claims[r].applicant) {
      if r in w.claims { MemberStays(w, w', w.claims[r].projectId, w.claims[r].applicant); }
    }
  }

  lemma ProjectAndLeaderTie(w: World, w': World, p: string, u: string)
    requires w'.users == w.users && w'.invoices == w.invoices && w'.claims == w.claims
    requires p !in w.projects && p in w'.projects && w'.projects == w.projects[p := w'.projects[p]]
    requires w'.members == w.members[(p, u) := Leader] && MemberSound(w', p, u)
    ensures TiesOne(w, w')
  {
    hide MemberSound, LinkSound;
  }

  lemma CreateProjectTies(w: World, tx: Tx, id: string, ok: bool, budget: int, applicant: string, org: string)
    requires CreateProject(w, tx, id, ok, budget, applicant, org).Ok?
    ensures TiesOne(w, CreateProject(w, tx, id, ok, budget, applicant, org).value)
  {
    hide AddsOneEvent, MovesProject, TrimSpace, KeySafe, MoneyInRange, TiesOne;
    ProjectAndLeaderTie(w, CreateProject(w, tx, id, ok, budget, applicant, org).value, TrimSpace(id), TrimSpace(applicant));
  }

  lemma AddMemberTies(w: World, tx: Tx, id: string, name: string, leader: string)
    requires Inv(w) && Trimmed(id) && AddProjectMember(w, tx, id, name, leader).Ok?
    ensures TiesOne(w, AddProjectMember(w, tx, id, name, leader).value)
  {
    hide Inv, AddsOneEvent, SameBooks, TrimSpace, IsApplicant;
    SoundProject(w, id);
  }

  lemma DraftIsTied(w: World, tx: Tx, form: InvoiceForm)
    requires Inv(w) && DraftInvoice(w, tx, form).Ok?
    ensures LinkSound(w, DraftInvoice(w, tx, form).value)
  {
    hide Inv, TrimSpace, ActiveUser, CheckCorrection, CheckedAddMoney, BusinessMsp, UserOrganization, KeySafe, MoneyInRange, MayIssueFor,
         IsMember;
    var p := TrimSpace(TrimSpace(form.projectId));
    if p in w.projects { SoundProject(w, p); }
  }

  lemma InvoiceTies(w: World, w': World, i: string, invoice: Invoice)
    requires w'.users == w.users && w'.projects == w.projects && w'.members == w.members && w'.claims == w.claims
    requires w'.invoices == w.invoices[i := invoice] && LinkSound(w, invoice)
    ensures TiesOne(w, w')
  {
    hide MemberSound;
  }

  lemma ClaimTies(w: World, w': World, r: string, claim: Claim)
    requires w'.users == w.users && w'.projects == w.projects && w'.members == w.members && w'.invoices == w.invoices
    requires w'.claims == w.claims[r := claim] && MemberSound(w, claim.projectId, claim.applicant)
    ensures TiesOne(w, w')
  {
    hide LinkSound;
  }

  lemma CreateInvoiceTies(w: World, tx: Tx, form: InvoiceForm)
    requires Inv(w) && CreateInvoice(w, tx, form).Ok?
    ensures TiesOne(w, CreateInvoice(w, tx, form).value)
  {
    DraftIsTied(w, tx, form);
    hide Inv, AddsOneFlow, SameBooks, TrimSpace, DraftInvoice, LinkSound, TiesOne;
    var invoice := DraftInvoice(w, tx, form).value;
    InvoiceTies(w, CreateInvoice(w, tx, form).value, invoice.id, invoice);
  }

  lemma LinkTies(w: World, tx: Tx, i: string, p: string, operator: string)
    requires Inv(w) && LinkInvoiceToProject(w, tx, i, p, operator).Ok?
    ensures TiesOne(w, LinkInvoiceToProject(w, tx, i, p, operator).value)
  {
    hide Inv, AddsOneEvent, SameBooks, TrimSpace, IsMember, EnsureUnclaimed, MemberSound;
    SoundProject(w, TrimSpace(p));
    UnclaimedSound(w, i);
  }

  lemma UnlinkTies(w: World, tx: Tx, i: string, operator: string)
    requires Inv(w) && UnlinkInvoiceFromProject(w, tx, i, operator).Ok?
    ensures TiesOne(w, UnlinkInvoiceFromProject(w, tx, i, operator).value)
  {
    hide Inv, AddsOneEvent, SameBooks, TrimSpace, IsMember, EnsureUnclaimed, MemberSound, SameBusiness;
    UnclaimedSound(w, i);
  }

  lemma CreateClaimTies(w: World, tx: Tx, id: string, p: string, i: string, applicant: string, ok: bool)
    requires Inv(w) && Ties(w) && CreateReimbursement(w, tx, id, p, i, applicant, ok).Ok?
    ensures TiesOne(w, CreateReimbursement(w, tx, id, p, i, applicant, ok).value)
  {
    hide Inv, Ties, AddsOneEvent, MovesClaim, TrimSpace, IsMember, KeySafe, InSettlement, MemberSound, TiesOne;
    MemberByRecords(w, tx, TrimSpace(p), TrimSpace(applicant));
    var w' := CreateReimbursement(w, tx, id, p, i, applicant, ok).value;
    ClaimTies(w, w', TrimSpace(id), w'.claims[TrimSpace(id)]);
  }

  // ----- runs -----

  lemma ProjectCallKeepsTies(w: World, tx: Tx, call: Call)
    requires Inv(w) && Ties(w) && TrimmedIds(call)
    requires !OnInvoices(call) && !OnClaims(call) && ExecuteOnProjects(w, tx, call).Ok?
    ensures Ties(ExecuteOnProjects(w, tx, call).value)
  {
    hide Inv, Ties, KeepsTies, TiesOne, AddsOneEvent, AddsOneFlow, MovesProject, MovesClaim, RestatesClaim, MovesInvoice,
         AcceptsTransfer, SameBooks, TrimSpace,
         RegisterBusinessUser, CreateBusinessOrganization, CreateProject, UpdateProject, SubmitProject,
         ReviewProject, RequestProjectClosure, ReviewProjectClosure, FinalizeProjectSettlement, AddProjectMember;
    var w' := ExecuteOnProjects(w, tx, call).value;
    RecordsInPlace(w);
    match call
    case CallRegisterUser(_, _, _, _, _) => DirectoryKeepsTies(w, w'); TiesStay(w, w');
    case CallCreateOrganization(_, _, _, _, _) => DirectoryKeepsTies(w, w'); TiesStay(w, w');
    case CallCreateProject(id, ok, budget, applicant, org) => CreateProjectTies(w, tx, id, ok, budget, applicant, org); OneMoreTie(w, w');
    case CallUpdateProject(id, ok, budget, applicant) => UpdateKeepsTies(w, tx, id, ok, budget, applicant); TiesStay(w, w');
    case CallSubmitProject(id, applicant) => SubmitKeepsTies(w, tx, id, applicant); TiesStay(w, w');
    case CallReviewProject(id, decision, ok, reviewer) => ReviewKeepsTies(w, tx, id, decision, ok, reviewer); TiesStay(w, w');
    case CallRequestClosure(id, ok, applicant) => ClosureKeepsTies(w, tx, id, ok, applicant); TiesStay(w, w');
    case CallReviewClosure(id, decision, ok, reviewer) => FundingKeepsTies(w, tx, id, decision, ok, reviewer); TiesStay(w, w');
    case CallFinalize(id, operator) => SettlingKeepsTies(w, tx, id, operator); TiesStay(w, w');
    case CallAddMember(id, name, leader) => AddMemberTies(w, tx, id, name, leader); OneMoreTie(w, w');
  }

  lemma InvoiceCallKeepsTies(w: World, tx: Tx, call: Call)
    requires Inv(w) && Ties(w) && TrimmedIds(call)
    requires OnInvoices(call) && ExecuteOnInvoices(w, tx, call).Ok?
    ensures Ties(ExecuteOnInvoices(w, tx, call).value)
  {
    hide Inv, Ties, KeepsTies, TiesOne, AddsOneEvent, AddsOneFlow, MovesProject, MovesClaim, RestatesClaim, MovesInvoice,
         AcceptsTransfer, SameBooks, TrimSpace,
         CreateInvoice, LinkInvoiceToProject, UnlinkInvoiceFromProject, TransferInvoice, RequestInvoiceTransfer,
         RespondInvoiceTransfer, CancelInvoiceTransfer, VoidInvoice, RequestInvoiceVoid, ReviewInvoiceVoid;
    var w' := ExecuteOnInvoices(w, tx, call).value;
    match call
    case CallCreateInvoice(form) => CreateInvoiceTies(w, tx, form); OneMoreTie(w, w');
    case CallLinkInvoice(id, p, operator) => LinkTies(w, tx, id, p, operator); OneMoreTie(w, w');
    case CallUnlinkInvoice(id, operator) => UnlinkTies(w, tx, id, operator); OneMoreTie(w, w');
    case CallTransferInvoice(id, to, toMsp, operator) => TransferKeepsTies(w, tx, id, to, toMsp, operator); TiesStay(w, w');
    case CallRequestTransfer(id, to, toMsp, operator) => RequestKeepsTies(w, tx, id, to, toMsp, operator); TiesStay(w, w');
    case CallRespondTransfer(id, decision, recipient) => RespondKeepsTies(w, tx, id, decision, recipient); TiesStay(w, w');
    case CallCancelTransfer(id, operator) => CancelKeepsTies(w, tx, id, operator); TiesStay(w, w');
    case CallVoidInvoice(id, ok, operator) => VoidKeepsTies(w, tx, id, ok, operator); TiesStay(w, w');
    case CallRequestVoid(id, ok, applicant) => AskVoidKeepsTies(w, tx, id, ok, applicant); TiesStay(w, w');
    case CallReviewVoid(id, decision, ok, reviewer) => JudgeVoidKeepsTies(w, tx, id, decision, ok, reviewer); TiesStay(w, w');
  }

  lemma ClaimCallKeepsTies(w: World, tx: Tx, call: Call)
    requires Inv(w) && Ties(w) && TrimmedIds(call)
    requires OnClaims(call) && ExecuteOnClaims(w, tx, call).Ok?
    ensures Ties(ExecuteOnClaims(w, tx, call).value)
  {
    hide Inv, Ties, KeepsTies, TiesOne, AddsOneEvent, AddsOneFlow, MovesProject, MovesClaim, RestatesClaim, MovesInvoice,
         AcceptsTransfer, SameBooks, TrimSpace,
         CreateReimbursement, ReviewReimbursement, LedgerRules.ResubmitReimbursement,
         LedgerRules.WithdrawReimbursement, LedgerRules.PayReimbursement;
    var w' := ExecuteOnClaims(w, tx, call).value;
    RecordsInPlace(w);
    match call
    case CallCreateClaim(id, p, i, applicant, ok) => CreateClaimTies(w, tx, id, p, i, applicant, ok); OneMoreTie(w, w');
    case CallReviewClaim(id, decision, ok, reviewer) => ReviewClaimKeepsTies(w, tx, id, decision, ok, reviewer); TiesStay(w, w');
    case CallResubmitClaim(id, ok, applicant) => ResubmitKeepsTies(w, tx, id, ok, applicant); TiesStay(w, w');
    case CallWithdrawClaim(id, applicant) => WithdrawKeepsTies(w, tx, id, applicant); TiesStay(w, w');
    case CallPayClaim(id, operator) => PayKeepsTies(w, tx, id, operator); TiesStay(w, w');
  }

  lemma ExecuteKeepsTies(w: World, tx: Tx, call: Call)
    requires Inv(w) && Ties(w) && TrimmedIds(call) && Execute(w, tx, call).Ok?
    ensures Ties(Execute(w, tx, call).value)
  {
    hide Inv, Ties, TrimmedIds, ExecuteOnProjects, ExecuteOnInvoices, ExecuteOnClaims;
    if OnInvoices(call) {
      InvoiceCallKeepsTies(w, tx, call);
    } else if OnClaims(call) {
      ClaimCallKeepsTies(w, tx, call);
    } else {
      ProjectCallKeepsTies(w, tx, call);
    }
  }

  lemma {:induction false} RunKeepsTies(w: World, steps: seq<Step>)
    requires Inv(w) && Ties(w) && Proper(w, steps)
    ensures Ties(Run(w, steps))
    decreases |steps|
  {
    hide Inv, Ties, Execute;
    if steps != [] {
      var tx, call := steps[0].tx, steps[0].call;
      if Execute(w, tx, call).Ok? {
        ExecuteKeepsInv(w, tx, call);
        ExecuteKeepsTies(w, tx, call);
      }
      RunKeepsTies(Next(w, tx, call), steps[1..]);
    }
  }

  lemma NothingToTie(w: World)
    requires Initial(w)
    ensures Ties(w)
  {}

  lemma ReachableTies(w: World)
    requires Reachable(w)
    ensures Ties(w)
  {
    hide Inv, Run, Proper, Ties;
    var w0, steps :| Initial(w0) && Proper(w0, steps) && w == Run(w0, steps);
    InitialInv(w0);
    NothingToTie(w0);
    RunKeepsTies(w0, steps);
  }

  // ----- results -----

  /** In every reachable state, members and claimants of a project are active registered users of its MSP and organization,
      and an invoice linked to it was issued under its MSP, for its organization or for none. */
  lemma EverythingBelongs(w: World, p: string)
    requires Reachable(w) && p in w.projects
    ensures forall u :: (p, u) in w.members ==> MemberSound(w, p, u)
    ensures forall r :: r in w.claims && w.claims[r].projectId == p ==> MemberSound(w, p, w.claims[r].applicant)
    ensures forall i :: i in w.invoices && w.invoices[i].projectId == p ==>
              && w.invoices[i].issuerMsp == w.projects[p].applicantMsp
              && !Clash(w.invoices[i].issuerOrganizationId, w.projects[p].organizationId)
    ensures forall i :: i in w.invoices && w.invoices[i].projectId != "" ==> w.invoices[i].projectId in w.projects
  {
    hide Reachable, MemberSound, Inv;
    ReachableTies(w);
    ReachableInv(w);
    SoundProject(w, p);
  }

  /** Nobody approves, returns or pays a claim of their own, whatever else they are in the project. */
  lemma ClaimantNeverJudges(w: World, tx: Tx, call: Call)
    requires Reachable(w) && (call.CallReviewClaim? || call.CallPayClaim?) && Execute(w, tx, call).Ok?
    ensures TrimSpace(call.id) in w.claims && Operator(call) != w.claims[TrimSpace(call.id)].applicant
  {
    hide Reachable, Inv, Ties, ExecuteOnProjects, ExecuteOnInvoices, ExecuteOnClaims, Operator, TrimSpace,
         InManagementScope, MemberSound;
    ReachableInv(w);
    ReachableTies(w);
    ClaimDuty(w, tx, call);
    OperatorIsTrimmed(call);
    ClaimantIsMember(w, TrimSpace(call.id));
    MemberIsNotManager(w, tx, Concerns(w, call).value, w.claims[TrimSpace(call.id)].applicant, Operator(call), Duty(call).value);
  }

  lemma ClaimantIsMember(w: World, r: string)
    requires Ties(w) && r in w.claims
    ensures MemberSound(w, w.claims[r].projectId, w.claims[r].applicant)
  {}

  lemma MemberIsNotManager(w: World, tx: Tx, p: string, member: string, name: string, role: Role)
    requires MemberSound(w, p, member) && p in w.projects && IsManager(w, tx, w.projects[p], name, role)
    requires role.ProjectReviewer? || role.FinanceAdmin?
    requires TrimSpace(name) == name
    ensures name != member
  {
    hide TrimSpace, InManagementScope;
  }

  /** The operator is an active issuer of the MSP that issued the invoice, and of no other organization than its own. */
  predicate IssuerActs(w: World, tx: Tx, invoice: Invoice, operator: string) {
    && tx.msp == invoice.issuerMsp && ActiveUser(w, tx, operator, tx.msp, {Issuer})
    && UserOrganization(w, operator).Ok? && !Clash(invoice.issuerOrganizationId, UserOrganization(w, operator).value)
  }

  lemma CreateNeverVoids(w: World, tx: Tx, form: InvoiceForm, i: string)
    requires Inv(w) && i in w.invoices && CreateInvoice(w, tx, form).Ok?
    ensures var after := CreateInvoice(w, tx, form).value.invoices; i in after && after[i].status.Voided? ==> w.invoices[i].status.Voided?
  {
    hide Inv, AddsOneEvent, AddsOneFlow, SameBooks, MovesInvoice, AcceptsTransfer, TrimSpace, DraftInvoice;
    DraftSound(w, tx, form);
  }

  lemma LinkNeverVoids(w: World, tx: Tx, id: string, p: string, operator: string, i: string)
    requires Inv(w) && i in w.invoices && LinkInvoiceToProject(w, tx, id, p, operator).Ok?
    ensures var after := LinkInvoiceToProject(w, tx, id, p, operator).value.invoices; i in after && after[i].status.Voided? ==> w.invoices[i].status.Voided?
  {
    hide Inv, AddsOneEvent, AddsOneFlow, SameBooks, MovesInvoice, AcceptsTransfer, TrimSpace, IsMember,
         EnsureUnclaimed, SameBusiness;
    UnclaimedSound(w, id);
  }

  lemma UnlinkNeverVoids(w: World, tx: Tx, id: string, operator: string, i: string)
    requires Inv(w) && i in w.invoices && UnlinkInvoiceFromProject(w, tx, id, operator).Ok?
    ensures var after := UnlinkInvoiceFromProject(w, tx, id, operator).value.invoices; i in after && after[i].status.Voided? ==> w.invoices[i].status.Voided?
  {
    hide Inv, AddsOneEvent, AddsOneFlow, SameBooks, MovesInvoice, AcceptsTransfer, TrimSpace, IsMember,
         EnsureUnclaimed, SameBusiness;
    UnclaimedSound(w, id);
  }

  lemma TransferNeverVoids(w: World, tx: Tx, id: string, to: string, toMsp: string, operator: string, i: string)
    requires Inv(w) && i in w.invoices && TransferInvoice(w, tx, id, to, toMsp, operator).Ok?
    ensures var after := TransferInvoice(w, tx, id, to, toMsp, operator).value.invoices; i in after && after[i].status.Voided? ==> w.invoices[i].status.Voided?
  {
    hide Inv, AddsOneEvent, AddsOneFlow, SameBooks, MovesInvoice, AcceptsTransfer, TrimSpace, ActiveUser,
         UserOrganization, ReadUser;
  }

  lemma ResponseNeverVoids(w: World, tx: Tx, id: string, decision: Decision, recipient: string, i: string)
    requires Inv(w) && i in w.invoices && RespondInvoiceTransfer(w, tx, id, decision, recipient).Ok?
    ensures var after := RespondInvoiceTransfer(w, tx, id, decision, recipient).value.invoices; i in after && after[i].status.Voided? ==> w.invoices[i].status.Voided?
  {
    hide Inv, AddsOneEvent, AddsOneFlow, SameBooks, MovesInvoice, AcceptsTransfer, TrimSpace, ActiveUser,
         UserOrganization;
  }

  lemma VoidIsByIssuer(w: World, tx: Tx, id: string, ok: bool, operator: string, i: string)
    requires i in w.invoices && VoidInvoice(w, tx, id, ok, operator).Ok?
    ensures var after := VoidInvoice(w, tx, id, ok, operator).value.invoices;
            i in after && after[i] != w.invoices[i] ==> id == i && IssuerActs(w, tx, w.invoices[i], TrimSpace(operator))
  {
    hide AddsOneFlow, SameBooks, MovesInvoice, TrimSpace, ActiveUser, EnsureUnclaimed;
  }

  lemma VoidReviewIsByIssuer(w: World, tx: Tx, id: string, decision: Decision, ok: bool, reviewer: string, i: string)
    requires i in w.invoices && ReviewInvoiceVoid(w, tx, id, decision, ok, reviewer).Ok?
    ensures var after := ReviewInvoiceVoid(w, tx, id, decision, ok, reviewer).value.invoices;
            i in after && after[i] != w.invoices[i] ==>
              id == i && decision.Approve? && IssuerActs(w, tx, w.invoices[i], TrimSpace(reviewer))
  {
    hide AddsOneFlow, SameBooks, MovesInvoice, TrimSpace, ActiveUser, EnsureUnclaimed;
  }

  lemma VoidingCall(w: World, tx: Tx, call: Call, i: string)
    requires Inv(w) && OnInvoices(call) && ExecuteOnInvoices(w, tx, call).Ok? && i in w.invoices && !w.invoices[i].status.Voided?
    requires i in ExecuteOnInvoices(w, tx, call).value.invoices && ExecuteOnInvoices(w, tx, call).value.invoices[i].status.Voided?
    ensures || (call.CallVoidInvoice? && call.id == i && IssuerActs(w, tx, w.invoices[i], TrimSpace(call.operator)))
            || (call.CallReviewVoid? && call.id == i && call.decision.Approve? && IssuerActs(w, tx, w.invoices[i], TrimSpace(call.reviewer)))
  {
    hide Inv, AddsOneEvent, AddsOneFlow, SameBooks, MovesInvoice, AcceptsTransfer, TrimSpace, ActiveUser, UserOrganization, IssuerActs,
         CreateInvoice, LinkInvoiceToProject, UnlinkInvoiceFromProject, TransferInvoice, RequestInvoiceTransfer,
         RespondInvoiceTransfer, CancelInvoiceTransfer, VoidInvoice, RequestInvoiceVoid, ReviewInvoiceVoid;
    match call
    case CallCreateInvoice(form) => CreateNeverVoids(w, tx, form, i);
    case CallLinkInvoice(id, p, operator) => LinkNeverVoids(w, tx, id, p, operator, i);
    case CallUnlinkInvoice(id, operator) => UnlinkNeverVoids(w, tx, id, operator, i);
    case CallTransferInvoice(id, to, toMsp, operator) => TransferNeverVoids(w, tx, id, to, toMsp, operator, i);
    case CallRespondTransfer(id, decision, recipient) => ResponseNeverVoids(w, tx, id, decision, recipient, i);
    case CallVoidInvoice(id, ok, operator) => VoidIsByIssuer(w, tx, id, ok, operator, i);
    case CallReviewVoid(id, decision, ok, reviewer) => VoidReviewIsByIssuer(w, tx, id, decision, ok, reviewer, i);
    case _ =>
  }

  /** An invoice becomes void only through an issuer of its own. */
  lemma OnlyIssuersVoid(w: World, tx: Tx, call: Call, i: string)
    requires Reachable(w) && Execute(w, tx, call).Ok? && i in w.invoices && !w.invoices[i].status.Voided?
    requires i in Execute(w, tx, call).value.invoices && Execute(w, tx, call).value.invoices[i].status.Voided?
    ensures || (call.CallVoidInvoice? && call.id == i && IssuerActs(w, tx, w.invoices[i], TrimSpace(call.operator)))
            || (call.CallReviewVoid? && call.id == i && call.decision.Approve? && IssuerActs(w, tx, w.invoices[i], TrimSpace(call.reviewer)))
  {
    hide Reachable, Inv, ExecuteOnProjects, ExecuteOnInvoices, ExecuteOnClaims, IssuerActs;
    ReachableInv(w);
    if OnInvoices(call) {
      VoidingCall(w, tx, call, i);
    } else if OnClaims(call) {
      ClaimCallSparesInvoices(w, tx, call);
    } else {
      ProjectCallSparesInvoices(w, tx, call);
    }
  }
}
