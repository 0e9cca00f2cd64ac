/** What each chaincode transaction does to the world state, as a function of the state before it. */
module LedgerRules {
  import opened Basics
  import opened LedgerTypes

  // ----- reads -----

  function ReadProject(w: World, id: string): Result<Project> {
    var key := TrimSpace(id);
    if key in w.projects then Ok(w.projects[key]) else Refused(UnknownRecord)
  }

  function ReadClaim(w: World, id: string): Result<Claim> {
    var key := TrimSpace(id);
    if key in w.claims then Ok(w.claims[key]) else Refused(UnknownRecord)
  }

  /** Unlike the other readers, this one does not trim. */
  function ReadInvoice(w: World, id: string): Result<Invoice> {
    if id in w.invoices then Ok(w.invoices[id]) else Refused(UnknownRecord)
  }

  function ReadTransfer(w: World, id: string): Result<InvoiceTransfer> {
    var key := TrimSpace(id);
    if key in w.transfers then Ok(w.transfers[key]) else Refused(UnknownRecord)
  }

  function ReadVoidRequest(w: World, id: string): Result<VoidRequest> {
    var key := TrimSpace(id);
    if key in w.voidRequests then Ok(w.voidRequests[key]) else Refused(UnknownRecord)
  }

  function ReadUser(w: World, username: string): Option<BusinessUser> {
    var key := TrimSpace(username);
    if key in w.users then Some(w.users[key]) else None
  }

  function ReadOrganization(w: World, id: string): Result<BusinessOrganization> {
    var key := TrimSpace(id);
    if key in w.organizations then Ok(w.organizations[key]) else Refused(UnknownRecord)
  }

  // ----- identity and scope -----

  predicate BusinessMsp(msp: string) { msp == "Org1MSP" || msp == "Org2MSP" }

  /** The built-in accounts that work before any directory exists. */
  function DemoUserRole(username: string, msp: string): Option<Role> {
    if msp == "Org1MSP" then
      if username == "issuer-org1" then Some(Issuer)
      else if username == "auditor" then Some(Auditor)
      else if username == "project-member" then Some(ProjectMember)
      else if username == "project-reviewer" then Some(ProjectReviewer)
      else if username == "org-admin" then Some(OrgAdmin)
      else None
    else if msp == "Org2MSP" then
      if username == "holder-org2" then Some(Holder)
      else if username == "finance-admin" then Some(FinanceAdmin)
      else if username == "org-admin-org2" then Some(OrgAdmin)
      else None
    else None
  }

  predicate RegisteredRole(w: World, username: string, msp: string, roles: set<Role>) {
    match ReadUser(w, username)
    case None => var role := DemoUserRole(username, msp); role.Some? && role.value in roles
    case Some(user) => user.active && user.msp == msp && user.role in roles
  }

  predicate ActiveUser(w: World, tx: Tx, username: string, msp: string, roles: set<Role>) {
    tx.msp == msp && RegisteredRole(w, username, msp, roles)
  }

  function UserOrganization(w: World, username: string): Result<string> {
    match ReadUser(w, username)
    case Some(user) => Ok(user.organizationId)
    case None =>
      if DemoUserRole(username, "Org1MSP").Some? || DemoUserRole(username, "Org2MSP").Some? then Ok("")
      else Refused(UnknownRecord)
  }

  /** Both organizations are known and they differ. */
  predicate Clash(left: string, right: string) { left != "" && right != "" && left != right }

  predicate IsApplicant(w: World, tx: Tx, project: Project, username: string) {
    && TrimSpace(username) == project.applicant
    && ActiveUser(w, tx, username, project.applicantMsp, {ProjectMember, Issuer})
    && UserOrganization(w, username).Ok?
    && !Clash(project.organizationId, UserOrganization(w, username).value)
  }

  predicate IsMember(w: World, tx: Tx, project: Project, username: string) {
    || IsApplicant(w, tx, project, username)
    || (&& ActiveUser(w, tx, username, project.applicantMsp, {ProjectMember, Issuer})
        && (project.id, TrimSpace(username)) in w.members)
  }

  /** The organization part of requireProjectManager for a user with a ledger record. */
  predicate InManagementScope(w: World, project: Project, user: BusinessUser) {
    || user.organizationId == project.organizationId
    || (var key := TrimSpace(project.organizationId);
        key in w.organizations && w.organizations[key].parentId == user.organizationId)
  }

  predicate IsManager(w: World, tx: Tx, project: Project, username: string, role: Role) {
    && ActiveUser(w, tx, username, tx.msp, {role})
    && (if project.organizationId == "" then tx.msp == project.applicantMsp
        else match ReadUser(w, username)
          case None => DemoUserRole(username, tx.msp).Some?
          case Some(user) => InManagementScope(w, project, user))
  }

  // ----- other checks -----

  /** No characters that the key layout reserves. */
  predicate KeySafe(id: string) { '#' !in id && '\0' !in id }

  /** parseNonNegative, after the decimal text has been read. */
  predicate MoneyInRange(cents: int) { 0 <= cents <= MAX_MONEY_CENTS }

  /** For int64 amounts the exact sum, if neither is negative and the sum is in range; the test never wraps then. */
  function CheckedAddMoney(left: int, right: int): (r: Result<int>)
    ensures r.Ok? ==> left >= 0 && right >= 0 && r.value <= MAX_MONEY_CENTS
    ensures -TWO63 <= left < TWO63 && -TWO63 <= right < TWO63 ==>
              && (r.Ok? <==> left >= 0 && right >= 0 && left + right <= MAX_MONEY_CENTS)
              && (r.Ok? ==> r.value == left + right)
  {
    if left < 0 || right < 0 || left > Wrap64(MAX_INT64 - right) || Wrap64(left + right) > MAX_MONEY_CENTS
    then Refused(AmountInvalid)
    else Ok(Wrap64(left + right))
  }

  /** ensureInvoiceCanBeVoided. */
  function EnsureUnclaimed(w: World, invoiceId: string): Result<()> {
    if invoiceId !in w.guard then Ok(())
    else
      var _ :- ReadClaim(w, w.guard[invoiceId]);
      Refused(InvoiceInUse)
  }

  predicate CarriedBy(w: World, invoiceNo: string, id: string) {
    id in w.invoices && w.invoices[id].invoiceNo == invoiceNo
  }

  /** The index lookup, then the compatibility scan over every invoice record. */
  predicate InvoiceNumberExists(w: World, invoiceNo: string) {
    TrimSpace(invoiceNo) in w.numbers || exists id :: id in w.invoices && CarriedBy(w, invoiceNo, id)
  }

  predicate InvoiceNumberExistsExcept(w: World, invoiceNo: string, exceptId: string) {
    || (var key := TrimSpace(invoiceNo); key in w.numbers && w.numbers[key] != exceptId)
    || exists id :: id in w.invoices && CarriedBy(w, invoiceNo, id) && w.invoices[id].id != exceptId
  }

  predicate InSettlement(status: ProjectStatus) { status.FinancialSettlement? || status.ClosureApproved? }

  /** A creator without an organization may issue for any; others only for their own. */
  predicate MayIssueFor(creatorOrg: string, issuerOrg: string) { creatorOrg == "" || creatorOrg == issuerOrg }

  predicate TransferIsPending(w: World, id: string) {
    var existing := ReadTransfer(w, id);
    existing.Ok? && existing.value.status.TransferPending?
  }

  predicate VoidIsPending(w: World, id: string) {
    var existing := ReadVoidRequest(w, id);
    existing.Ok? && existing.value.status.VoidPending?
  }

  predicate OpenForInvoices(status: ProjectStatus) {
    status.Executing? || status.FinancialSettlement? || status.ClosureApproved?
  }

  // ----- writes -----

  function PutEvent(w: World, tx: Tx, projectId: string, kind: EventKind, actor: string, referenceId: string): World {
    var event := ProjectEvent(projectId, tx.id, kind, actor, referenceId);
    w.(events := w.events[(projectId, tx.id) := event], eventLog := w.eventLog + [event])
  }

  function PutFlow(w: World, tx: Tx, invoiceId: string, kind: FlowKind, from: string, to: string, operator: string): World {
    var flow := InvoiceFlow(invoiceId, tx.id, kind, from, to, operator);
    w.(flows := w.flows[(invoiceId, tx.id) := flow], flowLog := w.flowLog + [flow])
  }

  /** The history of the ledger gains one project event and no flow, under a key made of its project and transaction;
      requests and users stay as they are. */
  ghost predicate AddsOneEvent(w: World, w': World, tx: Tx) {
    && w'.flows == w.flows && w'.flowLog == w.flowLog && w'.transfers == w.transfers && w'.voidRequests == w.voidRequests
    && w'.users == w.users
    && |w'.eventLog| == |w.eventLog| + 1
    && var e := w'.eventLog[|w.eventLog|];
       && w'.eventLog == w.eventLog + [e] && e.txId == tx.id
       && w'.events == w.events[(e.projectId, e.txId) := e]
  }

  /** The same for one invoice flow. */
  ghost predicate AddsOneFlow(w: World, w': World, tx: Tx) {
    && w'.events == w.events && w'.eventLog == w.eventLog && w'.users == w.users
    && |w'.flowLog| == |w.flowLog| + 1
    && var f := w'.flowLog[|w.flowLog|];
       && w'.flowLog == w.flowLog + [f] && f.txId == tx.id
       && w'.flows == w.flows[(f.invoiceId, f.txId) := f]
  }

  /** Only new users, all project members, or organizations appear; no registration changes. */
  ghost predicate DirectoryGrows(w: World, w': World) {
    && w' == w.(users := w'.users, organizations := w'.organizations)
    && (forall u :: u in w.users ==> u in w'.users && w'.users[u] == w.users[u])
    && (forall u :: u in w'.users && u !in w.users ==> w'.users[u].role.ProjectMember?)
    && (forall o :: o in w.organizations ==> o in w'.organizations && w'.organizations[o] == w.organizations[o])
  }

  predicate SameBooks(w: World, w': World) { w'.projects == w.projects && w'.claims == w.claims }

  /** Of projects, claims and invoices, only the project under `key` changes, and it was not archived; it keeps the id
      of the record read under the trimmed key. */
  predicate MovesProject(w: World, w': World, key: string) {
    && key in w'.projects && w'.projects == w.projects[key := w'.projects[key]]
    && w'.claims == w.claims && w'.invoices == w.invoices
    && (Trimmed(key) && key in w.projects ==> !w.projects[key].status.Archived?)
    && var read := TrimSpace(key);
       w'.projects[key].id == if read in w.projects then w.projects[read].id else read
  }

  /** Of projects, claims and invoices, only the claim under `r` and the project it names change; an existing claim was open. */
  predicate MovesClaim(w: World, w': World, r: string) {
    && r in w'.claims && w'.claims == w.claims[r := w'.claims[r]] && w'.invoices == w.invoices
    && var p := TrimSpace(w'.claims[r].projectId);
       && p in w.projects
       && (var key := w.projects[p].id;
           w'.projects == w.projects || (key in w'.projects && w'.projects == w.projects[key := w'.projects[key]]))
       && (if r !in w.claims then Trimmed(r) ==> !w.projects[p].status.Archived?
           else Trimmed(r) ==> w.claims[r].status.Open() && w'.claims[r].projectId == w.claims[r].projectId)
  }

  /** The claim read under the trimmed id is stored under the id as given, with a new status; a withdrawal frees the invoice. */
  predicate RestatesClaim(w: World, w': World, id: string) {
    var r := TrimSpace(id);
    && r in w.claims && w.claims[r].status.Open()
    && id in w'.claims && w'.claims == w.claims[id := w.claims[r].(status := w'.claims[id].status)]
    && w'.guard == if w'.claims[id].status.Withdrawn? then w.guard - {w.claims[r].invoiceId} else w.guard
  }

  /** Of projects, claims and invoices, only the invoice under `i` changes; it was not voided and keeps number and total. */
  predicate MovesInvoice(w: World, w': World, i: string) {
    && SameBooks(w, w')
    && i in w'.invoices && w'.invoices == w.invoices[i := w'.invoices[i]]
    && (i in w.invoices ==>
          && !w.invoices[i].status.Voided?
          && w'.invoices[i].invoiceNo == w.invoices[i].invoiceNo && w'.invoices[i].total == w.invoices[i].total)
  }

  /** The invoice moves to the recipient of a pending transfer that its present holder requested. */
  predicate AcceptsTransfer(w: World, w': World, i: string, recipient: string) {
    && i in w.invoices && TrimSpace(i) in w.transfers
    && MovesInvoice(w, w', i) && w'.invoices[i].holder == recipient
    && var t := w.transfers[TrimSpace(i)];
       t.status.TransferPending? && t.from == w.invoices[i].holder && t.to == recipient
  }

  function PutProject(w: World, key: string, project: Project): World {
    w.(projects := w.projects[key := project])
  }

  function PutClaim(w: World, key: string, claim: Claim): World {
    w.(claims := w.claims[key := claim])
  }

  function PutInvoice(w: World, key: string, invoice: Invoice): World {
    w.(invoices := w.invoices[key := invoice])
  }

  // ----- directory -----

  function RegisterBusinessUser(w: World, tx: Tx, username: string, displayOk: bool, msp: string, role: Role,
                                organizationId: string): (r: Result<World>)
    ensures r.Ok? ==> DirectoryGrows(w, r.value) && SameBooks(w, r.value) && r.value.invoices == w.invoices
  {
    var name, orgId, ownMsp := TrimSpace(username), TrimSpace(organizationId), TrimSpace(msp);
    :- Need(name != "" && displayOk && KeySafe(name) && forall c :: c in name ==> c !in " \t\n", BadField);
    :- Need(BusinessMsp(ownMsp) && role == ProjectMember, BadField);
    :- Need(tx.msp == ownMsp, NotAuthorised);
    var organization :- ReadOrganization(w, orgId);
    :- Need(organization.active && organization.msp == ownMsp, OutOfScope);
    :- Need(name !in w.users, AlreadyExists);
    Ok(w.(users := w.users[name := BusinessUser(ownMsp, orgId, role, true)]))
  }

  function CreateBusinessOrganization(w: World, tx: Tx, rawId: string, textOk: bool, kind: OrganizationType,
                                      rawParent: string, creator: string): (r: Result<World>)
    ensures r.Ok? ==> DirectoryGrows(w, r.value) && SameBooks(w, r.value) && r.value.invoices == w.invoices
  {
    var id, parentId := TrimSpace(rawId), TrimSpace(rawParent);
    :- Need(id != "" && textOk && TrimSpace(creator) != "" && KeySafe(id), BadField);
    :- Need(ActiveUser(w, tx, TrimSpace(creator), tx.msp, {OrgAdmin}), NotAuthorised);
    var _ :- if kind == ProjectTeam then
         :- Need(parentId != "", BadField);
         var parent :- ReadOrganization(w, parentId);
         Check(parent.kind == Primary, OutOfScope)
       else Check(parentId == "", BadField);
    :- Need(id !in w.organizations, AlreadyExists);
    Ok(w.(organizations := w.organizations[id := BusinessOrganization(id, tx.msp, parentId, kind, true)]))
  }

  // ----- projects -----

  function CreateProject(w: World, tx: Tx, rawId: string, textOk: bool, budget: int, rawApplicant: string,
                         rawOrganization: string): (r: Result<World>)
    ensures r.Ok? ==> AddsOneEvent(w, r.value, tx) && MovesProject(w, r.value, TrimSpace(rawId))
  {
    var id, applicant, orgId := TrimSpace(rawId), TrimSpace(rawApplicant), TrimSpace(rawOrganization);
    :- Need(id != "" && textOk && applicant != "" && orgId != "" && KeySafe(id), BadField);
    :- Need(MoneyInRange(budget) && budget != 0, AmountInvalid);
    :- Need(id !in w.projects, AlreadyExists);
    :- Need(ActiveUser(w, tx, applicant, tx.msp, {ProjectMember, Issuer}), NotAuthorised);
    var user := ReadUser(w, applicant);
    :- Need(user.Some?, UnknownRecord);
    :- Need(user.value.organizationId == orgId, OutOfScope);
    var w1 := PutProject(w, id, Project(id, applicant, tx.msp, orgId, Draft, budget, 0, 0, 0, 0));
    var w2 := w1.(members := w1.members[(id, applicant) := Leader]);
    Ok(PutEvent(w2, tx, id, CreateDraft, applicant, ""))
  }

  predicate Editable(status: ProjectStatus) { status.Draft? || status.RevisionRequired? }

  function UpdateProject(w: World, tx: Tx, id: string, textOk: bool, budget: int, applicant: string): (r: Result<World>)
    ensures r.Ok? ==> AddsOneEvent(w, r.value, tx) && MovesProject(w, r.value, id) && ReadProject(w, id).Ok?
  {
    var project :- ReadProject(w, id);
    :- Need(Editable(project.status), WrongStatus);
    :- Need(IsApplicant(w, tx, project, applicant), NotAuthorised);
    :- Need(textOk, BadField);
    :- Need(MoneyInRange(budget) && budget != 0, AmountInvalid);
    Ok(PutEvent(PutProject(w, id, project.(budget := budget, status := Draft)), tx, id, UpdateDraft, applicant, ""))
  }

  function SubmitProject(w: World, tx: Tx, id: string, applicant: string): (r: Result<World>)
    ensures r.Ok? ==> AddsOneEvent(w, r.value, tx) && MovesProject(w, r.value, id) && ReadProject(w, id).Ok?
  {
    var project :- ReadProject(w, id);
    :- Need(Editable(project.status), WrongStatus);
    :- Need(IsApplicant(w, tx, project, applicant), NotAuthorised);
    Ok(PutEvent(PutProject(w, id, project.(status := PendingReview)), tx, id, SubmitApplication, applicant, ""))
  }

  function ReviewProject(w: World, tx: Tx, id: string, decision: Decision, opinionOk: bool, rawReviewer: string): (r: Result<World>)
    ensures r.Ok? ==> AddsOneEvent(w, r.value, tx) && MovesProject(w, r.value, id) && ReadProject(w, id).Ok?
  {
    var project :- ReadProject(w, id);
    :- Need(project.status.PendingReview?, WrongStatus);
    var reviewer := TrimSpace(rawReviewer);
    :- Need(reviewer != "" && opinionOk && !decision.Unrecognised?, BadField);
    :- Need(IsManager(w, tx, project, reviewer, ProjectReviewer), NotAuthorised);
    var approved := decision.Approve?;
    Ok(PutEvent(PutProject(w, id, project.(status := if approved then Executing else RevisionRequired)),
                tx, id, if approved then ProjectApprove else ProjectRevision, reviewer, ""))
  }

  function RequestProjectClosure(w: World, tx: Tx, id: string, materialsOk: bool, applicant: string): (r: Result<World>)
    ensures r.Ok? ==> AddsOneEvent(w, r.value, tx) && MovesProject(w, r.value, id) && ReadProject(w, id).Ok?
  {
    var project :- ReadProject(w, id);
    :- Need(project.status.Executing?, WrongStatus);
    :- Need(IsApplicant(w, tx, project, applicant), NotAuthorised);
    :- Need(materialsOk, BadField);
    Ok(PutEvent(PutProject(w, id, project.(status := ClosureReview)), tx, id, RequestClosure, applicant, ""))
  }

  function ReviewProjectClosure(w: World, tx: Tx, id: string, decision: Decision, opinionOk: bool, rawReviewer: string): (r: Result<World>)
    ensures r.Ok? ==> AddsOneEvent(w, r.value, tx) && MovesProject(w, r.value, id) && ReadProject(w, id).Ok?
  {
    var project :- ReadProject(w, id);
    :- Need(project.status.ClosureReview?, WrongStatus);
    var reviewer := TrimSpace(rawReviewer);
    :- Need(reviewer != "" && opinionOk && !decision.Unrecognised?, BadField);
    :- Need(IsManager(w, tx, project, reviewer, ProjectReviewer), NotAuthorised);
    if decision.Approve? then
      Ok(PutEvent(PutProject(w, id, project.(status := FinancialSettlement, available := project.budget)),
                  tx, id, ClosureApproveAndReleaseFund, reviewer, ""))
    else
      Ok(PutEvent(PutProject(w, id, project.(status := Executing)), tx, id, ClosureRevision, reviewer, ""))
  }

  /** A claim that the scan of FinalizeProjectSettlement reports. */
  predicate AwaitsAction(w: World, projectId: string, claimId: string) {
    && claimId in w.claims
    && w.claims[claimId].projectId == projectId
    && (w.claims[claimId].status.Pending? || w.claims[claimId].status.Revision?)
  }

  /** The scan finds nothing. */
  predicate NoneAwaits(w: World, projectId: string) { forall r :: r in w.claims ==> !AwaitsAction(w, projectId, r) }

  function FinalizeProjectSettlement(w: World, tx: Tx, id: string, financeOperator: string): (r: Result<World>)
    ensures r.Ok? ==> AddsOneEvent(w, r.value, tx)
  {
    var project :- ReadProject(w, id);
    :- Need(InSettlement(project.status), WrongStatus);
    :- Need(IsManager(w, tx, project, TrimSpace(financeOperator), FinanceAdmin), NotAuthorised);
    :- Need(project.reserved == 0, OpenClaims);
    :- Need(NoneAwaits(w, project.id), OpenClaims);
    var settled := project.(recovered := Wrap64(project.recovered + project.available), available := 0, status := Archived);
    Ok(PutEvent(PutProject(w, project.id, settled), tx, project.id, FinalizeSettlement, financeOperator, ""))
  }

  predicate WorksOnProjects(user: BusinessUser) { user.active && (user.role.ProjectMember? || user.role.Issuer?) }

  predicate SameTeam(user: BusinessUser, project: Project) {
    user.msp == project.applicantMsp && (project.organizationId == "" || user.organizationId == project.organizationId)
  }

  function AddProjectMember(w: World, tx: Tx, projectId: string, rawUsername: string, leader: string): (r: Result<World>)
    ensures r.Ok? ==> AddsOneEvent(w, r.value, tx) && SameBooks(w, r.value) && r.value.invoices == w.invoices
  {
    var project :- ReadProject(w, projectId);
    :- Need(!project.status.Archived?, WrongStatus);
    :- Need(IsApplicant(w, tx, project, leader), NotAuthorised);
    var username := TrimSpace(rawUsername);
    var user := ReadUser(w, username);
    :- Need(user.Some?, UnknownRecord);
    var member := user.value;
    :- Need(WorksOnProjects(member), NotAuthorised);
    :- Need(SameTeam(member, project), OutOfScope);
    :- Need((projectId, username) !in w.members, AlreadyExists);
    Ok(PutEvent(w.(members := w.members[(projectId, username) := Member]), tx, projectId, AddMember, leader, ""))
  }

  // ----- invoices -----

  /** The checks of CreateInvoice on the project named in the form, if any. */
  function CheckLinkedProject(w: World, tx: Tx, projectId: string, holder: string, issuerOrg: string): Result<()> {
    if projectId == "" then Ok(()) else
      var project :- ReadProject(w, projectId);
      :- Need(OpenForInvoices(project.status), WrongStatus);
      :- Need(project.applicantMsp == tx.msp, OutOfScope);
      :- Need(project.organizationId == "" || project.organizationId == issuerOrg, OutOfScope);
      Check(IsMember(w, tx, project, holder), NotAuthorised)
  }

  /** The checks of CreateInvoice on the record that it corrects, if any. */
  function CheckCorrection(w: World, tx: Tx, invoiceNo: string, correctionOf: string, issuerOrg: string): Result<()> {
    if correctionOf == "" then Check(!InvoiceNumberExists(w, invoiceNo), NumberTaken) else
      var original :- ReadInvoice(w, correctionOf);
      :- Need(original.status.Voided?, WrongStatus);
      :- Need(original.issuerMsp == tx.msp
              && (original.issuerOrganizationId == "" || original.issuerOrganizationId == issuerOrg), OutOfScope);
      :- Need(original.invoiceNo == invoiceNo, BadField);
      var _ :- EnsureUnclaimed(w, correctionOf);
      Check(!InvoiceNumberExistsExcept(w, invoiceNo, correctionOf), NumberTaken)
  }

  /** All the checks of CreateInvoice, and the record that it then writes. */
  function DraftInvoice(w: World, tx: Tx, form: InvoiceForm): Result<Invoice> {
    var id, invoiceNo := TrimSpace(form.id), TrimSpace(form.invoiceNo);
    var holder, holderMsp := TrimSpace(form.initialHolder), TrimSpace(form.initialHolderMsp);
    var correctionOf, projectId := TrimSpace(form.correctionOf), TrimSpace(form.projectId);
    :- Need(id != "" && invoiceNo != "" && holder != "" && form.textOk && KeySafe(id), BadField);
    :- Need(BusinessMsp(tx.msp) && BusinessMsp(TrimSpace(form.buyerMsp)) && BusinessMsp(holderMsp), BadField);
    :- Need(tx.msp == holderMsp, NotAuthorised);
    :- Need(form.currencyOk, BadField);
    :- Need(ActiveUser(w, tx, holder, tx.msp, {Issuer, ProjectMember}), NotAuthorised);
    var creatorOrg :- UserOrganization(w, holder);
    var issuerOrg := if TrimSpace(form.issuerOrganizationId) == "" then creatorOrg else TrimSpace(form.issuerOrganizationId);
    :- Need(MayIssueFor(creatorOrg, issuerOrg), OutOfScope);
    var _ :- CheckLinkedProject(w, tx, projectId, holder, issuerOrg);
    :- Need(form.hashOk, BadField);
    :- Need(MoneyInRange(form.amount) && MoneyInRange(form.tax), AmountInvalid);
    var total :- CheckedAddMoney(form.amount, form.tax);
    :- Need(total > 0, AmountInvalid);
    :- Need(id !in w.invoices, AlreadyExists);
    var _ :- CheckCorrection(w, tx, invoiceNo, correctionOf, issuerOrg);
    Ok(Invoice(id, invoiceNo, total, holder, holderMsp, issuerOrg, tx.msp, issuerOrg, projectId, correctionOf, Issued))
  }

  function CreateInvoice(w: World, tx: Tx, form: InvoiceForm): (r: Result<World>)
    ensures r.Ok? ==> AddsOneFlow(w, r.value, tx) && SameBooks(w, r.value)
  {
    var invoice :- DraftInvoice(w, tx, form);
    var w1 := PutInvoice(w, invoice.id, invoice);
    var w2 := w1.(numbers := w1.numbers[invoice.invoiceNo := invoice.id]);
    var kind := if invoice.correctionOf == "" then Issue else Correction;
    Ok(PutFlow(w2, tx, invoice.id, kind, TrimSpace(form.issuer), invoice.holder, tx.msp))
  }

  predicate SameBusiness(invoice: Invoice, project: Project) {
    invoice.issuerMsp == project.applicantMsp && !Clash(invoice.issuerOrganizationId, project.organizationId)
  }

  function LinkInvoiceToProject(w: World, tx: Tx, invoiceId: string, projectId: string, operator: string): (r: Result<World>)
    ensures r.Ok? ==> AddsOneEvent(w, r.value, tx) && SameBooks(w, r.value)
  {
    var invoice :- ReadInvoice(w, invoiceId);
    :- Need(!invoice.status.Voided?, InvoiceVoided);
    :- Need(invoice.projectId == "", WrongProjectLink);
    var _ :- EnsureUnclaimed(w, invoiceId);
    var project :- ReadProject(w, projectId);
    :- Need(OpenForInvoices(project.status), WrongStatus);
    :- Need(IsMember(w, tx, project, operator), NotAuthorised);
    :- Need(SameBusiness(invoice, project), OutOfScope);
    Ok(PutEvent(PutInvoice(w, invoice.id, invoice.(projectId := project.id)), tx, project.id, LinkInvoice, operator, ""))
  }

  function UnlinkInvoiceFromProject(w: World, tx: Tx, invoiceId: string, operator: string): (r: Result<World>)
    ensures r.Ok? ==> AddsOneEvent(w, r.value, tx) && SameBooks(w, r.value)
  {
    var invoice :- ReadInvoice(w, invoiceId);
    :- Need(!invoice.status.Voided?, InvoiceVoided);
    :- Need(invoice.projectId != "", WrongProjectLink);
    var _ :- EnsureUnclaimed(w, invoiceId);
    var project :- ReadProject(w, invoice.projectId);
    :- Need(!project.status.Archived?, WrongStatus);
    :- Need(IsMember(w, tx, project, TrimSpace(operator)), NotAuthorised);
    :- Need(SameBusiness(invoice, project), OutOfScope);
    Ok(PutEvent(PutInvoice(w, invoice.id, invoice.(projectId := "")), tx, invoice.projectId, UnlinkInvoice, operator, ""))
  }

  const HANDLERS: set<Role> := {Issuer, Holder, ProjectMember}

  function TransferInvoice(w: World, tx: Tx, id: string, rawTo: string, rawToMsp: string, rawOperator: string): (r: Result<World>)
    ensures r.Ok? ==> AddsOneFlow(w, r.value, tx) && SameBooks(w, r.value) && MovesInvoice(w, r.value, id)
    ensures r.Ok? ==> id in w.invoices && w.invoices[id].holder == TrimSpace(rawOperator) && r.value.invoices[id].holder == TrimSpace(rawTo)
  {
    var invoice :- ReadInvoice(w, id);
    var to, toMsp, operator := TrimSpace(rawTo), TrimSpace(rawToMsp), TrimSpace(rawOperator);
    :- Need(to != "" && to != invoice.holder, BadField);
    :- Need(!invoice.status.Voided?, InvoiceVoided);
    :- Need(BusinessMsp(toMsp), BadField);
    var target := ReadUser(w, to);
    :- Need(target.Some? && target.value.active && target.value.msp == toMsp && target.value.role == Holder, NotAuthorised);
    :- Need(invoice.holderMsp != "" && tx.msp == invoice.holderMsp && invoice.holder == operator, NotAuthorised);
    :- Need(ActiveUser(w, tx, operator, tx.msp, HANDLERS), NotAuthorised);
    var operatorOrg :- UserOrganization(w, operator);
    :- Need(!Clash(invoice.holderOrganizationId, operatorOrg), OutOfScope);
    var targetOrg :- UserOrganization(w, to);
    var moved := invoice.(holder := to, holderMsp := toMsp, holderOrganizationId := targetOrg, status := InCirculation);
    Ok(PutFlow(PutInvoice(w, id, moved), tx, id, Transfer, invoice.holder, to, tx.msp))
  }

  function RequestInvoiceTransfer(w: World, tx: Tx, id: string, rawTo: string, rawToMsp: string, rawOperator: string): (r: Result<World>)
    ensures r.Ok? ==> AddsOneFlow(w, r.value, tx) && SameBooks(w, r.value) && r.value.invoices == w.invoices
  {
    var invoice :- ReadInvoice(w, id);
    var to, toMsp, operator := TrimSpace(rawTo), TrimSpace(rawToMsp), TrimSpace(rawOperator);
    :- Need(to != "" && to != invoice.holder, BadField);
    :- Need(!invoice.status.Voided?, InvoiceVoided);
    :- Need(tx.msp == invoice.holderMsp && operator == invoice.holder, NotAuthorised);
    :- Need(ActiveUser(w, tx, operator, tx.msp, HANDLERS), NotAuthorised);
    :- Need(RegisteredRole(w, to, toMsp, HANDLERS), NotAuthorised);
    :- Need(!TransferIsPending(w, id), AlreadyExists);
    var w1 := w.(transfers := w.transfers[id := InvoiceTransfer(id, operator, to, toMsp, TransferPending)]);
    Ok(PutFlow(w1, tx, id, TransferRequested, operator, to, tx.msp))
  }

  function RespondInvoiceTransfer(w: World, tx: Tx, id: string, decision: Decision, rawRecipient: string): (r: Result<World>)
    ensures r.Ok? ==> AddsOneFlow(w, r.value, tx) && SameBooks(w, r.value)
    ensures r.Ok? ==> r.value.invoices == w.invoices || (decision.Approve? && AcceptsTransfer(w, r.value, id, TrimSpace(rawRecipient)))
  {
    var transfer :- ReadTransfer(w, id);
    :- Need(transfer.status.TransferPending?, WrongStatus);
    var recipient := TrimSpace(rawRecipient);
    :- Need(!decision.Unrecognised?, BadField);
    :- Need(recipient == transfer.to, NotAuthorised);
    :- Need(ActiveUser(w, tx, recipient, transfer.toMsp, HANDLERS), NotAuthorised);
    if decision.Decline? then
      var w1 := w.(transfers := w.transfers[id := transfer.(status := TransferRejected)]);
      Ok(PutFlow(w1, tx, id, TransferRejection, transfer.from, transfer.to, transfer.toMsp))
    else
      var invoice :- ReadInvoice(w, id);
      :- Need(invoice.holder == transfer.from && !invoice.status.Voided?, WrongStatus);
      var targetOrg :- UserOrganization(w, recipient);
      var moved := invoice.(holder := recipient, holderMsp := transfer.toMsp, holderOrganizationId := targetOrg,
                            status := InCirculation);
      var w1 := PutInvoice(w, id, moved);
      var w2 := w1.(transfers := w1.transfers[id := transfer.(status := TransferAccepted)]);
      Ok(PutFlow(w2, tx, id, TransferAcceptance, transfer.from, recipient, transfer.toMsp))
  }

  function CancelInvoiceTransfer(w: World, tx: Tx, id: string, operator: string): (r: Result<World>)
    ensures r.Ok? ==> AddsOneFlow(w, r.value, tx) && SameBooks(w, r.value) && r.value.invoices == w.invoices
  {
    var transfer :- ReadTransfer(w, id);
    :- Need(transfer.status.TransferPending?, WrongStatus);
    :- Need(TrimSpace(operator) == transfer.from, NotAuthorised);
    var invoice :- ReadInvoice(w, id);
    :- Need(invoice.holder == operator, NotAuthorised);
    var w1 := w.(transfers := w.transfers[id := transfer.(status := TransferCancelled)]);
    Ok(PutFlow(w1, tx, id, TransferCancellation, transfer.from, transfer.to, invoice.holderMsp))
  }

  function VoidInvoice(w: World, tx: Tx, id: string, reasonOk: bool, rawOperator: string): (r: Result<World>)
    ensures r.Ok? ==> AddsOneFlow(w, r.value, tx) && SameBooks(w, r.value) && MovesInvoice(w, r.value, id)
    ensures r.Ok? ==> id in w.invoices && r.value.invoices[id].Place() == w.invoices[id].Place()
  {
    var invoice :- ReadInvoice(w, id);
    var operator := TrimSpace(rawOperator);
    :- Need(reasonOk, BadField);
    :- Need(!invoice.status.Voided?, InvoiceVoided);
    :- Need(invoice.issuerMsp != "" && tx.msp == invoice.issuerMsp, NotAuthorised);
    :- Need(ActiveUser(w, tx, operator, tx.msp, {Issuer}), NotAuthorised);
    var operatorOrg :- UserOrganization(w, operator);
    :- Need(!Clash(invoice.issuerOrganizationId, operatorOrg), OutOfScope);
    var _ :- EnsureUnclaimed(w, id);
    Ok(PutFlow(PutInvoice(w, id, invoice.(status := Voided)), tx, id, Void, invoice.holder, "VOIDED", tx.msp))
  }

  function RequestInvoiceVoid(w: World, tx: Tx, id: string, reasonOk: bool, rawApplicant: string): (r: Result<World>)
    ensures r.Ok? ==> AddsOneFlow(w, r.value, tx) && SameBooks(w, r.value) && r.value.invoices == w.invoices
  {
    var invoice :- ReadInvoice(w, id);
    var applicant := TrimSpace(rawApplicant);
    :- Need(reasonOk && applicant != "", BadField);
    :- Need(!invoice.status.Voided?, InvoiceVoided);
    var _ :- EnsureUnclaimed(w, id);
    :- Need(invoice.projectId != "", WrongProjectLink);
    var project :- ReadProject(w, invoice.projectId);
    :- Need(IsMember(w, tx, project, applicant), NotAuthorised);
    var existing := ReadVoidRequest(w, id);
    :- Need(!VoidIsPending(w, id), AlreadyExists);
    var request := if existing.Ok? then existing.value else VoidRequest(id, applicant, VoidPending);
    var w1 := w.(voidRequests := w.voidRequests[id := request.(applicant := applicant, status := VoidPending)]);
    Ok(PutFlow(w1, tx, id, VoidRequested, applicant, "ISSUER_REVIEW", tx.msp))
  }

  function ReviewInvoiceVoid(w: World, tx: Tx, id: string, decision: Decision, opinionOk: bool, rawReviewer: string): (r: Result<World>)
    ensures r.Ok? ==> AddsOneFlow(w, r.value, tx) && SameBooks(w, r.value) && id in w.invoices
    ensures r.Ok? ==> r.value.invoices == w.invoices || (MovesInvoice(w, r.value, id) && r.value.invoices[id].Place() == w.invoices[id].Place())
  {
    var invoice :- ReadInvoice(w, id);
    var request :- ReadVoidRequest(w, id);
    var reviewer := TrimSpace(rawReviewer);
    :- Need(request.status.VoidPending?, WrongStatus);
    :- Need(!decision.Unrecognised? && opinionOk && reviewer != "", BadField);
    :- Need(tx.msp == invoice.issuerMsp, NotAuthorised);
    :- Need(ActiveUser(w, tx, reviewer, tx.msp, {Issuer}), NotAuthorised);
    var reviewerOrg :- UserOrganization(w, reviewer);
    :- Need(!Clash(invoice.issuerOrganizationId, reviewerOrg), OutOfScope);
    if decision.Decline? then
      var w1 := w.(voidRequests := w.voidRequests[id := request.(status := VoidRejected)]);
      Ok(PutFlow(w1, tx, id, VoidRejection, reviewer, request.applicant, tx.msp))
    else
      :- Need(!invoice.status.Voided?, InvoiceVoided);
      var _ :- EnsureUnclaimed(w, id);
      var w1 := PutInvoice(w, id, invoice.(status := Voided));
      var w2 := w1.(voidRequests := w1.voidRequests[id := request.(status := VoidApproved)]);
      Ok(PutFlow(w2, tx, id, Void, invoice.holder, "VOIDED", tx.msp))
  }

  // ----- reimbursements -----

  function CreateReimbursement(w: World, tx: Tx, rawId: string, rawProject: string, rawInvoice: string, rawApplicant: string,
                               evidenceOk: bool): (r: Result<World>)
    ensures r.Ok? ==> AddsOneEvent(w, r.value, tx) && MovesClaim(w, r.value, TrimSpace(rawId))
  {
    var id, projectId := TrimSpace(rawId), TrimSpace(rawProject);
    var invoiceId, applicant := TrimSpace(rawInvoice), TrimSpace(rawApplicant);
    :- Need(id != "" && projectId != "" && invoiceId != "" && applicant != "" && KeySafe(id), BadField);
    :- Need(id !in w.claims, AlreadyExists);
    var project :- ReadProject(w, projectId);
    :- Need(InSettlement(project.status), WrongStatus);
    :- Need(IsMember(w, tx, project, applicant), NotAuthorised);
    var invoice :- ReadInvoice(w, invoiceId);
    :- Need(!invoice.status.Voided?, InvoiceVoided);
    :- Need(invoice.projectId == projectId, WrongProjectLink);
    :- Need(invoiceId !in w.guard, InvoiceInUse);
    :- Need(evidenceOk, BadField);
    :- Need(0 < invoice.total <= MAX_MONEY_CENTS, AmountInvalid);
    var w1 := PutClaim(w, id, Claim(id, projectId, invoiceId, applicant, invoice.total, Pending));
    var w2 := w1.(guard := w1.guard[invoiceId := id]);
    Ok(PutEvent(w2, tx, projectId, SubmitReimbursement, applicant, id))
  }

  function ReviewReimbursement(w: World, tx: Tx, id: string, decision: Decision, opinionOk: bool, rawReviewer: string): (r: Result<World>)
    ensures r.Ok? ==> AddsOneEvent(w, r.value, tx) && MovesClaim(w, r.value, id) && RestatesClaim(w, r.value, id)
  {
    var claim :- ReadClaim(w, id);
    :- Need(claim.status.Pending?, WrongStatus);
    var reviewer := TrimSpace(rawReviewer);
    :- Need(reviewer != "" && opinionOk && !decision.Unrecognised?, BadField);
    var project :- ReadProject(w, claim.projectId);
    :- Need(IsManager(w, tx, project, reviewer, ProjectReviewer), NotAuthorised);
    var invoice :- ReadInvoice(w, claim.invoiceId);
    :- Need(!invoice.status.Voided?, InvoiceVoided);
    :- Need(0 < claim.amount <= MAX_MONEY_CENTS, AmountInvalid);
    if decision.Approve? then
      :- Need(project.available >= claim.amount, InsufficientBalance);
      var funded := project.(available := Wrap64(project.available - claim.amount),
                             reserved := Wrap64(project.reserved + claim.amount));
      var w1 := PutClaim(PutProject(w, project.id, funded), id, claim.(status := Reserved));
      Ok(PutEvent(w1, tx, claim.projectId, ReimbursementApprove, reviewer, claim.id))
    else
      Ok(PutEvent(PutClaim(w, id, claim.(status := Revision)), tx, claim.projectId, ReimbursementRevision, reviewer, claim.id))
  }

  function ResubmitReimbursement(w: World, tx: Tx, id: string, evidenceOk: bool, applicant: string): (r: Result<World>)
    ensures r.Ok? ==> AddsOneEvent(w, r.value, tx) && MovesClaim(w, r.value, id) && RestatesClaim(w, r.value, id)
  {
    var claim :- ReadClaim(w, id);
    :- Need(claim.status.Revision?, WrongStatus);
    var project :- ReadProject(w, claim.projectId);
    :- Need(IsMember(w, tx, project, applicant), NotAuthorised);
    :- Need(evidenceOk, BadField);
    Ok(PutEvent(PutClaim(w, id, claim.(status := Pending)), tx, claim.projectId, LedgerTypes.ResubmitReimbursement, applicant, id))
  }

  /** The project record after a reserved amount has been released. */
  function Release(project: Project, amount: int): Result<Project> {
    var available := CheckedAddMoney(project.available, amount);
    :- Need(project.reserved >= amount, BalanceInconsistent);
    :- Need(available.Ok? && available.value <= Wrap64(project.budget - project.paid), BalanceInconsistent);
    Ok(project.(available := available.value, reserved := Wrap64(project.reserved - amount)))
  }

  /** The part of a withdrawal that gives a frozen amount back to the project. */
  function Unfreeze(w: World, project: Project, claim: Claim): (r: Result<World>)
    ensures r.Ok? && r.value != w ==> project.id in r.value.projects && r.value == PutProject(w, project.id, r.value.projects[project.id])
  {
    if !claim.status.Reserved? then Ok(w) else
      var released :- Release(project, claim.amount);
      Ok(PutProject(w, project.id, released))
  }

  function WithdrawReimbursement(w: World, tx: Tx, id: string, applicant: string): (r: Result<World>)
    ensures r.Ok? ==> AddsOneEvent(w, r.value, tx) && MovesClaim(w, r.value, id) && RestatesClaim(w, r.value, id)
  {
    var claim :- ReadClaim(w, id);
    :- Need(claim.status.Open(), WrongStatus);
    var project :- ReadProject(w, claim.projectId);
    :- Need(IsMember(w, tx, project, applicant), NotAuthorised);
    hide Unfreeze, IsMember, TrimSpace;
    var w1 :- Unfreeze(w, project, claim);
    assert w1 == w.(projects := w1.projects);
    var w2 := PutClaim(w1, id, claim.(status := Withdrawn));
    var w3 := w2.(guard := w2.guard - {claim.invoiceId});
    Ok(PutEvent(w3, tx, project.id, LedgerTypes.WithdrawReimbursement, applicant, id))
  }

  function PayReimbursement(w: World, tx: Tx, id: string, rawOperator: string): (r: Result<World>)
    ensures r.Ok? ==> AddsOneEvent(w, r.value, tx) && MovesClaim(w, r.value, id) && RestatesClaim(w, r.value, id)
  {
    var claim :- ReadClaim(w, id);
    :- Need(claim.status.Reserved?, WrongStatus);
    var operator := TrimSpace(rawOperator);
    :- Need(operator != "", BadField);
    var project :- ReadProject(w, claim.projectId);
    :- Need(IsManager(w, tx, project, operator, FinanceAdmin), NotAuthorised);
    var invoice :- ReadInvoice(w, claim.invoiceId);
    :- Need(!invoice.status.Voided?, InvoiceVoided);
    :- Need(project.reserved >= claim.amount, BalanceInconsistent);
    var charged := project.(reserved := Wrap64(project.reserved - claim.amount), paid := Wrap64(project.paid + claim.amount));
    var w1 := PutClaim(PutProject(w, project.id, charged), id, claim.(status := Paid));
    Ok(PutEvent(w1, tx, project.id, LedgerTypes.PayReimbursement, operator, id))
  }

  // ----- any transaction -----

  predicate OnInvoices(call: Call) {
    || call.CallCreateInvoice? || call.CallLinkInvoice? || call.CallUnlinkInvoice? || call.CallTransferInvoice?
    || call.CallRequestTransfer? || call.CallRespondTransfer? || call.CallCancelTransfer?
    || call.CallVoidInvoice? || call.CallRequestVoid? || call.CallReviewVoid?
  }

  predicate OnClaims(call: Call) {
    call.CallCreateClaim? || call.CallReviewClaim? || call.CallResubmitClaim? || call.CallWithdrawClaim? || call.CallPayClaim?
  }

  /** Calls on users, organizations and projects. */
  function ExecuteOnProjects(w: World, tx: Tx, call: Call): Result<World>
    requires !OnInvoices(call) && !OnClaims(call)
  {
    match call
    case CallRegisterUser(name, ok, msp, role, org) => RegisterBusinessUser(w, tx, name, ok, msp, role, org)
    case CallCreateOrganization(id, ok, kind, parent, creator) => CreateBusinessOrganization(w, tx, id, ok, kind, parent, creator)
    case CallCreateProject(id, ok, budget, applicant, org) => CreateProject(w, tx, id, ok, budget, applicant, org)
    case CallUpdateProject(id, ok, budget, applicant) => UpdateProject(w, tx, id, ok, budget, applicant)
    case CallSubmitProject(id, applicant) => SubmitProject(w, tx, id, applicant)
    case CallReviewProject(id, decision, ok, reviewer) => ReviewProject(w, tx, id, decision, ok, reviewer)
    case CallRequestClosure(id, ok, applicant) => RequestProjectClosure(w, tx, id, ok, applicant)
    case CallReviewClosure(id, decision, ok, reviewer) => ReviewProjectClosure(w, tx, id, decision, ok, reviewer)
    case CallFinalize(id, operator) => FinalizeProjectSettlement(w, tx, id, operator)
    case CallAddMember(id, name, leader) => AddProjectMember(w, tx, id, name, leader)
  }

  function ExecuteOnInvoices(w: World, tx: Tx, call: Call): Result<World>
    requires OnInvoices(call)
  {
    match call
    case CallCreateInvoice(form) => CreateInvoice(w, tx, form)
    case CallLinkInvoice(id, project, operator) => LinkInvoiceToProject(w, tx, id, project, operator)
    case CallUnlinkInvoice(id, operator) => UnlinkInvoiceFromProject(w, tx, id, operator)
    case CallTransferInvoice(id, to, toMsp, operator) => TransferInvoice(w, tx, id, to, toMsp, operator)
    case CallRequestTransfer(id, to, toMsp, operator) => RequestInvoiceTransfer(w, tx, id, to, toMsp, operator)
    case CallRespondTransfer(id, decision, recipient) => RespondInvoiceTransfer(w, tx, id, decision, recipient)
    case CallCancelTransfer(id, operator) => CancelInvoiceTransfer(w, tx, id, operator)
    case CallVoidInvoice(id, ok, operator) => VoidInvoice(w, tx, id, ok, operator)
    case CallRequestVoid(id, ok, applicant) => RequestInvoiceVoid(w, tx, id, ok, applicant)
    case CallReviewVoid(id, decision, ok, reviewer) => ReviewInvoiceVoid(w, tx, id, decision, ok, reviewer)
  }

  function ExecuteOnClaims(w: World, tx: Tx, call: Call): Result<World>
    requires OnClaims(call)
  {
    match call
    case CallCreateClaim(id, project, invoice, applicant, ok) => CreateReimbursement(w, tx, id, project, invoice, applicant, ok)
    case CallReviewClaim(id, decision, ok, reviewer) => ReviewReimbursement(w, tx, id, decision, ok, reviewer)
    case CallResubmitClaim(id, ok, applicant) => ResubmitReimbursement(w, tx, id, ok, applicant)
    case CallWithdrawClaim(id, applicant) => WithdrawReimbursement(w, tx, id, applicant)
    case CallPayClaim(id, operator) => PayReimbursement(w, tx, id, operator)
  }

  function Execute(w: World, tx: Tx, call: Call): Result<World> {
    if OnInvoices(call) then ExecuteOnInvoices(w, tx, call)
    else if OnClaims(call) then ExecuteOnClaims(w, tx, call)
    else ExecuteOnProjects(w, tx, call)
  }

  /** Fabric discards the write set of a refused transaction. */
  function Next(w: World, tx: Tx, call: Call): World {
    var r := Execute(w, tx, call);
    if r.Ok? then r.value else w
  }
}
