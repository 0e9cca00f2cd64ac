/** The whole-ledger invariant, and that every transaction keeps it. */
module LedgerInvariant {
  import opened Basics
  import opened LedgerTypes
  import opened LedgerRules
  import opened Balances
  import opened Backing
  import opened Histories

  /** The applicant of a project has a directory record that makes them its applicant for good. */
  predicate ApplicantSound(users: map<string, BusinessUser>, p: Project) {
    && Trimmed(p.applicant) && p.applicant != ""
    && p.organizationId != "" && Trimmed(p.organizationId)
    && p.applicant in users
    && var user := users[p.applicant];
       && user.active && user.msp == p.applicantMsp && user.organizationId == p.organizationId
       && (user.role.ProjectMember? || user.role.Issuer?)
  }

  ghost predicate ApplicantsOk(projects: map<string, Project>, users: map<string, BusinessUser>) {
    forall p :: p in projects ==> ApplicantSound(users, projects[p])
  }

  predicate OrganizationSound(organizations: map<string, BusinessOrganization>, key: string, o: BusinessOrganization) {
    && o.id == key && Trimmed(key) && key != "" && '#' !in key
    && (if o.kind.ProjectTeam? then
          o.parentId != "" && o.parentId in organizations && organizations[o.parentId].kind.Primary?
        else o.parentId == "")
  }

  /** Organizations form at most two levels. */
  ghost predicate OrganizationsOk(organizations: map<string, BusinessOrganization>) {
    forall o :: o in organizations ==> OrganizationSound(organizations, o, organizations[o])
  }

  ghost predicate Inv(w: World) {
    && BooksOk(w.projects, w.claims)
    && BackingOk(w.claims, w.guard, w.invoices)
    && NumbersOk(w.invoices, w.numbers)
    && HistoryOk(w.projects, w.claims, w.eventLog)
    && CustodyOk(w.invoices, w.flowLog)
    && EventStoreOk(w.events, w.eventLog)
    && FlowStoreOk(w.flows, w.flowLog)
    && ApplicantsOk(w.projects, w.users)
    && OrganizationsOk(w.organizations)
  }

  /** A ledger with any user directory and nothing else. */
  predicate Initial(w: World) {
    w == World(w.users, map[], map[], map[], map[], map[], map[], map[], map[], map[], map[], map[], [], [])
  }

  lemma InitialInv(w: World)
    requires Initial(w)
    ensures Inv(w)
  {
    assert View(w.projects, w.claims) == Books(map[], map[]);
  }

  /** Fabric gives every transaction an id of its own. */
  ghost predicate Fresh(w: World, tx: Tx) {
    && (forall e :: e in w.eventLog ==> e.txId != tx.id)
    && (forall f :: f in w.flowLog ==> f.txId != tx.id)
  }

  /** The record id that the call writes back under is the id it read. */
  predicate TrimmedIds(call: Call) {
    match call
    case CallUpdateProject(id, _, _, _) => Trimmed(id)
    case CallSubmitProject(id, _) => Trimmed(id)
    case CallReviewProject(id, _, _, _) => Trimmed(id)
    case CallRequestClosure(id, _, _) => Trimmed(id)
    case CallReviewClosure(id, _, _, _) => Trimmed(id)
    case CallAddMember(id, _, _) => Trimmed(id)
    case CallReviewClaim(id, _, _, _) => Trimmed(id)
    case CallResubmitClaim(id, _, _) => Trimmed(id)
    case CallWithdrawClaim(id, _) => Trimmed(id)
    case CallPayClaim(id, _) => Trimmed(id)
    case _ => true
  }

  // ----- the frame of a project step, a claim step and a flow -----

  lemma EventStoreGrows(w: World, tx: Tx, projectId: string, kind: EventKind, actor: string, referenceId: string)
    requires EventStoreOk(w.events, w.eventLog) && Fresh(w, tx)
    ensures (projectId, tx.id) !in w.events
    ensures var w' := PutEvent(w, tx, projectId, kind, actor, referenceId); EventStoreOk(w'.events, w'.eventLog)
  {
    forall k | k in w.events ensures k.1 != tx.id { assert w.events[k] in w.eventLog; }
  }

  lemma FlowStoreGrows(w: World, tx: Tx, invoiceId: string, kind: FlowKind, from: string, to: string, operator: string)
    requires FlowStoreOk(w.flows, w.flowLog) && Fresh(w, tx)
    ensures (invoiceId, tx.id) !in w.flows
    ensures var w' := PutFlow(w, tx, invoiceId, kind, from, to, operator); FlowStoreOk(w'.flows, w'.flowLog)
  {
    forall k | k in w.flows ensures k.1 != tx.id { assert w.flows[k] in w.flowLog; }
  }

  lemma ProjectAdvances(projects: map<string, Project>, claims: map<string, Claim>, key: string, p: Project)
    requires key in projects && Funded(projects[key].status) ==> Funded(p.status) && p.budget == projects[key].budget
    ensures Advances(projects, claims, projects[key := p], claims)
  {}

  /** A step of one project record and its event. */
  lemma ProjectStep(w: World, tx: Tx, key: string, p: Project, kind: EventKind, actor: string)
    requires Inv(w) && Fresh(w, tx)
    requires p.id == key && Trimmed(key) && key != "" && '#' !in key && 0 < p.budget <= MAX_MONEY_CENTS && Conserved(p)
    requires if key in w.projects then p.reserved == w.projects[key].reserved && p.paid == w.projects[key].paid
             else p.reserved == 0 && p.paid == 0
    requires key in w.projects ==>
               && p.applicant == w.projects[key].applicant && p.applicantMsp == w.projects[key].applicantMsp
               && p.organizationId == w.projects[key].organizationId
    requires ApplicantSound(w.users, p)
    requires key in w.projects && Funded(w.projects[key].status) ==> Funded(p.status) && p.budget == w.projects[key].budget
    requires p.status.Archived? ==> forall r :: r in w.claims && w.claims[r].projectId == key ==> !w.claims[r].status.Open()
    requires kind.ClosureApproveAndReleaseFund? ==> key in w.projects && !Funded(w.projects[key].status) && Funded(p.status)
    requires !AboutClaim(kind)
    requires Apply(View(w.projects, w.claims), ProjectEvent(key, tx.id, kind, actor, ""),
                   Budgets(w.projects[key := p]), Amounts(w.claims))
          == View(w.projects[key := p], w.claims)
    ensures Inv(PutEvent(PutProject(w, key, p), tx, key, kind, actor, ""))
  {
    hide BooksOk, BackingOk, NumbersOk, CustodyOk, FlowStoreOk, OrganizationsOk, EventStoreOk, HistoryOk, Fresh, Apply, View,
         Replay, ApplicantSound, Advances;
    ProjectMoveKeepsBooks(w.projects, w.claims, key, p);
    ProjectAdvances(w.projects, w.claims, key, p);
    EventStoreGrows(w, tx, key, kind, actor, "");
    AppendKeepsHistory(w.projects, w.claims, w.eventLog, w.projects[key := p], w.claims, ProjectEvent(key, tx.id, kind, actor, ""));
  }

  /** The event that the source emits for a status reached without money moving. */
  predicate Announces(kind: EventKind, status: ProjectStatus) {
    match status
    case Draft => kind.UpdateDraft?
    case PendingReview => kind.SubmitApplication?
    case RevisionRequired => kind.ProjectRevision?
    case Executing => kind.ProjectApprove? || kind.ClosureRevision?
    case ClosureReview => kind.RequestClosure?
    case _ => false
  }

  lemma StatusView(projects: map<string, Project>, claims: map<string, Claim>, p: Project, e: ProjectEvent)
    requires e.projectId in projects && Announces(e.kind, p.status)
    requires p == projects[e.projectId].(status := p.status, budget := p.budget)
    ensures Apply(View(projects, claims), e, Budgets(projects[e.projectId := p]), Amounts(claims))
         == View(projects[e.projectId := p], claims)
  {
    MoveView(projects, claims, e.projectId, p);
  }

  /** A change of status of an existing project, with no change of money. */
  lemma StatusStep(w: World, tx: Tx, key: string, p: Project, kind: EventKind, actor: string)
    requires Inv(w) && Fresh(w, tx)
    requires key in w.projects && !Funded(w.projects[key].status) && Announces(kind, p.status)
    requires p == w.projects[key].(status := p.status, budget := p.budget) && 0 < p.budget <= MAX_MONEY_CENTS
    ensures Inv(PutEvent(PutProject(w, key, p), tx, key, kind, actor, ""))
  {
    hide BackingOk, NumbersOk, HistoryOk, CustodyOk, EventStoreOk, FlowStoreOk, OrganizationsOk, Apply;
    assert ProjectSound(w.claims, key, w.projects[key]);
    assert ApplicantSound(w.users, w.projects[key]);
    StatusView(w.projects, w.claims, p, ProjectEvent(key, tx.id, kind, actor, ""));
    ProjectStep(w, tx, key, p, kind, actor);
  }

  /** The money that a claim event moves: the balances of its project before and after. */
  predicate Settles(kind: EventKind, before: Project, after: Project, was: ClaimStatus, c: Claim) {
    match kind
    case SubmitReimbursement => c.status.Pending? && after == before
    case ReimbursementApprove =>
      && was.Pending? && c.status.Reserved?
      && after == before.(available := before.available - c.amount, reserved := before.reserved + c.amount)
    case ReimbursementRevision => was.Pending? && c.status.Revision? && after == before
    case ResubmitReimbursement => was.Revision? && c.status.Pending? && after == before
    case WithdrawReimbursement =>
      && was.Open() && c.status.Withdrawn?
      && after == if was.Reserved? then before.(available := before.available + c.amount, reserved := before.reserved - c.amount)
                  else before
    case PayReimbursement =>
      && was.Reserved? && c.status.Paid?
      && after == before.(reserved := before.reserved - c.amount, paid := before.paid + c.amount)
    case _ => false
  }

  lemma ViewHas(projects: map<string, Project>, claims: map<string, Claim>, p: string, r: string)
    ensures p in projects ==> p in View(projects, claims).projects && View(projects, claims).projects[p] == PositionOf(projects[p])
    ensures r in claims <==> r in View(projects, claims).claims
    ensures r in claims ==> View(projects, claims).claims[r] == claims[r].status
  {}

  lemma ClaimView(projects: map<string, Project>, claims: map<string, Claim>, c: Claim, p: Project, e: ProjectEvent)
    requires e.projectId in projects && projects[e.projectId].status == p.status
    requires e.kind.SubmitReimbursement? || e.referenceId in claims
    requires var was := if e.referenceId in claims then claims[e.referenceId].status else Pending;
             Settles(e.kind, projects[e.projectId], p, was, c)
    ensures Apply(View(projects, claims), e, Budgets(projects[e.projectId := p]), Amounts(claims[e.referenceId := c]))
         == View(projects[e.projectId := p], claims[e.referenceId := c])
  {
    hide MoveTo, MarkClaim, View;
    ViewHas(projects, claims, e.projectId, e.referenceId);
    MoveView(projects, claims, e.projectId, p);
    MarkView(projects[e.projectId := p], claims, e.referenceId, c);
    if p == projects[e.projectId] {
      assert projects[e.projectId := p] == projects;
    }
  }

  /** One claim record and the project it belongs to take the step that `kind` announces. */
  predicate ClaimTakes(projects: map<string, Project>, claims: map<string, Claim>, c: Claim, p: Project, kind: EventKind) {
    && c.projectId in projects && projects[c.projectId].status.FinancialSettlement?
    && (if kind.SubmitReimbursement? then c.id !in claims
        else c.id in claims && c == claims[c.id].(status := c.status))
    && Settles(kind, projects[c.projectId], p, if c.id in claims then claims[c.id].status else Pending, c)
  }

  lemma ClaimStepKeepsBooks(projects: map<string, Project>, claims: map<string, Claim>, c: Claim, p: Project, kind: EventKind)
    requires BooksOk(projects, claims) && ClaimTakes(projects, claims, c, p, kind)
    requires Trimmed(c.id) && 0 < c.amount <= MAX_MONEY_CENTS && p.available >= 0
    ensures BooksOk(projects[c.projectId := p], claims[c.id := c])
  {
    assert ProjectSound(claims, c.projectId, projects[c.projectId]);
    ClaimMoveKeepsBooks(projects, claims, c.id, c, p);
  }

  lemma ClaimStepKeepsHistory(projects: map<string, Project>, claims: map<string, Claim>, log: seq<ProjectEvent>,
                              c: Claim, p: Project, e: ProjectEvent)
    requires HistoryOk(projects, claims, log) && ClaimTakes(projects, claims, c, p, e.kind)
    requires e.projectId == c.projectId && e.referenceId == c.id
    ensures HistoryOk(projects[c.projectId := p], claims[c.id := c], log + [e])
  {
    hide Apply, Replay, HistoryOk, NoRepeat;
    ClaimView(projects, claims, c, p, e);
    AppendKeepsHistory(projects, claims, log, projects[c.projectId := p], claims[c.id := c], e);
  }

  /** The guard index after the event. */
  function GuardAfter(guard: map<string, string>, c: Claim, kind: EventKind): map<string, string> {
    match kind
    case SubmitReimbursement => guard[c.invoiceId := c.id]
    case WithdrawReimbursement => guard - {c.invoiceId}
    case _ => guard
  }

  /** The invoice that a new claim names is free, valid, linked to the project and of the claimed amount. */
  predicate Claimable(guard: map<string, string>, invoices: map<string, Invoice>, c: Claim) {
    && c.invoiceId !in guard && c.invoiceId in invoices
    && var invoice := invoices[c.invoiceId];
       !invoice.status.Voided? && invoice.projectId == c.projectId && invoice.total == c.amount
  }

  lemma ClaimStepKeepsBacking(w: World, c: Claim, p: Project, kind: EventKind)
    requires BackingOk(w.claims, w.guard, w.invoices) && ClaimTakes(w.projects, w.claims, c, p, kind)
    requires kind.SubmitReimbursement? ==> Claimable(w.guard, w.invoices, c)
    ensures BackingOk(w.claims[c.id := c], GuardAfter(w.guard, c, kind), w.invoices)
  {
    hide BackingOk;
    if kind.SubmitReimbursement? {
      NewClaimKeepsBacking(w.claims, w.guard, w.invoices, c.id, c);
    } else if kind.WithdrawReimbursement? {
      WithdrawalKeepsBacking(w.claims, w.guard, w.invoices, c.id);
    } else {
      StatusMoveKeepsBacking(w.claims, w.guard, w.invoices, c.id, c.status);
    }
  }

  /** A step of one claim record, with the balances, the guard entry and the event that go with it. */
  lemma ClaimStep(w: World, tx: Tx, c: Claim, p: Project, kind: EventKind, actor: string)
    requires Inv(w) && Fresh(w, tx)
    requires Trimmed(c.id) && 0 < c.amount <= MAX_MONEY_CENTS && p.available >= 0
    requires ClaimTakes(w.projects, w.claims, c, p, kind)
    requires kind.SubmitReimbursement? ==> Claimable(w.guard, w.invoices, c)
    ensures Inv(PutEvent(PutClaim(PutProject(w, c.projectId, p), c.id, c).(guard := GuardAfter(w.guard, c, kind)),
                         tx, c.projectId, kind, actor, c.id))
  {
    hide BooksOk, BackingOk, NumbersOk, CustodyOk, FlowStoreOk, OrganizationsOk, HistoryOk, EventStoreOk;
    assert ApplicantSound(w.users, w.projects[c.projectId]);
    ClaimStepKeepsBooks(w.projects, w.claims, c, p, kind);
    ClaimStepKeepsBacking(w, c, p, kind);
    ClaimStepKeepsHistory(w.projects, w.claims, w.eventLog, c, p, ProjectEvent(c.projectId, tx.id, kind, actor, c.id));
    EventStoreGrows(w, tx, c.projectId, kind, actor, c.id);
  }
}
