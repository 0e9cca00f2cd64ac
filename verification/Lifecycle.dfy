/** The life of a project, as a table of moves, and that the calls on projects make exactly these. */
module Lifecycle {
  import opened Basics
  import opened LedgerTypes
  import opened LedgerRules
  import opened Balances
  import opened LedgerInvariant
  import opened LedgerSteps
  import opened Entitlement

  datatype Mover = Applicant | Reviewer

  /** From where a call takes a project, and to where; how the event store tells it; and whose call it is. */
  datatype Move = Move(from: set<ProjectStatus>, to: ProjectStatus, told: EventKind, mover: Mover)

  predicate MovesStatus(call: Call) {
    || call.CallUpdateProject? || call.CallSubmitProject? || call.CallReviewProject? || call.CallRequestClosure?
    || call.CallReviewClosure?
  }

  /** The table. A decision that is neither word makes no move. */
  function MoveOf(call: Call): Option<Move>
    requires MovesStatus(call)
  {
    match call
    case CallUpdateProject(_, _, _, _) => Some(Move({Draft, RevisionRequired}, Draft, UpdateDraft, Applicant))
    case CallSubmitProject(_, _) => Some(Move({Draft, RevisionRequired}, PendingReview, SubmitApplication, Applicant))
    case CallReviewProject(_, Approve, _, _) => Some(Move({PendingReview}, Executing, ProjectApprove, Reviewer))
    case CallReviewProject(_, Decline, _, _) => Some(Move({PendingReview}, RevisionRequired, ProjectRevision, Reviewer))
    case CallRequestClosure(_, _, _) => Some(Move({Executing}, ClosureReview, EventKind.RequestClosure, Applicant))
    case CallReviewClosure(_, Approve, _, _) => Some(Move({ClosureReview}, FinancialSettlement, ClosureApproveAndReleaseFund, Reviewer))
    case CallReviewClosure(_, Decline, _, _) => Some(Move({ClosureReview}, Executing, ClosureRevision, Reviewer))
    case _ => None
  }

  /** The name that the caller gives. */
  function Name(call: Call): string
    requires MovesStatus(call)
  {
    match call
    case CallUpdateProject(_, _, _, applicant) => applicant
    case CallSubmitProject(_, applicant) => applicant
    case CallReviewProject(_, _, _, reviewer) => reviewer
    case CallRequestClosure(_, _, applicant) => applicant
    case CallReviewClosure(_, _, _, reviewer) => reviewer
  }

  /** The texts that the call asks for are there, and a new budget is in range. */
  predicate WellPut(call: Call)
    requires MovesStatus(call)
  {
    match call
    case CallUpdateProject(_, textOk, budget, _) => textOk && 0 < budget <= MAX_MONEY_CENTS
    case CallSubmitProject(_, _) => true
    case CallReviewProject(_, _, opinionOk, reviewer) => opinionOk && TrimSpace(reviewer) != ""
    case CallRequestClosure(_, materialsOk, _) => materialsOk
    case CallReviewClosure(_, _, opinionOk, reviewer) => opinionOk && TrimSpace(reviewer) != ""
  }

  /** The caller is the applicant, or a reviewer in scope. */
  predicate Entitled(w: World, tx: Tx, p: string, mover: Mover, name: string)
    requires p in w.projects
  {
    match mover
    case Applicant => TrimSpace(name) == w.projects[p].applicant && tx.msp == w.projects[p].applicantMsp
    case Reviewer => Bears(w, TrimSpace(name), tx.msp, ProjectReviewer) && Oversees(w, p, name)
  }

  predicate MoveAdmitted(w: World, tx: Tx, call: Call)
    requires MovesStatus(call)
  {
    var p := TrimSpace(call.id);
    && MoveOf(call).Some? && WellPut(call) && p in w.projects
    && w.projects[p].status in MoveOf(call).value.from && Entitled(w, tx, p, MoveOf(call).value.mover, Name(call))
  }

  /** The project after the move: funding makes the whole budget available, an edit sets a new budget, and no other move touches
      money. */
  function Moved(p: Project, call: Call): Project
    requires MovesStatus(call) && MoveOf(call).Some?
  {
    var to := MoveOf(call).value.to;
    p.(status := to,
       budget := if call.CallUpdateProject? then call.budget else p.budget,
       available := if to.FinancialSettlement? then p.budget else p.available)
  }

  function Told(call: Call, tx: Tx): ProjectEvent
    requires MovesStatus(call) && MoveOf(call).Some?
  {
    var m := MoveOf(call).value;
    ProjectEvent(call.id, tx.id, m.told, if m.mover.Reviewer? then TrimSpace(Name(call)) else Name(call), "")
  }

  /** One project record and one event are put, and nothing else. */
  function Stored(w: World, id: string, p: Project, e: ProjectEvent): World {
    w.(projects := w.projects[id := p], events := w.events[(e.projectId, e.txId) := e], eventLog := w.eventLog + [e])
  }

  /** The call succeeds exactly when the table and the caller allow it, and then does what the table says and nothing else. */
  predicate Lawful(w: World, tx: Tx, call: Call, r: Result<World>)
    requires MovesStatus(call)
  {
    && (r.Ok? <==> MoveAdmitted(w, tx, call))
    && (r.Ok? ==>
          r.value == Stored(w, call.id, Moved(w.projects[TrimSpace(call.id)], call), Told(call, tx)))
  }

  lemma Owner(w: World, tx: Tx, id: string, name: string)
    requires Inv(w) && TrimSpace(id) in w.projects
    ensures IsApplicant(w, tx, w.projects[TrimSpace(id)], name) <==> Entitled(w, tx, TrimSpace(id), Applicant, name)
  {
    ApplicantIff(w, tx, TrimSpace(id), name);
  }

  lemma Judge(w: World, tx: Tx, id: string, name: string)
    requires Inv(w) && TrimSpace(id) in w.projects
    ensures IsManager(w, tx, w.projects[TrimSpace(id)], TrimSpace(name), ProjectReviewer) <==>
            Entitled(w, tx, TrimSpace(id), Reviewer, name)
  {
    hide Inv, IsManager, Bears;
    ManagerIff(w, tx, TrimSpace(id), TrimSpace(name), ProjectReviewer);
  }

  lemma UpdateReads(w: World, tx: Tx, id: string, textOk: bool, budget: int, applicant: string)
    ensures var key, r := TrimSpace(id), UpdateProject(w, tx, id, textOk, budget, applicant);
            && (r.Ok? <==> key in w.projects && (w.projects[key].status.Draft? || w.projects[key].status.RevisionRequired?) && textOk && 0 < budget <= MAX_MONEY_CENTS && IsApplicant(w, tx, w.projects[TrimSpace(id)], applicant))
            && (r.Ok? ==>
                  r.value == Stored(w, id, w.projects[key].(budget := budget, status := Draft), ProjectEvent(id, tx.id, UpdateDraft, applicant, "")))
  {
    hide TrimSpace, IsApplicant, AddsOneEvent, MovesProject;
  }

  lemma UpdateLawful(w: World, tx: Tx, id: string, textOk: bool, budget: int, applicant: string)
    requires Inv(w)
    ensures Lawful(w, tx, CallUpdateProject(id, textOk, budget, applicant), UpdateProject(w, tx, id, textOk, budget, applicant))
  {
    hide Inv, TrimSpace, IsApplicant, Entitled, UpdateProject;
    UpdateReads(w, tx, id, textOk, budget, applicant);
    if TrimSpace(id) in w.projects { Owner(w, tx, id, applicant); }
  }

  lemma SubmitReads(w: World, tx: Tx, id: string, applicant: string)
    ensures var key, r := TrimSpace(id), SubmitProject(w, tx, id, applicant);
            && (r.Ok? <==> key in w.projects && (w.projects[key].status.Draft? || w.projects[key].status.RevisionRequired?) && IsApplicant(w, tx, w.projects[TrimSpace(id)], applicant))
            && (r.Ok? ==>
                  r.value == Stored(w, id, w.projects[key].(status := PendingReview), ProjectEvent(id, tx.id, SubmitApplication, applicant, "")))
  {
    hide TrimSpace, IsApplicant, AddsOneEvent, MovesProject;
  }

  lemma SubmitLawful(w: World, tx: Tx, id: string, applicant: string)
    requires Inv(w)
    ensures Lawful(w, tx, CallSubmitProject(id, applicant), SubmitProject(w, tx, id, applicant))
  {
    hide Inv, TrimSpace, IsApplicant, Entitled, SubmitProject;
    SubmitReads(w, tx, id, applicant);
    if TrimSpace(id) in w.projects { Owner(w, tx, id, applicant); }
  }

  lemma ReviewReads(w: World, tx: Tx, id: string, decision: Decision, opinionOk: bool, reviewer: string)
    ensures var key, r := TrimSpace(id), ReviewProject(w, tx, id, decision, opinionOk, reviewer);
            && (r.Ok? <==> key in w.projects && w.projects[key].status.PendingReview? && !decision.Unrecognised? && opinionOk && TrimSpace(reviewer) != "" && IsManager(w, tx, w.projects[TrimSpace(id)], TrimSpace(reviewer), ProjectReviewer))
            && (r.Ok? ==>
                  r.value == Stored(w, id, w.projects[key].(status := if decision.Approve? then Executing else RevisionRequired), ProjectEvent(id, tx.id, if decision.Approve? then ProjectApprove else ProjectRevision, TrimSpace(reviewer), "")))
  {
    hide TrimSpace, IsManager, AddsOneEvent, MovesProject;
  }

  lemma ReviewLawful(w: World, tx: Tx, id: string, decision: Decision, opinionOk: bool, reviewer: string)
    requires Inv(w)
    ensures Lawful(w, tx, CallReviewProject(id, decision, opinionOk, reviewer), ReviewProject(w, tx, id, decision, opinionOk, reviewer))
  {
    hide Inv, TrimSpace, IsManager, Entitled, ReviewProject;
    ReviewReads(w, tx, id, decision, opinionOk, reviewer);
    if TrimSpace(id) in w.projects { Judge(w, tx, id, reviewer); }
  }

  lemma ClosureReads(w: World, tx: Tx, id: string, materialsOk: bool, applicant: string)
    ensures var key, r := TrimSpace(id), RequestProjectClosure(w, tx, id, materialsOk, applicant);
            && (r.Ok? <==> key in w.projects && w.projects[key].status.Executing? && materialsOk && IsApplicant(w, tx, w.projects[TrimSpace(id)], applicant))
            && (r.Ok? ==>
                  r.value == Stored(w, id, w.projects[key].(status := ClosureReview), ProjectEvent(id, tx.id, EventKind.RequestClosure, applicant, "")))
  {
    hide TrimSpace, IsApplicant, AddsOneEvent, MovesProject;
  }

  lemma ClosureLawful(w: World, tx: Tx, id: string, materialsOk: bool, applicant: string)
    requires Inv(w)
    ensures Lawful(w, tx, CallRequestClosure(id, materialsOk, applicant), RequestProjectClosure(w, tx, id, materialsOk, applicant))
  {
    hide Inv, TrimSpace, IsApplicant, Entitled, RequestProjectClosure;
    ClosureReads(w, tx, id, materialsOk, applicant);
    if TrimSpace(id) in w.projects { Owner(w, tx, id, applicant); }
  }

  lemma ClosureReviewReads(w: World, tx: Tx, id: string, decision: Decision, opinionOk: bool, reviewer: string)
    ensures var key, r := TrimSpace(id), ReviewProjectClosure(w, tx, id, decision, opinionOk, reviewer);
            && (r.Ok? <==> key in w.projects && w.projects[key].status.ClosureReview? && !decision.Unrecognised? && opinionOk && TrimSpace(reviewer) != "" && IsManager(w, tx, w.projects[TrimSpace(id)], TrimSpace(reviewer), ProjectReviewer))
            && (r.Ok? ==>
                  r.value == Stored(w, id, w.projects[key].(
                    status := if decision.Approve? then FinancialSettlement else Executing,
                    available := if decision.Approve? then w.projects[key].budget else w.projects[key].available), ProjectEvent(id, tx.id, if decision.Approve? then ClosureApproveAndReleaseFund else ClosureRevision, TrimSpace(reviewer), "")))
  {
    hide TrimSpace, IsManager, AddsOneEvent, MovesProject;
  }

  lemma ClosureReviewLawful(w: World, tx: Tx, id: string, decision: Decision, opinionOk: bool, reviewer: string)
    requires Inv(w)
    ensures Lawful(w, tx, CallReviewClosure(id, decision, opinionOk, reviewer), ReviewProjectClosure(w, tx, id, decision, opinionOk, reviewer))
  {
    hide Inv, TrimSpace, IsManager, Entitled, ReviewProjectClosure;
    ClosureReviewReads(w, tx, id, decision, opinionOk, reviewer);
    if TrimSpace(id) in w.projects { Judge(w, tx, id, reviewer); }
  }

  /** On a sound ledger, however the id is spelled, the five calls that move the status of a project do so exactly along the
      table, at the hands of the applicant or a reviewer in scope, and each tells the event store who did it. */
  lemma LifecycleIff(w: World, tx: Tx, call: Call)
    requires Inv(w) && MovesStatus(call)
    ensures Lawful(w, tx, call, Execute(w, tx, call))
  {
    hide Inv, Lawful, UpdateProject, SubmitProject, ReviewProject, RequestProjectClosure, ReviewProjectClosure, MovesProject, AddsOneEvent,
         CreateProject, FinalizeProjectSettlement, AddProjectMember, RegisterBusinessUser, CreateBusinessOrganization, SameBooks,
         DirectoryGrows, ExecuteOnInvoices, ExecuteOnClaims;
    match call
    case CallUpdateProject(id, ok, budget, applicant) => UpdateLawful(w, tx, id, ok, budget, applicant);
    case CallSubmitProject(id, applicant) => SubmitLawful(w, tx, id, applicant);
    case CallReviewProject(id, decision, ok, reviewer) => ReviewLawful(w, tx, id, decision, ok, reviewer);
    case CallRequestClosure(id, ok, applicant) => ClosureLawful(w, tx, id, ok, applicant);
    case CallReviewClosure(id, decision, ok, reviewer) => ClosureReviewLawful(w, tx, id, decision, ok, reviewer);
  }

  // ----- the calls that make a project and its members -----

  predicate MayCreate(w: World, tx: Tx, rawId: string, textOk: bool, budget: int, rawApplicant: string, rawOrganization: string) {
    var id, u, org := TrimSpace(rawId), TrimSpace(rawApplicant), TrimSpace(rawOrganization);
    && PlainId(id) && textOk && u != "" && org != "" && 0 < budget <= MAX_MONEY_CENTS && id !in w.projects
    && u in w.users && w.users[u].active && w.users[u].msp == tx.msp && w.users[u].organizationId == org
    && (w.users[u].role.ProjectMember? || w.users[u].role.Issuer?)
  }

  /** A project is created by a registered member of an organization, for that organization, under a new plain id and with a budget
      in range. It starts as an unfunded draft, with the applicant as its leader and one event. */
  lemma CreationIff(w: World, tx: Tx, rawId: string, textOk: bool, budget: int, rawApplicant: string, rawOrganization: string)
    ensures var id, u, org, r := TrimSpace(rawId), TrimSpace(rawApplicant), TrimSpace(rawOrganization),
                                 CreateProject(w, tx, rawId, textOk, budget, rawApplicant, rawOrganization);
            && (r.Ok? <==> MayCreate(w, tx, rawId, textOk, budget, rawApplicant, rawOrganization))
            && (r.Ok? ==>
                  r.value == Stored(w.(members := w.members[(id, u) := Leader]), id, Project(id, u, tx.msp, org, Draft, budget, 0, 0, 0, 0),
                                    ProjectEvent(id, tx.id, CreateDraft, u, "")))
  {
    assert TrimSpace(TrimSpace(rawApplicant)) == TrimSpace(rawApplicant);
    hide TrimSpace, AddsOneEvent, MovesProject;
  }

  predicate MayAddMember(w: World, tx: Tx, id: string, rawUsername: string, leader: string) {
    var p, u := TrimSpace(id), TrimSpace(rawUsername);
    && p in w.projects && !w.projects[p].status.Archived? && Entitled(w, tx, p, Applicant, leader)
    && u in w.users && w.users[u].active && (w.users[u].role.ProjectMember? || w.users[u].role.Issuer?)
    && w.users[u].msp == w.projects[p].applicantMsp && w.users[u].organizationId == w.projects[p].organizationId
    && (id, u) !in w.members
  }

  lemma OwnerOrganization(w: World, p: string)
    requires Inv(w) && p in w.projects
    ensures w.projects[p].organizationId != ""
  {
    hide Inv, SumOf;
    SoundProject(w, p);
  }

  /** A member is added by the applicant, before the archive, from the active project members and issuers of the project's MSP and
      organization; member and event are stored under the project id as spelled. */
  lemma AddMemberIff(w: World, tx: Tx, id: string, rawUsername: string, leader: string)
    requires Inv(w)
    ensures var r, e := AddProjectMember(w, tx, id, rawUsername, leader), ProjectEvent(id, tx.id, AddMember, leader, "");
            && (r.Ok? <==> MayAddMember(w, tx, id, rawUsername, leader))
            && (r.Ok? ==>
                  r.value == w.(members := w.members[(id, TrimSpace(rawUsername)) := Member],
                                events := w.events[(id, tx.id) := e], eventLog := w.eventLog + [e]))
  {
    hide Inv, TrimSpace, IsApplicant, Entitled, AddsOneEvent, SameBooks;
    assert TrimSpace(TrimSpace(rawUsername)) == TrimSpace(rawUsername);
    if TrimSpace(id) in w.projects {
      OwnerOrganization(w, TrimSpace(id));
      Owner(w, tx, id, leader);
    }
  }
}
