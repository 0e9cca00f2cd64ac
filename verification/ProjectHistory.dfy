/** The events of one project: they alone rebuild the project and its claims, and none follows its settlement. */
module ProjectHistory {
  import opened Basics
  import opened LedgerTypes
  import opened LedgerRules
  import opened Balances
  import opened Backing
  import opened Histories
  import opened LedgerInvariant
  import opened LedgerSteps
  import opened LedgerRuns
  import opened LedgerTheorems

  // ----- one project's part of the history -----

  /** The events of the project, in commit order. */
  function EventsOf(log: seq<ProjectEvent>, p: string): seq<ProjectEvent> {
    if log == [] then []
    else
      var before, last := EventsOf(log[..|log| - 1], p), log[|log| - 1];
      if last.projectId == p then before + [last] else before
  }

  /** What the books say of the project and of the claims on it. */
  function BooksOf(b: Books, claims: map<string, Claim>, p: string): Books {
    Books(map q | q in b.projects && q == p :: b.projects[q],
          map r | r in b.claims && r in claims && claims[r].projectId == p :: b.claims[r])
  }

  predicate OwnClaim(claims: map<string, Claim>, e: ProjectEvent) {
    AboutClaim(e.kind) ==> e.referenceId in claims && claims[e.referenceId].projectId == e.projectId
  }

  lemma MoveWithin(b: Books, claims: map<string, Claim>, p: string, q: string, position: Position)
    ensures BooksOf(MoveTo(b, q, position), claims, p) ==
            if q == p then MoveTo(BooksOf(b, claims, p), q, position) else BooksOf(b, claims, p)
  {
    var after := BooksOf(MoveTo(b, q, position), claims, p);
    assert after.projects == if q == p then BooksOf(b, claims, p).projects[q := position] else BooksOf(b, claims, p).projects;
    assert after.claims == BooksOf(b, claims, p).claims;
  }

  lemma MarkWithin(b: Books, claims: map<string, Claim>, p: string, r: string, status: ClaimStatus)
    requires r in claims
    ensures BooksOf(MarkClaim(b, r, status), claims, p) ==
            if claims[r].projectId == p then MarkClaim(BooksOf(b, claims, p), r, status) else BooksOf(b, claims, p)
  {
    var after := BooksOf(MarkClaim(b, r, status), claims, p);
    assert after.claims ==
           if claims[r].projectId == p then BooksOf(b, claims, p).claims[r := status] else BooksOf(b, claims, p).claims;
    assert after.projects == BooksOf(b, claims, p).projects;
  }

  /** What an event of the project reads is in its part of the books. */
  lemma PartReads(b: Books, claims: map<string, Claim>, p: string, r: string)
    ensures p in b.projects <==> p in BooksOf(b, claims, p).projects
    ensures p in b.projects ==> BooksOf(b, claims, p).projects[p] == b.projects[p]
    ensures r in claims && claims[r].projectId == p ==>
              (r in b.claims <==> r in BooksOf(b, claims, p).claims) && (r in b.claims ==> BooksOf(b, claims, p).claims[r] == b.claims[r])
  {}

  lemma ProjectEventWithin(b: Books, claims: map<string, Claim>, p: string, e: ProjectEvent, budgets: map<string, int>, amounts: map<string, int>)
    requires !AboutClaim(e.kind)
    ensures BooksOf(Apply(b, e, budgets, amounts), claims, p) ==
            if e.projectId == p then Apply(BooksOf(b, claims, p), e, budgets, amounts) else BooksOf(b, claims, p)
  {
    hide MoveTo, MarkClaim, BooksOf, Histories.At;
    PartReads(b, claims, p, e.referenceId);
    forall position ensures BooksOf(MoveTo(b, e.projectId, position), claims, p) ==
        if e.projectId == p then MoveTo(BooksOf(b, claims, p), e.projectId, position) else BooksOf(b, claims, p)
    {
      MoveWithin(b, claims, p, e.projectId, position);
    }
  }

  /** The writes of a claim event: the claim, and the project too or not. */
  lemma ClaimWritesWithin(b: Books, claims: map<string, Claim>, p: string, r: string, position: Position, status: ClaimStatus)
    requires r in claims
    ensures var q, own := claims[r].projectId, BooksOf(b, claims, p);
            && BooksOf(MarkClaim(b, r, status), claims, p) == (if q == p then MarkClaim(own, r, status) else own)
            && BooksOf(MarkClaim(MoveTo(b, q, position), r, status), claims, p) ==
               (if q == p then MarkClaim(MoveTo(own, q, position), r, status) else own)
  {
    hide MoveTo, MarkClaim, BooksOf;
    MoveWithin(b, claims, p, claims[r].projectId, position);
    MarkWithin(b, claims, p, r, status);
    MarkWithin(MoveTo(b, claims[r].projectId, position), claims, p, r, status);
  }

  lemma ClaimEventWithin(b: Books, claims: map<string, Claim>, p: string, e: ProjectEvent, budgets: map<string, int>, amounts: map<string, int>)
    requires AboutClaim(e.kind) && OwnClaim(claims, e)
    ensures BooksOf(Apply(b, e, budgets, amounts), claims, p) ==
            if e.projectId == p then Apply(BooksOf(b, claims, p), e, budgets, amounts) else BooksOf(b, claims, p)
  {
    hide MoveTo, MarkClaim, BooksOf, Histories.At;
    PartReads(b, claims, p, e.referenceId);
    var r, q, own := e.referenceId, e.projectId, BooksOf(b, claims, p);
    forall status ensures BooksOf(MarkClaim(b, r, status), claims, p) == if q == p then MarkClaim(own, r, status) else own {
      ClaimWritesWithin(b, claims, p, r, UNFUNDED, status);
    }
    forall position, status
      ensures BooksOf(MarkClaim(MoveTo(b, q, position), r, status), claims, p) ==
              (if q == p then MarkClaim(MoveTo(own, q, position), r, status) else own)
    {
      ClaimWritesWithin(b, claims, p, r, position, status);
    }
  }

  /** An event changes the part of its own project only, and reads nothing else. */
  lemma ApplyWithin(b: Books, claims: map<string, Claim>, p: string, e: ProjectEvent, budgets: map<string, int>, amounts: map<string, int>)
    requires OwnClaim(claims, e)
    ensures BooksOf(Apply(b, e, budgets, amounts), claims, p) ==
            if e.projectId == p then Apply(BooksOf(b, claims, p), e, budgets, amounts) else BooksOf(b, claims, p)
  {
    hide Apply, BooksOf;
    if AboutClaim(e.kind) {
      ClaimEventWithin(b, claims, p, e, budgets, amounts);
    } else {
      ProjectEventWithin(b, claims, p, e, budgets, amounts);
    }
  }

  lemma {:induction false} ReplayWithin(log: seq<ProjectEvent>, claims: map<string, Claim>, p: string,
                                        budgets: map<string, int>, amounts: map<string, int>)
    requires forall e :: e in log ==> OwnClaim(claims, e)
    ensures Replay(EventsOf(log, p), budgets, amounts) == BooksOf(Replay(log, budgets, amounts), claims, p)
  {
    hide Apply, OwnClaim, BooksOf;
    if log == [] {
      EmptyPart(claims, p);
    } else {
      var init, last := log[..|log| - 1], log[|log| - 1];
      ReplayWithin(init, claims, p, budgets, amounts);
      ApplyWithin(Replay(init, budgets, amounts), claims, p, last, budgets, amounts);
      assert (EventsOf(init, p) + [last])[..|EventsOf(init, p)|] == EventsOf(init, p);
    }
  }

  lemma EmptyPart(claims: map<string, Claim>, p: string)
    ensures BooksOf(Books(map[], map[]), claims, p) == Books(map[], map[])
  {}

  lemma {:induction false} OwnEvent(log: seq<ProjectEvent>, p: string, e: ProjectEvent)
    ensures e in EventsOf(log, p) <==> e in log && e.projectId == p
  {
    if log != [] {
      var init, last := log[..|log| - 1], log[|log| - 1];
      assert log == init + [last];
      OwnEvent(init, p, e);
    }
  }

  /** The claims on the project. */
  function ClaimsOn(claims: map<string, Claim>, p: string): map<string, Claim> {
    map r | r in claims && claims[r].projectId == p :: claims[r]
  }

  lemma ViewWithin(projects: map<string, Project>, claims: map<string, Claim>, p: string)
    requires p in projects
    ensures BooksOf(View(projects, claims), claims, p) == View(map[p := projects[p]], ClaimsOn(claims, p))
  {
    var part, own := BooksOf(View(projects, claims), claims, p), View(map[p := projects[p]], ClaimsOn(claims, p));
    assert part.projects == own.projects;
    assert part.claims == own.claims;
  }

  lemma SameOwnReading(projects: map<string, Project>, claims: map<string, Claim>, p: string, e: ProjectEvent)
    requires p in projects && e.projectId == p && OwnClaim(claims, e)
    ensures SameReading(e, Budgets(projects), Amounts(claims), Budgets(map[p := projects[p]]), Amounts(ClaimsOn(claims, p)))
  {}

  lemma EventsOwnTheirClaims(w: World)
    requires Inv(w)
    ensures forall e :: e in w.eventLog ==> OwnClaim(w.claims, e)
    ensures Replay(w.eventLog, Budgets(w.projects), Amounts(w.claims)) == View(w.projects, w.claims)
  {
    hide BooksOk, BackingOk, NumbersOk, CustodyOk, EventStoreOk, FlowStoreOk, ApplicantsOk, OrganizationsOk, Replay, View;
    forall e | e in w.eventLog ensures OwnClaim(w.claims, e) { assert Recorded(w.projects, w.claims, e); }
  }

  /** Folding the events of one project in commit order, with nothing but its budget and the amounts of its claims beside them,
      gives its status and balances and the status of every claim on it: no event of another project matters to it. */
  lemma OwnEventsRebuildProject(w: World, p: string)
    requires Reachable(w) && p in w.projects
    ensures Replay(EventsOf(w.eventLog, p), Budgets(map[p := w.projects[p]]), Amounts(ClaimsOn(w.claims, p)))
         == View(map[p := w.projects[p]], ClaimsOn(w.claims, p))
  {
    hide Reachable, Inv, Replay, View, OwnClaim, SameReading, BooksOf, ClaimsOn, Budgets, Amounts, EventsOf;
    ReachableInv(w);
    EventsOwnTheirClaims(w);
    var budgets, amounts := Budgets(w.projects), Amounts(w.claims);
    ReplayWithin(w.eventLog, w.claims, p, budgets, amounts);
    ViewWithin(w.projects, w.claims, p);
    var own := EventsOf(w.eventLog, p);
    forall e | e in own ensures SameReading(e, budgets, amounts, Budgets(map[p := w.projects[p]]), Amounts(ClaimsOn(w.claims, p))) {
      OwnEvent(w.eventLog, p, e);
      SameOwnReading(w.projects, w.claims, p, e);
    }
    ReplayAgrees(own, budgets, amounts, Budgets(map[p := w.projects[p]]), Amounts(ClaimsOn(w.claims, p)));
  }

  // ----- nothing follows the settlement -----

  predicate ArchivedIn(w: World, p: string) { p in w.projects && w.projects[p].status.Archived? }

  /** One event is added; its project was not archived before, and a settlement archives it. */
  predicate AddsLiveEvent(w: World, w': World) {
    && |w'.eventLog| == |w.eventLog| + 1
    && var e := w'.eventLog[|w.eventLog|];
       && w'.eventLog == w.eventLog + [e] && !ArchivedIn(w, e.projectId)
       && (e.kind.FinalizeSettlement? ==> ArchivedIn(w', e.projectId))
  }

  lemma NewProjectIsLive(w: World, tx: Tx, id: string, ok: bool, budget: int, applicant: string, org: string)
    requires CreateProject(w, tx, id, ok, budget, applicant, org).Ok?
    ensures AddsLiveEvent(w, CreateProject(w, tx, id, ok, budget, applicant, org).value)
  {
    hide TrimSpace, ActiveUser, ReadUser, KeySafe, AddsOneEvent, MovesProject;
  }

  lemma UpdateIsLive(w: World, tx: Tx, id: string, ok: bool, budget: int, applicant: string)
    requires Trimmed(id) && UpdateProject(w, tx, id, ok, budget, applicant).Ok?
    ensures AddsLiveEvent(w, UpdateProject(w, tx, id, ok, budget, applicant).value)
  {
    hide TrimSpace, IsApplicant, AddsOneEvent, MovesProject;
  }

  lemma SubmissionIsLive(w: World, tx: Tx, id: string, applicant: string)
    requires Trimmed(id) && SubmitProject(w, tx, id, applicant).Ok?
    ensures AddsLiveEvent(w, SubmitProject(w, tx, id, applicant).value)
  {
    hide TrimSpace, IsApplicant, AddsOneEvent, MovesProject;
  }

  lemma ProjectReviewIsLive(w: World, tx: Tx, id: string, decision: Decision, ok: bool, reviewer: string)
    requires Trimmed(id) && ReviewProject(w, tx, id, decision, ok, reviewer).Ok?
    ensures AddsLiveEvent(w, ReviewProject(w, tx, id, decision, ok, reviewer).value)
  {
    hide TrimSpace, IsManager, AddsOneEvent, MovesProject;
  }

  lemma ClosureRequestIsLive(w: World, tx: Tx, id: string, ok: bool, applicant: string)
    requires Trimmed(id) && RequestProjectClosure(w, tx, id, ok, applicant).Ok?
    ensures AddsLiveEvent(w, RequestProjectClosure(w, tx, id, ok, applicant).value)
  {
    hide TrimSpace, IsApplicant, AddsOneEvent, MovesProject;
  }

  lemma ClosureReviewIsLive(w: World, tx: Tx, id: string, decision: Decision, ok: bool, reviewer: string)
    requires Trimmed(id) && ReviewProjectClosure(w, tx, id, decision, ok, reviewer).Ok?
    ensures AddsLiveEvent(w, ReviewProjectClosure(w, tx, id, decision, ok, reviewer).value)
  {
    hide TrimSpace, IsManager, AddsOneEvent, MovesProject;
  }

  lemma SettlementIsLive(w: World, tx: Tx, id: string, operator: string)
    requires Inv(w) && FinalizeProjectSettlement(w, tx, id, operator).Ok?
    ensures AddsLiveEvent(w, FinalizeProjectSettlement(w, tx, id, operator).value)
  {
    hide Inv, TrimSpace, IsManager, NoneAwaits, SumOf, AddsOneEvent;
    SoundProject(w, TrimSpace(id));
  }

  lemma NewMemberIsLive(w: World, tx: Tx, id: string, name: string, leader: string)
    requires Trimmed(id) && AddProjectMember(w, tx, id, name, leader).Ok?
    ensures AddsLiveEvent(w, AddProjectMember(w, tx, id, name, leader).value)
  {
    hide TrimSpace, IsApplicant, ReadUser, AddsOneEvent, SameBooks;
  }

  lemma LinkIsLive(w: World, tx: Tx, i: string, id: string, operator: string)
    requires Inv(w) && LinkInvoiceToProject(w, tx, i, id, operator).Ok?
    ensures AddsLiveEvent(w, LinkInvoiceToProject(w, tx, i, id, operator).value)
  {
    hide Inv, TrimSpace, IsMember, SameBusiness, EnsureUnclaimed, SumOf, AddsOneEvent, SameBooks;
    SoundProject(w, TrimSpace(id));
  }

  lemma UnlinkIsLive(w: World, tx: Tx, i: string, operator: string)
    requires Inv(w) && UnlinkInvoiceFromProject(w, tx, i, operator).Ok?
    ensures AddsLiveEvent(w, UnlinkInvoiceFromProject(w, tx, i, operator).value)
  {
    hide Inv, TrimSpace, IsMember, SameBusiness, EnsureUnclaimed, AddsOneEvent, SameBooks;
    UnclaimedSound(w, i);
  }

  lemma NewClaimIsLive(w: World, tx: Tx, id: string, project: string, invoice: string, applicant: string, ok: bool)
    requires CreateReimbursement(w, tx, id, project, invoice, applicant, ok).Ok?
    ensures AddsLiveEvent(w, CreateReimbursement(w, tx, id, project, invoice, applicant, ok).value)
  {
    hide TrimSpace, IsMember, KeySafe, AddsOneEvent, MovesClaim;
  }

  /** The project of an open claim is in settlement. */
  lemma OpenClaimIsLive(w: World, r: string)
    requires Inv(w) && r in w.claims && w.claims[r].status.Open()
    ensures var p := w.claims[r].projectId; p in w.projects && w.projects[p].id == p && Trimmed(p) && !ArchivedIn(w, p)
  {
    hide Inv;
    SoundClaim(w, r);
  }

  lemma ReviewIsLive(w: World, tx: Tx, id: string, decision: Decision, ok: bool, reviewer: string)
    requires Inv(w) && ReviewReimbursement(w, tx, id, decision, ok, reviewer).Ok?
    ensures AddsLiveEvent(w, ReviewReimbursement(w, tx, id, decision, ok, reviewer).value)
  {
    hide Inv, TrimSpace, IsManager, Wrap64, AddsOneEvent, MovesClaim, RestatesClaim;
    OpenClaimIsLive(w, TrimSpace(id));
  }

  lemma ResubmissionIsLive(w: World, tx: Tx, id: string, ok: bool, applicant: string)
    requires Inv(w) && LedgerRules.ResubmitReimbursement(w, tx, id, ok, applicant).Ok?
    ensures AddsLiveEvent(w, LedgerRules.ResubmitReimbursement(w, tx, id, ok, applicant).value)
  {
    hide Inv, TrimSpace, IsMember, AddsOneEvent, MovesClaim, RestatesClaim;
    OpenClaimIsLive(w, TrimSpace(id));
  }

  lemma WithdrawalIsLive(w: World, tx: Tx, id: string, applicant: string)
    requires Inv(w) && LedgerRules.WithdrawReimbursement(w, tx, id, applicant).Ok?
    ensures AddsLiveEvent(w, LedgerRules.WithdrawReimbursement(w, tx, id, applicant).value)
  {
    hide Inv, TrimSpace, IsMember, Unfreeze, AddsOneEvent, MovesClaim, RestatesClaim;
    OpenClaimIsLive(w, TrimSpace(id));
    UnfreezeSucceeds(w, TrimSpace(id));
  }

  lemma PaymentIsLive(w: World, tx: Tx, id: string, operator: string)
    requires Inv(w) && LedgerRules.PayReimbursement(w, tx, id, operator).Ok?
    ensures AddsLiveEvent(w, LedgerRules.PayReimbursement(w, tx, id, operator).value)
  {
    hide Inv, TrimSpace, IsManager, Wrap64, AddsOneEvent, MovesClaim, RestatesClaim;
    OpenClaimIsLive(w, TrimSpace(id));
  }

  // ----- every call -----

  lemma ClaimCallIsLive(w: World, tx: Tx, call: Call)
    requires Inv(w) && OnClaims(call) && ExecuteOnClaims(w, tx, call).Ok?
    ensures AddsLiveEvent(w, ExecuteOnClaims(w, tx, call).value)
  {
    hide Inv, AddsLiveEvent, AddsOneEvent, MovesClaim, RestatesClaim, TrimSpace,
         CreateReimbursement, ReviewReimbursement, LedgerRules.ResubmitReimbursement,
         LedgerRules.WithdrawReimbursement, LedgerRules.PayReimbursement;
    match call
    case CallCreateClaim(id, project, invoice, applicant, ok) => NewClaimIsLive(w, tx, id, project, invoice, applicant, ok);
    case CallReviewClaim(id, decision, ok, reviewer) => ReviewIsLive(w, tx, id, decision, ok, reviewer);
    case CallResubmitClaim(id, ok, applicant) => ResubmissionIsLive(w, tx, id, ok, applicant);
    case CallWithdrawClaim(id, applicant) => WithdrawalIsLive(w, tx, id, applicant);
    case CallPayClaim(id, operator) => PaymentIsLive(w, tx, id, operator);
  }

  lemma ProjectCallIsLive(w: World, tx: Tx, call: Call)
    requires Inv(w) && TrimmedIds(call) && ProjectCall(call) && !OnInvoices(call) && !OnClaims(call)
    requires ExecuteOnProjects(w, tx, call).Ok?
    ensures AddsLiveEvent(w, ExecuteOnProjects(w, tx, call).value)
  {
    hide Inv, AddsLiveEvent, AddsOneEvent, MovesProject, SameBooks, DirectoryGrows, TrimSpace,
         RegisterBusinessUser, CreateBusinessOrganization, CreateProject, UpdateProject, SubmitProject,
         ReviewProject, RequestProjectClosure, ReviewProjectClosure, FinalizeProjectSettlement, AddProjectMember;
    match call
    case CallCreateProject(id, ok, budget, applicant, org) => NewProjectIsLive(w, tx, id, ok, budget, applicant, org);
    case CallUpdateProject(id, ok, budget, applicant) => UpdateIsLive(w, tx, id, ok, budget, applicant);
    case CallSubmitProject(id, applicant) => SubmissionIsLive(w, tx, id, applicant);
    case CallReviewProject(id, decision, ok, reviewer) => ProjectReviewIsLive(w, tx, id, decision, ok, reviewer);
    case CallRequestClosure(id, ok, applicant) => ClosureRequestIsLive(w, tx, id, ok, applicant);
    case CallReviewClosure(id, decision, ok, reviewer) => ClosureReviewIsLive(w, tx, id, decision, ok, reviewer);
    case CallFinalize(id, operator) => SettlementIsLive(w, tx, id, operator);
    case CallAddMember(id, name, leader) => NewMemberIsLive(w, tx, id, name, leader);
  }

  lemma LinkCallIsLive(w: World, tx: Tx, call: Call)
    requires Inv(w) && ProjectCall(call) && OnInvoices(call) && ExecuteOnInvoices(w, tx, call).Ok?
    ensures AddsLiveEvent(w, ExecuteOnInvoices(w, tx, call).value)
  {
    hide Inv, AddsLiveEvent, AddsOneEvent, AddsOneFlow, MovesInvoice, AcceptsTransfer, SameBooks, TrimSpace,
         CreateInvoice, LinkInvoiceToProject, UnlinkInvoiceFromProject, TransferInvoice, RequestInvoiceTransfer,
         RespondInvoiceTransfer, CancelInvoiceTransfer, VoidInvoice, RequestInvoiceVoid, ReviewInvoiceVoid;
    match call
    case CallLinkInvoice(i, id, operator) => LinkIsLive(w, tx, i, id, operator);
    case CallUnlinkInvoice(i, operator) => UnlinkIsLive(w, tx, i, operator);
  }

  lemma EventIsLive(w: World, tx: Tx, call: Call)
    requires Inv(w) && TrimmedIds(call) && ProjectCall(call) && Execute(w, tx, call).Ok?
    ensures AddsLiveEvent(w, Execute(w, tx, call).value)
  {
    hide Inv, TrimmedIds, ProjectCall, AddsLiveEvent, ExecuteOnProjects, ExecuteOnInvoices, ExecuteOnClaims;
    if OnInvoices(call) {
      LinkCallIsLive(w, tx, call);
    } else if OnClaims(call) {
      ClaimCallIsLive(w, tx, call);
    } else {
      ProjectCallIsLive(w, tx, call);
    }
  }

  // ----- every run -----

  /** A settlement archives its project, and no later event is of that project. */
  ghost predicate SettlementsLast(w: World) {
    && (forall e :: e in w.eventLog && e.kind.FinalizeSettlement? ==> ArchivedIn(w, e.projectId))
    && (forall i, j :: 0 <= i < j < |w.eventLog| && w.eventLog[i].kind.FinalizeSettlement?
          ==> w.eventLog[j].projectId != w.eventLog[i].projectId)
  }

  ghost predicate ArchivesStay(w: World, w': World) { forall p :: ArchivedIn(w, p) ==> ArchivedIn(w', p) }

  lemma LiveEventKeepsLast(w: World, w': World)
    requires SettlementsLast(w) && AddsLiveEvent(w, w') && ArchivesStay(w, w')
    ensures SettlementsLast(w')
  {
    hide ArchivedIn;
    var n := |w.eventLog|;
    forall e | e in w'.eventLog && e.kind.FinalizeSettlement? ensures ArchivedIn(w', e.projectId) {
      assert e in w.eventLog || e == w'.eventLog[n];
    }
    forall i, j | 0 <= i < j < |w'.eventLog| && w'.eventLog[i].kind.FinalizeSettlement?
      ensures w'.eventLog[j].projectId != w'.eventLog[i].projectId
    {
      assert w'.eventLog[i] == w.eventLog[i] && w.eventLog[i] in w.eventLog;
      if j < n { assert w'.eventLog[j] == w.eventLog[j]; }
    }
  }

  lemma SameEventsKeepLast(w: World, w': World)
    requires SettlementsLast(w) && w'.eventLog == w.eventLog && ArchivesStay(w, w')
    ensures SettlementsLast(w')
  {}

  lemma OtherCallsAddNoEvent(w: World, w': World, tx: Tx, call: Call)
    requires Grows(w, w', tx, call) && !ProjectCall(call)
    ensures w'.eventLog == w.eventLog
  {}

  lemma ExecuteKeepsLast(w: World, tx: Tx, call: Call)
    requires Inv(w) && SettlementsLast(w) && TrimmedIds(call) && Execute(w, tx, call).Ok?
    ensures SettlementsLast(Execute(w, tx, call).value)
  {
    hide Inv, SettlementsLast, TrimmedIds, Execute, Grows, ProjectCall, AddsLiveEvent;
    var w' := Execute(w, tx, call).value;
    forall p | ArchivedIn(w, p) ensures ArchivedIn(w', p) { ArchivedStep(w, tx, call, w', p); }
    if ProjectCall(call) {
      EventIsLive(w, tx, call);
      LiveEventKeepsLast(w, w');
    } else {
      HistoryGrows(w, tx, call);
      OtherCallsAddNoEvent(w, w', tx, call);
      SameEventsKeepLast(w, w');
    }
  }

  lemma {:induction false} RunKeepsLast(w: World, steps: seq<Step>)
    requires Inv(w) && SettlementsLast(w) && Proper(w, steps)
    ensures SettlementsLast(Run(w, steps))
    decreases |steps|
  {
    hide Inv, SettlementsLast, Execute;
    if steps != [] {
      var tx, call := steps[0].tx, steps[0].call;
      if Execute(w, tx, call).Ok? {
        ExecuteKeepsInv(w, tx, call);
        ExecuteKeepsLast(w, tx, call);
      }
      RunKeepsLast(Next(w, tx, call), steps[1..]);
    }
  }

  lemma ReachableLast(w: World)
    requires Reachable(w)
    ensures SettlementsLast(w)
  {
    hide Inv, Run, Proper, ArchivedIn;
    var w0, steps :| Initial(w0) && Proper(w0, steps) && w == Run(w0, steps);
    InitialInv(w0);
    RunKeepsLast(w0, steps);
  }

  // ----- results -----

  /** In every reachable ledger the settlement of a project is its last event. */
  lemma NothingFollowsSettlement(w: World, i: nat, j: nat)
    requires Reachable(w) && i < j < |w.eventLog| && w.eventLog[i].kind.FinalizeSettlement?
    ensures w.eventLog[j].projectId != w.eventLog[i].projectId
  {
    hide Reachable;
    ReachableLast(w);
  }

  /** Only a settlement archives in the fold. */
  lemma {:induction false} ArchivedBySettlement(log: seq<ProjectEvent>, p: string, budgets: map<string, int>, amounts: map<string, int>)
    requires var b := Replay(log, budgets, amounts); p in b.projects && b.projects[p].status.Archived?
    ensures exists i :: 0 <= i < |log| && log[i].projectId == p && log[i].kind.FinalizeSettlement?
  {
    var init, last := log[..|log| - 1], log[|log| - 1];
    hide Replay;
    if last.projectId != p || !last.kind.FinalizeSettlement? {
      SettledBefore(Replay(init, budgets, amounts), last, p, budgets, amounts);
      ArchivedBySettlement(init, p, budgets, amounts);
      var i :| 0 <= i < |init| && init[i].projectId == p && init[i].kind.FinalizeSettlement?;
      assert log[i] == init[i];
    } else {
      assert log[|log| - 1] == last;
    }
  }

  lemma SettledBefore(b: Books, e: ProjectEvent, p: string, budgets: map<string, int>, amounts: map<string, int>)
    requires var after := Apply(b, e, budgets, amounts); p in after.projects && after.projects[p].status.Archived?
    requires e.projectId != p || !e.kind.FinalizeSettlement?
    ensures p in b.projects && b.projects[p].status.Archived?
  {}

  lemma {:induction false} LastOwnEvent(log: seq<ProjectEvent>, p: string, i: nat)
    requires i < |log| && log[i].projectId == p
    requires forall j :: i < j < |log| ==> log[j].projectId != p
    ensures var own := EventsOf(log, p); own != [] && own[|own| - 1] == log[i]
  {
    if i < |log| - 1 { LastOwnEvent(log[..|log| - 1], p, i); }
  }

  /** A stored project is archived exactly when the last of its events is a settlement. */
  lemma ArchivedIffSettledLast(w: World, p: string)
    requires Reachable(w) && p in w.projects
    ensures var own := EventsOf(w.eventLog, p);
            w.projects[p].status.Archived? <==> own != [] && own[|own| - 1].kind.FinalizeSettlement?
  {
    hide Reachable, Inv, EventsOf, Replay, OwnClaim;
    ReachableInv(w);
    ReachableLast(w);
    EventsOwnTheirClaims(w);
    var own := EventsOf(w.eventLog, p);
    if own != [] { OwnEvent(w.eventLog, p, own[|own| - 1]); }
    if w.projects[p].status.Archived? {
      ArchivedBySettlement(w.eventLog, p, Budgets(w.projects), Amounts(w.claims));
      var i :| 0 <= i < |w.eventLog| && w.eventLog[i].projectId == p && w.eventLog[i].kind.FinalizeSettlement?;
      LastOwnEvent(w.eventLog, p, i);
    }
  }
}
