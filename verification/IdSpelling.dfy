/** Records are read under the trimmed id but written back under the id as spelled by the caller. The ledger's
    guarantees survive such a call exactly when the two are the same. */
module IdSpelling {
  import opened Basics
  import opened LedgerTypes
  import opened LedgerRules
  import opened Balances
  import opened Backing
  import opened Histories
  import opened LedgerInvariant
  import opened LedgerSteps
  import opened LedgerRuns
  import opened LedgerTheorems

  /** The calls that write a claim back under the caller's id. */
  predicate WritesClaimBack(call: Call) {
    call.CallReviewClaim? || call.CallResubmitClaim? || call.CallWithdrawClaim? || call.CallPayClaim?
  }

  lemma ClaimWrittenBack(w: World, tx: Tx, call: Call, w': World)
    requires WritesClaimBack(call) && Execute(w, tx, call) == Ok(w')
    ensures RestatesClaim(w, w', call.id)
  {
    hide AddsOneEvent, AddsOneFlow, MovesProject, MovesClaim, RestatesClaim, MovesInvoice, AcceptsTransfer, SameBooks, DirectoryGrows,
         RegisterBusinessUser, CreateBusinessOrganization, CreateProject, UpdateProject, SubmitProject,
         ReviewProject, RequestProjectClosure, ReviewProjectClosure, FinalizeProjectSettlement, AddProjectMember, CreateInvoice,
         LinkInvoiceToProject, UnlinkInvoiceFromProject, TransferInvoice, RequestInvoiceTransfer, RespondInvoiceTransfer,
         CancelInvoiceTransfer, VoidInvoice, RequestInvoiceVoid, ReviewInvoiceVoid, CreateReimbursement, ReviewReimbursement,
         LedgerRules.ResubmitReimbursement, LedgerRules.WithdrawReimbursement, LedgerRules.PayReimbursement;
  }

  lemma UntrimmedIdIsNew(w: World, id: string)
    requires Inv(w) && !Trimmed(id)
    ensures id !in w.claims && id !in w.projects
  {
    hide Inv, TrimSpace, SumOf;
    if id in w.claims { SoundClaim(w, id); }
    if id in w.projects { SoundProject(w, id); }
  }

  lemma UntrimmedBreaksGuard(w: World, w': World, id: string)
    requires Inv(w) && RestatesClaim(w, w', id) && !Trimmed(id)
    ensures !GuardExact(w'.claims, w'.guard)
  {
    hide Inv, TrimSpace, SumOf;
    var r := TrimSpace(id);
    SoundClaim(w, r);
    assert r != id && w'.claims[r] == w.claims[r];
    var broken := if w'.claims[id].status.Withdrawn? then r else id;
    assert Active(w'.claims[broken]);
    assert !(w'.claims[broken].invoiceId in w'.guard && w'.guard[w'.claims[broken].invoiceId] == broken);
  }

  /** The guard index still matches the claims after the call if and only if the id was spelled without outer space. */
  lemma GuardExactIffTrimmed(w: World, tx: Tx, call: Call, w': World)
    requires Inv(w) && Fresh(w, tx) && WritesClaimBack(call) && Execute(w, tx, call) == Ok(w')
    ensures GuardExact(w'.claims, w'.guard) <==> Trimmed(call.id)
  {
    hide Inv, Execute, TrimSpace, AddsOneEvent, SumOf;
    if Trimmed(call.id) {
      ExecuteKeepsInv(w, tx, call);
      GuardFacts(w');
    } else {
      ClaimWrittenBack(w, tx, call, w');
      UntrimmedBreaksGuard(w, w', call.id);
    }
  }

  // ----- money -----

  /** After a payment, the frozen balance of the project is still the sum of its frozen claims if and only if the id
      was spelled without outer space: otherwise the claim that was paid stays frozen and can be paid again. */
  lemma PaymentKeepsReservedSumIffTrimmed(w: World, tx: Tx, id: string, operator: string)
    requires Inv(w) && LedgerRules.PayReimbursement(w, tx, id, operator).Ok?
    ensures var w' := LedgerRules.PayReimbursement(w, tx, id, operator).value;
            var p := w.claims[TrimSpace(id)].projectId;
            && p in w'.projects
            && (w'.projects[p].reserved == SumOf(w'.claims, p, Reserved) <==> Trimmed(id))
  {
    hide Inv, TrimSpace, IsManager, AddsOneEvent, MovesClaim, RestatesClaim, SumOf;
    var r := TrimSpace(id);
    var w' := LedgerRules.PayReimbursement(w, tx, id, operator).value;
    SoundClaim(w, r);
    SoundProject(w, w.claims[r].projectId);
    SumPut(w.claims, id, w'.claims[id], w.claims[r].projectId, Reserved);
    if !Trimmed(id) { UntrimmedIdIsNew(w, id); }
  }

  // ----- projects -----

  predicate WritesProjectBack(call: Call) {
    || call.CallUpdateProject? || call.CallSubmitProject? || call.CallReviewProject?
    || call.CallRequestClosure? || call.CallReviewClosure?
  }

  ghost predicate ProjectsKeyed(w: World) { forall p :: p in w.projects ==> w.projects[p].id == p }

  lemma ProjectWrittenBack(w: World, tx: Tx, call: Call, w': World)
    requires WritesProjectBack(call) && Execute(w, tx, call) == Ok(w')
    ensures MovesProject(w, w', call.id) && TrimSpace(call.id) in w.projects
  {
    hide AddsOneEvent, AddsOneFlow, MovesProject, MovesClaim, RestatesClaim, MovesInvoice, AcceptsTransfer, SameBooks, DirectoryGrows,
         RegisterBusinessUser, CreateBusinessOrganization, CreateProject, UpdateProject, SubmitProject,
         ReviewProject, RequestProjectClosure, ReviewProjectClosure, FinalizeProjectSettlement, AddProjectMember, CreateInvoice,
         LinkInvoiceToProject, UnlinkInvoiceFromProject, TransferInvoice, RequestInvoiceTransfer, RespondInvoiceTransfer,
         CancelInvoiceTransfer, VoidInvoice, RequestInvoiceVoid, ReviewInvoiceVoid, CreateReimbursement, ReviewReimbursement,
         LedgerRules.ResubmitReimbursement, LedgerRules.WithdrawReimbursement, LedgerRules.PayReimbursement;
  }

  lemma KeyedAfterMove(w: World, w': World, id: string)
    requires Inv(w) && MovesProject(w, w', id) && TrimSpace(id) in w.projects
    ensures ProjectsKeyed(w') <==> Trimmed(id)
  {
    hide Inv, TrimSpace, SumOf;
    forall p | p in w.projects ensures w.projects[p].id == p { SoundProject(w, p); }
    assert id in w'.projects && w'.projects[id].id == TrimSpace(id);
  }

  /** Project records stay under their own ids if and only if the id was spelled without outer space. */
  lemma ProjectsKeyedIffTrimmed(w: World, tx: Tx, call: Call, w': World)
    requires Inv(w) && WritesProjectBack(call) && Execute(w, tx, call) == Ok(w')
    ensures ProjectsKeyed(w') <==> Trimmed(call.id)
  {
    hide Inv, Execute, TrimSpace, MovesProject;
    ProjectWrittenBack(w, tx, call, w');
    KeyedAfterMove(w, w', call.id);
  }

  // ----- members -----

  /** Every event is of a stored project, so that GetProjectEvents finds it. */
  ghost predicate EventsNamed(w: World) { forall e :: e in w.eventLog ==> e.projectId in w.projects }

  lemma SoundEventsNamed(w: World)
    requires Inv(w)
    ensures EventsNamed(w)
  {
    hide BooksOk, BackingOk, NumbersOk, CustodyOk, EventStoreOk, FlowStoreOk, ApplicantsOk, OrganizationsOk, Replay;
    forall e | e in w.eventLog ensures e.projectId in w.projects { assert Recorded(w.projects, w.claims, e); }
  }

  /** What AddProjectMember writes: the member and the event are stored under the project id as spelled. */
  lemma MemberStored(w: World, tx: Tx, id: string, name: string, leader: string)
    requires AddProjectMember(w, tx, id, name, leader).Ok?
    ensures var w' := AddProjectMember(w, tx, id, name, leader).value;
            && TrimSpace(id) in w.projects && w'.projects == w.projects && w'.users == w.users
            && w'.members == w.members[(id, TrimSpace(name)) := Member]
            && w'.eventLog == w.eventLog + [ProjectEvent(id, tx.id, AddMember, leader, "")]
            && TrimSpace(name) in w.users && w.users[TrimSpace(name)].active
            && w.users[TrimSpace(name)].msp == w.projects[TrimSpace(id)].applicantMsp
            && (w.users[TrimSpace(name)].role.ProjectMember? || w.users[TrimSpace(name)].role.Issuer?)
  {
    hide TrimSpace, AddsOneEvent, SameBooks, IsApplicant;
  }

  /** After a new member, every event still names a stored project if and only if the id was spelled without outer space. */
  lemma EventsNamedIffTrimmed(w: World, tx: Tx, id: string, name: string, leader: string)
    requires Inv(w) && AddProjectMember(w, tx, id, name, leader).Ok?
    ensures EventsNamed(AddProjectMember(w, tx, id, name, leader).value) <==> Trimmed(id)
  {
    hide Inv, TrimSpace, AddProjectMember;
    MemberStored(w, tx, id, name, leader);
    SoundEventsNamed(w);
    var w' := AddProjectMember(w, tx, id, name, leader).value;
    assert w'.eventLog[|w.eventLog|].projectId == id;
    if Trimmed(id) {
      forall e | e in w'.eventLog ensures e.projectId in w'.projects {
        assert e in w.eventLog || e == w'.eventLog[|w.eventLog|];
      }
    } else {
      UntrimmedIdIsNew(w, id);
      assert w'.eventLog[|w.eventLog|] in w'.eventLog;
    }
  }

  /** The new member passes the membership check of the project if and only if the id was spelled without outer space, or
      the member passed it before. */
  lemma MemberFoundIff(w: World, tx: Tx, id: string, name: string, leader: string, tx': Tx)
    requires Inv(w) && AddProjectMember(w, tx, id, name, leader).Ok?
    requires TrimSpace(id) in w.projects && tx'.msp == w.projects[TrimSpace(id)].applicantMsp
    ensures var p := w.projects[TrimSpace(id)];
            IsMember(AddProjectMember(w, tx, id, name, leader).value, tx', p, TrimSpace(name)) <==>
            Trimmed(id) || IsMember(w, tx', p, TrimSpace(name))
  {
    hide Inv, TrimSpace, AddProjectMember, SumOf;
    MemberStored(w, tx, id, name, leader);
    SoundProject(w, TrimSpace(id));
  }

  // ----- the whole invariant -----

  lemma SoundProjectsKeyed(w: World)
    requires Inv(w)
    ensures ProjectsKeyed(w)
  {
    hide Inv, SumOf;
    forall p | p in w.projects ensures w.projects[p].id == p { SoundProject(w, p); }
  }

  lemma UntrimmedCall(call: Call)
    requires !TrimmedIds(call)
    ensures (WritesClaimBack(call) || WritesProjectBack(call)) ==> !Trimmed(call.id)
    ensures !WritesClaimBack(call) && !WritesProjectBack(call) ==> call.CallAddMember? && !Trimmed(call.projectId)
  {}

  lemma AddMemberCall(w: World, tx: Tx, id: string, name: string, leader: string)
    ensures Execute(w, tx, CallAddMember(id, name, leader)) == AddProjectMember(w, tx, id, name, leader)
  {
    hide ExecuteOnInvoices, ExecuteOnClaims, AddsOneEvent, MovesProject, SameBooks, DirectoryGrows, AddProjectMember;
  }

  /** A call that succeeds on a sound ledger leaves it sound if and only if the record id that it writes back under is spelled
      without outer space. */
  lemma InvKeptIffTrimmed(w: World, tx: Tx, call: Call, w': World)
    requires Inv(w) && Fresh(w, tx) && Execute(w, tx, call) == Ok(w')
    ensures Inv(w') <==> TrimmedIds(call)
  {
    hide Inv, Fresh, TrimmedIds, Execute, GuardExact, ProjectsKeyed, EventsNamed, WritesClaimBack, WritesProjectBack, AddProjectMember;
    if TrimmedIds(call) {
      ExecuteKeepsInv(w, tx, call);
    } else {
      UntrimmedCall(call);
      if Inv(w') {
        GuardFacts(w');
        SoundProjectsKeyed(w');
        SoundEventsNamed(w');
      }
      if WritesClaimBack(call) {
        GuardExactIffTrimmed(w, tx, call, w');
      } else if WritesProjectBack(call) {
        ProjectsKeyedIffTrimmed(w, tx, call, w');
      } else {
        AddMemberCall(w, tx, call.projectId, call.username, call.leader);
        EventsNamedIffTrimmed(w, tx, call.projectId, call.username, call.leader);
      }
    }
  }
}
