/** A run from a ledger with one registered user to the point where a claim can be paid twice. */
module SpacedRun {
  import opened Basics
  import opened LedgerTypes
  import opened LedgerRules
  import opened LedgerInvariant
  import opened LedgerRuns
  import opened Admission

  const ANN := BusinessUser("Org1MSP", "o", ProjectMember, true)

  /** The n-th transaction id is n letters long. */
  function TxNo(n: nat, msp: string): Tx { Tx(seq(n, _ => 't'), msp) }

  ghost predicate UsedBelow(w: World, n: nat) {
    (forall e :: e in w.eventLog ==> |e.txId| < n) && (forall f :: f in w.flowLog ==> |f.txId| < n)
  }

  lemma EventUsesOne(w: World, w': World, n: nat, msp: string)
    requires UsedBelow(w, n) && AddsOneEvent(w, w', TxNo(n, msp))
    ensures UsedBelow(w', n + 1)
  {
    forall e | e in w'.eventLog ensures |e.txId| < n + 1 {
      var i :| 0 <= i < |w'.eventLog| && w'.eventLog[i] == e;
      if i < |w.eventLog| { assert w.eventLog[i] in w.eventLog; }
    }
  }

  lemma FlowUsesOne(w: World, w': World, n: nat, msp: string)
    requires UsedBelow(w, n) && AddsOneFlow(w, w', TxNo(n, msp))
    ensures UsedBelow(w', n + 1)
  {
    forall f | f in w'.flowLog ensures |f.txId| < n + 1 {
      var i :| 0 <= i < |w'.flowLog| && w'.flowLog[i] == f;
      if i < |w.flowLog| { assert w.flowLog[i] in w.flowLog; }
    }
  }

  lemma GrowthUsesOne(w: World, w': World, n: nat, msp: string, call: Call)
    requires UsedBelow(w, n) && Grows(w, w', TxNo(n, msp), call)
    ensures UsedBelow(w', n + 1)
  {
    hide ProjectCall, DirectoryCall, AddsOneEvent, AddsOneFlow;
    if ProjectCall(call) {
      EventUsesOne(w, w', n, msp);
    } else if !DirectoryCall(call) {
      FlowUsesOne(w, w', n, msp);
    }
  }

  /** The next call of the run. */
  lemma Advance(w: World, n: nat, msp: string, call: Call, w': World)
    requires Reachable(w) && UsedBelow(w, n) && TrimmedIds(call) && Execute(w, TxNo(n, msp), call) == Ok(w')
    ensures Reachable(w') && UsedBelow(w', n + 1) && Fresh(w, TxNo(n, msp))
  {
    hide Reachable, Execute, Grows, TrimmedIds;
    var tx := TxNo(n, msp);
    assert |tx.id| == n;
    HistoryGrows(w, tx, call);
    GrowthUsesOne(w, w', n, msp, call);
    var steps := [Step(tx, call)];
    assert steps[1..] == [];
    assert Proper(w, steps) && Run(w, steps) == Next(w, tx, call);
    RunStaysReachable(w, steps);
  }

  /** The ledger of the run, but for its history. */
  predicate Stage(w: World, p: Project, invoices: map<string, Invoice>, numbers: map<string, string>,
                  claims: map<string, Claim>, guard: map<string, string>)
  {
    && w.users == map["ann" := ANN] && w.organizations == map[]
    && w.projects == map["p" := p] && p.id == "p" && p.applicant == "ann" && p.applicantMsp == "Org1MSP" && p.organizationId == "o"
    && w.members == map[("p", "ann") := Leader] && w.transfers == map[] && w.voidRequests == map[]
    && w.invoices == invoices && w.numbers == numbers && w.claims == claims && w.guard == guard
  }

  function InPhase(status: ProjectStatus, available: int, reserved: int): Project {
    Project("p", "ann", "Org1MSP", "o", status, 60, available, reserved, 0, 0)
  }

  lemma Names()
    ensures TrimSpace("p") == "p" && TrimSpace("ann") == "ann" && TrimSpace("o") == "o" && TrimSpace("") == ""
    ensures TrimSpace("Org1MSP") == "Org1MSP"
    ensures TrimSpace("project-reviewer") == "project-reviewer" && TrimSpace("finance-admin") == "finance-admin"
  {
    assert Trimmed("p") && Trimmed("ann") && Trimmed("o") && Trimmed("");
    assert Trimmed("Org1MSP") && Trimmed("project-reviewer") && Trimmed("finance-admin");
  }

  lemma AnnMayAct(w: World, tx: Tx, p: Project)
    requires tx.msp == "Org1MSP" && w.users == map["ann" := ANN]
    requires p.applicant == "ann" && p.applicantMsp == "Org1MSP" && p.organizationId == "o"
    ensures IsApplicant(w, tx, p, "ann") && IsMember(w, tx, p, "ann") && UserOrganization(w, "ann") == Ok("o")
    ensures ActiveUser(w, tx, "ann", "Org1MSP", {Issuer, ProjectMember}) && ActiveUser(w, tx, "ann", "Org1MSP", {ProjectMember, Issuer})
    ensures ReadUser(w, "ann") == Some(ANN)
  {
    Names();
    hide TrimSpace;
  }

  lemma ReviewerMayAct(w: World, tx: Tx, p: Project)
    requires tx.msp == "Org1MSP" && w.users == map["ann" := ANN] && p.organizationId == "o"
    ensures IsManager(w, tx, p, "project-reviewer", ProjectReviewer)
  {
    Names();
    hide TrimSpace;
  }

  lemma FinanceMayAct(w: World, tx: Tx, p: Project)
    requires tx.msp == "Org2MSP" && w.users == map["ann" := ANN] && p.organizationId == "o"
    ensures IsManager(w, tx, p, "finance-admin", FinanceAdmin)
  {
    Names();
    hide TrimSpace;
  }

  // ----- the project -----

  lemma Create(w: World, tx: Tx)
    requires Initial(w) && w.users == map["ann" := ANN] && tx.msp == "Org1MSP"
    ensures var r := CreateProject(w, tx, "p", true, 60, "ann", "o");
            r.Ok? && Stage(r.value, InPhase(Draft, 0, 0), map[], map[], map[], map[])
  {
    Names();
    AnnMayAct(w, tx, InPhase(Draft, 0, 0));
    assert KeySafe("p");
    hide TrimSpace, ActiveUser, KeySafe, ReadUser, AddsOneEvent, MovesProject;
  }

  lemma Submit(w: World, tx: Tx)
    requires Stage(w, InPhase(Draft, 0, 0), map[], map[], map[], map[]) && tx.msp == "Org1MSP"
    ensures var r := SubmitProject(w, tx, "p", "ann");
            r.Ok? && Stage(r.value, InPhase(PendingReview, 0, 0), map[], map[], map[], map[])
  {
    Names();
    AnnMayAct(w, tx, InPhase(Draft, 0, 0));
    hide TrimSpace, IsApplicant, AddsOneEvent, MovesProject;
  }

  lemma Review(w: World, tx: Tx)
    requires Stage(w, InPhase(PendingReview, 0, 0), map[], map[], map[], map[]) && tx.msp == "Org1MSP"
    ensures var r := ReviewProject(w, tx, "p", Approve, true, "project-reviewer");
            r.Ok? && Stage(r.value, InPhase(Executing, 0, 0), map[], map[], map[], map[])
  {
    Names();
    ReviewerMayAct(w, tx, InPhase(PendingReview, 0, 0));
    hide TrimSpace, IsManager, AddsOneEvent, MovesProject;
  }

  lemma Close(w: World, tx: Tx)
    requires Stage(w, InPhase(Executing, 0, 0), map[], map[], map[], map[]) && tx.msp == "Org1MSP"
    ensures var r := RequestProjectClosure(w, tx, "p", true, "ann");
            r.Ok? && Stage(r.value, InPhase(ClosureReview, 0, 0), map[], map[], map[], map[])
  {
    Names();
    AnnMayAct(w, tx, InPhase(Executing, 0, 0));
    hide TrimSpace, IsApplicant, AddsOneEvent, MovesProject;
  }

  lemma Fund(w: World, tx: Tx)
    requires Stage(w, InPhase(ClosureReview, 0, 0), map[], map[], map[], map[]) && tx.msp == "Org1MSP"
    ensures var r := ReviewProjectClosure(w, tx, "p", Approve, true, "project-reviewer");
            r.Ok? && Stage(r.value, InPhase(FinancialSettlement, 60, 0), map[], map[], map[], map[])
  {
    Names();
    ReviewerMayAct(w, tx, InPhase(ClosureReview, 0, 0));
    hide TrimSpace, IsManager, AddsOneEvent, MovesProject;
  }

  // ----- invoices and claims -----

  function Form(id: string, no: string): InvoiceForm {
    InvoiceForm(id, no, "issuer", "Org1MSP", 30, 0, "p", "ann", "Org1MSP", "", "", true, true, true)
  }

  function Issued30(id: string, no: string): Invoice {
    Invoice(id, no, 30, "ann", "Org1MSP", "o", "Org1MSP", "o", "p", "", Issued)
  }

  predicate Name(id: string) { id != "" && Trimmed(id) && KeySafe(id) }

  lemma Invoice30(w: World, tx: Tx, id: string, no: string)
    requires Stage(w, InPhase(FinancialSettlement, 60, 0), w.invoices, w.numbers, map[], map[]) && tx.msp == "Org1MSP"
    requires Name(id) && Name(no) && id !in w.invoices && !InvoiceNumberExists(w, no)
    ensures var r := CreateInvoice(w, tx, Form(id, no));
            && r.Ok?
            && Stage(r.value, InPhase(FinancialSettlement, 60, 0), w.invoices[id := Issued30(id, no)], w.numbers[no := id], map[], map[])
  {
    Names();
    AnnMayAct(w, tx, InPhase(FinancialSettlement, 60, 0));
    assert CheckedAddMoney(30, 0) == Ok(30);
    hide TrimSpace, IsMember, ActiveUser, UserOrganization, CheckedAddMoney, KeySafe, InvoiceNumberExists, AddsOneFlow;
    assert CheckLinkedProject(w, tx, "p", "ann", "o") == Ok(());
    assert CheckCorrection(w, tx, no, "", "o") == Ok(());
    hide CheckLinkedProject, CheckCorrection;
    assert DraftInvoice(w, tx, Form(id, no)) == Ok(Issued30(id, no));
  }

  lemma Claim30(w: World, tx: Tx, r: string, i: string)
    requires Stage(w, InPhase(FinancialSettlement, 60, 0), w.invoices, w.numbers, w.claims, w.guard) && tx.msp == "Org1MSP"
    requires Name(r) && r !in w.claims && Name(i) && i !in w.guard
    requires i in w.invoices && w.invoices[i].projectId == "p" && w.invoices[i].total == 30 && w.invoices[i].status.Issued?
    ensures var result := CreateReimbursement(w, tx, r, "p", i, "ann", true);
            && result.Ok?
            && Stage(result.value, InPhase(FinancialSettlement, 60, 0), w.invoices, w.numbers,
                     w.claims[r := Claim(r, "p", i, "ann", 30, Pending)], w.guard[i := r])
  {
    Names();
    AnnMayAct(w, tx, InPhase(FinancialSettlement, 60, 0));
    hide TrimSpace, IsMember, KeySafe, AddsOneEvent, MovesClaim;
  }

  lemma ApprovedStage(w: World, w': World, r: string, available: int)
    requires Stage(w, InPhase(FinancialSettlement, available, 60 - available), w.invoices, w.numbers, w.claims, w.guard)
    requires r in w.claims && Trimmed(r) && w.claims[r].projectId == "p" && w.claims[r].amount == 30 && Approves(w, w', r)
    ensures Stage(w', InPhase(FinancialSettlement, available - 30, 90 - available), w.invoices, w.numbers,
                  w.claims[r := w.claims[r].(status := Reserved)], w.guard)
  {
    assert TrimSpace(r) == r;
    hide TrimSpace;
  }

  lemma ReviewerMayApprove(w: World, tx: Tx, r: string, available: int)
    requires tx.msp == "Org1MSP" && 30 <= available
    requires Stage(w, InPhase(FinancialSettlement, available, 60 - available), w.invoices, w.numbers, w.claims, w.guard)
    requires r in w.claims && w.claims[r].projectId == "p" && w.claims[r].amount == 30 && w.claims[r].status.Pending?
    ensures MayApprove(w, tx, r, "project-reviewer")
  {
    Names();
    ReviewerMayAct(w, tx, InPhase(FinancialSettlement, available, 60 - available));
    hide TrimSpace, IsManager;
  }

  /** An approval of 30 out of what is available. */
  lemma Approve30(w: World, tx: Tx, r: string, available: int)
    requires Reachable(w) && 30 <= available <= 60 && tx.msp == "Org1MSP"
    requires Stage(w, InPhase(FinancialSettlement, available, 60 - available), w.invoices, w.numbers, w.claims, w.guard)
    requires r in w.claims && Trimmed(r) && w.claims[r].projectId == "p" && w.claims[r].amount == 30 && w.claims[r].status.Pending?
    ensures var result := ReviewReimbursement(w, tx, r, Approve, true, "project-reviewer");
            && result.Ok?
            && Stage(result.value, InPhase(FinancialSettlement, available - 30, 90 - available), w.invoices, w.numbers,
                     w.claims[r := w.claims[r].(status := Reserved)], result.value.guard)
  {
    hide TrimSpace, IsManager, ReviewReimbursement, Reachable, Inv, MayApprove, Approves, Stage;
    ReachableInv(w);
    ReviewerMayApprove(w, tx, r, available);
    ApprovalIff(w, tx, r, true, "project-reviewer");
    var w' := ReviewReimbursement(w, tx, r, Approve, true, "project-reviewer").value;
    ApprovedStage(w, w', r, available);
    StageHas(w', InPhase(FinancialSettlement, available - 30, 90 - available), w.invoices, w.numbers,
             w.claims[r := w.claims[r].(status := Reserved)], w.guard);
  }

  // ----- the run -----

  ghost predicate At(w: World, n: nat, p: Project, invoices: map<string, Invoice>, numbers: map<string, string>,
                     claims: map<string, Claim>, guard: map<string, string>)
  {
    Reachable(w) && UsedBelow(w, n) && Stage(w, p, invoices, numbers, claims, guard)
  }

  lemma EmptyRun(users: map<string, BusinessUser>) returns (w: World)
    ensures Initial(w) && w.users == users && Reachable(w) && UsedBelow(w, 0)
  {
    w := World(users, map[], map[], map[], map[], map[], map[], map[], map[], map[], map[], map[], [], []);
    assert Proper(w, []) && Run(w, []) == w;
  }

  /** The calls of the run are these transactions. */
  lemma ProjectCalls(w: World, tx: Tx)
    ensures Execute(w, tx, CallCreateProject("p", true, 60, "ann", "o")) == CreateProject(w, tx, "p", true, 60, "ann", "o")
    ensures Execute(w, tx, CallSubmitProject("p", "ann")) == SubmitProject(w, tx, "p", "ann")
    ensures Execute(w, tx, CallReviewProject("p", Approve, true, "project-reviewer")) == ReviewProject(w, tx, "p", Approve, true, "project-reviewer")
    ensures Execute(w, tx, CallRequestClosure("p", true, "ann")) == RequestProjectClosure(w, tx, "p", true, "ann")
    ensures Execute(w, tx, CallReviewClosure("p", Approve, true, "project-reviewer"))
         == ReviewProjectClosure(w, tx, "p", Approve, true, "project-reviewer")
  {
    hide ExecuteOnInvoices, ExecuteOnClaims, AddsOneEvent, MovesProject, DirectoryGrows, SameBooks,
         RegisterBusinessUser, CreateBusinessOrganization, CreateProject, UpdateProject, SubmitProject,
         ReviewProject, RequestProjectClosure, ReviewProjectClosure, FinalizeProjectSettlement, AddProjectMember;
  }

  lemma InvoiceCalls(w: World, tx: Tx, form: InvoiceForm)
    ensures Execute(w, tx, CallCreateInvoice(form)) == CreateInvoice(w, tx, form)
    ensures Execute(w, tx, CallRequestTransfer("i", "holder-org2", "Org2MSP", "ann"))
         == RequestInvoiceTransfer(w, tx, "i", "holder-org2", "Org2MSP", "ann")
  {
    hide ExecuteOnProjects, ExecuteOnClaims, AddsOneEvent, AddsOneFlow, MovesInvoice, AcceptsTransfer, SameBooks,
         CreateInvoice, LinkInvoiceToProject, UnlinkInvoiceFromProject, TransferInvoice, RequestInvoiceTransfer,
         RespondInvoiceTransfer, CancelInvoiceTransfer, VoidInvoice, RequestInvoiceVoid, ReviewInvoiceVoid;
  }

  lemma ClaimCalls(w: World, tx: Tx, r: string, i: string)
    ensures Execute(w, tx, CallCreateClaim(r, "p", i, "ann", true)) == CreateReimbursement(w, tx, r, "p", i, "ann", true)
    ensures Execute(w, tx, CallReviewClaim(r, Approve, true, "project-reviewer"))
         == ReviewReimbursement(w, tx, r, Approve, true, "project-reviewer")
  {
    hide ExecuteOnProjects, ExecuteOnInvoices, AddsOneEvent, MovesClaim, RestatesClaim,
         CreateReimbursement, ReviewReimbursement, LedgerRules.ResubmitReimbursement,
         LedgerRules.WithdrawReimbursement, LedgerRules.PayReimbursement;
  }

  lemma Created() returns (w: World)
    ensures At(w, 1, InPhase(Draft, 0, 0), map[], map[], map[], map[])
  {
    hide Initial, Reachable, UsedBelow, Execute, Stage,
         CreateProject, SubmitProject, ReviewProject, RequestProjectClosure, ReviewProjectClosure;
    var w0 := EmptyRun(map["ann" := ANN]);
    Create(w0, TxNo(0, "Org1MSP"));
    ProjectCalls(w0, TxNo(0, "Org1MSP"));
    w := CreateProject(w0, TxNo(0, "Org1MSP"), "p", true, 60, "ann", "o").value;
    Advance(w0, 0, "Org1MSP", CallCreateProject("p", true, 60, "ann", "o"), w);
  }

  /** ann's project, created, approved, closed and funded. */
  lemma Funded() returns (w: World)
    ensures At(w, 5, InPhase(FinancialSettlement, 60, 0), map[], map[], map[], map[])
  {
    hide Reachable, UsedBelow, Execute, SubmitProject, ReviewProject, RequestProjectClosure, ReviewProjectClosure, Stage;
    var org1 := "Org1MSP";
    var w1 := Created();
    Submit(w1, TxNo(1, org1));
    ProjectCalls(w1, TxNo(1, org1));
    var w2 := SubmitProject(w1, TxNo(1, org1), "p", "ann").value;
    Advance(w1, 1, org1, CallSubmitProject("p", "ann"), w2);
    Review(w2, TxNo(2, org1));
    ProjectCalls(w2, TxNo(2, org1));
    var w3 := ReviewProject(w2, TxNo(2, org1), "p", Approve, true, "project-reviewer").value;
    Advance(w2, 2, org1, CallReviewProject("p", Approve, true, "project-reviewer"), w3);
    Close(w3, TxNo(3, org1));
    ProjectCalls(w3, TxNo(3, org1));
    var w4 := RequestProjectClosure(w3, TxNo(3, org1), "p", true, "ann").value;
    Advance(w3, 3, org1, CallRequestClosure("p", true, "ann"), w4);
    Fund(w4, TxNo(4, org1));
    ProjectCalls(w4, TxNo(4, org1));
    w := ReviewProjectClosure(w4, TxNo(4, org1), "p", Approve, true, "project-reviewer").value;
    Advance(w4, 4, org1, CallReviewClosure("p", Approve, true, "project-reviewer"), w);
  }

  lemma InvoiceAdded(w: World, n: nat, id: string, no: string, invoices: map<string, Invoice>, numbers: map<string, string>,
                     invoices': map<string, Invoice>, numbers': map<string, string>) returns (w': World)
    requires invoices' == invoices[id := Issued30(id, no)] && numbers' == numbers[no := id]
    requires At(w, n, InPhase(FinancialSettlement, 60, 0), invoices, numbers, map[], map[])
    requires Name(id) && Name(no) && id !in invoices && no !in numbers && forall k :: k in invoices ==> invoices[k].invoiceNo != no
    ensures At(w', n + 1, InPhase(FinancialSettlement, 60, 0), invoices', numbers', map[], map[])
  {
    var tx := TxNo(n, "Org1MSP");
    assert !InvoiceNumberExists(w, no);
    Invoice30(w, tx, id, no);
    InvoiceCalls(w, tx, Form(id, no));
    hide Reachable, UsedBelow, Execute, CreateInvoice, RequestInvoiceTransfer, Stage;
    w' := CreateInvoice(w, tx, Form(id, no)).value;
    Advance(w, n, "Org1MSP", CallCreateInvoice(Form(id, no)), w');
  }

  lemma ClaimAdded(w: World, n: nat, r: string, i: string, claims: map<string, Claim>, guard: map<string, string>,
                   claims': map<string, Claim>, guard': map<string, string>) returns (w': World)
    requires claims' == claims[r := Claim(r, "p", i, "ann", 30, Pending)] && guard' == guard[i := r]
    requires At(w, n, InPhase(FinancialSettlement, 60, 0), INVOICES, NUMBERS, claims, guard)
    requires Name(r) && r !in claims && Name(i) && i in INVOICES && i !in guard
    ensures At(w', n + 1, InPhase(FinancialSettlement, 60, 0), INVOICES, NUMBERS, claims', guard')
  {
    var tx := TxNo(n, "Org1MSP");
    Claim30(w, tx, r, i);
    ClaimCalls(w, tx, r, i);
    hide Reachable, UsedBelow, Execute, CreateReimbursement, Stage;
    w' := CreateReimbursement(w, tx, r, "p", i, "ann", true).value;
    Advance(w, n, "Org1MSP", CallCreateClaim(r, "p", i, "ann", true), w');
  }

  const INVOICES: map<string, Invoice> := map["i" := Issued30("i", "n"), "j" := Issued30("j", "m")]
  const NUMBERS: map<string, string> := map["n" := "i", "m" := "j"]

  function Claims(r: ClaimStatus, s: ClaimStatus): map<string, Claim> {
    map["r" := Claim("r", "p", "i", "ann", 30, r), "s" := Claim("s", "p", "j", "ann", 30, s)]
  }

  /** The ledger of the run with both invoices and both claims. */
  ghost predicate Claimed(w: World, n: nat, available: int, r: ClaimStatus, s: ClaimStatus) {
    At(w, n, InPhase(FinancialSettlement, available, 60 - available), INVOICES, NUMBERS, Claims(r, s), w.guard)
  }

  /** Two invoices of 30, and a claim on each. */
  lemma TwoClaims() returns (w: World)
    ensures Claimed(w, 9, 60, Pending, Pending)
  {
    hide At, Claimed;
    assert Name("i") && Name("j") && Name("n") && Name("m") && Name("r") && Name("s");
    hide Name;
    var invoice, claim := map["i" := Issued30("i", "n")], map["r" := Claim("r", "p", "i", "ann", 30, Pending)];
    w := Funded();
    w := InvoiceAdded(w, 5, "i", "n", map[], map[], invoice, map["n" := "i"]);
    w := InvoiceAdded(w, 6, "j", "m", invoice, map["n" := "i"], INVOICES, NUMBERS);
    w := ClaimAdded(w, 7, "r", "i", map[], map[], claim, map["i" := "r"]);
    w := ClaimAdded(w, 8, "s", "j", claim, map["i" := "r"], Claims(Pending, Pending), map["i" := "r", "j" := "s"]);
    ClaimedWhenAt(w, 9, map["i" := "r", "j" := "s"]);
  }

  lemma ClaimedWhenAt(w: World, n: nat, guard: map<string, string>)
    requires At(w, n, InPhase(FinancialSettlement, 60, 0), INVOICES, NUMBERS, Claims(Pending, Pending), guard)
    ensures Claimed(w, n, 60, Pending, Pending)
  {}

  lemma Approved(w: World, n: nat, available: int, r: string, claims': map<string, Claim>) returns (w': World)
    requires At(w, n, InPhase(FinancialSettlement, available, 60 - available), INVOICES, NUMBERS, w.claims, w.guard)
    requires 30 <= available <= 60
    requires r in w.claims && Trimmed(r) && w.claims[r].projectId == "p" && w.claims[r].amount == 30 && w.claims[r].status.Pending?
    requires claims' == w.claims[r := w.claims[r].(status := Reserved)]
    ensures At(w', n + 1, InPhase(FinancialSettlement, available - 30, 90 - available), INVOICES, NUMBERS, claims', w'.guard)
  {
    var tx := TxNo(n, "Org1MSP");
    StageHas(w, InPhase(FinancialSettlement, available, 60 - available), INVOICES, NUMBERS, w.claims, w.guard);
    hide Reachable, UsedBelow, Execute, ReviewReimbursement, Stage;
    Approve30(w, tx, r, available);
    ClaimCalls(w, tx, r, "");
    w' := ReviewReimbursement(w, tx, r, Approve, true, "project-reviewer").value;
    Advance(w, n, "Org1MSP", CallReviewClaim(r, Approve, true, "project-reviewer"), w');
  }

  lemma StageHas(w: World, p: Project, invoices: map<string, Invoice>, numbers: map<string, string>, claims: map<string, Claim>,
                 guard: map<string, string>)
    requires Stage(w, p, invoices, numbers, claims, guard)
    ensures w.invoices == invoices && w.numbers == numbers && w.claims == claims && w.guard == guard
  {}

  lemma ClaimsMove()
    ensures Claims(Pending, Pending)["r" := Claims(Pending, Pending)["r"].(status := Reserved)] == Claims(Reserved, Pending)
    ensures Claims(Reserved, Pending)["s" := Claims(Reserved, Pending)["s"].(status := Reserved)] == Claims(Reserved, Reserved)
  {}

  /** Both claims approved: the whole budget of 60 is frozen. */
  lemma TwoFrozenClaims() returns (w: World)
    ensures Claimed(w, 11, 0, Reserved, Reserved)
  {
    hide Reachable, UsedBelow;
    w := TwoClaims();
    ClaimsMove();
    assert Trimmed("r") && Trimmed("s");
    w := Approved(w, 9, 60, "r", Claims(Reserved, Pending));
    w := Approved(w, 10, 30, "s", Claims(Reserved, Reserved));
  }

  // ----- spaced ids -----

  /** A payment, by what it reads. */
  lemma PaymentByReads(w: World, tx: Tx, id: string, c: Claim, p: Project, invoice: Invoice)
    requires ReadClaim(w, id) == Ok(c) && ReadProject(w, c.projectId) == Ok(p) && ReadInvoice(w, c.invoiceId) == Ok(invoice)
    requires c.status.Reserved? && !invoice.status.Voided? && 0 <= c.amount <= p.reserved <= 60 && 0 <= p.paid <= 60
    requires IsManager(w, tx, p, "finance-admin", FinanceAdmin)
    ensures var result := LedgerRules.PayReimbursement(w, tx, id, "finance-admin");
            && result.Ok?
            && result.value.projects == w.projects[p.id := p.(reserved := p.reserved - c.amount, paid := p.paid + c.amount)]
            && result.value.claims == w.claims[id := c.(status := Paid)]
            && result.value.users == w.users && result.value.invoices == w.invoices
  {
    Names();
    hide ReadClaim, ReadProject, ReadInvoice, IsManager, TrimSpace, Wrap64, AddsOneEvent, MovesClaim, RestatesClaim;
  }

  /** One payment of r under the spaced id: the money moves, and the claim stays as it was. */
  lemma SpacedPayment(w: World, tx: Tx, paid: int)
    requires w.users == map["ann" := ANN] && tx.msp == "Org2MSP" && 0 <= paid <= 30
    requires w.projects == map["p" := InPhase(FinancialSettlement, 0, 60 - paid).(paid := paid)]
    requires "r" in w.claims && w.claims["r"] == Claim("r", "p", "i", "ann", 30, Reserved) && w.invoices == INVOICES
    ensures var result := LedgerRules.PayReimbursement(w, tx, " r", "finance-admin");
            && result.Ok?
            && result.value.projects == map["p" := InPhase(FinancialSettlement, 0, 30 - paid).(paid := paid + 30)]
            && result.value.claims == w.claims[" r" := w.claims["r"].(status := Paid)]
            && result.value.users == w.users && result.value.invoices == w.invoices
  {
    hide LedgerRules.PayReimbursement, IsManager, TrimSpace;
    Names();
    SpacedNames();
    FinanceMayAct(w, tx, w.projects["p"]);
    PaymentByReads(w, tx, " r", w.claims["r"], w.projects["p"], w.invoices["i"]);
  }

  lemma SpacedNames()
    ensures TrimSpace(" r") == "r" && !Trimmed(" r") && TrimSpace(" p") == "p" && !Trimmed(" p")
  {
    assert TrimSpace(" r") == TrimSpace(" r"[1..]) && " r"[1..] == "r" && Trimmed("r");
    assert TrimSpace(" p") == TrimSpace(" p"[1..]) && " p"[1..] == "p" && Trimmed("p");
  }

  /** Two payments under the spaced id both succeed; the project has then paid 60, and both claims are still frozen. */
  ghost predicate PaysTwice(w: World, t: Tx, t': Tx) {
    var first := LedgerRules.PayReimbursement(w, t, " r", "finance-admin");
    && first.Ok?
    && var second := LedgerRules.PayReimbursement(first.value, t', " r", "finance-admin");
       && second.Ok?
       && "p" in second.value.projects && second.value.projects["p"].paid == 60
       && "r" in second.value.claims && second.value.claims["r"] == Claim("r", "p", "i", "ann", 30, Reserved)
       && "s" in second.value.claims && second.value.claims["s"] == Claim("s", "p", "j", "ann", 30, Reserved)
  }

  lemma FrozenClaimPaidTwice(w: World)
    requires Claimed(w, 11, 0, Reserved, Reserved)
    ensures PaysTwice(w, TxNo(11, "Org2MSP"), TxNo(12, "Org2MSP"))
  {
    hide Reachable, UsedBelow, LedgerRules.PayReimbursement;
    SpacedPayment(w, TxNo(11, "Org2MSP"), 0);
    SpacedPayment(LedgerRules.PayReimbursement(w, TxNo(11, "Org2MSP"), " r", "finance-admin").value, TxNo(12, "Org2MSP"), 30);
  }

  lemma UnusedAreFresh(w: World, n: nat, tx: Tx)
    requires UsedBelow(w, n) && |tx.id| >= n
    ensures Fresh(w, tx)
  {}

  /** A ledger that a run reaches, on which one claim of 30, spelled with a leading space, is paid twice. */
  lemma SpacedIdPaysTwice()
    ensures exists w, t, t' :: Reachable(w) && Fresh(w, t) && Fresh(w, t') && t.id != t'.id && PaysTwice(w, t, t')
  {
    hide Reachable, PaysTwice, UsedBelow, Fresh, Stage;
    var w := TwoFrozenClaims();
    var t, t' := TxNo(11, "Org2MSP"), TxNo(12, "Org2MSP");
    assert |t.id| == 11 && |t'.id| == 12;
    UnusedAreFresh(w, 11, t);
    UnusedAreFresh(w, 11, t');
    FrozenClaimPaidTwice(w);
  }

  lemma SpacedProjectCalls(w: World, tx: Tx)
    requires Stage(w, InPhase(Draft, 0, 0), map[], map[], map[], map[]) && tx.msp == "Org1MSP"
    ensures SubmitProject(w, tx, " p", "ann").Ok? && AddProjectMember(w, tx, " p", "ann", "ann").Ok?
  {
    Names();
    SpacedNames();
    AnnMayAct(w, tx, InPhase(Draft, 0, 0));
    hide TrimSpace, IsApplicant, AddsOneEvent, MovesProject, SameBooks, ReadUser;
  }

  /** The other calls that write under the id as spelled accept a spaced one on a reachable ledger too. */
  lemma SpacedProjectIdsAccepted()
    ensures exists w, t ::
              && Reachable(w) && Fresh(w, t)
              && SubmitProject(w, t, " p", "ann").Ok? && AddProjectMember(w, t, " p", "ann", "ann").Ok?
  {
    hide Reachable, UsedBelow, Fresh, Stage, SubmitProject, AddProjectMember;
    var w := Created();
    var t := TxNo(1, "Org1MSP");
    assert |t.id| == 1;
    UnusedAreFresh(w, 1, t);
    SpacedProjectCalls(w, t);
  }

  // ----- a spaced answer -----

  lemma HandlersMayAct(w: World, tx: Tx)
    requires w.users == map["ann" := ANN]
    ensures TrimSpace("i") == "i" && TrimSpace(" i") == "i" && TrimSpace("holder-org2") == "holder-org2" && TrimSpace("Org2MSP") == "Org2MSP"
    ensures tx.msp == "Org1MSP" ==> ActiveUser(w, tx, "ann", "Org1MSP", HANDLERS)
    ensures RegisteredRole(w, "holder-org2", "Org2MSP", HANDLERS)
    ensures tx.msp == "Org2MSP" ==> ActiveUser(w, tx, "holder-org2", "Org2MSP", HANDLERS)
  {
    Names();
    assert TrimSpace(" i") == TrimSpace(" i"[1..]) && " i"[1..] == "i" && Trimmed("i");
    assert Trimmed("holder-org2") && Trimmed("Org2MSP");
    hide TrimSpace;
  }

  /** ann offers the invoice to the built-in holder. */
  lemma Offered(w: World, tx: Tx)
    requires w.users == map["ann" := ANN] && tx.msp == "Org1MSP" && w.transfers == map[]
    requires "i" in w.invoices && w.invoices["i"] == Issued30("i", "n")
    ensures var r := RequestInvoiceTransfer(w, tx, "i", "holder-org2", "Org2MSP", "ann");
            && r.Ok? && r.value.users == w.users
            && "i" in r.value.transfers
            && r.value.transfers["i"] == InvoiceTransfer("i", "ann", "holder-org2", "Org2MSP", TransferPending)
  {
    Names();
    HandlersMayAct(w, tx);
    hide TrimSpace, ActiveUser, RegisteredRole, AddsOneFlow, SameBooks;
  }

  lemma Declined(w: World, tx: Tx)
    requires w.users == map["ann" := ANN] && tx.msp == "Org2MSP" && "i" in w.transfers
    requires w.transfers["i"] == InvoiceTransfer("i", "ann", "holder-org2", "Org2MSP", TransferPending)
    ensures RespondInvoiceTransfer(w, tx, " i", Decline, "holder-org2").Ok?
  {
    HandlersMayAct(w, tx);
    hide TrimSpace, ActiveUser, AddsOneFlow, SameBooks, AcceptsTransfer;
  }

  /** A reachable ledger on which an answer under a spaced id is accepted. */
  lemma SpacedAnswerAccepted()
    ensures exists w, t :: Reachable(w) && Fresh(w, t) && RespondInvoiceTransfer(w, t, " i", Decline, "holder-org2").Ok?
  {
    hide Reachable, UsedBelow, Fresh, Execute, CreateInvoice, RequestInvoiceTransfer, RespondInvoiceTransfer;
    var w := Funded();
    assert Name("i") && Name("n");
    w := InvoiceAdded(w, 5, "i", "n", map[], map[], map["i" := Issued30("i", "n")], map["n" := "i"]);
    var tx := TxNo(6, "Org1MSP");
    Offered(w, tx);
    InvoiceCalls(w, tx, Form("", ""));
    var w' := RequestInvoiceTransfer(w, tx, "i", "holder-org2", "Org2MSP", "ann").value;
    Advance(w, 6, "Org1MSP", CallRequestTransfer("i", "holder-org2", "Org2MSP", "ann"), w');
    var t := TxNo(7, "Org2MSP");
    assert |t.id| == 7;
    UnusedAreFresh(w', 7, t);
    Declined(w', t);
  }
}
