/** Runs from a new ledger to states where a property fails: the inputs behind the exact conditions. */
module FailingRuns {
  import opened Basics
  import opened LedgerTypes
  import opened LedgerRules
  import opened LedgerInvariant
  import opened LedgerRuns
  import opened LedgerTheorems
  import opened OrganizationScope
  import opened KeySpace
  import opened StuckTransfers
  import opened VoidRequests
  import S = SpacedRun

  // ----- the states of the runs -----

  const ANN := BusinessUser("Org1MSP", "o", ProjectMember, true)
  const BOSS := BusinessUser("Org1MSP", "", ProjectReviewer, true)
  const HAL := BusinessUser("Org2MSP", "", Holder, true)

  const USERS: map<string, BusinessUser> := map["ann" := ANN, "boss" := BOSS, "hal" := HAL]

  const NEW := World(USERS, map[], map[], map[], map[], map[], map[], map[], map[], map[], map[], map[], [], [])
  const FOUNDED := NEW.(organizations := map["o" := BusinessOrganization("o", "Org1MSP", "", Primary, true)])
  const STARTED := FOUNDED.(
    projects := map["p" := Project("p", "ann", "Org1MSP", "o", Draft, 60, 0, 0, 0, 0)],
    members := map[("p", "ann") := Leader])

  /** A user name whose first character sorts after U+FFFF. */
  const FACE: string := "\U{1F600}"

  const JOINED := STARTED.(users := USERS[FACE := ANN])
  const ENROLLED := JOINED.(members := map[("p", "ann") := Leader, ("p", FACE) := Member])

  const INVOICE := Invoice("i", "n", 30, "ann", "Org1MSP", "o", "Org1MSP", "o", "", "", Issued)
  const OFFER := InvoiceTransfer("i", "ann", "holder-org2", "Org2MSP", TransferPending)

  const INVOICED := FOUNDED.(invoices := map["i" := INVOICE], numbers := map["n" := "i"])
  const OFFERED := INVOICED.(transfers := map["i" := OFFER])
  const GIVEN := OFFERED.(invoices := map["i" :=
    INVOICE.(holder := "hal", holderMsp := "Org2MSP", holderOrganizationId := "", status := InCirculation)])
  const TAKEN := GIVEN.(users := USERS["holder-org2" := ANN])

  /** The ledger is this one but for its history. */
  predicate Shows(w: World, v: World) {
    w == v.(events := w.events, flows := w.flows, eventLog := w.eventLog, flowLog := w.flowLog)
  }

  ghost predicate At(w: World, n: nat, v: World) { Reachable(w) && S.UsedBelow(w, n) && Shows(w, v) }

  lemma Names()
    ensures TrimSpace("o") == "o" && TrimSpace("p") == "p" && TrimSpace("i") == "i" && TrimSpace("n") == "n" && TrimSpace("") == ""
    ensures TrimSpace("ann") == "ann" && TrimSpace("boss") == "boss" && TrimSpace("hal") == "hal" && TrimSpace(FACE) == FACE
    ensures TrimSpace("holder-org2") == "holder-org2" && TrimSpace("org-admin") == "org-admin"
    ensures TrimSpace("Org1MSP") == "Org1MSP" && TrimSpace("Org2MSP") == "Org2MSP"
  {
    assert Trimmed("o") && Trimmed("p") && Trimmed("i") && Trimmed("n") && Trimmed("");
    assert Trimmed("ann") && Trimmed("boss") && Trimmed("hal") && Trimmed(FACE);
    assert Trimmed("holder-org2") && Trimmed("org-admin") && Trimmed("Org1MSP") && Trimmed("Org2MSP");
  }

  lemma Actors(w: World, tx: Tx)
    requires w.users == USERS || w.users == USERS[FACE := ANN]
    ensures ReadUser(w, "ann") == Some(ANN) && ReadUser(w, "boss") == Some(BOSS) && ReadUser(w, "hal") == Some(HAL)
    ensures UserOrganization(w, "ann") == Ok("o") && UserOrganization(w, "hal") == Ok("")
    ensures tx.msp == "Org1MSP" ==>
              && ActiveUser(w, tx, "org-admin", "Org1MSP", {OrgAdmin})
              && ActiveUser(w, tx, "ann", "Org1MSP", {ProjectMember, Issuer}) && ActiveUser(w, tx, "ann", "Org1MSP", {Issuer, ProjectMember})
              && ActiveUser(w, tx, "ann", "Org1MSP", HANDLERS)
    ensures RegisteredRole(w, "holder-org2", "Org2MSP", HANDLERS)
  {
    Names();
    hide TrimSpace;
  }

  // ----- the calls -----

  lemma Found(w: World, tx: Tx)
    requires Shows(w, NEW) && tx.msp == "Org1MSP"
    ensures var r := CreateBusinessOrganization(w, tx, "o", true, Primary, "", "org-admin"); r.Ok? && Shows(r.value, FOUNDED)
  {
    Names();
    Actors(w, tx);
    assert KeySafe("o");
    hide TrimSpace, ActiveUser, KeySafe, DirectoryGrows, SameBooks;
  }

  lemma Start(w: World, tx: Tx)
    requires Shows(w, FOUNDED) && tx.msp == "Org1MSP"
    ensures var r := CreateProject(w, tx, "p", true, 60, "ann", "o"); r.Ok? && Shows(r.value, STARTED)
  {
    Names();
    Actors(w, tx);
    assert KeySafe("p");
    hide TrimSpace, ActiveUser, ReadUser, KeySafe, AddsOneEvent, MovesProject;
  }

  /** The name passes the registration check on characters. */
  lemma NamesAccepted()
    ensures KeySafe(FACE) && KeySafe("holder-org2")
    ensures forall c :: c in FACE || c in "holder-org2" ==> c !in " \t\n"
  {}

  lemma Register(w: World, tx: Tx, name: string)
    requires w.organizations == FOUNDED.organizations && tx.msp == "Org1MSP"
    requires (name == FACE || name == "holder-org2") && name !in w.users
    ensures RegisterBusinessUser(w, tx, name, true, "Org1MSP", ProjectMember, "o") == Ok(w.(users := w.users[name := ANN]))
  {
    Names();
    NamesAccepted();
    assert ReadOrganization(w, "o") == Ok(w.organizations["o"]);
    hide TrimSpace, KeySafe, ReadOrganization, DirectoryGrows, SameBooks;
  }

  lemma Enrol(w: World, tx: Tx)
    requires Shows(w, JOINED) && tx.msp == "Org1MSP"
    ensures var r := AddProjectMember(w, tx, "p", FACE, "ann"); r.Ok? && Shows(r.value, ENROLLED)
  {
    Names();
    Actors(w, tx);
    assert ReadUser(w, FACE) == Some(ANN);
    assert IsApplicant(w, tx, w.projects["p"], "ann");
    hide TrimSpace, IsApplicant, ReadUser, AddsOneEvent, SameBooks;
  }

  const FORM := InvoiceForm("i", "n", "issuer", "Org1MSP", 30, 0, "", "ann", "Org1MSP", "", "", true, true, true)

  lemma Bill(w: World, tx: Tx)
    requires Shows(w, FOUNDED) && tx.msp == "Org1MSP"
    ensures var r := CreateInvoice(w, tx, FORM); r.Ok? && Shows(r.value, INVOICED)
  {
    Names();
    Actors(w, tx);
    assert KeySafe("i") && CheckedAddMoney(30, 0) == Ok(30) && !InvoiceNumberExists(w, "n");
    hide TrimSpace, ActiveUser, UserOrganization, CheckedAddMoney, KeySafe, InvoiceNumberExists, AddsOneFlow, SameBooks;
    assert CheckLinkedProject(w, tx, "", "ann", "o") == Ok(()) && CheckCorrection(w, tx, "n", "", "o") == Ok(());
    hide CheckLinkedProject, CheckCorrection;
    assert DraftInvoice(w, tx, FORM) == Ok(INVOICE);
    hide DraftInvoice;
  }

  lemma Offer(w: World, tx: Tx)
    requires Shows(w, INVOICED) && tx.msp == "Org1MSP"
    ensures var r := RequestInvoiceTransfer(w, tx, "i", "holder-org2", "Org2MSP", "ann"); r.Ok? && Shows(r.value, OFFERED)
  {
    Names();
    Actors(w, tx);
    hide TrimSpace, ActiveUser, RegisteredRole, AddsOneFlow, SameBooks;
  }

  lemma Give(w: World, tx: Tx)
    requires Shows(w, OFFERED) && tx.msp == "Org1MSP"
    ensures var r := TransferInvoice(w, tx, "i", "hal", "Org2MSP", "ann"); r.Ok? && Shows(r.value, GIVEN)
  {
    Names();
    Actors(w, tx);
    hide TrimSpace, ActiveUser, UserOrganization, ReadUser, AddsOneFlow, SameBooks, MovesInvoice;
  }

  lemma AskedToVoid(w: World, tx: Tx)
    requires w.users == map["ann" := ANN] && tx.msp == "Org1MSP" && w.guard == map[] && w.voidRequests == map[]
    requires w.projects == map["p" := S.InPhase(FinancialSettlement, 60, 0)] && w.invoices == map["i" := S.Issued30("i", "n")]
    ensures var r := RequestInvoiceVoid(w, tx, "i", true, "ann");
            && r.Ok? && r.value.users == w.users && r.value.guard == w.guard && r.value.invoices == w.invoices
            && VoidPendingIn(r.value, "i")
  {
    Names();
    S.AnnMayAct(w, tx, w.projects["p"]);
    hide TrimSpace, IsMember, AddsOneFlow, SameBooks;
  }

  lemma VoidedDirectly(w: World, tx: Tx)
    requires w.users == map["ann" := ANN] && tx.msp == "Org1MSP" && w.guard == map[] && w.invoices == map["i" := S.Issued30("i", "n")]
    ensures var r := VoidInvoice(w, tx, "i", true, "issuer-org1");
            r.Ok? && VoidedIn(r.value, "i") && r.value.voidRequests == w.voidRequests
  {
    assert Trimmed("issuer-org1") && TrimSpace("issuer-org1") == "issuer-org1";
    hide TrimSpace, AddsOneFlow, SameBooks, MovesInvoice;
  }

  lemma DirectoryCalls(w: World, tx: Tx, name: string)
    ensures Execute(w, tx, CallCreateOrganization("o", true, Primary, "", "org-admin"))
         == CreateBusinessOrganization(w, tx, "o", true, Primary, "", "org-admin")
    ensures Execute(w, tx, CallRegisterUser(name, true, "Org1MSP", ProjectMember, "o"))
         == RegisterBusinessUser(w, tx, name, true, "Org1MSP", ProjectMember, "o")
  {
    hide ExecuteOnInvoices, ExecuteOnClaims, DirectoryGrows, SameBooks, RegisterBusinessUser, CreateBusinessOrganization;
  }

  lemma ProjectCalls(w: World, tx: Tx)
    ensures Execute(w, tx, CallCreateProject("p", true, 60, "ann", "o")) == CreateProject(w, tx, "p", true, 60, "ann", "o")
    ensures Execute(w, tx, CallAddMember("p", FACE, "ann")) == AddProjectMember(w, tx, "p", FACE, "ann")
  {
    hide ExecuteOnInvoices, ExecuteOnClaims, AddsOneEvent, MovesProject, SameBooks, CreateProject, AddProjectMember;
  }

  lemma InvoiceCalls(w: World, tx: Tx)
    ensures Execute(w, tx, CallCreateInvoice(FORM)) == CreateInvoice(w, tx, FORM)
    ensures Execute(w, tx, CallRequestTransfer("i", "holder-org2", "Org2MSP", "ann"))
         == RequestInvoiceTransfer(w, tx, "i", "holder-org2", "Org2MSP", "ann")
    ensures Execute(w, tx, CallTransferInvoice("i", "hal", "Org2MSP", "ann")) == TransferInvoice(w, tx, "i", "hal", "Org2MSP", "ann")
    ensures Execute(w, tx, CallRequestVoid("i", true, "ann")) == RequestInvoiceVoid(w, tx, "i", true, "ann")
    ensures Execute(w, tx, CallVoidInvoice("i", true, "issuer-org1")) == VoidInvoice(w, tx, "i", true, "issuer-org1")
  {
    hide ExecuteOnProjects, ExecuteOnClaims, AddsOneEvent, AddsOneFlow, MovesInvoice, AcceptsTransfer, SameBooks,
         CreateInvoice, LinkInvoiceToProject, UnlinkInvoiceFromProject, TransferInvoice, RequestInvoiceTransfer,
         RespondInvoiceTransfer, CancelInvoiceTransfer, VoidInvoice, RequestInvoiceVoid, ReviewInvoiceVoid;
  }

  // ----- the runs -----

  lemma NewShows(w: World)
    requires Initial(w) && w.users == USERS
    ensures Shows(w, NEW)
  {}

  lemma IdsTrimmed()
    ensures TrimmedIds(CallCreateOrganization("o", true, Primary, "", "org-admin"))
    ensures TrimmedIds(CallCreateInvoice(FORM))
    ensures TrimmedIds(CallRequestTransfer("i", "holder-org2", "Org2MSP", "ann"))
    ensures TrimmedIds(CallTransferInvoice("i", "hal", "Org2MSP", "ann"))
    ensures TrimmedIds(CallRequestVoid("i", true, "ann")) && TrimmedIds(CallVoidInvoice("i", true, "issuer-org1"))
  {}

  lemma Founded() returns (w: World)
    ensures At(w, 1, FOUNDED)
  {
    hide Reachable, S.UsedBelow, Execute, CreateBusinessOrganization, Initial, Shows, TrimmedIds;
    var w0 := S.EmptyRun(USERS);
    NewShows(w0);
    IdsTrimmed();
    var tx := S.TxNo(0, "Org1MSP");
    Found(w0, tx);
    DirectoryCalls(w0, tx, "");
    w := CreateBusinessOrganization(w0, tx, "o", true, Primary, "", "org-admin").value;
    S.Advance(w0, 0, "Org1MSP", CallCreateOrganization("o", true, Primary, "", "org-admin"), w);
  }

  lemma Started() returns (w: World)
    ensures At(w, 2, STARTED)
  {
    hide Reachable, S.UsedBelow, Execute, CreateProject, Shows;
    var w1 := Founded();
    var tx := S.TxNo(1, "Org1MSP");
    Start(w1, tx);
    ProjectCalls(w1, tx);
    w := CreateProject(w1, tx, "p", true, 60, "ann", "o").value;
    S.Advance(w1, 1, "Org1MSP", CallCreateProject("p", true, 60, "ann", "o"), w);
  }

  /** One more registration, as a member of the organization. */
  lemma Registered(w: World, n: nat, v: World, name: string) returns (w': World)
    requires At(w, n, v) && v.organizations == FOUNDED.organizations && (name == FACE || name == "holder-org2") && name !in v.users
    ensures At(w', n + 1, v.(users := v.users[name := ANN]))
  {
    hide Reachable, S.UsedBelow, Execute, RegisterBusinessUser;
    var tx := S.TxNo(n, "Org1MSP");
    Register(w, tx, name);
    DirectoryCalls(w, tx, name);
    w' := w.(users := w.users[name := ANN]);
    S.Advance(w, n, "Org1MSP", CallRegisterUser(name, true, "Org1MSP", ProjectMember, "o"), w');
  }

  lemma Enrolled() returns (w: World)
    ensures At(w, 4, ENROLLED)
  {
    hide Reachable, S.UsedBelow, Execute, AddProjectMember, Shows;
    var w2 := Started();
    var w3 := Registered(w2, 2, STARTED, FACE);
    var tx := S.TxNo(3, "Org1MSP");
    assert Trimmed("p");
    Enrol(w3, tx);
    ProjectCalls(w3, tx);
    w := AddProjectMember(w3, tx, "p", FACE, "ann").value;
    S.Advance(w3, 3, "Org1MSP", CallAddMember("p", FACE, "ann"), w);
  }

  lemma Billed() returns (w: World)
    ensures At(w, 2, INVOICED)
  {
    hide Reachable, S.UsedBelow, Execute, CreateInvoice, Shows, TrimmedIds;
    var w1 := Founded();
    var tx := S.TxNo(1, "Org1MSP");
    IdsTrimmed();
    Bill(w1, tx);
    InvoiceCalls(w1, tx);
    w := CreateInvoice(w1, tx, FORM).value;
    S.Advance(w1, 1, "Org1MSP", CallCreateInvoice(FORM), w);
  }

  lemma Offered() returns (w: World)
    ensures At(w, 3, OFFERED)
  {
    hide Reachable, S.UsedBelow, Execute, RequestInvoiceTransfer, Shows, TrimmedIds;
    var w2 := Billed();
    var tx := S.TxNo(2, "Org1MSP");
    Offer(w2, tx);
    InvoiceCalls(w2, tx);
    IdsTrimmed();
    w := RequestInvoiceTransfer(w2, tx, "i", "holder-org2", "Org2MSP", "ann").value;
    S.Advance(w2, 2, "Org1MSP", CallRequestTransfer("i", "holder-org2", "Org2MSP", "ann"), w);
  }

  lemma GivenAway() returns (w: World)
    ensures At(w, 4, GIVEN)
  {
    hide Reachable, S.UsedBelow, Execute, TransferInvoice, Shows, TrimmedIds;
    var w3 := Offered();
    var tx := S.TxNo(3, "Org1MSP");
    Give(w3, tx);
    InvoiceCalls(w3, tx);
    IdsTrimmed();
    w := TransferInvoice(w3, tx, "i", "hal", "Org2MSP", "ann").value;
    S.Advance(w3, 3, "Org1MSP", CallTransferInvoice("i", "hal", "Org2MSP", "ann"), w);
  }

  lemma NameTaken() returns (w: World)
    ensures At(w, 5, TAKEN)
  {
    hide At;
    var w4 := GivenAway();
    w := Registered(w4, 4, GIVEN, "holder-org2");
  }

  /** A reachable ledger with one linked invoice and a void request on it. */
  lemma Asked() returns (w: World)
    ensures Reachable(w) && S.UsedBelow(w, 7) && VoidPendingIn(w, "i")
    ensures w.users == map["ann" := ANN] && w.guard == map[] && w.invoices == map["i" := S.Issued30("i", "n")]
  {
    hide Reachable, S.UsedBelow, Execute, RequestInvoiceVoid, VoidPendingIn, TrimmedIds;
    var w6 := S.Funded();
    assert S.Name("i") && S.Name("n");
    w6 := S.InvoiceAdded(w6, 5, "i", "n", map[], map[], map["i" := S.Issued30("i", "n")], map["n" := "i"]);
    var tx := S.TxNo(6, "Org1MSP");
    AskedToVoid(w6, tx);
    InvoiceCalls(w6, tx);
    IdsTrimmed();
    w := RequestInvoiceVoid(w6, tx, "i", true, "ann").value;
    S.Advance(w6, 6, "Org1MSP", CallRequestVoid("i", true, "ann"), w);
  }

  // ----- what fails there -----

  /** A number is carried, the lookup of " n" finds it, and the scan for " n" does not. */
  lemma SpacedNumberDivides()
    ensures exists w :: Reachable(w) && TrimSpace(" n") in w.numbers && !Carried(w, " n")
  {
    hide Reachable, S.UsedBelow;
    var w := Billed();
    assert TrimSpace(" n") == TrimSpace(" n"[1..]) && " n"[1..] == "n" && Trimmed("n");
  }

  /** boss, who has no organization, may review the project, and the API hides it. */
  lemma HiddenProjectIsManaged()
    ensures exists w, tx ::
              && Reachable(w) && "p" in w.projects
              && IsManager(w, tx, w.projects["p"], "boss", ProjectReviewer)
              && !ProjectVisibleTo(Principal("boss", "Org1MSP", "", ProjectReviewer), w.projects["p"], w.organizations)
  {
    hide Reachable, S.UsedBelow;
    var w := Started();
    Manages(w, Tx("", "Org1MSP"));
  }

  lemma Manages(w: World, tx: Tx)
    requires Shows(w, STARTED) && tx.msp == "Org1MSP"
    ensures IsManager(w, tx, w.projects["p"], "boss", ProjectReviewer)
  {
    Names();
    Actors(w, tx);
    hide TrimSpace, ReadUser;
  }

  /** A member of the project whom the scan for its members does not see. */
  lemma MemberIsMissed()
    ensures exists w, name :: Reachable(w) && ("p", name) in w.members
              && !InRange("PROJECT_MEMBER#p#", "PROJECT_MEMBER#p#\U{FFFF}", MemberKey("p", name).Encode())
  {
    hide Reachable, S.UsedBelow, InRange, Key.Encode;
    var w := Enrolled();
    FaceIsMissed(w);
  }

  lemma FaceIsMissed(w: World)
    requires Reachable(w) && Shows(w, ENROLLED)
    ensures ("p", FACE) in w.members
    ensures !InRange("PROJECT_MEMBER#p#", "PROJECT_MEMBER#p#\U{FFFF}", MemberKey("p", FACE).Encode())
  {
    hide Reachable, InRange, Key.Encode;
    MemberScanIff(w, "p", ("p", FACE));
    assert "PROJECT_MEMBER#" + "p" + "#" == "PROJECT_MEMBER#p#";
    assert "PROJECT_MEMBER#p#" + "\U{FFFF}" == "PROJECT_MEMBER#p#\U{FFFF}";
  }

  /** A request that no run will ever close. */
  lemma RequestIsStuckForGood()
    ensures exists w, t :: Reachable(w) && Stuck(w, "i", t) && NoWayOut(w, "i", t)
  {
    hide Reachable, S.UsedBelow;
    var w := NameTaken();
    assert Stuck(w, "i", OFFER) && NoWayOut(w, "i", OFFER);
  }

  /** A void request that is open on a voided invoice. */
  lemma VoidedUnderOpenRequest()
    ensures exists w :: Reachable(w) && VoidPendingIn(w, "i") && VoidedIn(w, "i")
  {
    hide Reachable, S.UsedBelow, Execute, VoidInvoice, TrimmedIds;
    var w7 := Asked();
    var tx := S.TxNo(7, "Org1MSP");
    VoidedDirectly(w7, tx);
    InvoiceCalls(w7, tx);
    IdsTrimmed();
    var w := VoidInvoice(w7, tx, "i", true, "issuer-org1").value;
    S.Advance(w7, 7, "Org1MSP", CallVoidInvoice("i", true, "issuer-org1"), w);
  }
}
