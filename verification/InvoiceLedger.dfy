/** The chaincode itself: transactions that read records from the world state, assign their fields and put them back. */
module InvoiceLedger {
  import opened Basics
  import opened LedgerTypes
  import R = LedgerRules
  import I = LedgerInvariant
  import S = LedgerSteps
  import Adm = Admission
  import T = LedgerTheorems
  import Spelling = IdSpelling

  /** A transaction either commits what its rule says, or is refused for the rule's reason with nothing written. */
  predicate Follows(before: World, after: World, r: Result<()>, rule: Result<World>) {
    match rule
    case Ok(w) => r.Ok? && after == w
    case Refused(reason) => r == Refused(reason) && after == before
  }

  /** The ledger is sound, and the transaction id is not in its history yet. */
  ghost predicate Sound(w: World, tx: Tx) { I.Inv(w) && I.Fresh(w, tx) }

  /** Within a transaction every read is of the committed state, `w` below; writes become visible only afterwards. */
  class Ledger {
    var users: map<string, BusinessUser>
    var organizations: map<string, BusinessOrganization>
    var projects: map<string, Project>
    var members: map<(string, string), MemberRole>
    var invoices: map<string, Invoice>
    var numbers: map<string, string>
    var claims: map<string, Claim>
    var guard: map<string, string>
    var transfers: map<string, InvoiceTransfer>
    var voidRequests: map<string, VoidRequest>
    var events: map<(string, string), ProjectEvent>
    var flows: map<(string, string), InvoiceFlow>
    var eventLog: seq<ProjectEvent>
    var flowLog: seq<InvoiceFlow>

    function State(): World
      reads this
    {
      World(users, organizations, projects, members, invoices, numbers, claims, guard, transfers, voidRequests,
            events, flows, eventLog, flowLog)
    }

    /** A ledger holding nothing but a user directory. */
    constructor (directory: map<string, BusinessUser>)
      ensures State() == World(directory, map[], map[], map[], map[], map[], map[], map[], map[], map[], map[], map[], [], [])
    {
      users, organizations, projects, members, invoices := directory, map[], map[], map[], map[];
      numbers, claims, guard, transfers, voidRequests := map[], map[], map[], map[], map[];
      events, flows, eventLog, flowLog := map[], map[], [], [];
    }

    method CreateProjectEvent(tx: Tx, projectId: string, kind: EventKind, actor: string, referenceId: string)
      modifies this`events, this`eventLog
      ensures State() == R.PutEvent(old(State()), tx, projectId, kind, actor, referenceId)
    {
      var event := ProjectEvent(projectId, tx.id, kind, actor, referenceId);
      events := events[(projectId, tx.id) := event];
      eventLog := eventLog + [event];
    }

    method CreateFlow(tx: Tx, invoiceId: string, kind: FlowKind, from: string, to: string, operator: string)
      modifies this`flows, this`flowLog
      ensures State() == R.PutFlow(old(State()), tx, invoiceId, kind, from, to, operator)
    {
      var flow := InvoiceFlow(invoiceId, tx.id, kind, from, to, operator);
      flows := flows[(invoiceId, tx.id) := flow];
      flowLog := flowLog + [flow];
    }

    // ----- scans -----

    /** Every stored claim once, and no other, in some order. */
    method GetAllReimbursements() returns (list: seq<Claim>)
      ensures forall c :: c in list <==> exists r :: r in claims && claims[r] == c
      ensures |list| == |claims|
    {
      list := [];
      var todo := claims.Keys;
      while todo != {}
        invariant todo <= claims.Keys
        invariant forall c :: c in list <==> exists r :: r in claims.Keys - todo && claims[r] == c
        invariant |list| + |todo| == |claims.Keys|
        decreases todo
      {
        var r :| r in todo;
        list := list + [claims[r]];
        todo := todo - {r};
        assert r in claims.Keys - todo;
      }
    }

    /** The index lookup first, then the scan over the invoice records. On a sound ledger the answer is whether a record
        carries the trimmed number. */
    method InvoiceNumberExists(invoiceNo: string) returns (found: bool)
      ensures found == R.InvoiceNumberExists(State(), invoiceNo)
      ensures I.Inv(State()) ==> (found <==> T.Carried(State(), TrimSpace(invoiceNo)))
    {
      found := FindNumber(invoiceNo);
      hide I.Inv, R.InvoiceNumberExists, T.Carried, TrimSpace;
      if I.Inv(State()) { T.NumberLookup(State(), invoiceNo); }
    }

    method FindNumber(invoiceNo: string) returns (found: bool)
      ensures found == R.InvoiceNumberExists(State(), invoiceNo)
    {
      if TrimSpace(invoiceNo) in numbers { return true; }
      var todo := invoices.Keys;
      while todo != {}
        invariant todo <= invoices.Keys
        invariant forall id :: id in invoices.Keys - todo ==> !R.CarriedBy(State(), invoiceNo, id)
        decreases todo
      {
        var id :| id in todo;
        if invoices[id].invoiceNo == invoiceNo {
          assert R.CarriedBy(State(), invoiceNo, id);
          return true;
        }
        todo := todo - {id};
      }
      return false;
    }

    method InvoiceNumberExistsExcept(invoiceNo: string, exceptId: string) returns (found: bool)
      ensures found == R.InvoiceNumberExistsExcept(State(), invoiceNo, exceptId)
    {
      var key := TrimSpace(invoiceNo);
      if key in numbers && numbers[key] != exceptId { return true; }
      var todo := invoices.Keys;
      while todo != {}
        invariant todo <= invoices.Keys
        invariant forall id :: id in invoices.Keys - todo ==> !R.CarriedBy(State(), invoiceNo, id) || invoices[id].id == exceptId
        decreases todo
      {
        var id :| id in todo;
        if invoices[id].id != exceptId && invoices[id].invoiceNo == invoiceNo {
          assert R.CarriedBy(State(), invoiceNo, id);
          return true;
        }
        todo := todo - {id};
      }
      return false;
    }

    // ----- directory -----

    method RegisterBusinessUser(tx: Tx, username: string, displayOk: bool, msp: string, role: Role, organizationId: string)
      returns (r: Result<()>)
      modifies this
      ensures Follows(old(State()), State(), r, R.RegisterBusinessUser(old(State()), tx, username, displayOk, msp, role, organizationId))
    {
      hide TrimSpace, R.DirectoryGrows, R.SameBooks;
      var w := State();
      var name, orgId, ownMsp := TrimSpace(username), TrimSpace(organizationId), TrimSpace(msp);
      if !(name != "" && displayOk && R.KeySafe(name) && forall c :: c in name ==> c !in " \t\n") { return Refused(BadField); }
      if !(R.BusinessMsp(ownMsp) && role == ProjectMember) { return Refused(BadField); }
      if !(tx.msp == ownMsp) { return Refused(NotAuthorised); }
      var organization :- R.ReadOrganization(w, orgId);
      if !(organization.active && organization.msp == ownMsp) { return Refused(OutOfScope); }
      if !(name !in users) { return Refused(AlreadyExists); }
      users := users[name := BusinessUser(ownMsp, orgId, role, true)];
      return Ok(());
    }

    method CreateBusinessOrganization(tx: Tx, rawId: string, textOk: bool, kind: OrganizationType, rawParent: string, creator: string)
      returns (r: Result<()>)
      modifies this
      ensures Follows(old(State()), State(), r, R.CreateBusinessOrganization(old(State()), tx, rawId, textOk, kind, rawParent, creator))
    {
      hide TrimSpace, R.DirectoryGrows, R.SameBooks, R.ActiveUser;
      var w := State();
      var id, parentId := TrimSpace(rawId), TrimSpace(rawParent);
      if !(id != "" && textOk && TrimSpace(creator) != "" && R.KeySafe(id)) { return Refused(BadField); }
      if !(R.ActiveUser(w, tx, TrimSpace(creator), tx.msp, {OrgAdmin})) { return Refused(NotAuthorised); }
      if kind == ProjectTeam {
        if !(parentId != "") { return Refused(BadField); }
        var parent :- R.ReadOrganization(w, parentId);
        if !(parent.kind == Primary) { return Refused(OutOfScope); }
      } else {
        if !(parentId == "") { return Refused(BadField); }
      }
      if !(id !in organizations) { return Refused(AlreadyExists); }
      organizations := organizations[id := BusinessOrganization(id, tx.msp, parentId, kind, true)];
      return Ok(());
    }

    // ----- projects -----

    method CreateProject(tx: Tx, rawId: string, textOk: bool, budget: int, rawApplicant: string, rawOrganization: string)
      returns (r: Result<()>)
      modifies this
      ensures Follows(old(State()), State(), r, R.CreateProject(old(State()), tx, rawId, textOk, budget, rawApplicant, rawOrganization))
    {
      hide TrimSpace, R.AddsOneEvent, R.MovesProject, R.ActiveUser;
      var w := State();
      var id, applicant, orgId := TrimSpace(rawId), TrimSpace(rawApplicant), TrimSpace(rawOrganization);
      if !(id != "" && textOk && applicant != "" && orgId != "" && R.KeySafe(id)) { return Refused(BadField); }
      if !(R.MoneyInRange(budget) && budget != 0) { return Refused(AmountInvalid); }
      if !(id !in projects) { return Refused(AlreadyExists); }
      if !R.ActiveUser(w, tx, applicant, tx.msp, {ProjectMember, Issuer}) { return Refused(NotAuthorised); }
      var user := R.ReadUser(w, applicant);
      if !(user.Some?) { return Refused(UnknownRecord); }
      if !(user.value.organizationId == orgId) { return Refused(OutOfScope); }
      projects := projects[id := Project(id, applicant, tx.msp, orgId, Draft, budget, 0, 0, 0, 0)];
      members := members[(id, applicant) := Leader];
      CreateProjectEvent(tx, id, CreateDraft, applicant, "");
      return Ok(());
    }

    method UpdateProject(tx: Tx, id: string, textOk: bool, budget: int, applicant: string) returns (r: Result<()>)
      modifies this
      ensures Follows(old(State()), State(), r, R.UpdateProject(old(State()), tx, id, textOk, budget, applicant))
    {
      hide TrimSpace, R.AddsOneEvent, R.MovesProject, R.IsApplicant, R.Editable;
      var w := State();
      var project :- R.ReadProject(w, id);
      if !R.Editable(project.status) { return Refused(WrongStatus); }
      if !R.IsApplicant(w, tx, project, applicant) { return Refused(NotAuthorised); }
      if !textOk { return Refused(BadField); }
      if !(R.MoneyInRange(budget) && budget != 0) { return Refused(AmountInvalid); }
      project := project.(budget := budget);
      project := project.(status := Draft);
      projects := projects[id := project];
      CreateProjectEvent(tx, id, UpdateDraft, applicant, "");
      return Ok(());
    }

    method SubmitProject(tx: Tx, id: string, applicant: string) returns (r: Result<()>)
      modifies this
      ensures Follows(old(State()), State(), r, R.SubmitProject(old(State()), tx, id, applicant))
    {
      hide TrimSpace, R.AddsOneEvent, R.MovesProject, R.IsApplicant, R.Editable;
      var w := State();
      var project :- R.ReadProject(w, id);
      if !R.Editable(project.status) { return Refused(WrongStatus); }
      if !R.IsApplicant(w, tx, project, applicant) { return Refused(NotAuthorised); }
      project := project.(status := PendingReview);
      projects := projects[id := project];
      CreateProjectEvent(tx, id, SubmitApplication, applicant, "");
      return Ok(());
    }

    method ReviewProject(tx: Tx, id: string, decision: Decision, opinionOk: bool, rawReviewer: string) returns (r: Result<()>)
      modifies this
      ensures Follows(old(State()), State(), r, R.ReviewProject(old(State()), tx, id, decision, opinionOk, rawReviewer))
    {
      hide TrimSpace, R.AddsOneEvent, R.MovesProject, R.IsManager;
      var w := State();
      var project :- R.ReadProject(w, id);
      if !(project.status.PendingReview?) { return Refused(WrongStatus); }
      var reviewer := TrimSpace(rawReviewer);
      if !(reviewer != "" && opinionOk && !decision.Unrecognised?) { return Refused(BadField); }
      if !R.IsManager(w, tx, project, reviewer, ProjectReviewer) { return Refused(NotAuthorised); }
      var kind;
      if decision.Approve? {
        project := project.(status := Executing);
        kind := ProjectApprove;
      } else {
        project := project.(status := RevisionRequired);
        kind := ProjectRevision;
      }
      projects := projects[id := project];
      CreateProjectEvent(tx, id, kind, reviewer, "");
      return Ok(());
    }

    method RequestProjectClosure(tx: Tx, id: string, materialsOk: bool, applicant: string) returns (r: Result<()>)
      modifies this
      ensures Follows(old(State()), State(), r, R.RequestProjectClosure(old(State()), tx, id, materialsOk, applicant))
    {
      hide TrimSpace, R.AddsOneEvent, R.MovesProject, R.IsApplicant, R.Editable;
      var w := State();
      var project :- R.ReadProject(w, id);
      if !(project.status.Executing?) { return Refused(WrongStatus); }
      if !R.IsApplicant(w, tx, project, applicant) { return Refused(NotAuthorised); }
      if !materialsOk { return Refused(BadField); }
      project := project.(status := ClosureReview);
      projects := projects[id := project];
      CreateProjectEvent(tx, id, RequestClosure, applicant, "");
      return Ok(());
    }

    method ReviewProjectClosure(tx: Tx, id: string, decision: Decision, opinionOk: bool, rawReviewer: string) returns (r: Result<()>)
      modifies this
      ensures Follows(old(State()), State(), r, R.ReviewProjectClosure(old(State()), tx, id, decision, opinionOk, rawReviewer))
    {
      hide TrimSpace, R.AddsOneEvent, R.MovesProject, R.IsManager;
      var w := State();
      var project :- R.ReadProject(w, id);
      if !(project.status.ClosureReview?) { return Refused(WrongStatus); }
      var reviewer := TrimSpace(rawReviewer);
      if !(reviewer != "" && opinionOk && !decision.Unrecognised?) { return Refused(BadField); }
      if !R.IsManager(w, tx, project, reviewer, ProjectReviewer) { return Refused(NotAuthorised); }
      if decision.Approve? {
        project := project.(status := FinancialSettlement);
        project := project.(available := project.budget);
      } else {
        project := project.(status := Executing);
      }
      projects := projects[id := project];
      if decision.Approve? {
        CreateProjectEvent(tx, id, ClosureApproveAndReleaseFund, reviewer, "");
        return Ok(());
      }
      CreateProjectEvent(tx, id, ClosureRevision, reviewer, "");
      return Ok(());
    }

    /** On a sound ledger it succeeds exactly when no claim of the project is open and the operator may settle; it then
        archives the project, recovers the rest of the budget and changes nothing else, and the ledger stays sound. */
    method FinalizeProjectSettlement(tx: Tx, id: string, financeOperator: string) returns (r: Result<()>)
      modifies this
      ensures Follows(old(State()), State(), r, R.FinalizeProjectSettlement(old(State()), tx, id, financeOperator))
      ensures Sound(old(State()), tx) ==> I.Inv(State())
      ensures I.Inv(old(State())) ==>
                && (r.Ok? <==> Adm.MaySettle(old(State()), tx, TrimSpace(id), financeOperator))
                && (r.Ok? ==> Adm.Archives(old(State()), State(), TrimSpace(id)))
    {
      hide I.Inv, I.Fresh, R.FinalizeProjectSettlement, Adm.MaySettle, Adm.Archives, TrimSpace;
      ghost var w := State();
      r := CloseAccount(tx, id, financeOperator);
      if Sound(w, tx) && r.Ok? { S.FinalizeKeepsInv(w, tx, id, financeOperator); }
      if I.Inv(w) { Adm.FinalizeIff(w, tx, id, financeOperator); }
    }

    /** The scan of FinalizeProjectSettlement over all claims. */
    method AnyAwaitsAction(projectId: string) returns (found: bool)
      ensures found == !R.NoneAwaits(State(), projectId)
    {
      var reimbursements := GetAllReimbursements();
      for i := 0 to |reimbursements|
        invariant forall j :: 0 <= j < i ==>
                    !(reimbursements[j].projectId == projectId
                      && (reimbursements[j].status.Pending? || reimbursements[j].status.Revision?))
      {
        var claim := reimbursements[i];
        if claim.projectId == projectId && (claim.status.Pending? || claim.status.Revision?) {
          assert claim in reimbursements;
          var key :| key in claims && claims[key] == claim;
          assert R.AwaitsAction(State(), projectId, key);
          return true;
        }
      }
      forall key | key in claims ensures !R.AwaitsAction(State(), projectId, key) {
        assert claims[key] in reimbursements;
      }
      return false;
    }

    /** The checks, and the record of the settled project. */
    method CloseAccount(tx: Tx, id: string, financeOperator: string) returns (r: Result<()>)
      modifies this
      ensures Follows(old(State()), State(), r, R.FinalizeProjectSettlement(old(State()), tx, id, financeOperator))
    {
      hide TrimSpace, R.AddsOneEvent, R.IsManager, R.InSettlement, Wrap64, R.NoneAwaits, R.ReadClaim, R.ReadProject, R.ReadInvoice;
      var w := State();
      var project :- R.ReadProject(w, id);
      if !R.InSettlement(project.status) { return Refused(WrongStatus); }
      if !(R.IsManager(w, tx, project, TrimSpace(financeOperator), FinanceAdmin)) { return Refused(NotAuthorised); }
      if !(project.reserved == 0) { return Refused(OpenClaims); }
      var awaited := AnyAwaitsAction(project.id);
      if awaited { return Refused(OpenClaims); }
      project := project.(recovered := Wrap64(project.recovered + project.available));
      project := project.(available := 0);
      project := project.(status := Archived);
      projects := projects[project.id := project];
      CreateProjectEvent(tx, project.id, FinalizeSettlement, financeOperator, "");
      return Ok(());
    }

    method AddProjectMember(tx: Tx, projectId: string, rawUsername: string, leader: string) returns (r: Result<()>)
      modifies this
      ensures Follows(old(State()), State(), r, R.AddProjectMember(old(State()), tx, projectId, rawUsername, leader))
    {
      hide TrimSpace, R.AddsOneEvent, R.IsApplicant, R.ReadUser, R.WorksOnProjects, R.SameTeam;
      var w := State();
      var project :- R.ReadProject(w, projectId);
      if !(!project.status.Archived?) { return Refused(WrongStatus); }
      if !R.IsApplicant(w, tx, project, leader) { return Refused(NotAuthorised); }
      var username := TrimSpace(rawUsername);
      var user := R.ReadUser(w, username);
      if !(user.Some?) { return Refused(UnknownRecord); }
      var member := user.value;
      if !R.WorksOnProjects(member) { return Refused(NotAuthorised); }
      if !R.SameTeam(member, project) { return Refused(OutOfScope); }
      if !((projectId, username) !in members) { return Refused(AlreadyExists); }
      members := members[(projectId, username) := Member];
      CreateProjectEvent(tx, projectId, AddMember, leader, "");
      return Ok(());
    }

    // ----- invoices -----

    /** The part of CreateInvoice that looks at the corrected record and at the number's other bearers. */
    method CheckCorrection(tx: Tx, invoiceNo: string, correctionOf: string, issuerOrg: string) returns (r: Result<()>)
      ensures r == R.CheckCorrection(State(), tx, invoiceNo, correctionOf, issuerOrg)
    {
      var numberExists := InvoiceNumberExists(invoiceNo);
      if numberExists && correctionOf == "" { return Refused(NumberTaken); }
      if correctionOf != "" {
        var original :- R.ReadInvoice(State(), correctionOf);
        if !(original.status.Voided?) { return Refused(WrongStatus); }
        if !(original.issuerMsp == tx.msp
                && (original.issuerOrganizationId == "" || original.issuerOrganizationId == issuerOrg)) { return Refused(OutOfScope); }
        if !(original.invoiceNo == invoiceNo) { return Refused(BadField); }
        var _ :- R.EnsureUnclaimed(State(), correctionOf);
        var another := InvoiceNumberExistsExcept(invoiceNo, correctionOf);
        if another { return Refused(NumberTaken); }
      }
      return Ok(());
    }

    /** Everything that CreateInvoice checks, and the record that it is going to store. */
    method DraftInvoice(tx: Tx, form: InvoiceForm) returns (r: Result<Invoice>)
      ensures r == R.DraftInvoice(State(), tx, form)
    {
      hide TrimSpace, R.ActiveUser, R.UserOrganization, R.CheckLinkedProject, R.CheckCorrection, R.CheckedAddMoney,
           R.BusinessMsp, R.MayIssueFor;
      var id, invoiceNo := TrimSpace(form.id), TrimSpace(form.invoiceNo);
      var holder, holderMsp := TrimSpace(form.initialHolder), TrimSpace(form.initialHolderMsp);
      var correctionOf, projectId := TrimSpace(form.correctionOf), TrimSpace(form.projectId);
      if !(id != "" && invoiceNo != "" && holder != "" && form.textOk && R.KeySafe(id)) { return Refused(BadField); }
      if !(R.BusinessMsp(tx.msp) && R.BusinessMsp(TrimSpace(form.buyerMsp)) && R.BusinessMsp(holderMsp)) { return Refused(BadField); }
      if !(tx.msp == holderMsp) { return Refused(NotAuthorised); }
      if !form.currencyOk { return Refused(BadField); }
      if !(R.ActiveUser(State(), tx, holder, tx.msp, {Issuer, ProjectMember})) { return Refused(NotAuthorised); }
      var creatorOrg :- R.UserOrganization(State(), holder);
      var issuerOrg := TrimSpace(form.issuerOrganizationId);
      if issuerOrg == "" { issuerOrg := creatorOrg; }
      if !R.MayIssueFor(creatorOrg, issuerOrg) { return Refused(OutOfScope); }
      var _ :- R.CheckLinkedProject(State(), tx, projectId, holder, issuerOrg);
      if !form.hashOk { return Refused(BadField); }
      if !(R.MoneyInRange(form.amount) && R.MoneyInRange(form.tax)) { return Refused(AmountInvalid); }
      var total :- R.CheckedAddMoney(form.amount, form.tax);
      if !(total > 0) { return Refused(AmountInvalid); }
      if !(id !in invoices) { return Refused(AlreadyExists); }
      var _ :- CheckCorrection(tx, invoiceNo, correctionOf, issuerOrg);
      return Ok(Invoice(id, invoiceNo, total, holder, holderMsp, issuerOrg, tx.msp, issuerOrg, projectId, correctionOf, Issued));
    }

    method CreateInvoice(tx: Tx, form: InvoiceForm) returns (r: Result<()>)
      modifies this
      ensures Follows(old(State()), State(), r, R.CreateInvoice(old(State()), tx, form))
    {
      hide TrimSpace, R.AddsOneFlow, R.SameBooks, R.DraftInvoice;
      var invoice :- DraftInvoice(tx, form);
      invoices := invoices[invoice.id := invoice];
      numbers := numbers[invoice.invoiceNo := invoice.id];
      var kind := Issue;
      if invoice.correctionOf != "" { kind := Correction; }
      CreateFlow(tx, invoice.id, kind, TrimSpace(form.issuer), invoice.holder, tx.msp);
      return Ok(());
    }

    method LinkInvoiceToProject(tx: Tx, invoiceId: string, projectId: string, operator: string) returns (r: Result<()>)
      modifies this
      ensures Follows(old(State()), State(), r, R.LinkInvoiceToProject(old(State()), tx, invoiceId, projectId, operator))
    {
      hide TrimSpace, R.AddsOneEvent, R.IsMember, R.EnsureUnclaimed, R.SameBusiness;
      var w := State();
      var invoice :- R.ReadInvoice(w, invoiceId);
      if !(!invoice.status.Voided?) { return Refused(InvoiceVoided); }
      if !(invoice.projectId == "") { return Refused(WrongProjectLink); }
      var _ :- R.EnsureUnclaimed(w, invoiceId);
      var project :- R.ReadProject(w, projectId);
      if !R.OpenForInvoices(project.status) { return Refused(WrongStatus); }
      if !R.IsMember(w, tx, project, operator) { return Refused(NotAuthorised); }
      if !R.SameBusiness(invoice, project) { return Refused(OutOfScope); }
      invoice := invoice.(projectId := project.id);
      invoices := invoices[invoice.id := invoice];
      CreateProjectEvent(tx, project.id, LinkInvoice, operator, "");
      return Ok(());
    }

    method UnlinkInvoiceFromProject(tx: Tx, invoiceId: string, operator: string) returns (r: Result<()>)
      modifies this
      ensures Follows(old(State()), State(), r, R.UnlinkInvoiceFromProject(old(State()), tx, invoiceId, operator))
    {
      hide TrimSpace, R.AddsOneEvent, R.IsMember, R.EnsureUnclaimed, R.SameBusiness;
      var w := State();
      var invoice :- R.ReadInvoice(w, invoiceId);
      if !(!invoice.status.Voided?) { return Refused(InvoiceVoided); }
      if !(invoice.projectId != "") { return Refused(WrongProjectLink); }
      var _ :- R.EnsureUnclaimed(w, invoiceId);
      var project :- R.ReadProject(w, invoice.projectId);
      if !(!project.status.Archived?) { return Refused(WrongStatus); }
      if !(R.IsMember(w, tx, project, TrimSpace(operator))) { return Refused(NotAuthorised); }
      if !R.SameBusiness(invoice, project) { return Refused(OutOfScope); }
      var projectId := invoice.projectId;
      invoice := invoice.(projectId := "");
      invoices := invoices[invoice.id := invoice];
      CreateProjectEvent(tx, projectId, UnlinkInvoice, operator, "");
      return Ok(());
    }

    method TransferInvoice(tx: Tx, id: string, rawTo: string, rawToMsp: string, rawOperator: string) returns (r: Result<()>)
      modifies this
      ensures Follows(old(State()), State(), r, R.TransferInvoice(old(State()), tx, id, rawTo, rawToMsp, rawOperator))
    {
      hide TrimSpace, R.AddsOneFlow, R.MovesInvoice, R.ActiveUser, R.UserOrganization, R.BusinessMsp;
      var w := State();
      var invoice :- R.ReadInvoice(w, id);
      var to, toMsp, operator := TrimSpace(rawTo), TrimSpace(rawToMsp), TrimSpace(rawOperator);
      if !(to != "" && to != invoice.holder) { return Refused(BadField); }
      if !(!invoice.status.Voided?) { return Refused(InvoiceVoided); }
      if !R.BusinessMsp(toMsp) { return Refused(BadField); }
      var target := R.ReadUser(w, to);
      if !(target.Some? && target.value.active && target.value.msp == toMsp && target.value.role == Holder) { return Refused(NotAuthorised); }
      if !(invoice.holderMsp != "" && tx.msp == invoice.holderMsp && invoice.holder == operator) { return Refused(NotAuthorised); }
      if !R.ActiveUser(w, tx, operator, tx.msp, R.HANDLERS) { return Refused(NotAuthorised); }
      var operatorOrg :- R.UserOrganization(w, operator);
      if !(!R.Clash(invoice.holderOrganizationId, operatorOrg)) { return Refused(OutOfScope); }
      var targetOrg :- R.UserOrganization(w, to);
      var from := invoice.holder;
      invoice := invoice.(holder := to);
      invoice := invoice.(holderMsp := toMsp);
      invoice := invoice.(holderOrganizationId := targetOrg);
      invoice := invoice.(status := InCirculation);
      invoices := invoices[id := invoice];
      CreateFlow(tx, id, Transfer, from, to, tx.msp);
      return Ok(());
    }

    method RequestInvoiceTransfer(tx: Tx, id: string, rawTo: string, rawToMsp: string, rawOperator: string) returns (r: Result<()>)
      modifies this
      ensures Follows(old(State()), State(), r, R.RequestInvoiceTransfer(old(State()), tx, id, rawTo, rawToMsp, rawOperator))
    {
      hide TrimSpace, R.AddsOneFlow, R.ActiveUser, R.RegisteredRole, R.TransferIsPending;
      var w := State();
      var invoice :- R.ReadInvoice(w, id);
      var to, toMsp, operator := TrimSpace(rawTo), TrimSpace(rawToMsp), TrimSpace(rawOperator);
      if !(to != "" && to != invoice.holder) { return Refused(BadField); }
      if !(!invoice.status.Voided?) { return Refused(InvoiceVoided); }
      if !(tx.msp == invoice.holderMsp && operator == invoice.holder) { return Refused(NotAuthorised); }
      if !R.ActiveUser(w, tx, operator, tx.msp, R.HANDLERS) { return Refused(NotAuthorised); }
      if !R.RegisteredRole(w, to, toMsp, R.HANDLERS) { return Refused(NotAuthorised); }
      if !(!R.TransferIsPending(w, id)) { return Refused(AlreadyExists); }
      transfers := transfers[id := InvoiceTransfer(id, operator, to, toMsp, TransferPending)];
      CreateFlow(tx, id, TransferRequested, operator, to, tx.msp);
      return Ok(());
    }

    method RespondInvoiceTransfer(tx: Tx, id: string, decision: Decision, rawRecipient: string) returns (r: Result<()>)
      modifies this
      ensures Follows(old(State()), State(), r, R.RespondInvoiceTransfer(old(State()), tx, id, decision, rawRecipient))
    {
      hide TrimSpace, R.AddsOneFlow, R.AcceptsTransfer, R.ActiveUser, R.UserOrganization;
      var w := State();
      var transfer :- R.ReadTransfer(w, id);
      if !(transfer.status.TransferPending?) { return Refused(WrongStatus); }
      var recipient := TrimSpace(rawRecipient);
      if !(!decision.Unrecognised?) { return Refused(BadField); }
      if !(recipient == transfer.to) { return Refused(NotAuthorised); }
      if !R.ActiveUser(w, tx, recipient, transfer.toMsp, R.HANDLERS) { return Refused(NotAuthorised); }
      if decision.Decline? {
        transfer := transfer.(status := TransferRejected);
        transfers := transfers[id := transfer];
        CreateFlow(tx, id, TransferRejection, transfer.from, transfer.to, transfer.toMsp);
        return Ok(());
      }
      var invoice :- R.ReadInvoice(w, id);
      if !(invoice.holder == transfer.from && !invoice.status.Voided?) { return Refused(WrongStatus); }
      var targetOrg :- R.UserOrganization(w, recipient);
      invoice := invoice.(holder := recipient, holderMsp := transfer.toMsp, holderOrganizationId := targetOrg, status := InCirculation);
      transfer := transfer.(status := TransferAccepted);
      invoices := invoices[id := invoice];
      transfers := transfers[id := transfer];
      CreateFlow(tx, id, TransferAcceptance, transfer.from, recipient, transfer.toMsp);
      return Ok(());
    }

    method CancelInvoiceTransfer(tx: Tx, id: string, operator: string) returns (r: Result<()>)
      modifies this
      ensures Follows(old(State()), State(), r, R.CancelInvoiceTransfer(old(State()), tx, id, operator))
    {
      hide TrimSpace, R.AddsOneFlow;
      var w := State();
      var transfer :- R.ReadTransfer(w, id);
      if !(transfer.status.TransferPending?) { return Refused(WrongStatus); }
      if !(TrimSpace(operator) == transfer.from) { return Refused(NotAuthorised); }
      var invoice :- R.ReadInvoice(w, id);
      if !(invoice.holder == operator) { return Refused(NotAuthorised); }
      transfer := transfer.(status := TransferCancelled);
      transfers := transfers[id := transfer];
      CreateFlow(tx, id, TransferCancellation, transfer.from, transfer.to, invoice.holderMsp);
      return Ok(());
    }

    method VoidInvoice(tx: Tx, id: string, reasonOk: bool, rawOperator: string) returns (r: Result<()>)
      modifies this
      ensures Follows(old(State()), State(), r, R.VoidInvoice(old(State()), tx, id, reasonOk, rawOperator))
    {
      hide TrimSpace, R.AddsOneFlow, R.MovesInvoice, R.ActiveUser, R.UserOrganization, R.EnsureUnclaimed;
      var w := State();
      var invoice :- R.ReadInvoice(w, id);
      var operator := TrimSpace(rawOperator);
      if !reasonOk { return Refused(BadField); }
      if !(!invoice.status.Voided?) { return Refused(InvoiceVoided); }
      if !(invoice.issuerMsp != "" && tx.msp == invoice.issuerMsp) { return Refused(NotAuthorised); }
      if !R.ActiveUser(w, tx, operator, tx.msp, {Issuer}) { return Refused(NotAuthorised); }
      var operatorOrg :- R.UserOrganization(w, operator);
      if !(!R.Clash(invoice.issuerOrganizationId, operatorOrg)) { return Refused(OutOfScope); }
      var _ :- R.EnsureUnclaimed(w, id);
      invoice := invoice.(status := Voided);
      invoices := invoices[id := invoice];
      CreateFlow(tx, id, Void, invoice.holder, "VOIDED", tx.msp);
      return Ok(());
    }

    method RequestInvoiceVoid(tx: Tx, id: string, reasonOk: bool, rawApplicant: string) returns (r: Result<()>)
      modifies this
      ensures Follows(old(State()), State(), r, R.RequestInvoiceVoid(old(State()), tx, id, reasonOk, rawApplicant))
    {
      hide TrimSpace, R.AddsOneFlow, R.IsMember, R.EnsureUnclaimed, R.VoidIsPending, R.ReadInvoice;
      var w := State();
      var invoice :- R.ReadInvoice(w, id);
      var applicant := TrimSpace(rawApplicant);
      if !(reasonOk && applicant != "") { return Refused(BadField); }
      if !(!invoice.status.Voided?) { return Refused(InvoiceVoided); }
      var _ :- R.EnsureUnclaimed(w, id);
      if !(invoice.projectId != "") { return Refused(WrongProjectLink); }
      var project :- R.ReadProject(w, invoice.projectId);
      if !R.IsMember(w, tx, project, applicant) { return Refused(NotAuthorised); }
      var existing := R.ReadVoidRequest(w, id);
      if !(!R.VoidIsPending(w, id)) { return Refused(AlreadyExists); }
      var request := VoidRequest(id, applicant, VoidPending);
      if existing.Ok? { request := existing.value; }
      request := request.(applicant := applicant, status := VoidPending);
      voidRequests := voidRequests[id := request];
      CreateFlow(tx, id, VoidRequested, applicant, "ISSUER_REVIEW", tx.msp);
      return Ok(());
    }

    method ReviewInvoiceVoid(tx: Tx, id: string, decision: Decision, opinionOk: bool, rawReviewer: string) returns (r: Result<()>)
      modifies this
      ensures Follows(old(State()), State(), r, R.ReviewInvoiceVoid(old(State()), tx, id, decision, opinionOk, rawReviewer))
    {
      hide TrimSpace, R.AddsOneFlow, R.MovesInvoice, R.ActiveUser, R.UserOrganization, R.EnsureUnclaimed;
      var w := State();
      var invoice :- R.ReadInvoice(w, id);
      var request :- R.ReadVoidRequest(w, id);
      var reviewer := TrimSpace(rawReviewer);
      if !(request.status.VoidPending?) { return Refused(WrongStatus); }
      if !(!decision.Unrecognised? && opinionOk && reviewer != "") { return Refused(BadField); }
      if !(tx.msp == invoice.issuerMsp) { return Refused(NotAuthorised); }
      if !R.ActiveUser(w, tx, reviewer, tx.msp, {Issuer}) { return Refused(NotAuthorised); }
      var reviewerOrg :- R.UserOrganization(w, reviewer);
      if !(!R.Clash(invoice.issuerOrganizationId, reviewerOrg)) { return Refused(OutOfScope); }
      if decision.Decline? {
        request := request.(status := VoidRejected);
        voidRequests := voidRequests[id := request];
        CreateFlow(tx, id, VoidRejection, reviewer, request.applicant, tx.msp);
        return Ok(());
      }
      if !(!invoice.status.Voided?) { return Refused(InvoiceVoided); }
      var _ :- R.EnsureUnclaimed(w, id);
      request := request.(status := VoidApproved);
      invoice := invoice.(status := Voided);
      invoices := invoices[id := invoice];
      voidRequests := voidRequests[id := request];
      CreateFlow(tx, id, Void, invoice.holder, "VOIDED", tx.msp);
      return Ok(());
    }

    // ----- reimbursements -----

    method CreateReimbursement(tx: Tx, rawId: string, rawProject: string, rawInvoice: string, rawApplicant: string, evidenceOk: bool)
      returns (r: Result<()>)
      modifies this
      ensures Follows(old(State()), State(), r,
                      R.CreateReimbursement(old(State()), tx, rawId, rawProject, rawInvoice, rawApplicant, evidenceOk))
    {
      hide TrimSpace, R.AddsOneEvent, R.MovesClaim, R.IsMember, R.InSettlement;
      var w := State();
      var id, projectId := TrimSpace(rawId), TrimSpace(rawProject);
      var invoiceId, applicant := TrimSpace(rawInvoice), TrimSpace(rawApplicant);
      if !(id != "" && projectId != "" && invoiceId != "" && applicant != "" && R.KeySafe(id)) { return Refused(BadField); }
      if !(id !in claims) { return Refused(AlreadyExists); }
      var project :- R.ReadProject(w, projectId);
      if !R.InSettlement(project.status) { return Refused(WrongStatus); }
      if !R.IsMember(w, tx, project, applicant) { return Refused(NotAuthorised); }
      var invoice :- R.ReadInvoice(w, invoiceId);
      if !(!invoice.status.Voided?) { return Refused(InvoiceVoided); }
      if !(invoice.projectId == projectId) { return Refused(WrongProjectLink); }
      if !(invoiceId !in guard) { return Refused(InvoiceInUse); }
      if !evidenceOk { return Refused(BadField); }
      if !(0 < invoice.total <= MAX_MONEY_CENTS) { return Refused(AmountInvalid); }
      claims := claims[id := Claim(id, projectId, invoiceId, applicant, invoice.total, Pending)];
      guard := guard[invoiceId := id];
      CreateProjectEvent(tx, projectId, SubmitReimbursement, applicant, id);
      return Ok(());
    }

    /** On a sound ledger an approval succeeds exactly for a pending claim, a reviewer in scope and enough available money;
        it then freezes the exact amount and changes nothing else. A return succeeds exactly for a pending claim and a reviewer in
        scope, sends the claim back and moves no money. No other word is accepted. The ledger stays sound. */
    method ReviewReimbursement(tx: Tx, id: string, decision: Decision, opinionOk: bool, rawReviewer: string) returns (r: Result<()>)
      modifies this
      ensures Follows(old(State()), State(), r, R.ReviewReimbursement(old(State()), tx, id, decision, opinionOk, rawReviewer))
      ensures Sound(old(State()), tx) && Trimmed(id) ==> I.Inv(State())
      ensures decision.Approve? && I.Inv(old(State())) ==>
                && (r.Ok? <==> opinionOk && Adm.MayApprove(old(State()), tx, TrimSpace(id), rawReviewer))
                && (r.Ok? ==> Adm.Approves(old(State()), State(), id))
      ensures decision.Decline? && I.Inv(old(State())) ==>
                && (r.Ok? <==> opinionOk && Adm.MayReturn(old(State()), tx, TrimSpace(id), rawReviewer))
                && (r.Ok? ==> Adm.Returns(old(State()), State(), id))
      ensures decision.Unrecognised? && I.Inv(old(State())) ==> r.Refused? && State() == old(State())
    {
      hide I.Inv, I.Fresh, R.ReviewReimbursement, Adm.MayApprove, Adm.Approves, Adm.MayReturn, Adm.Returns, Trimmed, TrimSpace;
      ghost var w := State();
      r := DecideReimbursement(tx, id, decision, opinionOk, rawReviewer);
      if Sound(w, tx) && Trimmed(id) && r.Ok? { S.ReviewClaimKeepsInv(w, tx, id, decision, opinionOk, rawReviewer); }
      if I.Inv(w) {
        Adm.ApprovalIff(w, tx, id, opinionOk, rawReviewer);
        Adm.ReturnIff(w, tx, id, opinionOk, rawReviewer);
      }
    }

    /** The checks, and the records of the decision. */
    method DecideReimbursement(tx: Tx, id: string, decision: Decision, opinionOk: bool, rawReviewer: string) returns (r: Result<()>)
      modifies this
      ensures Follows(old(State()), State(), r, R.ReviewReimbursement(old(State()), tx, id, decision, opinionOk, rawReviewer))
    {
      hide TrimSpace, R.AddsOneEvent, R.MovesClaim, R.RestatesClaim, R.IsManager, Wrap64, R.ReadClaim, R.ReadProject, R.ReadInvoice;
      var w := State();
      var claim :- R.ReadClaim(w, id);
      if !(claim.status.Pending?) { return Refused(WrongStatus); }
      var reviewer := TrimSpace(rawReviewer);
      if !(reviewer != "" && opinionOk && !decision.Unrecognised?) { return Refused(BadField); }
      var project :- R.ReadProject(w, claim.projectId);
      if !R.IsManager(w, tx, project, reviewer, ProjectReviewer) { return Refused(NotAuthorised); }
      var invoice :- R.ReadInvoice(w, claim.invoiceId);
      if !(!invoice.status.Voided?) { return Refused(InvoiceVoided); }
      if !(0 < claim.amount <= MAX_MONEY_CENTS) { return Refused(AmountInvalid); }
      var kind;
      if decision.Approve? {
        if !(project.available >= claim.amount) { return Refused(InsufficientBalance); }
        project := project.(available := Wrap64(project.available - claim.amount));
        project := project.(reserved := Wrap64(project.reserved + claim.amount));
        claim := claim.(status := Reserved);
        kind := ReimbursementApprove;
        projects := projects[project.id := project];
      } else {
        claim := claim.(status := Revision);
        kind := ReimbursementRevision;
      }
      claims := claims[id := claim];
      CreateProjectEvent(tx, claim.projectId, kind, reviewer, claim.id);
      return Ok(());
    }

    method ResubmitReimbursement(tx: Tx, id: string, evidenceOk: bool, applicant: string) returns (r: Result<()>)
      modifies this
      ensures Follows(old(State()), State(), r, R.ResubmitReimbursement(old(State()), tx, id, evidenceOk, applicant))
    {
      hide TrimSpace, R.AddsOneEvent, R.MovesClaim, R.RestatesClaim, R.IsMember;
      var w := State();
      var claim :- R.ReadClaim(w, id);
      if !(claim.status.Revision?) { return Refused(WrongStatus); }
      var project :- R.ReadProject(w, claim.projectId);
      if !R.IsMember(w, tx, project, applicant) { return Refused(NotAuthorised); }
      if !evidenceOk { return Refused(BadField); }
      claim := claim.(status := Pending);
      claims := claims[id := claim];
      CreateProjectEvent(tx, claim.projectId, LedgerTypes.ResubmitReimbursement, applicant, id);
      return Ok(());
    }

    /** Puts back the project record with the claim's amount moved from reserved to available, if the claim had it frozen. */
    method Unfreeze(project: Project, claim: Claim) returns (r: Result<()>)
      modifies this`projects
      ensures Follows(old(State()), State(), r, R.Unfreeze(old(State()), project, claim))
    {
      if !claim.status.Reserved? { return Ok(()); }
      if project.reserved < claim.amount { return Refused(BalanceInconsistent); }
      var available := R.CheckedAddMoney(project.available, claim.amount);
      if available.Refused? || available.value > Wrap64(project.budget - project.paid) { return Refused(BalanceInconsistent); }
      var released := project.(available := available.value, reserved := Wrap64(project.reserved - claim.amount));
      projects := projects[project.id := released];
      return Ok(());
    }

    /** On a sound ledger it succeeds exactly for an open claim and a member of its project; it then frees the invoice, gives
        back what was frozen and changes nothing else, and the ledger stays sound. */
    method WithdrawReimbursement(tx: Tx, id: string, applicant: string) returns (r: Result<()>)
      modifies this
      ensures Follows(old(State()), State(), r, R.WithdrawReimbursement(old(State()), tx, id, applicant))
      ensures Sound(old(State()), tx) && Trimmed(id) ==> I.Inv(State())
      ensures I.Inv(old(State())) ==>
                && (r.Ok? <==> Adm.MayWithdraw(old(State()), tx, TrimSpace(id), applicant))
                && (r.Ok? ==> Adm.Withdraws(old(State()), State(), id))
    {
      hide I.Inv, I.Fresh, R.WithdrawReimbursement, Adm.MayWithdraw, Adm.Withdraws, Trimmed, TrimSpace;
      ghost var w := State();
      r := TakeBackReimbursement(tx, id, applicant);
      if Sound(w, tx) && Trimmed(id) && r.Ok? { S.WithdrawClaimKeepsInv(w, tx, id, applicant); }
      if I.Inv(w) { Adm.WithdrawalIff(w, tx, id, applicant); }
    }

    /** The checks, and the records without the claim. */
    method TakeBackReimbursement(tx: Tx, id: string, applicant: string) returns (r: Result<()>)
      modifies this
      ensures Follows(old(State()), State(), r, R.WithdrawReimbursement(old(State()), tx, id, applicant))
    {
      hide TrimSpace, R.AddsOneEvent, R.MovesClaim, R.RestatesClaim, R.IsMember, R.Unfreeze, ClaimStatus.Open, R.ReadClaim, R.ReadProject, R.ReadInvoice;
      var w := State();
      var claim :- R.ReadClaim(w, id);
      if !(claim.status.Open()) { return Refused(WrongStatus); }
      var project :- R.ReadProject(w, claim.projectId);
      if !R.IsMember(w, tx, project, applicant) { return Refused(NotAuthorised); }
      var _ :- Unfreeze(project, claim);
      claim := claim.(status := Withdrawn);
      claims := claims[id := claim];
      guard := guard - {claim.invoiceId};
      CreateProjectEvent(tx, project.id, LedgerTypes.WithdrawReimbursement, applicant, id);
      return Ok(());
    }

    /** On a sound ledger it succeeds exactly for an approved claim and a finance administrator in scope; it then moves the
        exact amount from frozen to paid and changes nothing else, and the ledger stays sound. */
    method PayReimbursement(tx: Tx, id: string, rawOperator: string) returns (r: Result<()>)
      modifies this
      ensures Follows(old(State()), State(), r, R.PayReimbursement(old(State()), tx, id, rawOperator))
      ensures Sound(old(State()), tx) && Trimmed(id) ==> I.Inv(State())
      ensures I.Inv(old(State())) ==>
                && (r.Ok? <==> Adm.MayPay(old(State()), tx, TrimSpace(id), rawOperator))
                && (r.Ok? ==> Adm.Pays(old(State()), State(), id))
    {
      hide I.Inv, I.Fresh, R.PayReimbursement, Adm.MayPay, Adm.Pays, Trimmed, TrimSpace;
      ghost var w := State();
      r := ChargeReserve(tx, id, rawOperator);
      if Sound(w, tx) && Trimmed(id) && r.Ok? { S.PayClaimKeepsInv(w, tx, id, rawOperator); }
      if I.Inv(w) { Adm.PaymentIff(w, tx, id, rawOperator); }
    }

    /** The checks, and the records after the payment. */
    method ChargeReserve(tx: Tx, id: string, rawOperator: string) returns (r: Result<()>)
      modifies this
      ensures Follows(old(State()), State(), r, R.PayReimbursement(old(State()), tx, id, rawOperator))
    {
      hide TrimSpace, R.AddsOneEvent, R.MovesClaim, R.RestatesClaim, R.IsManager, Wrap64, R.ReadClaim, R.ReadProject, R.ReadInvoice;
      var w := State();
      var claim :- R.ReadClaim(w, id);
      if !(claim.status.Reserved?) { return Refused(WrongStatus); }
      var operator := TrimSpace(rawOperator);
      if !(operator != "") { return Refused(BadField); }
      var project :- R.ReadProject(w, claim.projectId);
      if !R.IsManager(w, tx, project, operator, FinanceAdmin) { return Refused(NotAuthorised); }
      var invoice :- R.ReadInvoice(w, claim.invoiceId);
      if !(!invoice.status.Voided?) { return Refused(InvoiceVoided); }
      if !(project.reserved >= claim.amount) { return Refused(BalanceInconsistent); }
      project := project.(reserved := Wrap64(project.reserved - claim.amount));
      project := project.(paid := Wrap64(project.paid + claim.amount));
      claim := claim.(status := Paid);
      projects := projects[project.id := project];
      claims := claims[id := claim];
      CreateProjectEvent(tx, project.id, LedgerTypes.PayReimbursement, operator, id);
      return Ok(());
    }

    // ----- the dispatcher -----

    /** Calls on users, organizations and projects. */
    method SubmitOnProjects(tx: Tx, call: Call) returns (r: Result<()>)
      requires !R.OnInvoices(call) && !R.OnClaims(call)
      modifies this
      ensures Follows(old(State()), State(), r, R.ExecuteOnProjects(old(State()), tx, call))
    {
      hide R.AddsOneEvent, R.AddsOneFlow, R.MovesProject, R.MovesClaim, R.RestatesClaim, R.MovesInvoice, R.AcceptsTransfer,
           R.SameBooks, R.DirectoryGrows, Follows,
           R.RegisterBusinessUser, R.CreateBusinessOrganization, R.CreateProject, R.UpdateProject, R.SubmitProject,
           R.ReviewProject, R.RequestProjectClosure, R.ReviewProjectClosure, R.FinalizeProjectSettlement,
           R.AddProjectMember;
      match call
      case CallRegisterUser(name, ok, msp, role, org) => r := RegisterBusinessUser(tx, name, ok, msp, role, org);
      case CallCreateOrganization(id, ok, kind, parent, creator) => r := CreateBusinessOrganization(tx, id, ok, kind, parent, creator);
      case CallCreateProject(id, ok, budget, applicant, org) => r := CreateProject(tx, id, ok, budget, applicant, org);
      case CallUpdateProject(id, ok, budget, applicant) => r := UpdateProject(tx, id, ok, budget, applicant);
      case CallSubmitProject(id, applicant) => r := SubmitProject(tx, id, applicant);
      case CallReviewProject(id, decision, ok, reviewer) => r := ReviewProject(tx, id, decision, ok, reviewer);
      case CallRequestClosure(id, ok, applicant) => r := RequestProjectClosure(tx, id, ok, applicant);
      case CallReviewClosure(id, decision, ok, reviewer) => r := ReviewProjectClosure(tx, id, decision, ok, reviewer);
      case CallFinalize(id, operator) => r := FinalizeProjectSettlement(tx, id, operator);
      case CallAddMember(id, name, leader) => r := AddProjectMember(tx, id, name, leader);
    }

    /** Calls on invoices. */
    method SubmitOnInvoices(tx: Tx, call: Call) returns (r: Result<()>)
      requires R.OnInvoices(call)
      modifies this
      ensures Follows(old(State()), State(), r, R.ExecuteOnInvoices(old(State()), tx, call))
    {
      hide R.AddsOneEvent, R.AddsOneFlow, R.MovesProject, R.MovesClaim, R.RestatesClaim, R.MovesInvoice, R.AcceptsTransfer,
           R.SameBooks, R.DirectoryGrows, Follows,
           R.CreateInvoice, R.LinkInvoiceToProject, R.UnlinkInvoiceFromProject, R.TransferInvoice,
           R.RequestInvoiceTransfer, R.RespondInvoiceTransfer, R.CancelInvoiceTransfer, R.VoidInvoice,
           R.RequestInvoiceVoid, R.ReviewInvoiceVoid;
      match call
      case CallCreateInvoice(form) => r := CreateInvoice(tx, form);
      case CallLinkInvoice(id, project, operator) => r := LinkInvoiceToProject(tx, id, project, operator);
      case CallUnlinkInvoice(id, operator) => r := UnlinkInvoiceFromProject(tx, id, operator);
      case CallTransferInvoice(id, to, toMsp, operator) => r := TransferInvoice(tx, id, to, toMsp, operator);
      case CallRequestTransfer(id, to, toMsp, operator) => r := RequestInvoiceTransfer(tx, id, to, toMsp, operator);
      case CallRespondTransfer(id, decision, recipient) => r := RespondInvoiceTransfer(tx, id, decision, recipient);
      case CallCancelTransfer(id, operator) => r := CancelInvoiceTransfer(tx, id, operator);
      case CallVoidInvoice(id, ok, operator) => r := VoidInvoice(tx, id, ok, operator);
      case CallRequestVoid(id, ok, applicant) => r := RequestInvoiceVoid(tx, id, ok, applicant);
      case CallReviewVoid(id, decision, ok, reviewer) => r := ReviewInvoiceVoid(tx, id, decision, ok, reviewer);
    }

    /** Calls on reimbursements. */
    method SubmitOnClaims(tx: Tx, call: Call) returns (r: Result<()>)
      requires R.OnClaims(call)
      modifies this
      ensures Follows(old(State()), State(), r, R.ExecuteOnClaims(old(State()), tx, call))
    {
      hide R.AddsOneEvent, R.AddsOneFlow, R.MovesProject, R.MovesClaim, R.RestatesClaim, R.MovesInvoice, R.AcceptsTransfer,
           R.SameBooks, R.DirectoryGrows, Follows,
           R.CreateReimbursement, R.ReviewReimbursement, R.ResubmitReimbursement, R.WithdrawReimbursement,
           R.PayReimbursement;
      match call
      case CallCreateClaim(id, project, invoice, applicant, ok) => r := CreateReimbursement(tx, id, project, invoice, applicant, ok);
      case CallReviewClaim(id, decision, ok, reviewer) => r := ReviewReimbursement(tx, id, decision, ok, reviewer);
      case CallResubmitClaim(id, ok, applicant) => r := ResubmitReimbursement(tx, id, ok, applicant);
      case CallWithdrawClaim(id, applicant) => r := WithdrawReimbursement(tx, id, applicant);
      case CallPayClaim(id, operator) => r := PayReimbursement(tx, id, operator);
    }

    /** The chaincode entry point: every call follows its rule. */
    method Submit(tx: Tx, call: Call) returns (r: Result<()>)
      modifies this
      ensures Follows(old(State()), State(), r, R.Execute(old(State()), tx, call))
    {
      hide Follows, R.ExecuteOnProjects, R.ExecuteOnInvoices, R.ExecuteOnClaims;
      if R.OnInvoices(call) {
        r := SubmitOnInvoices(tx, call);
      } else if R.OnClaims(call) {
        r := SubmitOnClaims(tx, call);
      } else {
        r := SubmitOnProjects(tx, call);
      }
    }

    /** A transaction with an id of its own on a sound ledger: it stays sound if and only if the call is refused or the record
        id that it writes back under is spelled without outer space. */
    method SubmitSoundly(tx: Tx, call: Call) returns (r: Result<()>)
      requires Sound(State(), tx)
      modifies this
      ensures I.Inv(State()) <==> r.Refused? || I.TrimmedIds(call)
      ensures Follows(old(State()), State(), r, R.Execute(old(State()), tx, call))
    {
      hide I.Inv, I.Fresh, I.TrimmedIds, R.Execute;
      ghost var w := State();
      r := Submit(tx, call);
      if r.Ok? { Spelling.InvKeptIffTrimmed(w, tx, call, State()); }
    }
  }
}
