/** Who may act, said by the records: the built-in accounts, the two calls on the directory, and the contract's three checks
    on the caller, which on a sound ledger come down to a few equations. */
module Entitlement {
  import opened Basics
  import opened LedgerTypes
  import opened LedgerRules
  import opened LedgerInvariant
  import opened LedgerSteps
  import opened Balances
  import opened Membership

  // ----- names and roles -----

  /** The accounts that work without a directory record. */
  const BUILT_IN: set<(string, string, Role)> := {
    ("issuer-org1", "Org1MSP", Issuer), ("auditor", "Org1MSP", Auditor), ("project-member", "Org1MSP", ProjectMember),
    ("project-reviewer", "Org1MSP", ProjectReviewer), ("org-admin", "Org1MSP", OrgAdmin),
    ("holder-org2", "Org2MSP", Holder), ("finance-admin", "Org2MSP", FinanceAdmin), ("org-admin-org2", "Org2MSP", OrgAdmin)}

  lemma BuiltInAccounts(name: string, msp: string, role: Role)
    ensures DemoUserRole(name, msp) == Some(role) <==> (name, msp, role) in BUILT_IN
  {}

  /** The directory record decides; a name without one may be built in. */
  predicate Bears(w: World, name: string, msp: string, role: Role) {
    var key := TrimSpace(name);
    if key in w.users then w.users[key].active && w.users[key].msp == msp && w.users[key].role == role
    else (name, msp, role) in BUILT_IN
  }

  lemma RoleIff(w: World, name: string, msp: string, roles: set<Role>)
    ensures RegisteredRole(w, name, msp, roles) <==> exists role :: role in roles && Bears(w, name, msp, role)
  {
    hide TrimSpace, BUILT_IN, DemoUserRole;
    if TrimSpace(name) !in w.users {
      forall role ensures DemoUserRole(name, msp) == Some(role) <==> (name, msp, role) in BUILT_IN { BuiltInAccounts(name, msp, role); }
      if RegisteredRole(w, name, msp, roles) { assert Bears(w, name, msp, DemoUserRole(name, msp).value); }
    } else if RegisteredRole(w, name, msp, roles) {
      assert Bears(w, name, msp, w.users[TrimSpace(name)].role);
    }
  }

  lemma OneRoleIff(w: World, name: string, msp: string, role: Role)
    ensures RegisteredRole(w, name, msp, {role}) <==> Bears(w, name, msp, role)
  {
    hide Bears, RegisteredRole;
    RoleIff(w, name, msp, {role});
  }

  // ----- the three checks -----

  /** A registered manager is of the project's organization or of the one above it; a built-in one manages every project. */
  predicate Oversees(w: World, p: string, name: string)
    requires p in w.projects
  {
    var key, owner := TrimSpace(name), w.projects[p].organizationId;
    key in w.users ==>
      || w.users[key].organizationId == owner
      || (owner in w.organizations && w.organizations[owner].parentId == w.users[key].organizationId)
  }

  /** requireProjectManager. */
  lemma ManagerIff(w: World, tx: Tx, p: string, name: string, role: Role)
    requires Inv(w) && p in w.projects
    ensures IsManager(w, tx, w.projects[p], name, role) <==> Bears(w, name, tx.msp, role) && Oversees(w, p, name)
  {
    hide Inv, TrimSpace, SumOf, BUILT_IN, DemoUserRole;
    SoundProject(w, p);
    OneRoleIff(w, name, tx.msp, role);
    BuiltInAccounts(name, tx.msp, role);
  }

  /** requireProjectApplicant: the record of the applicant was sound when the project was made, and stays so. */
  lemma ApplicantIff(w: World, tx: Tx, p: string, name: string)
    requires Inv(w) && p in w.projects
    ensures IsApplicant(w, tx, w.projects[p], name) <==>
            TrimSpace(name) == w.projects[p].applicant && tx.msp == w.projects[p].applicantMsp
  {
    hide Inv, TrimSpace, SumOf;
    SoundProject(w, p);
  }

  /** requireProjectMember: being on the list is enough, for only sound members are put on it. */
  lemma MemberIff(w: World, tx: Tx, p: string, name: string)
    requires Inv(w) && Ties(w) && p in w.projects
    ensures IsMember(w, tx, w.projects[p], name) <==>
            && tx.msp == w.projects[p].applicantMsp
            && (TrimSpace(name) == w.projects[p].applicant || (p, TrimSpace(name)) in w.members)
  {
    hide Inv, TrimSpace, SumOf, IsApplicant;
    SoundProject(w, p);
    ApplicantIff(w, tx, p, name);
    if (p, TrimSpace(name)) in w.members { assert MemberSound(w, p, TrimSpace(name)); }
  }

  // ----- the directory -----

  /** No character that the key layout reserves. */
  predicate PlainId(id: string) { id != "" && forall c :: c in id ==> c != '#' && c != '\0' }

  predicate MayRegister(w: World, tx: Tx, username: string, displayOk: bool, msp: string, role: Role, organizationId: string) {
    var name, org := TrimSpace(username), TrimSpace(organizationId);
    && PlainId(name) && displayOk && (forall c :: c in name ==> c != ' ' && c != '\t' && c != '\n')
    && role.ProjectMember? && tx.msp == TrimSpace(msp) && (tx.msp == "Org1MSP" || tx.msp == "Org2MSP")
    && org in w.organizations && w.organizations[org].active && w.organizations[org].msp == tx.msp
    && name !in w.users
  }

  /** A registration is of a project member, by the member's own MSP, into an active organization of that MSP, under a new name
      without spaces. It adds that record and nothing else. */
  lemma RegistrationIff(w: World, tx: Tx, username: string, displayOk: bool, msp: string, role: Role, organizationId: string)
    ensures var r := RegisterBusinessUser(w, tx, username, displayOk, msp, role, organizationId);
            && (r.Ok? <==> MayRegister(w, tx, username, displayOk, msp, role, organizationId))
            && (r.Ok? ==>
                  var user := BusinessUser(tx.msp, TrimSpace(organizationId), ProjectMember, true);
                  r.value == w.(users := w.users[TrimSpace(username) := user]))
  {
    assert TrimSpace(TrimSpace(organizationId)) == TrimSpace(organizationId);
    hide TrimSpace, DirectoryGrows, SameBooks;
  }

  predicate MayFound(w: World, tx: Tx, rawId: string, textOk: bool, kind: OrganizationType, rawParent: string, creator: string) {
    var id, parent := TrimSpace(rawId), TrimSpace(rawParent);
    && PlainId(id) && textOk && TrimSpace(creator) != "" && Bears(w, TrimSpace(creator), tx.msp, OrgAdmin)
    && (if kind.ProjectTeam? then parent != "" && parent in w.organizations && w.organizations[parent].kind.Primary?
        else parent == "")
    && id !in w.organizations
  }

  /** An organization is created by an administrator of the caller's MSP, under a new id; a team, and nothing else, names a
      parent, and that one is a primary organization. It adds that record and nothing else. */
  lemma OrganizationIff(w: World, tx: Tx, rawId: string, textOk: bool, kind: OrganizationType, rawParent: string, creator: string)
    ensures var r := CreateBusinessOrganization(w, tx, rawId, textOk, kind, rawParent, creator);
            && (r.Ok? <==> MayFound(w, tx, rawId, textOk, kind, rawParent, creator))
            && (r.Ok? ==>
                  var organization := BusinessOrganization(TrimSpace(rawId), tx.msp, TrimSpace(rawParent), kind, true);
                  r.value == w.(organizations := w.organizations[TrimSpace(rawId) := organization]))
  {
    assert TrimSpace(TrimSpace(rawParent)) == TrimSpace(rawParent);
    hide TrimSpace, DirectoryGrows, SameBooks, RegisteredRole, Bears;
    OneRoleIff(w, TrimSpace(creator), tx.msp, OrgAdmin);
  }
}
