/** Who is inside an organization: the browser's worklist over the parent links, and the one-level rules of the contract
    and of the read API that it has to agree with. */
module OrganizationScope {
  import opened Basics
  import opened LedgerTypes
  import opened LedgerRules
  import opened LedgerInvariant
  import opened LedgerSteps
  import opened LedgerRuns
  import opened Entitlement

  // ----- the worklist -----

  /** Some listed organization `child` has `parent` as its parent. */
  ghost predicate Link(organizations: seq<BusinessOrganization>, parent: string, child: string) {
    exists o :: o in organizations && o.id == child && o.parentId == parent
  }

  /** A walk down the parent links. */
  ghost predicate Walk(organizations: seq<BusinessOrganization>, path: seq<string>) {
    path != [] && forall i :: 0 < i < |path| ==> Link(organizations, path[i - 1], path[i])
  }

  /** x is the root, or a child of one that is in the scope, and so on. */
  ghost predicate InScope(organizations: seq<BusinessOrganization>, root: string, x: string) {
    exists path :: Walk(organizations, path) && path[0] == root && path[|path| - 1] == x
  }

  lemma RootInScope(organizations: seq<BusinessOrganization>, root: string)
    ensures InScope(organizations, root, root)
  {
    assert Walk(organizations, [root]);
  }

  lemma ChildInScope(organizations: seq<BusinessOrganization>, root: string, parent: string, child: string)
    requires InScope(organizations, root, parent) && Link(organizations, parent, child)
    ensures InScope(organizations, root, child)
  {
    var path :| Walk(organizations, path) && path[0] == root && path[|path| - 1] == parent;
    assert Walk(organizations, path + [child]);
  }

  ghost predicate ClosedUnderLinks(organizations: seq<BusinessOrganization>, ids: set<string>) {
    forall o :: o in organizations && o.parentId in ids ==> o.id in ids
  }

  /** The scope is inside every closed set that holds the root: it is the least one. */
  lemma {:induction false} WalkStaysInside(organizations: seq<BusinessOrganization>, ids: set<string>, path: seq<string>)
    requires ClosedUnderLinks(organizations, ids) && Walk(organizations, path) && path[0] in ids
    ensures path[|path| - 1] in ids
    decreases |path|
  {
    if |path| > 1 {
      var init := path[..|path| - 1];
      assert Walk(organizations, init);
      WalkStaysInside(organizations, ids, init);
      assert Link(organizations, path[|path| - 2], path[|path| - 1]);
    }
  }

  /** Everything in the set so far is in the scope, and only what is pending may have children outside the set. */
  ghost predicate PartOfScope(organizations: seq<BusinessOrganization>, root: string, ids: set<string>, pending: seq<string>) {
    && root in ids
    && (forall x :: x in pending ==> x in ids)
    && (forall x :: x in ids ==> InScope(organizations, root, x))
    && (forall o :: o in organizations && o.parentId in ids && o.parentId !in pending ==> o.id in ids)
  }

  /** organizationMemberScope: ends on any parent graph, cycles and duplicates included, with exactly the scope. */
  method OrganizationMemberScope(organizations: seq<BusinessOrganization>, root: string) returns (ids: set<string>)
    ensures forall x :: x in ids <==> InScope(organizations, root, x)
  {
    ids := {root};
    var pending := [root];
    ghost var all := {root} + set o | o in organizations :: o.id;
    RootInScope(organizations, root);
    while pending != []
      invariant ids <= all && PartOfScope(organizations, root, ids, pending)
      decreases all - ids, |pending|
    {
      hide InScope;
      var parent := pending[|pending| - 1];
      assert forall x :: x in pending[..|pending| - 1] || x == parent <==> x in pending;
      ghost var ids0 := ids;
      ids, pending := AddChildren(organizations, root, parent, ids, pending[..|pending| - 1]);
      assert ids <= all;
    }
    forall x | InScope(organizations, root, x) ensures x in ids {
      var path :| Walk(organizations, path) && path[0] == root && path[|path| - 1] == x;
      WalkStaysInside(organizations, ids, path);
    }
  }

  /** The body of the worklist loop: the children of `parent` that are new join the set and the worklist. */
  method AddChildren(organizations: seq<BusinessOrganization>, root: string, parent: string, ids0: set<string>, pending0: seq<string>)
    returns (ids: set<string>, pending: seq<string>)
    requires parent in ids0 && PartOfScope(organizations, root, ids0, pending0 + [parent])
    ensures ids == ids0 + set o | o in organizations && o.parentId == parent :: o.id
    ensures ids == ids0 ==> pending == pending0
    ensures PartOfScope(organizations, root, ids, pending)
  {
    hide InScope, Link;
    ids, pending := ids0, pending0;
    for i := 0 to |organizations|
      invariant ids == ids0 + set o | o in organizations[..i] && o.parentId == parent :: o.id
      invariant forall x :: x in ids ==> InScope(organizations, root, x)
      invariant forall x :: x in pending <==> x in pending0 || (x in ids && x !in ids0)
      invariant ids == ids0 ==> pending == pending0
    {
      var child := organizations[i];
      assert organizations[..i + 1] == organizations[..i] + [child];
      if child.parentId == parent && child.id !in ids {
        ListedChildLinked(organizations, i);
        ChildInScope(organizations, root, parent, child.id);
        ids := ids + {child.id};
        pending := pending + [child.id];
      }
    }
    assert organizations[..|organizations|] == organizations;
  }

  lemma ListedChildLinked(organizations: seq<BusinessOrganization>, i: nat)
    requires i < |organizations|
    ensures Link(organizations, organizations[i].parentId, organizations[i].id)
  {}

  // ----- the one-level rules -----

  /** The list is what GetAllBusinessOrganizations returns for the directory. */
  ghost predicate Lists(organizations: seq<BusinessOrganization>, directory: map<string, BusinessOrganization>) {
    forall o :: o in organizations <==> exists key :: key in directory && directory[key] == o
  }

  /** On a directory that CreateBusinessOrganization built, the scope of an organization is itself and its direct children. */
  lemma TwoLevelScope(organizations: seq<BusinessOrganization>, directory: map<string, BusinessOrganization>, root: string, x: string)
    requires OrganizationsOk(directory) && Lists(organizations, directory) && root != ""
    ensures InScope(organizations, root, x) <==> x == root || (x in directory && directory[x].parentId == root)
  {
    if x == root {
      RootInScope(organizations, root);
    } else if x in directory && directory[x].parentId == root {
      RootInScope(organizations, root);
      assert directory[x] in organizations && OrganizationSound(directory, x, directory[x]);
      assert Link(organizations, root, x);
      ChildInScope(organizations, root, root, x);
    }
    if InScope(organizations, root, x) {
      var path :| Walk(organizations, path) && path[0] == root && path[|path| - 1] == x;
      WalkIsShort(organizations, directory, path);
      if |path| == 2 { LinkIsParent(organizations, directory, path[0], path[1]); }
    }
  }

  lemma LinkIsParent(organizations: seq<BusinessOrganization>, directory: map<string, BusinessOrganization>, parent: string, child: string)
    requires OrganizationsOk(directory) && Lists(organizations, directory) && Link(organizations, parent, child)
    ensures child in directory && directory[child].parentId == parent
    ensures OrganizationSound(directory, child, directory[child])
  {
    var o :| o in organizations && o.id == child && o.parentId == parent;
    var key :| key in directory && directory[key] == o;
    assert OrganizationSound(directory, key, o);
  }

  lemma WalkIsShort(organizations: seq<BusinessOrganization>, directory: map<string, BusinessOrganization>, path: seq<string>)
    requires OrganizationsOk(directory) && Lists(organizations, directory) && Walk(organizations, path) && path[0] != ""
    ensures |path| <= 2
  {
    hide Link, Lists, OrganizationsOk;
    if |path| > 1 { LinkIsParent(organizations, directory, path[0], path[1]); }
    if |path| > 2 { LinkIsParent(organizations, directory, path[1], path[2]); }
  }

  // ----- the read API -----

  datatype Principal = Principal(username: string, msp: string, organizationId: string, role: Role)

  predicate HasBootstrapDirectoryAccess(user: Principal) {
    && user.organizationId == ""
    && (|| (user.username == "project-reviewer" && user.msp == "Org1MSP" && user.role == ProjectReviewer)
        || (user.username == "finance-admin" && user.msp == "Org2MSP" && user.role == FinanceAdmin)
        || (user.username == "auditor" && user.msp == "Org1MSP" && user.role == Auditor)
        || (user.username == "org-admin" && user.msp == "Org1MSP" && user.role == OrgAdmin)
        || (user.username == "org-admin-org2" && user.msp == "Org2MSP" && user.role == OrgAdmin))
  }

  predicate HasBuiltInOrg1WorkAccess(user: Principal) {
    && user.organizationId == "" && user.msp == "Org1MSP"
    && (|| (user.username == "issuer-org1" && user.role == Issuer)
        || (user.username == "project-member" && user.role == ProjectMember))
  }

  /** projectVisibleTo. */
  predicate ProjectVisibleTo(user: Principal, project: Project, organizations: map<string, BusinessOrganization>) {
    if HasBootstrapDirectoryAccess(user) then true
    else if HasBuiltInOrg1WorkAccess(user) then project.applicantMsp == user.msp
    else if project.organizationId == "" then project.applicantMsp == user.msp
    else if project.organizationId == user.organizationId then true
    else
      && project.organizationId in organizations
      && user.organizationId != "" && organizations[project.organizationId].parentId == user.organizationId
  }

  /** The built-in accounts that see every project, and those that see the projects of their MSP. */
  const SEE_ALL: set<(string, string, Role)> := {
    ("project-reviewer", "Org1MSP", ProjectReviewer), ("finance-admin", "Org2MSP", FinanceAdmin), ("auditor", "Org1MSP", Auditor),
    ("org-admin", "Org1MSP", OrgAdmin), ("org-admin-org2", "Org2MSP", OrgAdmin)}

  const SEE_MSP: set<(string, string, Role)> := {("issuer-org1", "Org1MSP", Issuer), ("project-member", "Org1MSP", ProjectMember)}

  /** The API shows a project to those accounts; to its organization and the one above it; and, if it has none, to its MSP. */
  lemma VisibleIff(user: Principal, project: Project, organizations: map<string, BusinessOrganization>)
    ensures ProjectVisibleTo(user, project, organizations) <==>
            var account := (user.username, user.msp, user.role);
            if user.organizationId == "" && account in SEE_ALL then true
            else if (user.organizationId == "" && account in SEE_MSP) || project.organizationId == "" then project.applicantMsp == user.msp
            else user.organizationId == project.organizationId
                 || (user.organizationId != "" && project.organizationId in organizations
                     && organizations[project.organizationId].parentId == user.organizationId)
  {
    BootstrapIff(user);
    WorkIff(user);
    hide HasBootstrapDirectoryAccess, HasBuiltInOrg1WorkAccess, SEE_ALL, SEE_MSP;
  }

  lemma BootstrapIff(user: Principal)
    ensures HasBootstrapDirectoryAccess(user) <==> user.organizationId == "" && (user.username, user.msp, user.role) in SEE_ALL
  {}

  lemma WorkIff(user: Principal)
    ensures HasBuiltInOrg1WorkAccess(user) <==> user.organizationId == "" && (user.username, user.msp, user.role) in SEE_MSP
  {}

  /** The API shows every project to the built-in accounts that the contract lets judge, pay or settle it. */
  lemma BuiltInManagersSee(w: World, tx: Tx, p: string, name: string, role: Role)
    requires Inv(w) && p in w.projects && TrimSpace(name) !in w.users
    requires (role.ProjectReviewer? || role.FinanceAdmin?) && IsManager(w, tx, w.projects[p], name, role)
    ensures ProjectVisibleTo(Principal(name, tx.msp, "", role), w.projects[p], w.organizations)
  {
    hide Inv, TrimSpace, IsManager;
    ManagerIff(w, tx, p, name, role);
    var account := Principal(name, tx.msp, "", role);
    BootstrapIff(account);
    hide HasBootstrapDirectoryAccess;
  }

  /** For a member of an organization the three rules agree on every project of a reachable ledger: what the contract lets
      them manage, what the API shows them, and what the browser counts as inside their organization. */
  lemma ScopesAgree(w: World, p: string, member: BusinessUser, name: string, organizations: seq<BusinessOrganization>)
    requires Reachable(w) && p in w.projects && member.organizationId != "" && Lists(organizations, w.organizations)
    ensures InManagementScope(w, w.projects[p], member) <==>
            ProjectVisibleTo(Principal(name, member.msp, member.organizationId, member.role), w.projects[p], w.organizations)
    ensures InManagementScope(w, w.projects[p], member) <==>
            InScope(organizations, member.organizationId, w.projects[p].organizationId)
  {
    hide Reachable, Inv, InScope, Lists, TrimSpace;
    ReachableInv(w);
    SoundProject(w, p);
    DirectorySound(w);
    TwoLevelScope(organizations, w.organizations, member.organizationId, w.projects[p].organizationId);
  }

  /** For a user without an organization and without a built-in name, the contract and the API agree exactly when the
      organization of the project is not a registered top-level one: the contract then takes the empty parent of the
      project's organization for the user's own. */
  lemma ScopesAgreeWithoutOrganizationIff(w: World, p: string, user: BusinessUser, name: string)
    requires Reachable(w) && p in w.projects && user.organizationId == ""
    requires var principal := Principal(name, user.msp, "", user.role);
             !HasBootstrapDirectoryAccess(principal) && !HasBuiltInOrg1WorkAccess(principal)
    ensures var o := w.projects[p].organizationId;
            (InManagementScope(w, w.projects[p], user) <==>
             ProjectVisibleTo(Principal(name, user.msp, "", user.role), w.projects[p], w.organizations))
            <==> (o !in w.organizations || w.organizations[o].kind.ProjectTeam?)
  {
    hide Reachable, Inv, TrimSpace;
    ReachableInv(w);
    SoundProject(w, p);
    DirectorySound(w);
    var o := w.projects[p].organizationId;
    if o in w.organizations { assert OrganizationSound(w.organizations, o, w.organizations[o]); }
  }

  lemma DirectorySound(w: World)
    requires Inv(w)
    ensures OrganizationsOk(w.organizations)
  {}

  /** Everyone who registers joins a registered organization, so the exception above is never theirs. */
  lemma RegistrationJoinsOrganization(w: World, tx: Tx, username: string, displayOk: bool, msp: string, role: Role, organizationId: string)
    requires Reachable(w) && RegisterBusinessUser(w, tx, username, displayOk, msp, role, organizationId).Ok?
    ensures var user := RegisterBusinessUser(w, tx, username, displayOk, msp, role, organizationId).value.users[TrimSpace(username)];
            user.organizationId != "" && user.organizationId in w.organizations
            && w.organizations[user.organizationId].msp == user.msp
  {
    hide Reachable, Inv, TrimSpace, DirectoryGrows;
    ReachableInv(w);
    DirectorySound(w);
    var o := TrimSpace(organizationId);
    assert TrimSpace(o) in w.organizations && OrganizationSound(w.organizations, TrimSpace(o), w.organizations[TrimSpace(o)]);
  }
}
