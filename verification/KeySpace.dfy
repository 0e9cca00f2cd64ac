/** The flat key space of the ledger: typed keys become distinct strings, and range scans see exactly their kind. */
module KeySpace {
  import opened LedgerTypes
  import opened Balances
  import opened Backing
  import opened Histories
  import opened LedgerInvariant
  import opened LedgerSteps
  import opened LedgerRuns
  import opened Membership
  import opened Transfers

  // ----- order: byte order of UTF-8 is the order of the code points -----

  /** Strictly smaller in the order of the state database. */
  predicate Less(a: string, b: string) {
    if b == "" then false
    else if a == "" then true
    else if a[0] != b[0] then a[0] < b[0]
    else Less(a[1..], b[1..])
  }

  predicate InRange(start: string, end: string, key: string) { !Less(key, start) && Less(key, end) }

  lemma {:induction false} LessIrreflexive(a: string)
    ensures !Less(a, a)
  {
    if a != "" { LessIrreflexive(a[1..]); }
  }

  lemma {:induction false} CommonPrefix(p: string, a: string, b: string)
    ensures Less(p + a, p + b) == Less(a, b)
  {
    if p == "" {
      assert p + a == a && p + b == b;
    } else {
      assert (p + a)[1..] == p[1..] + a && (p + b)[1..] == p[1..] + b;
      CommonPrefix(p[1..], a, b);
    }
  }

  /** A key that shares no full prefix with p compares to every extension of p as it does to p's first difference. */
  lemma {:induction false} OutsidePrefix(p: string, a: string, b: string, key: string)
    requires !(p <= key) && !(key <= p)
    ensures Less(key, p + a) == Less(key, p + b)
  {
    assert p != "" && key != "";
    if key[0] == p[0] {
      assert (p + a)[1..] == p[1..] + a && (p + b)[1..] == p[1..] + b;
      assert p == [p[0]] + p[1..] && key == [key[0]] + key[1..];
      OutsidePrefix(p[1..], a, b, key[1..]);
    }
  }

  lemma {:induction false} ProperPrefixIsLess(key: string, p: string)
    requires key < p
    ensures Less(key, p)
  {
    if key != "" { ProperPrefixIsLess(key[1..], p[1..]); }
  }

  /** The scan from P# up to P$ sees exactly the keys that begin with P#. */
  lemma KindScan(kind: string, key: string)
    ensures InRange(kind + "#", kind + "$", key) <==> kind + "#" <= key
  {
    if kind <= key {
      var rest := key[|kind|..];
      assert key == kind + rest;
      CommonPrefix(kind, rest, "#");
      CommonPrefix(kind, rest, "$");
      assert kind + "#" <= key <==> rest != "" && rest[0] == '#';
    } else if key <= kind {
      ProperPrefixIsLess(key, kind + "#");
    } else {
      OutsidePrefix(kind, "#", "$", key);
    }
  }

  /** The scans with an upper bound of U+FFFF see a key that begins with the prefix exactly when what follows the prefix
      sorts before U+FFFF. */
  lemma PrefixScan(prefix: string, key: string)
    ensures InRange(prefix, prefix + "\U{FFFF}", key) <==> prefix <= key && Less(key[|prefix|..], "\U{FFFF}")
  {
    if prefix <= key {
      var rest := key[|prefix|..];
      assert key == prefix + rest && prefix == prefix + "";
      CommonPrefix(prefix, rest, "");
      CommonPrefix(prefix, rest, "\U{FFFF}");
    } else if key <= prefix {
      ProperPrefixIsLess(key, prefix);
    } else {
      assert prefix + "" == prefix;
      OutsidePrefix(prefix, "", "\U{FFFF}", key);
    }
  }

  // ----- the key builders -----

  datatype Key =
    | InvoiceKey(id: string)
    | InvoiceNumberKey(id: string)
    | ProjectKey(id: string)
    | ClaimKey(id: string)
    | GuardKey(id: string)
    | VoidRequestKey(id: string)
    | TransferKey(id: string)
    | UserKey(id: string)
    | OrganizationKey(id: string)
    | FlowKey(owner: string, member: string)
    | MemberKey(owner: string, member: string)
    | EventKey(owner: string, member: string)
  {
    predicate Paired() { FlowKey? || MemberKey? || EventKey? }

    function Kind(): string {
      match this
      case InvoiceKey(_) => "INVOICE"
      case InvoiceNumberKey(_) => "INVOICE_NUMBER"
      case ProjectKey(_) => "PROJECT"
      case ClaimKey(_) => "REIMBURSEMENT"
      case GuardKey(_) => "REIMBURSEMENT_INVOICE"
      case VoidRequestKey(_) => "VOID_REQUEST"
      case TransferKey(_) => "TRANSFER_REQUEST"
      case UserKey(_) => "USER"
      case OrganizationKey(_) => "ORGANIZATION"
      case FlowKey(_, _) => "FLOW"
      case MemberKey(_, _) => "PROJECT_MEMBER"
      case EventKey(_, _) => "PROJECT_EVENT"
    }

    function Tail(): string { if Paired() then owner + "#" + member else id }

    function Encode(): string { Kind() + "#" + Tail() }

    /** The ids that go in front of another id hold no '#'. */
    predicate WellFormed() { Paired() ==> '#' !in owner }
  }

  /** The first '#' splits a string in only one way. */
  lemma {:induction false} SplitAtHash(a: string, x: string, b: string, y: string)
    requires '#' !in a && '#' !in b && a + "#" + x == b + "#" + y
    ensures a == b && x == y
  {
    var left, right := a + "#" + x, b + "#" + y;
    assert left[|a|] == '#' && right[|b|] == '#';
    assert a == left[..|a|] && b == right[..|b|];
    assert forall i :: 0 <= i < |a| ==> left[i] == a[i];
    assert forall i :: 0 <= i < |b| ==> right[i] == b[i];
    assert |a| == |b|;
    assert x == left[|a| + 1..] && y == right[|b| + 1..];
  }

  lemma KindsApart(k: Key, l: Key)
    requires k.Kind() == l.Kind()
    ensures k.InvoiceKey? == l.InvoiceKey? && k.InvoiceNumberKey? == l.InvoiceNumberKey? && k.ProjectKey? == l.ProjectKey?
    ensures k.ClaimKey? == l.ClaimKey? && k.GuardKey? == l.GuardKey? && k.VoidRequestKey? == l.VoidRequestKey?
    ensures k.TransferKey? == l.TransferKey? && k.UserKey? == l.UserKey? && k.OrganizationKey? == l.OrganizationKey?
    ensures k.FlowKey? == l.FlowKey? && k.MemberKey? == l.MemberKey? && k.EventKey? == l.EventKey?
  {
    // Length and first letter already tell the twelve kinds apart.
    assert |k.Kind()| == |l.Kind()| && k.Kind()[0] == l.Kind()[0];
  }

  /** Different records never share a key. */
  lemma EncodeInjective(k: Key, l: Key)
    requires k.WellFormed() && l.WellFormed() && k.Encode() == l.Encode()
    ensures k == l
  {
    SplitAtHash(k.Kind(), k.Tail(), l.Kind(), l.Tail());
    KindsApart(k, l);
    if k.Paired() {
      SplitAtHash(k.owner, k.member, l.owner, l.member);
    }
  }

  lemma KindHasNoHash(k: Key)
    ensures '#' !in k.Kind()
  {
  }

  /** The first part of a string that is split at its first '#'. */
  lemma HashPrefix(head: string, a: string, x: string)
    requires '#' !in head && '#' !in a
    ensures head + "#" <= a + "#" + x <==> head == a
  {
    var whole := a + "#" + x;
    if head + "#" <= whole {
      var rest := whole[|head| + 1..];
      assert whole == head + "#" + rest;
      SplitAtHash(head, rest, a, x);
    }
  }

  /** A scan over a kind sees the keys of that kind and no other, although kinds are prefixes of one another. */
  lemma KindScanIsExact(kind: Key, k: Key)
    ensures InRange(kind.Kind() + "#", kind.Kind() + "$", k.Encode()) <==> k.Kind() == kind.Kind()
  {
    KindHasNoHash(kind);
    KindHasNoHash(k);
    hide InRange, Key.Kind, Key.Tail;
    KindScan(kind.Kind(), k.Encode());
    HashPrefix(kind.Kind(), k.Kind(), k.Tail());
  }

  lemma SpelledOut(kind: string, i: string, j: string)
    ensures (kind + "#") + i == kind + "#" + i && kind + "#" + (i + "#" + j) == (kind + "#") + i + "#" + j
  {}

  /** The prefixes of the contract, for the records that have one id. */
  lemma KeysAreSpelled(i: string)
    ensures InvoiceKey(i).Encode() == "INVOICE#" + i && InvoiceNumberKey(i).Encode() == "INVOICE_NUMBER#" + i
    ensures ProjectKey(i).Encode() == "PROJECT#" + i && ClaimKey(i).Encode() == "REIMBURSEMENT#" + i
    ensures GuardKey(i).Encode() == "REIMBURSEMENT_INVOICE#" + i && VoidRequestKey(i).Encode() == "VOID_REQUEST#" + i
    ensures TransferKey(i).Encode() == "TRANSFER_REQUEST#" + i
    ensures UserKey(i).Encode() == "USER#" + i && OrganizationKey(i).Encode() == "ORGANIZATION#" + i
  {
    KindsAreSpelled();
    hide Key.Kind;
  }

  /** ... and for those that have two. */
  lemma PairedKeysAreSpelled(i: string, j: string)
    ensures FlowKey(i, j).Encode() == "FLOW#" + i + "#" + j
    ensures MemberKey(i, j).Encode() == "PROJECT_MEMBER#" + i + "#" + j
    ensures EventKey(i, j).Encode() == "PROJECT_EVENT#" + i + "#" + j
  {
    ScanTexts(i, j);
    hide Key.Kind;
    SpelledOut(FlowKey(i, j).Kind(), i, j);
    SpelledOut(MemberKey(i, j).Kind(), i, j);
    SpelledOut(EventKey(i, j).Kind(), i, j);
  }

  lemma KindsAreSpelled()
    ensures forall i :: InvoiceKey(i).Kind() + "#" == "INVOICE#" && InvoiceNumberKey(i).Kind() + "#" == "INVOICE_NUMBER#"
    ensures forall i :: ProjectKey(i).Kind() + "#" == "PROJECT#" && ClaimKey(i).Kind() + "#" == "REIMBURSEMENT#"
    ensures forall i :: GuardKey(i).Kind() + "#" == "REIMBURSEMENT_INVOICE#" && VoidRequestKey(i).Kind() + "#" == "VOID_REQUEST#"
    ensures forall i :: TransferKey(i).Kind() + "#" == "TRANSFER_REQUEST#"
    ensures forall i :: UserKey(i).Kind() + "#" == "USER#" && OrganizationKey(i).Kind() + "#" == "ORGANIZATION#"
  {
    assert "INVOICE" + "#" == "INVOICE#" && "INVOICE_NUMBER" + "#" == "INVOICE_NUMBER#" && "PROJECT" + "#" == "PROJECT#";
    assert "REIMBURSEMENT" + "#" == "REIMBURSEMENT#" && "REIMBURSEMENT_INVOICE" + "#" == "REIMBURSEMENT_INVOICE#";
    assert "VOID_REQUEST" + "#" == "VOID_REQUEST#" && "TRANSFER_REQUEST" + "#" == "TRANSFER_REQUEST#";
    assert "USER" + "#" == "USER#" && "ORGANIZATION" + "#" == "ORGANIZATION#";
  }

  /** The five scans over all records of a kind, with the bounds that the contract passes, meet exactly the records of that kind. */
  lemma ListScansAreExact(k: Key)
    ensures InRange("INVOICE#", "INVOICE$", k.Encode()) <==> k.InvoiceKey?
    ensures InRange("PROJECT#", "PROJECT$", k.Encode()) <==> k.ProjectKey?
    ensures InRange("REIMBURSEMENT#", "REIMBURSEMENT$", k.Encode()) <==> k.ClaimKey?
    ensures InRange("USER#", "USER$", k.Encode()) <==> k.UserKey?
    ensures InRange("ORGANIZATION#", "ORGANIZATION$", k.Encode()) <==> k.OrganizationKey?
  {
    hide InRange, Key.Encode;
    OneKindScan(InvoiceKey(""), k);
    OneKindScan(ProjectKey(""), k);
    OneKindScan(ClaimKey(""), k);
    OneKindScan(UserKey(""), k);
    OneKindScan(OrganizationKey(""), k);
    assert "INVOICE" + "#" == "INVOICE#" && "INVOICE" + "$" == "INVOICE$" && "PROJECT" + "#" == "PROJECT#" && "PROJECT" + "$" == "PROJECT$";
    assert "REIMBURSEMENT" + "#" == "REIMBURSEMENT#" && "REIMBURSEMENT" + "$" == "REIMBURSEMENT$";
    assert "USER" + "#" == "USER#" && "USER" + "$" == "USER$";
    assert "ORGANIZATION" + "#" == "ORGANIZATION#" && "ORGANIZATION" + "$" == "ORGANIZATION$";
  }

  lemma OneKindScan(kind: Key, k: Key)
    ensures InRange(kind.Kind() + "#", kind.Kind() + "$", k.Encode()) <==> SameConstructor(kind, k)
  {
    hide InRange, Key.Encode, Key.Kind;
    KindScanIsExact(kind, k);
    KindNames(kind, k);
  }

  predicate SameConstructor(k: Key, l: Key) {
    match k
    case InvoiceKey(_) => l.InvoiceKey?
    case InvoiceNumberKey(_) => l.InvoiceNumberKey?
    case ProjectKey(_) => l.ProjectKey?
    case ClaimKey(_) => l.ClaimKey?
    case GuardKey(_) => l.GuardKey?
    case VoidRequestKey(_) => l.VoidRequestKey?
    case TransferKey(_) => l.TransferKey?
    case UserKey(_) => l.UserKey?
    case OrganizationKey(_) => l.OrganizationKey?
    case FlowKey(_, _) => l.FlowKey?
    case MemberKey(_, _) => l.MemberKey?
    case EventKey(_, _) => l.EventKey?
  }

  lemma KindNames(k: Key, l: Key)
    ensures k.Kind() == l.Kind() <==> SameConstructor(k, l)
  {
    if k.Kind() == l.Kind() { KindsApart(k, l); }
  }

  /** A prefix of two parts selects by both parts. */
  lemma OwnerPrefix(kind: string, owner: string, k: Key)
    requires '#' !in kind && '#' !in owner && k.WellFormed()
    requires k.Kind() == kind ==> k.Paired()
    ensures var prefix := kind + "#" + owner + "#";
            && (prefix <= k.Encode() <==> k.Kind() == kind && k.Paired() && k.owner == owner)
            && (prefix <= k.Encode() ==> k.Paired() && k.Encode()[|prefix|..] == k.member)
  {
    KindHasNoHash(k);
    hide Key.Kind;
    var prefix := kind + "#" + owner + "#";
    HashPrefix(kind, k.Kind(), k.Tail());
    assert prefix == (kind + "#") + (owner + "#");
    assert k.Encode() == (k.Kind() + "#") + k.Tail();
    assert prefix <= k.Encode() ==> kind + "#" <= k.Encode() by {
      assert prefix[..|kind + "#"|] == kind + "#";
    }
    if k.Kind() == kind {
      HashPrefix(owner, k.owner, k.member);
      assert prefix <= k.Encode() <==> owner + "#" <= k.Tail() by {
        assert k.Encode()[|kind| + 1..] == k.Tail() && prefix[|kind| + 1..] == owner + "#";
      }
      if prefix <= k.Encode() {
        assert k.Encode() == prefix + k.member;
      }
    }
  }

  lemma BelowTheLastCharacter(s: string)
    ensures Less(s, "\U{FFFF}") <==> s == "" || s[0] < '\U{FFFF}'
  {
    assert s != "" ==> !Less(s[1..], "");
  }

  /** The scan for the events, the members or the flows of one owner sees such a key exactly when it belongs to that
      owner and its second id does not begin at or above U+FFFF. */
  lemma OwnerScanIsExact(like: Key, k: Key)
    requires like.Paired() && '#' !in like.owner && k.WellFormed()
    ensures var prefix := like.Kind() + "#" + like.owner + "#";
            InRange(prefix, prefix + "\U{FFFF}", k.Encode()) <==>
            k.Kind() == like.Kind() && k.Paired() && k.owner == like.owner && (k.member == "" || k.member[0] < '\U{FFFF}')
  {
    KindHasNoHash(like);
    if k.Kind() == like.Kind() { KindsApart(like, k); }
    hide InRange, Less, Key.Kind, Key.Encode;
    var prefix := like.Kind() + "#" + like.owner + "#";
    PrefixScan(prefix, k.Encode());
    OwnerPrefix(like.Kind(), like.owner, k);
    if prefix <= k.Encode() { BelowTheLastCharacter(k.member); }
  }

  predicate SameSort(k: Key, l: Key) {
    (k.FlowKey? && l.FlowKey?) || (k.MemberKey? && l.MemberKey?) || (k.EventKey? && l.EventKey?)
  }

  lemma SameSortKind(k: Key, l: Key)
    requires SameSort(k, l)
    ensures k.Kind() == l.Kind()
  {}

  /** A scan with an upper bound of U+FFFF sees such an id. */
  predicate Seen(id: string) { id == "" || id[0] < '\U{FFFF}' }

  /** Among keys of one sort the scan of an owner selects by the owner, and by how the second id begins. */
  lemma SortScan(like: Key, k: Key)
    requires SameSort(like, k) && '#' !in like.owner && '#' !in k.owner
    ensures var prefix := like.Kind() + "#" + like.owner + "#";
            InRange(prefix, prefix + "\U{FFFF}", k.Encode()) <==> k.owner == like.owner && Seen(k.member)
  {
    hide InRange, Less, Key.Kind, Key.Encode;
    SameSortKind(like, k);
    OwnerScanIsExact(like, k);
  }

  lemma EventHasProject(w: World, e: ProjectEvent)
    requires Inv(w) && e in w.eventLog
    ensures e.projectId in w.projects
  {
    hide BooksOk, BackingOk, NumbersOk, CustodyOk, EventStoreOk, FlowStoreOk, ApplicantsOk, OrganizationsOk, Replay;
    assert Recorded(w.projects, w.claims, e);
  }

  lemma ProjectIdHasNoHash(w: World, p: string)
    requires Inv(w) && p in w.projects
    ensures '#' !in p
  {
    hide Inv, SumOf, ApplicantSound;
    SoundProject(w, p);
  }

  /** In every reachable ledger the ids that go in front of another id in a key hold no '#'. */
  lemma OwnersHaveNoHash(w: World)
    requires Reachable(w)
    ensures forall p :: p in w.projects ==> '#' !in p
    ensures forall e :: e in w.eventLog ==> '#' !in e.projectId
    ensures forall m :: m in w.members ==> '#' !in m.0
    ensures forall i :: i in w.invoices ==> '#' !in i
    ensures forall f :: f in w.flowLog ==> '#' !in f.invoiceId
  {
    hide Reachable, Inv, Ties, RequestsOk;
    ReachableInv(w);
    ReachableTies(w);
    ReachableRequests(w);
    forall p | p in w.projects ensures '#' !in p { ProjectIdHasNoHash(w, p); }
    forall e | e in w.eventLog ensures '#' !in e.projectId { EventHasProject(w, e); }
    forall m | m in w.members ensures m.0 in w.projects { MemberHasProject(w, m); }
    forall i | i in w.invoices ensures '#' !in i { StoredInvoice(w, i); }
    forall f | f in w.flowLog ensures '#' !in f.invoiceId { FlowIdHasNoHash(w, f); }
  }

  lemma MemberHasProject(w: World, m: (string, string))
    requires Ties(w) && m in w.members
    ensures m.0 in w.projects
  {}

  lemma FlowIdHasNoHash(w: World, f: InvoiceFlow)
    requires RequestsOk(w) && f in w.flowLog
    ensures '#' !in f.invoiceId
  {
    hide PendingBy, InTurn;
  }

  /** What the three scans begin with. */
  lemma ScanTexts(owner: string, member: string)
    ensures EventKey(owner, member).Kind() + "#" == "PROJECT_EVENT#"
    ensures MemberKey(owner, member).Kind() + "#" == "PROJECT_MEMBER#"
    ensures FlowKey(owner, member).Kind() + "#" == "FLOW#"
  {}

  /** GetProjectEvents: over the stored keys of any reachable ledger, the scan for one project returns the events of that
      project and of no other, up to transaction ids that begin at or above U+FFFF; Fabric's are hexadecimal. */
  lemma EventScanIff(w: World, p: string, e: ProjectEvent)
    requires Reachable(w) && p in w.projects && e in w.eventLog
    ensures var prefix := "PROJECT_EVENT#" + p + "#";
            InRange(prefix, prefix + "\U{FFFF}", EventKey(e.projectId, e.txId).Encode()) <==> e.projectId == p && Seen(e.txId)
  {
    hide Reachable, InRange, Less, Key.Encode, Key.Kind, Seen;
    OwnersHaveNoHash(w);
    ScanTexts(p, "");
    SortScan(EventKey(p, ""), EventKey(e.projectId, e.txId));
  }

  /** GetProjectMembers: the scan returns the members of the project and of no other, but misses those whose user name begins
      at or above U+FFFF, which registration lets through. */
  lemma MemberScanIff(w: World, p: string, m: (string, string))
    requires Reachable(w) && p in w.projects && m in w.members
    ensures var prefix := "PROJECT_MEMBER#" + p + "#";
            InRange(prefix, prefix + "\U{FFFF}", MemberKey(m.0, m.1).Encode()) <==> m.0 == p && Seen(m.1)
  {
    hide Reachable, InRange, Less, Key.Encode, Key.Kind, Seen;
    OwnersHaveNoHash(w);
    ScanTexts(p, "");
    SortScan(MemberKey(p, ""), MemberKey(m.0, m.1));
  }

  /** GetInvoiceFlows: the same for the flows of one invoice. */
  lemma FlowScanIff(w: World, i: string, f: InvoiceFlow)
    requires Reachable(w) && i in w.invoices && f in w.flowLog
    ensures var prefix := "FLOW#" + i + "#";
            InRange(prefix, prefix + "\U{FFFF}", FlowKey(f.invoiceId, f.txId).Encode()) <==> f.invoiceId == i && Seen(f.txId)
  {
    hide Reachable, InRange, Less, Key.Encode, Key.Kind, Seen;
    OwnersHaveNoHash(w);
    ScanTexts(i, "");
    SortScan(FlowKey(i, ""), FlowKey(f.invoiceId, f.txId));
  }
}
