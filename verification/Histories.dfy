/** The two append-only event stores as histories: folding them in commit order gives back the records. */
module Histories {
  import opened LedgerTypes

  // ----- project events -----

  /** What the project history determines about a project. */
  datatype Position = Position(status: ProjectStatus, available: int, reserved: int, paid: int, recovered: int)

  datatype Books = Books(projects: map<string, Position>, claims: map<string, ClaimStatus>)

  function PositionOf(p: Project): Position {
    Position(p.status, p.available, p.reserved, p.paid, p.recovered)
  }

  function View(projects: map<string, Project>, claims: map<string, Claim>): Books {
    Books(map p | p in projects :: PositionOf(projects[p]), map r | r in claims :: claims[r].status)
  }

  function Budgets(projects: map<string, Project>): map<string, int> {
    map p | p in projects :: projects[p].budget
  }

  function Amounts(claims: map<string, Claim>): map<string, int> {
    map r | r in claims :: claims[r].amount
  }

  function At(m: map<string, int>, key: string): int { if key in m then m[key] else 0 }

  const UNFUNDED := Position(Draft, 0, 0, 0, 0)

  function MoveTo(b: Books, p: string, position: Position): Books { b.(projects := b.projects[p := position]) }

  function MarkClaim(b: Books, r: string, status: ClaimStatus): Books { b.(claims := b.claims[r := status]) }

  /** One event, read without looking at any record. */
  function Apply(b: Books, e: ProjectEvent, budgets: map<string, int>, amounts: map<string, int>): Books {
    var p, r := e.projectId, e.referenceId;
    var at := if p in b.projects then b.projects[p] else UNFUNDED;
    var amount := At(amounts, r);
    match e.kind
    case CreateDraft => MoveTo(b, p, UNFUNDED)
    case UpdateDraft => MoveTo(b, p, at.(status := Draft))
    case SubmitApplication => MoveTo(b, p, at.(status := PendingReview))
    case ProjectApprove => MoveTo(b, p, at.(status := Executing))
    case ProjectRevision => MoveTo(b, p, at.(status := RevisionRequired))
    case RequestClosure => MoveTo(b, p, at.(status := ClosureReview))
    case ClosureRevision => MoveTo(b, p, at.(status := Executing))
    case ClosureApproveAndReleaseFund => MoveTo(b, p, at.(status := FinancialSettlement, available := At(budgets, p)))
    case FinalizeSettlement => MoveTo(b, p, at.(status := Archived, recovered := at.recovered + at.available, available := 0))
    case AddMember => b
    case LinkInvoice => b
    case UnlinkInvoice => b
    case SubmitReimbursement => MarkClaim(b, r, Pending)
    case ReimbursementApprove =>
      MarkClaim(MoveTo(b, p, at.(available := at.available - amount, reserved := at.reserved + amount)), r, Reserved)
    case ReimbursementRevision => MarkClaim(b, r, Revision)
    case ResubmitReimbursement => MarkClaim(b, r, Pending)
    case WithdrawReimbursement =>
      var held := r in b.claims && b.claims[r].Reserved?;
      var b1 := if held then MoveTo(b, p, at.(available := at.available + amount, reserved := at.reserved - amount)) else b;
      MarkClaim(b1, r, Withdrawn)
    case PayReimbursement =>
      MarkClaim(MoveTo(b, p, at.(reserved := at.reserved - amount, paid := at.paid + amount)), r, Paid)
  }

  lemma MoveView(projects: map<string, Project>, claims: map<string, Claim>, key: string, p: Project)
    ensures MoveTo(View(projects, claims), key, PositionOf(p)) == View(projects[key := p], claims)
  {
    var before, after := View(projects, claims), View(projects[key := p], claims);
    assert after.projects == before.projects[key := PositionOf(p)];
  }

  lemma MarkView(projects: map<string, Project>, claims: map<string, Claim>, r: string, c: Claim)
    ensures MarkClaim(View(projects, claims), r, c.status) == View(projects, claims[r := c])
  {
    var before, after := View(projects, claims), View(projects, claims[r := c]);
    assert after.claims == before.claims[r := c.status];
  }

  function Replay(log: seq<ProjectEvent>, budgets: map<string, int>, amounts: map<string, int>): Books {
    if log == [] then Books(map[], map[])
    else Apply(Replay(log[..|log| - 1], budgets, amounts), log[|log| - 1], budgets, amounts)
  }

  predicate SameReading(e: ProjectEvent, b1: map<string, int>, a1: map<string, int>, b2: map<string, int>, a2: map<string, int>) {
    && (e.kind.ClosureApproveAndReleaseFund? ==> At(b1, e.projectId) == At(b2, e.projectId))
    && (e.kind.ReimbursementApprove? || e.kind.WithdrawReimbursement? || e.kind.PayReimbursement? ==>
          At(a1, e.referenceId) == At(a2, e.referenceId))
  }

  lemma ApplyAgrees(b: Books, e: ProjectEvent, b1: map<string, int>, a1: map<string, int>, b2: map<string, int>, a2: map<string, int>)
    requires SameReading(e, b1, a1, b2, a2)
    ensures Apply(b, e, b1, a1) == Apply(b, e, b2, a2)
  {
    hide MoveTo, MarkClaim;
  }

  lemma {:induction false} ReplayAgrees(log: seq<ProjectEvent>, b1: map<string, int>, a1: map<string, int>,
                                        b2: map<string, int>, a2: map<string, int>)
    requires forall e :: e in log ==> SameReading(e, b1, a1, b2, a2)
    ensures Replay(log, b1, a1) == Replay(log, b2, a2)
  {
    hide Apply, SameReading;
    if log != [] {
      var init, last := log[..|log| - 1], log[|log| - 1];
      ReplayAgrees(init, b1, a1, b2, a2);
      ApplyAgrees(Replay(init, b1, a1), last, b1, a1, b2, a2);
    }
  }

  predicate AboutClaim(kind: EventKind) {
    || kind.SubmitReimbursement? || kind.ReimbursementApprove? || kind.ReimbursementRevision?
    || kind.ResubmitReimbursement? || kind.WithdrawReimbursement? || kind.PayReimbursement?
  }

  /** What the records say about an event in the log. */
  predicate Recorded(projects: map<string, Project>, claims: map<string, Claim>, e: ProjectEvent) {
    && e.projectId in projects
    && (e.kind.ClosureApproveAndReleaseFund? ==>
          projects[e.projectId].status.FinancialSettlement? || projects[e.projectId].status.Archived?)
    && (AboutClaim(e.kind) ==> e.referenceId in claims && claims[e.referenceId].projectId == e.projectId)
    && (e.kind.PayReimbursement? ==> claims[e.referenceId].status.Paid?)
  }

  /** Two log entries that may both be present: no claim is paid twice, no project funded twice. */
  predicate NoRepeat(e: ProjectEvent, f: ProjectEvent) {
    && (e.kind.PayReimbursement? && f.kind.PayReimbursement? ==> e.referenceId != f.referenceId)
    && (e.kind.ClosureApproveAndReleaseFund? && f.kind.ClosureApproveAndReleaseFund? ==> e.projectId != f.projectId)
  }

  ghost predicate HistoryOk(projects: map<string, Project>, claims: map<string, Claim>, log: seq<ProjectEvent>) {
    && (forall e :: e in log ==> Recorded(projects, claims, e))
    && (forall i, j :: 0 <= i < j < |log| ==> NoRepeat(log[i], log[j]))
    && Replay(log, Budgets(projects), Amounts(claims)) == View(projects, claims)
  }

  /** How records may change from one event to the next. */
  ghost predicate Advances(projects: map<string, Project>, claims: map<string, Claim>,
                           projects': map<string, Project>, claims': map<string, Claim>)
  {
    && (forall p :: p in projects ==>
          && p in projects'
          && (projects[p].status.FinancialSettlement? || projects[p].status.Archived? ==>
                && projects'[p].budget == projects[p].budget
                && (projects'[p].status.FinancialSettlement? || projects'[p].status.Archived?)))
    && (forall r :: r in claims ==>
          && r in claims'
          && claims'[r].amount == claims[r].amount && claims'[r].projectId == claims[r].projectId
          && (claims[r].status.Paid? ==> claims'[r].status.Paid?))
  }

  lemma AppendKeepsHistory(projects: map<string, Project>, claims: map<string, Claim>, log: seq<ProjectEvent>,
                           projects': map<string, Project>, claims': map<string, Claim>, e: ProjectEvent)
    requires HistoryOk(projects, claims, log)
    requires Advances(projects, claims, projects', claims')
    requires Recorded(projects', claims', e)
    requires e.kind.PayReimbursement? ==> e.referenceId in claims && !claims[e.referenceId].status.Paid?
    requires e.kind.ClosureApproveAndReleaseFund? ==>
               e.projectId in projects
               && !projects[e.projectId].status.FinancialSettlement? && !projects[e.projectId].status.Archived?
    requires Apply(View(projects, claims), e, Budgets(projects'), Amounts(claims')) == View(projects', claims')
    ensures HistoryOk(projects', claims', log + [e])
  {
    forall f | f in log
      ensures Recorded(projects', claims', f)
      ensures SameReading(f, Budgets(projects), Amounts(claims), Budgets(projects'), Amounts(claims'))
      ensures NoRepeat(f, e)
    {
      assert Recorded(projects, claims, f);
    }
    ReplayAgrees(log, Budgets(projects), Amounts(claims), Budgets(projects'), Amounts(claims'));
    assert (log + [e])[..|log|] == log;
  }

  // ----- invoice flows -----

  /** What the flow history of an invoice determines: who holds it and whether it has been voided. */
  datatype Custody = Custody(holder: string, voided: bool)

  function CustodyAfter(c: Custody, flow: InvoiceFlow): Custody {
    match flow.kind
    case Issue => Custody(flow.to, false)
    case Correction => Custody(flow.to, false)
    case Transfer => c.(holder := flow.to)
    case TransferAcceptance => c.(holder := flow.to)
    case Void => c.(voided := true)
    case _ => c
  }

  function CustodyOf(log: seq<InvoiceFlow>, invoiceId: string): Custody {
    if log == [] then Custody("", false)
    else
      var before := CustodyOf(log[..|log| - 1], invoiceId);
      var last := log[|log| - 1];
      if last.invoiceId == invoiceId then CustodyAfter(before, last) else before
  }

  ghost predicate CustodyOk(invoices: map<string, Invoice>, log: seq<InvoiceFlow>) {
    forall i :: i in invoices ==> CustodyOf(log, i) == Custody(invoices[i].holder, invoices[i].status.Voided?)
  }

  lemma LinkKeepsCustody(invoices: map<string, Invoice>, log: seq<InvoiceFlow>, i: string, link: string)
    requires CustodyOk(invoices, log) && i in invoices
    ensures CustodyOk(invoices[i := invoices[i].(projectId := link)], log)
  {
    hide CustodyOf;
  }

  lemma AppendKeepsCustody(invoices: map<string, Invoice>, log: seq<InvoiceFlow>, invoices': map<string, Invoice>, flow: InvoiceFlow)
    requires CustodyOk(invoices, log)
    requires forall i :: i in invoices' && i != flow.invoiceId ==> i in invoices && invoices'[i] == invoices[i]
    requires flow.invoiceId in invoices' ==>
               var i := flow.invoiceId;
               && (i in invoices || flow.kind.Issue? || flow.kind.Correction?)
               && var before := if i in invoices then Custody(invoices[i].holder, invoices[i].status.Voided?) else Custody("", false);
                  CustodyAfter(before, flow) == Custody(invoices'[i].holder, invoices'[i].status.Voided?)
    ensures CustodyOk(invoices', log + [flow])
  {
    assert (log + [flow])[..|log|] == log;
  }

  // ----- the stores -----

  /** Every committed event is under its own key, and nothing else is. */
  ghost predicate EventStoreOk(events: map<(string, string), ProjectEvent>, log: seq<ProjectEvent>) {
    && (forall e :: e in log ==> (e.projectId, e.txId) in events && events[(e.projectId, e.txId)] == e)
    && (forall k :: k in events ==> events[k] in log && events[k].txId == k.1)
  }

  ghost predicate FlowStoreOk(flows: map<(string, string), InvoiceFlow>, log: seq<InvoiceFlow>) {
    && (forall f :: f in log ==> (f.invoiceId, f.txId) in flows && flows[(f.invoiceId, f.txId)] == f)
    && (forall k :: k in flows ==> flows[k] in log && flows[k].txId == k.1)
  }
}
