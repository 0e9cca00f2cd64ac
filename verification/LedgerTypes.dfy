/** The records of the invoice ledger, its world state and the transactions that change it. */
module LedgerTypes {

  const MAX_MONEY_CENTS: int := 10_000_000_000

  datatype Role = Issuer | Holder | Auditor | ProjectMember | ProjectReviewer | FinanceAdmin | OrgAdmin

  datatype BusinessUser = BusinessUser(msp: string, organizationId: string, role: Role, active: bool)

  datatype OrganizationType = Primary | ProjectTeam | External

  datatype BusinessOrganization =
    BusinessOrganization(id: string, msp: string, parentId: string, kind: OrganizationType, active: bool)

  datatype ProjectStatus =
    | Draft | PendingReview | RevisionRequired | Executing | ClosureReview
    | FinancialSettlement
    | ClosureApproved // legacy status, still accepted by the guards
    | Archived

  datatype Project = Project(
    id: string, applicant: string, applicantMsp: string, organizationId: string, status: ProjectStatus,
    budget: int, available: int, reserved: int, paid: int, recovered: int)

  datatype MemberRole = Leader | Member

  datatype InvoiceStatus = Issued | InCirculation | Voided

  datatype Invoice = Invoice(
    id: string, invoiceNo: string, total: int,
    holder: string, holderMsp: string, holderOrganizationId: string,
    issuerMsp: string, issuerOrganizationId: string,
    projectId: string, correctionOf: string, status: InvoiceStatus)
  {
    /** Whose hands it is in. */
    function Place(): (string, string, string) { (holder, holderMsp, holderOrganizationId) }
  }

  datatype ClaimStatus = Pending | Revision | Reserved | Paid | Withdrawn {
    predicate Open() { Pending? || Revision? || Reserved? }
  }

  /** A reimbursement. */
  datatype Claim =
    Claim(id: string, projectId: string, invoiceId: string, applicant: string, amount: int, status: ClaimStatus)

  datatype TransferStatus = TransferPending | TransferAccepted | TransferRejected | TransferCancelled

  datatype InvoiceTransfer =
    InvoiceTransfer(invoiceId: string, from: string, to: string, toMsp: string, status: TransferStatus)

  datatype VoidRequestStatus = VoidPending | VoidApproved | VoidRejected

  datatype VoidRequest = VoidRequest(invoiceId: string, applicant: string, status: VoidRequestStatus)

  datatype EventKind =
    | CreateDraft | UpdateDraft | SubmitApplication | ProjectApprove | ProjectRevision
    | RequestClosure | ClosureRevision | ClosureApproveAndReleaseFund | FinalizeSettlement
    | AddMember | LinkInvoice | UnlinkInvoice
    | SubmitReimbursement | ReimbursementApprove | ReimbursementRevision
    | ResubmitReimbursement | WithdrawReimbursement | PayReimbursement

  datatype ProjectEvent =
    ProjectEvent(projectId: string, txId: string, kind: EventKind, actor: string, referenceId: string)

  datatype FlowKind =
    | Issue | Correction | Transfer | TransferRequested | TransferAcceptance | TransferRejection
    | TransferCancellation | Void | VoidRequested | VoidRejection

  datatype InvoiceFlow =
    InvoiceFlow(invoiceId: string, txId: string, kind: FlowKind, from: string, to: string, operator: string)

  /** The transaction context: Fabric's transaction id and the MSP of the caller's certificate. */
  datatype Tx = Tx(id: string, msp: string)

  /** A decision argument after upper-casing: the positive word, the negative word, or anything else. */
  datatype Decision = Approve | Decline | Unrecognised

  /** The arguments of CreateInvoice. `textOk` stands for the first checks, on the descriptive text alone (non-empty issue
      date, issuer and buyer, ISO date), `currencyOk` for CNY or none, `hashOk` for 64 hex digits of hash. */
  datatype InvoiceForm = InvoiceForm(
    id: string, invoiceNo: string, issuer: string, buyerMsp: string, amount: int, tax: int, projectId: string,
    initialHolder: string, initialHolderMsp: string, issuerOrganizationId: string, correctionOf: string,
    textOk: bool, currencyOk: bool, hashOk: bool)

  /** The world state, one map for each key prefix, and the two event stores also in commit order. */
  datatype World = World(
    users: map<string, BusinessUser>,
    organizations: map<string, BusinessOrganization>,
    projects: map<string, Project>,
    members: map<(string, string), MemberRole>,
    invoices: map<string, Invoice>,
    numbers: map<string, string>,
    claims: map<string, Claim>,
    guard: map<string, string>,
    transfers: map<string, InvoiceTransfer>,
    voidRequests: map<string, VoidRequest>,
    events: map<(string, string), ProjectEvent>,
    flows: map<(string, string), InvoiceFlow>,
    eventLog: seq<ProjectEvent>,
    flowLog: seq<InvoiceFlow>)

  datatype Call =
    | CallRegisterUser(username: string, displayOk: bool, msp: string, role: Role, organizationId: string)
    | CallCreateOrganization(id: string, textOk: bool, kind: OrganizationType, parentId: string, creator: string)
    | CallCreateProject(id: string, textOk: bool, budget: int, applicant: string, organizationId: string)
    | CallUpdateProject(id: string, textOk: bool, budget: int, applicant: string)
    | CallSubmitProject(id: string, applicant: string)
    | CallReviewProject(id: string, decision: Decision, opinionOk: bool, reviewer: string)
    | CallRequestClosure(id: string, materialsOk: bool, applicant: string)
    | CallReviewClosure(id: string, decision: Decision, opinionOk: bool, reviewer: string)
    | CallFinalize(id: string, financeOperator: string)
    | CallAddMember(projectId: string, username: string, leader: string)
    | CallCreateInvoice(form: InvoiceForm)
    | CallLinkInvoice(invoiceId: string, projectId: string, operator: string)
    | CallUnlinkInvoice(invoiceId: string, operator: string)
    | CallTransferInvoice(id: string, to: string, toMsp: string, operator: string)
    | CallRequestTransfer(id: string, to: string, toMsp: string, operator: string)
    | CallRespondTransfer(id: string, decision: Decision, recipient: string)
    | CallCancelTransfer(id: string, operator: string)
    | CallVoidInvoice(id: string, reasonOk: bool, operator: string)
    | CallRequestVoid(id: string, reasonOk: bool, applicant: string)
    | CallReviewVoid(id: string, decision: Decision, opinionOk: bool, reviewer: string)
    | CallCreateClaim(id: string, projectId: string, invoiceId: string, applicant: string, evidenceOk: bool)
    | CallReviewClaim(id: string, decision: Decision, opinionOk: bool, reviewer: string)
    | CallResubmitClaim(id: string, evidenceOk: bool, applicant: string)
    | CallWithdrawClaim(id: string, applicant: string)
    | CallPayClaim(id: string, financeOperator: string)
}
