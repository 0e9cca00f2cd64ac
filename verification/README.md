# Invoice ledger, account store and Ethereum account helpers: a verified model

This project models the parts of the repository that carry its guarantees, and proves those guarantees.

* **The invoice ledger** (Fabric chaincode). Modules `LedgerTypes`, `LedgerRules` (what every transaction does to the
  world state, refusals included), `InvoiceLedger` (the transactions as methods that change a ledger object, each proved to
  follow its rule), `Balances`, `Backing`, `Histories`, `LedgerInvariant`, `LedgerSteps` (the whole-ledger invariant and
  that each transaction keeps it), `LedgerRuns` (runs and reachable states), and the results: `LedgerTheorems`,
  `Charter` (the whole contract once more, by tables and conditions on the records, and that the transactions do exactly this;
  its parts are `Entitlement`, `Lifecycle`, `Admission` and `InvoiceAdmission`), `Refusals`, `AuditTrail`, `ProjectHistory`, `Settlement`, `Duties`, `Membership`, `Transfers`, `StuckTransfers`, `VoidRequests`,
  `IdSpelling`, `KeySpace`, and the runs that lead from a new ledger to a failure, `SpacedRun` and `FailingRuns`. Every method
  of the ledger object refines its rule; below, only those have a row whose contract says more than that. `SubmitSoundly` speaks for
  all of them.
* **The web client**: `OrganizationScope` (worklist over the organization tree, against the contract's and the API's
  one-level rules) and `LateReplies` and `PageEffects` (the numbered, asynchronous
  loaders).
* **The account file** of the API server: `AccountFile`.
* **go-ethereum**: `DerivationPath`, `WalletCache`, `FixedBytes`.

## How the ledger is modelled

* One map for each key prefix. A transaction is one atomic step with a transaction id of its own and the MSP of its caller;
  within it every read is of the committed state, and a refused transaction writes nothing, as Fabric discards its writes.
* A run starts from a ledger with any user directory and nothing else. It is any sequence of calls, refused ones included.
* Money is `int64`: every `+` and `-` of the source is `Wrap64` of the mathematical result. That none of them wraps in a
  reachable state is part of what `Admission` and `BudgetConserved` state.
* Record ids are read through `strings.TrimSpace` and written back as the caller spelled them. Runs are of calls whose
  record ids are trimmed. `IdSpelling` shows that this is exactly the condition for each of the ten calls that it restricts
  (`InvKeptIffTrimmed`): otherwise the guard index, the reserved balance, the keys of project records or the project ids of
  events go wrong. `SpacedRun` gives a run from a new ledger after which one claim is paid twice. Answers to transfer requests are not
  restricted; `Transfers` says what a spaced id does to them.
* Checks on text alone (required fields, dates, currency, evidence, hash format) are booleans handed to the call, at the place where
  the source makes them. Decision words are upper-cased and read as one of two words or neither.
* A refusal carries the kind of rule that was broken; message texts are not modelled. Where several checks of the same kind
  follow one another directly they are one check.
* Keys are compared by code point, which is the byte order of UTF-8.

## What came out false, and exactly when it holds

Each entry names the exact condition, and the input or the run on which it fails.

* An id with outer space breaks the ledger: the guarantees hold exactly for trimmed ids (`IdSpelling.InvKeptIffTrimmed`; run:
  `SpacedRun.SpacedIdPaysTwice`). A transfer request rejected under such an id stays open (`Transfers.AnsweredIffTrimmed`,
  `RejectionRepeatsIff`; run: `SpacedRun.SpacedAnswerAccepted`).
* The two lookups of an invoice number do not always agree: the index trims the number and the scan does not
  (`LedgerTheorems.IndexAgreesWithScanIff`, `ExceptAgreesIff`; run: `FailingRuns.SpacedNumberDivides`). CreateInvoice always
  passes a trimmed number.
* The scan for the members of a project misses user names that begin at or above U+FFFF (`KeySpace.MemberScanIff`; run:
  `FailingRuns.MemberIsMissed`). The chaincode registers such names; the accounts of the API are ASCII.
* A transfer request does not always end: its requester may no longer hold the invoice, and then only the recipient can end it
  (`StuckTransfers.PendingEndsIff`, `StuckLasts`). The recipient always can, but for a built-in name that somebody else has
  registered since (`RejectionAdmittedIff`). When it is open for good is `StuckForGoodIff`; run:
  `FailingRuns.RequestIsStuckForGood`.
* A void request can be open on a voided invoice, exactly when VoidInvoice voided it meanwhile (`VoidRequests.OpenOnVoidedIff`;
  run: `FailingRuns.VoidedUnderOpenRequest`); all that can still become of it is a rejection (`VoidedRequestOnlyRejected`).
* A user without an organization manages projects of top-level organizations that the API does not show
  (`OrganizationScope.ScopesAgreeWithoutOrganizationIff`; run: `FailingRuns.HiddenProjectIsManaged`); nobody who registers is
  such a user.
* The reply to the load that the page waits for does not always end the wait: for a load issued by a logged-in user it does
  exactly when nobody has logged in since (`LateReplies.WaitEndsIff`, and `WaitWithoutUserEndsIff` for the others; run:
  `LoginMakesHopeless`). A wait that is not ended so lasts until the next load, clearing or logout (`HopelessLasts`,
  `WaitCanEndIff`); a reload of the projects, tried after every login, issues that load if it succeeds and still offers the
  project (`ReloadEndsWait`).
* One session is not always one user: it is exactly when the last identity reply in it brings the same user, or there is none
  (`LateReplies.UserKeptIff`; run: `ResumeChangesUserWithinSession`).
* A save drops accounts that the file held under built-in names (`AccountFile.SaveKeepsAllIff`; file: `BuiltInNameIsDropped`).
* `drop` removes what is at the search position without comparing (`WalletCache.DropIsRightIff`; slice:
  `AbsentDropTakesAnother`).
* `SetBytes` on an array in use keeps the bytes in front of the new ones, so the comment in the source that the array is set to
  the value of the bytes holds exactly when those were zero (`FixedBytes.OverwrittenIsFixedIff`; array: `OldByteStays`).
* The text of a URL whose path contains "://" is not read back (`WalletCache.UrlRoundTripIff`; URL: `SeparatorInPathIsRefused`),
  nor is the text of the empty derivation path (`DerivationPath.RoundTripIff`).

## Model

| member | source | states |
|---|---|---|
| LedgerRuns.RunKeepsInv | project/invoice-ledger/chaincode/invoice_contract.go:228-1749 | the whole-ledger invariant (balances, claims and invoices, numbers, histories, custody, directory) holds after any run of calls, refused ones included, whose transaction ids the history does not hold yet |
| LedgerRuns.ExecuteKeepsInv | project/invoice-ledger/chaincode/invoice_contract.go:228-1749 | each of the 25 transactions, when it succeeds, keeps that invariant |
| LedgerRuns.DistinctIdsAreProper | project/invoice-ledger/chaincode/invoice_contract.go:1957-1965 | a run whose transaction ids are all different and new never meets an id that the history holds, whatever its calls do |
| LedgerRuns.ReachableInv | project/invoice-ledger/chaincode/invoice_contract.go:228-1749 | every state reached from a ledger holding nothing but a user directory satisfies the invariant |
| Charter.CharterHolds | project/invoice-ledger/chaincode/invoice_contract.go:228-1749 | in every reachable state each of the 25 calls succeeds if and only if a second description of the contract, by tables and conditions on the records, allows it, and then leaves exactly the ledger which that description says, events and flows included |
| Charter.EffectIsUnique | project/invoice-ledger/chaincode/invoice_contract.go:228-1749 | that description leaves nothing open: it determines the ledger after the call |
| AuditTrail.TrailShowsDuties | project/invoice-ledger/chaincode/invoice_contract.go:1953-1965 | in every reachable ledger each event is by the right person: the applicant where only the applicant may act, a member of the project where members may, and neither the applicant nor the claimant where somebody judges, pays or settles |
| LedgerTheorems.BudgetConserved | project/invoice-ledger/chaincode/invoice_contract.go:1141-1345 | in every reachable state: before settlement all balances are 0, in settlement available + reserved + paid = budget, in the archive paid + recovered = budget; nothing negative or above the budget; the legacy status is unreachable |
| LedgerTheorems.BalancesAgreeWithClaims | project/invoice-ledger/chaincode/invoice_contract.go:1606-1747 | the reserved and the paid balance of a project are the sums of its claims in those states, over an unbounded claim map |
| LedgerTheorems.ReplayRebuildsBooks | project/invoice-ledger/chaincode/invoice_contract.go:1953-1965 | folding the project events in commit order, given final budgets and claim amounts, gives the status and balances of every project and the status of every claim |
| ProjectHistory.OwnEventsRebuildProject | project/invoice-ledger/chaincode/invoice_contract.go:1393-1413 | folding the events of one project in commit order, given its budget and the amounts of its claims, gives its status and balances and the status of every claim on it: no other event matters |
| ProjectHistory.NothingFollowsSettlement | project/invoice-ledger/chaincode/invoice_contract.go:1317-1350 | in every reachable ledger no event of a project follows its settlement |
| ProjectHistory.ArchivedIffSettledLast | project/invoice-ledger/chaincode/invoice_contract.go:1345-1349 | a project is archived if and only if the last of its events is a settlement |
| LedgerTheorems.EventsAreAppended | project/invoice-ledger/chaincode/invoice_contract.go:1957-1965 | a successful project or claim call adds one event under a free key and keeps all others |
| LedgerTheorems.FundedAndPaidOnce | project/invoice-ledger/chaincode/invoice_contract.go:1299-1304 | no project is funded twice and no claim paid twice in any run |
| LedgerTheorems.GuardIsTheActiveClaim | project/invoice-ledger/chaincode/invoice_contract.go:1538-1565 | the guard entry of an invoice holds r exactly when r is the one claim on it that is not withdrawn |
| LedgerTheorems.VoidableIffAllWithdrawn | project/invoice-ledger/chaincode/invoice_contract.go:1938-1951 | ensureInvoiceCanBeVoided succeeds exactly when every claim on the invoice has been withdrawn |
| LedgerTheorems.InvoicePaidOnce | project/invoice-ledger/chaincode/invoice_contract.go:1705-1749 | two payments in a run are never for the same invoice |
| LedgerTheorems.ActiveClaimIsBacked | project/invoice-ledger/chaincode/invoice_contract.go:389-468 | the invoice of a claim that is not withdrawn is valid, linked to the claim's project, and of the claimed amount |
| LedgerTheorems.CorruptionRefusalsNeverFire | project/invoice-ledger/chaincode/invoice_contract.go:1595-1733 | the refusals for voided invoices, bad amounts and inconsistent balances in review, payment and withdrawal cannot occur in a reachable state |
| LedgerTheorems.NumberCarriedAtMostTwice | project/invoice-ledger/chaincode/invoice_contract.go:322-379 | an invoice number is carried by at most two records; of two, the indexed one corrects the other, which is voided and corrects nothing |
| LedgerTheorems.IndexAgreesWithScanIff | project/invoice-ledger/chaincode/invoice_contract.go:1970-1998 | InvoiceNumberExists answers for any spelling whether a record carries the trimmed number; its index lookup and its scan agree if and only if the number is spelled without outer space or nobody carries it |
| LedgerTheorems.ExceptAgreesIff | project/invoice-ledger/chaincode/invoice_contract.go:2000-2027 | InvoiceNumberExistsExcept answers whether another record carries the trimmed number, if and only if the number is spelled without outer space or the record left aside is not the indexed correction |
| LedgerTheorems.FlowsRebuildCustody | project/invoice-ledger/chaincode/invoice_contract.go:2117-2121 | folding the flows of an invoice in commit order gives its holder and whether it is voided |
| LedgerTheorems.CustodyStep | project/invoice-ledger/chaincode/invoice_contract.go:472-657 | the holder changes only by the holder's own transfer or by the chosen recipient accepting while the requester still holds the invoice; a new record begins with the holder that CreateInvoice names; records keep number and total |
| LedgerTheorems.VoidedIsFinal | project/invoice-ledger/chaincode/invoice_contract.go:681-843 | a voided invoice record never changes again in any run |
| LedgerTheorems.ArchivedForever | project/invoice-ledger/chaincode/invoice_contract.go:1317-1350 | no later run changes an archived project or its claims, and all of those are paid or withdrawn, although review, payment and withdrawal never test the project's status |
| LedgerTheorems.ArchivedIsFinal | project/invoice-ledger/chaincode/invoice_contract.go:1569-1749 | the same record and the same claims after any run, from any state that satisfies the invariant |
| LedgerTheorems.ArchivedClaimsAreClosed | project/invoice-ledger/chaincode/invoice_contract.go:1317-1350 | every claim of an archived project is paid or withdrawn |
| Admission.ApprovalIff | project/invoice-ledger/chaincode/invoice_contract.go:1569-1624 | on a sound ledger, for any spelling of the id, an approval succeeds exactly for a pending claim, a reviewer in scope and enough available money; it then moves the exact amount, without wrap-around, writes the claim under the id as spelled, and changes nothing else |
| Admission.ReturnIff | project/invoice-ledger/chaincode/invoice_contract.go:1569-1624 | on a sound ledger, for any spelling of the id, a return succeeds exactly for a pending claim and a reviewer in scope; the claim is then in revision, no money moves, one event is added and nothing else changes; no other word is ever accepted |
| Admission.ResubmissionIff | project/invoice-ledger/chaincode/invoice_contract.go:1626-1661 | on a sound ledger a resubmission succeeds exactly for a returned claim, a member of its project and evidence; the claim is pending again, one event is added and nothing else changes |
| Admission.ClaimIff | project/invoice-ledger/chaincode/invoice_contract.go:1500-1567 | on a sound ledger a claim succeeds exactly for a new plain id, a project in settlement, a member of it, evidence, and a valid invoice linked to it on which every claim is withdrawn; it claims the full total, takes the guard entry, and nothing else changes |
| Admission.PaymentIff | project/invoice-ledger/chaincode/invoice_contract.go:1705-1749 | on a sound ledger, for any spelling of the id, a payment succeeds exactly for an approved claim and a finance administrator in scope; exact amounts, nothing else changed |
| Admission.WithdrawalIff | project/invoice-ledger/chaincode/invoice_contract.go:1663-1703 | on a sound ledger, for any spelling of the id, a withdrawal succeeds exactly for an open claim and a member of its project; it frees the invoice and gives back what was frozen |
| Admission.FinalizeIff | project/invoice-ledger/chaincode/invoice_contract.go:1317-1350 | on a sound ledger, for any spelling of the id, settlement is finalized exactly when no claim of the project is open and the operator may; the rest of the budget is recovered |
| Admission.NothingOpenIff | project/invoice-ledger/chaincode/invoice_contract.go:1330-1343 | the zero reserved balance and the scan of pending and returned claims together see every open claim |
| Refusals.ReviewRefusals | project/invoice-ledger/chaincode/invoice_contract.go:1569-1613 | which refusal a review gets, and when: unknown, not pending, a word missing, not in scope, too little money |
| Refusals.PaymentRefusals | project/invoice-ledger/chaincode/invoice_contract.go:1705-1733 | which refusal a payment gets, and when |
| Refusals.WithdrawalRefusals | project/invoice-ledger/chaincode/invoice_contract.go:1663-1690 | which refusal a withdrawal gets, and when |
| Refusals.SettlementRefusals | project/invoice-ledger/chaincode/invoice_contract.go:1317-1340 | which refusal a settlement gets, and when: the one about claims exactly when one is open |
| Lifecycle.LifecycleIff | project/invoice-ledger/chaincode/invoice_contract.go:1141-1315 | on a sound ledger, for any spelling of the id, the five calls that move the status of a project succeed exactly along a table of moves, at the hands of the applicant or of a reviewer in scope; funding makes the whole budget available, an edit sets the new budget, each event names who acted, and nothing else changes |
| Lifecycle.CreationIff | project/invoice-ledger/chaincode/invoice_contract.go:1097-1139 | when a project is created, and the draft, the leader and the event that this adds |
| Lifecycle.AddMemberIff | project/invoice-ledger/chaincode/invoice_contract.go:1437-1474 | on a sound ledger, when a member is added, and the record and the event that this adds |
| Entitlement.RegistrationIff | project/invoice-ledger/chaincode/invoice_contract.go:888-938 | when a user is registered, and the record that this adds |
| Entitlement.OrganizationIff | project/invoice-ledger/chaincode/invoice_contract.go:985-1035 | when an organization is created, and the record that this adds |
| Entitlement.BuiltInAccounts | project/invoice-ledger/chaincode/invoice_contract.go:1878-1889 | the built-in accounts are these eight names, each with its MSP and its role |
| Entitlement.RoleIff | project/invoice-ledger/chaincode/invoice_contract.go:1819-1876 | a name bears a role by its directory record alone, and without one only if it is built in |
| Entitlement.ManagerIff | project/invoice-ledger/chaincode/invoice_contract.go:1904-1935 | on a sound ledger a manager of a project is who bears the role and, if registered, is of its organization or of the one above it |
| Entitlement.ApplicantIff | project/invoice-ledger/chaincode/invoice_contract.go:1792-1817 | on a sound ledger the applicant is told by name and MSP alone |
| Entitlement.MemberIff | project/invoice-ledger/chaincode/invoice_contract.go:1476-1498 | on a sound ledger a member is the applicant or a name on the list, calling from the project's MSP |
| InvoiceAdmission.InvoiceIff | project/invoice-ledger/chaincode/invoice_contract.go:228-388 | on a sound ledger CreateInvoice succeeds exactly for the forms described, and adds one record under the trimmed id with all that the form asks for and the exact sum of amount and tax as its total, its number in the index, one flow, and nothing else |
| InvoiceAdmission.LinkIff | project/invoice-ledger/chaincode/invoice_contract.go:389-429 | on a sound ledger, when an invoice is linked, that no check for claims is then needed, and the link and the event that this adds |
| InvoiceAdmission.UnlinkIff | project/invoice-ledger/chaincode/invoice_contract.go:431-468 | on a sound ledger, when a link is undone, and what this changes |
| InvoiceAdmission.TransferIff | project/invoice-ledger/chaincode/invoice_contract.go:472-532 | when an invoice is transferred directly, and its new hands and flow |
| InvoiceAdmission.AcceptanceIff | project/invoice-ledger/chaincode/invoice_contract.go:579-629 | on a sound ledger, when an acceptance succeeds, and the new hands, the closed request and the flow; no other word is ever accepted |
| InvoiceAdmission.RejectionIff | project/invoice-ledger/chaincode/invoice_contract.go:579-608 | when a rejection succeeds, and the closed request and the flow |
| InvoiceAdmission.CancellationIff | project/invoice-ledger/chaincode/invoice_contract.go:631-658 | when a cancellation succeeds, and the closed request and the flow |
| InvoiceAdmission.VoidIff | project/invoice-ledger/chaincode/invoice_contract.go:681-728 | on a sound ledger, when an invoice is voided directly, and that only its status changes |
| InvoiceAdmission.PleaIff | project/invoice-ledger/chaincode/invoice_contract.go:732-781 | on a sound ledger, when a void request is made, and the request and the flow that this adds |
| InvoiceAdmission.VoidDecisionStores | project/invoice-ledger/chaincode/invoice_contract.go:784-844 | what a decision on a void request does: a rejection closes it, an approval also voids the invoice |
| Settlement.SettlementCanFinish | project/invoice-ledger/chaincode/invoice_contract.go:1663-1703 | from any reachable state a project in settlement reaches the archive in (open claims + 1) calls that all succeed, and that state is reachable; what was paid stays paid |
| Settlement.PlanSettles | project/invoice-ledger/chaincode/invoice_contract.go:1317-1350 | the plan itself: the applicant withdraws every open claim, then the finance operator settles |
| Settlement.BuiltInFinanceAdmin | project/invoice-ledger/chaincode/invoice_contract.go:1904-1923 | exactly when the built-in finance administrator may settle: the name is unregistered, or its bearer is an active finance administrator in scope |
| Duties.DutiesAreSeparate | project/invoice-ledger/chaincode/invoice_contract.go:1792-1935 | a successful review, payment or settlement is by a bearer of that duty in the project's scope, who is never the applicant; only the applicant edits, submits, closes and adds members |
| Duties.ReviewerDoesNotPay | project/invoice-ledger/chaincode/invoice_contract.go:1819-1876 | whoever approves a claim cannot, in the same state, pay a claim or settle a project |
| Membership.EverythingBelongs | project/invoice-ledger/chaincode/invoice_contract.go:1437-1498 | in every reachable state members and claimants of a project are active registered users of its MSP and organization, and invoices linked to it were issued under its MSP, for its organization or for none |
| Membership.ClaimantNeverJudges | project/invoice-ledger/chaincode/invoice_contract.go:1569-1749 | nobody approves, returns or pays a claim of their own |
| Membership.OnlyIssuersVoid | project/invoice-ledger/chaincode/invoice_contract.go:681-844 | an invoice becomes void only through an active issuer of its issuing MSP whose organization does not clash with the invoice's |
| Membership.RunKeepsTies | project/invoice-ledger/chaincode/invoice_contract.go:228-1749 | these ties between directory, members, invoices and claims survive every run |
| IdSpelling.GuardExactIffTrimmed | project/invoice-ledger/chaincode/invoice_contract.go:1620-1696 | after a call that writes a claim back, the guard index is exact if and only if the id was spelled without outer space |
| IdSpelling.PaymentKeepsReservedSumIffTrimmed | project/invoice-ledger/chaincode/invoice_contract.go:1738-1747 | after a payment, the reserved balance is the sum of the reserved claims if and only if the id was spelled without outer space |
| IdSpelling.ProjectsKeyedIffTrimmed | project/invoice-ledger/chaincode/invoice_contract.go:1183-1305 | project records stay under their own ids if and only if the id was spelled without outer space |
| IdSpelling.EventsNamedIffTrimmed | project/invoice-ledger/chaincode/invoice_contract.go:1437-1474 | after AddProjectMember every event still names a stored project if and only if the project id was spelled without outer space |
| IdSpelling.MemberFoundIff | project/invoice-ledger/chaincode/invoice_contract.go:1437-1498 | the new member passes the membership check if and only if the project id was spelled without outer space, or the check passed before |
| IdSpelling.InvKeptIffTrimmed | project/invoice-ledger/chaincode/invoice_contract.go:1183-1747 | any call that succeeds on a sound ledger leaves it sound if and only if the record id it writes back under was spelled without outer space |
| SpacedRun.SpacedIdPaysTwice | project/invoice-ledger/chaincode/invoice_contract.go:1705-1749 | a run from a new ledger leads to a state in which one claim, spelled with a leading space, is paid twice |
| SpacedRun.SpacedProjectIdsAccepted | project/invoice-ledger/chaincode/invoice_contract.go:1183-1474 | a reachable ledger on which SubmitProject and AddProjectMember accept a spaced project id |
| SpacedRun.SpacedAnswerAccepted | project/invoice-ledger/chaincode/invoice_contract.go:579-629 | a reachable ledger on which a rejection of a transfer request is accepted under a spaced id |
| Transfers.FlowsRebuildRequests | project/invoice-ledger/chaincode/invoice_contract.go:536-658 | folding the flows of an invoice in commit order tells whether a transfer request is open |
| Transfers.RequestsAlternate | project/invoice-ledger/chaincode/invoice_contract.go:536-658 | in every run, between two answers to requests on an invoice there is a request, and between two requests an answer |
| Transfers.RequestLife | project/invoice-ledger/chaincode/invoice_contract.go:536-658 | a request record, under any id, changes only by the chosen recipient's answer, the requester's cancellation, or a new request of the holder when none is open |
| Transfers.AnsweredIffTrimmed | project/invoice-ledger/chaincode/invoice_contract.go:579-629 | after an answer no request is open on the invoice if and only if the id was spelled without outer space |
| Transfers.RejectionRepeatsIff | project/invoice-ledger/chaincode/invoice_contract.go:579-608 | a rejection that has succeeded can be made once more if and only if the id was spelled with outer space |
| StuckTransfers.RequestAdmittedIff | project/invoice-ledger/chaincode/invoice_contract.go:536-577 | in a reachable ledger a request is admitted if and only if the holder offers the invoice to somebody else who may have it and the flows show no unanswered request on it |
| StuckTransfers.PendingEndsIff | project/invoice-ledger/chaincode/invoice_contract.go:579-657 | a successful call closes an open request if and only if it is an answer or a cancellation; unless it is a rejection, the requester then still holds the invoice |
| StuckTransfers.RejectionAdmittedIff | project/invoice-ledger/chaincode/invoice_contract.go:579-605 | the recipient can reject an open request if and only if the recipient's name is unregistered or its bearer may still have invoices, which only a built-in name can fail |
| StuckTransfers.StuckLasts | project/invoice-ledger/chaincode/invoice_contract.go:566-654 | an open request whose requester does not hold the invoice stays open in any run, and shuts out every other request on it, until the requester holds it again or the recipient rejects |
| StuckTransfers.StuckForGoodIff | project/invoice-ledger/chaincode/invoice_contract.go:472-657 | such a request stays open in every run if and only if the recipient cannot answer and the invoice is void or the requester is no registered holder that it can be transferred back to; otherwise at most two calls close it |
| VoidRequests.VoidRequestLife | project/invoice-ledger/chaincode/invoice_contract.go:732-844 | a void request is made only while none is open and for a valid linked invoice, and is closed only by a review: rejected, or approved and the invoice voided by it |
| VoidRequests.ApprovedIsVoided | project/invoice-ledger/chaincode/invoice_contract.go:828-844 | in every reachable ledger an approved void request belongs to a voided invoice |
| VoidRequests.VoidDecisionIff | project/invoice-ledger/chaincode/invoice_contract.go:784-844 | a decision is admitted if and only if a request is open and an issuer of the invoice decides; an approval also needs a valid invoice with every claim on it withdrawn |
| VoidRequests.VoidedRequestOnlyRejected | project/invoice-ledger/chaincode/invoice_contract.go:681-828 | once an invoice is void, by whatever way, no run does anything to its void request but reject an open one |
| VoidRequests.OpenOnVoidedIff | project/invoice-ledger/chaincode/invoice_contract.go:681-844 | when an invoice becomes void, a void request is open afterwards if and only if one was open and VoidInvoice did it |
| FailingRuns.SpacedNumberDivides | project/invoice-ledger/chaincode/invoice_contract.go:1970-1998 | a run after which the lookup of a spaced number finds a record and the scan does not |
| FailingRuns.HiddenProjectIsManaged | project/invoice-ledger/chaincode/invoice_contract.go:1904-1935 | a run after which a reviewer without organization may review a project that the API hides from them |
| FailingRuns.MemberIsMissed | project/invoice-ledger/chaincode/invoice_contract.go:1415-1435 | a run after which a stored member of a project is outside the range that the member scan reads |
| FailingRuns.RequestIsStuckForGood | project/invoice-ledger/chaincode/invoice_contract.go:472-657 | a run after which a transfer request can never be closed again |
| FailingRuns.VoidedUnderOpenRequest | project/invoice-ledger/chaincode/invoice_contract.go:681-782 | a run after which a void request is open on a voided invoice |
| InvoiceLedger.Ledger.FinalizeProjectSettlement | project/invoice-ledger/chaincode/invoice_contract.go:1317-1350 | on a sound ledger the method succeeds exactly when no claim of the project is open and the operator may settle; it archives, recovers the rest of the budget, changes nothing else, and leaves a sound ledger; a refusal writes nothing |
| InvoiceLedger.Ledger.AnyAwaitsAction | project/invoice-ledger/chaincode/invoice_contract.go:1332-1340 | the scan loop answers whether some claim of the project is pending or returned |
| InvoiceLedger.Ledger.ReviewReimbursement | project/invoice-ledger/chaincode/invoice_contract.go:1569-1624 | on a sound ledger an approval succeeds exactly for a pending claim, a reviewer in scope and enough money, and freezes the exact amount; a return succeeds exactly for a pending claim and a reviewer in scope, sends the claim back and moves no money; no other word is accepted; nothing else changes, and the ledger stays sound |
| InvoiceLedger.Ledger.WithdrawReimbursement | project/invoice-ledger/chaincode/invoice_contract.go:1663-1703 | on a sound ledger the method succeeds exactly for an open claim and a member of its project; it frees the invoice, gives back what was frozen, changes nothing else, and leaves a sound ledger |
| InvoiceLedger.Ledger.PayReimbursement | project/invoice-ledger/chaincode/invoice_contract.go:1705-1749 | on a sound ledger the method succeeds exactly for an approved claim and a finance administrator in scope; it moves the exact amount, changes nothing else, and leaves a sound ledger |
| InvoiceLedger.Ledger.CheckCorrection | project/invoice-ledger/chaincode/invoice_contract.go:322-360 | the checks on a corrected invoice, in the order of the source, with the same refusal |
| InvoiceLedger.Ledger.InvoiceNumberExists | project/invoice-ledger/chaincode/invoice_contract.go:1970-1998 | the index lookup and the scan loop together, which on a sound ledger answer whether any record carries the trimmed number |
| InvoiceLedger.Ledger.InvoiceNumberExistsExcept | project/invoice-ledger/chaincode/invoice_contract.go:2000-2027 | the same lookup and loop with one record left aside |
| InvoiceLedger.Ledger.GetAllReimbursements | project/invoice-ledger/chaincode/invoice_contract.go:1771-1790 | the loop lists every stored claim once, and no other |
| InvoiceLedger.Ledger.SubmitSoundly | project/invoice-ledger/chaincode/invoice_contract.go:228-1749 | on a sound ledger, any call with a fresh transaction id follows its rule, and leaves the ledger sound if and only if it is refused or its record ids are trimmed |
| KeySpace.EncodeInjective | project/invoice-ledger/chaincode/invoice_contract.go:17-30 | the key builders give different records different keys, for owner ids without '#' |
| KeySpace.KindScan | project/invoice-ledger/chaincode/invoice_contract.go:1979-1980 | in code-point order the range from P# up to P$ holds exactly the keys that begin with P# |
| KeySpace.KindScanIsExact | project/invoice-ledger/chaincode/invoice_contract.go:1772-1773 | a scan of one kind sees the keys of that kind and no other: REIMBURSEMENT never meets REIMBURSEMENT_INVOICE |
| KeySpace.ListScansAreExact | project/invoice-ledger/chaincode/invoice_contract.go:1772-2030 | the five list scans, with the bounds that the contract passes, meet exactly the records of their kind |
| KeySpace.KeysAreSpelled | project/invoice-ledger/chaincode/invoice_contract.go:17-30 | the keys of the nine kinds of records with one id, with the prefixes of the contract |
| KeySpace.PairedKeysAreSpelled | project/invoice-ledger/chaincode/invoice_contract.go:17-30 | the keys of flows, members and events, with the prefixes of the contract |
| KeySpace.OwnerScanIsExact | project/invoice-ledger/chaincode/invoice_contract.go:1394-1417 | a scan of one owner's events, members or flows sees exactly that owner's keys, up to ids that begin at U+FFFF |
| KeySpace.OwnersHaveNoHash | project/invoice-ledger/chaincode/invoice_contract.go:245-250 | in every reachable ledger the project and invoice ids that go in front of another id in a key hold no separator |
| KeySpace.MemberScanIff | project/invoice-ledger/chaincode/invoice_contract.go:1415-1435 | the member scan of one project returns exactly its members whose user name does not begin at or above U+FFFF |
| KeySpace.FlowScanIff | project/invoice-ledger/chaincode/invoice_contract.go:2050-2073 | the flow scan of one invoice returns exactly its flows, up to transaction ids that begin at or above U+FFFF |
| KeySpace.EventScanIff | project/invoice-ledger/chaincode/invoice_contract.go:1393-1413 | over the events of a reachable ledger, the scan for one project returns exactly its events, up to transaction ids that begin at or above U+FFFF |
| OrganizationScope.OrganizationMemberScope | project/invoice-ledger/web/app.js:246-256 | the worklist ends on every parent graph, cycles included, and returns exactly the reflexive-transitive children |
| OrganizationScope.WalkStaysInside | project/invoice-ledger/web/app.js:246-256 | the scope lies inside every closed set that holds the root: it is the least one |
| OrganizationScope.TwoLevelScope | project/invoice-ledger/chaincode/invoice_contract.go:1008-1033 | on a directory that CreateBusinessOrganization built, the scope is the organization and its direct children |
| OrganizationScope.ScopesAgree | 链证项目管理与发票报销系统-作业提交源码包/backend/api/invoice.go:1166-1190 | for members of an organization, the contract's management scope, the API's visibility and the browser's scope agree on every project of a reachable ledger |
| OrganizationScope.ScopesAgreeWithoutOrganizationIff | project/invoice-ledger/chaincode/invoice_contract.go:1925-1935 | for a user without organization and built-in name, contract and API agree exactly when the project's organization is not a registered top-level one |
| OrganizationScope.VisibleIff | 链证项目管理与发票报销系统-作业提交源码包/backend/api/invoice.go:1166-1190 | which projects the API shows to whom, with the built-in accounts in two tables |
| OrganizationScope.BuiltInManagersSee | 链证项目管理与发票报销系统-作业提交源码包/backend/api/invoice.go:1166-1190 | the API shows every project to the built-in accounts that the contract lets judge, pay or settle it |
| OrganizationScope.RegistrationJoinsOrganization | project/invoice-ledger/chaincode/invoice_contract.go:888-938 | whoever registers joins a registered organization of their own MSP |
| LateReplies.ReadyShowsLatest | project/invoice-ledger/web/app.js:382-402 | whenever the page is ready with a project selected, its list is the reply to the latest load, which asked for that project, in the session of that load |
| PageEffects.SelectionEffects | project/invoice-ledger/web/app.js:318-402 | what a choice of a project, a submitted form, new options and a clearing do to the page: a load empties it at once |
| PageEffects.ReplyEffects | project/invoice-ledger/web/app.js:390-400 | a reply or an error is shown if and only if it answers the last request, in this session, for the selected project, with somebody logged in |
| PageEffects.LoadIsAnswered | project/invoice-ledger/web/app.js:382-402 | the reply to a load that nothing interrupts is what the page shows |
| PageEffects.SearchEffects | project/invoice-ledger/web/app.js:1019-1027 | what typing, the timer and a refresh do to the list and its requests |
| PageEffects.ListEffects | project/invoice-ledger/web/app.js:560-567 | a list is shown if and only if it answers the last request, in this session, with somebody logged in |
| PageEffects.SearchIsAnswered | project/invoice-ledger/web/app.js:1019-1027 | a search that nothing interrupts is answered with the list for the last text typed |
| PageEffects.IdentityEffects | project/invoice-ledger/web/app.js:987-1008 | a login begins a session and an identity reply does not, and neither changes what the page shows |
| PageEffects.LogoutEmpties | project/invoice-ledger/web/app.js:1011-1018 | a logout leaves nothing to see, and no reply or timer then under way changes that |
| PageEffects.NothingShowsAfterLogout | project/invoice-ledger/web/app.js:1011-1018 | no load in flight at a logout can be answered any more, whatever happens next |
| LateReplies.NoLateReply | project/invoice-ledger/web/app.js:390-399 | a reply or error that changes the page answers the latest load, in its session, for the selected project |
| LateReplies.WaitHasLoad | project/invoice-ledger/web/app.js:383-396 | a page that waits with a project selected waits for a load: the next two results speak of every such page |
| LateReplies.WaitEndsIff | project/invoice-ledger/web/app.js:383-396 | on a page that waits with a project selected, for a load that someone logged in issued: it is in flight and its reply ends the wait if and only if nobody has logged in since |
| LateReplies.WaitWithoutUserEndsIff | project/invoice-ledger/web/app.js:383-396 | for a load issued with nobody logged in: if and only if the first identity reply has come since, nobody has logged in since, and no earlier reply was lost |
| LateReplies.WaitCanEndIff | project/invoice-ledger/web/app.js:390-399 | a wait can end without another load, a clearing or a logout if and only if its load is in flight and of the present session |
| LateReplies.HopelessLasts | project/invoice-ledger/web/app.js:390-399 | any other wait lasts until a load, a clearing or a logout |
| LateReplies.ReloadEndsWait | project/invoice-ledger/web/app.js:318-331 | rendering the project options anew issues the load again, and its reply ends the wait |
| LateReplies.LoginMakesHopeless | project/invoice-ledger/web/app.js:987-993 | a run in which a login during a load leaves the page waiting with nothing in flight |
| LateReplies.ListReplyMatchesQuery | project/invoice-ledger/web/app.js:560-566 | an invoice list reply that changes the page was asked for with the query the page holds now, in this session, with no search input since |
| LateReplies.SameSessionSameUser | project/invoice-ledger/web/app.js:987-1018 | within one session the user is the one of the last identity reply in it, if there was one, and otherwise who it was before |
| LateReplies.UserKeptIff | project/invoice-ledger/web/app.js:987-1018 | within one session the user stays the same if and only if no identity reply comes in it, or the last one brings the same user |
| LateReplies.ResumeChangesUserWithinSession | project/invoice-ledger/web/app.js:1084-1084 | a run in which that reply changes the user and a load of the one is answered on the page of the other |
| LateReplies.Browser.ProjectReplied | project/invoice-ledger/web/app.js:390-400 | a reply or error that reaches the page answers the latest load, in its session, for the selection; page and events stay in step |
| LateReplies.Browser.ListReplied | project/invoice-ledger/web/app.js:565-566 | a list that reaches the page was asked for under the present query, in this session, with no search input since |
| LateReplies.Browser.ChangeProject | project/invoice-ledger/web/app.js:1046-1046 | after a selection the page is still what its events make it, and a ready page shows the reply to the latest load for its selection |
| LateReplies.Browser.ClearReimbursementSelection | project/invoice-ledger/web/app.js:1048-1056 | after a clearing the page is still what its events make it, and a ready page shows the reply to the latest load for its selection |
| LateReplies.Browser.ReimbursementSubmitted | project/invoice-ledger/web/app.js:941-950 | after a successful submission the page is still what its events make it, and a ready page shows the reply to the latest load for its selection |
| LateReplies.Browser.RenderProjectOptions | project/invoice-ledger/web/app.js:318-331 | after new project options the page is still what its events make it, and a ready page shows the reply to the latest load for its selection |
| LateReplies.Browser.Refresh | project/invoice-ledger/web/app.js:560-564 | after a refresh of the list the page is still what its events make it, and a ready page shows the reply to the latest load for its selection |
| LateReplies.Browser.Search | project/invoice-ledger/web/app.js:1019-1024 | after a search input the page is still what its events make it, and a ready page shows the reply to the latest load for its selection |
| LateReplies.Browser.SearchTimerFired | project/invoice-ledger/web/app.js:1024-1027 | after the search timer the page is still what its events make it, and a ready page shows the reply to the latest load for its selection |
| LateReplies.Browser.LoggedIn | project/invoice-ledger/web/app.js:990-1004 | after a login or registration the page is still what its events make it, and a ready page shows the reply to the latest load for its selection |
| LateReplies.Browser.Resumed | project/invoice-ledger/web/app.js:1084-1084 | after the first identity reply the page is still what its events make it, and a ready page shows the reply to the latest load for its selection |
| LateReplies.Browser.LoggedOut | project/invoice-ledger/web/app.js:1011-1018 | after a logout the page is still what its events make it, and a ready page shows the reply to the latest load for its selection |
| AccountFile.CrashConsistent | 链证项目管理与发票报销系统-作业提交源码包/backend/auth/auth.go:282-318 | wherever a save stops and whatever a torn write leaves, a restart reads the accounts from before the save, or, once its last rename is done, exactly those it was given; it never fails |
| AccountFile.RestartIff | 链证项目管理与发票报销系统-作业提交源码包/backend/auth/auth.go:233-280 | what a start finds, said by the lists that the two files hold |
| AccountFile.BackupIsThePreviousList | 链证项目管理与发票报销系统-作业提交源码包/backend/auth/auth.go:296-318 | after a completed save over a readable list, if the main file is then lost or damaged, a start finds exactly the accounts from before that save |
| AccountFile.DamagedMainKeepsBackup | 链证项目管理与发票报销系统-作业提交源码包/backend/auth/auth.go:299-303 | a save over a main file that is no list of accounts leaves the backup alone, wherever it stops |
| AccountFile.SaveKeepsAllIff | 链证项目管理与发票报销系统-作业提交源码包/backend/auth/auth.go:282-288 | a completed save keeps all that the file held exactly when the file held no account under a built-in name |
| AccountFile.BuiltInNameIsDropped | 链证项目管理与发票报销系统-作业提交源码包/backend/auth/auth.go:282-288 | a file whose account under a built-in name the next completed save drops |
| AccountFile.RestartEqualsMemory | 链证项目管理与发票报销系统-作业提交源码包/backend/auth/auth.go:93-115 | over any number of registrations, failures and crashes, a restart reads what memory holds |
| AccountFile.OnlyCompletedSavesCount | 链证项目管理与发票报销系统-作业提交源码包/backend/auth/auth.go:93-115 | the accounts are those from the start and those whose save completed: none lost, none made up |
| AccountFile.DecodeOfListing | 链证项目管理与发票报销系统-作业提交源码包/backend/auth/auth.go:264-280 | writing a map of accounts in any order and reading it back gives the map |
| AccountFile.ValidNameIff | 链证项目管理与发票报销系统-作业提交源码包/backend/auth/auth.go:22-22 | a name is valid exactly with three to thirty-two letters, digits, underscores and hyphens |
| AccountFile.DecodeAccounts | 链证项目管理与发票报销系统-作业提交源码包/backend/auth/auth.go:264-280 | the loop with the set of seen names accepts exactly the lists of valid accounts with distinct names |
| AccountFile.Service.LoadAccounts | 链证项目管理与发票报销系统-作业提交源码包/backend/auth/auth.go:233-262 | a start succeeds if and only if it finds accounts, and memory is then the built-in accounts and those found: the list in the main file, or in the backup when the main file is missing or no list of accounts, or none when both are missing; an error adds nothing |
| AccountFile.Service.SaveRegisteredAccounts | 链证项目管理与发票报销系统-作业提交源码包/backend/auth/auth.go:282-318 | the disk afterwards, for any number of file operations that succeed; the backup is replaced by a usable main file only |
| AccountFile.Service.RegisterAccount | 链证项目管理与发票报销系统-作业提交源码包/backend/auth/auth.go:93-135 | a registration succeeds if and only if the account is well-formed and new and the file operations of its save all succeed; memory and disk then both take the account, and otherwise both are as if the call had not been made |
| DerivationPath.ParseDerivationPath | lab4/go-ethereum-1.10.8/go-ethereum-1.10.8/accounts/hd.go:68-118 | the loop returns the path that the text means, and none if the text means none |
| DerivationPath.ParsesIff | lab4/go-ethereum-1.10.8/go-ethereum-1.10.8/accounts/hd.go:68-118 | a text is accepted exactly if it is m and components, or components alone, each a number below 2^32 or a number below 2^31 and a quote, and which path it then means |
| DerivationPath.RangeIff | lab4/go-ethereum-1.10.8/go-ethereum-1.10.8/accounts/hd.go:90-116 | the decimal n is a component exactly below 2^32, and with a quote exactly below 2^31 |
| DerivationPath.SplitIsCut | lab4/go-ethereum-1.10.8/go-ethereum-1.10.8/accounts/hd.go:71-71 | the text is cut at every slash and nowhere else |
| DerivationPath.String | lab4/go-ethereum-1.10.8/go-ethereum-1.10.8/accounts/hd.go:122-136 | the loop prints the path component by component |
| DerivationPath.PrintReads | lab4/go-ethereum-1.10.8/go-ethereum-1.10.8/accounts/hd.go:122-136 | each component is printed in decimal after a slash, with 2^31 written as a quote |
| DerivationPath.RoundTripIff | lab4/go-ethereum-1.10.8/go-ethereum-1.10.8/accounts/hd.go:68-136 | parsing a printed path gives it back for every path but the empty one, whose text is refused |
| DerivationPath.PrintedFormIsCanonical | lab4/go-ethereum-1.10.8/go-ethereum-1.10.8/accounts/hd.go:68-136 | whatever spelling was accepted, the printed form parses to the same path |
| DerivationPath.SpellingsAgreeIff | lab4/go-ethereum-1.10.8/go-ethereum-1.10.8/accounts/hd.go:68-136 | two accepted texts mean the same path if and only if their paths print alike |
| DerivationPath.PrintDistinguishes | lab4/go-ethereum-1.10.8/go-ethereum-1.10.8/accounts/hd.go:122-136 | two paths print alike only if they are equal |
| DerivationPath.RelativeExtendsRoot | lab4/go-ethereum-1.10.8/go-ethereum-1.10.8/accounts/hd.go:68-88 | a relative path means the default root followed by what the same components mean under m/ |
| DerivationPath.PathIterator.Next | lab4/go-ethereum-1.10.8/go-ethereum-1.10.8/accounts/hd.go:156-181 | the n-th call returns the base with one component moved on by n, modulo 2^32, in the same slice each time |
| DerivationPath.IteratorPeriod | lab4/go-ethereum-1.10.8/go-ethereum-1.10.8/accounts/hd.go:156-181 | an iterator repeats a path exactly every 2^32 calls |
| WalletCache.CmpIsTotalOrder | lab4/go-ethereum-1.10.8/go-ethereum-1.10.8/accounts/url.go:99-104 | Cmp is a total order that is 0 on equal URLs only |
| WalletCache.CmpIsDictionary | lab4/go-ethereum-1.10.8/go-ethereum-1.10.8/accounts/url.go:99-104 | URLs are ordered by scheme and then by path, each as in a dictionary |
| WalletCache.Search | lab4/go-ethereum-1.10.8/go-ethereum-1.10.8/accounts/manager.go:212-212 | binary search finds the first wallet at or after the URL |
| WalletCache.MergeKeepsSorted | lab4/go-ethereum-1.10.8/go-ethereum-1.10.8/accounts/manager.go:210-220 | a merge keeps the slice sorted and adds exactly the wallet |
| WalletCache.DropIsRightIff | lab4/go-ethereum-1.10.8/go-ethereum-1.10.8/accounts/manager.go:224-234 | a drop removes one wallet of the URL, or nothing for an absent one, exactly when the URL is present or nothing sorts after it |
| WalletCache.AbsentDropTakesAnother | lab4/go-ethereum-1.10.8/go-ethereum-1.10.8/accounts/manager.go:224-234 | a slice from which the drop of an absent URL takes another wallet |
| WalletCache.DropUndoesMerge | lab4/go-ethereum-1.10.8/go-ethereum-1.10.8/accounts/manager.go:210-234 | dropping the wallet just merged restores the slice element by element |
| WalletCache.CacheIsBalance | lab4/go-ethereum-1.10.8/go-ethereum-1.10.8/accounts/manager.go:98-133 | over any run of events in which only present URLs leave, the slice stays sorted and holds arrivals less departures |
| WalletCache.Manager.Merge | lab4/go-ethereum-1.10.8/go-ethereum-1.10.8/accounts/manager.go:210-220 | the splicing loop adds exactly the wallets given and keeps the slice sorted |
| WalletCache.Manager.Drop | lab4/go-ethereum-1.10.8/go-ethereum-1.10.8/accounts/manager.go:224-234 | the splicing loop keeps the slice sorted and, if the URLs given are all there, takes exactly these |
| WalletCache.Manager.Update | lab4/go-ethereum-1.10.8/go-ethereum-1.10.8/accounts/manager.go:110-123 | one turn of the event loop |
| WalletCache.UrlRoundTripIff | lab4/go-ethereum-1.10.8/go-ethereum-1.10.8/accounts/url.go:44-61 | a URL is read back from its text exactly when it has a scheme and neither part contains "://" |
| WalletCache.ParsesIff | lab4/go-ethereum-1.10.8/go-ethereum-1.10.8/accounts/url.go:44-52 | a text is read as a URL exactly when it is a scheme, :// and a path, with no other :// in it |
| WalletCache.SeparatorInPathIsRefused | lab4/go-ethereum-1.10.8/go-ethereum-1.10.8/accounts/url.go:44-61 | a URL whose text is refused |
| WalletCache.ParsedUrlPrintsBack | lab4/go-ethereum-1.10.8/go-ethereum-1.10.8/accounts/url.go:44-61 | an accepted text is the text of the URL read from it |
| FixedBytes.SetBytes | lab4/go-ethereum-1.10.8/go-ethereum-1.10.8/common/types.go:135-141 | in place: the new bytes at the end, cropped from the left, all else untouched |
| FixedBytes.FixedValueIsModulo | lab4/go-ethereum-1.10.8/go-ethereum-1.10.8/common/types.go:53-57 | the number in a hash or address made from bytes is theirs modulo 2^(8n) |
| FixedBytes.OverwrittenIsFixedIff | lab4/go-ethereum-1.10.8/go-ethereum-1.10.8/common/types.go:133-141 | SetBytes on an array in use gives it the number of the bytes exactly when no byte in front of them was set |
| FixedBytes.OldByteStays | lab4/go-ethereum-1.10.8/go-ethereum-1.10.8/common/types.go:133-141 | an array in use that SetBytes leaves with another number than that of the bytes |
| FixedBytes.BytesToFixed | lab4/go-ethereum-1.10.8/go-ethereum-1.10.8/common/types.go:53-57 | a fresh array that holds the bytes at its end, cropped from the left or padded with zeroes |
| FixedBytes.BigRoundTrip | lab4/go-ethereum-1.10.8/go-ethereum-1.10.8/common/types.go:61-71 | a hash made from the number of a hash is that hash |
| FixedBytes.LeftPadBytes | lab4/go-ethereum-1.10.8/go-ethereum-1.10.8/common/bytes.go:108-117 | the padded bytes and that their number is unchanged |
| FixedBytes.TrimLeftZeroes | lab4/go-ethereum-1.10.8/go-ethereum-1.10.8/common/bytes.go:120-128 | the loop drops exactly the leading zeroes |
| FixedBytes.TrimIsCanonical | lab4/go-ethereum-1.10.8/go-ethereum-1.10.8/common/bytes.go:120-128 | two byte strings trim to the same string exactly when they are the same number |
| FixedBytes.Hex2BytesFixed | lab4/go-ethereum-1.10.8/go-ethereum-1.10.8/common/bytes.go:82-93 | the decoded bytes, cropped or padded on the left |
| FixedBytes.AddressHex | lab4/go-ethereum-1.10.8/go-ethereum-1.10.8/common/types.go:244-270 | the text is 0x and the digits of the address, in which exactly the letters are raised where the digit of the digest at the same place is 8 or more, for any hash function |
| FixedBytes.AddressHexRoundTrip | lab4/go-ethereum-1.10.8/go-ethereum-1.10.8/common/types.go:217-237 | HexToAddress(a.Hex()) = a and a.Hex() is accepted, whatever the hash function in the checksum |
| FixedBytes.HashHexRoundTrip | lab4/go-ethereum-1.10.8/go-ethereum-1.10.8/common/types.go:65-74 | HexToHash(h.Hex()) = h |
| FixedBytes.IsHex | lab4/go-ethereum-1.10.8/go-ethereum-1.10.8/common/bytes.go:57-68 | the loop answers whether the text is an even number of hex digits |
| FixedBytes.IsHexAddressIff | lab4/go-ethereum-1.10.8/go-ethereum-1.10.8/common/types.go:221-226 | a text is accepted as an address exactly when it spells one, up to case and prefix, and reads as that one |
| FixedBytes.DecodeOfEncoding | lab4/go-ethereum-1.10.8/go-ethereum-1.10.8/common/bytes.go:71-79 | decoding inverts encoding, whatever the case of the letters |
| FixedBytes.EncodedDigits | lab4/go-ethereum-1.10.8/go-ethereum-1.10.8/common/bytes.go:76-79 | the digits of a byte string, one by one |
| FixedBytes.HexDigitIff | lab4/go-ethereum-1.10.8/go-ethereum-1.10.8/common/bytes.go:52-55 | which characters are digits, and of what value |
| FixedBytes.PrefixIsCut | lab4/go-ethereum-1.10.8/go-ethereum-1.10.8/common/bytes.go:47-50 | a prefix is cut off, in either case and once |
| FixedBytes.DecodeReads | lab4/go-ethereum-1.10.8/go-ethereum-1.10.8/common/bytes.go:71-74 | decoding reads whole pairs of digits up to the first that is none |
| FixedBytes.FromHexIsSpelled | lab4/go-ethereum-1.10.8/go-ethereum-1.10.8/common/bytes.go:24-34 | a text of digits, odd or even, prefixed or not, is read as the number that it spells in base sixteen |

## Left out

- Fabric itself: endorsement, ordering, read conflicts, certificates and the gateway. A transaction is an atomic step.
- JSON, SHA-256, Keccak, time stamps and number texts other than canonical decimals: parameters, or an inverse pair.
- Descriptive fields of records (names, opinions, materials, hashes, times, and the currency, which CreateInvoice only ever sets to CNY).
- VerifyInvoice, GetInvoiceHistory and the list readers other than those named above: they copy records.
- Storage faults of the ledger and records that do not parse: the world state holds records, not bytes.
- HTTP handlers, sessions of the API server, cookies and password hashing; the failure of the random source.
- The page, result number and summary of the invoice list; rendering; the other loaders of the client, which keep no request number.
- Sharing of the backing array of the wallet slice: a slice is a sequence that is assigned anew.
- The wallets' other methods, subscriptions and locks: one event is handled at a time.
- The kind of a refusal is stated outright for the calls that move money (`Refusals`); for the others only that they are refused, and when.
- nil slices against empty ones, and byte strings that are not valid UTF-8.
