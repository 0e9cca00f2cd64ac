/** The invariants that tie claims, the invoice guard index, invoice records and the number index together. */
module Backing {
  import opened Basics
  import opened LedgerTypes

  // ----- claims, guard and invoices -----

  predicate Active(claim: Claim) { !claim.status.Withdrawn? }

  /** A claim is for the full total of an existing invoice; while active, the invoice is valid, linked to the
      claim's project, and the guard names this claim. */
  predicate ClaimBacked(guard: map<string, string>, invoices: map<string, Invoice>, r: string, c: Claim) {
    && c.invoiceId in invoices
    && c.amount == invoices[c.invoiceId].total
    && (Active(c) ==>
          && !invoices[c.invoiceId].status.Voided?
          && invoices[c.invoiceId].projectId == c.projectId
          && c.invoiceId in guard && guard[c.invoiceId] == r)
  }

  predicate GuardEntryOk(claims: map<string, Claim>, i: string, r: string) {
    r in claims && claims[r].invoiceId == i && Active(claims[r])
  }

  predicate InvoiceKeyed(i: string, invoice: Invoice) {
    invoice.id == i && Trimmed(i) && i != "" && '#' !in i && 0 < invoice.total <= MAX_MONEY_CENTS && Trimmed(invoice.projectId)
  }

  ghost predicate GuardExact(claims: map<string, Claim>, guard: map<string, string>) {
    && (forall i :: i in guard ==> GuardEntryOk(claims, i, guard[i]))
    && (forall r :: r in claims && Active(claims[r]) ==> claims[r].invoiceId in guard && guard[claims[r].invoiceId] == r)
  }

  ghost predicate BackingOk(claims: map<string, Claim>, guard: map<string, string>, invoices: map<string, Invoice>) {
    && (forall r :: r in claims ==> ClaimBacked(guard, invoices, r, claims[r]))
    && (forall i :: i in guard ==> GuardEntryOk(claims, i, guard[i]))
    && (forall i :: i in invoices ==> InvoiceKeyed(i, invoices[i]))
  }

  lemma BackingGivesGuardExact(claims: map<string, Claim>, guard: map<string, string>, invoices: map<string, Invoice>)
    requires BackingOk(claims, guard, invoices)
    ensures GuardExact(claims, guard)
  {
    forall r | r in claims && Active(claims[r])
      ensures claims[r].invoiceId in guard && guard[claims[r].invoiceId] == r
    {
      assert ClaimBacked(guard, invoices, r, claims[r]);
    }
  }

  lemma NewClaimKeepsBacking(claims: map<string, Claim>, guard: map<string, string>, invoices: map<string, Invoice>,
                             r: string, c: Claim)
    requires BackingOk(claims, guard, invoices)
    requires r !in claims && c.invoiceId !in guard && Active(c)
    requires ClaimBacked(guard[c.invoiceId := r], invoices, r, c)
    ensures BackingOk(claims[r := c], guard[c.invoiceId := r], invoices)
  {
    var claims' := claims[r := c];
    forall s | s in claims' ensures ClaimBacked(guard[c.invoiceId := r], invoices, s, claims'[s]) {
      if s != r { assert ClaimBacked(guard, invoices, s, claims[s]); }
    }
  }

  /** A claim changes status and stays active. */
  lemma StatusMoveKeepsBacking(claims: map<string, Claim>, guard: map<string, string>, invoices: map<string, Invoice>,
                               r: string, status: ClaimStatus)
    requires BackingOk(claims, guard, invoices)
    requires r in claims && Active(claims[r]) && !status.Withdrawn?
    ensures BackingOk(claims[r := claims[r].(status := status)], guard, invoices)
  {
    var claims' := claims[r := claims[r].(status := status)];
    forall s | s in claims' ensures ClaimBacked(guard, invoices, s, claims'[s]) {
      assert ClaimBacked(guard, invoices, s, claims[s]);
    }
    forall i | i in guard ensures GuardEntryOk(claims', i, guard[i]) {
      assert GuardEntryOk(claims, i, guard[i]);
    }
  }

  lemma WithdrawalKeepsBacking(claims: map<string, Claim>, guard: map<string, string>, invoices: map<string, Invoice>, r: string)
    requires BackingOk(claims, guard, invoices)
    requires r in claims && Active(claims[r])
    ensures BackingOk(claims[r := claims[r].(status := Withdrawn)], guard - {claims[r].invoiceId}, invoices)
  {
    var claims' := claims[r := claims[r].(status := Withdrawn)];
    var guard' := guard - {claims[r].invoiceId};
    assert ClaimBacked(guard, invoices, r, claims[r]);
    forall s | s in claims' ensures ClaimBacked(guard', invoices, s, claims'[s]) {
      assert ClaimBacked(guard, invoices, s, claims[s]);
    }
    forall i | i in guard' ensures GuardEntryOk(claims', i, guard'[i]) {
      assert GuardEntryOk(claims, i, guard[i]);
    }
  }

  /** A changed or new invoice record that no claim relies on, or that keeps what claims rely on. */
  lemma InvoiceMoveKeepsBacking(claims: map<string, Claim>, guard: map<string, string>, invoices: map<string, Invoice>,
                                i: string, invoice: Invoice)
    requires BackingOk(claims, guard, invoices)
    requires InvoiceKeyed(i, invoice)
    requires i in invoices ==>
               && invoice.total == invoices[i].total
               && (i !in guard || (invoice.projectId == invoices[i].projectId && !invoice.status.Voided?))
    ensures BackingOk(claims, guard, invoices[i := invoice])
  {
    forall r | r in claims ensures ClaimBacked(guard, invoices[i := invoice], r, claims[r]) {
      assert ClaimBacked(guard, invoices, r, claims[r]);
    }
  }

  // ----- invoice numbers -----

  /** Two records with the same number: the newer one, which the index names, corrects the older, voided one. */
  predicate Corrects(invoices: map<string, Invoice>, numbers: map<string, string>, newer: string, older: string) {
    && newer in invoices && older in invoices
    && invoices[newer].correctionOf == older && invoices[newer].invoiceNo == invoices[older].invoiceNo
    && invoices[older].status.Voided? && invoices[older].correctionOf == ""
    && invoices[newer].invoiceNo in numbers && numbers[invoices[newer].invoiceNo] == newer
  }

  predicate IndexedNumber(invoices: map<string, Invoice>, numbers: map<string, string>, i: string) {
    i in invoices && Trimmed(invoices[i].invoiceNo) && invoices[i].invoiceNo in numbers
  }

  ghost predicate NumbersOk(invoices: map<string, Invoice>, numbers: map<string, string>) {
    && (forall no :: no in numbers ==> numbers[no] in invoices && invoices[numbers[no]].invoiceNo == no)
    && (forall i :: i in invoices ==> IndexedNumber(invoices, numbers, i))
    && (forall i, j :: i in invoices && j in invoices && i != j && invoices[i].invoiceNo == invoices[j].invoiceNo
          ==> Corrects(invoices, numbers, i, j) || Corrects(invoices, numbers, j, i))
    && (forall i :: i in invoices && invoices[i].correctionOf != "" ==> Corrects(invoices, numbers, i, invoices[i].correctionOf))
  }

  /** A record keeps its number and correction link, and stays voided once voided. */
  lemma InvoiceMoveKeepsNumbers(invoices: map<string, Invoice>, numbers: map<string, string>, i: string, invoice: Invoice)
    requires NumbersOk(invoices, numbers)
    requires i in invoices
    requires invoice.invoiceNo == invoices[i].invoiceNo && invoice.correctionOf == invoices[i].correctionOf
    requires invoices[i].status.Voided? ==> invoice.status.Voided?
    ensures NumbersOk(invoices[i := invoice], numbers)
  {
    var invoices' := invoices[i := invoice];
    forall j | j in invoices' ensures IndexedNumber(invoices', numbers, j) { assert IndexedNumber(invoices, numbers, j); }
    forall a, b | Corrects(invoices, numbers, a, b) ensures Corrects(invoices', numbers, a, b) {}
  }

  /** An invoice that is new and whose number nobody carries, or only the voided record that it corrects. */
  ghost predicate NumberFree(invoices: map<string, Invoice>, i: string, invoice: Invoice) {
    && i !in invoices && i != "" && Trimmed(invoice.invoiceNo) && !invoice.status.Voided?
    && (invoice.correctionOf != "" ==>
          && invoice.correctionOf in invoices
          && invoices[invoice.correctionOf].status.Voided?
          && invoices[invoice.correctionOf].invoiceNo == invoice.invoiceNo)
    && forall j :: j in invoices && invoices[j].invoiceNo == invoice.invoiceNo ==> invoice.correctionOf != "" && j == invoice.correctionOf
  }

  /** Were the corrected record itself a correction, a third record would carry this number. */
  lemma CorrectedIsNoCorrection(invoices: map<string, Invoice>, numbers: map<string, string>, i: string, invoice: Invoice)
    requires NumbersOk(invoices, numbers) && NumberFree(invoices, i, invoice) && invoice.correctionOf != ""
    ensures invoices[invoice.correctionOf].correctionOf == ""
  {
    var c := invoice.correctionOf;
    assert invoices[c].correctionOf == "" || Corrects(invoices, numbers, c, invoices[c].correctionOf);
  }

  lemma OldPairStays(invoices: map<string, Invoice>, numbers: map<string, string>, i: string, invoice: Invoice, a: string, b: string)
    requires i !in invoices && Corrects(invoices, numbers, a, b) && invoices[a].invoiceNo != invoice.invoiceNo
    ensures Corrects(invoices[i := invoice], numbers[invoice.invoiceNo := i], a, b)
  {}

  lemma NewPair(invoices: map<string, Invoice>, numbers: map<string, string>, i: string, invoice: Invoice)
    requires NumbersOk(invoices, numbers) && NumberFree(invoices, i, invoice) && invoice.correctionOf != ""
    ensures Corrects(invoices[i := invoice], numbers[invoice.invoiceNo := i], i, invoice.correctionOf)
  {
    CorrectedIsNoCorrection(invoices, numbers, i, invoice);
  }

  lemma PairsAfter(invoices: map<string, Invoice>, numbers: map<string, string>, i: string, invoice: Invoice, a: string, b: string)
    requires NumbersOk(invoices, numbers) && NumberFree(invoices, i, invoice)
    requires a in invoices && (b in invoices || b == i) && a != b
    requires var invoices' := invoices[i := invoice]; invoices'[a].invoiceNo == invoices'[b].invoiceNo
    ensures var invoices', numbers' := invoices[i := invoice], numbers[invoice.invoiceNo := i];
            Corrects(invoices', numbers', a, b) || Corrects(invoices', numbers', b, a)
  {
    hide Corrects, IndexedNumber;
    if b == i {
      NewPair(invoices, numbers, i, invoice);
    } else if Corrects(invoices, numbers, a, b) {
      OldPairStays(invoices, numbers, i, invoice, a, b);
    } else {
      OldPairStays(invoices, numbers, i, invoice, b, a);
    }
  }

  lemma NewInvoiceKeepsNumbers(invoices: map<string, Invoice>, numbers: map<string, string>, i: string, invoice: Invoice)
    requires NumbersOk(invoices, numbers) && NumberFree(invoices, i, invoice)
    ensures NumbersOk(invoices[i := invoice], numbers[invoice.invoiceNo := i])
  {
    var invoices', numbers' := invoices[i := invoice], numbers[invoice.invoiceNo := i];
    forall j | j in invoices' ensures IndexedNumber(invoices', numbers', j) {
      if j != i { assert IndexedNumber(invoices, numbers, j); }
    }
    hide Corrects, IndexedNumber;
    forall a, b | a in invoices' && b in invoices' && a != b && invoices'[a].invoiceNo == invoices'[b].invoiceNo
      ensures Corrects(invoices', numbers', a, b) || Corrects(invoices', numbers', b, a)
    {
      if a == i { PairsAfter(invoices, numbers, i, invoice, b, a); } else { PairsAfter(invoices, numbers, i, invoice, a, b); }
    }
    forall j | j in invoices' && invoices'[j].correctionOf != "" ensures Corrects(invoices', numbers', j, invoices'[j].correctionOf) {
      if j == i {
        NewPair(invoices, numbers, i, invoice);
      } else {
        if invoice.correctionOf != "" { CorrectedIsNoCorrection(invoices, numbers, i, invoice); }
        OldPairStays(invoices, numbers, i, invoice, j, invoices[j].correctionOf);
      }
    }
  }
}
