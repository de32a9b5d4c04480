// Who may read which document, and how an accepted update payload changes a
// document and what the audit log says about it. Everything here is pure:
// the ledger-facing operations in module Ledger apply these rules.

module Rules {
  import opened Base
  import opened Keys
  import opened Records

  // ---------------------------------------------------------------------
  // Read access

  /** A mortgage application is visible to its buyer, its reviewing bank
    * and any auditor. */
  predicate CanReadMA(ma: MortgageApplication, callerId: string, affiliation: int)
  {
    callerId == ma.buyerId || callerId == ma.reviewerId || affiliation == AUDITOR_A
  }

  /** An appraiser application is visible to its appraiser, its reviewer and
    * any auditor. */
  predicate CanReadAA(aa: AppraiserApplication, callerId: string, affiliation: int)
  {
    callerId == aa.appraiserId || callerId == aa.reviewerId || affiliation == AUDITOR_A
  }

  /** A sales contract is visible to its seller and buyer, to any auditor and
    * to any bank. */
  predicate CanReadSC(sc: SalesContract, callerId: string, affiliation: int)
  {
    callerId == sc.sellerId || callerId == sc.buyerId || affiliation == AUDITOR_A || affiliation == BANK_A
  }

  // ---------------------------------------------------------------------
  // Edits

  /** A document after an update, whether anything was changed, and the text
    * of the audit-log entry describing the change. */
  datatype Edit<T> = Edit(doc: T, changed: bool, text: string)

  /** The text logged when a reviewing bank updates a mortgage application:
    * one clause per field changed. The clauses after the first are glued on
    * without a separating space and start with "and". */
  function ReviewerText(callerId: string, oldStatus: string, status: string, salesContractId: string, approvedAmount: int): string
  {
    StatusClause(callerId, oldStatus, status)
    + ContractClause(callerId, status != [], salesContractId)
    + AmountClause(callerId, status != [] || salesContractId != [], approvedAmount)
  }

  function StatusClause(callerId: string, oldStatus: string, status: string): string
  {
    if status != [] then callerId + " changed status from " + oldStatus + " to " + status else ""
  }

  function ContractClause(callerId: string, follows: bool, salesContractId: string): string
  {
    if salesContractId == [] then ""
    else if follows then "and updated sales contract Id to " + salesContractId + "."
    else callerId + " updated sales contract Id to " + salesContractId + "."
  }

  function AmountClause(callerId: string, follows: bool, approvedAmount: int): string
  {
    if approvedAmount == 0 then ""
    else if follows then "and updated approved amount to " + Itoa(approvedAmount) + "."
    else callerId + " updated approved amount to " + Itoa(approvedAmount) + "."
  }

  /** The reviewing bank's update of a mortgage application: a non-blank
    * (trimmed) status, a non-blank (trimmed) sales contract id and a non-zero
    * approved amount are taken over; no other field changes. The edit counts
    * as a change exactly when one of the three was given. */
  function ReviewerEdit(ma: MortgageApplication, u: MAUpdate, callerId: string): (e: Edit<MortgageApplication>)
    ensures e.doc == ma.(status := e.doc.status, salesContractId := e.doc.salesContractId, approvedAmount := e.doc.approvedAmount)
    ensures e.doc.status == if TrimSpace(u.status) != [] then TrimSpace(u.status) else ma.status
    ensures e.doc.salesContractId == if TrimSpace(u.salesContractId) != [] then TrimSpace(u.salesContractId) else ma.salesContractId
    ensures e.doc.approvedAmount == if u.approvedAmount != 0 then u.approvedAmount else ma.approvedAmount
    ensures e.changed <==> TrimSpace(u.status) != [] || TrimSpace(u.salesContractId) != [] || u.approvedAmount != 0
    ensures !e.changed ==> e.doc == ma
  {
    var status := TrimSpace(u.status);
    var contract := TrimSpace(u.salesContractId);
    var amount := u.approvedAmount;
    var doc := ma.(
      status := if status != [] then status else ma.status,
      salesContractId := if contract != [] then contract else ma.salesContractId,
      approvedAmount := if amount != 0 then amount else ma.approvedAmount);
    Edit(doc, status != [] || contract != [] || amount != 0, ReviewerText(callerId, ma.status, status, contract, amount))
  }

  /** An appraiser's update of a mortgage application: only a non-zero fair
    * market value is taken over, and the log text is empty. */
  function AppraiserEdit(ma: MortgageApplication, u: MAUpdate): (e: Edit<MortgageApplication>)
    ensures e.doc == ma.(fairMarketValue := e.doc.fairMarketValue)
    ensures e.changed <==> u.fairMarketValue != 0
    ensures e.doc.fairMarketValue == if e.changed then u.fairMarketValue else ma.fairMarketValue
    ensures e.text == []
  {
    if u.fairMarketValue != 0 then Edit(ma.(fairMarketValue := u.fairMarketValue), true, "")
    else Edit(ma, false, "")
  }

  /** The text logged when an appraiser updates an appraiser application. */
  function AppraisalText(callerId: string, oldStatus: string, status: string, fairMarketValue: int): string
  {
    if status != [] && fairMarketValue != 0 then
      callerId + " changed status from " + oldStatus + " to " + status + " and updated fair market value: " + Itoa(fairMarketValue)
    else if status != [] then
      callerId + " changed status from " + oldStatus + " to " + status
    else if fairMarketValue != 0 then
      callerId + " updated fair market value: " + Itoa(fairMarketValue)
    else ""
  }

  /** The appraiser's update of an appraiser application: a non-blank
    * (trimmed) status and a non-zero fair market value are taken over and no
    * other field changes; the log text names the caller first exactly when
    * something was given, and is empty otherwise. */
  function AppraisalEdit(aa: AppraiserApplication, u: AAUpdate, callerId: string): (e: Edit<AppraiserApplication>)
    ensures e.doc == aa.(status := e.doc.status, fairMarketValue := e.doc.fairMarketValue)
    ensures e.doc.status == if TrimSpace(u.status) != [] then TrimSpace(u.status) else aa.status
    ensures e.doc.fairMarketValue == if u.fairMarketValue != 0 then u.fairMarketValue else aa.fairMarketValue
    ensures e.changed <==> TrimSpace(u.status) != [] || u.fairMarketValue != 0
    ensures e.changed ==> callerId <= e.text
    ensures !e.changed <==> e.text == []
  {
    var status := TrimSpace(u.status);
    var fmv := u.fairMarketValue;
    var doc := aa.(
      status := if status != [] then status else aa.status,
      fairMarketValue := if fmv != 0 then fmv else aa.fairMarketValue);
    Edit(doc, status != [] || fmv != 0, AppraisalText(callerId, aa.status, status, fmv))
  }

  /** The audit phrases of a sales-contract update, in the order status,
    * buyer signature, seller signature, price; one per field given. */
  function ContractPhrases(sc: SalesContract, u: SCUpdate): seq<string>
  {
    var status := TrimSpace(u.status);
    (if status != [] then ["changed status from " + sc.status + " to " + status] else [])
    + (if TrimSpace(u.buyerSignature) != [] then ["Buyer: " + sc.buyerId + " Signed"] else [])
    + (if TrimSpace(u.sellerSignature) != [] then ["Seller: " + sc.sellerId + " Signed"] else [])
    + (if u.price != 0 then ["Price updated to: " + Itoa(u.price)] else [])
  }

  /** The phrases joined, each preceded by one space. */
  function Joined(phrases: seq<string>): string
  {
    if phrases == [] then "" else Joined(phrases[..|phrases| - 1]) + " " + phrases[|phrases| - 1]
  }

  /** The message loop of UpdateSalesContract. */
  method JoinPhrases(phrases: seq<string>) returns (msg: string)
    ensures msg == Joined(phrases)
  {
    msg := "";
    var i := 0;
    while i < |phrases|
      invariant 0 <= i <= |phrases|
      invariant msg == Joined(phrases[..i])
    {
      assert phrases[..i + 1][..i] == phrases[..i];
      msg := msg + " " + phrases[i];
      i := i + 1;
    }
    assert phrases[..i] == phrases;
  }

  /** A buyer's or seller's update of a sales contract: a non-blank (trimmed)
    * status, buyer signature and seller signature and a non-zero price are
    * taken over and nothing else changes. When sellerIntoBuyer holds (the
    * older revision), the seller's signature lands in the buyer-signature
    * field. The edit always counts as a change: the contract is rewritten. */
  function ContractEdit(sc: SalesContract, u: SCUpdate, sellerIntoBuyer: bool): (e: Edit<SalesContract>)
    ensures e.doc == sc.(status := e.doc.status, buyerSignature := e.doc.buyerSignature,
                         sellerSignature := e.doc.sellerSignature, price := e.doc.price)
    ensures e.doc.status == if TrimSpace(u.status) != [] then TrimSpace(u.status) else sc.status
    ensures e.doc.price == if u.price != 0 then u.price else sc.price
    ensures !sellerIntoBuyer ==>
      e.doc.buyerSignature == (if TrimSpace(u.buyerSignature) != [] then TrimSpace(u.buyerSignature) else sc.buyerSignature)
      && e.doc.sellerSignature == (if TrimSpace(u.sellerSignature) != [] then TrimSpace(u.sellerSignature) else sc.sellerSignature)
    ensures sellerIntoBuyer ==>
      e.doc.buyerSignature == (if TrimSpace(u.sellerSignature) != [] then TrimSpace(u.sellerSignature)
                               else if TrimSpace(u.buyerSignature) != [] then TrimSpace(u.buyerSignature)
                               else sc.buyerSignature)
      && e.doc.sellerSignature == sc.sellerSignature
    ensures e.changed
    ensures e.text == Joined(ContractPhrases(sc, u))
  {
    var status := TrimSpace(u.status);
    var bs := TrimSpace(u.buyerSignature);
    var ss := TrimSpace(u.sellerSignature);
    var s1 := if status != [] then sc.(status := status) else sc;
    var s2 := if bs != [] then s1.(buyerSignature := bs) else s1;
    var s3 :=
      if ss == [] then s2
      else if sellerIntoBuyer then s2.(buyerSignature := ss)
      else s2.(sellerSignature := ss);
    var s4 := if u.price != 0 then s3.(price := u.price) else s3;
    Edit(s4, true, Joined(ContractPhrases(sc, u)))
  }

  /** In the older revision a seller's signature overwrites the buyer's. */
  lemma SellerSignatureOverwritesBuyer(sc: SalesContract, u: SCUpdate)
    requires TrimSpace(u.sellerSignature) != []
    ensures ContractEdit(sc, u, true).doc.buyerSignature == TrimSpace(u.sellerSignature)
    ensures ContractEdit(sc, u, true).doc.sellerSignature == sc.sellerSignature
  {
  }

  lemma ClauseLeads(callerId: string, rest: string, tail: string)
    ensures callerId <= callerId + rest + tail
  {
    assert (callerId + rest + tail)[..|callerId|] == callerId;
  }

  lemma PrefixTrans(a: string, b: string, c: string)
    requires a <= b
    ensures a <= b + c
  {
    assert (b + c)[..|b|] == b;
  }

  lemma StatusClauseLeads(callerId: string, oldStatus: string, status: string)
    ensures status != [] ==> callerId <= StatusClause(callerId, oldStatus, status)
    ensures status == [] ==> StatusClause(callerId, oldStatus, status) == []
  {
    if status != [] {
      var rest := " changed status from " + oldStatus + " to " + status;
      assert StatusClause(callerId, oldStatus, status) == callerId + rest + [];
      ClauseLeads(callerId, rest, []);
    }
  }

  lemma ContractClauseLeads(callerId: string, salesContractId: string)
    ensures salesContractId != [] ==> callerId <= ContractClause(callerId, false, salesContractId)
  {
    if salesContractId != [] {
      var rest := " updated sales contract Id to " + salesContractId;
      assert ContractClause(callerId, false, salesContractId) == callerId + rest + ".";
      ClauseLeads(callerId, rest, ".");
    }
  }

  lemma AmountClauseLeads(callerId: string, approvedAmount: int)
    ensures approvedAmount != 0 ==> callerId <= AmountClause(callerId, false, approvedAmount)
  {
    if approvedAmount != 0 {
      var rest := " updated approved amount to " + Itoa(approvedAmount);
      assert AmountClause(callerId, false, approvedAmount) == callerId + rest + ".";
      ClauseLeads(callerId, rest, ".");
    }
  }

  /** The reviewer's log text names the caller first whenever something was
    * changed, and is empty when nothing was. */
  lemma ReviewerTextAttributed(callerId: string, oldStatus: string, status: string, salesContractId: string, approvedAmount: int)
    ensures status != [] || salesContractId != [] || approvedAmount != 0 ==>
      callerId <= ReviewerText(callerId, oldStatus, status, salesContractId, approvedAmount)
    ensures status == [] && salesContractId == [] && approvedAmount == 0 ==>
      ReviewerText(callerId, oldStatus, status, salesContractId, approvedAmount) == []
  {
    var sp := StatusClause(callerId, oldStatus, status);
    var cp := ContractClause(callerId, status != [], salesContractId);
    var ap := AmountClause(callerId, status != [] || salesContractId != [], approvedAmount);
    StatusClauseLeads(callerId, oldStatus, status);
    if status != [] {
      PrefixTrans(callerId, sp, cp + ap);
      assert sp + cp + ap == sp + (cp + ap);
    } else if salesContractId != [] {
      ContractClauseLeads(callerId, salesContractId);
      PrefixTrans(callerId, cp, ap);
      assert sp + cp + ap == cp + ap;
    } else if approvedAmount != 0 {
      AmountClauseLeads(callerId, approvedAmount);
      assert sp + cp + ap == ap;
    }
  }
}
