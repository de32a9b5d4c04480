// What creating and updating a sales contract does to the ledger.

module ContractProperties {
  import opened Base
  import opened Keys
  import opened Records
  import opened Rules
  import opened Ledger
  import opened Steps
  import opened Invariants
  import opened HelperEffects

  /** The checks that come before any write: the argument count, then the
    * caller's affiliation, then the body; each failure leaves the ledger as
    * it was. */
  lemma CreateSalesContractChecks(s: State, json: Decoder, rev: Revision, callerId: string, affiliation: int, args: seq<string>, now: string)
    ensures |args| < 2 ==>
      CreateSalesContract(s, json, rev, callerId, affiliation, args, now) == Step(Err(InvalidArguments), s)
    ensures |args| >= 2 && affiliation != BUYER_A ==>
      CreateSalesContract(s, json, rev, callerId, affiliation, args, now) == Step(Err(Forbidden), s)
    ensures |args| >= 2 && affiliation == BUYER_A && json.salesContract(args[1]).None? ==>
      CreateSalesContract(s, json, rev, callerId, affiliation, args, now) == Step(Err(PayloadUndecodable), s)
  {
  }

  /** The first two writes: the contract under its key, then the registry
    * update that lands in the mortgage-application registry. No party
    * record and no log changes. */
  lemma RegisterSalesContract(s: State, sc: SalesContract, id: string, userId: string)
    requires WellFormed(s)
    ensures
      var k := AddKey(s[SCKey(id) := ContractDoc(sc)], SCKey(id), ScKeysName);
      && k.result == Ok(true)
      && WellFormed(k.state)
      && StoredSC(k.state, SCKey(id)) == Some(sc)
      && StoredKeys(k.state, MaKeysName) == Ok(StoredKeys(s, ScKeysName).value + [SCKey(id)])
      && StoredKeys(k.state, ScKeysName) == StoredKeys(s, ScKeysName)
      && (forall l :: ListUnder(k.state, UserKey(userId), l) == ListUnder(s, UserKey(userId), l))
      && EntriesOf(k.state, id) == EntriesOf(s, id)
  {
    OutsideLog(id, id);
    DocumentKeysDistinct(id, userId);
    NamesDistinct();
    PutSC(s, id, ContractDoc(sc));
    var s0 := s[SCKey(id) := ContractDoc(sc)];
    AddKeyPreserves(s0, SCKey(id), ScKeysName);
    AddKeyWritesMortgageRegistry(s0, SCKey(id), ScKeysName);
  }

  /** One read-append-save on a party's sales-contract list: the ledger stays
    * well formed, the party's list gains the id, and the contract, the
    * registries, the log holders and the records of two other parties stay
    * as they were. */
  lemma ContractListStep(t: State, role: Role, userId: string, id: string, other1: string, other2: string)
    requires WellFormed(t) && HasList(role, SalesContracts)
    requires other1 != userId && other2 != userId
    ensures
      var u := AppendToParty(t, role, UserKey(userId), UserKey(userId), SalesContracts, id);
      && WellFormed(u)
      && ListUnder(u, UserKey(userId), SalesContracts) == ListUnder(t, UserKey(userId), SalesContracts) + [id]
      && ListUnder(u, UserKey(other1), SalesContracts) == ListUnder(t, UserKey(other1), SalesContracts)
      && ListUnder(u, UserKey(other2), SalesContracts) == ListUnder(t, UserKey(other2), SalesContracts)
      && StoredSC(u, SCKey(id)) == StoredSC(t, SCKey(id))
      && StoredKeys(u, MaKeysName) == StoredKeys(t, MaKeysName)
      && StoredKeys(u, ScKeysName) == StoredKeys(t, ScKeysName)
      && EntriesOf(u, id) == EntriesOf(t, id)
  {
    AppendToPartyGrows(t, role, userId, SalesContracts, id);
    AppendToPartyFrame(t, role, userId, SalesContracts, id, id);
    AppendToPartyOthers(t, role, userId, SalesContracts, id, other1);
    AppendToPartyOthers(t, role, userId, SalesContracts, id, other2);
  }

  /** The closing log entry of CreateSalesContract changes no party list,
    * neither the contract nor the registries. */
  lemma ContractLogStep(t: State, callerId: string, id: string, now: string, p1: string, p2: string, p3: string)
    requires WellFormed(t)
    ensures
      var u := AppendMALog(t, "CreateSalesContract", callerId + " Submitted new SalesContract", "Submitted", id, now).state;
      && ListUnder(u, UserKey(p1), SalesContracts) == ListUnder(t, UserKey(p1), SalesContracts)
      && ListUnder(u, UserKey(p2), SalesContracts) == ListUnder(t, UserKey(p2), SalesContracts)
      && ListUnder(u, UserKey(p3), SalesContracts) == ListUnder(t, UserKey(p3), SalesContracts)
      && StoredSC(u, SCKey(id)) == StoredSC(t, SCKey(id))
      && StoredKeys(u, MaKeysName) == StoredKeys(t, MaKeysName)
      && StoredKeys(u, ScKeysName) == StoredKeys(t, ScKeysName)
      && EntriesOf(u, id) == EntriesOf(t, id) + [LogEntry(id, "CreateSalesContract", callerId + " Submitted new SalesContract", "Submitted", now)]
  {
    var text := callerId + " Submitted new SalesContract";
    AppendMALogFrame(t, "CreateSalesContract", text, "Submitted", id, now, id, p1);
    AppendMALogKeepsParties(t, "CreateSalesContract", text, "Submitted", id, now, p2);
    AppendMALogKeepsParties(t, "CreateSalesContract", text, "Submitted", id, now, p3);
  }

  /** The steps after the registry update in the current revision, for a
    * seller, a buying caller and a reviewing bank that are three different
    * parties: each one's sales-contract list gains the id, and one
    * "Submitted" entry is logged. */
  lemma LinkSalesContractEffect(k: State, rev: Revision, callerId: string, sc: SalesContract, id: string, now: string)
    requires WellFormed(k) && !rev.bankSavedUnderSellerKey
    requires sc.sellerId != callerId && sc.sellerId != sc.reviewerId && callerId != sc.reviewerId
    ensures
      var sKey, cKey, bKey := UserKey(sc.sellerId), UserKey(callerId), UserKey(sc.reviewerId);
      var s1 := AppendToParty(k, Seller, sKey, sKey, SalesContracts, id);
      var s2 := AppendToParty(s1, Buyer, cKey, cKey, SalesContracts, id);
      var s3 := AppendToParty(s2, Bank, bKey, if rev.bankSavedUnderSellerKey then sKey else bKey, SalesContracts, id);
      var u := AppendMALog(s3, "CreateSalesContract", callerId + " Submitted new SalesContract", "Submitted", id, now).state;
      && StoredSC(u, SCKey(id)) == StoredSC(k, SCKey(id))
      && StoredKeys(u, MaKeysName) == StoredKeys(k, MaKeysName)
      && StoredKeys(u, ScKeysName) == StoredKeys(k, ScKeysName)
      && ListUnder(u, sKey, SalesContracts) == ListUnder(k, sKey, SalesContracts) + [id]
      && ListUnder(u, cKey, SalesContracts) == ListUnder(k, cKey, SalesContracts) + [id]
      && ListUnder(u, bKey, SalesContracts) == ListUnder(k, bKey, SalesContracts) + [id]
      && EntriesOf(u, id) == EntriesOf(k, id) + [LogEntry(id, "CreateSalesContract", callerId + " Submitted new SalesContract", "Submitted", now)]
  {
    var sKey, cKey, bKey := UserKey(sc.sellerId), UserKey(callerId), UserKey(sc.reviewerId);
    ContractListStep(k, Seller, sc.sellerId, id, callerId, sc.reviewerId);
    var s1 := AppendToParty(k, Seller, sKey, sKey, SalesContracts, id);
    ContractListStep(s1, Buyer, callerId, id, sc.sellerId, sc.reviewerId);
    var s2 := AppendToParty(s1, Buyer, cKey, cKey, SalesContracts, id);
    ContractListStep(s2, Bank, sc.reviewerId, id, sc.sellerId, callerId);
    var s3 := AppendToParty(s2, Bank, bKey, bKey, SalesContracts, id);
    ContractLogStep(s3, callerId, id, now, sc.sellerId, callerId, sc.reviewerId);
  }

  /** In the current revision, on a well-formed ledger, a buyer's decodable
    * contract is stored under its key and its id joins the lists of the
    * seller, the buyer and the reviewing bank, and one "Submitted" entry is
    * logged. Its key is appended to the sales-contract registry as read, but
    * the result replaces the mortgage-application registry and the
    * sales-contract registry stays as it was. */
  lemma CreateSalesContractEffect(s: State, json: Decoder, rev: Revision, callerId: string, args: seq<string>, now: string)
    requires WellFormed(s) && !rev.bankSavedUnderSellerKey
    requires |args| >= 2 && json.salesContract(args[1]).Some?
    requires
      var sc := json.salesContract(args[1]).value;
      sc.sellerId != callerId && sc.sellerId != sc.reviewerId && callerId != sc.reviewerId
    ensures
      var id, sc := args[0], json.salesContract(args[1]).value;
      var r := CreateSalesContract(s, json, rev, callerId, BUYER_A, args, now);
      && r.result == Ok(NoContent)
      && StoredSC(r.state, SCKey(id)) == Some(sc)
      && StoredKeys(r.state, MaKeysName) == Ok(StoredKeys(s, ScKeysName).value + [SCKey(id)])
      && StoredKeys(r.state, ScKeysName) == StoredKeys(s, ScKeysName)
      && ListUnder(r.state, UserKey(sc.sellerId), SalesContracts) == ListUnder(s, UserKey(sc.sellerId), SalesContracts) + [id]
      && ListUnder(r.state, UserKey(callerId), SalesContracts) == ListUnder(s, UserKey(callerId), SalesContracts) + [id]
      && ListUnder(r.state, UserKey(sc.reviewerId), SalesContracts) == ListUnder(s, UserKey(sc.reviewerId), SalesContracts) + [id]
      && EntriesOf(r.state, id) == EntriesOf(s, id) + [LogEntry(id, "CreateSalesContract", callerId + " Submitted new SalesContract", "Submitted", now)]
  {
    var id, sc := args[0], json.salesContract(args[1]).value;
    RegisterSalesContract(s, sc, id, sc.sellerId);
    RegisterSalesContract(s, sc, id, callerId);
    RegisterSalesContract(s, sc, id, sc.reviewerId);
    LinkSalesContractEffect(AddKey(s[SCKey(id) := ContractDoc(sc)], SCKey(id), ScKeysName).state, rev, callerId, sc, id, now);
  }

  /** The older revision's bank step: the bank's record is read (and created
    * if absent) but saved under the seller's key, so the seller's list
    * becomes the bank's list with the id appended. */
  lemma BankSavedUnderSellerKey(t: State, sellerId: string, reviewerId: string, id: string)
    requires WellFormed(t)
    ensures
      var u := AppendToParty(t, Bank, UserKey(reviewerId), UserKey(sellerId), SalesContracts, id);
      && WellFormed(u)
      && ListUnder(u, UserKey(sellerId), SalesContracts) == ListUnder(t, UserKey(reviewerId), SalesContracts) + [id]
  {
    AppendToPartyPreserves(t, Bank, reviewerId, sellerId, SalesContracts, id);
    GetPartyLazy(t, Bank, UserKey(reviewerId));
  }

  /** The same step leaves the bank's own list, any third party's list and
    * the logs as they were. */
  lemma BankStepKeepsOthers(t: State, sellerId: string, reviewerId: string, id: string, other: string)
    requires WellFormed(t) && sellerId != reviewerId && other != sellerId
    ensures
      var u := AppendToParty(t, Bank, UserKey(reviewerId), UserKey(sellerId), SalesContracts, id);
      && ListUnder(u, UserKey(reviewerId), SalesContracts) == ListUnder(t, UserKey(reviewerId), SalesContracts)
      && ListUnder(u, UserKey(other), SalesContracts) == ListUnder(t, UserKey(other), SalesContracts)
      && EntriesOf(u, id) == EntriesOf(t, id)
  {
    var sKey, bKey, oKey := UserKey(sellerId), UserKey(reviewerId), UserKey(other);
    assert sKey != bKey && oKey != sKey by {
      assert sKey[5..] == sellerId && bKey[5..] == reviewerId && oKey[5..] == other;
    }
    OutsideLog(id, sellerId);
    OutsideLog(id, reviewerId);
    var g := GetParty(t, Bank, bKey);
    var u := AppendToParty(t, Bank, bKey, sKey, SalesContracts, id);
    assert u == g.state[sKey := PartyDoc(View(Bank, Append(g.result.GetOr(ZeroParty), SalesContracts, id)))];
    if bKey in t {
      assert g.state == t;
    } else {
      assert g.state == t[bKey := PartyDoc(NewParty(Bank, bKey))];
      assert ListUnder(u, bKey, SalesContracts) == [];
    }
  }

  /** The steps after the registry update in the older revision, for three
    * different parties. */
  lemma LinkSalesContractLegacy(k: State, rev: Revision, callerId: string, sc: SalesContract, id: string, now: string)
    requires WellFormed(k) && rev.bankSavedUnderSellerKey
    requires sc.sellerId != callerId && sc.sellerId != sc.reviewerId && callerId != sc.reviewerId
    ensures
      var sKey, cKey, bKey := UserKey(sc.sellerId), UserKey(callerId), UserKey(sc.reviewerId);
      var s1 := AppendToParty(k, Seller, sKey, sKey, SalesContracts, id);
      var s2 := AppendToParty(s1, Buyer, cKey, cKey, SalesContracts, id);
      var s3 := AppendToParty(s2, Bank, bKey, if rev.bankSavedUnderSellerKey then sKey else bKey, SalesContracts, id);
      var u := AppendMALog(s3, "CreateSalesContract", callerId + " Submitted new SalesContract", "Submitted", id, now).state;
      && ListUnder(u, sKey, SalesContracts) == ListUnder(k, bKey, SalesContracts) + [id]
      && ListUnder(u, bKey, SalesContracts) == ListUnder(k, bKey, SalesContracts)
      && ListUnder(u, cKey, SalesContracts) == ListUnder(k, cKey, SalesContracts) + [id]
  {
    var sKey, cKey, bKey := UserKey(sc.sellerId), UserKey(callerId), UserKey(sc.reviewerId);
    ContractListStep(k, Seller, sc.sellerId, id, callerId, sc.reviewerId);
    var s1 := AppendToParty(k, Seller, sKey, sKey, SalesContracts, id);
    ContractListStep(s1, Buyer, callerId, id, sc.sellerId, sc.reviewerId);
    var s2 := AppendToParty(s1, Buyer, cKey, cKey, SalesContracts, id);
    BankSavedUnderSellerKey(s2, sc.sellerId, sc.reviewerId, id);
    BankStepKeepsOthers(s2, sc.sellerId, sc.reviewerId, id, callerId);
    var s3 := AppendToParty(s2, Bank, bKey, sKey, SalesContracts, id);
    ContractLogStep(s3, callerId, id, now, sc.sellerId, callerId, sc.reviewerId);
  }

  /** In the older revision, for three different parties: the seller's list
    * ends up as the bank's old list with the id appended (the seller's own
    * append is overwritten), the bank's list does not change, and the
    * buyer's list gains the id. */
  lemma CreateSalesContractLegacyLists(s: State, json: Decoder, rev: Revision, callerId: string, args: seq<string>, now: string)
    requires WellFormed(s) && rev.bankSavedUnderSellerKey
    requires |args| >= 2 && json.salesContract(args[1]).Some?
    requires
      var sc := json.salesContract(args[1]).value;
      sc.sellerId != callerId && sc.sellerId != sc.reviewerId && callerId != sc.reviewerId
    ensures
      var id, sc := args[0], json.salesContract(args[1]).value;
      var r := CreateSalesContract(s, json, rev, callerId, BUYER_A, args, now);
      && r.result == Ok(NoContent)
      && ListUnder(r.state, UserKey(sc.sellerId), SalesContracts) == ListUnder(s, UserKey(sc.reviewerId), SalesContracts) + [id]
      && ListUnder(r.state, UserKey(sc.reviewerId), SalesContracts) == ListUnder(s, UserKey(sc.reviewerId), SalesContracts)
      && ListUnder(r.state, UserKey(callerId), SalesContracts) == ListUnder(s, UserKey(callerId), SalesContracts) + [id]
  {
    var id, sc := args[0], json.salesContract(args[1]).value;
    RegisterSalesContract(s, sc, id, callerId);
    RegisterSalesContract(s, sc, id, sc.reviewerId);
    LinkSalesContractLegacy(AddKey(s[SCKey(id) := ContractDoc(sc)], SCKey(id), ScKeysName).state, rev, callerId, sc, id, now);
  }

  /** Too few arguments, a missing or unreadable contract, a caller who is
    * neither its seller nor its buyer, or an undecodable update: an error,
    * and nothing is written. */
  lemma UpdateSalesContractRejects(s: State, json: Decoder, rev: Revision, callerId: string, affiliation: int, args: seq<string>, now: string)
    requires
      || |args| < 2
      || StoredSC(s, SCKey(args[0])).None?
      || (callerId != StoredSC(s, SCKey(args[0])).value.sellerId && callerId != StoredSC(s, SCKey(args[0])).value.buyerId)
      || json.scUpdate(args[1]).None?
    ensures UpdateSalesContract(s, json, rev, callerId, affiliation, args, now).result.Err?
    ensures UpdateSalesContract(s, json, rev, callerId, affiliation, args, now).state == s
  {
  }

  /** Who may update a stored contract: its seller and its buyer; everyone
    * else, banks and auditors included, is refused. */
  lemma UpdateSalesContractAccess(s: State, json: Decoder, rev: Revision, callerId: string, affiliation: int, args: seq<string>, now: string)
    requires |args| >= 2 && StoredSC(s, SCKey(args[0])).Some? && json.scUpdate(args[1]).Some?
    ensures
      var sc := StoredSC(s, SCKey(args[0])).value;
      UpdateSalesContract(s, json, rev, callerId, affiliation, args, now).result == Err(Forbidden)
      <==> callerId != sc.sellerId && callerId != sc.buyerId
  {
    var sc := StoredSC(s, SCKey(args[0])).value;
    if callerId == sc.sellerId || callerId == sc.buyerId {
      assert GetSalesContract(s, callerId, affiliation, [args[0]]) == Ok(sc);
    }
  }

  /** The seller's or buyer's update: the stored contract is always
    * rewritten with the edit, the rewritten contract is the answer, and one
    * entry is logged whose text joins the phrases of the fields given and
    * whose status is the trimmed status given. */
  lemma UpdateSalesContractEffect(s: State, json: Decoder, rev: Revision, callerId: string, affiliation: int, args: seq<string>, now: string)
    requires WellFormed(s)
    requires |args| >= 2 && StoredSC(s, SCKey(args[0])).Some? && json.scUpdate(args[1]).Some?
    requires callerId == StoredSC(s, SCKey(args[0])).value.sellerId || callerId == StoredSC(s, SCKey(args[0])).value.buyerId
    ensures
      var id, sc, u := args[0], StoredSC(s, SCKey(args[0])).value, json.scUpdate(args[1]).value;
      var e := ContractEdit(sc, u, rev.sellerSignatureIntoBuyer);
      var r := UpdateSalesContract(s, json, rev, callerId, affiliation, args, now);
      && r.result == Ok(SalesContractReply(e.doc))
      && StoredSC(r.state, SCKey(id)) == Some(e.doc)
      && EntriesOf(r.state, id)
         == EntriesOf(s, id) + [LogEntry(id, "UpdateSalesContract", Joined(ContractPhrases(sc, u)), TrimSpace(u.status), now)]
  {
    var id, sc, u := args[0], StoredSC(s, SCKey(args[0])).value, json.scUpdate(args[1]).value;
    var e := ContractEdit(sc, u, rev.sellerSignatureIntoBuyer);
    assert GetSalesContract(s, callerId, affiliation, [id]) == Ok(sc);
    SaveAndLogContract(s, id, e.doc, e.text, TrimSpace(u.status), now);
  }

  /** Saving a contract and then logging: the contract under its key is the
    * one saved, and the document's log gains one entry. */
  lemma SaveAndLogContract(s: State, id: string, doc: SalesContract, text: string, status: string, now: string)
    requires WellFormed(s)
    ensures
      var t := AppendMALog(s[SCKey(id) := ContractDoc(doc)], "UpdateSalesContract", text, status, id, now).state;
      && StoredSC(t, SCKey(id)) == Some(doc)
      && EntriesOf(t, id) == EntriesOf(s, id) + [LogEntry(id, "UpdateSalesContract", text, status, now)]
  {
    OutsideLog(id, id);
    PutSC(s, id, ContractDoc(doc));
    var s0 := s[SCKey(id) := ContractDoc(doc)];
    assert EntriesOf(s0, id) == EntriesOf(s, id);
    AppendMALogKeepsDocuments(s0, "UpdateSalesContract", text, status, id, now, id);
    AppendMALogExtendsHolder(s0, "UpdateSalesContract", text, status, id, now);
  }

  /** In the older revision a seller's signature is stored in the buyer's
    * signature field, and the seller's own field keeps its old value. */
  lemma UpdateSalesContractLegacySignature(s: State, json: Decoder, rev: Revision, callerId: string, affiliation: int, args: seq<string>, now: string)
    requires WellFormed(s) && rev.sellerSignatureIntoBuyer
    requires |args| >= 2 && StoredSC(s, SCKey(args[0])).Some? && json.scUpdate(args[1]).Some?
    requires callerId == StoredSC(s, SCKey(args[0])).value.sellerId || callerId == StoredSC(s, SCKey(args[0])).value.buyerId
    requires TrimSpace(json.scUpdate(args[1]).value.sellerSignature) != []
    ensures
      var sc, u := StoredSC(s, SCKey(args[0])).value, json.scUpdate(args[1]).value;
      var t := UpdateSalesContract(s, json, rev, callerId, affiliation, args, now).state;
      && StoredSC(t, SCKey(args[0])).Some?
      && StoredSC(t, SCKey(args[0])).value.buyerSignature == TrimSpace(u.sellerSignature)
      && StoredSC(t, SCKey(args[0])).value.sellerSignature == sc.sellerSignature
  {
    UpdateSalesContractEffect(s, json, rev, callerId, affiliation, args, now);
    SellerSignatureOverwritesBuyer(StoredSC(s, SCKey(args[0])).value, json.scUpdate(args[1]).value);
  }
}
