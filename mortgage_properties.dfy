// What creating and updating a mortgage application does to the ledger.

module MortgageProperties {
  import opened Base
  import opened Keys
  import opened Records
  import opened Rules
  import opened Ledger
  import opened Steps
  import opened Invariants
  import opened HelperEffects

  /** Too few arguments or a body that does not decode: an error, and
    * nothing is written. */
  lemma CreateMortgageApplicationRejects(s: State, json: Decoder, callerId: string, args: seq<string>, now: string)
    requires |args| < 2 || json.mortgageApplication(args[1]).None?
    ensures CreateMortgageApplication(s, json, callerId, args, now).result.Err?
    ensures CreateMortgageApplication(s, json, callerId, args, now).state == s
  {
  }

  /** The first two writes: the application under its key, then its key
    * appended to the mortgage-application registry. No party record and no
    * log changes. */
  lemma RegisterMortgageApplication(s: State, ma: MortgageApplication, id: string, userId: string)
    requires WellFormed(s)
    ensures
      var k := AddKey(s[MAKey(id) := MortgageDoc(ma)], MAKey(id), MaKeysName);
      && k.result == Ok(true)
      && WellFormed(k.state)
      && StoredMA(k.state, MAKey(id)) == Some(ma)
      && StoredKeys(k.state, MaKeysName) == Ok(StoredKeys(s, MaKeysName).value + [MAKey(id)])
      && ListUnder(k.state, UserKey(userId), MortgageApplications) == ListUnder(s, UserKey(userId), MortgageApplications)
      && EntriesOf(k.state, id) == EntriesOf(s, id)
  {
    OutsideLog(id, id);
    DocumentKeysDistinct(id, userId);
    PutMA(s, id, MortgageDoc(ma));
    var s0 := s[MAKey(id) := MortgageDoc(ma)];
    AddKeyPreserves(s0, MAKey(id), MaKeysName);
    AddKeyWritesMortgageRegistry(s0, MAKey(id), MaKeysName);
  }

  /** One read-append-save on a party's mortgage-application list: the
    * ledger stays well formed, the list gains the id, and the application,
    * the registry and the log holder stay as they were. */
  lemma MortgageListStep(t: State, role: Role, userId: string, id: string)
    requires WellFormed(t) && HasList(role, MortgageApplications)
    ensures
      var u := AppendToParty(t, role, UserKey(userId), UserKey(userId), MortgageApplications, id);
      && WellFormed(u)
      && ListUnder(u, UserKey(userId), MortgageApplications) == ListUnder(t, UserKey(userId), MortgageApplications) + [id]
      && StoredMA(u, MAKey(id)) == StoredMA(t, MAKey(id))
      && StoredKeys(u, MaKeysName) == StoredKeys(t, MaKeysName)
      && EntriesOf(u, id) == EntriesOf(t, id)
  {
    AppendToPartyGrows(t, role, userId, MortgageApplications, id);
    AppendToPartyFrame(t, role, userId, MortgageApplications, id, id);
  }

  /** The two list steps of CreateMortgageApplication: the id joins the
    * caller's list and then the reviewer's (twice the same list when they
    * are the same party); the application, the registry and the log holder
    * stay as they were. */
  lemma MortgageListsStep(t: State, callerId: string, reviewerId: string, id: string)
    requires WellFormed(t)
    ensures
      var cKey, rKey := UserKey(callerId), UserKey(reviewerId);
      var s1 := AppendToParty(t, Buyer, cKey, cKey, MortgageApplications, id);
      var s2 := AppendToParty(s1, Bank, rKey, rKey, MortgageApplications, id);
      && WellFormed(s2)
      && StoredMA(s2, MAKey(id)) == StoredMA(t, MAKey(id))
      && StoredKeys(s2, MaKeysName) == StoredKeys(t, MaKeysName)
      && EntriesOf(s2, id) == EntriesOf(t, id)
      && ListUnder(s2, cKey, MortgageApplications)
         == ListUnder(t, cKey, MortgageApplications) + (if callerId == reviewerId then [id, id] else [id])
      && (callerId != reviewerId ==>
            ListUnder(s2, rKey, MortgageApplications) == ListUnder(t, rKey, MortgageApplications) + [id])
  {
    var cKey, rKey := UserKey(callerId), UserKey(reviewerId);
    MortgageListStep(t, Buyer, callerId, id);
    var s1 := AppendToParty(t, Buyer, cKey, cKey, MortgageApplications, id);
    MortgageListStep(s1, Bank, reviewerId, id);
    if callerId != reviewerId {
      AppendToPartyOthers(t, Buyer, callerId, MortgageApplications, id, reviewerId);
      AppendToPartyOthers(s1, Bank, reviewerId, MortgageApplications, id, callerId);
    } else {
      assert ListUnder(t, cKey, MortgageApplications) + [id] + [id] == ListUnder(t, cKey, MortgageApplications) + [id, id];
    }
  }

  /** The steps after the registry update: the two list steps, then one
    * "Submitted" entry logged. Nothing else changes for the document or the
    * registry. */
  lemma LinkMortgageApplicationEffect(t: State, callerId: string, ma: MortgageApplication, id: string, now: string)
    requires WellFormed(t)
    ensures
      var cKey, rKey := UserKey(callerId), UserKey(ma.reviewerId);
      var s1 := AppendToParty(t, Buyer, cKey, cKey, MortgageApplications, id);
      var s2 := AppendToParty(s1, Bank, rKey, rKey, MortgageApplications, id);
      var u := AppendMALog(s2, "CreateMortgageApplication", callerId + " Submitted new MortgageApplication", "Submitted", id, now).state;
      && StoredMA(u, MAKey(id)) == StoredMA(t, MAKey(id))
      && StoredKeys(u, MaKeysName) == StoredKeys(t, MaKeysName)
      && ListUnder(u, cKey, MortgageApplications)
         == ListUnder(t, cKey, MortgageApplications) + (if callerId == ma.reviewerId then [id, id] else [id])
      && (callerId != ma.reviewerId ==>
            ListUnder(u, rKey, MortgageApplications) == ListUnder(t, rKey, MortgageApplications) + [id])
      && EntriesOf(u, id)
         == EntriesOf(t, id) + [LogEntry(id, "CreateMortgageApplication", callerId + " Submitted new MortgageApplication", "Submitted", now)]
  {
    var cKey, rKey := UserKey(callerId), UserKey(ma.reviewerId);
    MortgageListsStep(t, callerId, ma.reviewerId, id);
    var s1 := AppendToParty(t, Buyer, cKey, cKey, MortgageApplications, id);
    var s2 := AppendToParty(s1, Bank, rKey, rKey, MortgageApplications, id);
    var text := callerId + " Submitted new MortgageApplication";
    AppendMALogFrame(s2, "CreateMortgageApplication", text, "Submitted", id, now, id, callerId);
    AppendMALogKeepsParties(s2, "CreateMortgageApplication", text, "Submitted", id, now, ma.reviewerId);
  }

  /** On a well-formed ledger a decodable application is stored under its
    * key, the key joins the mortgage-application registry, the id joins the
    * caller's and the reviewer's lists, and one "Submitted" entry is logged. */
  lemma CreateMortgageApplicationEffect(s: State, json: Decoder, callerId: string, args: seq<string>, now: string)
    requires WellFormed(s)
    requires |args| >= 2 && json.mortgageApplication(args[1]).Some?
    ensures
      var id, ma := args[0], json.mortgageApplication(args[1]).value;
      var r := CreateMortgageApplication(s, json, callerId, args, now);
      && r.result == Ok(NoContent)
      && StoredMA(r.state, MAKey(id)) == Some(ma)
      && StoredKeys(r.state, MaKeysName) == Ok(StoredKeys(s, MaKeysName).value + [MAKey(id)])
      && ListUnder(r.state, UserKey(callerId), MortgageApplications)
         == ListUnder(s, UserKey(callerId), MortgageApplications) + (if callerId == ma.reviewerId then [id, id] else [id])
      && (callerId != ma.reviewerId ==>
            ListUnder(r.state, UserKey(ma.reviewerId), MortgageApplications)
            == ListUnder(s, UserKey(ma.reviewerId), MortgageApplications) + [id])
      && EntriesOf(r.state, id)
         == EntriesOf(s, id) + [LogEntry(id, "CreateMortgageApplication", callerId + " Submitted new MortgageApplication", "Submitted", now)]
  {
    var id, ma := args[0], json.mortgageApplication(args[1]).value;
    CreateMortgageApplicationSteps(s, json, callerId, args, now);
    RegisterMortgageApplication(s, ma, id, callerId);
    RegisterMortgageApplication(s, ma, id, ma.reviewerId);
    LinkMortgageApplicationEffect(AddKey(s[MAKey(id) := MortgageDoc(ma)], MAKey(id), MaKeysName).state, callerId, ma, id, now);
  }

  /** Too few arguments, a missing application or an undecodable update:
    * an error, and nothing is written. */
  lemma UpdateMortgageApplicationRejects(s: State, json: Decoder, callerId: string, affiliation: int, args: seq<string>, now: string)
    requires |args| < 2 || StoredMA(s, MAKey(args[0])).None? || json.maUpdate(args[1]).None?
    ensures UpdateMortgageApplication(s, json, callerId, affiliation, args, now).result.Err?
    ensures UpdateMortgageApplication(s, json, callerId, affiliation, args, now).state == s
  {
  }

  /** A stored edit: the document under its key becomes the edited one and
    * one entry with the edit's text and the document's new status is logged;
    * an edit that changed nothing writes nothing. */
  lemma CommitMAEditEffect(s: State, id: string, e: Edit<MortgageApplication>, now: string)
    requires WellFormed(s)
    ensures !e.changed ==> CommitMAEdit(s, id, e, now) == Step(Ok(NoContent), s)
    ensures e.changed ==>
      var r := CommitMAEdit(s, id, e, now);
      && r.result == Ok(MortgageApplicationReply(e.doc))
      && StoredMA(r.state, MAKey(id)) == Some(e.doc)
      && EntriesOf(r.state, id) == EntriesOf(s, id) + [LogEntry(id, "UpdateMortgageApplication", e.text, e.doc.status, now)]
  {
    if e.changed {
      OutsideLog(id, id);
      PutMA(s, id, MortgageDoc(e.doc));
      var s0 := s[MAKey(id) := MortgageDoc(e.doc)];
      assert EntriesOf(s0, id) == EntriesOf(s, id);
      AppendMALogEffect(s0, "UpdateMortgageApplication", e.text, e.doc.status, id, now);
    }
  }

  /** Who may update a stored application: its reviewer, or any other
    * appraiser; everyone else is refused and nothing is written. */
  lemma UpdateMortgageApplicationAccess(s: State, json: Decoder, callerId: string, affiliation: int, args: seq<string>, now: string)
    requires |args| >= 2 && StoredMA(s, MAKey(args[0])).Some? && json.maUpdate(args[1]).Some?
    ensures
      var r := UpdateMortgageApplication(s, json, callerId, affiliation, args, now);
      var ma := StoredMA(s, MAKey(args[0])).value;
      && (r.result == Err(Forbidden) <==> callerId != ma.reviewerId && affiliation != APPRAISER_A)
      && (r.result == Err(Forbidden) ==> r.state == s)
  {
    var id := args[0];
    var ma := StoredMA(s, MAKey(id)).value;
    assert GetMortgageApplication(s, callerId, AUDITOR_A, [id]) == Ok(ma);
  }

  /** The reviewing bank's update: the stored application takes over the
    * given status, sales contract id and approved amount and nothing else,
    * and the change is logged; when none of the three is given nothing is
    * written and the answer is empty. */
  lemma UpdateMortgageApplicationByReviewer(s: State, json: Decoder, callerId: string, affiliation: int, args: seq<string>, now: string)
    requires WellFormed(s)
    requires |args| >= 2 && StoredMA(s, MAKey(args[0])).Some? && json.maUpdate(args[1]).Some?
    requires callerId == StoredMA(s, MAKey(args[0])).value.reviewerId
    ensures
      var ma, u := StoredMA(s, MAKey(args[0])).value, json.maUpdate(args[1]).value;
      var r := UpdateMortgageApplication(s, json, callerId, affiliation, args, now);
      var e := ReviewerEdit(ma, u, callerId);
      && (!e.changed ==> r == Step(Ok(NoContent), s))
      && (e.changed ==>
            && r.result == Ok(MortgageApplicationReply(e.doc))
            && StoredMA(r.state, MAKey(args[0])) == Some(e.doc)
            && e.doc == ma.(status := e.doc.status, salesContractId := e.doc.salesContractId, approvedAmount := e.doc.approvedAmount)
            && EntriesOf(r.state, args[0]) == EntriesOf(s, args[0]) + [LogEntry(args[0], "UpdateMortgageApplication", e.text, e.doc.status, now)])
  {
    var id := args[0];
    var ma, u := StoredMA(s, MAKey(id)).value, json.maUpdate(args[1]).value;
    assert GetMortgageApplication(s, callerId, AUDITOR_A, [id]) == Ok(ma);
    CommitMAEditEffect(s, id, ReviewerEdit(ma, u, callerId), now);
  }

  /** An appraiser who is not the reviewer may change only the fair market
    * value, and only to a non-zero one; the change is logged with an empty
    * text. A zero value writes nothing. */
  lemma UpdateMortgageApplicationByAppraiser(s: State, json: Decoder, callerId: string, args: seq<string>, now: string)
    requires WellFormed(s)
    requires |args| >= 2 && StoredMA(s, MAKey(args[0])).Some? && json.maUpdate(args[1]).Some?
    requires callerId != StoredMA(s, MAKey(args[0])).value.reviewerId
    ensures
      var ma, u := StoredMA(s, MAKey(args[0])).value, json.maUpdate(args[1]).value;
      var r := UpdateMortgageApplication(s, json, callerId, APPRAISER_A, args, now);
      && (u.fairMarketValue == 0 ==> r == Step(Ok(NoContent), s))
      && (u.fairMarketValue != 0 ==>
            && r.result == Ok(MortgageApplicationReply(ma.(fairMarketValue := u.fairMarketValue)))
            && StoredMA(r.state, MAKey(args[0])) == Some(ma.(fairMarketValue := u.fairMarketValue))
            && EntriesOf(r.state, args[0]) == EntriesOf(s, args[0]) + [LogEntry(args[0], "UpdateMortgageApplication", "", ma.status, now)])
  {
    var id := args[0];
    var ma, u := StoredMA(s, MAKey(id)).value, json.maUpdate(args[1]).value;
    assert GetMortgageApplication(s, callerId, AUDITOR_A, [id]) == Ok(ma);
    CommitMAEditEffect(s, id, AppraiserEdit(ma, u), now);
  }
}
