// What creating and updating an appraiser application does to the ledger,
// including the forwarding of a new fair market value to the linked mortgage
// application.

module AppraisalProperties {
  import opened Base
  import opened Keys
  import opened Records
  import opened Rules
  import opened Ledger
  import opened Steps
  import opened Invariants
  import opened HelperEffects
  import opened MortgageProperties

  /** The checks that come before any write: the argument count first, then
    * the caller's affiliation; either failure leaves the ledger as it was. */
  lemma CreateAppraiserApplicationChecks(s: State, json: Decoder, callerId: string, affiliation: int, args: seq<string>, now: string)
    ensures |args| < 2 ==> CreateAppraiserApplication(s, json, callerId, affiliation, args, now) == Step(Err(InvalidArguments), s)
    ensures |args| >= 2 && affiliation != BANK_A ==>
      CreateAppraiserApplication(s, json, callerId, affiliation, args, now) == Step(Err(Forbidden), s)
  {
  }

  /** A body that does not decode stays stored under the application's key,
    * and nothing else is written. */
  lemma CreateAppraiserApplicationKeepsUndecodable(s: State, json: Decoder, callerId: string, args: seq<string>, now: string)
    requires |args| >= 2 && json.appraiserApplication(args[1]).None?
    ensures CreateAppraiserApplication(s, json, callerId, BANK_A, args, now)
         == Step(Err(PayloadUndecodable), s[AAKey(args[0]) := Opaque])
  {
  }

  /** The steps after the registry update: the id joins the appraiser's list
    * and one "Submitted" entry is logged; documents and registries stay. */
  lemma LinkAppraiserApplicationEffect(t: State, callerId: string, aa: AppraiserApplication, id: string, now: string)
    requires WellFormed(t)
    ensures
      var aKey := UserKey(aa.appraiserId);
      var s1 := AppendToParty(t, Appraiser, aKey, aKey, AppraiserApplications, id);
      var u := AppendMALog(s1, "CreateAppraiserApplication", callerId + " Submitted new AppraiserApplication", "Submitted", id, now).state;
      && StoredAA(u, AAKey(id)) == StoredAA(t, AAKey(id))
      && StoredKeys(u, MaKeysName) == StoredKeys(t, MaKeysName)
      && StoredKeys(u, AaKeysName) == StoredKeys(t, AaKeysName)
      && ListUnder(u, aKey, AppraiserApplications) == ListUnder(t, aKey, AppraiserApplications) + [id]
      && EntriesOf(u, id)
         == EntriesOf(t, id) + [LogEntry(id, "CreateAppraiserApplication", callerId + " Submitted new AppraiserApplication", "Submitted", now)]
  {
    var aKey := UserKey(aa.appraiserId);
    AppendToPartyGrows(t, Appraiser, aa.appraiserId, AppraiserApplications, id);
    AppendToPartyFrame(t, Appraiser, aa.appraiserId, AppraiserApplications, id, id);
    var s1 := AppendToParty(t, Appraiser, aKey, aKey, AppraiserApplications, id);
    AppendMALogFrame(s1, "CreateAppraiserApplication", callerId + " Submitted new AppraiserApplication", "Submitted", id, now, id, aa.appraiserId);
  }

  /** The first two writes: the application under its key, then the
    * registry update that lands in the mortgage-application registry. */
  lemma RegisterAppraiserApplication(s: State, aa: AppraiserApplication, id: string, userId: string)
    requires WellFormed(s)
    ensures
      var k := AddKey(s[AAKey(id) := AppraiserDoc(aa)], AAKey(id), AaKeysName);
      && k.result == Ok(true)
      && WellFormed(k.state)
      && StoredAA(k.state, AAKey(id)) == Some(aa)
      && StoredKeys(k.state, MaKeysName) == Ok(StoredKeys(s, AaKeysName).value + [AAKey(id)])
      && StoredKeys(k.state, AaKeysName) == StoredKeys(s, AaKeysName)
      && ListUnder(k.state, UserKey(userId), AppraiserApplications) == ListUnder(s, UserKey(userId), AppraiserApplications)
      && EntriesOf(k.state, id) == EntriesOf(s, id)
  {
    OutsideLog(id, id);
    DocumentKeysDistinct(id, userId);
    NamesDistinct();
    PutAA(s, id, AppraiserDoc(aa));
    var s0 := s[AAKey(id) := AppraiserDoc(aa)];
    AddKeyPreserves(s0, AAKey(id), AaKeysName);
    AddKeyWritesMortgageRegistry(s0, AAKey(id), AaKeysName);
  }

  /** On a well-formed ledger a bank's decodable application is stored under
    * its key and its id joins the appraiser's list, and one "Submitted" entry
    * is logged. Its key is appended to the appraiser-application registry as
    * read, but the result lands in the mortgage-application registry: that
    * registry is replaced and the appraiser-application registry stays as it
    * was. */
  lemma CreateAppraiserApplicationEffect(s: State, json: Decoder, callerId: string, args: seq<string>, now: string)
    requires WellFormed(s)
    requires |args| >= 2 && json.appraiserApplication(args[1]).Some?
    ensures
      var id, aa := args[0], json.appraiserApplication(args[1]).value;
      var r := CreateAppraiserApplication(s, json, callerId, BANK_A, args, now);
      && r.result == Ok(NoContent)
      && StoredAA(r.state, AAKey(id)) == Some(aa)
      && StoredKeys(r.state, MaKeysName) == Ok(StoredKeys(s, AaKeysName).value + [AAKey(id)])
      && StoredKeys(r.state, AaKeysName) == StoredKeys(s, AaKeysName)
      && ListUnder(r.state, UserKey(aa.appraiserId), AppraiserApplications)
         == ListUnder(s, UserKey(aa.appraiserId), AppraiserApplications) + [id]
      && EntriesOf(r.state, id)
         == EntriesOf(s, id) + [LogEntry(id, "CreateAppraiserApplication", callerId + " Submitted new AppraiserApplication", "Submitted", now)]
  {
    var id, aa := args[0], json.appraiserApplication(args[1]).value;
    RegisterAppraiserApplication(s, aa, id, aa.appraiserId);
    LinkAppraiserApplicationEffect(AddKey(s[AAKey(id) := AppraiserDoc(aa)], AAKey(id), AaKeysName).state, callerId, aa, id, now);
  }

  /** Only the application's own appraiser may update it; every other caller,
    * a missing or unreadable application and an undecodable update are
    * refused before any write. */
  lemma UpdateAppraiserApplicationRejects(s: State, json: Decoder, callerId: string, affiliation: int, args: seq<string>, now: string)
    requires
      || |args| < 2
      || GetAppraiserApplication(s, callerId, affiliation, [args[0]]).Err?
      || callerId != StoredAA(s, AAKey(args[0])).value.appraiserId
      || json.aaUpdate(args[1]).None?
    ensures UpdateAppraiserApplication(s, json, callerId, affiliation, args, now).result.Err?
    ensures UpdateAppraiserApplication(s, json, callerId, affiliation, args, now).state == s
    ensures |args| >= 2 && GetAppraiserApplication(s, callerId, affiliation, [args[0]]).Ok?
            && callerId != StoredAA(s, AAKey(args[0])).value.appraiserId ==>
      UpdateAppraiserApplication(s, json, callerId, affiliation, args, now).result == Err(Forbidden)
  {
  }

  /** Committing an edit of a mortgage application leaves every appraiser
    * application as it was. */
  lemma CommitMAEditKeepsAppraisals(s: State, id: string, e: Edit<MortgageApplication>, now: string, docId: string)
    requires WellFormed(s)
    ensures StoredAA(CommitMAEdit(s, id, e, now).state, AAKey(docId)) == StoredAA(s, AAKey(docId))
  {
    if e.changed {
      DocumentKeysDistinct(id, docId);
      PutMA(s, id, MortgageDoc(e.doc));
      AppendMALogKeepsDocuments(s[MAKey(id) := MortgageDoc(e.doc)], "UpdateMortgageApplication", e.text, e.doc.status, id, now, docId);
    }
  }

  /** The fair market value an appraiser forwards to a mortgage application:
    * from an appraiser who does not review it, a non-zero value is taken
    * over and the new application is the answer; a zero value, or any value
    * from the application's own reviewer (whose branch reads no fair market
    * value), writes nothing. Appraiser applications stay as they were. */
  lemma ForwardFairMarketValue(s: State, json: Decoder, callerId: string, mid: string, n: int, now: string, docId: string)
    requires WellFormed(s) && DecodesFmvPatch(json) && InInt64(n)
    requires StoredMA(s, MAKey(mid)).Some?
    ensures
      var ma := StoredMA(s, MAKey(mid)).value;
      var m := UpdateMortgageApplication(s, json, callerId, APPRAISER_A, [mid, FmvPatch(n)], now);
      && WellFormed(m.state)
      && StoredAA(m.state, AAKey(docId)) == StoredAA(s, AAKey(docId))
      && (n != 0 && callerId != ma.reviewerId ==>
            m.result == Ok(MortgageApplicationReply(ma.(fairMarketValue := n)))
            && StoredMA(m.state, MAKey(mid)) == Some(ma.(fairMarketValue := n)))
      && (n == 0 || callerId == ma.reviewerId ==> m == Step(Ok(NoContent), s))
  {
    var ma := StoredMA(s, MAKey(mid)).value;
    var margs := [mid, FmvPatch(n)];
    var u := MAUpdate("", "", n, 0);
    assert json.maUpdate(margs[1]) == Some(u);
    assert GetMortgageApplication(s, callerId, AUDITOR_A, [mid]) == Ok(ma);
    if callerId == ma.reviewerId {
      assert TrimSpace(u.status) == [] && TrimSpace(u.salesContractId) == [];
      UpdateMortgageApplicationByReviewer(s, json, callerId, APPRAISER_A, margs, now);
    } else {
      UpdateMortgageApplicationByAppraiser(s, json, callerId, margs, now);
      UpdateMortgageApplicationPreserves(s, json, callerId, APPRAISER_A, margs, now);
      CommitMAEditKeepsAppraisals(s, mid, AppraiserEdit(ma, u), now, docId);
    }
  }

  /** The tail of the appraiser's update, after the edited appraisal is
    * saved: the fair market value is forwarded to the mortgage application,
    * and the entry logged for the appraisal afterwards changes no document. */
  lemma ForwardThenLog(s: State, json: Decoder, callerId: string, id: string, doc: AppraiserApplication,
                       mid: string, n: int, text: string, status: string, now: string)
    requires WellFormed(s) && DecodesFmvPatch(json) && InInt64(n)
    requires StoredMA(s, MAKey(mid)).Some?
    ensures
      var ma := StoredMA(s, MAKey(mid)).value;
      var m := UpdateMortgageApplication(s[AAKey(id) := AppraiserDoc(doc)], json, callerId, APPRAISER_A, [mid, FmvPatch(n)], now);
      var t := AppendMALog(m.state, "UpdateAppraiserApplication", text, status, id, now).state;
      && (n != 0 && callerId != ma.reviewerId ==>
            m.result == Ok(MortgageApplicationReply(ma.(fairMarketValue := n)))
            && StoredMA(t, MAKey(mid)) == Some(ma.(fairMarketValue := n)))
      && (n == 0 || callerId == ma.reviewerId ==> m.result == Ok(NoContent) && StoredMA(t, MAKey(mid)) == Some(ma))
      && StoredAA(t, AAKey(id)) == Some(doc)
      && EntriesOf(t, id) == EntriesOf(m.state, id) + [LogEntry(id, "UpdateAppraiserApplication", text, status, now)]
  {
    DocumentKeysDistinct(mid, id);
    PutAA(s, id, AppraiserDoc(doc));
    var s0 := s[AAKey(id) := AppraiserDoc(doc)];
    assert StoredMA(s0, MAKey(mid)) == StoredMA(s, MAKey(mid));
    ForwardFairMarketValue(s0, json, callerId, mid, n, now, id);
    var m := UpdateMortgageApplication(s0, json, callerId, APPRAISER_A, [mid, FmvPatch(n)], now);
    AppendMALogKeepsDocuments(m.state, "UpdateAppraiserApplication", text, status, id, now, mid);
    AppendMALogKeepsDocuments(m.state, "UpdateAppraiserApplication", text, status, id, now, id);
    AppendMALogExtendsHolder(m.state, "UpdateAppraiserApplication", text, status, id, now);
  }

  /** The appraiser's update when the linked mortgage application exists and
    * the appraiser is not its reviewer: a non-zero fair market value is
    * copied into the mortgage application, whose new form is the answer. */
  lemma UpdateAppraiserApplicationCascade(s: State, json: Decoder, callerId: string, args: seq<string>, now: string)
    requires WellFormed(s) && DecodesFmvPatch(json)
    requires |args| >= 2 && StoredAA(s, AAKey(args[0])).Some? && json.aaUpdate(args[1]).Some?
    requires callerId == StoredAA(s, AAKey(args[0])).value.appraiserId
    requires InInt64(json.aaUpdate(args[1]).value.fairMarketValue)
    requires StoredMA(s, MAKey(StoredAA(s, AAKey(args[0])).value.mortgageApplicationId)).Some?
    requires callerId != StoredMA(s, MAKey(StoredAA(s, AAKey(args[0])).value.mortgageApplicationId)).value.reviewerId
    requires json.aaUpdate(args[1]).value.fairMarketValue != 0
    ensures
      var n := json.aaUpdate(args[1]).value.fairMarketValue;
      var mid := StoredAA(s, AAKey(args[0])).value.mortgageApplicationId;
      var ma := StoredMA(s, MAKey(mid)).value;
      var r := UpdateAppraiserApplication(s, json, callerId, APPRAISER_A, args, now);
      && r.result == Ok(MortgageApplicationReply(ma.(fairMarketValue := n)))
      && StoredMA(r.state, MAKey(mid)) == Some(ma.(fairMarketValue := n))
  {
    var id, aa, u := args[0], StoredAA(s, AAKey(args[0])).value, json.aaUpdate(args[1]).value;
    var mid := aa.mortgageApplicationId;
    var e := AppraisalEdit(aa, u, callerId);
    UpdateAppraiserApplicationSteps(s, json, callerId, APPRAISER_A, args, now);
    ForwardThenLog(s, json, callerId, id, e.doc, mid, u.fairMarketValue, e.text, TrimSpace(u.status), now);
  }

  /** The mortgage application is left alone and the answer is empty when the
    * fair market value is zero, or when the appraiser is also the mortgage
    * application's reviewer: the reviewer's branch reads no fair market
    * value, so the forwarded value is dropped. */
  lemma UpdateAppraiserApplicationWithoutValue(s: State, json: Decoder, callerId: string, args: seq<string>, now: string)
    requires WellFormed(s) && DecodesFmvPatch(json)
    requires |args| >= 2 && StoredAA(s, AAKey(args[0])).Some? && json.aaUpdate(args[1]).Some?
    requires callerId == StoredAA(s, AAKey(args[0])).value.appraiserId
    requires InInt64(json.aaUpdate(args[1]).value.fairMarketValue)
    requires StoredMA(s, MAKey(StoredAA(s, AAKey(args[0])).value.mortgageApplicationId)).Some?
    requires json.aaUpdate(args[1]).value.fairMarketValue == 0
          || callerId == StoredMA(s, MAKey(StoredAA(s, AAKey(args[0])).value.mortgageApplicationId)).value.reviewerId
    ensures
      var mid := StoredAA(s, AAKey(args[0])).value.mortgageApplicationId;
      var r := UpdateAppraiserApplication(s, json, callerId, APPRAISER_A, args, now);
      && r.result == Ok(NoContent)
      && StoredMA(r.state, MAKey(mid)) == StoredMA(s, MAKey(mid))
  {
    var id, aa, u := args[0], StoredAA(s, AAKey(args[0])).value, json.aaUpdate(args[1]).value;
    var mid := aa.mortgageApplicationId;
    var e := AppraisalEdit(aa, u, callerId);
    UpdateAppraiserApplicationSteps(s, json, callerId, APPRAISER_A, args, now);
    ForwardThenLog(s, json, callerId, id, e.doc, mid, u.fairMarketValue, e.text, TrimSpace(u.status), now);
  }

  /** When the linked mortgage application exists, the appraiser application
    * takes over the given status and fair market value, and the last entry
    * of its log records the change with the trimmed status given. */
  lemma UpdateAppraiserApplicationSaves(s: State, json: Decoder, callerId: string, args: seq<string>, now: string)
    requires WellFormed(s) && DecodesFmvPatch(json)
    requires |args| >= 2 && StoredAA(s, AAKey(args[0])).Some? && json.aaUpdate(args[1]).Some?
    requires callerId == StoredAA(s, AAKey(args[0])).value.appraiserId
    requires InInt64(json.aaUpdate(args[1]).value.fairMarketValue)
    requires StoredMA(s, MAKey(StoredAA(s, AAKey(args[0])).value.mortgageApplicationId)).Some?
    ensures
      var id, aa, u := args[0], StoredAA(s, AAKey(args[0])).value, json.aaUpdate(args[1]).value;
      var e := AppraisalEdit(aa, u, callerId);
      var t := UpdateAppraiserApplication(s, json, callerId, APPRAISER_A, args, now).state;
      && StoredAA(t, AAKey(id)) == Some(e.doc)
      && |EntriesOf(t, id)| > 0
      && EntriesOf(t, id)[|EntriesOf(t, id)| - 1] == LogEntry(id, "UpdateAppraiserApplication", e.text, TrimSpace(u.status), now)
  {
    var id, aa, u := args[0], StoredAA(s, AAKey(args[0])).value, json.aaUpdate(args[1]).value;
    var mid := aa.mortgageApplicationId;
    var e := AppraisalEdit(aa, u, callerId);
    UpdateAppraiserApplicationSteps(s, json, callerId, APPRAISER_A, args, now);
    ForwardThenLog(s, json, callerId, id, e.doc, mid, u.fairMarketValue, e.text, TrimSpace(u.status), now);
  }

  /** The forwarded update never writes an appraiser application, whatever
    * it answers. */
  lemma ForwardKeepsAppraisals(s: State, json: Decoder, callerId: string, affiliation: int, margs: seq<string>, now: string, docId: string)
    requires WellFormed(s)
    ensures
      var m := UpdateMortgageApplication(s, json, callerId, affiliation, margs, now);
      && WellFormed(m.state)
      && StoredAA(m.state, AAKey(docId)) == StoredAA(s, AAKey(docId))
  {
    UpdateMortgageApplicationPreserves(s, json, callerId, affiliation, margs, now);
    if |margs| >= 2 && StoredMA(s, MAKey(margs[0])).Some? && json.maUpdate(margs[1]).Some? {
      var ma, u := StoredMA(s, MAKey(margs[0])).value, json.maUpdate(margs[1]).value;
      assert GetMortgageApplication(s, callerId, AUDITOR_A, [margs[0]]) == Ok(ma);
      var e := if callerId == ma.reviewerId then ReviewerEdit(ma, u, callerId) else AppraiserEdit(ma, u);
      CommitMAEditKeepsAppraisals(s, margs[0], e, now, docId);
    }
  }

  /** The appraiser application is saved before the fair market value is
    * forwarded, and the save stays whatever the forwarded update answers:
    * for any affiliation of the caller, when the linked mortgage
    * application is missing the operation fails and the saved appraisal is
    * all it has written, and when the caller may not update that
    * application the answer is Forbidden with the same single write. */
  lemma UpdateAppraiserApplicationSaveStays(s: State, json: Decoder, callerId: string, affiliation: int, args: seq<string>, now: string)
    requires WellFormed(s)
    requires |args| >= 2 && StoredAA(s, AAKey(args[0])).Some? && json.aaUpdate(args[1]).Some?
    requires callerId == StoredAA(s, AAKey(args[0])).value.appraiserId
    ensures
      var id, aa, u := args[0], StoredAA(s, AAKey(args[0])).value, json.aaUpdate(args[1]).value;
      var e := AppraisalEdit(aa, u, callerId);
      var saved := s[AAKey(id) := AppraiserDoc(e.doc)];
      var r := UpdateAppraiserApplication(s, json, callerId, affiliation, args, now);
      && StoredAA(r.state, AAKey(id)) == Some(e.doc)
      && (StoredMA(s, MAKey(aa.mortgageApplicationId)).None? ==> r == Step(Err(RecordUndecodable), saved))
      && (StoredMA(s, MAKey(aa.mortgageApplicationId)).Some?
          && callerId != StoredMA(s, MAKey(aa.mortgageApplicationId)).value.reviewerId
          && affiliation != APPRAISER_A
          && json.maUpdate(FmvPatch(u.fairMarketValue)).Some?
          ==> r == Step(Err(Forbidden), saved))
  {
    var id, aa, u := args[0], StoredAA(s, AAKey(args[0])).value, json.aaUpdate(args[1]).value;
    var mid := aa.mortgageApplicationId;
    var e := AppraisalEdit(aa, u, callerId);
    var saved := s[AAKey(id) := AppraiserDoc(e.doc)];
    var margs := [mid, FmvPatch(u.fairMarketValue)];
    UpdateAppraiserApplicationSteps(s, json, callerId, affiliation, args, now);
    DocumentKeysDistinct(mid, id);
    PutAA(s, id, AppraiserDoc(e.doc));
    assert StoredMA(saved, MAKey(mid)) == StoredMA(s, MAKey(mid));
    ForwardKeepsAppraisals(saved, json, callerId, affiliation, margs, now, id);
    var m := UpdateMortgageApplication(saved, json, callerId, affiliation, margs, now);
    if m.result.Ok? {
      AppendMALogKeepsDocuments(m.state, "UpdateAppraiserApplication", e.text, TrimSpace(u.status), id, now, id);
    }
    if StoredMA(s, MAKey(mid)).Some? && json.maUpdate(margs[1]).Some? {
      UpdateMortgageApplicationAccess(saved, json, callerId, affiliation, margs, now);
    }
  }
}
