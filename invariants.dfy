// The shape of a ledger the chaincode writes: every key holds the kind of
// record its prefix (or its registry name) calls for. Every operation keeps
// this shape, and in a ledger of this shape the chaincode's internal reads
// never fail: party records, registries and logs always decode.

module Invariants {
  import opened Base
  import opened Keys
  import opened Records
  import opened Rules
  import opened Ledger
  import opened Steps

  predicate IsRegistryName(key: string)
  {
    key == MaKeysName || key == AaKeysName || key == ScKeysName || key == MaLogKeysName
  }

  /** Every key holds the kind of record the chaincode stores under it:
    * documents under their prefixes (an appraiser application may hold text
    * stored before it was decoded), party records under "user:", log holders
    * under "malog:", string lists under the registry names and the
    * network-wide log under its name. Keys of other kinds are unconstrained. */
  ghost predicate WellFormed(s: State)
  {
    && (forall id :: MAKey(id) in s ==> s[MAKey(id)].MortgageDoc?)
    && (forall id :: AAKey(id) in s ==> s[AAKey(id)].AppraiserDoc? || s[AAKey(id)].Opaque?)
    && (forall id :: SCKey(id) in s ==> s[SCKey(id)].ContractDoc?)
    && (forall id :: UserKey(id) in s ==> s[UserKey(id)].PartyDoc?)
    && (forall id :: MALogKey(id) in s ==> s[MALogKey(id)].LogHolderDoc?)
    && (forall name :: IsRegistryName(name) && name in s ==> s[name].KeyListDoc?)
    && (BcLogsKey in s ==> s[BcLogsKey].LogListDoc?)
  }

  /** The characters that tell the key kinds apart: the first one and the
    * third one (':' for the two-letter prefixes, 'e' for "user:", 'l' for
    * "malog:", and 'K' or 'L' for the registry and log names). */
  lemma KeyShapes()
    ensures forall id :: |MAKey(id)| > 2 && MAKey(id)[0] == 'm' && MAKey(id)[2] == ':'
    ensures forall id :: |AAKey(id)| > 2 && AAKey(id)[0] == 'a' && AAKey(id)[2] == ':'
    ensures forall id :: |SCKey(id)| > 2 && SCKey(id)[0] == 's' && SCKey(id)[2] == ':'
    ensures forall id :: |UserKey(id)| > 2 && UserKey(id)[2] == 'e'
    ensures forall id :: |MALogKey(id)| > 2 && MALogKey(id)[2] == 'l'
    ensures forall name :: IsRegistryName(name) ==> |name| > 2 && (name[2] == 'K' || name[2] == 'L')
    ensures |BcLogsKey| > 2 && BcLogsKey[2] == 'L'
  {
  }

  /** In a well-formed ledger the registries and the log-key list always
    * read without error, and one never written reads as empty. */
  lemma RegistriesReadable(s: State, name: string)
    requires WellFormed(s) && IsRegistryName(name)
    ensures StoredKeys(s, name).Ok?
    ensures name !in s ==> StoredKeys(s, name) == Ok([])
    ensures name in s ==> StoredKeys(s, name) == Ok(s[name].keys)
  {
  }

  // ---------------------------------------------------------------------
  // Writing a record of the right kind keeps the shape

  lemma PutMA(s: State, id: string, v: Value)
    requires WellFormed(s) && v.MortgageDoc?
    ensures WellFormed(s[MAKey(id) := v])
  {
    KeyShapes();
  }

  lemma PutAA(s: State, id: string, v: Value)
    requires WellFormed(s) && (v.AppraiserDoc? || v.Opaque?)
    ensures WellFormed(s[AAKey(id) := v])
  {
    KeyShapes();
  }

  lemma PutSC(s: State, id: string, v: Value)
    requires WellFormed(s) && v.ContractDoc?
    ensures WellFormed(s[SCKey(id) := v])
  {
    KeyShapes();
  }

  lemma PutParty(s: State, userId: string, v: Value)
    requires WellFormed(s) && v.PartyDoc?
    ensures WellFormed(s[UserKey(userId) := v])
  {
    KeyShapes();
  }

  lemma PutHolder(s: State, id: string, v: Value)
    requires WellFormed(s) && v.LogHolderDoc?
    ensures WellFormed(s[MALogKey(id) := v])
  {
    KeyShapes();
  }

  lemma PutRegistry(s: State, name: string, v: Value)
    requires WellFormed(s) && IsRegistryName(name) && v.KeyListDoc?
    ensures WellFormed(s[name := v])
  {
    KeyShapes();
  }

  lemma PutBCLogs(s: State, v: Value)
    requires WellFormed(s) && v.LogListDoc?
    ensures WellFormed(s[BcLogsKey := v])
  {
    KeyShapes();
  }

  // ---------------------------------------------------------------------
  // Helpers never fail on a well-formed ledger

  lemma GetPartyPreserves(s: State, role: Role, userId: string)
    requires WellFormed(s)
    ensures GetParty(s, role, UserKey(userId)).result.Ok?
    ensures WellFormed(GetParty(s, role, UserKey(userId)).state)
  {
    PutParty(s, userId, PartyDoc(NewParty(role, UserKey(userId))));
  }

  lemma AppendToPartyPreserves(s: State, role: Role, readId: string, writeId: string, list: PartyList, id: string)
    requires WellFormed(s)
    ensures WellFormed(AppendToParty(s, role, UserKey(readId), UserKey(writeId), list, id))
  {
    GetPartyPreserves(s, role, readId);
    var g := GetParty(s, role, UserKey(readId));
    PutParty(g.state, writeId, PartyDoc(View(role, Append(g.result.value, list, id))));
  }

  /** On a well-formed ledger AddKey succeeds; it keeps the ledger's shape. */
  lemma AddKeyPreserves(s: State, id: string, keysName: string)
    requires WellFormed(s) && IsRegistryName(keysName)
    ensures AddKey(s, id, keysName).result == Ok(true)
    ensures WellFormed(AddKey(s, id, keysName).state)
  {
    var keys := StoredKeys(s, keysName);
    assert keys.Ok?;
    PutRegistry(s, MaKeysName, KeyListDoc(keys.value + [id]));
  }

  lemma GetMALogHolderPreserves(s: State, id: string)
    requires WellFormed(s)
    ensures GetMALogHolder(s, MALogKey(id)).result.Ok?
    ensures WellFormed(GetMALogHolder(s, MALogKey(id)).state)
  {
    PutHolder(s, id, LogHolderDoc([]));
  }

  /** On a well-formed ledger AppendMALog succeeds; it keeps the ledger's shape. */
  lemma AppendMALogPreserves(s: State, action: string, text: string, status: string, id: string, now: string)
    requires WellFormed(s)
    ensures AppendMALog(s, action, text, status, id, now).result == Ok(())
    ensures WellFormed(AppendMALog(s, action, text, status, id, now).state)
  {
    GetMALogHolderPreserves(s, id);
    var h := GetMALogHolder(s, MALogKey(id));
    var entry := LogEntry(id, action, text, status, now);
    PutHolder(h.state, id, LogHolderDoc(h.result.value + [entry]));
    var s1 := h.state[MALogKey(id) := LogHolderDoc(h.result.value + [entry])];
    var keys := StoredKeys(s1, MaLogKeysName);
    assert keys.Ok?;
    PutRegistry(s1, MaLogKeysName, KeyListDoc(keys.value + [MALogKey(id)]));
    var s2 := s1[MaLogKeysName := KeyListDoc(keys.value + [MALogKey(id)])];
    var logs := GetBCLogs(s2);
    assert logs.Ok?;
    PutBCLogs(s2, LogListDoc(logs.value + [entry]));
  }

  // ---------------------------------------------------------------------
  // Operations

  /** The writes of CreateMortgageApplication once its payload decodes. */
  lemma MortgageApplicationWritesPreserve(s: State, callerId: string, ma: MortgageApplication, id: string, now: string)
    requires WellFormed(s)
    ensures
      var k := AddKey(s[MAKey(id) := MortgageDoc(ma)], MAKey(id), MaKeysName);
      var s1 := AppendToParty(k.state, Buyer, UserKey(callerId), UserKey(callerId), MortgageApplications, id);
      var s2 := AppendToParty(s1, Bank, UserKey(ma.reviewerId), UserKey(ma.reviewerId), MortgageApplications, id);
      && k.result.Ok?
      && WellFormed(AppendMALog(s2, "CreateMortgageApplication", callerId + " Submitted new MortgageApplication", "Submitted", id, now).state)
  {
    PutMA(s, id, MortgageDoc(ma));
    var s0 := s[MAKey(id) := MortgageDoc(ma)];
    AddKeyPreserves(s0, MAKey(id), MaKeysName);
    var t := AddKey(s0, MAKey(id), MaKeysName).state;
    AppendToPartyPreserves(t, Buyer, callerId, callerId, MortgageApplications, id);
    var s1 := AppendToParty(t, Buyer, UserKey(callerId), UserKey(callerId), MortgageApplications, id);
    AppendToPartyPreserves(s1, Bank, ma.reviewerId, ma.reviewerId, MortgageApplications, id);
    var s2 := AppendToParty(s1, Bank, UserKey(ma.reviewerId), UserKey(ma.reviewerId), MortgageApplications, id);
    AppendMALogPreserves(s2, "CreateMortgageApplication", callerId + " Submitted new MortgageApplication", "Submitted", id, now);
  }

  lemma CreateMortgageApplicationPreserves(s: State, json: Decoder, callerId: string, args: seq<string>, now: string)
    requires WellFormed(s)
    ensures WellFormed(CreateMortgageApplication(s, json, callerId, args, now).state)
  {
    if |args| >= 2 && json.mortgageApplication(args[1]).Some? {
      CreateMortgageApplicationSteps(s, json, callerId, args, now);
      MortgageApplicationWritesPreserve(s, callerId, json.mortgageApplication(args[1]).value, args[0], now);
    }
  }

  lemma CommitMAEditPreserves(s: State, id: string, e: Edit<MortgageApplication>, now: string)
    requires WellFormed(s)
    ensures WellFormed(CommitMAEdit(s, id, e, now).state)
  {
    if e.changed {
      PutMA(s, id, MortgageDoc(e.doc));
      AppendMALogPreserves(s[MAKey(id) := MortgageDoc(e.doc)], "UpdateMortgageApplication", e.text, e.doc.status, id, now);
    }
  }

  lemma UpdateMortgageApplicationPreserves(s: State, json: Decoder, callerId: string, affiliation: int, args: seq<string>, now: string)
    requires WellFormed(s)
    ensures WellFormed(UpdateMortgageApplication(s, json, callerId, affiliation, args, now).state)
  {
    if |args| >= 2 && StoredMA(s, MAKey(args[0])).Some? && json.maUpdate(args[1]).Some? {
      var id, ma, u := args[0], StoredMA(s, MAKey(args[0])).value, json.maUpdate(args[1]).value;
      UpdateMortgageApplicationSteps(s, json, callerId, affiliation, args, now);
      CommitMAEditPreserves(s, id, ReviewerEdit(ma, u, callerId), now);
      CommitMAEditPreserves(s, id, AppraiserEdit(ma, u), now);
    }
  }

  /** The writes of CreateAppraiserApplication once its payload decodes. */
  lemma AppraiserApplicationWritesPreserve(s: State, callerId: string, aa: AppraiserApplication, id: string, now: string)
    requires WellFormed(s)
    ensures
      var k := AddKey(s[AAKey(id) := AppraiserDoc(aa)], AAKey(id), AaKeysName);
      var s1 := AppendToParty(k.state, Appraiser, UserKey(aa.appraiserId), UserKey(aa.appraiserId), AppraiserApplications, id);
      && k.result.Ok?
      && WellFormed(AppendMALog(s1, "CreateAppraiserApplication", callerId + " Submitted new AppraiserApplication", "Submitted", id, now).state)
  {
    PutAA(s, id, AppraiserDoc(aa));
    var s0 := s[AAKey(id) := AppraiserDoc(aa)];
    AddKeyPreserves(s0, AAKey(id), AaKeysName);
    var t := AddKey(s0, AAKey(id), AaKeysName).state;
    AppendToPartyPreserves(t, Appraiser, aa.appraiserId, aa.appraiserId, AppraiserApplications, id);
    var s1 := AppendToParty(t, Appraiser, UserKey(aa.appraiserId), UserKey(aa.appraiserId), AppraiserApplications, id);
    AppendMALogPreserves(s1, "CreateAppraiserApplication", callerId + " Submitted new AppraiserApplication", "Submitted", id, now);
  }

  lemma CreateAppraiserApplicationPreserves(s: State, json: Decoder, callerId: string, affiliation: int, args: seq<string>, now: string)
    requires WellFormed(s)
    ensures WellFormed(CreateAppraiserApplication(s, json, callerId, affiliation, args, now).state)
  {
    if |args| >= 2 && affiliation == BANK_A {
      var id := args[0];
      match json.appraiserApplication(args[1])
      case None =>
        PutAA(s, id, Opaque);
      case Some(aa) =>
        CreateAppraiserApplicationSteps(s, json, callerId, affiliation, args, now);
        AppraiserApplicationWritesPreserve(s, callerId, aa, id, now);
    }
  }

  lemma UpdateAppraiserApplicationPreserves(s: State, json: Decoder, callerId: string, affiliation: int, args: seq<string>, now: string)
    requires WellFormed(s)
    ensures WellFormed(UpdateAppraiserApplication(s, json, callerId, affiliation, args, now).state)
  {
    if |args| >= 2 {
      var id := args[0];
      var got := GetAppraiserApplication(s, callerId, affiliation, [id]);
      if got.Ok? && callerId == got.value.appraiserId && json.aaUpdate(args[1]).Some? {
        var u := json.aaUpdate(args[1]).value;
        var e := AppraisalEdit(got.value, u, callerId);
        UpdateAppraiserApplicationSteps(s, json, callerId, affiliation, args, now);
        PutAA(s, id, AppraiserDoc(e.doc));
        var s0 := s[AAKey(id) := AppraiserDoc(e.doc)];
        var margs := [e.doc.mortgageApplicationId, FmvPatch(u.fairMarketValue)];
        assert e.doc.mortgageApplicationId == got.value.mortgageApplicationId;
        UpdateMortgageApplicationPreserves(s0, json, callerId, affiliation, margs, now);
        var m := UpdateMortgageApplication(s0, json, callerId, affiliation, margs, now);
        AppendMALogPreserves(m.state, "UpdateAppraiserApplication", e.text, TrimSpace(u.status), id, now);
      }
    }
  }

  /** The writes of CreateSalesContract once its payload decodes. */
  lemma SalesContractWritesPreserve(s: State, rev: Revision, callerId: string, sc: SalesContract, id: string, now: string)
    requires WellFormed(s)
    ensures
      var k := AddKey(s[SCKey(id) := ContractDoc(sc)], SCKey(id), ScKeysName);
      var sellerKey, bankKey := UserKey(sc.sellerId), UserKey(sc.reviewerId);
      var s1 := AppendToParty(k.state, Seller, sellerKey, sellerKey, SalesContracts, id);
      var s2 := AppendToParty(s1, Buyer, UserKey(callerId), UserKey(callerId), SalesContracts, id);
      var s3 := AppendToParty(s2, Bank, bankKey, if rev.bankSavedUnderSellerKey then sellerKey else bankKey, SalesContracts, id);
      && k.result.Ok?
      && WellFormed(AppendMALog(s3, "CreateSalesContract", callerId + " Submitted new SalesContract", "Submitted", id, now).state)
  {
    PutSC(s, id, ContractDoc(sc));
    var s0 := s[SCKey(id) := ContractDoc(sc)];
    AddKeyPreserves(s0, SCKey(id), ScKeysName);
    var t := AddKey(s0, SCKey(id), ScKeysName).state;
    AppendToPartyPreserves(t, Seller, sc.sellerId, sc.sellerId, SalesContracts, id);
    var s1 := AppendToParty(t, Seller, UserKey(sc.sellerId), UserKey(sc.sellerId), SalesContracts, id);
    AppendToPartyPreserves(s1, Buyer, callerId, callerId, SalesContracts, id);
    var s2 := AppendToParty(s1, Buyer, UserKey(callerId), UserKey(callerId), SalesContracts, id);
    var writeId := if rev.bankSavedUnderSellerKey then sc.sellerId else sc.reviewerId;
    AppendToPartyPreserves(s2, Bank, sc.reviewerId, writeId, SalesContracts, id);
    var s3 := AppendToParty(s2, Bank, UserKey(sc.reviewerId), UserKey(writeId), SalesContracts, id);
    assert UserKey(writeId) == if rev.bankSavedUnderSellerKey then UserKey(sc.sellerId) else UserKey(sc.reviewerId);
    AppendMALogPreserves(s3, "CreateSalesContract", callerId + " Submitted new SalesContract", "Submitted", id, now);
  }

  lemma CreateSalesContractPreserves(s: State, json: Decoder, rev: Revision, callerId: string, affiliation: int, args: seq<string>, now: string)
    requires WellFormed(s)
    ensures WellFormed(CreateSalesContract(s, json, rev, callerId, affiliation, args, now).state)
  {
    if |args| >= 2 && affiliation == BUYER_A && json.salesContract(args[1]).Some? {
      CreateSalesContractSteps(s, json, rev, callerId, affiliation, args, now);
      SalesContractWritesPreserve(s, rev, callerId, json.salesContract(args[1]).value, args[0], now);
    }
  }

  lemma UpdateSalesContractPreserves(s: State, json: Decoder, rev: Revision, callerId: string, affiliation: int, args: seq<string>, now: string)
    requires WellFormed(s)
    ensures WellFormed(UpdateSalesContract(s, json, rev, callerId, affiliation, args, now).state)
  {
    if |args| >= 2 {
      var id := args[0];
      var got := GetSalesContract(s, callerId, affiliation, [id]);
      if got.Ok? && (callerId == got.value.sellerId || callerId == got.value.buyerId) && json.scUpdate(args[1]).Some? {
        var u := json.scUpdate(args[1]).value;
        var e := ContractEdit(got.value, u, rev.sellerSignatureIntoBuyer);
        UpdateSalesContractSteps(s, json, rev, callerId, affiliation, args, now);
        PutSC(s, id, ContractDoc(e.doc));
        AppendMALogPreserves(s[SCKey(id) := ContractDoc(e.doc)], "UpdateSalesContract", e.text, TrimSpace(u.status), id, now);
      }
    }
  }

  lemma CreateUserPreserves(s: State, args: seq<string>)
    requires WellFormed(s)
    ensures WellFormed(CreateUser(s, args).state)
  {
    if |args| >= 2 && TrimSpace(args[0]) != [] && TrimSpace(args[1]) != []
       && Atoi(args[1]).Some? && Atoi(args[1]).value != 0 && RoleOf(Atoi(args[1]).value).Some? {
      var role := RoleOf(Atoi(args[1]).value).value;
      CreateUserSteps(s, args, role);
      GetPartyPreserves(s, role, args[0]);
    }
  }

  lemma GetMortgageApplicationsPreserves(s: State, rev: Revision, callerId: string, affiliation: int)
    requires WellFormed(s)
    ensures WellFormed(GetMortgageApplications(s, rev, callerId, affiliation).state)
  {
    GetPartyPreserves(s, if affiliation == BUYER_A then Buyer else Bank, callerId);
  }

  lemma GetAppraiserApplicationsPreserves(s: State, rev: Revision, callerId: string, affiliation: int)
    requires WellFormed(s)
    ensures WellFormed(GetAppraiserApplications(s, rev, callerId, affiliation).state)
  {
    GetPartyPreserves(s, Appraiser, callerId);
  }

  lemma GetSalesContractsPreserves(s: State, rev: Revision, callerId: string, affiliation: int)
    requires WellFormed(s)
    ensures WellFormed(GetSalesContracts(s, rev, callerId, affiliation).state)
  {
    GetPartyPreserves(s, ContractHolder(affiliation), callerId);
  }

  lemma GetAuditorMALogsPreserves(s: State, callerId: string, affiliation: int, args: seq<string>)
    requires WellFormed(s)
    ensures WellFormed(GetAuditorMALogs(s, callerId, affiliation, args).state)
  {
    if |args| >= 1 {
      GetMALogHolderPreserves(s, args[0]);
    }
  }

  /** Every invocation keeps the ledger well formed. */
  lemma InvokePreserves(s: State, json: Decoder, rev: Revision, fname: string, args: seq<string>, cert: Certificate, now: string)
    requires WellFormed(s)
    ensures WellFormed(Invoke(s, json, rev, fname, args, cert, now).state)
  {
    var f := FunctionNamed(fname);
    if f == CreateUserFn {
      CreateUserPreserves(s, args);
    } else if f != SetupFn && Authenticate(s, rev, cert).Ok? {
      InvokeSteps(s, json, rev, fname, args, cert, now);
      WritePreserves(s, json, rev, f, Authenticate(s, rev, cert).value, args, now);
    }
  }

  /** Every write keeps the ledger well formed. */
  lemma WritePreserves(s: State, json: Decoder, rev: Revision, f: FunctionName, c: Caller, args: seq<string>, now: string)
    requires WellFormed(s)
    ensures WellFormed(Write(s, json, rev, f, c, args, now).state)
  {
    match f {
      case CreateMortgageApplicationFn => CreateMortgageApplicationPreserves(s, json, c.id, args, now);
      case UpdateMortgageApplicationFn => UpdateMortgageApplicationPreserves(s, json, c.id, c.affiliation, args, now);
      case CreateAppraiserApplicationFn => CreateAppraiserApplicationPreserves(s, json, c.id, c.affiliation, args, now);
      case UpdateAppraiserApplicationFn => UpdateAppraiserApplicationPreserves(s, json, c.id, c.affiliation, args, now);
      case CreateSalesContractFn => CreateSalesContractPreserves(s, json, rev, c.id, c.affiliation, args, now);
      case UpdateSalesContractFn => UpdateSalesContractPreserves(s, json, rev, c.id, c.affiliation, args, now);
      case _ =>
    }
  }

  /** Every query keeps the ledger well formed. */
  lemma QueryPreserves(s: State, rev: Revision, fname: string, args: seq<string>, cert: Certificate)
    requires WellFormed(s)
    ensures WellFormed(Query(s, rev, fname, args, cert).state)
  {
    var f := FunctionNamed(fname);
    if !(rev.certAttributeQuery && f == GetCertAttributeFn) && Authenticate(s, rev, cert).Ok? {
      ReadPreserves(s, rev, f, Authenticate(s, rev, cert).value, args);
    }
  }

  lemma ReadPreserves(s: State, rev: Revision, f: FunctionName, c: Caller, args: seq<string>)
    requires WellFormed(s)
    ensures WellFormed(Read(s, rev, f, c, args).state)
  {
    match f {
      case GetMortgageApplicationsFn =>
        GetMortgageApplicationsPreserves(s, rev, c.id, c.affiliation);
      case GetAppraiserApplicationsFn =>
        GetAppraiserApplicationsPreserves(s, rev, c.id, c.affiliation);
      case GetSalesContractsFn =>
        GetSalesContractsPreserves(s, rev, c.id, c.affiliation);
      case GetAuditorMALogsFn =>
        GetAuditorMALogsPreserves(s, c.id, c.affiliation, args);
      case _ =>
    }
  }
}
