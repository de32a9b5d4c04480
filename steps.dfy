// Each operation, once its checks pass, written as the sequence of helper
// calls it performs. The lemmas here only unfold the definitions; the
// properties in the other modules are proved about these sequences.

module Steps {
  import opened Base
  import opened Keys
  import opened Records
  import opened Rules
  import opened Ledger

  /** CreateMortgageApplication with enough arguments and a decodable body. */
  lemma CreateMortgageApplicationSteps(s: State, json: Decoder, callerId: string, args: seq<string>, now: string)
    requires |args| >= 2 && json.mortgageApplication(args[1]).Some?
    ensures
      var id, ma := args[0], json.mortgageApplication(args[1]).value;
      var k := AddKey(s[MAKey(id) := MortgageDoc(ma)], MAKey(id), MaKeysName);
      var s1 := AppendToParty(k.state, Buyer, UserKey(callerId), UserKey(callerId), MortgageApplications, id);
      var s2 := AppendToParty(s1, Bank, UserKey(ma.reviewerId), UserKey(ma.reviewerId), MortgageApplications, id);
      CreateMortgageApplication(s, json, callerId, args, now)
        == if k.result.Err? then Step(Err(k.result.error), k.state)
           else Step(Ok(NoContent), AppendMALog(s2, "CreateMortgageApplication", callerId + " Submitted new MortgageApplication", "Submitted", id, now).state)
  {
  }

  /** UpdateMortgageApplication on a stored application with a decodable
    * update: the reviewer's edit, an appraiser's edit, or a refusal. */
  lemma UpdateMortgageApplicationSteps(s: State, json: Decoder, callerId: string, affiliation: int, args: seq<string>, now: string)
    requires |args| >= 2 && StoredMA(s, MAKey(args[0])).Some? && json.maUpdate(args[1]).Some?
    ensures
      var id, ma, u := args[0], StoredMA(s, MAKey(args[0])).value, json.maUpdate(args[1]).value;
      UpdateMortgageApplication(s, json, callerId, affiliation, args, now)
        == if callerId == ma.reviewerId then CommitMAEdit(s, id, ReviewerEdit(ma, u, callerId), now)
           else if affiliation == APPRAISER_A then CommitMAEdit(s, id, AppraiserEdit(ma, u), now)
           else Step(Err(Forbidden), s)
  {
  }

  /** CreateAppraiserApplication by a bank with a decodable body. */
  lemma CreateAppraiserApplicationSteps(s: State, json: Decoder, callerId: string, affiliation: int, args: seq<string>, now: string)
    requires |args| >= 2 && affiliation == BANK_A && json.appraiserApplication(args[1]).Some?
    ensures
      var id, aa := args[0], json.appraiserApplication(args[1]).value;
      var k := AddKey(s[AAKey(id) := AppraiserDoc(aa)], AAKey(id), AaKeysName);
      var s1 := AppendToParty(k.state, Appraiser, UserKey(aa.appraiserId), UserKey(aa.appraiserId), AppraiserApplications, id);
      CreateAppraiserApplication(s, json, callerId, affiliation, args, now)
        == if k.result.Err? then Step(Err(k.result.error), k.state)
           else Step(Ok(NoContent), AppendMALog(s1, "CreateAppraiserApplication", callerId + " Submitted new AppraiserApplication", "Submitted", id, now).state)
  {
  }

  /** UpdateAppraiserApplication by the application's appraiser with a
    * decodable update: the application is saved, the fair market value is
    * forwarded, and the change is logged unless the forwarded update failed. */
  lemma UpdateAppraiserApplicationSteps(s: State, json: Decoder, callerId: string, affiliation: int, args: seq<string>, now: string)
    requires |args| >= 2 && StoredAA(s, AAKey(args[0])).Some?
    requires callerId == StoredAA(s, AAKey(args[0])).value.appraiserId && json.aaUpdate(args[1]).Some?
    ensures
      var id, aa, u := args[0], StoredAA(s, AAKey(args[0])).value, json.aaUpdate(args[1]).value;
      var e := AppraisalEdit(aa, u, callerId);
      var m := UpdateMortgageApplication(s[AAKey(id) := AppraiserDoc(e.doc)], json, callerId, affiliation,
                                         [aa.mortgageApplicationId, FmvPatch(u.fairMarketValue)], now);
      UpdateAppraiserApplication(s, json, callerId, affiliation, args, now)
        == if m.result.Err? then m
           else Step(m.result, AppendMALog(m.state, "UpdateAppraiserApplication", e.text, TrimSpace(u.status), id, now).state)
  {
  }

  /** CreateSalesContract by a buyer with a decodable body. */
  lemma CreateSalesContractSteps(s: State, json: Decoder, rev: Revision, callerId: string, affiliation: int, args: seq<string>, now: string)
    requires |args| >= 2 && affiliation == BUYER_A && json.salesContract(args[1]).Some?
    ensures
      var id, sc := args[0], json.salesContract(args[1]).value;
      var k := AddKey(s[SCKey(id) := ContractDoc(sc)], SCKey(id), ScKeysName);
      var sellerKey, bankKey := UserKey(sc.sellerId), UserKey(sc.reviewerId);
      var s1 := AppendToParty(k.state, Seller, sellerKey, sellerKey, SalesContracts, id);
      var s2 := AppendToParty(s1, Buyer, UserKey(callerId), UserKey(callerId), SalesContracts, id);
      var s3 := AppendToParty(s2, Bank, bankKey, if rev.bankSavedUnderSellerKey then sellerKey else bankKey, SalesContracts, id);
      CreateSalesContract(s, json, rev, callerId, affiliation, args, now)
        == if k.result.Err? then Step(Err(k.result.error), k.state)
           else Step(Ok(NoContent), AppendMALog(s3, "CreateSalesContract", callerId + " Submitted new SalesContract", "Submitted", id, now).state)
  {
  }

  /** UpdateSalesContract on a contract the caller may read and is a party
    * to, with a decodable update: the edited contract is saved and logged. */
  lemma UpdateSalesContractSteps(s: State, json: Decoder, rev: Revision, callerId: string, affiliation: int, args: seq<string>, now: string)
    requires |args| >= 2 && GetSalesContract(s, callerId, affiliation, [args[0]]).Ok?
    requires var sc := GetSalesContract(s, callerId, affiliation, [args[0]]).value;
      callerId == sc.sellerId || callerId == sc.buyerId
    requires json.scUpdate(args[1]).Some?
    ensures
      var id, sc, u := args[0], GetSalesContract(s, callerId, affiliation, [args[0]]).value, json.scUpdate(args[1]).value;
      var e := ContractEdit(sc, u, rev.sellerSignatureIntoBuyer);
      UpdateSalesContract(s, json, rev, callerId, affiliation, args, now)
        == Step(Ok(SalesContractReply(e.doc)),
                AppendMALog(s[SCKey(id) := ContractDoc(e.doc)], "UpdateSalesContract", e.text, TrimSpace(u.status), id, now).state)
  {
  }

  /** Past its checks, CreateUser is the record read (or creation) for the
    * role the affiliation names. */
  lemma CreateUserSteps(s: State, args: seq<string>, role: Role)
    requires |args| >= 2 && TrimSpace(args[0]) != [] && TrimSpace(args[1]) != []
    requires Atoi(args[1]).Some? && Atoi(args[1]).value != 0 && RoleOf(Atoi(args[1]).value) == Some(role)
    ensures
      var g := GetParty(s, role, UserKey(args[0]));
      CreateUser(s, args) == if g.result.Err? then Step(Err(g.result.error), g.state) else Step(Ok(UserIdReply(args[0])), g.state)
  {
  }

  /** Invoke, for an authenticated caller and a name other than CreateUser
    * and Setup, is the write the name selects. */
  lemma InvokeSteps(s: State, json: Decoder, rev: Revision, fname: string, args: seq<string>, cert: Certificate, now: string)
    requires FunctionNamed(fname) != CreateUserFn && FunctionNamed(fname) != SetupFn
    requires Authenticate(s, rev, cert).Ok?
    ensures Invoke(s, json, rev, fname, args, cert, now)
              == Write(s, json, rev, FunctionNamed(fname), Authenticate(s, rev, cert).value, args, now)
  {
  }
}
