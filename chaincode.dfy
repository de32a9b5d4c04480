// The chaincode as an object over a mutable world state. Each method performs
// the reads and writes of its Go counterpart one helper call at a time and is
// proved to leave the state, and to answer, exactly as the function of the
// same name in module Ledger says.

module Chaincode {
  import opened Base
  import opened Keys
  import opened Records
  import opened Rules
  import Ledger

  /** Fetches every id in order, stopping at the first failure; the loop of
    * the three listing operations. */
  method CollectAll<T>(ids: seq<string>, fetch: string -> Result<T>) returns (r: Result<seq<T>>)
    ensures r == Ledger.Collect(ids, fetch)
  {
    var docs: seq<T> := [];
    var i := 0;
    while i < |ids|
      invariant 0 <= i <= |ids|
      invariant Ledger.Collect(ids[..i], fetch) == Ok(docs)
    {
      var f := fetch(ids[i]);
      if f.Err? {
        CollectStopsAtFailure(ids, fetch, i);
        return Err(f.error);
      }
      assert ids[..i + 1][..i] == ids[..i];
      docs := docs + [f.value];
      i := i + 1;
    }
    assert ids[..i] == ids;
    r := Ok(docs);
  }

  /** When every id before i fetches and ids[i] does not, collecting all of
    * ids fails with the error of ids[i]. */
  lemma CollectStopsAtFailure<T>(ids: seq<string>, fetch: string -> Result<T>, i: nat)
    requires i < |ids| && fetch(ids[i]).Err?
    requires Ledger.Collect(ids[..i], fetch).Ok?
    ensures Ledger.Collect(ids, fetch) == Err(fetch(ids[i]).error)
  {
    var r := Ledger.Collect(ids, fetch);
    assert forall j :: 0 <= j < i ==> ids[..i][j] == ids[j];
    assert forall j :: 0 <= j < i ==> fetch(ids[j]).Ok?;
    assert r.Err?;
    var k :| 0 <= k < |ids| && fetch(ids[k]) == Err(r.error) && forall j :: 0 <= j < k ==> fetch(ids[j]).Ok?;
    assert k == i;
  }

  class Marketplace {
    /** The world state. */
    var state: Ledger.State
    /** How JSON arguments decode. */
    const json: Decoder
    /** Which revision of the chaincode this is. */
    const revision: Ledger.Revision

    /** Deployment: an empty ledger. */
    constructor(json: Decoder, revision: Ledger.Revision)
      ensures state == map[] && this.json == json && this.revision == revision
    {
      state := map[];
      this.json := json;
      this.revision := revision;
    }

    // -------------------------------------------------------------------
    // Party records

    /** Get<Role>: reads the record under key, creating and storing it when absent. */
    method GetParty(role: Role, key: string) returns (r: Result<Party>)
      modifies this
      ensures Ledger.Step(r, state) == Ledger.GetParty(old(state), role, key)
    {
      if key !in state {
        var p := NewParty(role, key);
        state := state[key := PartyDoc(p)];
        return Ok(p);
      }
      match state[key]
      case PartyDoc(p) => r := Ok(View(role, p));
      case _ => r := Err(RecordUndecodable);
    }

    /** Save<Role>: stores the role's struct of p under key. */
    method SaveParty(role: Role, p: Party, key: string)
      modifies this
      ensures state == Ledger.SaveParty(old(state), role, p, key)
    {
      state := state[key := PartyDoc(View(role, p))];
    }

    /** The read, append and save steps of a Create* operation. */
    method AppendToParty(role: Role, readKey: string, writeKey: string, list: PartyList, id: string)
      modifies this
      ensures state == Ledger.AppendToParty(old(state), role, readKey, writeKey, list, id)
    {
      var p := GetParty(role, readKey);
      SaveParty(role, Append(p.GetOr(ZeroParty), list, id), writeKey);
    }

    // -------------------------------------------------------------------
    // Registries and logs

    method AddKey(id: string, keysName: string) returns (r: Result<bool>)
      modifies this
      ensures Ledger.Step(r, state) == Ledger.AddKey(old(state), id, keysName)
    {
      var keys: seq<string> := [];
      if keysName in state {
        match state[keysName]
        case KeyListDoc(stored) => keys := stored;
        case _ => return Err(RecordUndecodable);
      }
      var updated := keys + [id];
      state := state[MaKeysName := KeyListDoc(updated)];
      r := Ok(true);
    }

    method GetMALogHolder(key: string) returns (r: Result<seq<MALog>>)
      modifies this
      ensures Ledger.Step(r, state) == Ledger.GetMALogHolder(old(state), key)
    {
      if key !in state {
        state := state[key := LogHolderDoc([])];
        return Ok([]);
      }
      match state[key]
      case LogHolderDoc(entries) => r := Ok(entries);
      case _ => r := Err(RecordUndecodable);
    }

    method GetMALogKeys() returns (r: Result<seq<string>>)
      ensures r == Ledger.StoredKeys(state, MaLogKeysName)
    {
      if MaLogKeysName !in state {
        return Ok([]);
      }
      match state[MaLogKeysName]
      case KeyListDoc(keys) => r := Ok(keys);
      case _ => r := Err(RecordUndecodable);
    }

    method GetBCLogs() returns (r: Result<seq<MALog>>)
      ensures r == Ledger.GetBCLogs(state)
    {
      if BcLogsKey !in state {
        return Ok([]);
      }
      match state[BcLogsKey]
      case LogListDoc(logs) => r := Ok(logs);
      case _ => r := Err(RecordUndecodable);
    }

    method AppendMALog(action: string, text: string, status: string, id: string, now: string) returns (r: Result<()>)
      modifies this
      ensures Ledger.Step(r, state) == Ledger.AppendMALog(old(state), action, text, status, id, now)
    {
      var key := MALogKey(id);
      var holder := GetMALogHolder(key);
      var entry := Ledger.LogEntry(id, action, text, status, now);
      state := state[key := LogHolderDoc(holder.GetOr([]) + [entry])];
      var keys := GetMALogKeys();
      if keys.Err? {
        return Err(keys.error);
      }
      state := state[MaLogKeysName := KeyListDoc(keys.value + [key])];
      var logs := GetBCLogs();
      if logs.Err? {
        return Err(logs.error);
      }
      state := state[BcLogsKey := LogListDoc(logs.value + [entry])];
      r := Ok(());
    }

    // -------------------------------------------------------------------
    // Reading documents

    method GetMortgageApplication(callerId: string, affiliation: int, args: seq<string>) returns (r: Result<MortgageApplication>)
      ensures r == Ledger.GetMortgageApplication(state, callerId, affiliation, args)
    {
      if |args| < 1 {
        return Err(InvalidArguments);
      }
      var stored := Ledger.StoredMA(state, MAKey(args[0]));
      if stored.None? {
        return Err(RecordUndecodable);
      }
      var ma := stored.value;
      if CanReadMA(ma, callerId, affiliation) {
        r := Ok(ma);
      } else {
        r := Err(Forbidden);
      }
    }

    method GetAppraiserApplication(callerId: string, affiliation: int, args: seq<string>) returns (r: Result<AppraiserApplication>)
      ensures r == Ledger.GetAppraiserApplication(state, callerId, affiliation, args)
    {
      if |args| < 1 {
        return Err(InvalidArguments);
      }
      var stored := Ledger.StoredAA(state, AAKey(args[0]));
      if stored.None? {
        return Err(RecordUndecodable);
      }
      var aa := stored.value;
      if CanReadAA(aa, callerId, affiliation) {
        r := Ok(aa);
      } else {
        r := Err(Forbidden);
      }
    }

    method GetSalesContract(callerId: string, affiliation: int, args: seq<string>) returns (r: Result<SalesContract>)
      ensures r == Ledger.GetSalesContract(state, callerId, affiliation, args)
    {
      if |args| < 1 {
        return Err(InvalidArguments);
      }
      var stored := Ledger.StoredSC(state, SCKey(args[0]));
      if stored.None? {
        return Err(RecordUndecodable);
      }
      var sc := stored.value;
      if CanReadSC(sc, callerId, affiliation) {
        r := Ok(sc);
      } else {
        r := Err(Forbidden);
      }
    }

    // -------------------------------------------------------------------
    // Listings

    method CallerParty(role: Role, key: string) returns (r: Result<Party>)
      modifies this
      ensures Ledger.Step(r, state) == Ledger.CallerParty(old(state), revision, role, key)
    {
      if revision.listingsCreateParties {
        r := GetParty(role, key);
      } else {
        var stored := Ledger.StoredParty(state, key);
        if stored.None? {
          return Err(RecordUndecodable);
        }
        r := Ok(View(role, stored.value));
      }
    }

    method GetMortgageApplications(callerId: string, affiliation: int) returns (r: Result<Ledger.Reply>)
      modifies this
      ensures Ledger.Step(r, state) == Ledger.GetMortgageApplications(old(state), revision, callerId, affiliation)
    {
      if affiliation != BUYER_A && affiliation != BANK_A {
        return Err(Forbidden);
      }
      var p := CallerParty(if affiliation == BUYER_A then Buyer else Bank, UserKey(callerId));
      if p.Err? {
        return Err(p.error);
      }
      var docs := CollectAll(p.value.mortgageApplications, Ledger.FetchMA(state, callerId, affiliation));
      if docs.Err? {
        return Err(docs.error);
      }
      r := Ok(Ledger.MortgageApplicationsReply(docs.value));
    }

    method GetAppraiserApplications(callerId: string, affiliation: int) returns (r: Result<Ledger.Reply>)
      modifies this
      ensures Ledger.Step(r, state) == Ledger.GetAppraiserApplications(old(state), revision, callerId, affiliation)
    {
      if affiliation != APPRAISER_A {
        return Err(Forbidden);
      }
      var p := CallerParty(Appraiser, UserKey(callerId));
      if p.Err? {
        return Err(p.error);
      }
      var docs := CollectAll(p.value.appraiserApplications, Ledger.FetchAA(state, callerId, affiliation));
      if docs.Err? {
        return Err(docs.error);
      }
      r := Ok(Ledger.AppraiserApplicationsReply(docs.value));
    }

    method GetSalesContracts(callerId: string, affiliation: int) returns (r: Result<Ledger.Reply>)
      modifies this
      ensures Ledger.Step(r, state) == Ledger.GetSalesContracts(old(state), revision, callerId, affiliation)
    {
      if affiliation != BUYER_A && affiliation != BANK_A && affiliation != SELLER_A {
        return Err(Forbidden);
      }
      var p := CallerParty(Ledger.ContractHolder(affiliation), UserKey(callerId));
      if p.Err? {
        return Err(p.error);
      }
      var docs := CollectAll(p.value.salesContracts, Ledger.FetchSC(state, callerId, affiliation));
      if docs.Err? {
        return Err(docs.error);
      }
      r := Ok(Ledger.SalesContractsReply(docs.value));
    }

    // -------------------------------------------------------------------
    // Mortgage applications

    method CreateMortgageApplication(callerId: string, args: seq<string>, now: string) returns (r: Result<Ledger.Reply>)
      modifies this
      ensures Ledger.Step(r, state) == Ledger.CreateMortgageApplication(old(state), json, callerId, args, now)
    {
      if |args| < 2 {
        return Err(InvalidArguments);
      }
      var id := args[0];
      var decoded := json.mortgageApplication(args[1]);
      if decoded.None? {
        return Err(PayloadUndecodable);
      }
      var ma := decoded.value;
      state := state[MAKey(id) := MortgageDoc(ma)];
      var k := AddKey(MAKey(id), MaKeysName);
      if k.Err? {
        return Err(k.error);
      }
      AppendToParty(Buyer, UserKey(callerId), UserKey(callerId), MortgageApplications, id);
      AppendToParty(Bank, UserKey(ma.reviewerId), UserKey(ma.reviewerId), MortgageApplications, id);
      var _ := AppendMALog("CreateMortgageApplication", callerId + " Submitted new MortgageApplication", "Submitted", id, now);
      r := Ok(Ledger.NoContent);
    }

    method CommitMAEdit(id: string, e: Edit<MortgageApplication>, now: string) returns (r: Result<Ledger.Reply>)
      modifies this
      ensures Ledger.Step(r, state) == Ledger.CommitMAEdit(old(state), id, e, now)
    {
      if !e.changed {
        return Ok(Ledger.NoContent);
      }
      state := state[MAKey(id) := MortgageDoc(e.doc)];
      var _ := AppendMALog("UpdateMortgageApplication", e.text, e.doc.status, id, now);
      r := Ok(Ledger.MortgageApplicationReply(e.doc));
    }

    method UpdateMortgageApplication(callerId: string, affiliation: int, args: seq<string>, now: string) returns (r: Result<Ledger.Reply>)
      modifies this
      ensures Ledger.Step(r, state) == Ledger.UpdateMortgageApplication(old(state), json, callerId, affiliation, args, now)
    {
      if |args| < 2 {
        return Err(InvalidArguments);
      }
      var id := args[0];
      var got := GetMortgageApplication(callerId, AUDITOR_A, [id]);
      if got.Err? {
        return Err(got.error);
      }
      var ma := got.value;
      var decoded := json.maUpdate(args[1]);
      if decoded.None? {
        return Err(PayloadUndecodable);
      }
      var u := decoded.value;
      if callerId == ma.reviewerId {
        r := CommitMAEdit(id, ReviewerEdit(ma, u, callerId), now);
      } else if affiliation == APPRAISER_A {
        r := CommitMAEdit(id, AppraiserEdit(ma, u), now);
      } else {
        r := Err(Forbidden);
      }
    }

    // -------------------------------------------------------------------
    // Appraiser applications

    method CreateAppraiserApplication(callerId: string, affiliation: int, args: seq<string>, now: string) returns (r: Result<Ledger.Reply>)
      modifies this
      ensures Ledger.Step(r, state) == Ledger.CreateAppraiserApplication(old(state), json, callerId, affiliation, args, now)
    {
      if |args| < 2 {
        return Err(InvalidArguments);
      }
      if affiliation != BANK_A {
        return Err(Forbidden);
      }
      var id := args[0];
      var decoded := json.appraiserApplication(args[1]);
      if decoded.None? {
        state := state[AAKey(id) := Opaque];
        return Err(PayloadUndecodable);
      }
      var aa := decoded.value;
      state := state[AAKey(id) := AppraiserDoc(aa)];
      var k := AddKey(AAKey(id), AaKeysName);
      if k.Err? {
        return Err(k.error);
      }
      AppendToParty(Appraiser, UserKey(aa.appraiserId), UserKey(aa.appraiserId), AppraiserApplications, id);
      var _ := AppendMALog("CreateAppraiserApplication", callerId + " Submitted new AppraiserApplication", "Submitted", id, now);
      r := Ok(Ledger.NoContent);
    }

    method UpdateAppraiserApplication(callerId: string, affiliation: int, args: seq<string>, now: string) returns (r: Result<Ledger.Reply>)
      modifies this
      ensures Ledger.Step(r, state) == Ledger.UpdateAppraiserApplication(old(state), json, callerId, affiliation, args, now)
    {
      if |args| < 2 {
        return Err(InvalidArguments);
      }
      var id := args[0];
      var got := GetAppraiserApplication(callerId, affiliation, [id]);
      if got.Err? {
        return Err(got.error);
      }
      var aa := got.value;
      if callerId != aa.appraiserId {
        return Err(Forbidden);
      }
      var decoded := json.aaUpdate(args[1]);
      if decoded.None? {
        return Err(PayloadUndecodable);
      }
      var u := decoded.value;
      var e := AppraisalEdit(aa, u, callerId);
      state := state[AAKey(id) := AppraiserDoc(e.doc)];
      r := UpdateMortgageApplication(callerId, affiliation, [e.doc.mortgageApplicationId, FmvPatch(u.fairMarketValue)], now);
      if r.Err? {
        return;
      }
      var _ := AppendMALog("UpdateAppraiserApplication", e.text, TrimSpace(u.status), id, now);
    }

    // -------------------------------------------------------------------
    // Sales contracts

    method CreateSalesContract(callerId: string, affiliation: int, args: seq<string>, now: string) returns (r: Result<Ledger.Reply>)
      modifies this
      ensures Ledger.Step(r, state) == Ledger.CreateSalesContract(old(state), json, revision, callerId, affiliation, args, now)
    {
      if |args| < 2 {
        return Err(InvalidArguments);
      }
      if affiliation != BUYER_A {
        return Err(Forbidden);
      }
      var id := args[0];
      var decoded := json.salesContract(args[1]);
      if decoded.None? {
        return Err(PayloadUndecodable);
      }
      var sc := decoded.value;
      state := state[SCKey(id) := ContractDoc(sc)];
      var k := AddKey(SCKey(id), ScKeysName);
      if k.Err? {
        return Err(k.error);
      }
      var sellerKey := UserKey(sc.sellerId);
      var bankKey := UserKey(sc.reviewerId);
      AppendToParty(Seller, sellerKey, sellerKey, SalesContracts, id);
      AppendToParty(Buyer, UserKey(callerId), UserKey(callerId), SalesContracts, id);
      AppendToParty(Bank, bankKey, if revision.bankSavedUnderSellerKey then sellerKey else bankKey, SalesContracts, id);
      var _ := AppendMALog("CreateSalesContract", callerId + " Submitted new SalesContract", "Submitted", id, now);
      r := Ok(Ledger.NoContent);
    }

    method UpdateSalesContract(callerId: string, affiliation: int, args: seq<string>, now: string) returns (r: Result<Ledger.Reply>)
      modifies this
      ensures Ledger.Step(r, state) == Ledger.UpdateSalesContract(old(state), json, revision, callerId, affiliation, args, now)
    {
      if |args| < 2 {
        return Err(InvalidArguments);
      }
      var id := args[0];
      var got := GetSalesContract(callerId, affiliation, [id]);
      if got.Err? {
        return Err(got.error);
      }
      var sc := got.value;
      if callerId != sc.sellerId && callerId != sc.buyerId {
        return Err(Forbidden);
      }
      var decoded := json.scUpdate(args[1]);
      if decoded.None? {
        return Err(PayloadUndecodable);
      }
      var u := decoded.value;
      var e := ContractEdit(sc, u, revision.sellerSignatureIntoBuyer);
      state := state[SCKey(id) := ContractDoc(e.doc)];
      var msg := JoinPhrases(ContractPhrases(sc, u));
      var _ := AppendMALog("UpdateSalesContract", msg, TrimSpace(u.status), id, now);
      r := Ok(Ledger.SalesContractReply(e.doc));
    }

    // -------------------------------------------------------------------
    // Users and audit logs

    method CreateUser(args: seq<string>) returns (r: Result<Ledger.Reply>)
      modifies this
      ensures Ledger.Step(r, state) == Ledger.CreateUser(old(state), args)
    {
      if |args| < 2 {
        return Err(InvalidArguments);
      }
      if TrimSpace(args[0]) == [] {
        return Err(InvalidUserId);
      }
      if TrimSpace(args[1]) == [] {
        return Err(InvalidAffiliation);
      }
      var a := Atoi(args[1]);
      if a.None? || a.value == 0 {
        return Err(InvalidAffiliation);
      }
      var role := RoleOf(a.value);
      if role.None? {
        return Err(InvalidUserType);
      }
      var g := GetParty(role.value, UserKey(args[0]));
      if g.Err? {
        return Err(g.error);
      }
      r := Ok(Ledger.UserIdReply(args[0]));
    }

    method GetAuditorMALogs(callerId: string, affiliation: int, args: seq<string>) returns (r: Result<Ledger.Reply>)
      modifies this
      ensures Ledger.Step(r, state) == Ledger.GetAuditorMALogs(old(state), callerId, affiliation, args)
    {
      if |args| < 1 {
        return Err(InvalidArguments);
      }
      if affiliation != AUDITOR_A {
        return Err(Forbidden);
      }
      var h := GetMALogHolder(MALogKey(args[0]));
      if h.Err? {
        return Err(h.error);
      }
      r := Ok(Ledger.LogsReply(h.value));
    }

    method GetAuditorBCLogs(callerId: string, affiliation: int, args: seq<string>) returns (r: Result<Ledger.Reply>)
      ensures Ledger.Step(r, state) == Ledger.GetAuditorBCLogs(state, revision, callerId, affiliation, args)
    {
      if revision.bcLogsRequireArgument && |args| < 1 {
        return Err(InvalidArguments);
      }
      if affiliation != AUDITOR_A {
        return Err(Forbidden);
      }
      var logs := GetBCLogs();
      if logs.Err? {
        return Err(logs.error);
      }
      r := Ok(Ledger.LogsReply(logs.value));
    }

    // -------------------------------------------------------------------
    // Entry points

    method GetCallerMetadata(cert: Ledger.Certificate) returns (r: Result<Ledger.Caller>)
      ensures r == Ledger.CallerMetadata(state, revision, cert)
    {
      if cert.username.None? {
        return Err(IdentityUnavailable);
      }
      var name := cert.username.value;
      if revision.roleFromUserRecord {
        var p := Ledger.StoredParty(state, UserKey(name));
        if p.None? {
          return Err(IdentityUnavailable);
        }
        return Ok(Ledger.Caller(name, p.value.affiliation));
      }
      if cert.role.None? {
        return Err(IdentityUnavailable);
      }
      var a := Atoi(cert.role.value);
      if a.None? {
        return Err(IdentityUnavailable);
      }
      r := Ok(Ledger.Caller(name, a.value));
    }

    method Authenticate(cert: Ledger.Certificate) returns (r: Result<Ledger.Caller>)
      ensures r == Ledger.Authenticate(state, revision, cert)
    {
      r := GetCallerMetadata(cert);
      if r.Err? {
        return;
      }
      if TrimSpace(r.value.id) == [] {
        return Err(NoUsername);
      }
      if r.value.affiliation <= 0 {
        return Err(NoAffiliation);
      }
    }

    /** Init: only Setup does anything, and Setup is outside this model. */
    method Init(fname: string) returns (r: Result<Ledger.Reply>)
      ensures r.Ok? <==> fname != "Setup"
      ensures r.Ok? ==> r.value == Ledger.NoContent
    {
      if fname == "Setup" {
        return Err(NotModelled);
      }
      r := Ok(Ledger.NoContent);
    }

    method Invoke(fname: string, args: seq<string>, cert: Ledger.Certificate, now: string) returns (r: Result<Ledger.Reply>)
      modifies this
      ensures Ledger.Step(r, state) == Ledger.Invoke(old(state), json, revision, fname, args, cert, now)
    {
      var f := Ledger.FunctionNamed(fname);
      if f == Ledger.CreateUserFn {
        r := CreateUser(args);
        return;
      }
      if f == Ledger.SetupFn {
        return Err(NotModelled);
      }
      var c := Authenticate(cert);
      if c.Err? {
        return Err(c.error);
      }
      r := Write(f, c.value, args, now);
    }

    method Write(f: Ledger.FunctionName, c: Ledger.Caller, args: seq<string>, now: string) returns (r: Result<Ledger.Reply>)
      modifies this
      ensures Ledger.Step(r, state) == Ledger.Write(old(state), json, revision, f, c, args, now)
    {
      var id, affiliation := c.id, c.affiliation;
      match f {
        case CreateMortgageApplicationFn =>
          r := CreateMortgageApplication(id, args, now);
        case UpdateMortgageApplicationFn =>
          r := UpdateMortgageApplication(id, affiliation, args, now);
        case CreateAppraiserApplicationFn =>
          r := CreateAppraiserApplication(id, affiliation, args, now);
        case UpdateAppraiserApplicationFn =>
          r := UpdateAppraiserApplication(id, affiliation, args, now);
        case CreateSalesContractFn =>
          r := CreateSalesContract(id, affiliation, args, now);
        case UpdateSalesContractFn =>
          r := UpdateSalesContract(id, affiliation, args, now);
        case _ =>
          r := Err(UnknownFunction);
      }
    }

    method Query(fname: string, args: seq<string>, cert: Ledger.Certificate) returns (r: Result<Ledger.Reply>)
      modifies this
      ensures Ledger.Step(r, state) == Ledger.Query(old(state), revision, fname, args, cert)
    {
      var f := Ledger.FunctionNamed(fname);
      if revision.certAttributeQuery && f == Ledger.GetCertAttributeFn {
        return Err(NotModelled);
      }
      var c := Authenticate(cert);
      if c.Err? {
        return Err(c.error);
      }
      r := Read(f, c.value, args);
    }

    method Read(f: Ledger.FunctionName, c: Ledger.Caller, args: seq<string>) returns (r: Result<Ledger.Reply>)
      modifies this
      ensures Ledger.Step(r, state) == Ledger.Read(old(state), revision, f, c, args)
    {
      var id, affiliation := c.id, c.affiliation;
      match f {
        case GetMortgageApplicationFn =>
          var got := GetMortgageApplication(id, affiliation, args);
          r := Ledger.MortgageApplicationAnswer(got);
        case GetAppraiserApplicationFn =>
          var got := GetAppraiserApplication(id, affiliation, args);
          r := Ledger.AppraiserApplicationAnswer(got);
        case GetSalesContractFn =>
          var got := GetSalesContract(id, affiliation, args);
          r := Ledger.SalesContractAnswer(got);
        case GetPropertyAdsFn =>
          r := Err(NotModelled);
        case GetPropertyAdFn =>
          r := Err(NotModelled);
        case GetMortgageApplicationsFn =>
          r := GetMortgageApplications(id, affiliation);
        case GetAppraiserApplicationsFn =>
          r := GetAppraiserApplications(id, affiliation);
        case GetSalesContractsFn =>
          r := GetSalesContracts(id, affiliation);
        case GetAuditorMALogsFn =>
          r := GetAuditorMALogs(id, affiliation, args);
        case GetAuditorBCLogsFn =>
          r := GetAuditorBCLogs(id, affiliation, args);
        case _ =>
          r := Err(UnknownFunction);
      }
    }
  }
}
