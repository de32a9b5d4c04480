// The chaincode's operations as functions from a ledger state to a result and
// a new ledger state. Each function follows its Go counterpart step by step:
// a read decodes the entry under a key, a write replaces it. The class in
// module Chaincode performs the same steps in place and is proved to agree
// with these functions.

module Ledger {
  import opened Base
  import opened Keys
  import opened Records
  import opened Rules

  /** The world state: what each key holds. An absent key reads as empty. */
  type State = map<string, Value>

  /** The result of an operation together with the state it leaves. */
  datatype Step<T> = Step(result: Result<T>, state: State)

  /** The behaviours in which the two revisions of the chaincode differ. */
  datatype Revision = Revision(
    listingsCreateParties: bool,     // listings fetch the caller's record through the creating Get<Role> helpers
    bankSavedUnderSellerKey: bool,   // CreateSalesContract writes the bank's record under the seller's key
    sellerSignatureIntoBuyer: bool,  // UpdateSalesContract stores the seller's signature as the buyer's
    bcLogsRequireArgument: bool,     // GetAuditorBCLogs demands one (unused) argument
    roleFromUserRecord: bool,        // the caller's affiliation is read from its stored record, not its certificate
    certAttributeQuery: bool)        // Query answers GetCertAttribute before authenticating

  /** The v0.6 revision. */
  const Current := Revision(true, false, false, false, false, true)
  /** The earlier revision. */
  const Legacy := Revision(false, true, true, true, true, false)

  /** What an invocation answers with. */
  datatype Reply =
    | NoContent
    | MortgageApplicationReply(ma: MortgageApplication)
    | AppraiserApplicationReply(aa: AppraiserApplication)
    | SalesContractReply(sc: SalesContract)
    | MortgageApplicationsReply(mas: seq<MortgageApplication>)
    | AppraiserApplicationsReply(aas: seq<AppraiserApplication>)
    | SalesContractsReply(scs: seq<SalesContract>)
    | LogsReply(logs: seq<MALog>)
    | UserIdReply(id: string)

  // ---------------------------------------------------------------------
  // Decoding stored entries

  function StoredMA(s: State, key: string): Option<MortgageApplication>
  {
    if key in s && s[key].MortgageDoc? then Some(s[key].ma) else None
  }

  function StoredAA(s: State, key: string): Option<AppraiserApplication>
  {
    if key in s && s[key].AppraiserDoc? then Some(s[key].aa) else None
  }

  function StoredSC(s: State, key: string): Option<SalesContract>
  {
    if key in s && s[key].ContractDoc? then Some(s[key].sc) else None
  }

  function StoredParty(s: State, key: string): Option<Party>
  {
    if key in s && s[key].PartyDoc? then Some(s[key].party) else None
  }

  /** A string list kept under a fixed name; absent reads as empty. */
  function StoredKeys(s: State, name: string): Result<seq<string>>
  {
    if name !in s then Ok([])
    else if s[name].KeyListDoc? then Ok(s[name].keys)
    else Err(RecordUndecodable)
  }

  // ---------------------------------------------------------------------
  // Party records

  /** Get<Role>: decodes the record under key into the role's struct; an
    * absent record is created with the role's affiliation and stored. */
  function GetParty(s: State, role: Role, key: string): Step<Party>
  {
    if key !in s then
      Step(Ok(NewParty(role, key)), s[key := PartyDoc(NewParty(role, key))])
    else if s[key].PartyDoc? then
      Step(Ok(View(role, s[key].party)), s)
    else
      Step(Err(RecordUndecodable), s)
  }

  /** Save<Role>: stores the role's struct of p under key. */
  function SaveParty(s: State, role: Role, p: Party, key: string): State
  {
    s[key := PartyDoc(View(role, p))]
  }

  /** The read-append-save sequence of the Create* operations: the record
    * is read (and created if absent) under readKey, id is appended to one of
    * its lists, and the result is saved under writeKey. A read error is
    * ignored: the zero record is used. */
  function AppendToParty(s: State, role: Role, readKey: string, writeKey: string, list: PartyList, id: string): State
  {
    var g := GetParty(s, role, readKey);
    SaveParty(g.state, role, Append(g.result.GetOr(ZeroParty), list, id), writeKey)
  }

  // ---------------------------------------------------------------------
  // Registries and logs

  /** AddKey: appends id to the list named keysName, but stores the result
    * under the mortgage-application registry whatever keysName is. */
  function AddKey(s: State, id: string, keysName: string): Step<bool>
  {
    match StoredKeys(s, keysName)
    case Err(e) => Step(Err(e), s)
    case Ok(keys) => Step(Ok(true), s[MaKeysName := KeyListDoc(keys + [id])])
  }

  /** GetMALogHolder: the entries kept under key; an absent holder is
    * created empty and stored. */
  function GetMALogHolder(s: State, key: string): Step<seq<MALog>>
  {
    if key !in s then Step(Ok([]), s[key := LogHolderDoc([])])
    else if s[key].LogHolderDoc? then Step(Ok(s[key].entries), s)
    else Step(Err(RecordUndecodable), s)
  }

  /** GetBCLogs: the network-wide log; absent reads as empty, nothing is stored. */
  function GetBCLogs(s: State): Result<seq<MALog>>
  {
    if BcLogsKey !in s then Ok([])
    else if s[BcLogsKey].LogListDoc? then Ok(s[BcLogsKey].logs)
    else Err(RecordUndecodable)
  }

  /** The entry AppendMALog writes: buyer and reviewer ids are left blank. */
  function LogEntry(id: string, action: string, text: string, status: string, now: string): MALog
  {
    MALog(id, "", "", status, action, text, now)
  }

  /** AppendMALog: appends one entry to the holder of id, records the
    * holder's key in the log-key list, and appends the same entry to the
    * network-wide log. A failed read of the holder is ignored (the entry
    * starts a fresh list); a failed read of either list stops the sequence. */
  function AppendMALog(s: State, action: string, text: string, status: string, id: string, now: string): Step<()>
  {
    var key := MALogKey(id);
    var holder := GetMALogHolder(s, key);
    var entry := LogEntry(id, action, text, status, now);
    var s1 := holder.state[key := LogHolderDoc(holder.result.GetOr([]) + [entry])];
    match StoredKeys(s1, MaLogKeysName)
    case Err(e) => Step(Err(e), s1)
    case Ok(keys) =>
      var s2 := s1[MaLogKeysName := KeyListDoc(keys + [key])];
      match GetBCLogs(s2)
      case Err(e) => Step(Err(e), s2)
      case Ok(logs) => Step(Ok(()), s2[BcLogsKey := LogListDoc(logs + [entry])])
  }

  // ---------------------------------------------------------------------
  // Reading one document

  /** GetMortgageApplication: the application named by args[0], if it
    * decodes and the caller is its buyer or its reviewer or an auditor. */
  function GetMortgageApplication(s: State, callerId: string, affiliation: int, args: seq<string>): (r: Result<MortgageApplication>)
    ensures r.Ok? <==> |args| >= 1 && StoredMA(s, MAKey(args[0])).Some?
                       && CanReadMA(StoredMA(s, MAKey(args[0])).value, callerId, affiliation)
    ensures r.Ok? ==> StoredMA(s, MAKey(args[0])) == Some(r.value)
    ensures r.Err? && |args| >= 1 && StoredMA(s, MAKey(args[0])).Some? ==> r.error == Forbidden
  {
    if |args| < 1 then Err(InvalidArguments)
    else match StoredMA(s, MAKey(args[0]))
      case None => Err(RecordUndecodable)
      case Some(ma) => if CanReadMA(ma, callerId, affiliation) then Ok(ma) else Err(Forbidden)
  }

  /** GetAppraiserApplication: the application named by args[0], if it
    * decodes and the caller is its appraiser or its reviewer or an auditor. */
  function GetAppraiserApplication(s: State, callerId: string, affiliation: int, args: seq<string>): (r: Result<AppraiserApplication>)
    ensures r.Ok? <==> |args| >= 1 && StoredAA(s, AAKey(args[0])).Some?
                       && CanReadAA(StoredAA(s, AAKey(args[0])).value, callerId, affiliation)
    ensures r.Ok? ==> StoredAA(s, AAKey(args[0])) == Some(r.value)
    ensures r.Err? && |args| >= 1 && StoredAA(s, AAKey(args[0])).Some? ==> r.error == Forbidden
  {
    if |args| < 1 then Err(InvalidArguments)
    else match StoredAA(s, AAKey(args[0]))
      case None => Err(RecordUndecodable)
      case Some(aa) => if CanReadAA(aa, callerId, affiliation) then Ok(aa) else Err(Forbidden)
  }

  /** GetSalesContract: the contract named by args[0], if it decodes and the
    * caller is its seller or its buyer, an auditor or a bank. */
  function GetSalesContract(s: State, callerId: string, affiliation: int, args: seq<string>): (r: Result<SalesContract>)
    ensures r.Ok? <==> |args| >= 1 && StoredSC(s, SCKey(args[0])).Some?
                       && CanReadSC(StoredSC(s, SCKey(args[0])).value, callerId, affiliation)
    ensures r.Ok? ==> StoredSC(s, SCKey(args[0])) == Some(r.value)
    ensures r.Err? && |args| >= 1 && StoredSC(s, SCKey(args[0])).Some? ==> r.error == Forbidden
  {
    if |args| < 1 then Err(InvalidArguments)
    else match StoredSC(s, SCKey(args[0]))
      case None => Err(RecordUndecodable)
      case Some(sc) => if CanReadSC(sc, callerId, affiliation) then Ok(sc) else Err(Forbidden)
  }

  // ---------------------------------------------------------------------
  // Listing documents

  /** Fetches every id in order; the first failure is the result. */
  function Collect<T>(ids: seq<string>, fetch: string -> Result<T>): (r: Result<seq<T>>)
    ensures r.Ok? <==> forall i :: 0 <= i < |ids| ==> fetch(ids[i]).Ok?
    ensures r.Ok? ==> |r.value| == |ids| && forall i :: 0 <= i < |ids| ==> fetch(ids[i]) == Ok(r.value[i])
    ensures r.Err? ==> exists i :: 0 <= i < |ids| && fetch(ids[i]) == Err(r.error)
                                   && forall j :: 0 <= j < i ==> fetch(ids[j]).Ok?
  {
    if ids == [] then Ok([])
    else
      var init := ids[..|ids| - 1];
      var last := ids[|ids| - 1];
      match Collect(init, fetch)
      case Err(e) =>
        assert forall j :: 0 <= j < |init| ==> init[j] == ids[j];
        Err(e)
      case Ok(docs) =>
        assert forall j :: 0 <= j < |init| ==> init[j] == ids[j];
        match fetch(last)
        case Err(e) => Err(e)
        case Ok(d) => Ok(docs + [d])
  }

  function FetchMA(s: State, callerId: string, affiliation: int): string -> Result<MortgageApplication>
  {
    id => GetMortgageApplication(s, callerId, affiliation, [id])
  }

  function FetchAA(s: State, callerId: string, affiliation: int): string -> Result<AppraiserApplication>
  {
    id => GetAppraiserApplication(s, callerId, affiliation, [id])
  }

  function FetchSC(s: State, callerId: string, affiliation: int): string -> Result<SalesContract>
  {
    id => GetSalesContract(s, callerId, affiliation, [id])
  }

  /** How a listing obtains the caller's own record: through Get<Role>
    * (creating it if absent) in v0.6, by a plain read (absent is an error)
    * in the earlier revision. */
  function CallerParty(s: State, rev: Revision, role: Role, key: string): Step<Party>
  {
    if rev.listingsCreateParties then GetParty(s, role, key)
    else match StoredParty(s, key)
      case None => Step(Err(RecordUndecodable), s)
      case Some(p) => Step(Ok(View(role, p)), s)
  }

  /** GetMortgageApplications: for a buyer or a bank, the applications its
    * record lists, each read with the caller's rights. */
  function GetMortgageApplications(s: State, rev: Revision, callerId: string, affiliation: int): Step<Reply>
  {
    if affiliation == BUYER_A || affiliation == BANK_A then
      var p := CallerParty(s, rev, if affiliation == BUYER_A then Buyer else Bank, UserKey(callerId));
      match p.result
      case Err(e) => Step(Err(e), p.state)
      case Ok(party) =>
        match Collect(party.mortgageApplications, FetchMA(p.state, callerId, affiliation))
        case Err(e) => Step(Err(e), p.state)
        case Ok(docs) => Step(Ok(MortgageApplicationsReply(docs)), p.state)
    else Step(Err(Forbidden), s)
  }

  /** GetAppraiserApplications: for an appraiser, the applications its
    * record lists, each read with the caller's rights. */
  function GetAppraiserApplications(s: State, rev: Revision, callerId: string, affiliation: int): Step<Reply>
  {
    if affiliation == APPRAISER_A then
      var p := CallerParty(s, rev, Appraiser, UserKey(callerId));
      match p.result
      case Err(e) => Step(Err(e), p.state)
      case Ok(party) =>
        match Collect(party.appraiserApplications, FetchAA(p.state, callerId, affiliation))
        case Err(e) => Step(Err(e), p.state)
        case Ok(docs) => Step(Ok(AppraiserApplicationsReply(docs)), p.state)
    else Step(Err(Forbidden), s)
  }

  function ContractHolder(affiliation: int): Role
  {
    if affiliation == BUYER_A then Buyer else if affiliation == BANK_A then Bank else Seller
  }

  /** GetSalesContracts: for a buyer, a bank or a seller, the contracts its
    * record lists, each read with the caller's rights. */
  function GetSalesContracts(s: State, rev: Revision, callerId: string, affiliation: int): Step<Reply>
  {
    if affiliation == BUYER_A || affiliation == BANK_A || affiliation == SELLER_A then
      var p := CallerParty(s, rev, ContractHolder(affiliation), UserKey(callerId));
      match p.result
      case Err(e) => Step(Err(e), p.state)
      case Ok(party) =>
        match Collect(party.salesContracts, FetchSC(p.state, callerId, affiliation))
        case Err(e) => Step(Err(e), p.state)
        case Ok(docs) => Step(Ok(SalesContractsReply(docs)), p.state)
    else Step(Err(Forbidden), s)
  }

  // ---------------------------------------------------------------------
  // Mortgage applications

  /** CreateMortgageApplication: stores the decoded application, registers
    * its key, lists its id under the caller (as buyer) and under its
    * reviewer (as bank), and logs the submission. */
  function CreateMortgageApplication(s: State, json: Decoder, callerId: string, args: seq<string>, now: string): Step<Reply>
  {
    if |args| < 2 then Step(Err(InvalidArguments), s)
    else
      var id := args[0];
      match json.mortgageApplication(args[1])
      case None => Step(Err(PayloadUndecodable), s)
      case Some(ma) =>
        var k := AddKey(s[MAKey(id) := MortgageDoc(ma)], MAKey(id), MaKeysName);
        if k.result.Err? then Step(Err(k.result.error), k.state)
        else
          var s1 := AppendToParty(k.state, Buyer, UserKey(callerId), UserKey(callerId), MortgageApplications, id);
          var s2 := AppendToParty(s1, Bank, UserKey(ma.reviewerId), UserKey(ma.reviewerId), MortgageApplications, id);
          var log := AppendMALog(s2, "CreateMortgageApplication", callerId + " Submitted new MortgageApplication", "Submitted", id, now);
          Step(Ok(NoContent), log.state)
  }

  /** Saves an edited application and logs it, or does nothing when the
    * edit changed nothing. */
  function CommitMAEdit(s: State, id: string, e: Edit<MortgageApplication>, now: string): Step<Reply>
  {
    if !e.changed then Step(Ok(NoContent), s)
    else
      var log := AppendMALog(s[MAKey(id) := MortgageDoc(e.doc)], "UpdateMortgageApplication", e.text, e.doc.status, id, now);
      Step(Ok(MortgageApplicationReply(e.doc)), log.state)
  }

  /** UpdateMortgageApplication: the reviewing bank may change status, sales
    * contract id and approved amount; any other appraiser may change the fair
    * market value; everyone else is refused. */
  function UpdateMortgageApplication(s: State, json: Decoder, callerId: string, affiliation: int, args: seq<string>, now: string): Step<Reply>
  {
    if |args| < 2 then Step(Err(InvalidArguments), s)
    else
      var id := args[0];
      match GetMortgageApplication(s, callerId, AUDITOR_A, [id])
      case Err(e) => Step(Err(e), s)
      case Ok(ma) =>
        match json.maUpdate(args[1])
        case None => Step(Err(PayloadUndecodable), s)
        case Some(u) =>
          if callerId == ma.reviewerId then CommitMAEdit(s, id, ReviewerEdit(ma, u, callerId), now)
          else if affiliation == APPRAISER_A then CommitMAEdit(s, id, AppraiserEdit(ma, u), now)
          else Step(Err(Forbidden), s)
  }

  // ---------------------------------------------------------------------
  // Appraiser applications

  /** CreateAppraiserApplication: a bank stores the application text, then
    * decodes it, registers its key, lists its id under its appraiser and
    * logs the submission. Text that does not decode stays stored. */
  function CreateAppraiserApplication(s: State, json: Decoder, callerId: string, affiliation: int, args: seq<string>, now: string): Step<Reply>
  {
    if |args| < 2 then Step(Err(InvalidArguments), s)
    else if affiliation != BANK_A then Step(Err(Forbidden), s)
    else
      var id := args[0];
      match json.appraiserApplication(args[1])
      case None => Step(Err(PayloadUndecodable), s[AAKey(id) := Opaque])
      case Some(aa) =>
        var k := AddKey(s[AAKey(id) := AppraiserDoc(aa)], AAKey(id), AaKeysName);
        if k.result.Err? then Step(Err(k.result.error), k.state)
        else
          var s1 := AppendToParty(k.state, Appraiser, UserKey(aa.appraiserId), UserKey(aa.appraiserId), AppraiserApplications, id);
          var log := AppendMALog(s1, "CreateAppraiserApplication", callerId + " Submitted new AppraiserApplication", "Submitted", id, now);
          Step(Ok(NoContent), log.state)
  }

  /** UpdateAppraiserApplication: the application's appraiser may change its
    * status and fair market value; the application is saved, the fair market
    * value is forwarded to the linked mortgage application, and the change is
    * logged with the given (trimmed) status. */
  function UpdateAppraiserApplication(s: State, json: Decoder, callerId: string, affiliation: int, args: seq<string>, now: string): Step<Reply>
  {
    if |args| < 2 then Step(Err(InvalidArguments), s)
    else
      var id := args[0];
      match GetAppraiserApplication(s, callerId, affiliation, [id])
      case Err(e) => Step(Err(e), s)
      case Ok(aa) =>
        if callerId != aa.appraiserId then Step(Err(Forbidden), s)
        else match json.aaUpdate(args[1])
          case None => Step(Err(PayloadUndecodable), s)
          case Some(u) =>
            var e := AppraisalEdit(aa, u, callerId);
            var forwarded := UpdateMortgageApplication(
              s[AAKey(id) := AppraiserDoc(e.doc)], json, callerId, affiliation,
              [e.doc.mortgageApplicationId, FmvPatch(u.fairMarketValue)], now);
            if forwarded.result.Err? then forwarded
            else
              var log := AppendMALog(forwarded.state, "UpdateAppraiserApplication", e.text, TrimSpace(u.status), id, now);
              Step(forwarded.result, log.state)
  }

  // ---------------------------------------------------------------------
  // Sales contracts

  /** CreateSalesContract: a buyer stores the decoded contract, registers its
    * key, lists its id under the seller, the caller and the reviewing bank,
    * and logs the submission. */
  function CreateSalesContract(s: State, json: Decoder, rev: Revision, callerId: string, affiliation: int, args: seq<string>, now: string): Step<Reply>
  {
    if |args| < 2 then Step(Err(InvalidArguments), s)
    else if affiliation != BUYER_A then Step(Err(Forbidden), s)
    else
      var id := args[0];
      match json.salesContract(args[1])
      case None => Step(Err(PayloadUndecodable), s)
      case Some(sc) =>
        var k := AddKey(s[SCKey(id) := ContractDoc(sc)], SCKey(id), ScKeysName);
        if k.result.Err? then Step(Err(k.result.error), k.state)
        else
          var sellerKey := UserKey(sc.sellerId);
          var bankKey := UserKey(sc.reviewerId);
          var s1 := AppendToParty(k.state, Seller, sellerKey, sellerKey, SalesContracts, id);
          var s2 := AppendToParty(s1, Buyer, UserKey(callerId), UserKey(callerId), SalesContracts, id);
          var s3 := AppendToParty(s2, Bank, bankKey, if rev.bankSavedUnderSellerKey then sellerKey else bankKey, SalesContracts, id);
          var log := AppendMALog(s3, "CreateSalesContract", callerId + " Submitted new SalesContract", "Submitted", id, now);
          Step(Ok(NoContent), log.state)
  }

  /** UpdateSalesContract: the contract's seller or buyer may change status,
    * signatures and price; the contract is always saved and the change logged
    * with the given (trimmed) status. */
  function UpdateSalesContract(s: State, json: Decoder, rev: Revision, callerId: string, affiliation: int, args: seq<string>, now: string): Step<Reply>
  {
    if |args| < 2 then Step(Err(InvalidArguments), s)
    else
      var id := args[0];
      match GetSalesContract(s, callerId, affiliation, [id])
      case Err(e) => Step(Err(e), s)
      case Ok(sc) =>
        if callerId != sc.sellerId && callerId != sc.buyerId then Step(Err(Forbidden), s)
        else match json.scUpdate(args[1])
          case None => Step(Err(PayloadUndecodable), s)
          case Some(u) =>
            var e := ContractEdit(sc, u, rev.sellerSignatureIntoBuyer);
            var log := AppendMALog(s[SCKey(id) := ContractDoc(e.doc)], "UpdateSalesContract", e.text, TrimSpace(u.status), id, now);
            Step(Ok(SalesContractReply(e.doc)), log.state)
  }

  // ---------------------------------------------------------------------
  // Users and audit logs

  /** CreateUser: validates the id and the affiliation text and makes sure a
    * record for the role exists; answers with the id. */
  function CreateUser(s: State, args: seq<string>): Step<Reply>
  {
    if |args| < 2 then Step(Err(InvalidArguments), s)
    else if TrimSpace(args[0]) == [] then Step(Err(InvalidUserId), s)
    else if TrimSpace(args[1]) == [] then Step(Err(InvalidAffiliation), s)
    else match Atoi(args[1])
      case None => Step(Err(InvalidAffiliation), s)
      case Some(a) =>
        if a == 0 then Step(Err(InvalidAffiliation), s)
        else match RoleOf(a)
          case None => Step(Err(InvalidUserType), s)
          case Some(role) =>
            var g := GetParty(s, role, UserKey(args[0]));
            if g.result.Err? then Step(Err(g.result.error), g.state)
            else Step(Ok(UserIdReply(args[0])), g.state)
  }

  /** GetAuditorMALogs: an auditor reads the log of one application. */
  function GetAuditorMALogs(s: State, callerId: string, affiliation: int, args: seq<string>): Step<Reply>
  {
    if |args| < 1 then Step(Err(InvalidArguments), s)
    else if affiliation != AUDITOR_A then Step(Err(Forbidden), s)
    else
      var h := GetMALogHolder(s, MALogKey(args[0]));
      match h.result
      case Err(e) => Step(Err(e), h.state)
      case Ok(entries) => Step(Ok(LogsReply(entries)), h.state)
  }

  /** GetAuditorBCLogs: an auditor reads the network-wide log. */
  function GetAuditorBCLogs(s: State, rev: Revision, callerId: string, affiliation: int, args: seq<string>): Step<Reply>
  {
    if rev.bcLogsRequireArgument && |args| < 1 then Step(Err(InvalidArguments), s)
    else if affiliation != AUDITOR_A then Step(Err(Forbidden), s)
    else match GetBCLogs(s)
      case Err(e) => Step(Err(e), s)
      case Ok(logs) => Step(Ok(LogsReply(logs)), s)
  }

  // ---------------------------------------------------------------------
  // Entry points

  /** What the caller's certificate yields: its username and role
    * attributes (v0.6), or its common name (earlier revision); None when it
    * cannot be read. */
  datatype Certificate = Certificate(username: Option<string>, role: Option<string>)

  datatype Caller = Caller(id: string, affiliation: int)

  /** GetCallerMetadata: the caller's username and affiliation. */
  function CallerMetadata(s: State, rev: Revision, cert: Certificate): Result<Caller>
  {
    match cert.username
    case None => Err(IdentityUnavailable)
    case Some(name) =>
      if rev.roleFromUserRecord then
        match StoredParty(s, UserKey(name))
        case None => Err(IdentityUnavailable)
        case Some(p) => Ok(Caller(name, p.affiliation))
      else match cert.role
        case None => Err(IdentityUnavailable)
        case Some(text) =>
          match Atoi(text)
          case None => Err(IdentityUnavailable)
          case Some(a) => Ok(Caller(name, a))
  }

  /** The identity guard of Invoke and Query: a non-blank username and a
    * positive affiliation. */
  function Authenticate(s: State, rev: Revision, cert: Certificate): (r: Result<Caller>)
    ensures r.Ok? ==> TrimSpace(r.value.id) != [] && r.value.affiliation > 0
  {
    match CallerMetadata(s, rev, cert)
    case Err(e) => Err(e)
    case Ok(c) =>
      if TrimSpace(c.id) == [] then Err(NoUsername)
      else if c.affiliation <= 0 then Err(NoAffiliation)
      else Ok(c)
  }

  /** The function names Invoke and Query dispatch on; every other name is
    * UnknownName. */
  datatype FunctionName =
    | CreateUserFn | SetupFn
    | CreateMortgageApplicationFn | UpdateMortgageApplicationFn
    | CreateAppraiserApplicationFn | UpdateAppraiserApplicationFn
    | CreateSalesContractFn | UpdateSalesContractFn
    | GetCertAttributeFn | GetPropertyAdsFn | GetPropertyAdFn
    | GetMortgageApplicationFn | GetAppraiserApplicationFn | GetSalesContractFn
    | GetMortgageApplicationsFn | GetAppraiserApplicationsFn | GetSalesContractsFn
    | GetAuditorMALogsFn | GetAuditorBCLogsFn
    | UnknownName

  /** The spelling under which each function is invoked. */
  function Spelling(f: FunctionName): string
  {
    match f
    case CreateUserFn => "CreateUser"
    case SetupFn => "Setup"
    case CreateMortgageApplicationFn => "CreateMortgageApplication"
    case UpdateMortgageApplicationFn => "UpdateMortgageApplication"
    case CreateAppraiserApplicationFn => "CreateAppraiserApplication"
    case UpdateAppraiserApplicationFn => "UpdateAppraiserApplication"
    case CreateSalesContractFn => "CreateSalesContract"
    case UpdateSalesContractFn => "UpdateSalesContract"
    case GetCertAttributeFn => "GetCertAttribute"
    case GetPropertyAdsFn => "GetPropertyAds"
    case GetPropertyAdFn => "GetPropertyAd"
    case GetMortgageApplicationFn => "GetMortgageApplication"
    case GetAppraiserApplicationFn => "GetAppraiserApplication"
    case GetSalesContractFn => "GetSalesContract"
    case GetMortgageApplicationsFn => "GetMortgageApplications"
    case GetAppraiserApplicationsFn => "GetAppraiserApplications"
    case GetSalesContractsFn => "GetSalesContracts"
    case GetAuditorMALogsFn => "GetAuditorMALogs"
    case GetAuditorBCLogsFn => "GetAuditorBCLogs"
    case UnknownName => ""
  }

  /** The function a name selects, by exact comparison with each spelling. */
  function FunctionNamed(name: string): FunctionName
  {
    if name == "CreateUser" then CreateUserFn
    else if name == "Setup" then SetupFn
    else if name == "CreateMortgageApplication" then CreateMortgageApplicationFn
    else if name == "UpdateMortgageApplication" then UpdateMortgageApplicationFn
    else if name == "CreateAppraiserApplication" then CreateAppraiserApplicationFn
    else if name == "UpdateAppraiserApplication" then UpdateAppraiserApplicationFn
    else if name == "CreateSalesContract" then CreateSalesContractFn
    else if name == "UpdateSalesContract" then UpdateSalesContractFn
    else if name == "GetCertAttribute" then GetCertAttributeFn
    else if name == "GetPropertyAds" then GetPropertyAdsFn
    else if name == "GetPropertyAd" then GetPropertyAdFn
    else if name == "GetMortgageApplication" then GetMortgageApplicationFn
    else if name == "GetAppraiserApplication" then GetAppraiserApplicationFn
    else if name == "GetSalesContract" then GetSalesContractFn
    else if name == "GetMortgageApplications" then GetMortgageApplicationsFn
    else if name == "GetAppraiserApplications" then GetAppraiserApplicationsFn
    else if name == "GetSalesContracts" then GetSalesContractsFn
    else if name == "GetAuditorMALogs" then GetAuditorMALogsFn
    else if name == "GetAuditorBCLogs" then GetAuditorBCLogsFn
    else UnknownName
  }

  /** Invoke: CreateUser and Setup need no identity; the six document
    * operations run for an authenticated caller. */
  function Invoke(s: State, json: Decoder, rev: Revision, fname: string, args: seq<string>, cert: Certificate, now: string): Step<Reply>
  {
    var f := FunctionNamed(fname);
    if f == CreateUserFn then CreateUser(s, args)
    else if f == SetupFn then Step(Err(NotModelled), s)
    else match Authenticate(s, rev, cert)
      case Err(e) => Step(Err(e), s)
      case Ok(c) => Write(s, json, rev, f, c, args, now)
  }

  /** The write Invoke dispatches to once the caller is known. */
  function Write(s: State, json: Decoder, rev: Revision, f: FunctionName, c: Caller, args: seq<string>, now: string): Step<Reply>
  {
    match f
    case CreateMortgageApplicationFn => CreateMortgageApplication(s, json, c.id, args, now)
    case UpdateMortgageApplicationFn => UpdateMortgageApplication(s, json, c.id, c.affiliation, args, now)
    case CreateAppraiserApplicationFn => CreateAppraiserApplication(s, json, c.id, c.affiliation, args, now)
    case UpdateAppraiserApplicationFn => UpdateAppraiserApplication(s, json, c.id, c.affiliation, args, now)
    case CreateSalesContractFn => CreateSalesContract(s, json, rev, c.id, c.affiliation, args, now)
    case UpdateSalesContractFn => UpdateSalesContract(s, json, rev, c.id, c.affiliation, args, now)
    case _ => Step(Err(UnknownFunction), s)
  }

  /** The single-document reads answer with the document itself. */
  function MortgageApplicationAnswer(r: Result<MortgageApplication>): Result<Reply>
  {
    match r
    case Err(e) => Err(e)
    case Ok(ma) => Ok(MortgageApplicationReply(ma))
  }

  function AppraiserApplicationAnswer(r: Result<AppraiserApplication>): Result<Reply>
  {
    match r
    case Err(e) => Err(e)
    case Ok(aa) => Ok(AppraiserApplicationReply(aa))
  }

  function SalesContractAnswer(r: Result<SalesContract>): Result<Reply>
  {
    match r
    case Err(e) => Err(e)
    case Ok(sc) => Ok(SalesContractReply(sc))
  }

  /** Query: the reads, for an authenticated caller. */
  function Query(s: State, rev: Revision, fname: string, args: seq<string>, cert: Certificate): Step<Reply>
  {
    var f := FunctionNamed(fname);
    if rev.certAttributeQuery && f == GetCertAttributeFn then Step(Err(NotModelled), s)
    else match Authenticate(s, rev, cert)
      case Err(e) => Step(Err(e), s)
      case Ok(c) => Read(s, rev, f, c, args)
  }

  /** The read Query dispatches to once the caller is known. */
  function Read(s: State, rev: Revision, f: FunctionName, c: Caller, args: seq<string>): Step<Reply>
  {
    match f
    case GetMortgageApplicationFn =>
      Step(MortgageApplicationAnswer(GetMortgageApplication(s, c.id, c.affiliation, args)), s)
    case GetAppraiserApplicationFn =>
      Step(AppraiserApplicationAnswer(GetAppraiserApplication(s, c.id, c.affiliation, args)), s)
    case GetSalesContractFn =>
      Step(SalesContractAnswer(GetSalesContract(s, c.id, c.affiliation, args)), s)
    case GetPropertyAdsFn => Step(Err(NotModelled), s)
    case GetPropertyAdFn => Step(Err(NotModelled), s)
    case GetMortgageApplicationsFn => GetMortgageApplications(s, rev, c.id, c.affiliation)
    case GetAppraiserApplicationsFn => GetAppraiserApplications(s, rev, c.id, c.affiliation)
    case GetSalesContractsFn => GetSalesContracts(s, rev, c.id, c.affiliation)
    case GetAuditorMALogsFn => GetAuditorMALogs(s, c.id, c.affiliation, args)
    case GetAuditorBCLogsFn => GetAuditorBCLogs(s, rev, c.id, c.affiliation, args)
    case _ => Step(Err(UnknownFunction), s)
  }
}
