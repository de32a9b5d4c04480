// Who may read what, what the listings answer, the audit reads, user
// registration, and the identity guard of the two entry points.

module AccessProperties {
  import opened Base
  import opened Keys
  import opened Records
  import opened Rules
  import opened Ledger
  import opened Steps
  import opened Invariants
  import opened HelperEffects

  // ---------------------------------------------------------------------
  // Listings

  /** Each listing is open to some affiliations only; any other caller is
    * refused and nothing is written. */
  lemma ListingsRefuseOtherRoles(s: State, rev: Revision, callerId: string, affiliation: int)
    ensures affiliation != BUYER_A && affiliation != BANK_A ==>
      GetMortgageApplications(s, rev, callerId, affiliation) == Step(Err(Forbidden), s)
    ensures affiliation != APPRAISER_A ==>
      GetAppraiserApplications(s, rev, callerId, affiliation) == Step(Err(Forbidden), s)
    ensures affiliation != BUYER_A && affiliation != BANK_A && affiliation != SELLER_A ==>
      GetSalesContracts(s, rev, callerId, affiliation) == Step(Err(Forbidden), s)
  {
  }

  /** With a stored record, the mortgage-application listing writes nothing and
    * is the fetch of every id the record lists. */
  lemma MortgageApplicationsListing(s: State, rev: Revision, callerId: string, affiliation: int)
    requires WellFormed(s) && UserKey(callerId) in s
    requires affiliation == BUYER_A || affiliation == BANK_A
    ensures
      var c := Collect(ListUnder(s, UserKey(callerId), MortgageApplications), FetchMA(s, callerId, affiliation));
      GetMortgageApplications(s, rev, callerId, affiliation) == if c.Ok? then Step(Ok(MortgageApplicationsReply(c.value)), s) else Step(Err(c.error), s)
  {
    var key := UserKey(callerId);
    var role := if affiliation == BUYER_A then Buyer else Bank;
    var p := CallerParty(s, rev, role, key);
    assert p == Step(Ok(View(role, s[key].party)), s);
    assert p.result.value.mortgageApplications == ListUnder(s, key, MortgageApplications);
  }

  /** A caller with a stored record: its mortgage-application listing reads
    * nothing but the documents, answers with the applications its record
    * lists, in the same order, when each of them exists and is visible to
    * the caller, and fails otherwise. */
  lemma GetMortgageApplicationsLists(s: State, rev: Revision, callerId: string, affiliation: int)
    requires WellFormed(s) && UserKey(callerId) in s
    requires affiliation == BUYER_A || affiliation == BANK_A
    ensures
      var ids := ListUnder(s, UserKey(callerId), MortgageApplications);
      var r := GetMortgageApplications(s, rev, callerId, affiliation);
      && r.state == s
      && (r.result.Ok? <==>
            forall i :: 0 <= i < |ids| ==>
              StoredMA(s, MAKey(ids[i])).Some? && CanReadMA(StoredMA(s, MAKey(ids[i])).value, callerId, affiliation))
      && (r.result.Ok? ==>
            && r.result.value.MortgageApplicationsReply?
            && |r.result.value.mas| == |ids|
            && forall i :: 0 <= i < |ids| ==> StoredMA(s, MAKey(ids[i])) == Some(r.result.value.mas[i]))
  {
    var ids := ListUnder(s, UserKey(callerId), MortgageApplications);
    var fetch := FetchMA(s, callerId, affiliation);
    MortgageApplicationsListing(s, rev, callerId, affiliation);
    assert forall i :: 0 <= i < |ids| ==> fetch(ids[i]) == GetMortgageApplication(s, callerId, affiliation, [ids[i]]);
  }

  /** With a stored record, the appraiser-application listing writes nothing and
    * is the fetch of every id the record lists. */
  lemma AppraiserApplicationsListing(s: State, rev: Revision, callerId: string)
    requires WellFormed(s) && UserKey(callerId) in s
    ensures
      var c := Collect(ListUnder(s, UserKey(callerId), AppraiserApplications), FetchAA(s, callerId, APPRAISER_A));
      GetAppraiserApplications(s, rev, callerId, APPRAISER_A) == if c.Ok? then Step(Ok(AppraiserApplicationsReply(c.value)), s) else Step(Err(c.error), s)
  {
    var key := UserKey(callerId);
    var role := Appraiser;
    var p := CallerParty(s, rev, role, key);
    assert p == Step(Ok(View(role, s[key].party)), s);
    assert p.result.value.appraiserApplications == ListUnder(s, key, AppraiserApplications);
  }

  /** A caller with a stored record: its appraiser-application listing
    * answers with the applications its record lists, in order, when each
    * exists and is visible to it, and fails otherwise. */
  lemma GetAppraiserApplicationsLists(s: State, rev: Revision, callerId: string)
    requires WellFormed(s) && UserKey(callerId) in s
    ensures
      var ids := ListUnder(s, UserKey(callerId), AppraiserApplications);
      var r := GetAppraiserApplications(s, rev, callerId, APPRAISER_A);
      && r.state == s
      && (r.result.Ok? <==>
            forall i :: 0 <= i < |ids| ==>
              StoredAA(s, AAKey(ids[i])).Some? && CanReadAA(StoredAA(s, AAKey(ids[i])).value, callerId, APPRAISER_A))
      && (r.result.Ok? ==>
            && r.result.value.AppraiserApplicationsReply?
            && |r.result.value.aas| == |ids|
            && forall i :: 0 <= i < |ids| ==> StoredAA(s, AAKey(ids[i])) == Some(r.result.value.aas[i]))
  {
    var ids := ListUnder(s, UserKey(callerId), AppraiserApplications);
    var fetch := FetchAA(s, callerId, APPRAISER_A);
    AppraiserApplicationsListing(s, rev, callerId);
    assert forall i :: 0 <= i < |ids| ==> fetch(ids[i]) == GetAppraiserApplication(s, callerId, APPRAISER_A, [ids[i]]);
  }

  /** With a stored record, the sales-contract listing writes nothing and
    * is the fetch of every id the record lists. */
  lemma SalesContractsListing(s: State, rev: Revision, callerId: string, affiliation: int)
    requires WellFormed(s) && UserKey(callerId) in s
    requires affiliation == BUYER_A || affiliation == BANK_A || affiliation == SELLER_A
    ensures
      var c := Collect(ListUnder(s, UserKey(callerId), SalesContracts), FetchSC(s, callerId, affiliation));
      GetSalesContracts(s, rev, callerId, affiliation) == if c.Ok? then Step(Ok(SalesContractsReply(c.value)), s) else Step(Err(c.error), s)
  {
    var key := UserKey(callerId);
    var role := ContractHolder(affiliation);
    var p := CallerParty(s, rev, role, key);
    assert p == Step(Ok(View(role, s[key].party)), s);
    assert p.result.value.salesContracts == ListUnder(s, key, SalesContracts);
  }

  /** A caller with a stored record: its sales-contract listing answers with
    * the contracts its record lists, in order, when each exists and is
    * visible to it, and fails otherwise. */
  lemma GetSalesContractsLists(s: State, rev: Revision, callerId: string, affiliation: int)
    requires WellFormed(s) && UserKey(callerId) in s
    requires affiliation == BUYER_A || affiliation == BANK_A || affiliation == SELLER_A
    ensures
      var ids := ListUnder(s, UserKey(callerId), SalesContracts);
      var r := GetSalesContracts(s, rev, callerId, affiliation);
      && r.state == s
      && (r.result.Ok? <==>
            forall i :: 0 <= i < |ids| ==>
              StoredSC(s, SCKey(ids[i])).Some? && CanReadSC(StoredSC(s, SCKey(ids[i])).value, callerId, affiliation))
      && (r.result.Ok? ==>
            && r.result.value.SalesContractsReply?
            && |r.result.value.scs| == |ids|
            && forall i :: 0 <= i < |ids| ==> StoredSC(s, SCKey(ids[i])) == Some(r.result.value.scs[i]))
  {
    var ids := ListUnder(s, UserKey(callerId), SalesContracts);
    var fetch := FetchSC(s, callerId, affiliation);
    SalesContractsListing(s, rev, callerId, affiliation);
    assert forall i :: 0 <= i < |ids| ==> fetch(ids[i]) == GetSalesContract(s, callerId, affiliation, [ids[i]]);
  }

  /** A caller without a record: the current revision creates an empty one
    * and answers with an empty listing; the earlier revision answers with
    * an error and writes nothing. */
  lemma ListingsWithoutRecord(s: State, rev: Revision, callerId: string, affiliation: int)
    requires UserKey(callerId) !in s
    ensures affiliation == BUYER_A || affiliation == BANK_A ==>
      var role := if affiliation == BUYER_A then Buyer else Bank;
      GetMortgageApplications(s, rev, callerId, affiliation)
        == if rev.listingsCreateParties
           then Step(Ok(MortgageApplicationsReply([])), s[UserKey(callerId) := PartyDoc(NewParty(role, UserKey(callerId)))])
           else Step(Err(RecordUndecodable), s)
    ensures affiliation == APPRAISER_A ==>
      GetAppraiserApplications(s, rev, callerId, affiliation)
        == if rev.listingsCreateParties
           then Step(Ok(AppraiserApplicationsReply([])), s[UserKey(callerId) := PartyDoc(NewParty(Appraiser, UserKey(callerId)))])
           else Step(Err(RecordUndecodable), s)
    ensures affiliation == BUYER_A || affiliation == BANK_A || affiliation == SELLER_A ==>
      GetSalesContracts(s, rev, callerId, affiliation)
        == if rev.listingsCreateParties
           then Step(Ok(SalesContractsReply([])), s[UserKey(callerId) := PartyDoc(NewParty(ContractHolder(affiliation), UserKey(callerId)))])
           else Step(Err(RecordUndecodable), s)
  {
  }

  // ---------------------------------------------------------------------
  // Audit logs

  /** The audit read of one document's log checks the argument count first
    * and the caller's affiliation second; on a well-formed ledger an
    * auditor gets the holder's entries, and an absent holder is created
    * empty. */
  lemma GetAuditorMALogsAnswers(s: State, callerId: string, affiliation: int, args: seq<string>)
    requires WellFormed(s)
    ensures |args| < 1 ==> GetAuditorMALogs(s, callerId, affiliation, args) == Step(Err(InvalidArguments), s)
    ensures |args| >= 1 && affiliation != AUDITOR_A ==>
      GetAuditorMALogs(s, callerId, affiliation, args) == Step(Err(Forbidden), s)
    ensures |args| >= 1 && affiliation == AUDITOR_A ==>
      var r := GetAuditorMALogs(s, callerId, affiliation, args);
      && r.result == Ok(LogsReply(EntriesOf(s, args[0])))
      && r.state == (if MALogKey(args[0]) in s then s else s[MALogKey(args[0]) := LogHolderDoc([])])
  {
    if |args| >= 1 && affiliation == AUDITOR_A {
      GetMALogHolderPreserves(s, args[0]);
    }
  }

  /** The audit read of the network-wide log never writes. On a well-formed
    * ledger an auditor gets the whole log; the earlier revision first
    * demands one argument, the current one none. */
  lemma GetAuditorBCLogsAnswers(s: State, rev: Revision, callerId: string, affiliation: int, args: seq<string>)
    requires WellFormed(s)
    ensures GetAuditorBCLogs(s, rev, callerId, affiliation, args).state == s
    ensures rev.bcLogsRequireArgument && |args| < 1 ==>
      GetAuditorBCLogs(s, rev, callerId, affiliation, args).result == Err(InvalidArguments)
    ensures (!rev.bcLogsRequireArgument || |args| >= 1) && affiliation != AUDITOR_A ==>
      GetAuditorBCLogs(s, rev, callerId, affiliation, args).result == Err(Forbidden)
    ensures (!rev.bcLogsRequireArgument || |args| >= 1) && affiliation == AUDITOR_A ==>
      GetAuditorBCLogs(s, rev, callerId, affiliation, args).result == Ok(LogsReply(BCLogsOf(s)))
  {
  }

  /** Every entry AppendMALog writes also lists the holder's key again, so
    * two entries for the same document leave its key twice at the end of
    * the log-key list. */
  lemma LogKeyListedPerEntry(s: State, a1: string, t1: string, st1: string, a2: string, t2: string, st2: string, id: string, now: string)
    requires WellFormed(s)
    ensures
      var u := AppendMALog(AppendMALog(s, a1, t1, st1, id, now).state, a2, t2, st2, id, now).state;
      StoredKeys(u, MaLogKeysName) == Ok(StoredKeys(s, MaLogKeysName).value + [MALogKey(id), MALogKey(id)])
  {
    NamesDistinct();
    OutsideLog(id, id);
    AppendMALogEffect(s, a1, t1, st1, id, now);
    AppendMALogPreserves(s, a1, t1, st1, id, now);
    var m := AppendMALog(s, a1, t1, st1, id, now).state;
    assert StoredKeys(m, MaLogKeysName) == Ok(StoredKeys(s, MaLogKeysName).value + [MALogKey(id)]);
    AppendMALogEffect(m, a2, t2, st2, id, now);
    assert StoredKeys(s, MaLogKeysName).value + [MALogKey(id)] + [MALogKey(id)]
        == StoredKeys(s, MaLogKeysName).value + [MALogKey(id), MALogKey(id)];
  }

  // ---------------------------------------------------------------------
  // Users

  /** CreateUser succeeds exactly for a non-blank id and an affiliation
    * text that parses to one of the five codes, when the key holds a party
    * record or nothing. */
  lemma CreateUserAccepts(s: State, args: seq<string>)
    ensures CreateUser(s, args).result.Ok? <==>
      && |args| >= 2 && TrimSpace(args[0]) != [] && TrimSpace(args[1]) != []
      && Atoi(args[1]).Some? && BUYER_A <= Atoi(args[1]).value <= AUDITOR_A
      && (UserKey(args[0]) !in s || s[UserKey(args[0])].PartyDoc?)
    ensures CreateUser(s, args).result.Ok? ==> CreateUser(s, args).result.value == UserIdReply(args[0])
  {
    if |args| >= 2 && TrimSpace(args[0]) != [] && TrimSpace(args[1]) != []
       && Atoi(args[1]).Some? && Atoi(args[1]).value != 0 && RoleOf(Atoi(args[1]).value).Some? {
      CreateUserSteps(s, args, RoleOf(Atoi(args[1]).value).value);
    }
  }

  /** The error CreateUser reports for each rejected input, in the order of
    * its checks; a rejected input writes nothing. */
  lemma CreateUserRejects(s: State, args: seq<string>)
    ensures |args| < 2 ==> CreateUser(s, args) == Step(Err(InvalidArguments), s)
    ensures |args| >= 2 && TrimSpace(args[0]) == [] ==> CreateUser(s, args) == Step(Err(InvalidUserId), s)
    ensures |args| >= 2 && TrimSpace(args[0]) != [] && (TrimSpace(args[1]) == [] || Atoi(args[1]) in {None, Some(0)}) ==>
      CreateUser(s, args) == Step(Err(InvalidAffiliation), s)
    ensures |args| >= 2 && TrimSpace(args[0]) != [] && TrimSpace(args[1]) != []
            && Atoi(args[1]).Some? && Atoi(args[1]).value != 0 && !(BUYER_A <= Atoi(args[1]).value <= AUDITOR_A) ==>
      CreateUser(s, args) == Step(Err(InvalidUserType), s)
    ensures CreateUser(s, args).result.Err? ==> CreateUser(s, args).state == s
  {
    if |args| >= 2 && TrimSpace(args[0]) != [] && TrimSpace(args[1]) != [] {
      match Atoi(args[1])
      case None =>
      case Some(a) =>
        if a != 0 {
          match RoleOf(a)
          case None =>
          case Some(role) =>
            CreateUserSteps(s, args, role);
            GetPartyLazy(s, role, UserKey(args[0]));
        }
    }
  }

  /** An accepted user whose key was free gets a fresh record: its id is
    * the ledger key, its affiliation the code given, its lists empty. An
    * existing record is left as it is. */
  lemma CreateUserStores(s: State, args: seq<string>)
    requires |args| >= 2 && TrimSpace(args[0]) != [] && TrimSpace(args[1]) != []
    requires Atoi(args[1]).Some? && BUYER_A <= Atoi(args[1]).value <= AUDITOR_A
    requires UserKey(args[0]) !in s || s[UserKey(args[0])].PartyDoc?
    ensures
      var key, r := UserKey(args[0]), CreateUser(s, args);
      && r.result == Ok(UserIdReply(args[0]))
      && (key in s ==> r.state == s)
      && (key !in s ==> r.state == s[key := PartyDoc(Party(key, Atoi(args[1]).value, [], [], []))])
  {
    var role := RoleOf(Atoi(args[1]).value).value;
    CreateUserSteps(s, args, role);
    GetPartyLazy(s, role, UserKey(args[0]));
  }

  /** Registering the same user twice is the same as registering it once. */
  lemma CreateUserIdempotent(s: State, args: seq<string>)
    ensures CreateUser(CreateUser(s, args).state, args) == CreateUser(s, args)
  {
    if |args| >= 2 && TrimSpace(args[0]) != [] && TrimSpace(args[1]) != []
       && Atoi(args[1]).Some? && Atoi(args[1]).value != 0 && RoleOf(Atoi(args[1]).value).Some? {
      var role := RoleOf(Atoi(args[1]).value).value;
      var key := UserKey(args[0]);
      var g := GetParty(s, role, key);
      CreateUserSteps(s, args, role);
      GetPartyLazy(s, role, key);
      CreateUserSteps(g.state, args, role);
      GetPartyLazy(g.state, role, key);
    }
  }

  // ---------------------------------------------------------------------
  // Entry points

  /** CreateUser is dispatched without looking at the caller's identity. */
  lemma InvokeCreateUserNeedsNoIdentity(s: State, json: Decoder, rev: Revision, args: seq<string>, cert: Certificate, now: string)
    ensures Invoke(s, json, rev, "CreateUser", args, cert, now) == CreateUser(s, args)
  {
  }

  /** Every other name needs an identity: when the caller cannot be
    * authenticated the invocation fails with that error and writes nothing,
    * and a name that is not one of the operations fails once the caller is
    * known. */
  lemma InvokeNeedsIdentity(s: State, json: Decoder, rev: Revision, fname: string, args: seq<string>, cert: Certificate, now: string)
    requires FunctionNamed(fname) != CreateUserFn && FunctionNamed(fname) != SetupFn
    ensures Authenticate(s, rev, cert).Err? ==>
      Invoke(s, json, rev, fname, args, cert, now) == Step(Err(Authenticate(s, rev, cert).error), s)
    ensures FunctionNamed(fname) == UnknownName ==> Invoke(s, json, rev, fname, args, cert, now).state == s
    ensures FunctionNamed(fname) == UnknownName ==> Invoke(s, json, rev, fname, args, cert, now).result.Err?
  {
    match Authenticate(s, rev, cert)
    case Err(e) =>
      assert Invoke(s, json, rev, fname, args, cert, now) == Step(Err(e), s);
    case Ok(c) =>
      InvokeSteps(s, json, rev, fname, args, cert, now);
      if FunctionNamed(fname) == UnknownName {
        assert Write(s, json, rev, UnknownName, c, args, now) == Step(Err(UnknownFunction), s);
      }
  }

  /** Query authenticates the caller before any read, except that the
    * current revision answers GetCertAttribute first; a name that is not a
    * read fails and writes nothing. */
  lemma QueryNeedsIdentity(s: State, rev: Revision, fname: string, args: seq<string>, cert: Certificate)
    ensures rev.certAttributeQuery && FunctionNamed(fname) == GetCertAttributeFn ==>
      Query(s, rev, fname, args, cert) == Step(Err(NotModelled), s)
    ensures !(rev.certAttributeQuery && FunctionNamed(fname) == GetCertAttributeFn) && Authenticate(s, rev, cert).Err? ==>
      Query(s, rev, fname, args, cert) == Step(Err(Authenticate(s, rev, cert).error), s)
    ensures FunctionNamed(fname) == UnknownName ==> Query(s, rev, fname, args, cert).state == s
    ensures FunctionNamed(fname) == UnknownName ==> Query(s, rev, fname, args, cert).result.Err?
  {
    var f := FunctionNamed(fname);
    if !(rev.certAttributeQuery && f == GetCertAttributeFn) {
      match Authenticate(s, rev, cert)
      case Err(e) =>
        assert Query(s, rev, fname, args, cert) == Step(Err(e), s);
      case Ok(c) =>
        assert Query(s, rev, fname, args, cert) == Read(s, rev, f, c, args);
        if f == UnknownName {
          assert Read(s, rev, f, c, args) == Step(Err(UnknownFunction), s);
        }
    }
  }

  /** The identity guard: a caller is accepted only with a non-blank name
    * and a positive affiliation, taken from the certificate (current
    * revision) or from the caller's stored record (earlier revision). */
  lemma AuthenticateAccepts(s: State, rev: Revision, cert: Certificate)
    ensures Authenticate(s, rev, cert).Ok? <==>
      && cert.username.Some? && TrimSpace(cert.username.value) != []
      && (if rev.roleFromUserRecord
          then StoredParty(s, UserKey(cert.username.value)).Some? && StoredParty(s, UserKey(cert.username.value)).value.affiliation > 0
          else cert.role.Some? && Atoi(cert.role.value).Some? && Atoi(cert.role.value).value > 0)
    ensures Authenticate(s, rev, cert).Ok? ==> Authenticate(s, rev, cert).value.id == cert.username.value
  {
    match cert.username
    case None =>
    case Some(name) =>
      if rev.roleFromUserRecord {
        match StoredParty(s, UserKey(name))
        case None =>
        case Some(p) =>
          assert CallerMetadata(s, rev, cert) == Ok(Caller(name, p.affiliation));
      } else {
        match cert.role
        case None =>
        case Some(text) =>
          match Atoi(text)
          case None =>
          case Some(a) =>
            assert CallerMetadata(s, rev, cert) == Ok(Caller(name, a));
      }
  }

  /** t is s, or s with the entry under key replaced or added. */
  predicate WritesAtMost(s: State, t: State, key: string)
  {
    t == s || (key in t && t == s[key := t[key]])
  }

  /** A listing writes nothing but the caller's own record. */
  lemma MortgageApplicationsListingWritesOnlyCaller(s: State, rev: Revision, callerId: string, affiliation: int)
    ensures WritesAtMost(s, GetMortgageApplications(s, rev, callerId, affiliation).state, UserKey(callerId))
  {
    GetPartyLazy(s, if affiliation == BUYER_A then Buyer else Bank, UserKey(callerId));
  }

  lemma AppraiserApplicationsListingWritesOnlyCaller(s: State, rev: Revision, callerId: string, affiliation: int)
    ensures WritesAtMost(s, GetAppraiserApplications(s, rev, callerId, affiliation).state, UserKey(callerId))
  {
    GetPartyLazy(s, Appraiser, UserKey(callerId));
  }

  lemma SalesContractsListingWritesOnlyCaller(s: State, rev: Revision, callerId: string, affiliation: int)
    ensures WritesAtMost(s, GetSalesContracts(s, rev, callerId, affiliation).state, UserKey(callerId))
  {
    GetPartyLazy(s, ContractHolder(affiliation), UserKey(callerId));
  }

  /** A read writes at most one entry: the caller's party record when a
    * listing creates it, or the document's log holder when the audit read
    * creates it. */
  lemma ReadWritesAtMostOneKey(s: State, rev: Revision, f: FunctionName, c: Caller, args: seq<string>)
    ensures
      var t := Read(s, rev, f, c, args).state;
      || WritesAtMost(s, t, UserKey(c.id))
      || (|args| >= 1 && WritesAtMost(s, t, MALogKey(args[0])))
  {
    match f
    case GetMortgageApplicationsFn =>
      MortgageApplicationsListingWritesOnlyCaller(s, rev, c.id, c.affiliation);
    case GetAppraiserApplicationsFn =>
      AppraiserApplicationsListingWritesOnlyCaller(s, rev, c.id, c.affiliation);
    case GetSalesContractsFn =>
      SalesContractsListingWritesOnlyCaller(s, rev, c.id, c.affiliation);
    case _ =>
  }

  /** Writing only a key that is neither a document's nor a registry's
    * keeps every document and registry. */
  lemma WritesAtMostKeepsDocuments(s: State, t: State, key: string, docId: string)
    requires WritesAtMost(s, t, key)
    requires key != MAKey(docId) && key != AAKey(docId) && key != SCKey(docId)
    requires key != MaKeysName && key != AaKeysName && key != ScKeysName
    ensures StoredMA(t, MAKey(docId)) == StoredMA(s, MAKey(docId))
    ensures StoredAA(t, AAKey(docId)) == StoredAA(s, AAKey(docId))
    ensures StoredSC(t, SCKey(docId)) == StoredSC(s, SCKey(docId))
    ensures StoredKeys(t, MaKeysName) == StoredKeys(s, MaKeysName)
    ensures StoredKeys(t, AaKeysName) == StoredKeys(s, AaKeysName)
    ensures StoredKeys(t, ScKeysName) == StoredKeys(s, ScKeysName)
  {
  }

  /** A read writes no document and no registry. */
  lemma ReadKeepsDocuments(s: State, rev: Revision, f: FunctionName, c: Caller, args: seq<string>, docId: string)
    ensures
      var t := Read(s, rev, f, c, args).state;
      && StoredMA(t, MAKey(docId)) == StoredMA(s, MAKey(docId))
      && StoredAA(t, AAKey(docId)) == StoredAA(s, AAKey(docId))
      && StoredSC(t, SCKey(docId)) == StoredSC(s, SCKey(docId))
      && StoredKeys(t, MaKeysName) == StoredKeys(s, MaKeysName)
      && StoredKeys(t, AaKeysName) == StoredKeys(s, AaKeysName)
      && StoredKeys(t, ScKeysName) == StoredKeys(s, ScKeysName)
  {
    var t := Read(s, rev, f, c, args).state;
    ReadWritesAtMostOneKey(s, rev, f, c, args);
    if WritesAtMost(s, t, UserKey(c.id)) {
      DocumentKeysDistinct(docId, c.id);
      WritesAtMostKeepsDocuments(s, t, UserKey(c.id), docId);
    } else {
      OutsideLog(args[0], docId);
      WritesAtMostKeepsDocuments(s, t, MALogKey(args[0]), docId);
    }
  }

  /** Query writes no document and no registry. */
  lemma QueryKeepsDocuments(s: State, rev: Revision, fname: string, args: seq<string>, cert: Certificate, docId: string)
    ensures
      var t := Query(s, rev, fname, args, cert).state;
      && StoredMA(t, MAKey(docId)) == StoredMA(s, MAKey(docId))
      && StoredAA(t, AAKey(docId)) == StoredAA(s, AAKey(docId))
      && StoredSC(t, SCKey(docId)) == StoredSC(s, SCKey(docId))
      && StoredKeys(t, MaKeysName) == StoredKeys(s, MaKeysName)
      && StoredKeys(t, AaKeysName) == StoredKeys(s, AaKeysName)
      && StoredKeys(t, ScKeysName) == StoredKeys(s, ScKeysName)
  {
    var f := FunctionNamed(fname);
    if !(rev.certAttributeQuery && f == GetCertAttributeFn) && Authenticate(s, rev, cert).Ok? {
      ReadKeepsDocuments(s, rev, f, Authenticate(s, rev, cert).value, args, docId);
    }
  }
}
