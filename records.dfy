// The documents and party records the marketplace chaincode keeps on its
// ledger, the update payloads it accepts, its audit-log entries, and what a
// ledger entry holds once decoded.

module Records {
  import opened Base
  import opened Keys

  datatype PersonalInfo = PersonalInfo(
    firstname: string, lastname: string, dob: string,
    phone: string, mobile: string, email: string)

  datatype FinancialInfo = FinancialInfo(
    monthlySalary: int, otherIncome: int, otherExpenditure: int,
    monthlyRent: int, monthlyLoanPayment: int)

  datatype MortgageApplication = MortgageApplication(
    id: string,
    propertyId: string,
    landId: string,
    permitId: string,
    buyerId: string,
    appraiserApplicationId: string,
    salesContractId: string,
    personalInfo: PersonalInfo,
    financialInfo: FinancialInfo,
    status: string,
    requestedAmount: int,
    fairMarketValue: int,
    approvedAmount: int,
    reviewerId: string,
    lastModifiedDate: string)

  datatype SalesContract = SalesContract(
    id: string,
    propertyId: string,
    buyerId: string,
    sellerId: string,
    reviewerId: string,
    buyerSignature: string,
    sellerSignature: string,
    status: string,
    price: int,
    lastModifiedDate: string)

  datatype AppraiserApplication = AppraiserApplication(
    id: string,
    mortgageApplicationId: string,
    appraiserId: string,
    reviewerId: string,
    propertyId: string,
    status: string,
    fairMarketValue: int,
    lastModifiedDate: string)

  /** Partial updates: a blank string or a zero amount means "leave as is". */
  datatype MAUpdate = MAUpdate(status: string, salesContractId: string, fairMarketValue: int, approvedAmount: int)
  datatype AAUpdate = AAUpdate(status: string, fairMarketValue: int)
  datatype SCUpdate = SCUpdate(status: string, buyerSignature: string, sellerSignature: string, price: int)

  /** One audit-log entry. */
  datatype MALog = MALog(
    mortgageApplicationId: string, buyerId: string, reviewerId: string,
    status: string, action: string, text: string, timestamp: string)

  // ---------------------------------------------------------------------
  // Parties

  /** The five kinds of party; each has its own record struct. */
  datatype Role = Buyer | Seller | Bank | Appraiser | Auditor

  function Affiliation(role: Role): (a: int)
    ensures BUYER_A <= a <= AUDITOR_A
  {
    match role
    case Buyer => BUYER_A
    case Seller => SELLER_A
    case Bank => BANK_A
    case Appraiser => APPRAISER_A
    case Auditor => AUDITOR_A
  }

  /** The role whose affiliation code is a, if a is one of the five codes. */
  function RoleOf(a: int): (r: Option<Role>)
    ensures r.Some? <==> BUYER_A <= a <= AUDITOR_A
    ensures r.Some? ==> Affiliation(r.value) == a
  {
    if a == BUYER_A then Some(Buyer)
    else if a == SELLER_A then Some(Seller)
    else if a == BANK_A then Some(Bank)
    else if a == APPRAISER_A then Some(Appraiser)
    else if a == AUDITOR_A then Some(Auditor)
    else None
  }

  /** A party record as stored under a "user:" key. All roles share that
    * prefix, so the stored object is the union of the role structs' fields;
    * a list a role's struct lacks is empty when that role writes it. */
  datatype Party = Party(
    id: string,
    affiliation: int,
    mortgageApplications: seq<string>,
    salesContracts: seq<string>,
    appraiserApplications: seq<string>)

  /** The three document lists a party record can carry. */
  datatype PartyList = MortgageApplications | SalesContracts | AppraiserApplications

  /** Whether the struct of a role has the given list. */
  predicate HasList(role: Role, list: PartyList)
  {
    match list
    case MortgageApplications => role == Buyer || role == Bank
    case SalesContracts => role == Buyer || role == Bank || role == Seller
    case AppraiserApplications => role == Appraiser
  }

  function ListOf(p: Party, list: PartyList): seq<string>
  {
    match list
    case MortgageApplications => p.mortgageApplications
    case SalesContracts => p.salesContracts
    case AppraiserApplications => p.appraiserApplications
  }

  /** What decoding a stored party into the struct of a role yields: the id,
    * the affiliation and the lists that struct has. */
  function View(role: Role, p: Party): (v: Party)
    ensures v.id == p.id && v.affiliation == p.affiliation
    ensures forall list :: ListOf(v, list) == if HasList(role, list) then ListOf(p, list) else []
  {
    Party(
      p.id, p.affiliation,
      if HasList(role, MortgageApplications) then p.mortgageApplications else [],
      if HasList(role, SalesContracts) then p.salesContracts else [],
      if HasList(role, AppraiserApplications) then p.appraiserApplications else [])
  }

  /** The record a Get<Role> helper creates for an absent key: its id is the
    * ledger key itself, its affiliation the role's code, its lists empty. */
  function NewParty(role: Role, key: string): Party
  {
    Party(key, Affiliation(role), [], [], [])
  }

  /** The zero value of a party struct. */
  const ZeroParty := Party("", 0, [], [], [])

  /** A party with id appended at the end of one of its lists. */
  function Append(p: Party, list: PartyList, id: string): (q: Party)
    ensures ListOf(q, list) == ListOf(p, list) + [id]
    ensures forall other :: other != list ==> ListOf(q, other) == ListOf(p, other)
    ensures q.id == p.id && q.affiliation == p.affiliation
  {
    match list
    case MortgageApplications => p.(mortgageApplications := p.mortgageApplications + [id])
    case SalesContracts => p.(salesContracts := p.salesContracts + [id])
    case AppraiserApplications => p.(appraiserApplications := p.appraiserApplications + [id])
  }

  // ---------------------------------------------------------------------
  // Ledger values

  /** What a ledger entry holds, read as the struct the chaincode decodes it
    * into. Opaque is stored text that decodes as none of them. */
  datatype Value =
    | MortgageDoc(ma: MortgageApplication)
    | AppraiserDoc(aa: AppraiserApplication)
    | ContractDoc(sc: SalesContract)
    | PartyDoc(party: Party)
    | KeyListDoc(keys: seq<string>)
    | LogHolderDoc(entries: seq<MALog>)
    | LogListDoc(logs: seq<MALog>)
    | Opaque

  /** JSON decoding of the text arguments into the chaincode's structs;
    * None is a decoding error. */
  datatype Decoder = Decoder(
    mortgageApplication: string -> Option<MortgageApplication>,
    appraiserApplication: string -> Option<AppraiserApplication>,
    salesContract: string -> Option<SalesContract>,
    maUpdate: string -> Option<MAUpdate>,
    aaUpdate: string -> Option<AAUpdate>,
    scUpdate: string -> Option<SCUpdate>)

  /** The JSON text UpdateAppraiserApplication forwards to
    * UpdateMortgageApplication: an object with only a fair market value. */
  function FmvPatch(fmv: int): string
  {
    "{\"fairMarketValue\":" + Itoa(fmv) + "}"
  }

  /** JSON decoding reads the forwarded object as an update that sets the fair
    * market value and leaves every other field blank. */
  ghost predicate DecodesFmvPatch(json: Decoder)
  {
    forall n :: InInt64(n) ==> json.maUpdate(FmvPatch(n)) == Some(MAUpdate("", "", n, 0))
  }
}
