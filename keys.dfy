// Ledger key layout of the marketplace chaincode: object type codes,
// affiliation codes, the "<prefix><id>" state keys built by GetStateKey and
// the fixed names under which the chaincode keeps its registries.

module Keys {
  import opened Base

  // Object type codes accepted by GetStateKey.
  const BUYER := 1
  const SELLER := 2
  const BANK := 3
  const APPRAISER := 4
  const AUDITOR := 5
  const USER := 6
  const LAND := 7
  const PROPERTY := 8
  const PROPERTYAD := 9
  const MORTGAGEAPPLICATION := 10
  const SALESCONTRACT := 11
  const APPRAISERAPPLICATION := 12
  const MALOG := 13

  // Affiliation codes carried by a caller and stored in party records.
  const BUYER_A := 1
  const SELLER_A := 2
  const BANK_A := 3
  const APPRAISER_A := 4
  const AUDITOR_A := 5

  // Registry and log names; none contains ':' so none is a state key.
  const MaKeysName := "maKeys"
  const AaKeysName := "aaKeys"
  const ScKeysName := "scKeys"
  const MaLogKeysName := "maLogKeys"
  const BcLogsKey := "bcLogsKey"

  predicate ValidType(otype: int)
  {
    BUYER <= otype <= MALOG
  }

  /** The key prefix of each object type. */
  function Prefix(otype: int): string
    requires ValidType(otype)
  {
    match otype
    case 1 => "buyer:"
    case 2 => "seller:"
    case 3 => "bank:"
    case 4 => "appraiser:"
    case 5 => "auditor:"
    case 6 => "user:"
    case 7 => "land:"
    case 8 => "prop:"
    case 9 => "propad:"
    case 10 => "ma:"
    case 11 => "sc:"
    case 12 => "aa:"
    case _ => "malog:"
  }

  /** The object type whose prefix is p, if any. */
  function TypeOfPrefix(p: string): Option<int>
  {
    if p == "buyer:" then Some(BUYER)
    else if p == "seller:" then Some(SELLER)
    else if p == "bank:" then Some(BANK)
    else if p == "appraiser:" then Some(APPRAISER)
    else if p == "auditor:" then Some(AUDITOR)
    else if p == "user:" then Some(USER)
    else if p == "land:" then Some(LAND)
    else if p == "prop:" then Some(PROPERTY)
    else if p == "propad:" then Some(PROPERTYAD)
    else if p == "ma:" then Some(MORTGAGEAPPLICATION)
    else if p == "sc:" then Some(SALESCONTRACT)
    else if p == "aa:" then Some(APPRAISERAPPLICATION)
    else if p == "malog:" then Some(MALOG)
    else None
  }

  /** Position of the first ':' in s, or |s| when there is none. */
  function ColonIndex(s: string): (i: nat)
    ensures i <= |s|
    ensures forall j :: 0 <= j < i ==> s[j] != ':'
    ensures i < |s| ==> s[i] == ':'
  {
    if s == [] then 0
    else if s[0] == ':' then 0
    else 1 + ColonIndex(s[1..])
  }

  datatype StateKey = StateKey(otype: int, id: string)

  /** Reads a ledger key back as the type and id GetStateKey built it from:
    * the text up to the first ':' names the type, the rest is the id. */
  function ParseKey(key: string): Option<StateKey>
  {
    var i := ColonIndex(key);
    if i == |key| then None
    else match TypeOfPrefix(key[..i + 1])
      case None => None
      case Some(t) => Some(StateKey(t, key[i + 1..]))
  }

  /** GetStateKey: the ledger key of an object of the given type, or an error
    * for an unknown type code. Every key it builds parses back to its type
    * and id, so keys of different objects never coincide. */
  function GetStateKey(id: string, otype: int): (r: Result<string>)
    ensures r.Ok? <==> ValidType(otype)
    ensures r.Ok? ==> ParseKey(r.value) == Some(StateKey(otype, id))
  {
    if ValidType(otype) then
      ParseKeyOfPrefixed(otype, id);
      Ok(Prefix(otype) + id)
    else
      Err(InvalidType)
  }

  // Shorthands for the keys the core builds.
  function MAKey(id: string): string { Prefix(MORTGAGEAPPLICATION) + id }
  function AAKey(id: string): string { Prefix(APPRAISERAPPLICATION) + id }
  function SCKey(id: string): string { Prefix(SALESCONTRACT) + id }
  function UserKey(id: string): string { Prefix(USER) + id }
  function MALogKey(id: string): string { Prefix(MALOG) + id }

  lemma {:induction false} ColonIndexAfterPrefix(p: string, id: string)
    requires |p| > 0 && p[|p| - 1] == ':'
    requires forall j :: 0 <= j < |p| - 1 ==> p[j] != ':'
    ensures ColonIndex(p + id) == |p| - 1
  {
    if |p| > 1 {
      assert (p + id)[1..] == p[1..] + id;
      ColonIndexAfterPrefix(p[1..], id);
    }
  }

  lemma ParseKeyOfPrefixed(otype: int, id: string)
    requires ValidType(otype)
    ensures ParseKey(Prefix(otype) + id) == Some(StateKey(otype, id))
  {
    var p := Prefix(otype);
    ColonIndexAfterPrefix(p, id);
    assert (p + id)[..|p|] == p;
    assert (p + id)[|p|..] == id;
  }

  /** Two state keys are equal only when they name the same type and id. */
  lemma StateKeyInjective(t1: int, id1: string, t2: int, id2: string)
    requires ValidType(t1) && ValidType(t2)
    requires Prefix(t1) + id1 == Prefix(t2) + id2
    ensures t1 == t2 && id1 == id2
  {
    ParseKeyOfPrefixed(t1, id1);
    ParseKeyOfPrefixed(t2, id2);
  }

  lemma ColonFree(s: string)
    requires ':' !in s
    ensures ParseKey(s) == None
  {
  }

  /** The registry and log names are not state keys of any object. */
  lemma NamesAreNotStateKeys()
    ensures ParseKey(MaKeysName) == None && ParseKey(AaKeysName) == None
    ensures ParseKey(ScKeysName) == None && ParseKey(MaLogKeysName) == None
    ensures ParseKey(BcLogsKey) == None
  {
    ColonFree(MaKeysName);
    ColonFree(AaKeysName);
    ColonFree(ScKeysName);
    ColonFree(MaLogKeysName);
    ColonFree(BcLogsKey);
  }
}
