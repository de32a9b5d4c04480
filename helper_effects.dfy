// What the chaincode's storage helpers do to the ledger: the lazy creation
// of party records, the read-append-save sequence of the Create operations,
// the registry update of AddKey and the three writes of AppendMALog.

module HelperEffects {
  import opened Base
  import opened Keys
  import opened Records
  import opened Ledger
  import opened Invariants

  /** The party record a Get<Role> helper yields under key, or the zero record
    * when the stored entry does not decode. */
  function PartyRead(s: State, role: Role, key: string): Party
  {
    GetParty(s, role, key).result.GetOr(ZeroParty)
  }

  /** One list of the party record stored under key; empty when there is none. */
  function ListUnder(s: State, key: string, list: PartyList): seq<string>
  {
    match StoredParty(s, key)
    case None => []
    case Some(p) => ListOf(p, list)
  }

  /** The entries of a document's log holder; empty when there is none. */
  function EntriesOf(s: State, id: string): seq<MALog>
  {
    if MALogKey(id) in s && s[MALogKey(id)].LogHolderDoc? then s[MALogKey(id)].entries else []
  }

  /** The network-wide log; empty when there is none. */
  function BCLogsOf(s: State): seq<MALog>
  {
    if BcLogsKey in s && s[BcLogsKey].LogListDoc? then s[BcLogsKey].logs else []
  }

  /** The fixed names of the registries and the network-wide log differ
    * from each other. */
  lemma NamesDistinct()
    ensures MaKeysName != AaKeysName && MaKeysName != ScKeysName && AaKeysName != ScKeysName
    ensures MaLogKeysName != MaKeysName && MaLogKeysName != AaKeysName && MaLogKeysName != ScKeysName
    ensures BcLogsKey != MaKeysName && BcLogsKey != AaKeysName && BcLogsKey != ScKeysName && BcLogsKey != MaLogKeysName
  {
    assert MaKeysName[0] != AaKeysName[0] && MaKeysName[0] != ScKeysName[0] && AaKeysName[0] != ScKeysName[0];
    assert |MaLogKeysName| != |MaKeysName| && MaLogKeysName[0] != AaKeysName[0] && MaLogKeysName[0] != ScKeysName[0];
    assert |BcLogsKey| != |MaKeysName| && BcLogsKey[0] != AaKeysName[0] && BcLogsKey[0] != ScKeysName[0];
    assert BcLogsKey[0] != MaLogKeysName[0];
  }

  /** The keys AppendMALog writes are none of the keys of documents, party
    * records or registries. */
  lemma OutsideLog(id: string, other: string)
    ensures MAKey(other) != MALogKey(id) && MAKey(other) != MaLogKeysName && MAKey(other) != BcLogsKey
    ensures AAKey(other) != MALogKey(id) && AAKey(other) != MaLogKeysName && AAKey(other) != BcLogsKey
    ensures SCKey(other) != MALogKey(id) && SCKey(other) != MaLogKeysName && SCKey(other) != BcLogsKey
    ensures UserKey(other) != MALogKey(id) && UserKey(other) != MaLogKeysName && UserKey(other) != BcLogsKey
    ensures MaKeysName != MALogKey(id) && MaKeysName != MaLogKeysName && MaKeysName != BcLogsKey
    ensures AaKeysName != MALogKey(id) && ScKeysName != MALogKey(id)
    ensures MALogKey(id) != MaLogKeysName && MALogKey(id) != BcLogsKey && MaLogKeysName != BcLogsKey
  {
    KeyShapes();
    NamesDistinct();
  }

  /** Document keys, party keys and registry names are pairwise distinct. */
  lemma DocumentKeysDistinct(id: string, other: string)
    ensures MAKey(id) != UserKey(other) && AAKey(id) != UserKey(other) && SCKey(id) != UserKey(other)
    ensures MAKey(id) != AAKey(other) && MAKey(id) != SCKey(other) && AAKey(id) != SCKey(other)
    ensures MaKeysName != MAKey(id) && MaKeysName != AAKey(id) && MaKeysName != SCKey(id) && MaKeysName != UserKey(other)
    ensures AaKeysName != AAKey(id) && ScKeysName != SCKey(id)
    ensures AaKeysName != UserKey(other) && ScKeysName != UserKey(other)
  {
    KeyShapes();
  }

  /** A Get<Role> helper writes only when the key is absent, and then stores
    * a fresh record whose id is the key, whose affiliation is the role's and
    * whose lists are empty; an existing record is returned as the role sees
    * it and left as it is. */
  lemma GetPartyLazy(s: State, role: Role, key: string)
    ensures key !in s ==>
      && GetParty(s, role, key).state == s[key := PartyDoc(GetParty(s, role, key).result.value)]
      && GetParty(s, role, key).result.value.id == key
      && GetParty(s, role, key).result.value.affiliation == Affiliation(role)
      && forall list :: ListOf(GetParty(s, role, key).result.value, list) == []
    ensures key in s ==> GetParty(s, role, key).state == s
    ensures key in s && s[key].PartyDoc? ==>
      GetParty(s, role, key).result == Ok(View(role, s[key].party))
    ensures forall list :: HasList(role, list) && (key !in s || s[key].PartyDoc?) ==>
      ListOf(PartyRead(s, role, key), list) == ListUnder(s, key, list)
  {
  }

  /** The read-append-save sequence under one key changes only that key:
    * the record there (created if absent) gains id at the end of the list,
    * and its other lists the role knows, its id and its affiliation stay. */
  lemma AppendToPartyEffect(s: State, role: Role, key: string, list: PartyList, id: string)
    requires key !in s || s[key].PartyDoc?
    requires HasList(role, list)
    ensures
      var t := AppendToParty(s, role, key, key, list, id);
      && t == s[key := PartyDoc(View(role, Append(PartyRead(s, role, key), list, id)))]
      && ListUnder(t, key, list) == ListUnder(s, key, list) + [id]
      && (forall other :: other != list && HasList(role, other) ==> ListUnder(t, key, other) == ListUnder(s, key, other))
      && StoredParty(t, key).value.id == PartyRead(s, role, key).id
      && StoredParty(t, key).value.affiliation == PartyRead(s, role, key).affiliation
  {
    GetPartyLazy(s, role, key);
  }

  /** The read-append-save sequence under one key writes that key alone,
    * whatever the key held before. */
  lemma AppendToPartyWrites(s: State, role: Role, key: string, list: PartyList, id: string)
    ensures AppendToParty(s, role, key, key, list, id)
         == s[key := PartyDoc(View(role, Append(PartyRead(s, role, key), list, id)))]
  {
    if key !in s {
      var v := PartyDoc(View(role, Append(PartyRead(s, role, key), list, id)));
      assert s[key := PartyDoc(NewParty(role, key))][key := v] == s[key := v];
    }
  }

  /** AddKey reads the list named keysName but writes the result under the
    * mortgage-application registry: only that registry changes, and it ends
    * up as the list read with id appended. */
  lemma AddKeyWritesMortgageRegistry(s: State, id: string, keysName: string)
    requires StoredKeys(s, keysName).Ok?
    ensures AddKey(s, id, keysName)
         == Step(Ok(true), s[MaKeysName := KeyListDoc(StoredKeys(s, keysName).value + [id])])
  {
  }

  /** Registering an appraiser application or a sales contract while its own
    * registry is empty replaces the whole mortgage-application registry with
    * the new key alone, and the registry that was named is never written. */
  lemma AddKeyClobbersMortgageRegistry(s: State, id: string, keysName: string)
    requires keysName == AaKeysName || keysName == ScKeysName
    requires keysName !in s
    ensures StoredKeys(AddKey(s, id, keysName).state, MaKeysName) == Ok([id])
    ensures StoredKeys(AddKey(s, id, keysName).state, keysName) == Ok([])
  {
    NamesDistinct();
    AddKeyWritesMortgageRegistry(s, id, keysName);
    assert StoredKeys(s, keysName).value + [id] == [id];
  }

  /** On a well-formed ledger AppendMALog makes exactly three writes: the
    * document's holder gains the entry at its end, the log-key list gains the
    * holder's key at its end (whether or not it is already listed), and the
    * network-wide log gains the same entry at its end. The entry names no
    * buyer and no reviewer. */
  lemma AppendMALogEffect(s: State, action: string, text: string, status: string, id: string, now: string)
    requires WellFormed(s)
    ensures
      var r := AppendMALog(s, action, text, status, id, now);
      var entry := LogEntry(id, action, text, status, now);
      && r.result == Ok(())
      && r.state == s[MALogKey(id) := LogHolderDoc(EntriesOf(s, id) + [entry])]
                     [MaLogKeysName := KeyListDoc(StoredKeys(s, MaLogKeysName).value + [MALogKey(id)])]
                     [BcLogsKey := LogListDoc(BCLogsOf(s) + [entry])]
      && entry.buyerId == [] && entry.reviewerId == []
  {
    OutsideLog(id, id);
    var key := MALogKey(id);
    GetMALogHolderPreserves(s, id);
    var h := GetMALogHolder(s, key);
    assert h.result == Ok(EntriesOf(s, id));
    var entry := LogEntry(id, action, text, status, now);
    var s1 := h.state[key := LogHolderDoc(h.result.value + [entry])];
    assert s1 == s[key := LogHolderDoc(EntriesOf(s, id) + [entry])];
    assert StoredKeys(s1, MaLogKeysName) == StoredKeys(s, MaLogKeysName);
    var s2 := s1[MaLogKeysName := KeyListDoc(StoredKeys(s, MaLogKeysName).value + [key])];
    assert GetBCLogs(s2) == Ok(BCLogsOf(s));
  }

  /** The read-append-save sequence on one party keeps the ledger well
    * formed and extends the party's list by the id. */
  lemma AppendToPartyGrows(s: State, role: Role, userId: string, list: PartyList, id: string)
    requires WellFormed(s) && HasList(role, list)
    ensures
      var t := AppendToParty(s, role, UserKey(userId), UserKey(userId), list, id);
      && WellFormed(t)
      && ListUnder(t, UserKey(userId), list) == ListUnder(s, UserKey(userId), list) + [id]
  {
    AppendToPartyEffect(s, role, UserKey(userId), list, id);
    AppendToPartyPreserves(s, role, userId, userId, list, id);
  }

  /** The read-append-save sequence on one party leaves every document as
    * it was. */
  lemma AppendToPartyKeepsDocuments(s: State, role: Role, userId: string, list: PartyList, id: string, docId: string)
    ensures
      var t := AppendToParty(s, role, UserKey(userId), UserKey(userId), list, id);
      && StoredMA(t, MAKey(docId)) == StoredMA(s, MAKey(docId))
      && StoredAA(t, AAKey(docId)) == StoredAA(s, AAKey(docId))
      && StoredSC(t, SCKey(docId)) == StoredSC(s, SCKey(docId))
  {
    AppendToPartyWrites(s, role, UserKey(userId), list, id);
    DocumentKeysDistinct(docId, userId);
  }

  /** The read-append-save sequence on one party leaves the registries as
    * they were. */
  lemma AppendToPartyKeepsRegistries(s: State, role: Role, userId: string, list: PartyList, id: string)
    ensures
      var t := AppendToParty(s, role, UserKey(userId), UserKey(userId), list, id);
      && StoredKeys(t, MaKeysName) == StoredKeys(s, MaKeysName)
      && StoredKeys(t, AaKeysName) == StoredKeys(s, AaKeysName)
      && StoredKeys(t, ScKeysName) == StoredKeys(s, ScKeysName)
  {
    AppendToPartyWrites(s, role, UserKey(userId), list, id);
    DocumentKeysDistinct(userId, userId);
  }

  /** The read-append-save sequence on one party leaves every log holder as
    * it was. */
  lemma AppendToPartyKeepsLogs(s: State, role: Role, userId: string, list: PartyList, id: string, docId: string)
    ensures EntriesOf(AppendToParty(s, role, UserKey(userId), UserKey(userId), list, id), docId) == EntriesOf(s, docId)
  {
    AppendToPartyWrites(s, role, UserKey(userId), list, id);
    OutsideLog(docId, userId);
  }

  /** What the read-append-save sequence on one party leaves unchanged:
    * every document, every registry and every log. */
  lemma AppendToPartyFrame(s: State, role: Role, userId: string, list: PartyList, id: string, docId: string)
    ensures
      var t := AppendToParty(s, role, UserKey(userId), UserKey(userId), list, id);
      && StoredMA(t, MAKey(docId)) == StoredMA(s, MAKey(docId))
      && StoredAA(t, AAKey(docId)) == StoredAA(s, AAKey(docId))
      && StoredSC(t, SCKey(docId)) == StoredSC(s, SCKey(docId))
      && StoredKeys(t, MaKeysName) == StoredKeys(s, MaKeysName)
      && StoredKeys(t, AaKeysName) == StoredKeys(s, AaKeysName)
      && StoredKeys(t, ScKeysName) == StoredKeys(s, ScKeysName)
      && EntriesOf(t, docId) == EntriesOf(s, docId)
  {
    AppendToPartyKeepsDocuments(s, role, userId, list, id, docId);
    AppendToPartyKeepsRegistries(s, role, userId, list, id);
    AppendToPartyKeepsLogs(s, role, userId, list, id, docId);
  }

  /** The read-append-save sequence on one party leaves every other party's
    * record as it was. */
  lemma AppendToPartyOthers(s: State, role: Role, userId: string, list: PartyList, id: string, other: string)
    requires other != userId
    ensures forall l :: ListUnder(AppendToParty(s, role, UserKey(userId), UserKey(userId), list, id), UserKey(other), l)
                     == ListUnder(s, UserKey(other), l)
  {
    assert UserKey(other) != UserKey(userId) by {
      assert UserKey(other)[5..] == other && UserKey(userId)[5..] == userId;
    }
  }

  /** AppendMALog leaves every document as it was. */
  lemma AppendMALogKeepsDocuments(s: State, action: string, text: string, status: string, id: string, now: string, docId: string)
    requires WellFormed(s)
    ensures
      var t := AppendMALog(s, action, text, status, id, now).state;
      && StoredMA(t, MAKey(docId)) == StoredMA(s, MAKey(docId))
      && StoredAA(t, AAKey(docId)) == StoredAA(s, AAKey(docId))
      && StoredSC(t, SCKey(docId)) == StoredSC(s, SCKey(docId))
  {
    OutsideLog(id, docId);
    AppendMALogEffect(s, action, text, status, id, now);
  }

  /** AppendMALog leaves every party record as it was. */
  lemma AppendMALogKeepsParties(s: State, action: string, text: string, status: string, id: string, now: string, userId: string)
    requires WellFormed(s)
    ensures forall l :: ListUnder(AppendMALog(s, action, text, status, id, now).state, UserKey(userId), l)
                     == ListUnder(s, UserKey(userId), l)
  {
    OutsideLog(id, userId);
    AppendMALogEffect(s, action, text, status, id, now);
  }

  /** AppendMALog leaves the document registries as they were. */
  lemma AppendMALogKeepsRegistries(s: State, action: string, text: string, status: string, id: string, now: string)
    requires WellFormed(s)
    ensures
      var t := AppendMALog(s, action, text, status, id, now).state;
      && StoredKeys(t, MaKeysName) == StoredKeys(s, MaKeysName)
      && StoredKeys(t, AaKeysName) == StoredKeys(s, AaKeysName)
      && StoredKeys(t, ScKeysName) == StoredKeys(s, ScKeysName)
  {
    OutsideLog(id, id);
    NamesDistinct();
    AppendMALogEffect(s, action, text, status, id, now);
  }

  /** AppendMALog adds its entry at the end of the document's holder. */
  lemma AppendMALogExtendsHolder(s: State, action: string, text: string, status: string, id: string, now: string)
    requires WellFormed(s)
    ensures EntriesOf(AppendMALog(s, action, text, status, id, now).state, id)
         == EntriesOf(s, id) + [LogEntry(id, action, text, status, now)]
  {
    OutsideLog(id, id);
    AppendMALogEffect(s, action, text, status, id, now);
  }

  /** What AppendMALog leaves unchanged: documents, party records and the
    * document registries; and the entry it adds to the holder. */
  lemma AppendMALogFrame(s: State, action: string, text: string, status: string, id: string, now: string, docId: string, userId: string)
    requires WellFormed(s)
    ensures
      var t := AppendMALog(s, action, text, status, id, now).state;
      && WellFormed(t)
      && EntriesOf(t, id) == EntriesOf(s, id) + [LogEntry(id, action, text, status, now)]
      && (forall l :: ListUnder(t, UserKey(userId), l) == ListUnder(s, UserKey(userId), l))
      && StoredMA(t, MAKey(docId)) == StoredMA(s, MAKey(docId))
      && StoredAA(t, AAKey(docId)) == StoredAA(s, AAKey(docId))
      && StoredSC(t, SCKey(docId)) == StoredSC(s, SCKey(docId))
      && StoredKeys(t, MaKeysName) == StoredKeys(s, MaKeysName)
      && StoredKeys(t, AaKeysName) == StoredKeys(s, AaKeysName)
      && StoredKeys(t, ScKeysName) == StoredKeys(s, ScKeysName)
  {
    AppendMALogPreserves(s, action, text, status, id, now);
    AppendMALogExtendsHolder(s, action, text, status, id, now);
    AppendMALogKeepsParties(s, action, text, status, id, now, userId);
    AppendMALogKeepsDocuments(s, action, text, status, id, now, docId);
    AppendMALogKeepsRegistries(s, action, text, status, id, now);
  }
}
