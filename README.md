# Mortgage marketplace chaincode, modelled in Dafny

This project models the Hyperledger Fabric chaincode of a blockchain mortgage
marketplace. Buyers submit mortgage applications. A reviewing bank orders an
appraisal, and the appraiser's fair market value flows back into the mortgage
application. Buyers and sellers negotiate a sales contract. Auditors read a
per-application audit log and a network-wide log.

Two revisions of the chaincode are modelled together: `v0.6/bc_marketplace_cc.go`
(the current one) and the earlier `bc_marketplace_cc.go`. They differ in six
places, and a `Ledger.Revision` value selects each of them:

- how a listing reads the caller's record;
- which key the bank's record is saved under when a sales contract is created;
- which field a seller's signature lands in;
- whether the network-wide audit read demands an argument;
- where the caller's affiliation comes from;
- whether `Query` answers `GetCertAttribute`.

`Ledger.Current` and `Ledger.Legacy` are the two revisions.

Layout:

- `base.dfy`: errors and results, `strings.TrimSpace`, and `strconv.Atoi`/`Itoa` on 64-bit integers.
- `keys.dfy`: type and affiliation codes, and `GetStateKey`'s `<prefix><id>` keys with their parser.
- `records.dfy`: documents, party records, update payloads, log entries, what a ledger entry decodes to, and the JSON decoder as a parameter.
- `rules.dfy`: who may read what, and how each update payload edits a document and phrases its log text.
- `ledger.dfy`: every operation as a pure function from the world state to a `Step(result, state)`.
- `chaincode.dfy`: class `Marketplace`. It holds the world state in a field and has one method per Go function. Each method performs the reads and writes one helper call at a time and is proved to end in exactly the state and answer of its `Ledger` function.
- `steps.dfy`: each operation, once its checks pass, as the sequence of helper calls it makes.
- `helper_effects.dfy`: what the shared helpers (`Get<Role>`, the read-append-save sequence, `AddKey`, `AppendMALog`) write and leave alone.
- `invariants.dfy`: `WellFormed`, meaning every key holds the kind of record its prefix or name dictates. Every operation preserves it.
- `mortgage_properties.dfy`, `appraisal_properties.dfy`, `contract_properties.dfy`, `access_properties.dfy`: what each operation does, who may do it, and what it leaves alone.

## Behaviour as written

The model follows the code. Where the code does something its authors
probably did not intend, the model does that too, and a lemma states it:

- `AddKey` reads the registry it is given but always writes the mortgage-application registry. Registering an appraiser application or a sales contract therefore replaces the mortgage-application registry. `HelperEffects.AddKeyClobbersMortgageRegistry` states this.
- The registries collect state keys (`ma:<id>`), not bare ids.
- Every party record lives under `user:<id>`, whatever the role.
- In the earlier revision, `CreateSalesContract` saves the bank's record under the seller's key. `ContractProperties.CreateSalesContractLegacyLists` states this.
- In the earlier revision, `UpdateSalesContract` stores a seller's signature in the buyer's field. `Rules.SellerSignatureOverwritesBuyer` states this.
- `AppendMALog` lists the holder's key again for every entry. `AccessProperties.LogKeyListedPerEntry` states this.
- `UpdateMortgageApplication` lets any appraiser set the fair market value, not only the one assigned.
- `CreateAppraiserApplication` stores the raw body before decoding it, so a body that does not decode stays stored.

## Model

| member | source | states |
|---|---|---|
| Base.TrimSpace | v0.6/bc_marketplace_cc.go:897 | the result is the infix of the input left after removing white space at both ends; all of what is removed is space, and the rest neither starts nor ends with space |
| Base.TrimSpaceEmptyIff | v0.6/bc_marketplace_cc.go:2057-2063 | a string trims to nothing exactly when it is all white space, which is when CreateUser's blank checks fire |
| Base.Atoi | v0.6/bc_marketplace_cc.go:2064-2067 | a parsed affiliation is always a 64-bit integer |
| Base.AtoiItoa | v0.6/bc_marketplace_cc.go:1132 | Atoi reads back what Itoa writes, for every 64-bit integer, as needed by the forwarded `{"fairMarketValue":N}` text |
| Base.ItoaInjective | v0.6/bc_marketplace_cc.go:922 | distinct amounts print differently in the log text |
| Keys.GetStateKey | v0.6/bc_marketplace_cc.go:1809-1841 | succeeds exactly for the 13 type codes, and every key it builds parses back to its type and id |
| Keys.StateKeyInjective | v0.6/bc_marketplace_cc.go:54-67 | two keys built by GetStateKey coincide only for the same type and id |
| Keys.NamesAreNotStateKeys | v0.6/bc_marketplace_cc.go:45-51 | the registry and log names are not keys of any object |
| Records.RoleOf | v0.6/bc_marketplace_cc.go:2075-2113 | an affiliation code names a role exactly when it is 1 to 5, and that role's code is the one given |
| Records.View | bc_marketplace_cc.go:225-258 | decoding a party into a role's struct keeps id and affiliation and exactly the lists that struct has |
| Records.Append | v0.6/bc_marketplace_cc.go:1210-1211 | appending an id extends one list at its end and changes nothing else |
| Rules.ReviewerEdit | v0.6/bc_marketplace_cc.go:894-941 | the reviewer changes only status, sales contract id and approved amount, each only when given (trimmed non-blank, non-zero); the edit counts as a change exactly when one is given |
| Rules.AppraiserEdit | v0.6/bc_marketplace_cc.go:951-967 | an appraiser changes only the fair market value, and only to a non-zero one; the log text is empty |
| Rules.AppraisalEdit | v0.6/bc_marketplace_cc.go:1112-1150 | status and fair market value are taken over when given, nothing else changes, and the log text names the caller first exactly when something changed |
| Rules.JoinPhrases | v0.6/bc_marketplace_cc.go:1356-1359 | the loop builds the message as every phrase preceded by one space, in order; `Chaincode.Marketplace.UpdateSalesContract` logs the message this loop builds |
| Rules.ContractEdit | v0.6/bc_marketplace_cc.go:1326-1349 | status, signatures and price are taken over when given, nothing else changes, and the text joins the phrases of the fields given; in the earlier revision the buyer-signature field takes the seller's signature when one is given, else the buyer's when one is given, and the seller's field never changes (bc_marketplace_cc.go lines 1713-1723) |
| Rules.SellerSignatureOverwritesBuyer | bc_marketplace_cc.go:1719-1723 | in the earlier revision a seller's signature lands in the buyer's field and the seller's field is left alone |
| Rules.ReviewerTextAttributed | v0.6/bc_marketplace_cc.go:897-928 | the reviewer's log text starts with the caller's id whenever something was changed, and is empty otherwise |
| Ledger.GetMortgageApplication | v0.6/bc_marketplace_cc.go:825-861 | succeeds exactly when the application decodes and the caller is its buyer, its reviewer or an auditor; the answer is the stored document; a stored document denied is Forbidden |
| Ledger.GetAppraiserApplication | v0.6/bc_marketplace_cc.go:1044-1080 | the same for the appraiser, the reviewer or an auditor |
| Ledger.GetSalesContract | v0.6/bc_marketplace_cc.go:1258-1294 | the same for the seller, the buyer, an auditor or a bank |
| Ledger.Collect | v0.6/bc_marketplace_cc.go:612-630 | succeeds exactly when every id fetches, then with every document in order; otherwise fails with the first failing id's error |
| Ledger.Authenticate | v0.6/bc_marketplace_cc.go:2346-2357 | an accepted caller has a non-blank name and a positive affiliation |
| Chaincode.CollectAll | v0.6/bc_marketplace_cc.go:612-630 | the listing loop returns what `Ledger.Collect` specifies |
| Chaincode.CollectStopsAtFailure | v0.6/bc_marketplace_cc.go:618-622 | when every id before i fetches and i does not, collecting fails with i's error |
| Chaincode.Marketplace.constructor | v0.6/bc_marketplace_cc.go:2221-2227 | deployment starts from an empty ledger |
| Chaincode.Marketplace.GetParty | v0.6/bc_marketplace_cc.go:1393-1435 | Get<Role> leaves the state and answers as `Ledger.GetParty` |
| Chaincode.Marketplace.SaveParty | v0.6/bc_marketplace_cc.go:1437-1450 | Save<Role> stores the role's struct under the key |
| Chaincode.Marketplace.AppendToParty | v0.6/bc_marketplace_cc.go:1206-1218 | the read-append-save sequence ends as `Ledger.AppendToParty` |
| Chaincode.Marketplace.AddKey | v0.6/bc_marketplace_cc.go:1775-1804 | AddKey ends as `Ledger.AddKey` |
| Chaincode.Marketplace.GetMALogHolder | v0.6/bc_marketplace_cc.go:1892-1934 | ends as `Ledger.GetMALogHolder` |
| Chaincode.Marketplace.GetMALogKeys | v0.6/bc_marketplace_cc.go:2001-2028 | reads the log-key list from the ledger without writing: an empty list when it was never written, the stored list when it decodes, an error otherwise; that is `Ledger.StoredKeys`, which `Invariants.RegistriesReadable` shows never fails on a well-formed ledger and `HelperEffects.AppendMALogEffect` shows growing by one key per entry |
| Invariants.RegistriesReadable | v0.6/bc_marketplace_cc.go:2001-2028 | on a well-formed ledger the registries and the log-key list read without error: empty when never written, the stored list otherwise |
| Chaincode.Marketplace.GetBCLogs | v0.6/bc_marketplace_cc.go:1954-1981 | answers as `Ledger.GetBCLogs` |
| Chaincode.Marketplace.AppendMALog | v0.6/bc_marketplace_cc.go:1846-1887 | ends as `Ledger.AppendMALog` |
| Chaincode.Marketplace.GetMortgageApplication | v0.6/bc_marketplace_cc.go:825-861 | answers as `Ledger.GetMortgageApplication` |
| Chaincode.Marketplace.GetAppraiserApplication | v0.6/bc_marketplace_cc.go:1044-1080 | answers as `Ledger.GetAppraiserApplication` |
| Chaincode.Marketplace.GetSalesContract | v0.6/bc_marketplace_cc.go:1258-1294 | answers as `Ledger.GetSalesContract` |
| Chaincode.Marketplace.CallerParty | bc_marketplace_cc.go:642-660 | a listing reads the caller's record as `Ledger.CallerParty` says for the revision |
| Chaincode.Marketplace.GetMortgageApplications | v0.6/bc_marketplace_cc.go:594-642 | ends as `Ledger.GetMortgageApplications` |
| Chaincode.Marketplace.GetAppraiserApplications | v0.6/bc_marketplace_cc.go:648-683 | ends as `Ledger.GetAppraiserApplications` |
| Chaincode.Marketplace.GetSalesContracts | v0.6/bc_marketplace_cc.go:688-745 | ends as `Ledger.GetSalesContracts` |
| Chaincode.Marketplace.CreateMortgageApplication | v0.6/bc_marketplace_cc.go:747-820 | ends as `Ledger.CreateMortgageApplication` |
| Chaincode.Marketplace.CommitMAEdit | v0.6/bc_marketplace_cc.go:930-941 | ends as `Ledger.CommitMAEdit` |
| Chaincode.Marketplace.UpdateMortgageApplication | v0.6/bc_marketplace_cc.go:866-973 | ends as `Ledger.UpdateMortgageApplication` |
| Chaincode.Marketplace.CreateAppraiserApplication | v0.6/bc_marketplace_cc.go:978-1039 | ends as `Ledger.CreateAppraiserApplication` |
| Chaincode.Marketplace.UpdateAppraiserApplication | v0.6/bc_marketplace_cc.go:1085-1159 | ends as `Ledger.UpdateAppraiserApplication` |
| Chaincode.Marketplace.CreateSalesContract | v0.6/bc_marketplace_cc.go:1161-1253 | ends as `Ledger.CreateSalesContract` |
| Chaincode.Marketplace.UpdateSalesContract | v0.6/bc_marketplace_cc.go:1299-1368 | ends as `Ledger.UpdateSalesContract` |
| Chaincode.Marketplace.CreateUser | v0.6/bc_marketplace_cc.go:2049-2118 | ends as `Ledger.CreateUser` |
| Chaincode.Marketplace.GetAuditorMALogs | v0.6/bc_marketplace_cc.go:2123-2153 | ends as `Ledger.GetAuditorMALogs` |
| Chaincode.Marketplace.GetAuditorBCLogs | bc_marketplace_cc.go:2560-2587 | answers as `Ledger.GetAuditorBCLogs` |
| Chaincode.Marketplace.GetCallerMetadata | bc_marketplace_cc.go:534-557 | answers as `Ledger.CallerMetadata` for the revision |
| Chaincode.Marketplace.Authenticate | v0.6/bc_marketplace_cc.go:2346-2357 | answers as `Ledger.Authenticate` |
| Chaincode.Marketplace.Init | v0.6/bc_marketplace_cc.go:2221-2227 | every name but Setup succeeds with no content |
| Chaincode.Marketplace.Invoke | v0.6/bc_marketplace_cc.go:2333-2388 | ends as `Ledger.Invoke` |
| Chaincode.Marketplace.Write | v0.6/bc_marketplace_cc.go:2361-2387 | ends as `Ledger.Write` |
| Chaincode.Marketplace.Query | v0.6/bc_marketplace_cc.go:2229-2331 | ends as `Ledger.Query` |
| Chaincode.Marketplace.Read | v0.6/bc_marketplace_cc.go:2262-2329 | ends as `Ledger.Read` |
| HelperEffects.GetPartyLazy | v0.6/bc_marketplace_cc.go:1393-1435 | Get<Role> writes only for an absent key, storing a fresh record (id the key, the role's affiliation, empty lists); an existing record is returned as the role sees it |
| HelperEffects.AppendToPartyEffect | v0.6/bc_marketplace_cc.go:1206-1218 | the read-append-save sequence changes only its key: that list gains the id at its end, and the other lists the role knows, the id and the affiliation stay |
| HelperEffects.AddKeyWritesMortgageRegistry | v0.6/bc_marketplace_cc.go:1775-1804 | AddKey changes only the mortgage-application registry, which becomes the named list with the id appended |
| HelperEffects.AddKeyClobbersMortgageRegistry | v0.6/bc_marketplace_cc.go:1796 | registering into an empty appraiser or contract registry replaces the whole mortgage-application registry with the one key, and the named registry is never written |
| HelperEffects.AppendMALogEffect | v0.6/bc_marketplace_cc.go:1846-1887 | on a well-formed ledger, AppendMALog makes exactly three writes: the holder gains the entry, the log-key list gains the holder's key, the network-wide log gains the entry |
| HelperEffects.AppendMALogFrame | v0.6/bc_marketplace_cc.go:1846-1887 | AppendMALog keeps the ledger well formed and leaves documents, party records and registries alone |
| Invariants.CreateMortgageApplicationPreserves | v0.6/bc_marketplace_cc.go:747-820 | CreateMortgageApplication keeps the ledger well formed |
| Invariants.UpdateMortgageApplicationPreserves | v0.6/bc_marketplace_cc.go:866-973 | UpdateMortgageApplication keeps the ledger well formed |
| Invariants.CreateAppraiserApplicationPreserves | v0.6/bc_marketplace_cc.go:978-1039 | CreateAppraiserApplication keeps the ledger well formed, undecodable stored text included |
| Invariants.UpdateAppraiserApplicationPreserves | v0.6/bc_marketplace_cc.go:1085-1159 | UpdateAppraiserApplication, forwarded update included, keeps the ledger well formed |
| Invariants.CreateSalesContractPreserves | v0.6/bc_marketplace_cc.go:1161-1253 | CreateSalesContract keeps the ledger well formed in both revisions |
| Invariants.UpdateSalesContractPreserves | v0.6/bc_marketplace_cc.go:1299-1368 | UpdateSalesContract keeps the ledger well formed |
| Invariants.CreateUserPreserves | v0.6/bc_marketplace_cc.go:2049-2118 | CreateUser keeps the ledger well formed |
| Invariants.InvokePreserves | v0.6/bc_marketplace_cc.go:2333-2388 | every invocation keeps the ledger well formed |
| Invariants.WritePreserves | v0.6/bc_marketplace_cc.go:2361-2387 | every write operation keeps the ledger well formed |
| Invariants.QueryPreserves | v0.6/bc_marketplace_cc.go:2229-2331 | every query keeps the ledger well formed |
| Invariants.ReadPreserves | v0.6/bc_marketplace_cc.go:2262-2329 | every read keeps the ledger well formed |
| MortgageProperties.CreateMortgageApplicationRejects | v0.6/bc_marketplace_cc.go:749-790 | too few arguments or an undecodable body is an error that writes nothing |
| MortgageProperties.CreateMortgageApplicationEffect | v0.6/bc_marketplace_cc.go:747-820 | the application is stored, its key joins the registry, its id joins the caller's and the reviewer's lists (twice the caller's when they coincide), and one "Submitted" entry is logged |
| MortgageProperties.UpdateMortgageApplicationRejects | v0.6/bc_marketplace_cc.go:869-890 | too few arguments, a missing application or an undecodable update is an error that writes nothing |
| MortgageProperties.CommitMAEditEffect | v0.6/bc_marketplace_cc.go:930-941 | an unchanged edit writes nothing and answers empty; a changed one is stored, answered and logged with the edit's text and the new status |
| MortgageProperties.UpdateMortgageApplicationAccess | v0.6/bc_marketplace_cc.go:894-971 | the update is Forbidden exactly when the caller is neither the reviewer nor an appraiser, and then writes nothing |
| MortgageProperties.UpdateMortgageApplicationByReviewer | v0.6/bc_marketplace_cc.go:894-941 | the reviewer's update changes only status, sales contract id and approved amount, and is stored and logged; an empty one writes nothing |
| MortgageProperties.UpdateMortgageApplicationByAppraiser | v0.6/bc_marketplace_cc.go:951-967 | an appraiser's non-zero value is stored and logged with empty text; zero writes nothing |
| AppraisalProperties.CreateAppraiserApplicationChecks | v0.6/bc_marketplace_cc.go:980-990 | too few arguments, then a non-bank caller, are refused without a write |
| AppraisalProperties.CreateAppraiserApplicationKeepsUndecodable | v0.6/bc_marketplace_cc.go:992-1010 | a body that does not decode stays stored under the application's key, and nothing else is written |
| AppraisalProperties.CreateAppraiserApplicationEffect | v0.6/bc_marketplace_cc.go:978-1039 | the application is stored, its id joins the appraiser's list, one entry is logged, and the registry update lands in the mortgage-application registry |
| AppraisalProperties.UpdateAppraiserApplicationRejects | v0.6/bc_marketplace_cc.go:1088-1110 | anyone but the application's appraiser, a missing application or an undecodable update is refused without a write |
| AppraisalProperties.CommitMAEditKeepsAppraisals | v0.6/bc_marketplace_cc.go:930-941 | committing a mortgage edit leaves every appraiser application alone |
| AppraisalProperties.UpdateAppraiserApplicationCascade | v0.6/bc_marketplace_cc.go:1119-1136 | a non-zero fair market value is copied into the linked mortgage application, whose new form is the answer |
| AppraisalProperties.UpdateAppraiserApplicationWithoutValue | v0.6/bc_marketplace_cc.go:1119-1136 | a zero fair market value, or any value from an appraiser who is also the mortgage application's reviewer (the reviewer's branch reads no fair market value), leaves the mortgage application alone and the answer is empty |
| AppraisalProperties.UpdateAppraiserApplicationSaves | v0.6/bc_marketplace_cc.go:1112-1153 | with the linked mortgage application stored, whether or not the appraiser reviews it, the appraiser application takes over the given status and value, and its last log entry records the change with the trimmed status |
| AppraisalProperties.ForwardKeepsAppraisals | v0.6/bc_marketplace_cc.go:866-973 | the forwarded mortgage update keeps the ledger well formed and never writes an appraiser application, whatever it answers |
| AppraisalProperties.UpdateAppraiserApplicationSaveStays | v0.6/bc_marketplace_cc.go:1112-1136 | for any affiliation, the edited appraiser application is stored whatever the forwarded update answers; with the mortgage application missing the call fails and that save is its only write; with the forward refused it answers Forbidden with that save as its only write |
| ContractProperties.CreateSalesContractChecks | v0.6/bc_marketplace_cc.go:1164-1187 | too few arguments, a non-buyer caller or an undecodable body is refused without a write |
| ContractProperties.CreateSalesContractEffect | v0.6/bc_marketplace_cc.go:1161-1253 | the contract is stored, its id joins the seller's, the buyer's and the bank's lists, one entry is logged, and the registry update lands in the mortgage-application registry |
| ContractProperties.BankSavedUnderSellerKey | bc_marketplace_cc.go:1610-1622 | in the earlier revision the seller's list becomes the bank's list with the id appended |
| ContractProperties.BankStepKeepsOthers | bc_marketplace_cc.go:1610-1622 | that step leaves the bank's own list, third parties and the logs alone |
| ContractProperties.CreateSalesContractLegacyLists | bc_marketplace_cc.go:1537-1630 | in the earlier revision the seller's own append is lost, the bank's list does not change, and the buyer's list gains the id |
| ContractProperties.UpdateSalesContractRejects | v0.6/bc_marketplace_cc.go:1302-1322 | too few arguments, an unreadable contract, a caller who is not its seller or buyer, or an undecodable update is an error that writes nothing |
| ContractProperties.UpdateSalesContractAccess | v0.6/bc_marketplace_cc.go:1316 | only the seller and the buyer may update; banks and auditors who may read it are refused |
| ContractProperties.UpdateSalesContractEffect | v0.6/bc_marketplace_cc.go:1316-1362 | the contract is always rewritten with the edit and is the answer, and one entry is logged with the joined phrases and the trimmed status |
| ContractProperties.UpdateSalesContractLegacySignature | bc_marketplace_cc.go:1719-1723 | through the whole operation, the earlier revision stores a seller's signature in the buyer's field |
| AccessProperties.ListingsRefuseOtherRoles | v0.6/bc_marketplace_cc.go:594-745 | each listing is open to its affiliations only; anyone else is refused and nothing is written |
| AccessProperties.GetMortgageApplicationsLists | v0.6/bc_marketplace_cc.go:594-642 | with a stored record, the answer is the listed applications in order when each is visible, and a failure otherwise |
| AccessProperties.GetAppraiserApplicationsLists | v0.6/bc_marketplace_cc.go:648-683 | the same for appraiser applications |
| AccessProperties.GetSalesContractsLists | v0.6/bc_marketplace_cc.go:688-745 | the same for sales contracts |
| AccessProperties.ListingsWithoutRecord | bc_marketplace_cc.go:642-658 | without a record, the current revision creates an empty one and lists nothing; the earlier one fails and writes nothing |
| AccessProperties.GetAuditorMALogsAnswers | v0.6/bc_marketplace_cc.go:2123-2153 | argument count first, affiliation second; an auditor gets the holder's entries, and an absent holder is created empty |
| AccessProperties.GetAuditorBCLogsAnswers | bc_marketplace_cc.go:2560-2587 | the network-wide read never writes; an auditor gets the whole log; only the earlier revision demands an argument |
| AccessProperties.LogKeyListedPerEntry | v0.6/bc_marketplace_cc.go:1846-1887 | two entries for one document leave its key twice at the end of the log-key list |
| AccessProperties.CreateUserAccepts | v0.6/bc_marketplace_cc.go:2049-2118 | CreateUser succeeds exactly for a non-blank id and an affiliation text that parses to 1 to 5, when the key holds a party or nothing |
| AccessProperties.CreateUserRejects | v0.6/bc_marketplace_cc.go:2051-2113 | the error for each rejected input, in the order of the checks; nothing is written |
| AccessProperties.CreateUserStores | v0.6/bc_marketplace_cc.go:2075-2116 | a new user gets a fresh record (id the ledger key, the given affiliation, empty lists); an existing record is left alone |
| AccessProperties.CreateUserIdempotent | v0.6/bc_marketplace_cc.go:2049-2118 | registering the same user twice is the same as registering it once |
| AccessProperties.InvokeCreateUserNeedsNoIdentity | v0.6/bc_marketplace_cc.go:2337-2340 | CreateUser is dispatched without authentication |
| AccessProperties.InvokeNeedsIdentity | v0.6/bc_marketplace_cc.go:2346-2387 | any other write fails with the authentication error and writes nothing when the caller is not accepted; an unknown name fails without a write |
| AccessProperties.QueryNeedsIdentity | v0.6/bc_marketplace_cc.go:2235-2329 | Query authenticates before any read, except GetCertAttribute in the current revision; an unknown name fails without a write |
| AccessProperties.AuthenticateAccepts | v0.6/bc_marketplace_cc.go:2247-2258 | a caller is accepted exactly with a non-blank name and a positive affiliation from the certificate (current) or its stored record (earlier) |
| AccessProperties.ReadWritesAtMostOneKey | v0.6/bc_marketplace_cc.go:2262-2329 | a read writes at most one entry: the caller's own record or the document's log holder |
| AccessProperties.ReadKeepsDocuments | v0.6/bc_marketplace_cc.go:2262-2329 | a read writes no document and no registry |
| AccessProperties.QueryKeepsDocuments | v0.6/bc_marketplace_cc.go:2229-2331 | Query writes no document and no registry |

## Left out

- Certificates and X.509 parsing: the caller's identity is a `Certificate` value holding the username and role attributes. Reading them from the transaction is not modelled.
- JSON encoding and decoding: a `Decoder` value holds total functions from text to an optional record. Replies are values, not bytes.
- Partial decoding: a document that decodes into a struct of the wrong kind is treated as not decoding.
- Timestamps: the clock is a `now` parameter shared by every entry a call writes.
- `Setup` and its seed data (`generateLandRecords`, `generatePropertyList`, `generatePropertyAdsList`, `InitKeys`): the operation answers `NotModelled`.
- `GetPropertyAds`, `GetPropertyAd` and `GetCertAttribute`: they answer `NotModelled`. They read seed data and certificate attributes that are outside this model.
- Storage failures of `GetState`/`PutState` are not modelled. Every write succeeds.
- Rollback of a failed transaction is not modelled. Fabric discards the writes of a transaction that returns an error. The model keeps them, as the code performs them: an `UpdateAppraiserApplication` whose forwarded update fails keeps its saved appraisal. The same holds for whether a query's writes are committed.
- Concurrency: each call runs alone on the state.
- 64-bit overflow in amounts: amounts are unbounded integers. Only `Atoi` checks the 64-bit range.
- `tcs/testChaincode.go` is not part of this model. It is a separate test chaincode.
- CreateSalesContractEffect: stated only for a seller, buyer and bank that are three different parties. When two coincide, the appends pile up on one record.
- CreateSalesContractLegacyLists: stated only for three different parties, for the same reason.
- GetMortgageApplicationsLists: stated for a caller whose record is stored. A missing record is covered by `ListingsWithoutRecord`.
- GetAppraiserApplicationsLists: stated for a caller whose record is stored, like the mortgage listing.
- GetSalesContractsLists: stated for a caller whose record is stored, like the mortgage listing.
- UpdateAppraiserApplicationCascade: stated for an appraiser who is not the mortgage application's reviewer and for a decoder that reads the forwarded `{"fairMarketValue":N}` text back as that value. For a reviewer the value is not copied at all (`UpdateAppraiserApplicationWithoutValue`); for another affiliation the forward is refused (`UpdateAppraiserApplicationSaveStays`).
- UpdateAppraiserApplicationWithoutValue: stated for an APPRAISER_A caller, a stored mortgage application and a decoder that reads the forwarded text back; the other cases are in `UpdateAppraiserApplicationSaveStays`.
- UpdateAppraiserApplicationSaves: the last-log-entry clause is stated for an APPRAISER_A caller with the mortgage application stored, because a failed forward logs nothing; the save itself is stated for every case by `UpdateAppraiserApplicationSaveStays`.
