# Confidential data marketplace front end, modelled in Dafny

This project models the client side of a data marketplace. Sellers upload numeric datasets to a
ledger contract. Buyers pay per query for a statistic over a dataset: a mean, a variance, or a
count above or below a threshold. Results come back through a decryption gateway or, in the
mock deployment, directly from the contract.

The model covers what the React front end decides on its own:

- the configuration tables and lookups, and the choice between the mock and the FHE contract;
- the formatting helpers;
- the FHEVM utilities: the SDK singleton, encryption, the decryption wait, the network tables and error texts;
- the three contract hooks: mock, FHE and decryption tracking;
- the upload form, the query panel, and the marketplace, dashboard, detail and "my queries" pages.

Every ledger read, wallet reply, SDK call and receipt poll is an input to the model. A poll is a
function from attempt number to what that attempt read. A keyed read is a function from id to
the reply. Pages and hooks whose state React updates step by step are classes whose methods
state the new state. Each class method is tied to a specification function, and the
specification functions carry the lemmas.

Modules, one per source file, plus shared ones:

| module | file | what it holds |
|---|---|---|
| `Wrappers` | `wrappers.dfy` | `Option`, `Result` (a value or a thrown error's message), `err.message \|\| fallback` |
| `JsText` | `js_text.dfy` | the JavaScript string operations used: trim, split, toLowerCase, includes, decimal numerals, parseInt, `x \|\| 0` |
| `Ledger` | `ledger.dfy` | the `getDataset`/`getQuery` tuples, receipts and decoded logs, the first-event lookup, the dataset listing read |
| `Config` | `config.dfy` | `config.js` |
| `Format` | `format.dfy` | `utils/format.js` |
| `Fhevm` | `fhevm.dfy` | `utils/fhevm.js` |
| `ContractMode` | `contract_mode.dfy` | `hooks/useContractMode.js` |
| `ContractSwitch` | `contract_switch.dfy` | `hooks/useContractSwitch.js` |
| `Decryption` | `decryption.dfy` | `hooks/useDecryption.js` |
| `MockContract` | `mock_contract.dfy` | `hooks/useContract.js` |
| `FheContract` | `fhe_contract.dfy` | `hooks/useContractFHE.js` |
| `DataUpload` | `data_upload.dfy` | `components/DataUpload.jsx` |
| `QueryExecutor` | `query_executor.dfy` | `components/QueryExecutor.jsx` |
| `Marketplace` | `marketplace.dfy` | `pages/Marketplace.jsx` |
| `Dashboard` | `dashboard.dfy` | `pages/Dashboard.jsx` |
| `DatasetDetail` | `dataset_detail.dfy` | `pages/DatasetDetail.jsx` |
| `MyQueries` | `my_queries.dfy` | `pages/MyQueries.jsx` |

Three places where the code as written cannot do what it evidently means to are listed under
"Findings". Each has a member for the code as written, with a lemma that exhibits the problem.
Each also has a corrected member, and the rest of the model uses the corrected one.

## Model

| member | source | states |
|---|---|---|
| Config.UserContractMode | confidential-data-marketplace/frontend/src/config.js:9-20 | the stored `contractMode` when it is non-empty; `'mock'` when nothing (or `''`) is stored or storage is unavailable |
| Config.ContractAddressFhe | confidential-data-marketplace/frontend/src/config.js:31 | the `VITE_FHE_CONTRACT_ADDRESS` override when set and non-empty, the deployed FHE address otherwise |
| Config.ContractAddress | confidential-data-marketplace/frontend/src/config.js:34 | the FHE address when FHE is enabled, the mock address otherwise |
| Config.ContractAddressIsFheIffEnabled | confidential-data-marketplace/frontend/src/config.js:24-34 | the address in use is the FHE one exactly when `FHEVM_ENABLED` (both directions, whenever the two addresses differ) |
| Config.ShippedAddressIsMock | confidential-data-marketplace/frontend/src/config.js:24-34 | with the shipped `FHEVM_ENABLED = false` the address in use is the mock address, whatever the environment says |
| Config.GetContractAbi | confidential-data-marketplace/frontend/src/config.js:214-238 | `false` gives `CONTRACT_ABI` unchanged, `true` the FHE interface |
| Config.DeclaredEvents | confidential-data-marketplace/frontend/src/config.js:214-238 | both interfaces declare `DatasetCreated(datasetId, …)` and `QueryExecuted(queryId, …)`, with the id as first argument |
| Config.MockAbiLacksDatasetUploaded | confidential-data-marketplace/frontend/src/config.js:61-67 | `CONTRACT_ABI` declares no `DatasetUploaded` event |
| Config.QueryTypeTablesAgree | confidential-data-marketplace/frontend/src/config.js:71-87 | the query-type codes are distinct, are exactly 0..3, and each has a display name |
| Config.QueryStatusTablesAgree | confidential-data-marketplace/frontend/src/config.js:90-108 | the status codes are distinct, are exactly 0..4, each has a display name, and 2, 3, 4 read Completed, Failed, Refunded |
| Config.IsFhevmNetworkExactly | confidential-data-marketplace/frontend/src/config.js:178-188 | a chain is an FHEVM network exactly when its id is 11155111, 8009 or 9000 |
| Config.FindNetwork | confidential-data-marketplace/frontend/src/config.js:196 | a found entry is in the table and has the chain id; nothing is found exactly when no entry has it |
| Config.GetNetworkConfig | confidential-data-marketplace/frontend/src/config.js:195-197 | the `NETWORKS` entry with the chain id, and `null` exactly for ids other than 31337, 11155111, 8009, 9000 |
| Config.GetNetworkName | confidential-data-marketplace/frontend/src/config.js:204-207 | the entry's name, or `Unknown Network (<id>)` for an unknown chain |
| Config.NetworkFlagsAgree | confidential-data-marketplace/frontend/src/config.js:111-188 | every `NETWORKS` entry's `isFHEVM` flag equals `isFHEVMNetwork` of its chain id |
| Config.NetworkLookupFindsEntry | confidential-data-marketplace/frontend/src/config.js:111-197 | looking up any entry's chain id returns that entry |
| ContractMode.ShouldUseFheIgnoresChain | confidential-data-marketplace/frontend/src/hooks/useContractMode.js:13-18 | `shouldUseFHE` equals `FHEVM_ENABLED` for every chain id |
| ContractMode.ShouldUseFhe | confidential-data-marketplace/frontend/src/hooks/useContractMode.js:13-18 | FHE is used exactly when the build flag is set; the chain id plays no part |
| ContractMode.SelectHook | confidential-data-marketplace/frontend/src/hooks/useContractMode.js:27-45 | the FHE hook with mode `'FHE'` when FHE is chosen, the mock hook with mode `'Mock'` otherwise; `isFHEMode` holds iff the mode is `'FHE'`; `shouldUseFHE` is echoed |
| ContractMode.ShippedModeIsMock | confidential-data-marketplace/frontend/src/hooks/useContractMode.js:11-46 | with the shipped configuration every chain gets the mock hook, mode `'Mock'`, not FHE |
| ContractSwitch.InitialMode | confidential-data-marketplace/frontend/src/hooks/useContractSwitch.js:19-22 | the stored mode when non-empty, `'mock'` otherwise |
| ContractSwitch.Switched | confidential-data-marketplace/frontend/src/hooks/useContractSwitch.js:36-41 | after `switchMode(m)`: mode `m`, `m` persisted, no fall-back flag |
| ContractSwitch.FellBack | confidential-data-marketplace/frontend/src/hooks/useContractSwitch.js:44-50 | in `'fhe'` mode: mode `'mock'` with the fall-back flag; in any other mode nothing changes; the stored preference is never written |
| ContractSwitch.FallbackIdempotent | confidential-data-marketplace/frontend/src/hooks/useContractSwitch.js:44-50 | falling back twice is falling back once, and never leaves the mode `'fhe'` |
| ContractSwitch.OnlySwitchPersists | confidential-data-marketplace/frontend/src/hooks/useContractSwitch.js:36-50 | only `switchMode` writes the preference; a switch after a fall-back ends in the same state as the switch alone |
| ContractSwitch.ReloadAfter | confidential-data-marketplace/frontend/src/hooks/useContractSwitch.js:19-50 | after a reload the page starts in the last mode switched to; a fall-back is forgotten on reload |
| ContractSwitch.ActiveBackend | confidential-data-marketplace/frontend/src/hooks/useContractSwitch.js:33 | the FHE contract is active exactly when the mode is `'fhe'` |
| ContractSwitch.ModeFlagsExclusive | confidential-data-marketplace/frontend/src/hooks/useContractSwitch.js:33-72 | `isFHEMode` and `isMockMode` are never both true, and the FHE backend is active iff `isFHEMode` |
| ContractSwitch.ModeSwitch.constructor | confidential-data-marketplace/frontend/src/hooks/useContractSwitch.js:19-24 | the first render: the stored mode or `'mock'`, no fall-back |
| ContractSwitch.ModeSwitch.SwitchMode | confidential-data-marketplace/frontend/src/hooks/useContractSwitch.js:36-41 | the new state is `Switched` of the old one |
| ContractSwitch.ModeSwitch.SwitchToMock | confidential-data-marketplace/frontend/src/hooks/useContractSwitch.js:84 | the new state is `Switched(old, 'mock')` |
| ContractSwitch.ModeSwitch.SwitchToFhe | confidential-data-marketplace/frontend/src/hooks/useContractSwitch.js:85 | the new state is `Switched(old, 'fhe')` |
| ContractSwitch.ModeSwitch.FallbackToMock | confidential-data-marketplace/frontend/src/hooks/useContractSwitch.js:44-50 | the new state is `FellBack` of the old one |
| ContractSwitch.ModeSwitch.ProbeGateway | confidential-data-marketplace/frontend/src/hooks/useContractSwitch.js:53-66 | the health probe changes no state; it runs only in `'fhe'` mode on Sepolia and warns exactly when the gateway is unhealthy or unreachable |
| Format.FirstChars | confidential-data-marketplace/frontend/src/utils/format.js:10 | `slice(0, n)`: the first `n` characters, or the whole string when it is shorter |
| Format.LastChars | confidential-data-marketplace/frontend/src/utils/format.js:10 | `slice(-n)`: the last `n` characters, or the whole string when it is shorter |
| Format.FormatAddress | confidential-data-marketplace/frontend/src/utils/format.js:8-11 | `''` for a missing or empty address; otherwise its first 6 characters, `...`, and its last 4 |
| Format.FormatAddressOfLongAddress | confidential-data-marketplace/frontend/src/utils/format.js:8-11 | an address of at least 10 characters formats to 13 characters: its first 6, `...`, its last 4 |
| Format.GroupThousands | confidential-data-marketplace/frontend/src/utils/format.js:26 | the comma-grouped form is never shorter than the digits |
| Format.DropCommasOfGroupThousands | confidential-data-marketplace/frontend/src/utils/format.js:26 | removing the inserted commas gives back the digit string exactly |
| Format.GroupSizes | confidential-data-marketplace/frontend/src/utils/format.js:26 | after grouping, the first group has 1 to 3 characters and every later group exactly 3 |
| Format.FormatNumberDigits | confidential-data-marketplace/frontend/src/utils/format.js:24-27 | for every integer, the output with commas removed is its decimal string |
| Format.FormatNumberGroups | confidential-data-marketplace/frontend/src/utils/format.js:24-27 | for a natural number, the first comma group has 1 to 3 digits and every later group 3 |
| Format.FormatNumberOfZero | confidential-data-marketplace/frontend/src/utils/format.js:25 | `null`/`undefined` and `0` both format as `'0'` |
| Format.FormatNumber | confidential-data-marketplace/frontend/src/utils/format.js:24-27 | a missing number formats as `0`; any number gives a non-empty text that starts with `-` exactly when the number is negative |
| Format.Truncate | confidential-data-marketplace/frontend/src/utils/format.js:84-87 | a missing, empty or short enough text is returned unchanged; a longer one is cut to `maxLength` characters (JavaScript `slice` semantics for a negative bound) and gets `...` |
| Format.TruncateIsPrefix | confidential-data-marketplace/frontend/src/utils/format.js:84-87 | a text longer than `maxLength` becomes its first `maxLength` characters followed by `...`, of length `maxLength + 3` |
| Format.FormatRelativeTimeUnits | confidential-data-marketplace/frontend/src/utils/format.js:37-53 | with `diff = now - timestamp*1000`: whole days when at least a day, else whole hours, else whole minutes, else `刚刚`, each by floor division |
| Format.FormatRelativeTimeEdges | confidential-data-marketplace/frontend/src/utils/format.js:37-53 | a falsy timestamp gives `''`; a timestamp in the future gives `刚刚` |
| Format.FormatRelativeTime | confidential-data-marketplace/frontend/src/utils/format.js:37-53 | the text is empty exactly when the timestamp is missing or zero |
| Fhevm.EncryptionFailure | confidential-data-marketplace/frontend/src/utils/fhevm.js:91 | the rethrown text is `Encryption failed: ` followed by the original message, which can be read back from it |
| Fhevm.FhevmRuntime.constructor | confidential-data-marketplace/frontend/src/utils/fhevm.js:9 | the module starts with no instance |
| Fhevm.FhevmRuntime.InitFhevm | confidential-data-marketplace/frontend/src/utils/fhevm.js:17-55 | a cached instance is returned and nothing is created; otherwise the config carries the chain id, an empty key and the chain's gateway, and a failure (network or creation) returns `null` and leaves the instance unset |
| Fhevm.FhevmRuntime.GetFhevmInstance | confidential-data-marketplace/frontend/src/utils/fhevm.js:60-65 | the instance when there is one; exactly otherwise the `FHEVM instance not initialized…` error |
| Fhevm.FhevmRuntime.EncryptUint32 | confidential-data-marketplace/frontend/src/utils/fhevm.js:73-93 | without an instance, `Encryption failed: ` plus the not-initialised message; otherwise the SDK's handle and proof, or its error wrapped the same way |
| Fhevm.FhevmRuntime.EncryptUint32Array | confidential-data-marketplace/frontend/src/utils/fhevm.js:101-121 | succeeds exactly when every element encrypts, then with one entry per input in input order; otherwise it stops at the first failing element, rethrows its error and encrypts nothing after it |
| Fhevm.Settle | confidential-data-marketplace/frontend/src/utils/fhevm.js:138-155 | status 2 yields the result, 3 `Query failed`, 4 `Query refunded`, a read error ends the wait with its message; every other status keeps waiting |
| Fhevm.RequestDecryption | confidential-data-marketplace/frontend/src/utils/fhevm.js:129-167 | the loop's result and read count are those of the polling specification, with between 1 and 60 reads |
| Fhevm.DecryptionEndsAtFirstSettled | confidential-data-marketplace/frontend/src/utils/fhevm.js:137-159 | the wait ends at the first read that is not pending, after exactly that many reads, with that read's outcome; a failing read is not retried |
| Fhevm.DecryptionPoll | confidential-data-marketplace/frontend/src/utils/fhevm.js:137-159 | the number of reads from attempt `i` on is more than `i` and at most the attempt limit, or `i` itself once the attempts are spent |
| Fhevm.DecryptionTimesOut | confidential-data-marketplace/frontend/src/utils/fhevm.js:137-162 | when all 60 reads are pending the wait fails with `Decryption timeout (2 minutes)` after 60 reads |
| Fhevm.DecryptionSucceedsIff | confidential-data-marketplace/frontend/src/utils/fhevm.js:137-162 | the wait succeeds exactly when some read among the first 60 completes with all earlier ones pending, and then returns that read's result |
| Fhevm.FirstSettled | confidential-data-marketplace/frontend/src/utils/fhevm.js:137-159 | the index of the first read that is not pending (60 when there is none), with every earlier read pending |
| Fhevm.LookupOrSepolia | confidential-data-marketplace/frontend/src/utils/fhevm.js:174-215 | a chain's own table entry when present and non-empty, the Sepolia entry otherwise |
| Fhevm.AddressTablesCoverFhevmChains | confidential-data-marketplace/frontend/src/utils/fhevm.js:174-231 | `isFHEVMNetwork` holds exactly for 11155111, 8009, 9000 and agrees with the configuration's; the gateway, ACL and KMS tables cover exactly those chains and fall back to Sepolia for any other |
| Fhevm.NetworkName | confidential-data-marketplace/frontend/src/utils/fhevm.js:238-246 | the table name, or `Unknown Network (<id>)` for an unlisted chain |
| Fhevm.NetworkNamesAgree | confidential-data-marketplace/frontend/src/utils/fhevm.js:238-246 | this table lists the same four chains as the configuration, and both name every other chain, Zama Devnet and Zama Local alike |
| Fhevm.NetworkNamesDiffer | confidential-data-marketplace/frontend/src/utils/fhevm.js:238-246 | the two name tables disagree for Sepolia and Hardhat |
| Fhevm.FirstMatch | confidential-data-marketplace/frontend/src/utils/fhevm.js:265-269 | the first table key the message contains, with no earlier key contained; none exactly when no key is contained |
| Fhevm.FormatFheErrorFirstMatch | confidential-data-marketplace/frontend/src/utils/fhevm.js:253-272 | a message containing a table key maps to the text of the first such key |
| Fhevm.FormatFheErrorFallback | confidential-data-marketplace/frontend/src/utils/fhevm.js:253-272 | a message containing no key becomes `❌ ` followed by the message |
| Fhevm.FormatFheError | confidential-data-marketplace/frontend/src/utils/fhevm.js:253-272 | a message (or `Error` for an empty one) containing no table key is shown after `❌ `; one that contains a key is shown as the text of a key it contains |
| Decryption.ProgressAt | confidential-data-marketplace/frontend/src/hooks/useDecryption.js:54 | the progress after a read on attempt `a` of `maxAttempts` is exactly `10 + a/maxAttempts·80`, at least 10 and below 90, so the cap at 90 is never reached before the last attempt |
| Decryption.Poll | confidential-data-marketplace/frontend/src/hooks/useDecryption.js:40-101 | a wait that still has attempts left makes at least one more read and never more than the limit; one with none left fails with the timeout message without reading |
| Decryption.DecryptionTracker.constructor | confidential-data-marketplace/frontend/src/hooks/useDecryption.js:10-13 | the hook starts idle, at progress 0, with no result and no error |
| Decryption.DecryptionTracker.Reset | confidential-data-marketplace/frontend/src/hooks/useDecryption.js:16-21 | back to idle, progress 0, no result, no error |
| Decryption.DecryptionTracker.WaitForQueryResult | confidential-data-marketplace/frontend/src/hooks/useDecryption.js:24-109 | without a contract it fails with `Contract not initialized` and changes nothing; otherwise the reads, progress and outcome are those of the polling specification: completed with the result stored and the error cleared, or failed with the error's message and the previous result kept |
| Decryption.DecryptionTracker.RequestDecryption | confidential-data-marketplace/frontend/src/hooks/useDecryption.js:112-114 | the same wait with the default of 10 attempts |
| Decryption.FirstCompleted | confidential-data-marketplace/frontend/src/hooks/useDecryption.js:42-75 | the first read, from a given attempt on, whose status is 2; every read before it is not completed |
| Decryption.PollEnds | confidential-data-marketplace/frontend/src/hooks/useDecryption.js:40-101 | the wait ends at the first completed read, after exactly that many reads, with its status, result and timestamp and progress 100; with none, it fails after all attempts with the error of the last attempt (a failed or refunded status and a read error are retried until then) |
| Decryption.WaitSucceedsIff | confidential-data-marketplace/frontend/src/hooks/useDecryption.js:40-101 | the wait succeeds exactly when some read within the attempt limit completes, and then returns the first such read |
| Decryption.WaitFailsOnLastAttempt | confidential-data-marketplace/frontend/src/hooks/useDecryption.js:86-96 | when no read completes, every attempt is used and the last attempt's error is the one reported |
| Decryption.PollProgress | confidential-data-marketplace/frontend/src/hooks/useDecryption.js:54-61 | a completed wait ends at progress 100; a failed one stays between 10 and 90 |
| Decryption.WaitRetriesWhereGatewayWaitStops | confidential-data-marketplace/frontend/src/hooks/useDecryption.js:72-96 | a `Query failed` status is retried by this hook (and a later completion succeeds), while the gateway wait of the FHE utilities stops on it with `Query failed` |
| DataUpload.FieldValue | confidential-data-marketplace/frontend/src/components/DataUpload.jsx:43-46 | a field that is blank once trimmed gives nothing; any other gives `parseInt` of the trimmed field, nothing when that is `NaN` |
| DataUpload.CollectAppend | confidential-data-marketplace/frontend/src/components/DataUpload.jsx:41-46 | the values of two runs of fields are those of each run, one after the other |
| DataUpload.ParseFieldsAppend | confidential-data-marketplace/frontend/src/components/DataUpload.jsx:41-46 | parsing fields keeps their order: the fields of a concatenation parse to the concatenated values |
| DataUpload.ParseFieldsOne | confidential-data-marketplace/frontend/src/components/DataUpload.jsx:43-46 | a single field contributes its value when it has one and nothing otherwise |
| DataUpload.IntStrings | confidential-data-marketplace/frontend/src/components/DataUpload.jsx:41-46 | one decimal field per value, in order |
| DataUpload.FieldValueOfIntToString | confidential-data-marketplace/frontend/src/components/DataUpload.jsx:43-46 | a value written in decimal parses back to itself |
| DataUpload.FieldValueOfPaddedNumeral | confidential-data-marketplace/frontend/src/components/DataUpload.jsx:43-46 | a field holding a decimal numeral with any whitespace before and after it gives exactly that numeral's integer, since `trim` removes the padding and `parseInt` reads the numeral back |
| JsText.TrimOfPadded | confidential-data-marketplace/frontend/src/components/DataUpload.jsx:43 | `trim` of a text padded with whitespace on both sides gives back the text when the text neither starts nor ends with whitespace |
| DataUpload.IntStringsHaveNoComma | confidential-data-marketplace/frontend/src/components/DataUpload.jsx:42 | decimal fields contain no comma, so splitting cannot cut one apart |
| DataUpload.ParseNumbersOfEmpty | confidential-data-marketplace/frontend/src/components/DataUpload.jsx:41-50 | an empty data box parses to no values, which the size check refuses |
| DataUpload.ParseNumbers | confidential-data-marketplace/frontend/src/components/DataUpload.jsx:41-46 | there are no more values than comma-separated fields, and every value is what `parseInt` reads from one of the trimmed fields |
| DataUpload.ParseFieldsFromFields | confidential-data-marketplace/frontend/src/components/DataUpload.jsx:41-46 | for any field list, each parsed value comes from one of the fields and there are at most as many values as fields |
| DataUpload.ParseNumbersOfJoined | confidential-data-marketplace/frontend/src/components/DataUpload.jsx:41-46 | any list of integers typed comma-separated in decimal is parsed back to exactly that list |
| DataUpload.ParseFieldsOfIntStrings | confidential-data-marketplace/frontend/src/components/DataUpload.jsx:41-46 | the decimal fields of a list of integers parse back to the list |
| DataUpload.ValidateCount | confidential-data-marketplace/frontend/src/components/DataUpload.jsx:48-54 | accepted, unchanged, exactly when there are 1 to 1000 values; no values gives `Please enter valid numeric data`, more than 1000 `Cannot exceed 1000 data points` |
| DataUpload.AwaitReceipt | confidential-data-marketplace/frontend/src/components/DataUpload.jsx:137-165 | between 1 and 60 reads; the receipt found is the one the last read returned, every earlier read returned none or failed; without a receipt all 60 reads were used and none returned one |
| DataUpload.FirstMined | confidential-data-marketplace/frontend/src/components/DataUpload.jsx:141-165 | the first of the 60 reads that returns a receipt, with none before it; none when no read does |
| DataUpload.FirstMinedOf | confidential-data-marketplace/frontend/src/components/DataUpload.jsx:141-165 | the first receipt read is unique: any index that satisfies its description is the one found |
| DataUpload.CreatedDatasetId | confidential-data-marketplace/frontend/src/components/DataUpload.jsx:181-213 | an id reported is non-zero and carried by a `DatasetCreated` log; without such a log no id is reported; which log decides is stated by `DataUpload.CreatedDatasetIdIsFirst` |
| DataUpload.CreatedDatasetIdIsFirst | confidential-data-marketplace/frontend/src/components/DataUpload.jsx:181-213 | the first `DatasetCreated` log decides: its id is reported, or no id when that id is 0, whatever logs follow it |
| DataUpload.ScanDatasetCreated | confidential-data-marketplace/frontend/src/components/DataUpload.jsx:183-213 | the log loop, which skips logs it cannot decode and stops at the first `DatasetCreated`, reports the id of the specification |
| DataUpload.FirstEventIsFirst | confidential-data-marketplace/frontend/src/components/DataUpload.jsx:196-207 | a `DatasetCreated` log with none before it is the one the search stops at |
| DataUpload.ReceiptTimeoutMessage | confidential-data-marketplace/frontend/src/components/DataUpload.jsx:167-169 | the timeout message starts with `Transaction timeout. Please check manually:` and a line break, and the rest is the transaction hash |
| DataUpload.MockUploadSucceedsIff | confidential-data-marketplace/frontend/src/components/DataUpload.jsx:77-219 | a mock upload succeeds exactly when the price converts, the wallet returns a hash and one of the first 60 reads returns a receipt whose status is 1, and then it reports that receipt's dataset id |
| DataUpload.SubmitGuards | confidential-data-marketplace/frontend/src/components/DataUpload.jsx:23-32 | without a contract, or in FHE mode without the upload function, the handler sets its message, starts no upload and changes nothing else |
| DataUpload.Submit | confidential-data-marketplace/frontend/src/components/DataUpload.jsx:19-74 | values are handed on only with a contract and only as the parsed data when it has 1 to 1000 values; an upload is reported exactly when values were handed on and the mode's upload succeeded, and then the form is reset, uploading is over and no error shows |
| DataUpload.SubmitEndsIdle | confidential-data-marketplace/frontend/src/components/DataUpload.jsx:34-74 | once past the guards the form always ends back on step 1 and not uploading; values are handed on exactly when 1 to 1000 parse, and they are the parsed values; otherwise the form and progress are kept and the size error is shown |
| DataUpload.SubmitSucceedsIff | confidential-data-marketplace/frontend/src/components/DataUpload.jsx:19-74 | an upload is reported exactly when the form is reset to its empty values; the report is the backend's, the values were handed on and no error is shown; an upload that was attempted and failed keeps the form and shows an error |
| DataUpload.UploadForm.constructor | confidential-data-marketplace/frontend/src/components/DataUpload.jsx:6-15 | step 1, not uploading, no error, progress 0, the empty form with price `0.01` |
| DataUpload.UploadForm.HandleMockUpload | confidential-data-marketplace/frontend/src/components/DataUpload.jsx:77-257 | the new state and the report are those of the mock outcome: on success the form is reset, on failure the error's message (or `Upload failed, please retry`) is shown; in both cases back to step 1, not uploading |
| DataUpload.UploadForm.HandleFheUpload | confidential-data-marketplace/frontend/src/components/DataUpload.jsx:260-321 | on the hook's success the form and progress are reset; on its failure the error goes to the submit handler's message with progress left at 50 |
| DataUpload.UploadForm.HandleSubmit | confidential-data-marketplace/frontend/src/components/DataUpload.jsx:19-74 | the state, the values sent and the report are those of the submit specification |
| JsText.TrimStart | confidential-data-marketplace/frontend/src/components/DataUpload.jsx:43 | a suffix of the input that starts with no whitespace, everything dropped being whitespace |
| JsText.TrimEnd | confidential-data-marketplace/frontend/src/components/DataUpload.jsx:43 | a prefix of the input that ends with no whitespace, everything dropped being whitespace |
| JsText.Trim | confidential-data-marketplace/frontend/src/components/DataUpload.jsx:43 | no whitespace at either end, and a string with none there is left alone |
| JsText.Split | confidential-data-marketplace/frontend/src/components/DataUpload.jsx:42 | at least one part, no part containing the separator |
| JsText.JoinSplit | confidential-data-marketplace/frontend/src/components/DataUpload.jsx:42 | joining the parts of a split with the separator gives back the string |
| JsText.SplitJoin | confidential-data-marketplace/frontend/src/components/DataUpload.jsx:42 | splitting a join of separator-free parts gives back the parts |
| JsText.SplitWithoutSeparator | confidential-data-marketplace/frontend/src/components/DataUpload.jsx:42 | a string without the separator splits into itself alone |
| JsText.SplitAppend | confidential-data-marketplace/frontend/src/components/DataUpload.jsx:42 | a separator between two strings splits between their parts |
| JsText.ToLower | confidential-data-marketplace/frontend/src/pages/Marketplace.jsx:75-78 | the same length, each character lowered on its own |
| JsText.ContainsIffOccurs | confidential-data-marketplace/frontend/src/pages/Marketplace.jsx:75-78 | `includes` holds exactly when the substring occurs at some position |
| JsText.NatToString | confidential-data-marketplace/frontend/src/components/QueryExecutor.jsx:68 | at least one character, all digits, a leading zero only for 0 |
| JsText.IntToString | confidential-data-marketplace/frontend/src/components/DataUpload.jsx:45 | the decimal numeral, with a minus sign for negative values |
| JsText.DigitRun | confidential-data-marketplace/frontend/src/components/DataUpload.jsx:45 | the longest prefix of digits valid in the radix |
| JsText.ParseIntOfIntToString | confidential-data-marketplace/frontend/src/components/DataUpload.jsx:45 | `parseInt` reads a decimal numeral back to its value |
| JsText.ParseSignedOfNatToString | confidential-data-marketplace/frontend/src/components/DataUpload.jsx:45 | a numeral, with or without a minus sign, parses to its value |
| JsText.OrZeroDefaults | confidential-data-marketplace/frontend/src/components/QueryExecutor.jsx:68 | `x \|\| 0` is never undefined, null or empty; it keeps a truthy value, gives 0 exactly for a falsy one and is idempotent |
| Ledger.FirstEvent | confidential-data-marketplace/frontend/src/hooks/useContract.js:89-97 | the position of the first log that decodes to the named event, every earlier log being something else; none exactly when no log is that event |
| Ledger.EventId | confidential-data-marketplace/frontend/src/hooks/useContract.js:209-235 | an id exactly when some log is the named event, and then the id of the first such log |
| Ledger.ReadDatasets | confidential-data-marketplace/frontend/src/pages/Marketplace.jsx:37-63 | never more datasets than active ids |
| Ledger.ReadDatasetsIff | confidential-data-marketplace/frontend/src/pages/Marketplace.jsx:37-63 | a dataset is kept exactly when the read of some active id returned it |
| Ledger.ReadDatasetsAllOk | confidential-data-marketplace/frontend/src/pages/Marketplace.jsx:37-63 | when no read fails, one dataset per active id, in id order, each the reply for its id |
| MockContract.Uint32Data | confidential-data-marketplace/frontend/src/hooks/useContract.js:73 | one value per input, each input coming back unchanged from `parseInt` |
| MockContract.EncryptEach | confidential-data-marketplace/frontend/src/hooks/useContract.js:107-121 | succeeds exactly when every value encrypts; then one handle and one proof per value, aligned by index, each the first handle and the proof of that value's encryption; otherwise the first failing encryption's error, with every earlier one succeeded and none after it attempted |
| MockContract.UploadedDatasetId | confidential-data-marketplace/frontend/src/hooks/useContract.js:89-103 | as written: an id is reported exactly when some log decodes to `DatasetUploaded`, and it is the first such log's id |
| MockContract.UploadedDatasetIdIsNull | confidential-data-marketplace/frontend/src/hooks/useContract.js:89-103 | on any receipt the contract interface decodes, the id as written is always `null`, because the interface declares no `DatasetUploaded` event |
| MockContract.UploadedDatasetIdMissesCreated | confidential-data-marketplace/frontend/src/hooks/useContract.js:97 | on a receipt whose `DatasetCreated` log carries 7, the id as written is `null` while the corrected lookup gives 7 |
| MockContract.CreatedDatasetId | confidential-data-marketplace/frontend/src/hooks/useContract.js:89-103 | corrected: an id is reported exactly when the receipt has a decoded `DatasetCreated` log |
| MockContract.CreatedDatasetIdIsFirst | confidential-data-marketplace/frontend/src/hooks/useContract.js:89-103 | the corrected lookup returns the id of the first `DatasetCreated` log, skipping any log before it |
| MockContract.PurchaseEndsAtFirstConfirmed | confidential-data-marketplace/frontend/src/hooks/useContract.js:203-236 | the poll ends at the first receipt with a block number, with the first `QueryExecuted` log's id (or `null` when there is none) and that receipt's hash; nothing read before it matters |
| MockContract.PurchasePoll | confidential-data-marketplace/frontend/src/hooks/useContract.js:203-236 | the only error is the confirmation timeout; a result comes from a receipt with a block number within the sixty polls, with its first `QueryExecuted` log's id and its hash |
| MockContract.PurchaseTimesOut | confidential-data-marketplace/frontend/src/hooks/useContract.js:203-245 | without a confirmed receipt among the 60 reads, failed reads included, the poll fails with `Transaction confirmation timeout after 120 seconds` |
| MockContract.ContractHook.constructor | confidential-data-marketplace/frontend/src/hooks/useContract.js:10-34 | a contract exactly when there is a signer and a chain id; no instance, not initialising, no error |
| MockContract.ContractHook.InitFhevm | confidential-data-marketplace/frontend/src/hooks/useContract.js:37-56 | nothing changes without a chain id or once an instance exists; otherwise the placeholder instance is stored and the error cleared, and initialisation is over |
| MockContract.ContractHook.UploadDataset | confidential-data-marketplace/frontend/src/hooks/useContract.js:59-157 | refused without a contract or an instance, then on a bad price; the placeholder sends the values unchanged with no proofs; a real instance sends one aligned handle and proof per value or the first encryption error; a sent upload reports the `DatasetCreated` id and the receipt's hash |
| MockContract.ContractHook.PurchaseQuery | confidential-data-marketplace/frontend/src/hooks/useContract.js:160-251 | refused without a contract; a failed dataset read sends nothing; otherwise `executeQuery(datasetId, queryType, parameter \|\| 0)` is sent with the dataset's `pricePerQuery` as value, and the outcome is the poll's, after 1 to 60 reads |
| FheContract.UploadSucceedsIff | confidential-data-marketplace/frontend/src/hooks/useContractFHE.js:113-159 | after encryption an upload succeeds exactly when the price converts, the transaction is sent and mined, and the receipt has a `DatasetCreated` log; it then reports the first such log's id, the transaction hash and the block; with no such log it fails with `未找到 DatasetCreated 事件` |
| FheContract.QuerySucceedsIff | confidential-data-marketplace/frontend/src/hooks/useContractFHE.js:199-246 | after the parameter proof a query succeeds exactly when the value converts, the transaction is sent and mined, the receipt has a `QueryExecuted` log and the decryption wait completes; it then reports that log's query id, the transaction hash and the result of the completed read |
| FheContract.Upload | confidential-data-marketplace/frontend/src/hooks/useContractFHE.js:90-167 | refused with nothing changed unless ready; succeeds exactly when encryption and the later steps succeed, and then sends the proofs with the price, clears the error and ends loading; a failure stores its user-facing text |
| FheContract.Query | confidential-data-marketplace/frontend/src/hooks/useContractFHE.js:176-254 | refused with nothing changed unless ready; succeeds exactly when the proof and the later steps succeed, and then sends the proof with the value, clears the error and ends loading; a failure stores its user-facing text |
| FheContract.ExecutorQueriesFailAsWritten | confidential-data-marketplace/frontend/src/hooks/useContractFHE.js:191-197 | as written, with the executor's `parameter \|\| 0`, every query fails with `encryptUint32 is not defined` before a transaction is sent |
| FheContract.ParameterProofAsWritten | confidential-data-marketplace/frontend/src/hooks/useContractFHE.js:191-197 | as written: the proof is `0x` exactly when the parameter is `null` or `undefined`; any other parameter fails with `encryptUint32 is not defined` |
| FheContract.Numeric | confidential-data-marketplace/frontend/src/hooks/useContractFHE.js:195 | a number stands for itself; `null` and `undefined` stand for none |
| FheContract.ParameterProofEncrypts | confidential-data-marketplace/frontend/src/hooks/useContractFHE.js:191-197 | with the runtime's encryption the executor's parameter is encrypted: with an instance the proof is the SDK's; without one the query fails with the runtime's not-initialised error; in every case the outcome differs from the as-written one |
| FheContract.ParameterProof | confidential-data-marketplace/frontend/src/hooks/useContractFHE.js:191-197 | corrected: `0x` without a parameter; otherwise a non-numeric parameter fails, a missing instance gives the not-initialised encryption error, and the SDK's proof or its wrapped error is returned |
| FheContract.InitReadyIff | confidential-data-marketplace/frontend/src/hooks/useContractFHE.js:28-81 | initialisation succeeds exactly on an FHEVM chain and then leaves the hook ready with no error; any failure keeps the contract as it was and stores the error's user-facing text; the chain is recorded whenever it was read, with its FHEVM flag; loading always ends |
| FheContract.Proofs | confidential-data-marketplace/frontend/src/hooks/useContractFHE.js:110 | one proof per encrypted value, in order |
| FheContract.OperationsSettle | confidential-data-marketplace/frontend/src/hooks/useContractFHE.js:90-254 | upload and query are refused without a contract and readiness, changing nothing; otherwise loading ends, the error is cleared on success or holds the error's text on failure, a transaction is sent exactly when the encryption (or proof) and the price succeed, a successful upload sent one proof per value and a successful query sent the parameter's proof; contract, readiness and network are never changed |
| FheContract.FheContractHook.constructor | confidential-data-marketplace/frontend/src/hooks/useContractFHE.js:19-23 | no contract, not ready, not loading, no error, no network |
| FheContract.FheContractHook.InitContract | confidential-data-marketplace/frontend/src/hooks/useContractFHE.js:28-81 | the new state and outcome are those of the initialisation specification; the runtime keeps an existing instance, otherwise stores the one created for the chain's configuration, and a failed initialisation leaves it alone |
| FheContract.FheContractHook.UploadDataset | confidential-data-marketplace/frontend/src/hooks/useContractFHE.js:90-167 | the new state, outcome and call are those of the upload specification over the runtime's encryption of every value; when an encryption fails the error is that of some value's encryption |
| FheContract.FheContractHook.ExecuteQuery | confidential-data-marketplace/frontend/src/hooks/useContractFHE.js:176-254 | the new state, outcome and call are those of the query specification over the corrected parameter proof |
| QueryExecutor.SelectedOption | confidential-data-marketplace/frontend/src/components/QueryExecutor.jsx:171 | an option found is one of the four and has the selected type |
| QueryExecutor.FindOption | confidential-data-marketplace/frontend/src/components/QueryExecutor.jsx:171 | the option found is in the list with the sought type; none exactly when no option has it |
| QueryExecutor.QueryOptionsCoverTypes | confidential-data-marketplace/frontend/src/components/QueryExecutor.jsx:7-36 | the four options carry types 0 to 3 in order; a selection has an option exactly when it is below 4, and that option needs a parameter exactly for COUNT_ABOVE (2) and COUNT_BELOW (3) |
| QueryExecutor.FailureAlert | confidential-data-marketplace/frontend/src/components/QueryExecutor.jsx:165 | the alert is `Query failed: ` followed by the error's message, which can be read back from it |
| QueryExecutor.RefusalIff | confidential-data-marketplace/frontend/src/components/QueryExecutor.jsx:130-145 | a query starts exactly when a type is selected and the current mode's query function exists; with no selection the alert is `Please select a query type first` |
| QueryExecutor.Refusal | confidential-data-marketplace/frontend/src/components/QueryExecutor.jsx:128-145 | an alert is one of the three refusal texts; the FHE text only for a selection in FHE mode and the wallet text only for a selection in mock mode |
| QueryExecutor.MockQuerySucceedsIff | confidential-data-marketplace/frontend/src/components/QueryExecutor.jsx:59-95 | a mock query shows a result exactly when the purchase returns a nonzero query id, there is a contract and some read among the first ten completes; the value shown is the first completed read's result; a query id of 0 fails with `Query execution failed` |
| QueryExecutor.MockQuery | confidential-data-marketplace/frontend/src/components/QueryExecutor.jsx:59-95 | a failed purchase passes its error on; a result needs a nonzero query id and a contract; a nonzero id without a contract fails with `Contract not initialized` |
| QueryExecutor.FheQueriesFailAsWritten | confidential-data-marketplace/frontend/src/components/QueryExecutor.jsx:98-125 | as written, whatever is typed as parameter, the FHE query fails with `encryptUint32 is not defined` |
| QueryExecutor.QueryPanel.constructor | confidential-data-marketplace/frontend/src/components/QueryExecutor.jsx:39-56 | nothing selected, an empty parameter, not executing, no result, no error |
| QueryExecutor.QueryPanel.SelectQuery | confidential-data-marketplace/frontend/src/components/QueryExecutor.jsx:196-197 | the option buttons select the type unless a query is running; nothing else changes |
| QueryExecutor.QueryPanel.SetParameter | confidential-data-marketplace/frontend/src/components/QueryExecutor.jsx:227-229 | the parameter box takes the text unless a query is running; nothing else changes |
| QueryExecutor.QueryPanel.HandleExecuteQuery | confidential-data-marketplace/frontend/src/components/QueryExecutor.jsx:128-169 | a refused query only alerts and changes nothing; a started one sends the selection with `parameter \|\| 0`, ends not executing, shows the outcome's result or stores its message and alerts `Query failed: …`; the decryption tracker is reset and stays so in FHE mode and when no wait starts; after a mock-mode wait it holds the wait's progress and is completed with the read's view or failed with the wait's error |
| QueryExecutor.QueryPanel.RunMockQuery | confidential-data-marketplace/frontend/src/components/QueryExecutor.jsx:59-95 | the mock path's outcome is that of its specification: purchase, query id check, then the ten-attempt wait; the decryption tracker is untouched unless a nonzero query id was returned and a contract is present, and otherwise holds the wait's progress and is completed with the first completed read's view, or failed with the wait's error and its earlier result kept |
| MyQueries.StatusBadgeFallsBack | confidential-data-marketplace/frontend/src/pages/MyQueries.jsx:253-262 | the badge names statuses 0 to 4 as the configuration's status table does, and any other status falls back to `Pending` |
| MyQueries.DecodeAsWrittenShiftsFields | confidential-data-marketplace/frontend/src/pages/MyQueries.jsx:59-70 | the corrected decode takes every field from its ABI slot; the decode as written shows the timestamp as status, the price as timestamp and the status as paid amount, so a completed query with a large timestamp shows `Pending` |
| MyQueries.DecodeAsWritten | confidential-data-marketplace/frontend/src/pages/MyQueries.jsx:59-70 | as written: the paid amount is the status output, the timestamp the price output and the status the timestamp output; the other fields are their like-named outputs |
| MyQueries.Decode | confidential-data-marketplace/frontend/src/pages/MyQueries.jsx:59-70 | corrected: every field of the row is the like-named output of the `getQuery` ABI, and the dataset name is the one given |
| MyQueries.CompletedQueryShownPending | confidential-data-marketplace/frontend/src/pages/MyQueries.jsx:59-70 | a completed query of 1700000000 paying 10^15 wei is shown as `Pending` with timestamp 10^15 as written, and as `Completed` at 1700000000 once corrected |
| MyQueries.DatasetQueries | confidential-data-marketplace/frontend/src/pages/MyQueries.jsx:54-81 | at most one row per query id read, each bought by the account and labelled with the dataset's name |
| MyQueries.DatasetQueriesIff | confidential-data-marketplace/frontend/src/pages/MyQueries.jsx:54-81 | a row is listed for a dataset exactly when some query id from 1 to its query count reads back as a query the account bought, decoded under the dataset's name |
| MyQueries.CollectedStep | confidential-data-marketplace/frontend/src/pages/MyQueries.jsx:40-85 | the rows of the active datasets are those of all but the last followed by the last one's, none when its read fails |
| MyQueries.CollectedSound | confidential-data-marketplace/frontend/src/pages/MyQueries.jsx:40-85 | every collected row comes from some active dataset that could be read and was bought by the account |
| MyQueries.CollectedComplete | confidential-data-marketplace/frontend/src/pages/MyQueries.jsx:40-85 | every row of every active dataset that could be read is collected |
| MyQueries.QueryListedUnderEveryDataset | confidential-data-marketplace/frontend/src/pages/MyQueries.jsx:49-56 | query ids are read from 1 up to each dataset's query count, not per dataset: one query of the account is listed twice, once under each of two datasets with one sale each |
| MyQueries.NewestFirstPairwise | confidential-data-marketplace/frontend/src/pages/MyQueries.jsx:90 | in a list sorted newest first every row is at least as recent as every later row |
| MyQueries.InsertByTime | confidential-data-marketplace/frontend/src/pages/MyQueries.jsx:90 | inserting a row into a newest-first list keeps it newest first and adds exactly that row |
| MyQueries.SortNewestFirst | confidential-data-marketplace/frontend/src/pages/MyQueries.jsx:90 | the rows sorted newest first by timestamp, the same rows with the same multiplicities |
| MyQueries.ReadDatasetQueries | confidential-data-marketplace/frontend/src/pages/MyQueries.jsx:54-81 | the inner loop over query ids builds exactly the rows of the dataset specification |
| MyQueries.MyQueriesPage.constructor | confidential-data-marketplace/frontend/src/pages/MyQueries.jsx:11-12 | no rows, loading |
| MyQueries.MyQueriesPage.LoadMyQueries | confidential-data-marketplace/frontend/src/pages/MyQueries.jsx:18-100 | without a contract or an account nothing is read and the rows stay; a failed id list empties the page; otherwise the page shows the account's collected rows sorted newest first; loading ends in every case |
| Dashboard.OwnedIff | confidential-data-marketplace/frontend/src/pages/Dashboard.jsx:63-76 | a dataset is listed exactly when it was read and its owner is the account, ignoring case |
| Dashboard.SumsAppend | confidential-data-marketplace/frontend/src/pages/Dashboard.jsx:72-76 | query and revenue totals over two lists add up |
| Dashboard.SumsSnoc | confidential-data-marketplace/frontend/src/pages/Dashboard.jsx:72-76 | adding a dataset adds its queries and revenue to the totals |
| Dashboard.OwnedSnoc | confidential-data-marketplace/frontend/src/pages/Dashboard.jsx:63-76 | one more dataset read is appended to the list exactly when the account owns it |
| Dashboard.MyDatasetsIsOwnedRead | confidential-data-marketplace/frontend/src/pages/Dashboard.jsx:41-80 | reading and filtering in one pass lists the same datasets as keeping the account's among all datasets that could be read |
| Dashboard.MyDatasets | confidential-data-marketplace/frontend/src/pages/Dashboard.jsx:41-80 | at most one dataset per id, and every dataset listed is owned by the account and is the reply for one of the ids |
| Dashboard.TotalsSplit | confidential-data-marketplace/frontend/src/pages/Dashboard.jsx:63-91 | the account's totals and everyone else's add up to the totals over every dataset read: nothing is lost or counted twice |
| Dashboard.OwnedTotalsBounded | confidential-data-marketplace/frontend/src/pages/Dashboard.jsx:63-91 | the account's totals never exceed those over every dataset read |
| Dashboard.CollectMine | confidential-data-marketplace/frontend/src/pages/Dashboard.jsx:41-80 | the loop lists the account's datasets among those read, in id order, and its running totals are their queries and revenue |
| Dashboard.DashboardPage.constructor | confidential-data-marketplace/frontend/src/pages/Dashboard.jsx:10-12 | no figures, no datasets, loading |
| Dashboard.DashboardPage.LoadDashboard | confidential-data-marketplace/frontend/src/pages/Dashboard.jsx:18-105 | without a contract or an account nothing is read and the page stays; a failed id list shows zero totals and no datasets; otherwise the account's datasets among those read and, as figures, their number, queries and revenue; loading ends in every case |
| Marketplace.Filtered | confidential-data-marketplace/frontend/src/pages/Marketplace.jsx:75-78 | never more datasets than loaded, each loaded and matching the term in its lower-cased name or description |
| Marketplace.FilteredIff | confidential-data-marketplace/frontend/src/pages/Marketplace.jsx:75-78 | a dataset is shown exactly when it is loaded and its name or description contains the term, ignoring case |
| Marketplace.FilteredAppend | confidential-data-marketplace/frontend/src/pages/Marketplace.jsx:75-78 | filtering keeps the loaded order |
| Marketplace.EmptyTermKeepsAll | confidential-data-marketplace/frontend/src/pages/Marketplace.jsx:75-78 | an empty search box shows every loaded dataset, unchanged and in order |
| Marketplace.FilteredIdempotent | confidential-data-marketplace/frontend/src/pages/Marketplace.jsx:75-78 | searching the shown list again for the same term changes nothing |
| Marketplace.MarketplacePage.constructor | confidential-data-marketplace/frontend/src/pages/Marketplace.jsx:9-11 | no datasets, loading, an empty search box |
| Marketplace.MarketplacePage.SetSearchTerm | confidential-data-marketplace/frontend/src/pages/Marketplace.jsx:147 | the search box holds the new term and the list is untouched |
| Marketplace.MarketplacePage.LoadDatasets | confidential-data-marketplace/frontend/src/pages/Marketplace.jsx:17-73 | without a contract nothing is read and the list stays; a failed id list empties it; otherwise the datasets that could be read, in id order; the search term is kept and loading ends in every case |
| DatasetDetail.NoFetchWithoutValidIdAndContract | confidential-data-marketplace/frontend/src/pages/DatasetDetail.jsx:28-40 | without a valid id or a contract the ledger is not consulted, the dataset is kept and the first failing check's message is shown |
| DatasetDetail.LoadOutcome | confidential-data-marketplace/frontend/src/pages/DatasetDetail.jsx:22-94 | a load stores the dataset, touching nothing else, exactly when the id is valid, a contract is connected and the dataset exists; otherwise it sets an error and keeps the dataset; loading ends in every case |
| DatasetDetail.Load | confidential-data-marketplace/frontend/src/pages/DatasetDetail.jsx:22-94 | loading ends; the dataset changes only to a found dataset read for a valid id with a contract, and then the error is untouched; in every other case the dataset is kept and the matching message shows: the invalid-id message for a bad id, the no-contract message without a contract, the call's own message (or the load-failed text) when the read fails, and the not-found message when the read gives a zero owner or an empty name |
| DatasetDetail.FetchFailureMessage | confidential-data-marketplace/frontend/src/pages/DatasetDetail.jsx:85-89 | a failed read shows the error's own message, or `Failed to load dataset. Please try again.` when it has none |
| DatasetDetail.TrimOfNumberChars | confidential-data-marketplace/frontend/src/pages/DatasetDetail.jsx:28 | trimming leaves a string that starts and ends with digits, signs or points unchanged |
| DatasetDetail.ZeroRun | confidential-data-marketplace/frontend/src/pages/DatasetDetail.jsx:28 | `k` characters, all zeros |
| DatasetDetail.ZeroIdsRejected | confidential-data-marketplace/frontend/src/pages/DatasetDetail.jsx:28-33 | no id, the empty id and any run of zeros, with or without a sign, are refused as invalid |
| DatasetDetail.DecimalZeroRejected | confidential-data-marketplace/frontend/src/pages/DatasetDetail.jsx:28-33 | `0.0` is refused as invalid |
| DatasetDetail.PaddedZeroRejected | confidential-data-marketplace/frontend/src/pages/DatasetDetail.jsx:28-33 | a zero with spaces around it is refused as invalid |
| DatasetDetail.NumeralTrimmed | confidential-data-marketplace/frontend/src/pages/DatasetDetail.jsx:28 | a decimal numeral has nothing to trim |
| DatasetDetail.PositiveNumeralLeads | confidential-data-marketplace/frontend/src/pages/DatasetDetail.jsx:28 | the numeral of a positive number starts with a nonzero digit, so it is not a run of zeros |
| DatasetDetail.PositiveIdsAccepted | confidential-data-marketplace/frontend/src/pages/DatasetDetail.jsx:28-33 | every positive id written in decimal passes the id check |
| DatasetDetail.ErrorOutlivesSuccessfulLoad | confidential-data-marketplace/frontend/src/pages/DatasetDetail.jsx:22-94 | an error from an earlier load survives a later load that finds the dataset: after the wallet connects, the dataset is stored but the missing-contract message stays |
| DatasetDetail.DatasetDetailPage.constructor | confidential-data-marketplace/frontend/src/pages/DatasetDetail.jsx:12-14 | no dataset, loading, no error |
| DatasetDetail.DatasetDetailPage.LoadDataset | confidential-data-marketplace/frontend/src/pages/DatasetDetail.jsx:22-94 | the ledger is read exactly when the id is valid and a contract is connected, and the new state is that of the load specification |

## Left out

- Rendering, alerts, `console` output, navigation and the `onUploadSuccess`/`onQueryComplete` callbacks are not modelled; only the state they read or set is.
- Timers, the two-second sleeps and the sixty-second `Promise.race` on the wallet request are not modelled. Time is counted in attempts.
- Async interleaving is not modelled: each handler runs to completion on its inputs.
- ethers, the relayer SDK, `fetch` and `window.ethereum` are inputs. This covers `parseEther`, `getNetwork`, `encodeFunctionData`, contract calls and `tx.wait()`.
  - `parseLog` is an input through `LogEntry`: a log is either an interface event with its name and first argument, or undecodable.
- Constructing an `ethers.Contract` is not modelled. It is taken never to throw, so its `catch` branches (`useContract.js` lines 30-33) are not modelled.
- The ABI is reduced to function names and event names with their first argument.
- The mock upload's wallet steps (`eth_accounts`, encoding, `eth_sendTransaction`, the timeout race) are folded into one reply: a hash or an error message. The same holds for `purchaseQuery`'s address lookup and transaction.
- Only the values a handler passes on or checks are modelled. The dataset name and description in uploads are not.
- Numbers are unbounded integers.
  - JavaScript's float `Number` is not modelled: `Number(x.toString())` on large values, and `totalQueries` summed in `Number`.
  - Ether amounts stay in wei. The float arithmetic of `formatEther` and the locale formatting of `formatTime` are not modelled.
- `isValidAddress` and `copyToClipboard` in `format.js` are not modelled: they only delegate to ethers and to the clipboard.
- `toLowerCase` lowers ASCII letters only.
- `Number(id)` on the detail page's route id is modelled for decimal spellings only: blank, sign, digits and one decimal point. Hexadecimal, exponent and `Infinity` spellings are not modelled.
- `Fhevm.Settle` compares the query status read as an integer. With ethers v6 a `uint8` may decode to a `bigint`, and then `=== 2` would never hold. That depends on the library, so the model reads an integer code.
- `Fhevm.FhevmRuntime.EncryptUint32`: the SDK's encryption is fixed per user address. The `getAddress` call it uses is not modelled separately.
- `ContractSwitch.ModeSwitch.ProbeGateway` only logs. Its effect is stated as no state change.
- `QueryExecutor.QueryPanel.HandleExecuteQuery`: the FHE `executeQuery` gets no price from the panel. The converted amount is an input, which is an `Err` whenever `parseEther` of the missing price throws.
- `FheContract.Numeric`: a string parameter is read with `parseInt`. The SDK's own conversion of other values, and the wording of the error it would raise, are not modelled.
- `MyQueries.SortNewestFirst` is specified on values, as sorted newest first and a permutation. `Array.prototype.sort` works in place and is stable; stability is not proved.
- `useContract.js` has three more functions, `getActiveDatasets`, `getQueryResult` and `getProviderStats`, which no page calls. They are not modelled: one returns `[]`, the other two wrap a single contract call.
- `DatasetDetail.Load` keeps an earlier error when a later load succeeds, as the code does. `DatasetDetail.ErrorOutlivesSuccessfulLoad` exhibits this. It is not listed as a finding, because the page may intend the message to persist.
- `MyQueries.QueryListedUnderEveryDataset`: the page reads the global query ids 1 up to each dataset's query count (MyQueries.jsx:53-55), and does not compare the query's dataset slot with the dataset it lists it under. So one query can appear under several datasets, and queries whose id is above a dataset's count are never read. Whether query ids are meant to be numbered per dataset depends on the ledger contract, which is not part of this model, so this is exhibited by the lemma and not listed as a finding.
- `MockContract.ContractHook.UploadDataset`: the mock path passes five arguments, including `[]` as the fourth, to the four-parameter `uploadDataset(string, string, uint256[], uint256)` of `CONTRACT_ABI` (config.js:39). With the argument checking of ethers v6, that call most likely fails to encode: `[]` is no `uint256`, and the trailing bigint is no overrides object. The interface is reduced to names here, and the ethers library is not part of this model. So the call's outcome `tx` is an input, and the model admits a successful send that the code as written probably cannot reach.
- `ContractSwitch.InitialMode`: `useContractSwitch.js:21` reads `localStorage` without the `try`/`catch` of `config.js:9-20`. Storage that throws is not modelled there: the stored value is an input, and a throwing read would break the hook's first render.
- `Decryption.ProgressAt`: `progress` is an exact rational here, while JavaScript computes it as a float. The rounding of `a/maxAttempts·80` is not modelled.
- Deployment scripts, the wallet hook, the Solidity contracts and pure display components are not part of this model.

## Findings

| source | as written | input that shows it | evidently intended | confidence | as-written member | corrected member |
|---|---|---|---|---|---|---|
| confidential-data-marketplace/frontend/src/pages/MyQueries.jsx:67-69 | `paidAmount`, `timestamp` and `status` are read from tuple slots 6, 7 and 8, but the `getQuery` ABI puts status at 6, price at 7 and timestamp at 8 | a completed query (status 2) with timestamp 1700000000 is shown as `Pending` and sorted by its price | read status from slot 6, price from 7, timestamp from 8 | high (not executed) | `MyQueries.DecodeAsWritten` (`MyQueries.CompletedQueryShownPending`, `MyQueries.DecodeAsWrittenShiftsFields`) | `MyQueries.Decode` (`MyQueries.DecodeAsWrittenShiftsFields`, used by `MyQueries.MyQueriesPage.LoadMyQueries`) |
| confidential-data-marketplace/frontend/src/hooks/useContract.js:89-103 | the upload's dataset id is taken from a `DatasetUploaded` event, which `CONTRACT_ABI` does not declare | a receipt whose `DatasetCreated` log carries 7 reports `datasetId: null` | take the id from the `DatasetCreated` event the contract emits | high (not executed) | `MockContract.UploadedDatasetId` (`MockContract.UploadedDatasetIdIsNull`, `MockContract.UploadedDatasetIdMissesCreated`) | `MockContract.CreatedDatasetId` (`MockContract.CreatedDatasetIdIsFirst`, used by `MockContract.ContractHook.UploadDataset`) |
| confidential-data-marketplace/frontend/src/hooks/useContractFHE.js:195 | `executeQuery` calls `encryptUint32`, which the file does not import | any query from the panel, whose parameter is `parameter \|\| 0` and never `null`, throws `encryptUint32 is not defined` | import and call `encryptUint32` from the FHEVM utilities | high (not executed) | `FheContract.ParameterProofAsWritten` (`FheContract.ExecutorQueriesFailAsWritten`, `QueryExecutor.FheQueriesFailAsWritten`) | `FheContract.ParameterProof` (`FheContract.ParameterProofEncrypts`, used by `FheContract.FheContractHook.ExecuteQuery`) |
