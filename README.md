# Cognito identity-pool operations, modelled in Dafny

This project models the core of the Amplify Swift plugin toolkit's identity-pool support. That core is:

- `AWSCognitoIdentityPoolOperations`, which hands out AWS credentials and a Cognito identity id.
- `AWSCognitoIdentityPoolDetailsStore`, which persists them.
- The secure-storage error and query values.
- The string helpers the operations use for masking and for validating the plugin key and version.
- The hub-event emitter.
- The in-memory mock credential store that stands in for the Keychain.

The stateful parts are Dafny classes. Each method is proved equal to a pure step function over the previous state. The properties of the system are then proved as lemmas about those step functions:

- Saved credentials are reused while they are valid.
- A new login or an expired credential triggers a refresh.
- A refresh persists exactly what the service returned.
- A missing store entry starts a cold fetch.
- A fetch either fully succeeds or fails with one error.
- Saved details read back unchanged.

The value types and helpers are datatypes and functions with lemmas:

- Masking never reveals the interior of a secret.
- Semantic-version validation is sound and complete for its pattern.
- UTF-8 conversion round-trips exactly on well-formed data.

Modules, one per file:

- `Wrappers`: `Option`, `Result`, `Outcome`.
- `Utf8`: `Data(s.utf8)` and `String(decoding:as:)` on byte sequences.
- `AmplifyErrorMessages`, `Interpolation`: recovery-suggestion texts, and decimal rendering of integers.
- `CredentialStoreErrors`, `CredentialStoreAttributes`: `AWSCredentialStoreError` and `AWSCredentialStoreAttributes`.
- `AuthErrors`: the `AuthError` cases the operations produce, and the errors they wrap.
- `StringUtils`: `String+Utils.swift`.
- `PluginValidation`: `AWSCognitoIdentityPoolOperationsHelper`.
- `Credentials`: `AWSAuthCredentials`.
- `IdentityPoolTypes`: `LoginProvider`, `AWSCognitoIdentityPoolDetails`, `AWSCognitoIdentityPoolConfiguration`, and the logins map.
- `MockStore`: `MockAWSCredentialStore`.
- `DetailsStore`: `AWSCognitoIdentityPoolDetailsStore` and the `UserDefaults` flag it consults.
- `IdentityClient`: the two Cognito identity calls, over an arbitrary `Backend`, plus the `MockCognitoIdentityClient` backend.
- `Operations`: `AWSCognitoIdentityPoolOperations`.
- `FetchProperties`: the lemmas about fetching.
- `HubEvents`: `AWSAuthHubEventEmitter`.

Modelling choices:

- Time is a parameter `now` in whole seconds. A credential's `expiration` is a number of seconds.
- Encoding and decoding of the saved values (JSON in the source) are a pair of partial functions, `Codec`. Every property that needs the round trip takes it as a hypothesis, `RoundTrips`.
- The Cognito service is a parameter of the client, `Backend`. Its failures are `ClientError` values.

## Model

| member | source | states |
|---|---|---|
| Utf8.Encode | Tests/CognitoIdentityPoolOperationsTests/Mocks/MockAWSCredentialStore.swift:24 | each character takes one to four bytes |
| Utf8.Decode | Tests/CognitoIdentityPoolOperationsTests/Mocks/MockAWSCredentialStore.swift:46 | never more characters than bytes: each step consumes at least one byte |
| Utf8.DecodeEncode | Tests/CognitoIdentityPoolOperationsTests/Mocks/MockAWSCredentialStore.swift:21-28 | a string stored in the mock and read back as data, then decoded, is the same string |
| Utf8.EncodeWellFormed | Tests/CognitoIdentityPoolOperationsTests/Mocks/MockAWSCredentialStore.swift:21-28 | `getData` of a stored string always yields well-formed UTF-8 |
| Utf8.EncodeDecode | Tests/CognitoIdentityPoolOperationsTests/Mocks/MockAWSCredentialStore.swift:44-48 | well-formed data put into the mock is given back byte for byte |
| Utf8.RoundTripIffWellFormed | Tests/CognitoIdentityPoolOperationsTests/Mocks/MockAWSCredentialStore.swift:44-48 | data survives the conversion to `String` and back exactly when it is well-formed UTF-8 |
| Interpolation.NatText | Sources/SecureStorage/AWSCredentialStoreError.swift:77-81 | the rendering of a status is a non-empty run of decimal digits without a leading zero |
| Interpolation.NatTextValue | Sources/SecureStorage/AWSCredentialStoreError.swift:77-81 | reading the rendered digits back gives the number |
| CredentialStoreErrors.ConfigurationWithMessage | Sources/SecureStorage/AWSCredentialStoreError.swift:41-45 | the error equals `configuration` and carries the message as its description |
| CredentialStoreErrors.UnknownWithDescription | Sources/SecureStorage/AWSCredentialStoreError.swift:47-53 | equals `unknown`, keeps the underlying error, and its description is the fixed prefix followed by the given text |
| CredentialStoreErrors.ConversionErrorWithDescription | Sources/SecureStorage/AWSCredentialStoreError.swift:55-61 | equals `conversionError`, with the given description and underlying error |
| CredentialStoreErrors.CodingErrorWithDescription | Sources/SecureStorage/AWSCredentialStoreError.swift:63-69 | equals `codingError`, with the given description and underlying error |
| CredentialStoreErrors.ItemNotFoundWithDescription | Sources/SecureStorage/AWSCredentialStoreError.swift:71-75 | equals `itemNotFound` whatever its description, with no underlying error |
| CredentialStoreErrors.SecurityErrorWithStatus | Sources/SecureStorage/AWSCredentialStoreError.swift:77-81 | equals `securityError`; the description is the fixed prefix followed by the decimal status |
| CredentialStoreErrors.FromAmplifyError | Sources/SecureStorage/AWSCredentialStoreError.swift:84-96 | always equal to `unknown`; keeps the wrapped error, description and suggestion |
| CredentialStoreErrors.EqualIsEquivalence | Sources/SecureStorage/AWSCredentialStoreError.swift:19-22 | `==` is reflexive, symmetric and transitive, and decided by the code alone |
| CredentialStoreErrors.MakeKeepsFields | Sources/SecureStorage/AWSCredentialStoreError.swift:19-32 | the initializer keeps its arguments, defaults to the unknown-error description, the report-a-bug suggestion and no underlying error, and is `==` to exactly the errors with its code |
| CredentialStoreErrors.StaticValuesDistinct | Sources/SecureStorage/AWSCredentialStoreError.swift:34-39 | the six static errors have codes 0 to 5 in order and are pairwise unequal |
| CredentialStoreAttributes.DefaultGetQuery | Sources/SecureStorage/AWSCredentialStoreAttributes.swift:19-28 | the query always names the item class and the service |
| CredentialStoreAttributes.DefaultSetQuery | Sources/SecureStorage/AWSCredentialStoreAttributes.swift:30-35 | the set query holds every key of the get query |
| CredentialStoreAttributes.GetQueryContents | Sources/SecureStorage/AWSCredentialStoreAttributes.swift:19-28 | class and service with their values, the access group exactly when one is configured, and neither protection entry |
| CredentialStoreAttributes.GetQueryKeys | Sources/SecureStorage/AWSCredentialStoreAttributes.swift:19-28 | the exact key set of the get query, with and without an access group |
| CredentialStoreAttributes.SetQueryExtendsGetQuery | Sources/SecureStorage/AWSCredentialStoreAttributes.swift:30-35 | the set query is the get query plus accessible-after-first-unlock-this-device-only and the data-protection-keychain flag, other entries unchanged |
| CredentialStoreAttributes.QueryExamples | Tests/SecureStorageTests/AWSCredentialStoreAttributesTests.swift:20-65 | the queries the attribute tests expect, for an attribute set with and without an access group |
| StringUtils.Masked | Sources/CognitoIdentityPoolOperations/Utils/String+Utils.swift:21-38 | masking never makes a value longer |
| StringUtils.MaskedShort | Sources/CognitoIdentityPoolOperations/Utils/String+Utils.swift:26-28 | a value shorter than twice the retained count becomes mask characters only, one per character |
| StringUtils.MaskedLong | Sources/CognitoIdentityPoolOperations/Utils/String+Utils.swift:30-37 | otherwise the first and last retained characters are kept, with min(length - 2 * retained, interior count) mask characters between them |
| StringUtils.MaskedDefaultKeepsLength | Sources/CognitoIdentityPoolOperations/Utils/String+Utils.swift:21-37 | with the default interior count the masked value has the length of the value |
| StringUtils.MaskedWithoutInterior | Sources/CognitoIdentityPoolOperations/Utils/String+Utils.swift:26-37 | a value of exactly twice the retained count comes back unchanged |
| StringUtils.MaskedZeroInterior | Sources/CognitoIdentityPoolOperations/Utils/String+Utils.swift:30-37 | an interior count of 0 drops the interior and leaves prefix followed by suffix |
| StringUtils.MaskedFourCharacters | Sources/CognitoIdentityPoolOperations/Utils/String+Utils.swift:21-37 | with every default, a four-character value comes back unchanged |
| StringUtils.MaskedSecretBounded | Sources/CognitoIdentityPoolOperations/AWSAuthCredentials.swift:37-39 | the credential form (interior 5, 2 retained) is at most 9 characters, exactly 4 + min(length - 4, 5) from length 4 on |
| StringUtils.MaskedSecretHidesLongValues | Sources/CognitoIdentityPoolOperations/AWSAuthCredentials.swift:37-39 | the credential form of a value longer than 9 characters does not contain the value |
| StringUtils.MaskedOptional | Sources/CognitoIdentityPoolOperations/Utils/String+Utils.swift:46-61 | nil becomes the literal "(nil)"; any other value is masked as a `String` |
| StringUtils.Redacted | Sources/CognitoIdentityPoolOperations/Utils/String+Utils.swift:40-42 | the result is "<REDACTED>" whatever the value |
| StringUtils.RedactedOptional | Sources/CognitoIdentityPoolOperations/Utils/String+Utils.swift:63-70 | nil becomes "(nil)"; any other value becomes "<REDACTED>" |
| StringUtils.FirstNonAlphanumeric | Sources/CognitoIdentityPoolOperations/Utils/String+Utils.swift:77-79 | finds the first character outside the alphanumerics, or reports that there is none |
| StringUtils.IsAlphaNumeric | Sources/CognitoIdentityPoolOperations/Utils/String+Utils.swift:77-79 | true exactly when the string is non-empty and every character is alphanumeric |
| StringUtils.FollowsSemanticVersioning | Sources/CognitoIdentityPoolOperations/Utils/String+Utils.swift:82-86 | an accepted version has at least four characters, starts with a digit and contains a dot |
| StringUtils.FollowsSemanticVersioningSound | Sources/CognitoIdentityPoolOperations/Utils/String+Utils.swift:82-86 | an accepted version starts with numeral "." numeral ".", numerals having no leading zero |
| StringUtils.FollowsSemanticVersioningComplete | Sources/CognitoIdentityPoolOperations/Utils/String+Utils.swift:82-86 | every string of that shape is accepted |
| StringUtils.FollowsSemanticVersioningMeaning | Sources/CognitoIdentityPoolOperations/Utils/String+Utils.swift:82-86 | acceptance holds exactly for strings of that shape |
| StringUtils.SemanticVersioningAccepts | Sources/CognitoIdentityPoolOperations/Utils/String+Utils.swift:82-86 | "1.0.0", "10.20.30" and "1.0." are accepted |
| StringUtils.SemanticVersioningRejects | Sources/CognitoIdentityPoolOperations/Utils/String+Utils.swift:82-86 | "1-2-3", "01.0.0", "pluginVersion" and "1.0" are rejected |
| PluginValidation.CheckPluginKeyAndVersionAreValid | Sources/CognitoIdentityPoolOperations/Utils/AWSCognitoIdentityPoolOperationsHelper.swift:13-44 | every rejection is a validation error |
| PluginValidation.CheckAcceptsExactlyValid | Sources/CognitoIdentityPoolOperations/Utils/AWSCognitoIdentityPoolOperationsHelper.swift:13-44 | the check passes exactly when both are non-empty, the key has at most 25 alphanumeric characters, and the version has at most 10 characters and follows the pattern |
| PluginValidation.CheckReportsFirstFailure | Sources/CognitoIdentityPoolOperations/Utils/AWSCognitoIdentityPoolOperationsHelper.swift:15-43 | each of the five errors is reported exactly when its condition fails and every earlier check passed |
| PluginValidation.CheckRejectsEmpty | Tests/CognitoIdentityPoolOperationsTests/AWSCognitoIdentityPoolOperationsHelperTests.swift:14-51 | an empty key or version gives the emptiness error |
| PluginValidation.CheckRejectsTooLong | Tests/CognitoIdentityPoolOperationsTests/AWSCognitoIdentityPoolOperationsHelperTests.swift:53-103 | an over-long key or version gives the length error, the key's first |
| PluginValidation.CheckRejectsKeyCharacters | Tests/CognitoIdentityPoolOperationsTests/AWSCognitoIdentityPoolOperationsHelperTests.swift:118-129 | "pl12:;-" gives the key-character error |
| PluginValidation.CheckRejectsVersionPattern | Tests/CognitoIdentityPoolOperationsTests/AWSCognitoIdentityPoolOperationsHelperTests.swift:105-116 | "1-2-3" and "01.0.0" give the version-pattern error |
| PluginValidation.CheckAcceptsValid | Tests/CognitoIdentityPoolOperationsTests/AWSCognitoIdentityPoolOperationsHelperTests.swift:131-138 | "pluginKey" with "1.0.0" passes |
| Credentials.FromCognitoCredentials | Sources/CognitoIdentityPoolOperations/AWSAuthCredentials.swift:57-76 | succeeds exactly when all four fields are present, copies them unchanged, and otherwise fails with the empty-elements service error |
| Credentials.FromCognitoCredentialsInverts | Sources/CognitoIdentityPoolOperations/AWSAuthCredentials.swift:70-75 | converting a credential to the SDK form and back gives the same credential |
| Credentials.FromCognitoCredentialsLossless | Sources/CognitoIdentityPoolOperations/AWSAuthCredentials.swift:57-76 | a successful conversion loses nothing: its inverse is the input |
| Credentials.EqualityIsStructural | Sources/CognitoIdentityPoolOperations/AWSAuthCredentials.swift:30 | two credentials are equal exactly when all four fields are |
| Credentials.DebugDictionary | Sources/CognitoIdentityPoolOperations/AWSAuthCredentials.swift:35-42 | exactly the four keys `accessKey`, `secretAccessKey`, `sessionToken` and `expiration`, the last holding the expiration as a date (the masking is stated by `DebugDictionaryMasksSecrets`) |
| Credentials.DebugDictionaryMasksSecrets | Sources/CognitoIdentityPoolOperations/AWSAuthCredentials.swift:35-42 | each secret appears only in its credential-masked form, at most 9 characters long |
| Credentials.DebugDictionaryHidesLongSecrets | Sources/CognitoIdentityPoolOperations/AWSAuthCredentials.swift:37-39 | no masked entry contains a secret longer than 9 characters |
| Credentials.DebugDescription | Sources/CognitoIdentityPoolOperations/AWSAuthCredentials.swift:47-49 | the text is a bracketed dictionary rendering |
| Credentials.DebugDescriptionDependsOnlyOnDictionary | Sources/CognitoIdentityPoolOperations/AWSAuthCredentials.swift:47-49 | credentials with the same debug dictionary have the same description |
| Credentials.DebugDescriptionIgnoresInterior | Sources/CognitoIdentityPoolOperations/AWSAuthCredentials.swift:35-49 | changing the hidden middle of an access key of 9 or more characters does not change the description |
| IdentityPoolTypes.Succeeded | Sources/CognitoIdentityPoolOperations/AWSCognitoIdentityPoolOperations.swift:88-91 | both results succeed, with the given credentials and id |
| IdentityPoolTypes.Failed | Sources/CognitoIdentityPoolOperations/AWSCognitoIdentityPoolOperations.swift:88-91 | both results fail, with the same error |
| IdentityPoolTypes.LoginsMapLastWins | Sources/CognitoIdentityPoolOperations/AWSCognitoIdentityPoolOperations.swift:167-170 | the map's names are the providers' names; each maps to the identifier of the last provider with that name |
| IdentityPoolTypes.LoginsMapExample | Sources/CognitoIdentityPoolOperations/AWSCognitoIdentityPoolOperations.swift:167-170 | example: a repeated provider name keeps the later identifier |
| MockStore.MockCredentialStore.constructor | Tests/CognitoIdentityPoolOperationsTests/Mocks/MockAWSCredentialStore.swift:13-19 | an empty store, all counters 0, `removeAll` not yet called |
| MockStore.MockCredentialStore.GetData | Tests/CognitoIdentityPoolOperationsTests/Mocks/MockAWSCredentialStore.swift:21-28 | counts the call; gives the stored string's UTF-8, or `itemNotFound` |
| MockStore.MockCredentialStore.GetString | Tests/CognitoIdentityPoolOperationsTests/Mocks/MockAWSCredentialStore.swift:30-37 | counts the call; gives the stored string, or `itemNotFound` |
| MockStore.MockCredentialStore.PutString | Tests/CognitoIdentityPoolOperationsTests/Mocks/MockAWSCredentialStore.swift:39-42 | counts the call and stores the string under the key |
| MockStore.MockCredentialStore.PutData | Tests/CognitoIdentityPoolOperationsTests/Mocks/MockAWSCredentialStore.swift:44-48 | counts the call and stores the data decoded as UTF-8 |
| MockStore.MockCredentialStore.Remove | Tests/CognitoIdentityPoolOperationsTests/Mocks/MockAWSCredentialStore.swift:50-53 | counts the call and deletes the key |
| MockStore.MockCredentialStore.RemoveAll | Tests/CognitoIdentityPoolOperationsTests/Mocks/MockAWSCredentialStore.swift:55-58 | records the call and empties the store |
| MockStore.ReadsFindStoredValues | Tests/CognitoIdentityPoolOperationsTests/Mocks/MockAWSCredentialStore.swift:21-37 | a read succeeds exactly when the key is stored, and otherwise fails with an error equal to `itemNotFound` |
| MockStore.PutStringThenGetString | Tests/CognitoIdentityPoolOperationsTests/Mocks/MockAWSCredentialStore.swift:30-42 | a string put under a key is read back unchanged |
| MockStore.PutDataThenGetData | Tests/CognitoIdentityPoolOperationsTests/Mocks/MockAWSCredentialStore.swift:21-48 | data put under a key is read back unchanged exactly when it is well-formed UTF-8 |
| MockStore.PutStringThenGetData | Tests/CognitoIdentityPoolOperationsTests/Mocks/MockAWSCredentialStore.swift:21-42 | a stored string is read back as its UTF-8 encoding |
| MockStore.WritesTouchOnlyTheirKey | Tests/CognitoIdentityPoolOperationsTests/Mocks/MockAWSCredentialStore.swift:39-53 | puts and removes leave every other key as it was |
| MockStore.RemoveDeletesKey | Tests/CognitoIdentityPoolOperationsTests/Mocks/MockAWSCredentialStore.swift:50-53 | after `remove`, reading the key fails with `itemNotFound` |
| MockStore.RemoveAllEmpties | Tests/CognitoIdentityPoolOperationsTests/Mocks/MockAWSCredentialStore.swift:55-58 | after `removeAll` every read fails and the flag is set |
| MockStore.EachOperationCountsItself | Tests/CognitoIdentityPoolOperationsTests/Mocks/MockAWSCredentialStore.swift:13-58 | each operation raises its own counter by one and leaves the others alone |
| DetailsStore.RootPrefix | Sources/CognitoIdentityPoolOperations/AWSCognitoIdentityPoolDetailsStore.swift:65-70 | starts with "amplify." and has the length of the pool id, the suffix and the separators |
| DetailsStore.SessionPrefix | Sources/CognitoIdentityPoolOperations/AWSCognitoIdentityPoolDetailsStore.swift:76-81 | extends the root prefix |
| DetailsStore.CredentialKey | Sources/CognitoIdentityPoolOperations/AWSCognitoIdentityPoolDetailsStore.swift:83-89 | strictly extends the pool's root prefix |
| DetailsStore.IdentityIdKey | Sources/CognitoIdentityPoolOperations/AWSCognitoIdentityPoolDetailsStore.swift:91-97 | strictly extends the pool's root prefix |
| DetailsStore.LoginsProviderKey | Sources/CognitoIdentityPoolOperations/AWSCognitoIdentityPoolDetailsStore.swift:99-105 | strictly extends the pool's root prefix |
| DetailsStore.KeysDistinct | Sources/CognitoIdentityPoolOperations/AWSCognitoIdentityPoolDetailsStore.swift:83-105 | the credential, identity-id and logins keys are pairwise different |
| DetailsStore.KeySetsDisjoint | Sources/CognitoIdentityPoolOperations/AWSCognitoIdentityPoolDetailsStore.swift:65-105 | within one pool, two different key suffixes without dots never share a key |
| DetailsStore.EncodeWith | Sources/CognitoIdentityPoolOperations/AWSCognitoIdentityPoolDetailsStore.swift:152-158 | gives the encoder's bytes, or the encoding coding error when it fails |
| DetailsStore.DecodeWith | Sources/CognitoIdentityPoolOperations/AWSCognitoIdentityPoolDetailsStore.swift:160-166 | gives the decoder's value, or the decoding coding error when it fails |
| DetailsStore.AWSCognitoIdentityPoolDetailsStore.constructor | Sources/CognitoIdentityPoolOperations/AWSCognitoIdentityPoolDetailsStore.swift:46-58 | when the keychain-configured flag is unset, empties the store and sets the flag; otherwise leaves both alone |
| DetailsStore.AWSCognitoIdentityPoolDetailsStore.Save | Sources/CognitoIdentityPoolOperations/AWSCognitoIdentityPoolDetailsStore.swift:110-123 | the new store state and outcome are those of encoding and writing the credentials, then the identity id, then the logins |
| DetailsStore.AWSCognitoIdentityPoolDetailsStore.Retrieve | Sources/CognitoIdentityPoolOperations/AWSCognitoIdentityPoolDetailsStore.swift:125-138 | the new state and result are those of reading and decoding the credentials, then the id, then the logins |
| DetailsStore.AWSCognitoIdentityPoolDetailsStore.Delete | Sources/CognitoIdentityPoolOperations/AWSCognitoIdentityPoolDetailsStore.swift:140-142 | removes every item of the store |
| DetailsStore.AWSCognitoIdentityPoolDetailsStore.DeleteAll | Sources/CognitoIdentityPoolOperations/AWSCognitoIdentityPoolDetailsStore.swift:144-146 | removes every item of the store |
| DetailsStore.SaveWritesThreeKeys | Sources/CognitoIdentityPoolOperations/AWSCognitoIdentityPoolDetailsStore.swift:110-123 | when both encodings succeed the save passes, stores the credentials, id and logins under their three keys, and makes two data puts and one string put |
| DetailsStore.SaveEncodingFailures | Sources/CognitoIdentityPoolOperations/AWSCognitoIdentityPoolDetailsStore.swift:110-123 | an unencodable credential writes nothing; unencodable logins leave the first two keys written; every failure is a coding error |
| DetailsStore.RetrieveMeaning | Sources/CognitoIdentityPoolOperations/AWSCognitoIdentityPoolDetailsStore.swift:125-138 | succeeds exactly when all three entries are stored and decode; never partial; errors are `itemNotFound` or the decoding error |
| DetailsStore.RetrieveReadsOnlyEntries | Sources/CognitoIdentityPoolOperations/AWSCognitoIdentityPoolDetailsStore.swift:125-138 | the result depends on the stored entries alone, and retrieval changes none of them |
| DetailsStore.RetrieveMissingCredential | Sources/CognitoIdentityPoolOperations/AWSCognitoIdentityPoolDetailsStore.swift:125-128 | with no stored credential, retrieval throws `itemNotFound` after a single read |
| DetailsStore.RetrieveStoredEntries | Sources/CognitoIdentityPoolOperations/AWSCognitoIdentityPoolDetailsStore.swift:125-138 | a store whose three entries decode to a triple gives the triple back, after two data reads and one string read |
| DetailsStore.SaveThenRetrieve | Sources/CognitoIdentityPoolOperations/AWSCognitoIdentityPoolDetailsStore.swift:110-138 | with round-tripping codecs, retrieving after a successful save gives back what was saved, after two data reads and one string read |
| DetailsStore.DeleteThenRetrieveFails | Sources/CognitoIdentityPoolOperations/AWSCognitoIdentityPoolDetailsStore.swift:140-142 | after a delete, retrieval throws `itemNotFound` |
| DetailsStore.SaveThenRetrieveCounts | Tests/CognitoIdentityPoolOperationsTests/AWSCognitoIdentityPoolDetailsStoreTests.swift:34-64 | on a fresh store: one string put, two data puts, then one string read, two data reads, and the saved details back |
| IdentityClient.MockBackend | Tests/CognitoIdentityPoolOperationsTests/Mocks/MockCognitoIdentityClient.swift:47-60 | every `getId` answers with the mock id; every credentials call with the four mock fields and the mock id |
| IdentityClient.CognitoIdentityClient.GetId | Tests/CognitoIdentityPoolOperationsTests/Mocks/MockCognitoIdentityClient.swift:57-60 | answers as the backend does and records the request |
| IdentityClient.CognitoIdentityClient.GetCredentialsForIdentity | Tests/CognitoIdentityPoolOperationsTests/Mocks/MockCognitoIdentityClient.swift:47-55 | answers as the backend does and records the request |
| Operations.AWSCognitoIdentityPoolOperations.Create | Sources/CognitoIdentityPoolOperations/AWSCognitoIdentityPoolOperations.swift:146-160 | succeeds exactly when the plugin key and version pass validation and otherwise throws the validator's error; on success holds the given parts |
| Operations.AWSCognitoIdentityPoolOperations.FetchAWSCognitoIdentityPoolDetails | Sources/CognitoIdentityPoolOperations/AWSCognitoIdentityPoolOperations.swift:162-226 | builds the logins map in list order, then the new world and result are those of the fetch decision on the old world |
| Operations.AWSCognitoIdentityPoolOperations.ClearCredentials | Sources/CognitoIdentityPoolOperations/AWSCognitoIdentityPoolOperations.swift:228-232 | deletes every saved detail and calls no service |
| Operations.AWSCognitoIdentityPoolOperations.FetchAWSCredentialsAndUpdateSavedState | Sources/CognitoIdentityPoolOperations/AWSCognitoIdentityPoolOperations.swift:234-251 | the new world and result are those of a refresh: fetch the credentials, then save credentials, id and logins |
| Operations.AWSCognitoIdentityPoolOperations.FetchAWSCredentials | Sources/CognitoIdentityPoolOperations/AWSCognitoIdentityPoolOperations.swift:253-274 | one credentials call; a nil field gives the nil-value service error and a failed call wraps the client error |
| Operations.AWSCognitoIdentityPoolOperations.FetchAWSIdentityId | Sources/CognitoIdentityPoolOperations/AWSCognitoIdentityPoolOperations.swift:276-293 | one `getId` call; a nil id gives the nil-value service error and a failed call wraps the client error |
| Operations.ExpiryIsStrictAndMonotone | Sources/CognitoIdentityPoolOperations/AWSCognitoIdentityPoolOperations.swift:295-301 | credentials are not expired at their expiration instant, are expired one second later, and once expired stay expired |
| Operations.StoreFailureKeepsError | Sources/CognitoIdentityPoolOperations/AWSCognitoIdentityPoolOperations.swift:198-204 | a failed read other than item-not-found gives an error with the store error's description and suggestion that wraps the store error itself, distinct for distinct store errors and never the bare wrapping a failed save gives |
| FetchProperties.FetchReusesSavedDetails | Sources/CognitoIdentityPoolOperations/AWSCognitoIdentityPoolOperations.swift:183-194 | saved details for the same logins, unexpired and not forced, are returned as they are; no service call and no write |
| FetchProperties.FetchRefreshesSavedIdentity | Sources/CognitoIdentityPoolOperations/AWSCognitoIdentityPoolOperations.swift:185-190 | otherwise no `getId` is made and credentials are requested once, for the saved identity id and the logins map |
| FetchProperties.FetchColdStart | Sources/CognitoIdentityPoolOperations/AWSCognitoIdentityPoolOperations.swift:195-214 | with no saved credential: one `getId` with the pool and logins map, then credentials for the returned id; its failure or nil id fails both results; `forceRefresh` plays no part |
| FetchProperties.FetchOtherStoreError | Sources/CognitoIdentityPoolOperations/AWSCognitoIdentityPoolOperations.swift:198-204 | a store error other than `itemNotFound` fails both results with the wrapped store error and calls no service |
| FetchProperties.RefreshOutcome | Sources/CognitoIdentityPoolOperations/AWSCognitoIdentityPoolOperations.swift:234-274 | one credentials request; a complete answer is saved with the id the service returned and returned; a failed call, a nil part or incomplete credentials fail both results and write nothing |
| FetchProperties.FetchConsistent | Sources/CognitoIdentityPoolOperations/AWSCognitoIdentityPoolOperations.swift:185-250 | both results succeed or both fail with the same error |
| FetchProperties.ClearThenFetchStartsCold | Sources/CognitoIdentityPoolOperations/AWSCognitoIdentityPoolOperations.swift:228-232 | after the store is cleared, the next fetch makes a `getId` call with the pool and logins map |
| FetchProperties.FetchSuccessIsSaved | Sources/CognitoIdentityPoolOperations/AWSCognitoIdentityPoolOperations.swift:183-246 | with round-tripping codecs, a successful fetch leaves the store holding the credentials, id and logins it returned |
| FetchProperties.SecondFetchReuses | Tests/CognitoIdentityPoolOperationsTests/AWSCognitoIdentityPoolOperationsTests.swift:90-114 | after a successful fetch, a second unforced fetch with the same logins before expiry returns the same details and calls no service |
| FetchProperties.MockClientTwoFetches | Tests/CognitoIdentityPoolOperationsTests/AWSCognitoIdentityPoolOperationsTests.swift:51-210 | against the mock client and an empty store: the first fetch makes one call of each kind and returns the mock values; a second makes another credentials call exactly when its logins differ, it is forced or the credentials expired, and never another `getId` |
| HubEvents.HubEventEmitter.constructor | Sources/CognitoIdentityPoolOperations/AWSAuthHubEventEmitter.swift:14 | no event sent yet |
| HubEvents.HubEventEmitter.SendHubEvent | Sources/CognitoIdentityPoolOperations/AWSAuthHubEventEmitter.swift:26-32 | dispatches the event and remembers it exactly when it differs from the last one sent |
| HubEvents.DispatchesAppend | Sources/CognitoIdentityPoolOperations/AWSAuthHubEventEmitter.swift:26-32 | one more call adds its event to the dispatched ones exactly when it differs from the last name seen |
| HubEvents.DispatchesFirst | Sources/CognitoIdentityPoolOperations/AWSAuthHubEventEmitter.swift:27-31 | at most one dispatch per call, every dispatched event is one of the calls, and the first dispatched event differs from the last one sent before |
| HubEvents.DispatchesNoRepeats | Sources/CognitoIdentityPoolOperations/AWSAuthHubEventEmitter.swift:16-23 | no two consecutive dispatched events have the same name |
| HubEvents.DispatchesKeepsChanges | Sources/CognitoIdentityPoolOperations/AWSAuthHubEventEmitter.swift:16-23 | calls without consecutive repeats, starting with a new name, are all dispatched |
| HubEvents.DispatchesIdempotent | Sources/CognitoIdentityPoolOperations/AWSAuthHubEventEmitter.swift:16-23 | sending the dispatched events again from scratch dispatches exactly them |
| HubEvents.DocumentedExample | Sources/CognitoIdentityPoolOperations/AWSAuthHubEventEmitter.swift:19-23 | "foo", "foo", "bar", "foo" dispatches "foo", "bar", "foo" |
| HubEvents.DocumentedExampleOnEmitter | Sources/CognitoIdentityPoolOperations/AWSAuthHubEventEmitter.swift:19-32 | four `sendHubEvent` calls on a new emitter dispatch what `Dispatches` gives, "foo", "bar", "foo" |
| HubEvents.SignInThenThreeSignOuts | Tests/CognitoIdentityPoolOperationsTests/AuthHubEventEmitterTests.swift:19-41 | one sign-in followed by three sign-outs dispatches only the sign-in and one sign-out |

## Left out

- Concurrency: the serial task queue that runs the fetches and the `AtomicValue` around the last event name. Calls are modelled as sequential.
- `fatalError` after the queue (AWSCognitoIdentityPoolOperations.swift:224): unreachable once calls are sequential.
- The catch of a non-store error in the fetch (AWSCognitoIdentityPoolOperations.swift:215-219): unreachable in this model. Retrieval only throws store errors, and the refresh path returns its errors as results.
- The Keychain-backed `AWSCredentialStore`: AWSCredentialStore.swift is not part of this model. The details store is modelled over the mock store, whose puts never throw.
- JSON encoding and decoding: replaced by the `Codec` parameter, because Foundation's coders cannot be seen.
- `UserDefaults`: reduced to the one boolean flag.
- `Date`: a whole number of seconds. Sub-second comparisons and clock reads are out; `now` is a parameter.
- Amplify's `AuthError` initializers: `AuthError(error:)` is represented by `FromError`, which keeps the error it wraps, and `AuthError(errorDescription:recoverySuggestion:error:)` by `Wrapping`, which records the arguments passed. How Amplify classifies the error or builds its result from these arguments is not modelled.
- The Hub itself: a dispatch is recorded in a log.
- Debug text formatting: `debugDescription` renders the dictionary in one fixed key order. Swift's dictionary order and `Date` formatting are not modelled.
- Character classes: `isAlphaNumeric` and `\d` are taken as ASCII.
  - The Unicode letters and digits of `CharacterSet.alphanumerics` are not modelled.
  - Nor is the regular expression's `$` matching before a final newline.
  - String length counts Unicode scalars, not grapheme clusters.
- String equality: strings, and the keys of string-keyed maps, are compared as exact sequences of scalars. Swift compares them by Unicode canonical equivalence. The two agree on ASCII and on strings in the same normalization form. This affects three places:
  - `FetchOn`'s comparison of saved and new logins;
  - `LoginsMapOf`'s keys;
  - `SendHubEvent`'s comparison with the last event name.
  - For example, "e" followed by a combining acute accent and the precomposed "é" are one login, one map key and one event to Swift, but two to the model.
- Masked, MaskedOptional: require `retainingCount >= 0`, and `interiorCount >= 0` when the value has at least twice the retained count of characters. Outside these the source traps: `prefix` traps on a negative count, and a negative interior count makes the mask size negative, on which `String(repeating:count:)` traps. The model does not represent the trap. It also does not model the overflow trap of `retainingCount * 2` for huge counts, because integers are unbounded.
- `accessGroup` in the details store initializer is accepted and ignored, as in the source.
- The convenience initializer that builds its own client and store: not modelled, because it creates the SDK client.
- Outside the core: the user-agent helper (AWSCognitoIdentityPoolOperationsUserAgent.swift) and Package.swift.
- The mock client's other stubbed calls: the operations never make them.
- DetailsStore.AWSCognitoIdentityPoolDetailsStore.Save: writes the three items one after another, so an encoding failure of a later item leaves earlier ones written. A description of the store as saving atomically is not what the code does; the model follows the code.
