/**
 * `AWSCognitoIdentityPoolDetailsStore`: keeps the credentials, the identity id and the login
 * providers of the current session under three keys of a credential store.  The store here is
 * `MockCredentialStore`; the JSON coder is an abstract `Codec`.
 */
module DetailsStore {
  import opened Wrappers
  import opened Utf8
  import opened CredentialStoreErrors
  import opened Credentials
  import opened IdentityPoolTypes
  import opened MockStore

  /** The keychain service name the operations open their credential store with. */
  const Service: string := "com.amplify.awsCognitoIdentityPoolCredentialStore"

  const UserDefaultsNameSpace: string := "amplify_secure_storage_scopes.awsCognitoIdentityPoolCredentialStore"

  /** The `UserDefaults` key recording that the keychain has been purged once on this install. */
  const IsKeychainConfiguredKey: string := UserDefaultsNameSpace + ".isKeychainConfigured"

  const CredentialSuffix: string := ".credential"
  const IdentityIdSuffix: string := ".identityId"
  const LoginsProviderSuffix: string := ".loginsProvider"

  function RootPrefix(poolId: string, keySuffix: string): (r: string)
    ensures "amplify." <= r && |r| == |poolId| + |keySuffix| + 9
  {
    "amplify." + poolId + "." + keySuffix
  }

  function SessionPrefix(poolId: string, keySuffix: string): (r: string)
    ensures RootPrefix(poolId, keySuffix) <= r
  {
    RootPrefix(poolId, keySuffix) + ".session"
  }

  function CredentialKey(poolId: string, keySuffix: string): (r: string)
    ensures RootPrefix(poolId, keySuffix) <= r && |r| > |RootPrefix(poolId, keySuffix)|
  {
    SessionPrefix(poolId, keySuffix) + CredentialSuffix
  }

  function IdentityIdKey(poolId: string, keySuffix: string): (r: string)
    ensures RootPrefix(poolId, keySuffix) <= r && |r| > |RootPrefix(poolId, keySuffix)|
  {
    SessionPrefix(poolId, keySuffix) + IdentityIdSuffix
  }

  function LoginsProviderKey(poolId: string, keySuffix: string): (r: string)
    ensures RootPrefix(poolId, keySuffix) <= r && |r| > |RootPrefix(poolId, keySuffix)|
  {
    SessionPrefix(poolId, keySuffix) + LoginsProviderSuffix
  }

  /** Appending different texts to one prefix gives different strings. */
  lemma AppendDistinct(p: string, a: string, b: string)
    requires a != b
    ensures p + a != p + b
  {
    assert (p + a)[|p|..] == a;
    assert (p + b)[|p|..] == b;
  }

  /** The three keys are pairwise different. */
  lemma KeysDistinct(poolId: string, keySuffix: string)
    ensures CredentialKey(poolId, keySuffix) != IdentityIdKey(poolId, keySuffix)
    ensures CredentialKey(poolId, keySuffix) != LoginsProviderKey(poolId, keySuffix)
    ensures IdentityIdKey(poolId, keySuffix) != LoginsProviderKey(poolId, keySuffix)
  {
    var p := SessionPrefix(poolId, keySuffix);
    assert CredentialSuffix[1] != IdentityIdSuffix[1];
    AppendDistinct(p, CredentialSuffix, IdentityIdSuffix);
    AppendDistinct(p, CredentialSuffix, LoginsProviderSuffix);
    AppendDistinct(p, IdentityIdSuffix, LoginsProviderSuffix);
  }

  /** Two dot-free words each followed by a dot can only spell the same string if they are the same word. */
  lemma DotFreeSplit(a1: string, b1: string, a2: string, b2: string)
    requires '.' !in a1 && '.' !in a2
    requires |b1| > 0 && |b2| > 0 && b1[0] == '.' && b2[0] == '.'
    requires a1 + b1 == a2 + b2
    ensures a1 == a2
  {
    var t := a1 + b1;
    assert t[|a1|] == '.' && t[|a2|] == '.';
    assert forall i :: 0 <= i < |a1| ==> t[i] == a1[i];
    assert forall i :: 0 <= i < |a2| ==> t[i] == a2[i];
    assert |a1| == |a2|;
    assert a1 == t[..|a1|];
  }

  function Keys(poolId: string, keySuffix: string): set<string> {
    {CredentialKey(poolId, keySuffix), IdentityIdKey(poolId, keySuffix), LoginsProviderKey(poolId, keySuffix)}
  }

  /** A key built on the session prefix regroups as the pool's prefix, the suffix, and a dotted tail. */
  lemma SessionKeyRegroups(poolId: string, keySuffix: string, ending: string)
    ensures SessionPrefix(poolId, keySuffix) + ending == "amplify." + poolId + "." + (keySuffix + (".session" + ending))
  {
  }

  /** Each key is the pool's prefix, the suffix, and a tail that starts with a dot. */
  lemma KeyShape(poolId: string, keySuffix: string, k: string) returns (tail: string)
    requires k in Keys(poolId, keySuffix)
    ensures |tail| > 0 && tail[0] == '.' && k == "amplify." + poolId + "." + (keySuffix + tail)
  {
    var ending := if k == CredentialKey(poolId, keySuffix) then CredentialSuffix
                  else if k == IdentityIdKey(poolId, keySuffix) then IdentityIdSuffix
                  else LoginsProviderSuffix;
    assert k == SessionPrefix(poolId, keySuffix) + ending;
    SessionKeyRegroups(poolId, keySuffix, ending);
    tail := ".session" + ending;
  }

  /** Within one pool, different dot-free key suffixes never share a key. */
  lemma KeySetsDisjoint(poolId: string, suffix1: string, suffix2: string)
    requires suffix1 != suffix2 && '.' !in suffix1 && '.' !in suffix2
    ensures Keys(poolId, suffix1) !! Keys(poolId, suffix2)
  {
    var q := "amplify." + poolId + ".";
    forall k | k in Keys(poolId, suffix1) && k in Keys(poolId, suffix2) ensures false {
      var t1 := KeyShape(poolId, suffix1, k);
      var t2 := KeyShape(poolId, suffix2, k);
      assert k[|q|..] == suffix1 + t1;
      assert k[|q|..] == suffix2 + t2;
      DotFreeSplit(suffix1, t1, suffix2, t2);
    }
  }

  /** `JSONEncoder`/`JSONDecoder` for one type: encoding may fail, decoding may reject its input. */
  datatype Codec<!T> = Codec(encode: T -> Option<Bytes>, decode: Bytes -> Option<T>)

  /** A faithful coder: its output is UTF-8 text that decodes to the value encoded. */
  ghost predicate RoundTrips<T(!new)>(c: Codec<T>) {
    forall x :: c.encode(x).Some? ==> WellFormed(c.encode(x).value) && c.decode(c.encode(x).value) == Some(x)
  }

  const EncodingError: CredentialStoreError := CodingErrorWithDescription("Error occurred while encoding", Some(EncodingFailed))
  const DecodingError: CredentialStoreError := CodingErrorWithDescription("Error occurred while decoding", Some(DecodingFailed))

  /** `encode(object:)`: a coder failure is reported as a coding error. */
  function EncodeWith<T>(c: Codec<T>, x: T): (r: Result<Bytes, CredentialStoreError>)
    ensures r.Failure? <==> c.encode(x).None?
    ensures r.Failure? ==> r.error == EncodingError && Equal(r.error, CodingError)
  {
    match c.encode(x)
    case Some(b) => Success(b)
    case None => Failure(EncodingError)
  }

  /** `decode(data:)`. */
  function DecodeWith<T>(c: Codec<T>, b: Bytes): (r: Result<T, CredentialStoreError>)
    ensures r.Failure? <==> c.decode(b).None?
    ensures r.Failure? ==> r.error == DecodingError && Equal(r.error, CodingError)
  {
    match c.decode(b)
    case Some(x) => Success(x)
    case None => Failure(DecodingError)
  }

  /** What the store is set up with. */
  datatype StoreConfig = StoreConfig(poolId: string, keySuffix: string,
                                     credentialsCodec: Codec<AuthCredentials>,
                                     loginsCodec: Codec<seq<LoginProvider>>)

  /** The triple a retrieve returns. */
  datatype SavedDetails = SavedDetails(credentials: AuthCredentials, identityId: string, logins: seq<LoginProvider>)

  /** A write's new state and whether it threw. */
  datatype WriteReply = WriteReply(state: StoreState, outcome: Outcome<CredentialStoreError>)

  /**
   * `saveAWSCognitoIdentityPoolDetails`: the credentials, the identity id and the logins are written
   * one after the other, so a failure to encode the logins leaves the first two written.
   */
  function SaveOn(c: StoreConfig, s: StoreState, credentials: AuthCredentials, identityId: string,
                  logins: seq<LoginProvider>): WriteReply
  {
    var encodedCredentials := EncodeWith(c.credentialsCodec, credentials);
    if encodedCredentials.Failure? then WriteReply(s, Fail(encodedCredentials.error))
    else
      var s1 := PutDataOn(s, CredentialKey(c.poolId, c.keySuffix), encodedCredentials.value);
      var s2 := PutStringOn(s1, IdentityIdKey(c.poolId, c.keySuffix), identityId);
      var encodedLogins := EncodeWith(c.loginsCodec, logins);
      if encodedLogins.Failure? then WriteReply(s2, Fail(encodedLogins.error))
      else WriteReply(PutDataOn(s2, LoginsProviderKey(c.poolId, c.keySuffix), encodedLogins.value), Pass)
  }

  /** `retrieveAWSCognitoIdentityPoolDetails`: credential, then identity id, then logins; the first failure is thrown. */
  function RetrieveOn(c: StoreConfig, s: StoreState): Reply<SavedDetails> {
    var r1 := GetDataOn(s, CredentialKey(c.poolId, c.keySuffix));
    if r1.result.Failure? then Reply(r1.state, Failure(r1.result.error))
    else
      var credentials := DecodeWith(c.credentialsCodec, r1.result.value);
      if credentials.Failure? then Reply(r1.state, Failure(credentials.error))
      else
        var r2 := GetStringOn(r1.state, IdentityIdKey(c.poolId, c.keySuffix));
        if r2.result.Failure? then Reply(r2.state, Failure(r2.result.error))
        else
          var r3 := GetDataOn(r2.state, LoginsProviderKey(c.poolId, c.keySuffix));
          if r3.result.Failure? then Reply(r3.state, Failure(r3.result.error))
          else
            var logins := DecodeWith(c.loginsCodec, r3.result.value);
            if logins.Failure? then Reply(r3.state, Failure(logins.error))
            else Reply(r3.state, Success(SavedDetails(credentials.value, r2.result.value, logins.value)))
  }

  /** `deleteAWSCognitoIdentityPoolDetails` and `deleteAll`: the whole backing store is emptied. */
  function DeleteOn(s: StoreState): StoreState {
    RemoveAllOn(s)
  }

  /** `UserDefaults.standard`, reduced to the one flag the store reads and writes. */
  class UserDefaults {
    var isKeychainConfigured: bool

    constructor (isKeychainConfigured: bool)
      ensures this.isKeychainConfigured == isKeychainConfigured
    {
      this.isKeychainConfigured := isKeychainConfigured;
    }
  }

  class AWSCognitoIdentityPoolDetailsStore {
    const identityPoolConfiguration: PoolConfiguration
    const credentialStore: MockCredentialStore
    const keySuffix: string
    const credentialsCodec: Codec<AuthCredentials>
    const loginsCodec: Codec<seq<LoginProvider>>

    function Config(): StoreConfig {
      StoreConfig(identityPoolConfiguration.poolId, keySuffix, credentialsCodec, loginsCodec)
    }

    /**
     * On the first construction after an install the flag is unset: the keychain is purged (an
     * error there is ignored) and the flag is set.  Otherwise the store is left as it is.  The
     * access group is accepted and not used.
     */
    constructor (identityPoolConfiguration: PoolConfiguration, credentialStore: MockCredentialStore,
                 keySuffix: string, accessGroup: Option<string>, userDefaults: UserDefaults,
                 credentialsCodec: Codec<AuthCredentials>, loginsCodec: Codec<seq<LoginProvider>>)
      modifies credentialStore, userDefaults
      ensures this.identityPoolConfiguration == identityPoolConfiguration && this.keySuffix == keySuffix
      ensures this.credentialStore == credentialStore
      ensures this.credentialsCodec == credentialsCodec && this.loginsCodec == loginsCodec
      ensures userDefaults.isKeychainConfigured
      ensures credentialStore.State()
              == if old(userDefaults.isKeychainConfigured) then old(credentialStore.State())
                 else DeleteOn(old(credentialStore.State()))
    {
      this.identityPoolConfiguration := identityPoolConfiguration;
      this.credentialStore := credentialStore;
      this.keySuffix := keySuffix;
      this.credentialsCodec := credentialsCodec;
      this.loginsCodec := loginsCodec;
      new;
      if !userDefaults.isKeychainConfigured {
        DeleteAll();
        userDefaults.isKeychainConfigured := true;
      }
    }

    method Save(credential: AuthCredentials, identityId: string, loginsProvider: seq<LoginProvider>)
      returns (r: Outcome<CredentialStoreError>)
      modifies credentialStore
      ensures var w := SaveOn(Config(), old(credentialStore.State()), credential, identityId, loginsProvider);
              credentialStore.State() == w.state && r == w.outcome
    {
      var config := Config();
      var encodedCredentials := EncodeWith(credentialsCodec, credential);
      if encodedCredentials.Failure? {
        return Fail(encodedCredentials.error);
      }
      credentialStore.PutData(encodedCredentials.value, CredentialKey(config.poolId, keySuffix));
      credentialStore.PutString(identityId, IdentityIdKey(config.poolId, keySuffix));
      var encodedLogins := EncodeWith(loginsCodec, loginsProvider);
      if encodedLogins.Failure? {
        return Fail(encodedLogins.error);
      }
      credentialStore.PutData(encodedLogins.value, LoginsProviderKey(config.poolId, keySuffix));
      r := Pass;
    }

    method Retrieve() returns (r: Result<SavedDetails, CredentialStoreError>)
      modifies credentialStore
      ensures var reply := RetrieveOn(Config(), old(credentialStore.State()));
              credentialStore.State() == reply.state && r == reply.result
    {
      var config := Config();
      var authCredentialData := credentialStore.GetData(CredentialKey(config.poolId, keySuffix));
      if authCredentialData.Failure? {
        return Failure(authCredentialData.error);
      }
      var awsCredential := DecodeWith(credentialsCodec, authCredentialData.value);
      if awsCredential.Failure? {
        return Failure(awsCredential.error);
      }
      var identityId := credentialStore.GetString(IdentityIdKey(config.poolId, keySuffix));
      if identityId.Failure? {
        return Failure(identityId.error);
      }
      var loginsProviderData := credentialStore.GetData(LoginsProviderKey(config.poolId, keySuffix));
      if loginsProviderData.Failure? {
        return Failure(loginsProviderData.error);
      }
      var loginsProvider := DecodeWith(loginsCodec, loginsProviderData.value);
      if loginsProvider.Failure? {
        return Failure(loginsProvider.error);
      }
      r := Success(SavedDetails(awsCredential.value, identityId.value, loginsProvider.value));
    }

    method Delete()
      modifies credentialStore
      ensures credentialStore.State() == DeleteOn(old(credentialStore.State()))
    {
      credentialStore.RemoveAll();
    }

    method DeleteAll()
      modifies credentialStore
      ensures credentialStore.State() == DeleteOn(old(credentialStore.State()))
    {
      credentialStore.RemoveAll();
    }
  }

  /**
   * A save whose encodings succeed writes the three keys and nothing else: two data puts and one
   * string put, each key holding the text of what was written.
   */
  lemma SaveWritesThreeKeys(c: StoreConfig, s: StoreState, credentials: AuthCredentials, identityId: string,
                            logins: seq<LoginProvider>)
    requires c.credentialsCodec.encode(credentials).Some? && c.loginsCodec.encode(logins).Some?
    ensures var w := SaveOn(c, s, credentials, identityId, logins);
            && w.outcome == Pass
            && w.state.store == s.store[CredentialKey(c.poolId, c.keySuffix) := Decode(c.credentialsCodec.encode(credentials).value)]
                                       [IdentityIdKey(c.poolId, c.keySuffix) := identityId]
                                       [LoginsProviderKey(c.poolId, c.keySuffix) := Decode(c.loginsCodec.encode(logins).value)]
            && w.state.putDataCallCount == s.putDataCallCount + 2
            && w.state.putStringCallCount == s.putStringCallCount + 1
            && Counters(w.state)[..2] == Counters(s)[..2] && Counters(w.state)[4] == Counters(s)[4]
            && w.state.removeAllCalled == s.removeAllCalled
  {
  }

  /** When the credentials cannot be encoded nothing is written; when the logins cannot, the first two keys already are. */
  lemma SaveEncodingFailures(c: StoreConfig, s: StoreState, credentials: AuthCredentials, identityId: string,
                             logins: seq<LoginProvider>)
    ensures c.credentialsCodec.encode(credentials).None? ==>
              SaveOn(c, s, credentials, identityId, logins) == WriteReply(s, Fail(EncodingError))
    ensures c.credentialsCodec.encode(credentials).Some? && c.loginsCodec.encode(logins).None? ==>
              var w := SaveOn(c, s, credentials, identityId, logins);
              && w.outcome == Fail(EncodingError)
              && w.state.store == s.store[CredentialKey(c.poolId, c.keySuffix) := Decode(c.credentialsCodec.encode(credentials).value)]
                                         [IdentityIdKey(c.poolId, c.keySuffix) := identityId]
    ensures SaveOn(c, s, credentials, identityId, logins).outcome.Fail? ==>
              Equal(SaveOn(c, s, credentials, identityId, logins).outcome.error, CodingError)
  {
  }

  /** Retrieve succeeds exactly when the three keys are present and both payloads decode; it never returns part of the triple. */
  lemma RetrieveMeaning(c: StoreConfig, s: StoreState)
    ensures var ck, ik, lk := CredentialKey(c.poolId, c.keySuffix), IdentityIdKey(c.poolId, c.keySuffix),
                              LoginsProviderKey(c.poolId, c.keySuffix);
            var r := RetrieveOn(c, s).result;
            && (r.Success? <==> ck in s.store && ik in s.store && lk in s.store
                                && c.credentialsCodec.decode(Encode(s.store[ck])).Some?
                                && c.loginsCodec.decode(Encode(s.store[lk])).Some?)
            && (r.Success? ==> r.value == SavedDetails(c.credentialsCodec.decode(Encode(s.store[ck])).value,
                                                        s.store[ik],
                                                        c.loginsCodec.decode(Encode(s.store[lk])).value))
            && (r.Failure? ==> Equal(r.error, ItemNotFound) || r.error == DecodingError)
            && RetrieveOn(c, s).state.store == s.store
  {
  }

  /** What retrieve returns depends on the entries alone, not on the call counters. */
  lemma RetrieveReadsOnlyEntries(c: StoreConfig, s1: StoreState, s2: StoreState)
    requires s1.store == s2.store
    ensures RetrieveOn(c, s1).result == RetrieveOn(c, s2).result
    ensures RetrieveOn(c, s1).state.store == s1.store
  {
    RetrieveMeaning(c, s1);
    RetrieveMeaning(c, s2);
  }

  /** A missing credential is reported as `itemNotFound` after a single read. */
  lemma RetrieveMissingCredential(c: StoreConfig, s: StoreState)
    requires CredentialKey(c.poolId, c.keySuffix) !in s.store
    ensures var reply := RetrieveOn(c, s);
            && reply.result.Failure? && Equal(reply.result.error, ItemNotFound)
            && reply.state == s.(getDataCallCount := s.getDataCallCount + 1)
  {
  }

  /** A retrieve from a store whose three entries read back as a triple gives back the triple. */
  lemma RetrieveStoredEntries(c: StoreConfig, s: StoreState, credentials: AuthCredentials, identityId: string,
                              logins: seq<LoginProvider>)
    requires var ck, ik, lk := CredentialKey(c.poolId, c.keySuffix), IdentityIdKey(c.poolId, c.keySuffix),
                               LoginsProviderKey(c.poolId, c.keySuffix);
             ck in s.store && ik in s.store && lk in s.store
             && c.credentialsCodec.decode(Encode(s.store[ck])) == Some(credentials)
             && s.store[ik] == identityId
             && c.loginsCodec.decode(Encode(s.store[lk])) == Some(logins)
    ensures var reply := RetrieveOn(c, s);
            && reply.result == Success(SavedDetails(credentials, identityId, logins))
            && reply.state == s.(getDataCallCount := s.getDataCallCount + 2, getStringCallCount := s.getStringCallCount + 1)
  {
    var r1 := GetDataOn(s, CredentialKey(c.poolId, c.keySuffix));
    assert r1.state.store == s.store;
    var r2 := GetStringOn(r1.state, IdentityIdKey(c.poolId, c.keySuffix));
    assert r2.result == Success(identityId) && r2.state.store == s.store;
  }

  /** Three updates of a map at pairwise different keys can each be read back. */
  lemma ThreeUpdatesReadBack(m: map<string, string>, ck: string, ik: string, lk: string, cv: string, iv: string, lv: string)
    requires ck != ik && ck != lk && ik != lk
    ensures var m' := m[ck := cv][ik := iv][lk := lv];
            ck in m' && ik in m' && lk in m' && m'[ck] == cv && m'[ik] == iv && m'[lk] == lv
  {
  }

  /** Retrieve after a successful save returns what was saved, after two data reads and one string read. */
  lemma SaveThenRetrieve(c: StoreConfig, s: StoreState, credentials: AuthCredentials, identityId: string,
                         logins: seq<LoginProvider>)
    requires RoundTrips(c.credentialsCodec) && RoundTrips(c.loginsCodec)
    requires SaveOn(c, s, credentials, identityId, logins).outcome.Pass?
    ensures var s' := SaveOn(c, s, credentials, identityId, logins).state;
            var reply := RetrieveOn(c, s');
            && reply.result == Success(SavedDetails(credentials, identityId, logins))
            && reply.state == s'.(getDataCallCount := s'.getDataCallCount + 2, getStringCallCount := s'.getStringCallCount + 1)
  {
    var eb := c.credentialsCodec.encode(credentials).value;
    var lb := c.loginsCodec.encode(logins).value;
    var s' := SaveOn(c, s, credentials, identityId, logins).state;
    SaveWritesThreeKeys(c, s, credentials, identityId, logins);
    KeysDistinct(c.poolId, c.keySuffix);
    ThreeUpdatesReadBack(s.store, CredentialKey(c.poolId, c.keySuffix), IdentityIdKey(c.poolId, c.keySuffix),
                         LoginsProviderKey(c.poolId, c.keySuffix), Decode(eb), identityId, Decode(lb));
    EncodeDecode(eb);
    EncodeDecode(lb);
    RetrieveStoredEntries(c, s', credentials, identityId, logins);
  }

  /** After a delete every retrieve fails with `itemNotFound`. */
  lemma DeleteThenRetrieveFails(c: StoreConfig, s: StoreState)
    ensures DeleteOn(s).removeAllCalled
    ensures RetrieveOn(c, DeleteOn(s)).result.Failure? && Equal(RetrieveOn(c, DeleteOn(s)).result.error, ItemNotFound)
  {
  }

  /** The store's save-then-retrieve test: two data puts and one string put, then two data reads and one string read. */
  lemma SaveThenRetrieveCounts(c: StoreConfig, credentials: AuthCredentials)
    requires RoundTrips(c.credentialsCodec) && RoundTrips(c.loginsCodec)
    requires c.credentialsCodec.encode(credentials).Some? && c.loginsCodec.encode([]).Some?
    ensures var saved := SaveOn(c, Fresh, credentials, "identityId", []);
            var read := RetrieveOn(c, saved.state);
            && saved.state.putStringCallCount == 1 && saved.state.putDataCallCount == 2
            && read.state.getStringCallCount == 1 && read.state.getDataCallCount == 2
            && read.result == Success(SavedDetails(credentials, "identityId", []))
  {
    SaveWritesThreeKeys(c, Fresh, credentials, "identityId", []);
    SaveThenRetrieve(c, Fresh, credentials, "identityId", []);
  }
}
