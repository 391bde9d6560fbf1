/** What a fetch of `AWSCognitoIdentityPoolOperations` does, stated over the model `FetchOn`. */
module FetchProperties {
  import opened Wrappers
  import opened AmplifyErrorMessages
  import opened CredentialStoreErrors
  import opened AuthErrors
  import opened Credentials
  import opened IdentityPoolTypes
  import opened MockStore
  import opened DetailsStore
  import opened IdentityClient
  import opened Operations

  /** Saved details for the same logins that have not expired are returned as they are, with no call to the service and no write. */
  lemma FetchReusesSavedDetails(env: Env, w: World, logins: seq<LoginProvider>, forceRefresh: bool, now: int)
    requires RetrieveOn(env.storeConfig, w.store).result.Success?
    requires var saved := RetrieveOn(env.storeConfig, w.store).result.value;
             saved.logins == logins && !AreCredentialsExpired(saved.credentials, now) && !forceRefresh
    ensures var saved := RetrieveOn(env.storeConfig, w.store).result.value;
            var f := FetchOn(env, w, logins, forceRefresh, now);
            && f.details == Succeeded(saved.credentials, saved.identityId)
            && f.world.client == w.client
            && f.world.store == RetrieveOn(env.storeConfig, w.store).state
            && f.world.store.store == w.store.store
            && f.world.store.putDataCallCount == w.store.putDataCallCount
            && f.world.store.putStringCallCount == w.store.putStringCallCount
  {
    RetrieveMeaning(env.storeConfig, w.store);
  }

  /** New logins, expired credentials or a forced refresh skip `getId` and ask for credentials once, for the saved identity id. */
  lemma FetchRefreshesSavedIdentity(env: Env, w: World, logins: seq<LoginProvider>, forceRefresh: bool, now: int)
    requires RetrieveOn(env.storeConfig, w.store).result.Success?
    requires var saved := RetrieveOn(env.storeConfig, w.store).result.value;
             saved.logins != logins || AreCredentialsExpired(saved.credentials, now) || forceRefresh
    ensures var saved := RetrieveOn(env.storeConfig, w.store).result.value;
            var f := FetchOn(env, w, logins, forceRefresh, now);
            && f.world.client.getIdRequests == w.client.getIdRequests
            && f.world.client.getCredentialsRequests
               == w.client.getCredentialsRequests + [GetCredentialsInput(None, saved.identityId, LoginsMapOf(logins))]
  {
  }

  /**
   * With nothing saved, `getId` is called once with the pool and the logins map, then, if it
   * returned an identity id, `getCredentialsForIdentity` once with that id; `forceRefresh` plays no part.
   */
  lemma FetchColdStart(env: Env, w: World, logins: seq<LoginProvider>, forceRefresh: bool, now: int)
    requires RetrieveOn(env.storeConfig, w.store).result.Failure?
    requires Equal(RetrieveOn(env.storeConfig, w.store).result.error, ItemNotFound)
    ensures var f := FetchOn(env, w, logins, forceRefresh, now);
            var idInput := GetIdInput(env.poolId, LoginsMapOf(logins));
            var id := env.backend.getId(idInput);
            && f.world.client.getIdRequests == w.client.getIdRequests + [idInput]
            && (id.Success? && id.value.identityId.Some? ==>
                  f.world.client.getCredentialsRequests
                  == w.client.getCredentialsRequests + [GetCredentialsInput(None, id.value.identityId.value, LoginsMapOf(logins))])
            && (id.Failure? ==> f.details == Failed(FromError(ClientCause(id.error))))
            && (id.Success? && id.value.identityId.None? ==>
                  f.details == Failed(FromError(AuthCause(Service(IdentityIdNilMessage, ShouldNotHappenReportBugToAWS)))))
            && (!(id.Success? && id.value.identityId.Some?) ==>
                  f.world.client.getCredentialsRequests == w.client.getCredentialsRequests
                  && f.world.store == RetrieveOn(env.storeConfig, w.store).state)
            && f == FetchOn(env, w, logins, !forceRefresh, now)
  {
  }

  /** Any other store error fails both results with that error, without calling the service or writing. */
  lemma FetchOtherStoreError(env: Env, w: World, logins: seq<LoginProvider>, forceRefresh: bool, now: int)
    requires RetrieveOn(env.storeConfig, w.store).result.Failure?
    requires !Equal(RetrieveOn(env.storeConfig, w.store).result.error, ItemNotFound)
    ensures var retrieved := RetrieveOn(env.storeConfig, w.store);
            var f := FetchOn(env, w, logins, forceRefresh, now);
            && f.details == Failed(StoreFailure(retrieved.result.error))
            && f.world.client == w.client
            && f.world.store == retrieved.state
            && f.world.store.store == w.store.store
  {
    RetrieveMeaning(env.storeConfig, w.store);
  }

  /**
   * A refresh sends one credentials request.  A complete answer is saved with the identity id
   * the service returned (not the one sent) and is what the fetch returns; an answer without
   * credentials or identity id, or a failed call, fails both results and writes nothing.
   */
  lemma RefreshOutcome(env: Env, w: World, identityId: string, loginsMap: map<string, string>,
                       logins: seq<LoginProvider>)
    ensures var input := GetCredentialsInput(None, identityId, loginsMap);
            var response := env.backend.getCredentialsForIdentity(input);
            var f := RefreshOn(env, w, identityId, loginsMap, logins);
            && f.world.client == w.client.(getCredentialsRequests := w.client.getCredentialsRequests + [input])
            && (response.Failure? ==>
                  f.details == Failed(FromError(ClientCause(response.error))) && f.world.store == w.store)
            && (response.Success? && (response.value.credentials.None? || response.value.identityId.None?) ==>
                  f.details == Failed(FromError(AuthCause(Service(CredentialsNilMessage, ShouldNotHappenReportBugToAWS))))
                  && f.world.store == w.store)
            && (response.Success? && response.value.credentials.Some? && response.value.identityId.Some?
                && FromCognitoCredentials(response.value.credentials.value).Failure? ==>
                  f.details == Failed(FromError(AuthCause(EmptyElementsError))) && f.world.store == w.store)
            && (response.Success? && response.value.credentials.Some? && response.value.identityId.Some?
                && FromCognitoCredentials(response.value.credentials.value).Success? ==>
                  var credentials := FromCognitoCredentials(response.value.credentials.value).value;
                  var saved := SaveOn(env.storeConfig, w.store, credentials, response.value.identityId.value, logins);
                  && f.world.store == saved.state
                  && (saved.outcome.Pass? ==> f.details == Succeeded(credentials, response.value.identityId.value))
                  && (saved.outcome.Fail? ==> f.details == Failed(FromError(StoreCause(saved.outcome.error)))))
  {
  }

  /** Every fetch returns both results succeeding, or both failing with one error. */
  lemma FetchConsistent(env: Env, w: World, logins: seq<LoginProvider>, forceRefresh: bool, now: int)
    ensures Consistent(FetchOn(env, w, logins, forceRefresh, now).details)
  {
  }

  /** After the store is cleared, the next fetch starts cold: it calls `getId`. */
  lemma ClearThenFetchStartsCold(env: Env, s: StoreState, log: ClientLog, logins: seq<LoginProvider>,
                                 forceRefresh: bool, now: int)
    ensures FetchOn(env, World(DeleteOn(s), log), logins, forceRefresh, now).world.client.getIdRequests
            == log.getIdRequests + [GetIdInput(env.poolId, LoginsMapOf(logins))]
  {
    DeleteThenRetrieveFails(env.storeConfig, s);
  }

  /** What a fetch returns successfully is what the store then holds for those logins. */
  lemma FetchSuccessIsSaved(env: Env, w: World, logins: seq<LoginProvider>, forceRefresh: bool, now: int)
    requires RoundTrips(env.storeConfig.credentialsCodec) && RoundTrips(env.storeConfig.loginsCodec)
    requires FetchOn(env, w, logins, forceRefresh, now).details.credentialsResult.Success?
    ensures var f := FetchOn(env, w, logins, forceRefresh, now);
            f.details.identityIdResult.Success?
            && RetrieveOn(env.storeConfig, f.world.store).result
               == Success(SavedDetails(f.details.credentialsResult.value, f.details.identityIdResult.value, logins))
  {
    var c := env.storeConfig;
    var f := FetchOn(env, w, logins, forceRefresh, now);
    var retrieved := RetrieveOn(c, w.store);
    RetrieveMeaning(c, w.store);
    var w1 := w.(store := retrieved.state);
    if retrieved.result.Success? && !(retrieved.result.value.logins != logins
         || AreCredentialsExpired(retrieved.result.value.credentials, now) || forceRefresh) {
      RetrieveReadsOnlyEntries(c, w.store, retrieved.state);
    } else {
      // the result came from a refresh whose save passed
      var w2, id := if retrieved.result.Success? then w1 else FetchIdentityIdOn(env, w1, LoginsMapOf(logins)).world,
                    if retrieved.result.Success? then retrieved.result.value.identityId
                    else FetchIdentityIdOn(env, w1, LoginsMapOf(logins)).result.value;
      assert f == RefreshOn(env, w2, id, LoginsMapOf(logins), logins);
      var fetched := FetchCredentialsOn(env, w2, id, LoginsMapOf(logins));
      var (credentials, newId) := fetched.result.value;
      SaveThenRetrieve(c, fetched.world.store, credentials, newId, logins);
    }
  }

  /** A second fetch with the same logins before the credentials expire returns the same details and calls nothing. */
  lemma SecondFetchReuses(env: Env, w: World, logins: seq<LoginProvider>, forceRefresh: bool, now: int, later: int)
    requires RoundTrips(env.storeConfig.credentialsCodec) && RoundTrips(env.storeConfig.loginsCodec)
    requires FetchOn(env, w, logins, forceRefresh, now).details.credentialsResult.Success?
    requires !AreCredentialsExpired(FetchOn(env, w, logins, forceRefresh, now).details.credentialsResult.value, later)
    ensures var f1 := FetchOn(env, w, logins, forceRefresh, now);
            var f2 := FetchOn(env, f1.world, logins, false, later);
            f2.details == f1.details && f2.world.client == f1.world.client
  {
    var f1 := FetchOn(env, w, logins, forceRefresh, now);
    FetchSuccessIsSaved(env, w, logins, forceRefresh, now);
    FetchReusesSavedDetails(env, f1.world, logins, false, later);
  }

  /** The credentials the mock client hands out. */
  function MockCredentials(expiration: int): AuthCredentials {
    AuthCredentials("mockIdentityId", "mockIdentityId", "mockIdentityId", expiration)
  }

  /**
   * The operations tests: against the mock client and an empty store, the first fetch calls
   * `getId` and `getCredentialsForIdentity` once each and returns the mock's values; a second
   * fetch calls `getCredentialsForIdentity` again exactly when its logins differ, it forces a
   * refresh, or the first credentials have expired, and never calls `getId` again.
   */
  lemma MockClientTwoFetches(env: Env, expiration: int, logins: seq<LoginProvider>, second: seq<LoginProvider>,
                             forceRefresh: bool, now: int, later: int)
    requires env.backend == DefaultMockBackend(expiration)
    requires RoundTrips(env.storeConfig.credentialsCodec) && RoundTrips(env.storeConfig.loginsCodec)
    requires env.storeConfig.credentialsCodec.encode(MockCredentials(expiration)).Some?
    requires env.storeConfig.loginsCodec.encode(logins).Some? && env.storeConfig.loginsCodec.encode(second).Some?
    ensures var f1 := FetchOn(env, World(Fresh, ClientLog([], [])), logins, false, now);
            var f2 := FetchOn(env, f1.world, second, forceRefresh, later);
            && |f1.world.client.getIdRequests| == 1 && |f1.world.client.getCredentialsRequests| == 1
            && f1.details == Succeeded(MockCredentials(expiration), "mockIdentityId")
            && |f2.world.client.getIdRequests| == 1
            && |f2.world.client.getCredentialsRequests|
               == (if second != logins || expiration < later || forceRefresh then 2 else 1)
            && f2.details == f1.details
  {
    var c := env.storeConfig;
    var w0 := World(Fresh, ClientLog([], []));
    var creds := MockCredentials(expiration);
    var f1 := FetchOn(env, w0, logins, false, now);
    RetrieveMissingCredential(c, Fresh);
    FetchColdStart(env, w0, logins, false, now);
    var w1 := w0.(store := RetrieveOn(c, Fresh).state);
    var id := FetchIdentityIdOn(env, w1, LoginsMapOf(logins));
    assert id.result == Success("mockIdentityId");
    RefreshOutcome(env, id.world, "mockIdentityId", LoginsMapOf(logins), logins);
    assert FromCognitoCredentials(ToCognitoCredentials(creds)) == Success(creds);
    var fetched := FetchCredentialsOn(env, id.world, "mockIdentityId", LoginsMapOf(logins));
    SaveWritesThreeKeys(c, fetched.world.store, creds, "mockIdentityId", logins);
    assert f1.details == Succeeded(creds, "mockIdentityId");
    FetchSuccessIsSaved(env, w0, logins, false, now);
    var f2 := FetchOn(env, f1.world, second, forceRefresh, later);
    if second != logins || expiration < later || forceRefresh {
      FetchRefreshesSavedIdentity(env, f1.world, second, forceRefresh, later);
      var w2 := f1.world.(store := RetrieveOn(c, f1.world.store).state);
      RefreshOutcome(env, w2, "mockIdentityId", LoginsMapOf(second), second);
      var fetched2 := FetchCredentialsOn(env, w2, "mockIdentityId", LoginsMapOf(second));
      SaveWritesThreeKeys(c, fetched2.world.store, creds, "mockIdentityId", second);
    } else {
      FetchReusesSavedDetails(env, f1.world, second, forceRefresh, later);
    }
  }
}
