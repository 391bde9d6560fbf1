/**
 * `AWSCognitoIdentityPoolOperations`: returns the saved credentials and identity id while they
 * are still good for the same logins, and otherwise asks Cognito for new ones and saves them.
 * Calls run one after another on one object; the current time is a parameter.
 */
module Operations {
  import opened Wrappers
  import opened AmplifyErrorMessages
  import opened CredentialStoreErrors
  import opened AuthErrors
  import opened Credentials
  import opened IdentityPoolTypes
  import opened MockStore
  import opened DetailsStore
  import opened IdentityClient
  import PluginValidation

  const IdentityIdNilMessage: string := "IdentityId was unexpectedly nil in GetId response"
  const CredentialsNilMessage: string := "Credentials was unexpectedly nil in GetCredentialsForIdentity response"

  /** What a fetch changes: the credential store behind the details store, and the client's request log. */
  datatype World = World(store: StoreState, client: ClientLog)

  /** What a fetch reads and does not change. */
  datatype Env = Env(poolId: string, storeConfig: StoreConfig, backend: Backend)

  /** A step's new world and its value or the error it throws. */
  datatype Step<T> = Step(world: World, result: Result<T, Cause>)

  /** A fetch's new world and the details it returns. */
  datatype Fetched = Fetched(world: World, details: PoolDetails)

  /** `areCredentialsExpired`: the expiration lies strictly before now. */
  predicate AreCredentialsExpired(credentials: AuthCredentials, now: int) {
    credentials.expiration < now
  }

  /** `fetchAWSIdentityId`: one `getId` for the pool with the logins map. */
  function FetchIdentityIdOn(env: Env, w: World, loginsMap: map<string, string>): Step<string> {
    var input := GetIdInput(env.poolId, loginsMap);
    var w' := w.(client := w.client.(getIdRequests := w.client.getIdRequests + [input]));
    var response := env.backend.getId(input);
    if response.Failure? then Step(w', Failure(ClientCause(response.error)))
    else if response.value.identityId.None? then
      Step(w', Failure(AuthCause(Service(IdentityIdNilMessage, ShouldNotHappenReportBugToAWS))))
    else Step(w', Success(response.value.identityId.value))
  }

  /** `fetchAWSCredentials`: one `getCredentialsForIdentity`; the response must hold credentials and an identity id. */
  function FetchCredentialsOn(env: Env, w: World, identityId: string, loginsMap: map<string, string>)
    : Step<(AuthCredentials, string)>
  {
    var input := GetCredentialsInput(None, identityId, loginsMap);
    var w' := w.(client := w.client.(getCredentialsRequests := w.client.getCredentialsRequests + [input]));
    var response := env.backend.getCredentialsForIdentity(input);
    if response.Failure? then Step(w', Failure(ClientCause(response.error)))
    else if response.value.credentials.None? || response.value.identityId.None? then
      Step(w', Failure(AuthCause(Service(CredentialsNilMessage, ShouldNotHappenReportBugToAWS))))
    else
      var credentials := FromCognitoCredentials(response.value.credentials.value);
      if credentials.Failure? then Step(w', Failure(AuthCause(credentials.error)))
      else Step(w', Success((credentials.value, response.value.identityId.value)))
  }

  /** `fetchAWSCredentialsAndUpdateSavedState`: fetch, then save the credentials with the identity id the service returned. */
  function RefreshOn(env: Env, w: World, identityId: string, loginsMap: map<string, string>,
                     logins: seq<LoginProvider>): Fetched
  {
    var fetched := FetchCredentialsOn(env, w, identityId, loginsMap);
    if fetched.result.Failure? then Fetched(fetched.world, Failed(FromError(fetched.result.error)))
    else
      var (credentials, newIdentityId) := fetched.result.value;
      var saved := SaveOn(env.storeConfig, fetched.world.store, credentials, newIdentityId, logins);
      var w' := fetched.world.(store := saved.state);
      if saved.outcome.Fail? then Fetched(w', Failed(FromError(StoreCause(saved.outcome.error))))
      else Fetched(w', Succeeded(credentials, newIdentityId))
  }

  /** The error returned when the saved details cannot be read for a reason other than their absence. */
  function StoreFailure(e: CredentialStoreError): AuthError {
    Wrapping(e.errorDescription, e.recoverySuggestion, StoreCause(e))
  }

  /**
   * Credentials are good up to and including their expiration instant and expired at every later
   * one: the test is strict, and once true it stays true as time goes on.
   */
  lemma ExpiryIsStrictAndMonotone(credentials: AuthCredentials, now: int, later: int)
    ensures !AreCredentialsExpired(credentials, credentials.expiration)
    ensures AreCredentialsExpired(credentials, credentials.expiration + 1)
    ensures AreCredentialsExpired(credentials, now) && now <= later ==> AreCredentialsExpired(credentials, later)
    ensures !AreCredentialsExpired(credentials, now) && later <= now ==> !AreCredentialsExpired(credentials, later)
  {
  }

  /**
   * The read-failure error shows the store error's own description and suggestion and wraps the
   * store error itself, so different store errors give different auth errors; it is never the
   * bare `AuthError(error:)` that a failed save produces.  "Different" here is Dafny's structural
   * `==` on all four fields, not the store error's own `==`, which compares codes only.
   */
  lemma StoreFailureKeepsError(e1: CredentialStoreError, e2: CredentialStoreError)
    ensures StoreFailure(e1).Wrapping? && StoreFailure(e1).underlying == StoreCause(e1)
    ensures StoreFailure(e1).description == e1.errorDescription
    ensures StoreFailure(e1).recoverySuggestion == e1.recoverySuggestion
    ensures StoreFailure(e1) == StoreFailure(e2) <==> e1 == e2
    ensures StoreFailure(e1) != FromError(StoreCause(e2))
  {
  }

  /** `fetchAWSCognitoIdentityPoolDetails(logins:forceRefresh:)`. */
  function FetchOn(env: Env, w: World, logins: seq<LoginProvider>, forceRefresh: bool, now: int): Fetched {
    var loginsMap := LoginsMapOf(logins);
    var retrieved := RetrieveOn(env.storeConfig, w.store);
    var w1 := w.(store := retrieved.state);
    if retrieved.result.Success? then
      var saved := retrieved.result.value;
      if saved.logins != logins || AreCredentialsExpired(saved.credentials, now) || forceRefresh then
        RefreshOn(env, w1, saved.identityId, loginsMap, logins)
      else Fetched(w1, Succeeded(saved.credentials, saved.identityId))
    else if !Equal(ItemNotFound, retrieved.result.error) then
      Fetched(w1, Failed(StoreFailure(retrieved.result.error)))
    else
      var identity := FetchIdentityIdOn(env, w1, loginsMap);
      if identity.result.Failure? then Fetched(identity.world, Failed(FromError(identity.result.error)))
      else RefreshOn(env, identity.world, identity.result.value, loginsMap, logins)
  }

  class AWSCognitoIdentityPoolOperations {
    const cognitoIdentityPoolConfiguration: PoolConfiguration
    const cognitoIdentityClient: CognitoIdentityClient
    const detailsStore: AWSCognitoIdentityPoolDetailsStore
    const pluginKey: string
    const pluginVersion: string

    function CurrentEnv(): Env
      reads cognitoIdentityClient
    {
      Env(cognitoIdentityPoolConfiguration.poolId, detailsStore.Config(), cognitoIdentityClient.backend)
    }

    function CurrentWorld(): World
      reads detailsStore.credentialStore, cognitoIdentityClient
    {
      World(detailsStore.credentialStore.State(), cognitoIdentityClient.Log())
    }

    /** Stores the parts; `Create` is the initializer that validates them first. */
    constructor (cognitoIdentityPoolConfiguration: PoolConfiguration, cognitoIdentityClient: CognitoIdentityClient,
                 detailsStore: AWSCognitoIdentityPoolDetailsStore, pluginKey: string, pluginVersion: string)
      ensures this.cognitoIdentityPoolConfiguration == cognitoIdentityPoolConfiguration
      ensures this.cognitoIdentityClient == cognitoIdentityClient && this.detailsStore == detailsStore
      ensures this.pluginKey == pluginKey && this.pluginVersion == pluginVersion
    {
      this.cognitoIdentityPoolConfiguration := cognitoIdentityPoolConfiguration;
      this.cognitoIdentityClient := cognitoIdentityClient;
      this.detailsStore := detailsStore;
      this.pluginKey := pluginKey;
      this.pluginVersion := pluginVersion;
    }

    /** `init(...) throws`: refuses an invalid plugin key or version with the validator's error. */
    static method Create(cognitoIdentityPoolConfiguration: PoolConfiguration, cognitoIdentityClient: CognitoIdentityClient,
                         detailsStore: AWSCognitoIdentityPoolDetailsStore, pluginKey: string, pluginVersion: string)
      returns (r: Result<AWSCognitoIdentityPoolOperations, AuthError>)
      ensures var check := PluginValidation.CheckPluginKeyAndVersionAreValid(pluginKey, pluginVersion);
              && (r.Success? <==> check.Pass?)
              && (r.Failure? ==> r.error == check.error)
      ensures r.Success? ==> && fresh(r.value)
                             && r.value.cognitoIdentityPoolConfiguration == cognitoIdentityPoolConfiguration
                             && r.value.cognitoIdentityClient == cognitoIdentityClient
                             && r.value.detailsStore == detailsStore
                             && r.value.pluginKey == pluginKey && r.value.pluginVersion == pluginVersion
    {
      var check := PluginValidation.CheckPluginKeyAndVersionAreValid(pluginKey, pluginVersion);
      if check.Fail? {
        return Failure(check.error);
      }
      var operations := new AWSCognitoIdentityPoolOperations(cognitoIdentityPoolConfiguration, cognitoIdentityClient,
                                                              detailsStore, pluginKey, pluginVersion);
      r := Success(operations);
    }

    method FetchAWSCognitoIdentityPoolDetails(logins: seq<LoginProvider>, forceRefresh: bool, now: int)
      returns (details: PoolDetails)
      modifies detailsStore.credentialStore, cognitoIdentityClient
      ensures cognitoIdentityClient.backend == old(cognitoIdentityClient.backend)
      ensures Fetched(CurrentWorld(), details) == FetchOn(old(CurrentEnv()), old(CurrentWorld()), logins, forceRefresh, now)
    {
      var loginsMap: map<string, string> := map[];
      for i := 0 to |logins|
        invariant loginsMap == LoginsMapOf(logins[..i])
      {
        assert logins[..i + 1][..i] == logins[..i];
        loginsMap := loginsMap[logins[i].name := logins[i].userIdentifier];
      }
      assert logins[..|logins|] == logins;
      var saved := detailsStore.Retrieve();
      if saved.Success? {
        var isNewLogin := saved.value.logins != logins;
        var expired := AreCredentialsExpired(saved.value.credentials, now);
        if isNewLogin || expired || forceRefresh {
          details := FetchAWSCredentialsAndUpdateSavedState(saved.value.identityId, loginsMap, logins);
        } else {
          details := Succeeded(saved.value.credentials, saved.value.identityId);
        }
      } else if !Equal(ItemNotFound, saved.error) {
        details := Failed(StoreFailure(saved.error));
      } else {
        var identityId := FetchAWSIdentityId(loginsMap);
        if identityId.Failure? {
          details := Failed(FromError(identityId.error));
        } else {
          details := FetchAWSCredentialsAndUpdateSavedState(identityId.value, loginsMap, logins);
        }
      }
    }

    method ClearCredentials()
      modifies detailsStore.credentialStore
      ensures detailsStore.credentialStore.State() == DeleteOn(old(detailsStore.credentialStore.State()))
    {
      detailsStore.Delete();
    }

    method FetchAWSCredentialsAndUpdateSavedState(identityId: string, loginsMap: map<string, string>,
                                                  logins: seq<LoginProvider>) returns (details: PoolDetails)
      modifies detailsStore.credentialStore, cognitoIdentityClient
      ensures cognitoIdentityClient.backend == old(cognitoIdentityClient.backend)
      ensures Fetched(CurrentWorld(), details) == RefreshOn(old(CurrentEnv()), old(CurrentWorld()), identityId, loginsMap, logins)
    {
      var fetched := FetchAWSCredentials(identityId, loginsMap);
      if fetched.Failure? {
        return Failed(FromError(fetched.error));
      }
      var (credentials, newIdentityId) := fetched.value;
      var saved := detailsStore.Save(credentials, newIdentityId, logins);
      if saved.Fail? {
        return Failed(FromError(StoreCause(saved.error)));
      }
      details := Succeeded(credentials, newIdentityId);
    }

    method FetchAWSCredentials(identityId: string, loginsMap: map<string, string>)
      returns (r: Result<(AuthCredentials, string), Cause>)
      modifies cognitoIdentityClient
      ensures cognitoIdentityClient.backend == old(cognitoIdentityClient.backend)
      ensures Step(CurrentWorld(), r) == FetchCredentialsOn(old(CurrentEnv()), old(CurrentWorld()), identityId, loginsMap)
    {
      var input := GetCredentialsInput(None, identityId, loginsMap);
      var response := cognitoIdentityClient.GetCredentialsForIdentity(input);
      if response.Failure? {
        return Failure(ClientCause(response.error));
      }
      if response.value.credentials.None? || response.value.identityId.None? {
        return Failure(AuthCause(Service(CredentialsNilMessage, ShouldNotHappenReportBugToAWS)));
      }
      var credentials := FromCognitoCredentials(response.value.credentials.value);
      if credentials.Failure? {
        return Failure(AuthCause(credentials.error));
      }
      r := Success((credentials.value, response.value.identityId.value));
    }

    method FetchAWSIdentityId(logins: map<string, string>) returns (r: Result<string, Cause>)
      modifies cognitoIdentityClient
      ensures cognitoIdentityClient.backend == old(cognitoIdentityClient.backend)
      ensures Step(CurrentWorld(), r) == FetchIdentityIdOn(old(CurrentEnv()), old(CurrentWorld()), logins)
    {
      var input := GetIdInput(cognitoIdentityPoolConfiguration.poolId, logins);
      var response := cognitoIdentityClient.GetId(input);
      if response.Failure? {
        return Failure(ClientCause(response.error));
      }
      if response.value.identityId.None? {
        return Failure(AuthCause(Service(IdentityIdNilMessage, ShouldNotHappenReportBugToAWS)));
      }
      r := Success(response.value.identityId.value);
    }
  }
}
