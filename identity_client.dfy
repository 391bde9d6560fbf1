/**
 * The two calls of the Cognito identity client that the operations make.  The service behind
 * them is a parameter (`Backend`); the client records every request it sends, so the number of
 * calls is the length of a log.
 */
module IdentityClient {
  import opened Wrappers
  import opened AuthErrors
  import opened Credentials

  datatype GetIdInput = GetIdInput(identityPoolId: string, logins: map<string, string>)

  datatype GetIdResponse = GetIdResponse(identityId: Option<string>)

  datatype GetCredentialsInput = GetCredentialsInput(customRoleArn: Option<string>, identityId: string,
                                                     logins: map<string, string>)

  datatype GetCredentialsResponse = GetCredentialsResponse(credentials: Option<SdkCredentials>, identityId: Option<string>)

  /** What the service answers to each request, or the error the call throws. */
  datatype Backend = Backend(
    getId: GetIdInput -> Result<GetIdResponse, ClientError>,
    getCredentialsForIdentity: GetCredentialsInput -> Result<GetCredentialsResponse, ClientError>)

  /** The requests sent so far, oldest first. */
  datatype ClientLog = ClientLog(getIdRequests: seq<GetIdInput>, getCredentialsRequests: seq<GetCredentialsInput>)

  /**
   * `MockCognitoIdentityClient`: every `getId` answers with the mock identity id, every
   * `getCredentialsForIdentity` with the four mock credential fields and the mock identity id.
   */
  function MockBackend(identityId: string, accessKeyId: string, expiration: int, secretKey: string,
                       sessionToken: string): (b: Backend)
    ensures forall input :: b.getId(input) == Success(GetIdResponse(Some(identityId)))
    ensures forall input :: b.getCredentialsForIdentity(input)
              == Success(GetCredentialsResponse(
                   Some(SdkCredentials(Some(accessKeyId), Some(secretKey), Some(sessionToken), Some(expiration))),
                   Some(identityId)))
  {
    Backend(
      (input: GetIdInput) => Success(GetIdResponse(Some(identityId))),
      (input: GetCredentialsInput) => Success(GetCredentialsResponse(
        Some(SdkCredentials(Some(accessKeyId), Some(secretKey), Some(sessionToken), Some(expiration))),
        Some(identityId))))
  }

  /** The mock's default values: "mockIdentityId" everywhere. */
  function DefaultMockBackend(expiration: int): Backend {
    MockBackend("mockIdentityId", "mockIdentityId", expiration, "mockIdentityId", "mockIdentityId")
  }

  class CognitoIdentityClient {
    /** The service; a test may replace it between calls, as the mock's fields are reassigned. */
    var backend: Backend
    var getIdRequests: seq<GetIdInput>
    var getCredentialsRequests: seq<GetCredentialsInput>

    function Log(): ClientLog
      reads this
    {
      ClientLog(getIdRequests, getCredentialsRequests)
    }

    constructor (backend: Backend)
      ensures this.backend == backend && Log() == ClientLog([], [])
    {
      this.backend := backend;
      getIdRequests, getCredentialsRequests := [], [];
    }

    method GetId(input: GetIdInput) returns (r: Result<GetIdResponse, ClientError>)
      modifies this
      ensures backend == old(backend) && r == backend.getId(input)
      ensures Log() == old(Log()).(getIdRequests := old(getIdRequests) + [input])
    {
      getIdRequests := getIdRequests + [input];
      r := backend.getId(input);
    }

    method GetCredentialsForIdentity(input: GetCredentialsInput) returns (r: Result<GetCredentialsResponse, ClientError>)
      modifies this
      ensures backend == old(backend) && r == backend.getCredentialsForIdentity(input)
      ensures Log() == old(Log()).(getCredentialsRequests := old(getCredentialsRequests) + [input])
    {
      getCredentialsRequests := getCredentialsRequests + [input];
      r := backend.getCredentialsForIdentity(input);
    }
  }
}
