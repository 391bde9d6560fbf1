/** The public value types of the identity-pool operations. */
module IdentityPoolTypes {
  import opened Wrappers
  import opened AuthErrors
  import opened Credentials

  /** `LoginProvider`: a provider name and the token that identifies the user with it. */
  datatype LoginProvider = LoginProvider(name: string, userIdentifier: string)

  /** `AWSCognitoIdentityPoolConfiguration`. */
  datatype PoolConfiguration = PoolConfiguration(region: string, poolId: string)

  /** `AWSCognitoIdentityPoolDetails`: the outcome of one fetch, for the credentials and for the identity id. */
  datatype PoolDetails = PoolDetails(credentialsResult: Result<AuthCredentials, AuthError>,
                                     identityIdResult: Result<string, AuthError>)

  /** Both results succeed, or both fail with the same error. */
  predicate Consistent(d: PoolDetails) {
    || (d.credentialsResult.Success? && d.identityIdResult.Success?)
    || (d.credentialsResult.Failure? && d.identityIdResult.Failure?
        && d.credentialsResult.error == d.identityIdResult.error)
  }

  function Succeeded(credentials: AuthCredentials, identityId: string): (d: PoolDetails)
    ensures Consistent(d) && d.credentialsResult == Success(credentials) && d.identityIdResult == Success(identityId)
  {
    PoolDetails(Success(credentials), Success(identityId))
  }

  function Failed(error: AuthError): (d: PoolDetails)
    ensures Consistent(d) && d.credentialsResult == Failure(error) && d.identityIdResult == Failure(error)
  {
    PoolDetails(Failure(error), Failure(error))
  }

  /**
   * The logins map the fetch builds: provider name to user identifier, filled in list order, so a
   * later entry for a name overwrites an earlier one.
   */
  function LoginsMapOf(logins: seq<LoginProvider>): map<string, string> {
    if logins == [] then map[]
    else
      var last := logins[|logins| - 1];
      LoginsMapOf(logins[..|logins| - 1])[last.name := last.userIdentifier]
  }

  /** Whether no provider after position `i` has the name `logins[i].name`. */
  predicate IsLastWithName(logins: seq<LoginProvider>, i: nat)
    requires i < |logins|
  {
    forall j :: i < j < |logins| ==> logins[j].name != logins[i].name
  }

  /**
   * The map has a key for each provider name in the list and no other, and each name maps to the
   * identifier of the last provider with that name.
   */
  lemma {:induction false} LoginsMapLastWins(logins: seq<LoginProvider>, name: string)
    ensures name in LoginsMapOf(logins) <==> exists i :: 0 <= i < |logins| && logins[i].name == name
    ensures forall i :: 0 <= i < |logins| && logins[i].name == name && IsLastWithName(logins, i) ==>
              LoginsMapOf(logins)[name] == logins[i].userIdentifier
  {
    if logins != [] {
      var n := |logins| - 1;
      var init := logins[..n];
      LoginsMapLastWins(init, name);
      if logins[n].name != name {
        forall i | 0 <= i < n && init[i].name == name ensures logins[i].name == name {
        }
        forall i | 0 <= i < |logins| && logins[i].name == name && IsLastWithName(logins, i)
          ensures LoginsMapOf(logins)[name] == logins[i].userIdentifier
        {
          assert i < n;
          assert init[i] == logins[i];
          assert IsLastWithName(init, i);
        }
      }
    }
  }

  /** A repeated name keeps the identifier given last. */
  lemma LoginsMapExample()
    ensures LoginsMapOf([LoginProvider("p", "first"), LoginProvider("q", "other"), LoginProvider("p", "second")])
            == map["p" := "second", "q" := "other"]
  {
    var ls := [LoginProvider("p", "first"), LoginProvider("q", "other"), LoginProvider("p", "second")];
    assert ls[..2][..1] == [LoginProvider("p", "first")];
    assert ls[..2] == [LoginProvider("p", "first"), LoginProvider("q", "other")];
    assert LoginsMapOf(ls[..2][..1]) == map["p" := "first"] by {
      assert ls[..2][..1][..0] == [];
    }
    assert LoginsMapOf(ls[..2]) == map["p" := "first", "q" := "other"];
    assert LoginsMapOf(ls) == map["p" := "first", "q" := "other"]["p" := "second"];
  }
}
