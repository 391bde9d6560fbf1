/** `AWSAuthCredentials`: the temporary AWS credentials the identity pool hands out. */
module Credentials {
  import opened Wrappers
  import opened AmplifyErrorMessages
  import opened AuthErrors
  import opened StringUtils
  import Interpolation

  /** The four fields; `expiration` is a point in time counted in seconds. */
  datatype AuthCredentials = AuthCredentials(accessKeyId: string, secretAccessKey: string,
                                             sessionToken: string, expiration: int)

  /** `CognitoIdentityClientTypes.Credentials` as the service returns it: every field may be missing. */
  datatype SdkCredentials = SdkCredentials(accessKeyId: Option<string>, secretKey: Option<string>,
                                           sessionToken: Option<string>, expiration: Option<int>)

  const EmptyElementsError: AuthError :=
    Service("Empty elements in Cognito Identity credentials", ShouldNotHappenReportBugToAWS)

  /** `init(cognitoIdentityCredentials:)`: copies the four fields, or fails when one of them is missing. */
  function FromCognitoCredentials(c: SdkCredentials): (r: Result<AuthCredentials, AuthError>)
    ensures r.Success? <==> c.accessKeyId.Some? && c.secretKey.Some? && c.sessionToken.Some? && c.expiration.Some?
    ensures r.Success? ==> && r.value.accessKeyId == c.accessKeyId.value
                           && r.value.secretAccessKey == c.secretKey.value
                           && r.value.sessionToken == c.sessionToken.value
                           && r.value.expiration == c.expiration.value
    ensures r.Failure? ==> r.error == EmptyElementsError
  {
    if c.accessKeyId.None? || c.secretKey.None? || c.sessionToken.None? || c.expiration.None? then
      Failure(EmptyElementsError)
    else
      Success(AuthCredentials(c.accessKeyId.value, c.secretKey.value, c.sessionToken.value, c.expiration.value))
  }

  /** The service's form of a complete set of credentials. */
  function ToCognitoCredentials(a: AuthCredentials): SdkCredentials {
    SdkCredentials(Some(a.accessKeyId), Some(a.secretAccessKey), Some(a.sessionToken), Some(a.expiration))
  }

  /** Converting a complete set of credentials back gives the credentials it came from. */
  lemma FromCognitoCredentialsInverts(a: AuthCredentials)
    ensures FromCognitoCredentials(ToCognitoCredentials(a)) == Success(a)
  {
  }

  /** A successful conversion loses nothing: the service's form is recovered from the result. */
  lemma FromCognitoCredentialsLossless(c: SdkCredentials)
    requires FromCognitoCredentials(c).Success?
    ensures ToCognitoCredentials(FromCognitoCredentials(c).value) == c
  {
  }

  /** Equality is field by field, over all four fields. */
  lemma EqualityIsStructural(a: AuthCredentials, b: AuthCredentials)
    ensures a == b <==> (a.accessKeyId == b.accessKeyId && a.secretAccessKey == b.secretAccessKey
                         && a.sessionToken == b.sessionToken && a.expiration == b.expiration)
  {
  }

  /** The values of `debugDictionary`: masked text, or the expiration date itself. */
  datatype DebugValue = Masked(text: string) | Date(seconds: int)

  const DebugKeys: seq<string> := ["accessKey", "secretAccessKey", "sessionToken", "expiration"]

  /** `debugDictionary`: each secret masked with an interior of at most five characters, and the expiration as it is. */
  function DebugDictionary(a: AuthCredentials): (d: map<string, DebugValue>)
    ensures d.Keys == {"accessKey", "secretAccessKey", "sessionToken", "expiration"}
    ensures d["expiration"] == Date(a.expiration)
  {
    map["accessKey" := Masked(StringUtils.Masked(a.accessKeyId, MaskCharacter, 5)),
        "secretAccessKey" := Masked(StringUtils.Masked(a.secretAccessKey, MaskCharacter, 5)),
        "sessionToken" := Masked(StringUtils.Masked(a.sessionToken, MaskCharacter, 5)),
        "expiration" := Date(a.expiration)]
  }

  /** The dictionary shows every secret in its masked form, which is at most nine characters long. */
  lemma DebugDictionaryMasksSecrets(a: AuthCredentials)
    ensures var d := DebugDictionary(a);
            && d["accessKey"] == Masked(StringUtils.Masked(a.accessKeyId, MaskCharacter, 5, 2))
            && d["secretAccessKey"] == Masked(StringUtils.Masked(a.secretAccessKey, MaskCharacter, 5, 2))
            && d["sessionToken"] == Masked(StringUtils.Masked(a.sessionToken, MaskCharacter, 5, 2))
            && |d["accessKey"].text| <= 9 && |d["secretAccessKey"].text| <= 9 && |d["sessionToken"].text| <= 9
  {
    MaskedSecretBounded(a.accessKeyId);
    MaskedSecretBounded(a.secretAccessKey);
    MaskedSecretBounded(a.sessionToken);
  }

  /** No secret longer than nine characters appears verbatim among the dictionary's values. */
  lemma DebugDictionaryHidesLongSecrets(a: AuthCredentials, k: string)
    requires k in DebugDictionary(a) && DebugDictionary(a)[k].Masked?
    ensures |a.accessKeyId| > 9 ==> !Contains(DebugDictionary(a)[k].text, a.accessKeyId)
    ensures |a.secretAccessKey| > 9 ==> !Contains(DebugDictionary(a)[k].text, a.secretAccessKey)
    ensures |a.sessionToken| > 9 ==> !Contains(DebugDictionary(a)[k].text, a.sessionToken)
  {
    var t := DebugDictionary(a)[k].text;
    assert |t| <= 9 by { DebugDictionaryMasksSecrets(a); }
  }

  function RenderValue(v: DebugValue): string {
    match v
    case Masked(text) => "\"" + text + "\""
    case Date(seconds) => Interpolation.IntText(seconds)
  }

  /** One `"key": value` entry per key of `keys` that is in `d`, separated by ", ". */
  function RenderEntries(d: map<string, DebugValue>, keys: seq<string>): string {
    if keys == [] then ""
    else
      var rest := RenderEntries(d, keys[1..]);
      if keys[0] !in d then rest
      else
        var entry := "\"" + keys[0] + "\": " + RenderValue(d[keys[0]]);
        if rest == "" then entry else entry + ", " + rest
  }

  /** A dictionary's text, with its keys in the order `DebugKeys` lists them. */
  function DescribeDictionary(d: map<string, DebugValue>): (r: string)
    ensures |r| >= 2 && r[0] == '[' && r[|r| - 1] == ']'
  {
    "[" + RenderEntries(d, DebugKeys) + "]"
  }

  /** `debugDescription`: the text of `debugDictionary`, so nothing but the masked view can appear in it. */
  function DebugDescription(a: AuthCredentials): (r: string)
    ensures |r| >= 2 && r[0] == '[' && r[|r| - 1] == ']'
  {
    DescribeDictionary(DebugDictionary(a))
  }

  /** Credentials with the same masked view have the same description. */
  lemma DebugDescriptionDependsOnlyOnDictionary(a: AuthCredentials, b: AuthCredentials)
    requires DebugDictionary(a) == DebugDictionary(b)
    ensures DebugDescription(a) == DebugDescription(b)
  {
  }

  /** In particular the description does not depend on the hidden middle of any secret. */
  lemma DebugDescriptionIgnoresInterior(a: AuthCredentials, secret: string)
    requires |a.accessKeyId| >= 9 && |secret| == |a.accessKeyId|
    requires secret[..2] == a.accessKeyId[..2] && secret[|secret| - 2..] == a.accessKeyId[|secret| - 2..]
    ensures DebugDescription(a.(accessKeyId := secret)) == DebugDescription(a)
  {
    var b := a.(accessKeyId := secret);
    MaskedLong(secret, MaskCharacter, 5, 2);
    MaskedLong(a.accessKeyId, MaskCharacter, 5, 2);
    var m1 := StringUtils.Masked(secret, MaskCharacter, 5, 2);
    var m2 := StringUtils.Masked(a.accessKeyId, MaskCharacter, 5, 2);
    assert |m1| == 9 == |m2|;
    assert forall i :: 0 <= i < 9 ==> m1[i] == m2[i] by {
      forall i | 0 <= i < 9 ensures m1[i] == m2[i] {
        if i < 2 {
          assert m1[i] == m1[..2][i];
          assert m2[i] == m2[..2][i];
        } else if i >= 7 {
          assert m1[i] == m1[7..][i - 7];
          assert m2[i] == m2[7..][i - 7];
        }
      }
    }
    assert m1 == m2;
    assert DebugDictionary(b) == DebugDictionary(a);
  }
}
