/** `AWSCognitoIdentityPoolOperationsHelper.checkPluginKeyAndVersionAreValid`. */
module PluginValidation {
  import opened Wrappers
  import opened AmplifyErrorMessages
  import opened AuthErrors
  import opened StringUtils

  const MaxKeyLength: nat := 25
  const MaxVersionLength: nat := 10

  const EmptyError: AuthError := Validation("PluginKey/PluginVersion", "PluginKey/PluginVersion is empty",
    Text("Please input non-empty plugin key and version"))
  const KeyTooLongError: AuthError := Validation("PluginKey", "PluginKey is too long",
    Text("Plugin key should contain between 1-25 characters"))
  const VersionTooLongError: AuthError := Validation("PluginVersion", "PluginVersion is too long",
    Text("Plugin version should contain between 1-10 characters"))
  const KeyCharactersError: AuthError := Validation("PluginKey", "PluginKey contains invalid characters",
    Text("Plugin key should contain only alphanumeric characters"))
  const VersionPatternError: AuthError := Validation("PluginVersion", "PluginVersion contains invalid pattern",
    Text("Plugin version should follow semantic versioning <major>.<minor>.<patch>"))

  /** The checks run in this order; the first one that fails decides the error thrown. */
  function CheckPluginKeyAndVersionAreValid(pluginKey: string, pluginVersion: string): (r: Outcome<AuthError>)
    ensures r.Fail? ==> r.error.Validation?
  {
    if pluginKey == "" || pluginVersion == "" then Fail(EmptyError)
    else if |pluginKey| > MaxKeyLength then Fail(KeyTooLongError)
    else if |pluginVersion| > MaxVersionLength then Fail(VersionTooLongError)
    else if !IsAlphaNumeric(pluginKey) then Fail(KeyCharactersError)
    else if !FollowsSemanticVersioning(pluginVersion) then Fail(VersionPatternError)
    else Pass
  }

  /** What a valid plugin key and version are, as the initializer's documentation states it. */
  ghost predicate ValidPluginKeyAndVersion(pluginKey: string, pluginVersion: string) {
    && 1 <= |pluginKey| <= MaxKeyLength
    && 1 <= |pluginVersion| <= MaxVersionLength
    && (forall i :: 0 <= i < |pluginKey| ==> IsAlphanumericCharacter(pluginKey[i]))
    && SemanticVersionShape(pluginVersion)
  }

  /** The validator accepts exactly the valid pairs. */
  lemma CheckAcceptsExactlyValid(pluginKey: string, pluginVersion: string)
    ensures CheckPluginKeyAndVersionAreValid(pluginKey, pluginVersion).Pass?
            <==> ValidPluginKeyAndVersion(pluginKey, pluginVersion)
  {
    FollowsSemanticVersioningMeaning(pluginVersion);
  }

  /** Each error is thrown exactly when its check fails and every earlier check passed. */
  lemma CheckReportsFirstFailure(pluginKey: string, pluginVersion: string)
    ensures var r := CheckPluginKeyAndVersionAreValid(pluginKey, pluginVersion);
            && (r == Fail(EmptyError) <==> pluginKey == "" || pluginVersion == "")
            && (r == Fail(KeyTooLongError) <==> pluginKey != "" && pluginVersion != "" && |pluginKey| > 25)
            && (r == Fail(VersionTooLongError) <==>
                  pluginKey != "" && pluginVersion != "" && |pluginKey| <= 25 && |pluginVersion| > 10)
            && (r == Fail(KeyCharactersError) <==>
                  pluginKey != "" && pluginVersion != "" && |pluginKey| <= 25 && |pluginVersion| <= 10
                  && !IsAlphaNumeric(pluginKey))
            && (r == Fail(VersionPatternError) <==>
                  pluginKey != "" && pluginVersion != "" && |pluginKey| <= 25 && |pluginVersion| <= 10
                  && IsAlphaNumeric(pluginKey) && !FollowsSemanticVersioning(pluginVersion))
  {
  }

  /** The key the helper's tests use is alphanumeric. */
  lemma PluginKeyIsAlphaNumeric()
    ensures IsAlphaNumeric("pluginKey")
  {
    var k := "pluginKey";
    assert forall i :: 0 <= i < |k| ==> IsAlphanumericCharacter(k[i]);
  }

  /** The helper's tests: an empty key or version is reported before anything else. */
  lemma CheckRejectsEmpty()
    ensures CheckPluginKeyAndVersionAreValid("", "") == Fail(EmptyError)
    ensures CheckPluginKeyAndVersionAreValid("key", "") == Fail(EmptyError)
    ensures CheckPluginKeyAndVersionAreValid("", "1") == Fail(EmptyError)
  {
  }

  /** The helper's tests: lengths are checked before contents, the key before the version. */
  lemma CheckRejectsTooLong()
    ensures CheckPluginKeyAndVersionAreValid("pluginKeyTooLongpluginKeyTooLongpluginKeyTooLong", "1.0.0")
            == Fail(KeyTooLongError)
    ensures CheckPluginKeyAndVersionAreValid("pluginKey", "1.00000.0000000000") == Fail(VersionTooLongError)
    ensures CheckPluginKeyAndVersionAreValid("pluginKeyTooLongpluginKeyTooLongpluginKeyTooLong",
                                             "1.00000.0000000000") == Fail(KeyTooLongError)
    // "pluginVersion" has thirteen characters: it is refused for its length before its pattern is read
    ensures CheckPluginKeyAndVersionAreValid("pluginKey", "pluginVersion") == Fail(VersionTooLongError)
  {
  }

  /** The helper's tests: a key with punctuation is refused. */
  lemma CheckRejectsKeyCharacters()
    ensures CheckPluginKeyAndVersionAreValid("pl12:;-", "1.0.0") == Fail(KeyCharactersError)
  {
    assert FirstNonAlphanumeric("pl12:;-").Some? by {
      assert !IsAlphanumericCharacter("pl12:;-"[4]);
    }
  }

  /** The helper's tests: versions that are not `<major>.<minor>.<patch>` are refused. */
  lemma CheckRejectsVersionPattern()
    ensures CheckPluginKeyAndVersionAreValid("pluginKey", "1-2-3") == Fail(VersionPatternError)
    ensures CheckPluginKeyAndVersionAreValid("pluginKey", "01.0.0") == Fail(VersionPatternError)
  {
    SemanticVersioningRejects();
    PluginKeyIsAlphaNumeric();
  }

  /** The helper's tests: an alphanumeric key with a semantic version passes. */
  lemma CheckAcceptsValid()
    ensures CheckPluginKeyAndVersionAreValid("pluginKey", "1.0.0") == Pass
  {
    SemanticVersioningAccepts();
    PluginKeyIsAlphaNumeric();
  }
}
