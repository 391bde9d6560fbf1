/**
 * `AWSCredentialStoreError`: a value carrying a one-byte code, a description, a recovery
 * suggestion and an optional underlying error.  Its `==` compares the codes only.
 */
module CredentialStoreErrors {
  import opened Wrappers
  import opened AmplifyErrorMessages
  import Interpolation

  newtype UInt8 = x: int | 0 <= x < 256

  /** `OSStatus`. */
  newtype Int32 = x: int | -0x8000_0000 <= x < 0x8000_0000

  /** The Swift `Error` a store error may wrap. */
  datatype UnderlyingError = EncodingFailed | DecodingFailed | OtherError(description: string)

  datatype CredentialStoreError = CredentialStoreError(
    code: UInt8,
    errorDescription: string,
    recoverySuggestion: Message,
    underlyingError: Option<UnderlyingError>)

  const UnknownDescription: string := "An unknown error occurred"
  const UnknownPrefix: string := "Unexpected error occurred with message: "
  const ItemNotFoundDescription: string := "Unable to find the keychain item"
  const SecurityPrefix: string := "Keychain error occurred with status: "

  /** `AWSCredentialStoreError.==`: two errors are equal exactly when their codes are. */
  predicate Equal(lhs: CredentialStoreError, rhs: CredentialStoreError) {
    lhs.code == rhs.code
  }

  /** `init(_:errorDescription:recoverySuggestion:underlyingError:)`. */
  function Make(code: UInt8, errorDescription: string := UnknownDescription,
                recoverySuggestion: Message := ShouldNotHappenReportBugToAWS,
                underlyingError: Option<UnderlyingError> := None): CredentialStoreError
  {
    CredentialStoreError(code, errorDescription, recoverySuggestion, underlyingError)
  }

  /**
   * The initializer keeps what it is given, fills in the unknown-error description, the
   * report-a-bug suggestion and no underlying error by default, and builds a value equal to
   * every other error with its code.
   */
  lemma MakeKeepsFields(code: UInt8, errorDescription: string, recoverySuggestion: Message,
                        underlyingError: Option<UnderlyingError>, other: CredentialStoreError)
    ensures var e := Make(code, errorDescription, recoverySuggestion, underlyingError);
            e.code == code && e.errorDescription == errorDescription
            && e.recoverySuggestion == recoverySuggestion && e.underlyingError == underlyingError
    ensures Make(code) == Make(code, UnknownDescription, ShouldNotHappenReportBugToAWS, None)
    ensures Equal(Make(code, errorDescription, recoverySuggestion, underlyingError), other) <==> other.code == code
  {
  }

  // The static values `configuration`, `unknown`, ... of the source.
  const Configuration: CredentialStoreError := Make(0)
  const Unknown: CredentialStoreError := Make(1)
  const ConversionError: CredentialStoreError := Make(2)
  const CodingError: CredentialStoreError := Make(3)
  const ItemNotFound: CredentialStoreError := Make(4)
  const SecurityError: CredentialStoreError := Make(5)

  /** `configuration(message:)`. */
  function ConfigurationWithMessage(message: string): (e: CredentialStoreError)
    ensures Equal(e, Configuration) && e.errorDescription == message
  {
    Make(0, message, ShouldNotHappenReportBugToAWS)
  }

  /** `unknown(errorDescription:error:)`: the description gets a fixed prefix. */
  function UnknownWithDescription(errorDescription: string, error: Option<UnderlyingError> := None)
    : (e: CredentialStoreError)
    ensures Equal(e, Unknown) && e.underlyingError == error
    ensures |e.errorDescription| == |UnknownPrefix| + |errorDescription|
    ensures e.errorDescription[..|UnknownPrefix|] == UnknownPrefix
    ensures e.errorDescription[|UnknownPrefix|..] == errorDescription
  {
    Make(1, UnknownPrefix + errorDescription, ShouldNotHappenReportBugToAWS, error)
  }

  /** `conversionError(errorDescription:error:)`. */
  function ConversionErrorWithDescription(errorDescription: string, error: Option<UnderlyingError> := None)
    : (e: CredentialStoreError)
    ensures Equal(e, ConversionError) && e.errorDescription == errorDescription && e.underlyingError == error
  {
    Make(2, errorDescription, ShouldNotHappenReportBugToAWS, error)
  }

  /** `codingError(errorDescription:error:)`. */
  function CodingErrorWithDescription(errorDescription: string, error: Option<UnderlyingError> := None)
    : (e: CredentialStoreError)
    ensures Equal(e, CodingError) && e.errorDescription == errorDescription && e.underlyingError == error
  {
    Make(3, errorDescription, ShouldNotHappenReportBugToAWS, error)
  }

  /** `itemNotFound(errorDescription:)`: equal to `itemNotFound` whatever the description. */
  function ItemNotFoundWithDescription(errorDescription: string := ItemNotFoundDescription)
    : (e: CredentialStoreError)
    ensures Equal(e, ItemNotFound) && e.errorDescription == errorDescription && e.underlyingError == None
  {
    Make(4, errorDescription, ShouldNotHappenReportBugToAWS)
  }

  /** `securityError(osStatus:)`: the status is rendered in decimal after a fixed prefix. */
  function SecurityErrorWithStatus(osStatus: Int32): (e: CredentialStoreError)
    ensures Equal(e, SecurityError)
    ensures e.errorDescription == SecurityPrefix + Interpolation.IntText(osStatus as int)
  {
    Make(5, SecurityPrefix + Interpolation.IntText(osStatus as int), ShouldNotHappenReportBugToAWS)
  }

  /** The `AmplifyError` initializer: whatever it is given, it builds an error equal to `unknown`. */
  function FromAmplifyError(error: UnderlyingError, errorDescription: string := UnknownDescription,
                            recoverySuggestion: Message := ShouldNotHappenReportBugToAWS)
    : (e: CredentialStoreError)
    ensures Equal(e, Unknown) && e.underlyingError == Some(error)
    ensures e.errorDescription == errorDescription && e.recoverySuggestion == recoverySuggestion
  {
    Make(1, errorDescription, recoverySuggestion, Some(error))
  }

  /** `==` is an equivalence relation that ignores description, suggestion and underlying error. */
  lemma EqualIsEquivalence(a: CredentialStoreError, b: CredentialStoreError, c: CredentialStoreError)
    ensures Equal(a, a)
    ensures Equal(a, b) <==> Equal(b, a)
    ensures Equal(a, b) && Equal(b, c) ==> Equal(a, c)
    ensures a.code == b.code ==> Equal(a, b)
  {
  }

  /** The six static values are pairwise different under `==`, so each code names one kind. */
  lemma StaticValuesDistinct()
    ensures var all := [Configuration, Unknown, ConversionError, CodingError, ItemNotFound, SecurityError];
            forall i, j :: 0 <= i < j < |all| ==> !Equal(all[i], all[j]) && all[i].code == i as UInt8
  {
  }
}
