/**
 * The parts of Amplify's `AuthError` that the identity-pool operations produce.  How Amplify's
 * own `AuthError(error:)` initializer classifies an arbitrary error is not part of this model:
 * it is represented by `FromError`, which keeps the error it wraps.
 */
module AuthErrors {
  import opened AmplifyErrorMessages
  import opened CredentialStoreErrors

  /** An error thrown by the Cognito identity client; its contents are opaque here. */
  datatype ClientError = ClientError(message: string)

  datatype AuthError =
    | Service(description: string, recoverySuggestion: Message)
    | Validation(field: string, description: string, recoverySuggestion: Message)
      /** `AuthError(errorDescription:recoverySuggestion:error:)`. */
    | Wrapping(description: string, recoverySuggestion: Message, underlying: Cause)
      /** `AuthError(error:)`. */
    | FromError(underlying: Cause)

  /** The Swift `Error` values that reach an `AuthError` initializer. */
  datatype Cause =
    | StoreCause(storeError: CredentialStoreError)
    | AuthCause(authError: AuthError)
    | ClientCause(clientError: ClientError)
}
