/** The recovery-suggestion texts that the errors of this model carry. */
module AmplifyErrorMessages {

  /**
   * `AmplifyErrorMessages.shouldNotHappenReportBugToAWS()` is Amplify library text that is not part
   * of this model, so it stands as its own constructor; every other suggestion is a literal.
   */
  datatype Message = ShouldNotHappenReportBugToAWS | Text(text: string)
}
