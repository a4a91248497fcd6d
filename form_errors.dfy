/** The message both sale forms show when the API call reports failure:
    the server's messages joined by ", " when it sent a non-empty array of
    them, and the form's fixed sentence otherwise. */
module FormErrors {
  import opened Strings

  /** `response.errors`: an array of messages, or anything else (an error
      object, `undefined`). */
  datatype ResponseErrors = ErrorArray(messages: seq<string>) | NotAnArray

  /** The joined messages when the errors are an array with at least one
      message; the form's fallback sentence in every other case. The text
      starts with the first message, and a single message is shown as it is. */
  function ErrorMessage(errors: ResponseErrors, fallback: string): (text: string)
    ensures !(errors.ErrorArray? && |errors.messages| > 0) ==> text == fallback
    ensures errors.ErrorArray? && |errors.messages| > 0 ==>
              |text| >= |errors.messages[0]| && text[..|errors.messages[0]|] == errors.messages[0]
    ensures errors.ErrorArray? && |errors.messages| == 1 ==> text == errors.messages[0]
  {
    if errors.ErrorArray? && |errors.messages| > 0 then Join(errors.messages, ", ") else fallback
  }

  /** A non-empty array is shown in full and in order: the messages can be
      cut back out of the text as long as none holds a comma. */
  lemma ErrorMessageShowsAllMessages(errors: ResponseErrors, fallback: string)
    ensures errors.ErrorArray? && |errors.messages| > 0
            && (forall k :: 0 <= k < |errors.messages| ==> ',' !in errors.messages[k])
            ==> Split(ErrorMessage(errors, fallback), ", ") == errors.messages
  {
    if errors.ErrorArray? && |errors.messages| > 0
       && (forall k :: 0 <= k < |errors.messages| ==> ',' !in errors.messages[k]) {
      SplitJoin(errors.messages, ", ");
    }
  }
}
