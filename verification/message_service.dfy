/**
 * The message adapter (services/gemini.ts): one call to a remote text model,
 * wrapped so that a greeting comes back whatever the call does. The client is
 * built before that wrapper, so a failure there is not caught. The remote
 * side is not modelled; what happened is given as a `Response`.
 */
module MessageService {
  import opened Wrappers

  /**
   * What happened: the call replied, with a `text` that may be absent; the
   * call threw inside the `try`; or building the client threw, before it.
   */
  datatype Response = Replied(text: Option<string>) | Failed | ClientFailed

  /** Returned when the reply carries no text. */
  const FIRST_FALLBACK: string :=
    "You are the most beautiful person in the world. I love you more than words can say. \U{2764}\U{FE0F}"

  const GREETING: string := "Happy Valentine's Day, "
  const WISHES: string := "! Every moment with you is a gift. I'm so lucky to have you. Love, "
  const SIGN_OFF: string := " \U{2764}\U{FE0F}"

  /** Returned when the call fails: a greeting that names the partner and then the author. */
  function SecondFallback(partnerName: string, myName: string): (r: string)
    ensures |r| == |GREETING| + |partnerName| + |WISHES| + |myName| + |SIGN_OFF|
    ensures r[|GREETING|..|GREETING| + |partnerName|] == partnerName
    ensures r[|r| - |SIGN_OFF| - |myName|..|r| - |SIGN_OFF|] == myName
  {
    GREETING + partnerName + WISHES + myName + SIGN_OFF
  }

  /**
   * `generateLoveMessage`: the reply's text when it is non-empty (`text || fallback`),
   * the first fallback when the reply has no text, the second when the call threw.
   * When building the client threw, the returned promise rejects: `None`.
   * Whenever it resolves, the greeting is non-empty.
   */
  function GenerateLoveMessage(partnerName: string, myName: string, response: Response): (msg: Option<string>)
    ensures msg.None? <==> response.ClientFailed?
    ensures msg.Some? ==> msg.value != ""
    ensures response.Replied? && response.text.Some? && response.text.value != "" ==>
      msg == Some(response.text.value)
    ensures response.Replied? && (response.text.None? || response.text.value == "") ==>
      msg == Some(FIRST_FALLBACK)
    ensures response.Failed? ==> msg == Some(SecondFallback(partnerName, myName))
  {
    match response
    case Replied(text) =>
      if text.Some? && text.value != "" then Some(text.value) else Some(FIRST_FALLBACK)
    case Failed => Some(SecondFallback(partnerName, myName))
    case ClientFailed => None
  }
}
