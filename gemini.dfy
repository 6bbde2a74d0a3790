/** The remote session client, reduced to what the conversation controller can observe of it. */
module Gemini {
  import opened Wrappers

  /** The message of the error thrown when no API key is configured. */
  const MissingKeyMessage: string := "GEMINI_API_KEY is not defined"

  /** An opaque handle on a conversational context held by the remote service. */
  class Session {
    constructor ()
    {
    }
  }

  /**
   * Creates a new chat session. `apiKey` is the value of the GEMINI_API_KEY environment variable;
   * JavaScript treats both an unset variable and the empty string as missing, and then the call
   * throws instead of returning a session.
   */
  method CreateChatSession(apiKey: Option<string>) returns (r: Result<Session, string>)
    ensures r.Failure? <==> (apiKey == None || apiKey == Some(""))
    ensures r.Failure? ==> r.error == MissingKeyMessage
    ensures r.Success? ==> fresh(r.value)
  {
    if apiKey == None || apiKey == Some("") {
      return Failure(MissingKeyMessage);
    }
    var session := new Session();
    return Success(session);
  }
}
