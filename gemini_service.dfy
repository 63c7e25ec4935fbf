/**
 * The client call `analyzeVideoWithGemini`: it invokes the `analyze-video`
 * edge function and turns whatever comes back into the single value it
 * resolves to, catching every error on the way. The invocation is given as
 * its outcome; the prompt and the URL only travel inside it.
 */
module GeminiService {
  import opened Wrappers
  import opened Strings
  import opened JsValues

  /** A value a rejected promise carries: an `Error` with its message, or anything else. */
  datatype Thrown = ErrorThrown(message: string) | NonErrorThrown

  /**
   * `supabase.functions.invoke` either rejects, or resolves to `{data, error}`:
   * `data` is the decoded reply (absent is `None`), `error` the message of
   * the error object it reports, if any.
   */
  datatype InvokeOutcome =
    | Rejected(reason: Thrown)
    | Settled(data: Option<Json>, error: Option<string>)

  const UnknownErrorMessage := "An unknown error occurred while analyzing the video."
  const NoResultMessage := "No result received from the analysis"

  const CaughtPrefix := "Error analyzing video: "

  /**
   * What the `catch` block makes of a thrown value. The two branches can be
   * told apart by the prefix, and an `Error`'s message follows it unchanged.
   */
  function Caught(reason: Thrown): (r: string)
    ensures reason.ErrorThrown? <==> StartsWith(r, CaughtPrefix)
    ensures reason.ErrorThrown? ==> r[|CaughtPrefix|..] == reason.message
  {
    match reason
    case ErrorThrown(message) => CaughtPrefix + message
    case NonErrorThrown =>
      UnknownMessageUnprefixed();
      UnknownErrorMessage
  }

  /** The fixed message cannot be mistaken for a caught `Error`'s. */
  lemma UnknownMessageUnprefixed()
    ensures !StartsWith(UnknownErrorMessage, CaughtPrefix)
  {
    assert UnknownErrorMessage[22] == 'r';
    assert CaughtPrefix[22] == ' ';
    assert UnknownErrorMessage[..|CaughtPrefix|][22] != CaughtPrefix[22];
  }

  /**
   * The value the call resolves to. Nothing escapes it: every outcome
   * resolves, and to a string on every path but one, where `data.result` is
   * handed back as it arrived, whatever its type.
   */
  function AnalyzeVideoWithGemini(invoke: InvokeOutcome): (r: Json)
    ensures r.JStr? || (invoke.Settled? && invoke.error.None? && Some(r) == OptionalGet(invoke.data, "result"))
  {
    match invoke
    case Rejected(reason) => JStr(Caught(reason))
    case Settled(data, error) =>
      if error.Some? then JStr(Caught(ErrorThrown("Function call failed: " + error.value)))
      else
        var dataError := OptionalGet(data, "error");
        if Truthy(dataError) then
          match ToJsString(dataError.value)
          case Success(text) => JStr("Error: " + text)
          case Failure(message) => JStr(Caught(ErrorThrown(message)))
        else
          var result := OptionalGet(data, "result");
          if !Truthy(result) then JStr(Caught(ErrorThrown(NoResultMessage)))
          else result.value
  }

  /** An invocation error wins over anything `data` holds. */
  lemma InvokeErrorFirst(data: Option<Json>, message: string)
    ensures AnalyzeVideoWithGemini(Settled(data, Some(message)))
        == JStr("Error analyzing video: " + ("Function call failed: " + message))
  {
  }

  /**
   * With no invocation error, a truthy `data.error` is reported and
   * `data.result` is never looked at. An error value that cannot be
   * converted to a string makes the template literal throw, and the `catch`
   * block reports that TypeError instead.
   */
  lemma DataErrorSecond(fields: map<string, Json>, otherResult: Json)
    requires "error" in fields && Truthy(Some(fields["error"]))
    ensures !HasOwnToString(fields["error"])
        ==> AnalyzeVideoWithGemini(Settled(Some(JObj(fields)), None)) == JStr("Error: " + ToJsString(fields["error"]).value)
    ensures HasOwnToString(fields["error"])
        ==> AnalyzeVideoWithGemini(Settled(Some(JObj(fields)), None)) == JStr(CaughtPrefix + NoPrimitiveMessage)
    ensures AnalyzeVideoWithGemini(Settled(Some(JObj(fields["result" := otherResult])), None))
        == AnalyzeVideoWithGemini(Settled(Some(JObj(fields)), None))
  {
    assert Property(JObj(fields["result" := otherResult]), "error") == Some(fields["error"]);
  }

  /** With neither error, a falsy or absent `data.result` is reported as a missing result. */
  lemma MissingResultThird(data: Option<Json>)
    requires !Truthy(OptionalGet(data, "error")) && !Truthy(OptionalGet(data, "result"))
    ensures AnalyzeVideoWithGemini(Settled(data, None)) == JStr("Error analyzing video: " + NoResultMessage)
  {
  }

  /** Otherwise the call resolves to `data.result` itself, which is truthy: a string result is non-empty. */
  lemma ResultLast(data: Option<Json>)
    requires !Truthy(OptionalGet(data, "error")) && Truthy(OptionalGet(data, "result"))
    ensures Some(AnalyzeVideoWithGemini(Settled(data, None))) == OptionalGet(data, "result")
    ensures AnalyzeVideoWithGemini(Settled(data, None)).JStr? ==> AnalyzeVideoWithGemini(Settled(data, None)).s != ""
  {
  }

  /** A rejected invocation is caught: an `Error` reports its message, anything else the fixed message. */
  lemma RejectionCaught(message: string)
    ensures AnalyzeVideoWithGemini(Rejected(ErrorThrown(message))) == JStr("Error analyzing video: " + message)
    ensures AnalyzeVideoWithGemini(Rejected(NonErrorThrown)) == JStr(UnknownErrorMessage)
  {
  }

  /** The edge function's success reply `{"result": text}` resolves to its non-empty text unchanged. */
  lemma StringResultPassesThrough(text: string)
    requires text != ""
    ensures AnalyzeVideoWithGemini(Settled(Some(JObj(map["result" := JStr(text)])), None)) == JStr(text)
  {
  }
}
