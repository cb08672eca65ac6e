/**
 * The completion provider (`generateGeminiResponse`): it frames the user's message in a fixed persona
 * instruction, reads the first candidate's first text part out of the upstream JSON answer, and never
 * fails: a malformed answer and a failed call each turn into a fixed apology, and the two apologies differ.
 * The HTTP call itself is not modelled; its outcome is the `Upstream` value given to `GenerateReply`,
 * which returns the prompt it would send together with the reply.
 */
module Gemini {
  import opened Wrappers
  import opened Text

  const PromptPrefix: string :=
    "You are Lucy, a helpful AI assistant. Please respond to this message in a friendly and helpful way: "

  /** Returned when the upstream answer has no usable text. */
  const NoResponseText: string :=
    "I'm sorry, I couldn't generate a response at this time. Please try again!"

  /** Returned when the call or the parsing of its answer throws. */
  const ErrorText: string :=
    "I'm sorry, there was an error processing your request. Please try again later!"

  /** The text of the single part of the single content the request sends upstream. */
  function Prompt(message: string): (p: string)
    ensures StartsWith(p, PromptPrefix)
    ensures p[|PromptPrefix|..] == message
  {
    PromptPrefix + message
  }

  /** The caller's message can be read back from the prompt, so distinct messages give distinct prompts. */
  lemma PromptInjective(a: string, b: string)
    ensures Prompt(a) == Prompt(b) ==> a == b
  {
  }

  /*
   * The upstream JSON answer. Every level is optional, as the optional chaining of the source treats it:
   * `None` stands for a field that is absent, `null`, or of a kind that yields `undefined` when indexed.
   */
  datatype Part = Part(text: Option<string>)
  datatype Content = Content(parts: Option<seq<Option<Part>>>)
  datatype Candidate = Candidate(content: Option<Content>)
  /** The parsed answer: the JSON literal `null`, or an object that may carry `candidates`. */
  datatype Body = NullBody | Answer(candidates: Option<seq<Option<Candidate>>>)
  /** How the call ended: an answer was parsed, or `fetch` or `response.json()` threw. */
  datatype Upstream = Received(body: Body) | CallThrew

  /** `candidates[0]?.content?.parts?.[0]?.text`: `None` when any level along the path is missing. */
  function FirstText(candidates: Option<seq<Option<Candidate>>>): Option<string> {
    if candidates.None? || |candidates.value| == 0 then None
    else
      match candidates.value[0]
      case None => None
      case Some(candidate) =>
        match candidate.content
        case None => None
        case Some(content) =>
          match content.parts
          case None => None
          case Some(parts) =>
            if |parts| == 0 then None
            else
              match parts[0]
              case None => None
              case Some(part) => part.text
  }

  /**
   * What the provider made of the call, before it is turned into text: the extracted reply, a malformed
   * answer, or a call that threw (reading `candidates` of a `null` answer throws too).
   */
  datatype Completion = Reply(text: string) | Malformed | Failed

  function Complete(u: Upstream): (c: Completion)
    ensures c.Reply? ==> c.text != []
  {
    match u
    case CallThrew => Failed
    case Received(NullBody) => Failed
    case Received(Answer(candidates)) =>
      var t := FirstText(candidates);
      if t.Some? && t.value != [] then Reply(t.value) else Malformed
  }

  /** The string handed back to the caller for each outcome. */
  function ReplyText(c: Completion): string {
    match c
    case Reply(t) => t
    case Malformed => NoResponseText
    case Failed => ErrorText
  }

  /** One call of the provider: the prompt it sends upstream and the string it hands back. */
  datatype Exchange = Exchange(prompt: string, reply: string)

  /**
   * `generateGeminiResponse(message)`: the prompt sent upstream is the caller's message framed by the persona
   * instruction; the reply is always a non-empty string: the extracted text unchanged when there is one,
   * otherwise the apology for a malformed answer or the one for a failed call.
   */
  function GenerateReply(message: string, u: Upstream): (r: Exchange)
    ensures r.prompt == Prompt(message)
    ensures r.reply != []
    ensures u.Received? && u.body.Answer? && FirstText(u.body.candidates).Some? && FirstText(u.body.candidates).value != []
            ==> r.reply == FirstText(u.body.candidates).value
    ensures u.Received? && u.body.Answer? && (FirstText(u.body.candidates).None? || FirstText(u.body.candidates).value == [])
            ==> r.reply == NoResponseText
    ensures u.CallThrew? || u == Received(NullBody) ==> r.reply == ErrorText
  {
    Exchange(Prompt(message), ReplyText(Complete(u)))
  }

  /** The two apologies are different strings, so a caller can tell the two failures apart. */
  lemma FallbacksDiffer()
    ensures NoResponseText != ErrorText
  {
    assert |NoResponseText| != |ErrorText|;
  }

  /**
   * Only the first candidate and its first part are read: whatever follows them, a well-formed answer
   * yields its first text when that text is non-empty, and the malformed-answer apology when it is empty.
   */
  lemma OnlyFirstPartRead(message: string, t: string, moreParts: seq<Option<Part>>, moreCandidates: seq<Option<Candidate>>)
    ensures GenerateReply(message, Received(Answer(Some([Some(Candidate(Some(Content(Some([Some(Part(Some(t)))] + moreParts)))))] + moreCandidates)))).reply
            == if t == [] then NoResponseText else t
  {
  }

  /** An answer whose `candidates` list is empty is a malformed answer, not a failed call. */
  lemma EmptyCandidatesMalformed(message: string)
    ensures GenerateReply(message, Received(Answer(Some([])))).reply == NoResponseText
  {
  }
}
