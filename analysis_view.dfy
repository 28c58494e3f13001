/** The conversation held by `AnalysisView` (src/components/nutriscan/AnalysisView.tsx):
    `handleSendMessage` appends the user's turn, posts the conversation to the
    chat relay, assembles the streamed answer and appends exactly one
    assistant turn, the answer or an error text. */
module AnalysisView {
  import opened Types
  import opened Strings
  import opened Sse
  import opened Http

  /** The JSON body posted to the relay (lines 45-51). */
  datatype ChatPayload = ChatPayload(
    message: string,
    ingredients: string,
    analysisContext: AnalysisResult,
    userProfile: UserProfile,
    conversationHistory: seq<ChatMessage>)

  /** How the reads of a response body end: `done`, or a rejected `read()`. */
  datatype ReadEnd = Finished | ReadFailed(error: Thrown)

  /** The chunks `reader.read()` delivers, already decoded, and how reading ends. */
  datatype StreamBody = StreamBody(chunks: seq<string>, end: ReadEnd)

  /** How the `fetch` of the relay ends: it rejects, or a response arrives whose
      body may be missing (`response.body?.getReader()` is `undefined`). */
  datatype Reply = FetchRejected(error: Thrown) | Answered(status: int, body: Option<StreamBody>)

  const RateLimitText := "Rate limit exceeded. Please wait a moment and try again."
  const UsageLimitText := "AI usage limit reached. Please try again later."
  const GenericText := "Failed to get response"
  const ErrorFallback := "Sorry, I encountered an error. Please try again."

  /** Lines 55-63: the message of the error thrown for a non-OK status. */
  function StatusError(status: int): (m: string)
    ensures m == RateLimitText <==> status == 429
    ensures m == UsageLimitText <==> status == 402
    ensures m == GenericText <==> status != 429 && status != 402
  {
    if status == 429 then RateLimitText
    else if status == 402 then UsageLimitText
    else GenericText
  }

  function LastShown(shown: seq<string>): string {
    if shown == [] then "" else shown[|shown| - 1]
  }

  /** The assistant turn's text and the streaming text left visible once a send
      is over. */
  datatype Conclusion = Conclusion(answer: string, streaming: string)

  /** What a send ends with, for every way the relay call can end. */
  function Conclude(reply: Reply, parse: Parser): Conclusion {
    match reply
    case FetchRejected(e) => Conclusion(MessageOr(e, ErrorFallback), "")
    case Answered(status, body) =>
      if !IsOk(status) then Conclusion(StatusError(status), "")
      else if body.None? then Conclusion("", "")
      else
        var a := FeedAll(Start, body.value.chunks, LineKinds(parse));
        match body.value.end
        case Finished => Conclusion(a.content, "")
        case ReadFailed(e) => Conclusion(MessageOr(e, ErrorFallback), LastShown(a.shown))
  }

  class ChatSession {
    var messages: seq<ChatMessage>
    var isLoading: bool
    var streamingContent: string

    constructor ()
      ensures messages == [] && !isLoading && streamingContent == ""
    {
      messages := [];
      isLoading := false;
      streamingContent := "";
    }

    /** `handleSendMessage(content)`, with the analysis, the original input and
        the profile the view was given. `reply` is how the relay call ends and
        `parse` stands for `JSON.parse` and the delta lookup. Returns the body
        posted to the relay. */
    method SendMessage(content: string, ingredients: string, result: AnalysisResult, profile: UserProfile,
                       reply: Reply, parse: Parser)
      returns (sent: ChatPayload)
      modifies this
      ensures sent == ChatPayload(content, ingredients, result, profile, old(messages))
      ensures messages == old(messages) + [ChatMessage(User, content), ChatMessage(Assistant, Conclude(reply, parse).answer)]
      ensures !isLoading
      ensures streamingContent == Conclude(reply, parse).streaming
    {
      sent := ChatPayload(content, ingredients, result, profile, messages);
      messages := messages + [ChatMessage(User, content)];
      isLoading := true;
      streamingContent := "";
      var answer: string;
      match reply {
      case FetchRejected(e) =>
        answer := MessageOr(e, ErrorFallback);
      case Answered(status, body) =>
        if !IsOk(status) {
          answer := StatusError(status);
        } else if body.None? {
          answer := "";
          streamingContent := "";
        } else {
          var assembled, buffer, shown := ReadStream(body.value.chunks, parse);
          if shown != [] {
            streamingContent := shown[|shown| - 1];
          }
          match body.value.end {
          case Finished =>
            answer := assembled;
            streamingContent := "";
          case ReadFailed(e) =>
            answer := MessageOr(e, ErrorFallback);
          }
        }
      }
      messages := messages + [ChatMessage(Assistant, answer)];
      isLoading := false;
    }
  }

  lemma {:induction false} GrowsLast(from: string, shown: seq<string>, last: string)
    requires Grows(from, shown, last)
    ensures LastShown(shown) == (if shown == [] then "" else last)
    decreases |shown|
  {
    if |shown| > 1 {
      GrowsLast(shown[0], shown[1..], last);
      assert shown[1..][|shown[1..]| - 1] == shown[|shown| - 1];
    }
  }

  /** The streaming text is cleared after every send except one whose stream
      failed part-way; then it still shows the answer assembled so far. */
  lemma StreamingLeftOnlyOnReadFailure(reply: Reply, parse: Parser)
    ensures var c := Conclude(reply, parse);
      c.streaming != "" ==>
        reply.Answered? && IsOk(reply.status) && reply.body.Some? && reply.body.value.end.ReadFailed?
        && c.streaming == FeedAll(Start, reply.body.value.chunks, LineKinds(parse)).content
  {
    if reply.Answered? && IsOk(reply.status) && reply.body.Some? {
      AnswerOnlyGrows(Start, reply.body.value.chunks, LineKinds(parse));
      var a := FeedAll(Start, reply.body.value.chunks, LineKinds(parse));
      assert a.shown[|Start.shown|..] == a.shown;
      GrowsLast("", a.shown, a.content);
    }
  }

  /** A completed stream whose lines are all inert or deltas gives, as the
      assistant's turn, the in-order concatenation of the deltas of all its
      complete lines, however the body was cut into chunks. */
  lemma AnswerIsAllDeltas(status: int, chunks: seq<string>, parse: Parser)
    requires IsOk(status)
    requires WellFormed(Lines(Concat(chunks)), LineKinds(parse))
    ensures Conclude(Answered(status, Some(StreamBody(chunks, Finished))), parse)
         == Conclusion(Deltas(Lines(Concat(chunks)), LineKinds(parse)), "")
  {
    ReadWholeStream(chunks, LineKinds(parse));
  }

  /** The assistant's turn on failure: the status text for a non-OK status, the
      error's message (or the apology) for a rejected fetch or read. */
  lemma FailureTexts(reply: Reply, parse: Parser)
    ensures reply.Answered? && reply.status == 429 ==> Conclude(reply, parse).answer == RateLimitText
    ensures reply.Answered? && reply.status == 402 ==> Conclude(reply, parse).answer == UsageLimitText
    ensures (reply.Answered? && !IsOk(reply.status) && reply.status != 429 && reply.status != 402)
        ==> Conclude(reply, parse).answer == GenericText
    ensures reply.FetchRejected? && reply.error.NotAnError? ==> Conclude(reply, parse).answer == ErrorFallback
    ensures reply.Answered? && IsOk(reply.status) && reply.body.None? ==> Conclude(reply, parse) == Conclusion("", "")
  {
  }
}
