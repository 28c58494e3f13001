/** The `analyze-ingredients` edge function (supabase/functions/analyze-ingredients/index.ts):
    it builds a text or image request for the AI gateway, takes the reply's
    message content, cuts the JSON out of a markdown code fence and answers
    with the parsed analysis, or with an error. */
module AnalyzeHandler {
  import opened Types
  import opened Strings
  import opened Http

  /** The destructured request body. `imageBase64` is a data URL, or absent. */
  datatype AnalyzeRequest = AnalyzeRequest(
    ingredients: string,
    imageBase64: Option<string>,
    userProfile: Option<PartialProfile>)

  /** `if (imageBase64)`: present and not the empty string. */
  predicate HasImage(r: AnalyzeRequest) {
    r.imageBase64.Some? && r.imageBase64.value != ""
  }

  datatype ContentPart = TextPart(text: string) | ImageUrlPart(url: string)

  /** A message's `content`: a string, or an array of parts. */
  datatype UserContent = PlainText(text: string) | Parts(parts: seq<ContentPart>)

  datatype WireMessage = WireMessage(role: string, content: UserContent)

  datatype UpstreamRequest = UpstreamRequest(
    authorization: string,
    model: string,
    messages: seq<WireMessage>,
    temperature: real)

  /** What `await response.json()` gave for a successful gateway reply: the
      value of `data.choices?.[0]?.message?.content` (`None` when missing),
      or what the read threw. */
  datatype Completion = Json(content: Option<string>) | NotJson(error: Thrown)

  /** How the gateway call ended. */
  datatype Upstream = FetchFailed(error: Thrown) | Replied(status: int, reply: Completion)

  const Model := "google/gemini-2.5-flash"
  const Temperature: real := 0.3
  const Fallback := "Analysis failed"
  const NoContentText := "No content in AI response"
  const ParseFailedText := "Failed to parse analysis result"
  const NoneSpecified := "None specified"

  // The fixed pieces of the user turn's text.
  const ProfileHeading := "User's health profile:\n- Allergies: "
  const RestrictionsLabel := "\n- Dietary restrictions: "
  const GoalsLabel := "\n- Health goals: "
  const AlertsRequest := "\n\nFlag any ingredients that conflict with their profile in the personalizedAlerts array."
  const ImageRequest := "Please analyze the ingredients shown in this food label image. Extract all ingredients and analyze each one.\n\n"
  const TextRequest := "Please analyze these food ingredients:\n\n"

  function ProfileLines(p: Option<PartialProfile>, restrictionsTail: string): string {
    ProfileHeading + JoinOr(ProfileAllergies(p), NoneSpecified)
    + RestrictionsLabel + JoinOr(ProfileRestrictions(p), NoneSpecified) + restrictionsTail
    + GoalsLabel + JoinOr(ProfileGoals(p), NoneSpecified)
    + AlertsRequest
  }

  /** The text part of an image request. */
  function ImagePrompt(p: Option<PartialProfile>): string {
    ImageRequest + ProfileLines(p, "")
  }

  /** The user message of a text request; its restrictions line ends in two spaces. */
  function TextPrompt(ingredients: string, p: Option<PartialProfile>): string {
    TextRequest + ingredients + "\n\n" + ProfileLines(p, "  ")
  }

  /** Lines 61-93: `userMessage` is assigned, or two parts are pushed onto
      `messageContent`; the user turn's content is whichever of them the
      request calls for. */
  method BuildUserContent(r: AnalyzeRequest) returns (content: UserContent)
    ensures HasImage(r) ==>
      content == Parts([TextPart(ImagePrompt(r.userProfile)), ImageUrlPart(r.imageBase64.value)])
    ensures !HasImage(r) ==> content == PlainText(TextPrompt(r.ingredients, r.userProfile))
  {
    var userMessage := "";
    var messageContent: seq<ContentPart> := [];
    if HasImage(r) {
      var text, url := TextPart(ImagePrompt(r.userProfile)), ImageUrlPart(r.imageBase64.value);
      messageContent := messageContent + [text];
      assert messageContent == [text];
      messageContent := messageContent + [url];
      assert messageContent == [text, url];
    } else {
      userMessage := TextPrompt(r.ingredients, r.userProfile);
    }
    content := if HasImage(r) then Parts(messageContent) else PlainText(userMessage);
  }

  /** Lines 150-151: the text between the first code fence (with an optional
      `json` tag) and the next fence, or the whole content when there is no
      such pair, trimmed either way. */
  function ExtractJson(content: string): string {
    var p := FindFrom(content, "```", 0);
    if p < 0 then Trim(content)
    else
      var s := if StartsWith(content[p + 3..], "json") then p + 7 else p + 3;
      var k := FindFrom(content, "```", s);
      if k < 0 then Trim(content) else Trim(content[s..k])
  }

  /** Without any fence the whole reply is used. */
  lemma NoFence(content: string)
    requires !Contains(content, "```")
    ensures ExtractJson(content) == Trim(content)
  {
    FindFromNone(content, "```", 0);
  }

  lemma NoFenceAt(c: string, j: int)
    requires 0 <= j < |c| && c[j] != '`'
    ensures !OccursAt(c, "```", j)
  {
    if j + 3 <= |c| {
      assert c[j..j + 3][0] == c[j];
    }
  }

  lemma FirstFenceAt(pre: string, rest: string)
    requires '`' !in pre
    ensures FindFrom(pre + "```" + rest, "```", 0) == |pre|
  {
    var c := pre + "```" + rest;
    assert c[|pre|..|pre| + 3] == "```";
    forall j | 0 <= j < |pre|
      ensures !OccursAt(c, "```", j)
    {
      assert c[j] == pre[j];
      NoFenceAt(c, j);
    }
    FindFromFirst(c, "```", 0, |pre|);
  }

  /** `ExtractJson` once the opening fence at `p`, the start `s` of the text
      after it, and the closing fence at `k` are known. */
  lemma ExtractBetween(content: string, p: int, s: int, k: int)
    requires 0 <= p && p + 3 <= |content| && FindFrom(content, "```", 0) == p
    requires s == if StartsWith(content[p + 3..], "json") then p + 7 else p + 3
    requires s <= k <= |content| && FindFrom(content, "```", s) == k
    ensures ExtractJson(content) == Trim(content[s..k])
  {
  }

  /** The opening fence of `pre` + "```json" + `body` + "```" + `post` is at
      `|pre|`, tagged. */
  lemma OpeningJsonFence(pre: string, body: string, post: string)
    requires '`' !in pre
    ensures var c := pre + "```json" + body + "```" + post;
      FindFrom(c, "```", 0) == |pre| && |pre| + 3 <= |c| && StartsWith(c[|pre| + 3..], "json")
  {
    var c := pre + "```json" + body + "```" + post;
    var rest := "json" + body + "```" + post;
    SplitJsonFence(pre, body, post);
    FirstFenceAt(pre, rest);
    assert c[|pre| + 3..][..4] == "json";
  }

  lemma SplitJsonFence(pre: string, body: string, post: string)
    ensures pre + "```json" + body + "```" + post == pre + "```" + ("json" + body + "```" + post)
  {
    var x, j, f := pre + "```", "json", "```";
    assert "```json" == f + j;
    AppendAssoc(pre, f, j);
    AppendAssoc(x, j, body);
    AppendAssoc(x, j + body, f);
    AppendAssoc(x, j + body + f, post);
  }

  /** After the tag, the body of `pre` + "```json" + `body` + "```" + `post`
      runs up to the closing fence. */
  lemma JsonBodyThenFence(pre: string, body: string, post: string)
    requires '`' !in body
    ensures var c := pre + "```json" + body + "```" + post;
      var s := |pre| + 7;
      s + |body| <= |c| && FindFrom(c, "```", s) == s + |body| && c[s..s + |body|] == body
  {
    var c := pre + "```json" + body + "```" + post;
    var s := |pre| + 7;
    assert c[s..] == body + "```" + post;
    ClosingFence(c, s, body, post);
    assert c[s..][..|body|] == body;
  }

  /** A fenced reply `pre` + "```json" + `body` + "```" + `post`, with no
      backtick before the fence or inside the body, yields the trimmed body. */
  lemma FencedJson(pre: string, body: string, post: string)
    requires '`' !in pre && '`' !in body
    ensures ExtractJson(pre + "```json" + body + "```" + post) == Trim(body)
  {
    var c := pre + "```json" + body + "```" + post;
    OpeningJsonFence(pre, body, post);
    JsonBodyThenFence(pre, body, post);
    ExtractBetween(c, |pre|, |pre| + 7, |pre| + 7 + |body|);
  }

  /** The same without the `json` tag, for a body that does not itself start
      with `json`. */
  lemma FencedPlain(pre: string, body: string, post: string)
    requires '`' !in pre && '`' !in body && !StartsWith(body, "json")
    ensures ExtractJson(pre + "```" + body + "```" + post) == Trim(body)
  {
    var c := pre + "```" + body + "```" + post;
    OpeningPlainFence(pre, body, post);
    PlainBodyThenFence(pre, body, post);
    ExtractBetween(c, |pre|, |pre| + 3, |pre| + 3 + |body|);
  }

  /** The opening fence of `pre` + "```" + `body` + "```" + `post` is at
      `|pre|`, untagged when `body` does not start with `json`. */
  lemma OpeningPlainFence(pre: string, body: string, post: string)
    requires '`' !in pre && '`' !in body && !StartsWith(body, "json")
    ensures var c := pre + "```" + body + "```" + post;
      FindFrom(c, "```", 0) == |pre| && |pre| + 3 <= |c| && !StartsWith(c[|pre| + 3..], "json")
  {
    var c := pre + "```" + body + "```" + post;
    var rest := body + "```" + post;
    assert c == pre + "```" + rest;
    FirstFenceAt(pre, rest);
    assert c[|pre| + 3..] == rest;
    NoTagBeforeFence(body, post);
  }

  /** The body of `pre` + "```" + `body` + "```" + `post` runs up to the
      closing fence. */
  lemma PlainBodyThenFence(pre: string, body: string, post: string)
    requires '`' !in body
    ensures var c := pre + "```" + body + "```" + post;
      var s := |pre| + 3;
      s + |body| <= |c| && FindFrom(c, "```", s) == s + |body| && c[s..s + |body|] == body
  {
    var c := pre + "```" + body + "```" + post;
    var s := |pre| + 3;
    assert c[s..] == body + "```" + post;
    ClosingFence(c, s, body, post);
    assert c[s..][..|body|] == body;
  }

  lemma NoTagBeforeFence(body: string, post: string)
    requires '`' !in body && !StartsWith(body, "json")
    ensures !StartsWith(body + "```" + post, "json")
  {
    var t := body + "```" + post;
    if |body| >= 4 {
      assert t[..4] == body[..4];
    } else {
      assert t[|body|] == '`';
      assert "json"[|body|] != '`';
    }
  }

  /** An opening fence that is never closed leaves the whole reply in place. */
  lemma UnclosedFence(pre: string, rest: string)
    requires '`' !in pre && '`' !in rest
    ensures ExtractJson(pre + "```" + rest) == Trim(pre + "```" + rest)
  {
    var c := pre + "```" + rest;
    FirstFenceAt(pre, rest);
    var p := |pre|;
    var s := if StartsWith(c[p + 3..], "json") then p + 7 else p + 3;
    forall j | s <= j
      ensures !OccursAt(c, "```", j)
    {
      if j < |c| {
        assert c[j] == rest[j - p - 3];
        NoFenceAt(c, j);
      }
    }
  }

  lemma ClosingFence(c: string, s: nat, body: string, post: string)
    requires s <= |c| && c[s..] == body + "```" + post && '`' !in body
    ensures FindFrom(c, "```", s) == s + |body|
  {
    var k := s + |body|;
    assert c[k..k + 3] == (body + "```" + post)[|body|..|body| + 3];
    forall j | s <= j < k
      ensures !OccursAt(c, "```", j)
    {
      assert c[j] == body[j - s];
      NoFenceAt(c, j);
    }
    FindFromFirst(c, "```", s, k);
  }

  /** The gateway request lines 95-115 send: exactly two messages, the system
      prompt and then the user turn, whose content is the image request's two
      parts or the text request's string. */
  predicate RequestFor(req: UpstreamRequest, r: AnalyzeRequest, key: string, prompt: string) {
    var m := req.messages;
    |m| == 2 && m[0] == WireMessage("system", PlainText(prompt)) && m[1].role == "user"
    && m[1].content == (if HasImage(r)
         then Parts([TextPart(ImagePrompt(r.userProfile)), ImageUrlPart(r.imageBase64.value)])
         else PlainText(TextPrompt(r.ingredients, r.userProfile)))
    && req.authorization == "Bearer " + key && req.model == Model && req.temperature == Temperature
  }

  method BuildRequest(r: AnalyzeRequest, key: string, prompt: string) returns (req: UpstreamRequest)
    ensures RequestFor(req, r, key, prompt)
  {
    var content := BuildUserContent(r);
    var messages := [WireMessage("system", PlainText(prompt)), WireMessage("user", content)];
    req := UpstreamRequest("Bearer " + key, Model, messages, Temperature);
  }

  /** Lines 117-160, once the gateway call is made: the response for each way
      the call can end. */
  predicate AnswerFor(upstream: Upstream, parses: string -> bool, response: Response) {
    match upstream
    case FetchFailed(e) => response == Failure(500, MessageOr(e, Fallback))
    case Replied(status, reply) =>
      if !IsOk(status) then response == GatewayFailure(status)
      else match reply
        case NotJson(e) => response == Failure(500, MessageOr(e, Fallback))
        case Json(c) =>
          if c.None? || c.value == "" then response == Failure(500, NoContentText)
          else if !parses(ExtractJson(c.value)) then response == Failure(500, ParseFailedText)
          else response == Response(200, JsonHeaders, AnalysisJson(ExtractJson(c.value)))
  }

  /** Success (status 200) exactly when the gateway answered with a success
      status and a non-empty content whose extracted JSON parses; every other
      answer carries one of three error statuses. */
  lemma AnswerStatuses(upstream: Upstream, parses: string -> bool, response: Response)
    requires AnswerFor(upstream, parses, response)
    ensures response.status == 200 <==>
      upstream.Replied? && IsOk(upstream.status) && upstream.reply.Json?
      && upstream.reply.content.Some? && upstream.reply.content.value != ""
      && parses(ExtractJson(upstream.reply.content.value))
    ensures response.status in {200, 402, 429, 500}
    ensures response.status == 200 ==> response.body == AnalysisJson(ExtractJson(upstream.reply.content.value))
  {
    if upstream.Replied? && !IsOk(upstream.status) {
      GatewayFailureIsError(upstream.status);
    }
  }

  method Respond(upstream: Upstream, parses: string -> bool) returns (response: Response)
    ensures AnswerFor(upstream, parses, response)
    ensures !IsOk(response.status) || response.body.AnalysisJson?
  {
    match upstream
    case FetchFailed(e) =>
      response := Failure(500, MessageOr(e, Fallback));
    case Replied(status, reply) =>
      if !IsOk(status) {
        response := GatewayFailure(status);
        GatewayFailureIsError(status);
      } else {
        match reply
        case NotJson(e) =>
          response := Failure(500, MessageOr(e, Fallback));
        case Json(c) =>
          if c.None? || c.value == "" {
            response := Failure(500, NoContentText);
          } else {
            var jsonStr := ExtractJson(c.value);
            if !parses(jsonStr) {
              response := Failure(500, ParseFailedText);
            } else {
              response := Response(200, JsonHeaders, AnalysisJson(jsonStr));
            }
          }
      }
  }

  /** The handler. `prompt` is the fixed system prompt, `upstream` how the
      gateway call ends (consulted only when the call is made) and `parses`
      tells whether `JSON.parse` accepts a text. Returns the gateway request
      made, if any, and the response. */
  method Handle(verb: string, body: Decoded<AnalyzeRequest>, apiKey: Option<string>, prompt: string,
                upstream: Upstream, parses: string -> bool)
    returns (sent: Option<UpstreamRequest>, response: Response)
    ensures verb == "OPTIONS" ==> sent == None && response == Preflight
    ensures verb != "OPTIONS" && body.Malformed? ==>
      sent == None && response == Failure(500, MessageOr(body.error, Fallback))
    ensures verb != "OPTIONS" && body.Decoded? && !HasKey(apiKey) ==>
      sent == None && response == Failure(500, MissingKeyText)
    ensures sent.Some? <==> verb != "OPTIONS" && body.Decoded? && HasKey(apiKey)
    ensures sent.Some? ==> RequestFor(sent.value, body.value, apiKey.value, prompt)
    ensures sent.Some? ==> AnswerFor(upstream, parses, response)
    ensures sent.Some? ==> !IsOk(response.status) || response.body.AnalysisJson?
  {
    if verb == "OPTIONS" {
      return None, Preflight;
    }
    if body.Malformed? {
      return None, Failure(500, MessageOr(body.error, Fallback));
    }
    var r := body.value;
    if !HasKey(apiKey) {
      return None, Failure(500, MissingKeyText);
    }
    var request := BuildRequest(r, apiKey.value, prompt);
    sent := Some(request);
    response := Respond(upstream, parses);
  }
}
