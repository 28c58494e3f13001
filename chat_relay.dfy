/** The `chat-ingredients` edge function (supabase/functions/chat-ingredients/index.ts):
    it answers a pre-flight, checks the API key, renders the analysis context,
    builds the gateway's `messages` list and relays the gateway's streamed
    answer, or maps its failure to an error response. */
module ChatRelay {
  import opened Types
  import opened Strings
  import opened Http

  /** The destructured request body. */
  datatype ChatRequest = ChatRequest(
    message: string,
    ingredients: string,
    analysisContext: AnalysisResult,
    userProfile: Option<PartialProfile>,
    conversationHistory: seq<ChatMessage>)

  /** One `{ role, content }` object of the gateway request. */
  datatype WireMessage = WireMessage(role: string, content: string)

  datatype UpstreamRequest = UpstreamRequest(
    authorization: string,
    model: string,
    messages: seq<WireMessage>,
    stream: bool)

  /** How the gateway call ended: `fetch` rejected, or a status arrived. */
  datatype Upstream = FetchFailed(error: Thrown) | Replied(status: int)

  /** The gateway request sent, if any, and the response returned. */
  datatype Exchange = Exchange(sent: Option<UpstreamRequest>, response: Response)

  const Model := "google/gemini-2.5-flash"
  const Fallback := "Chat failed"

  /** `${i.name} (${i.level})` */
  function IngredientEntry(i: IngredientAnalysis): string {
    i.name + " (" + LevelName(i.level) + ")"
  }

  function IngredientEntries(xs: seq<IngredientAnalysis>): (r: seq<string>)
    ensures |r| == |xs|
    ensures forall k :: 0 <= k < |xs| ==> r[k] == IngredientEntry(xs[k])
    decreases |xs|
  {
    if xs == [] then [] else [IngredientEntry(xs[0])] + IngredientEntries(xs[1..])
  }

  // The fixed pieces of the `contextMessage` template.
  const ContextHeading := "\nCURRENT ANALYSIS CONTEXT:\n- Product Score: "
  const SummaryLabel := ")\n- Summary: "
  const AnalyzedLabel := "\n- Ingredients analyzed: "
  const ContextAllergiesLabel := "\n\nUSER PROFILE:\n- Allergies: "
  const ContextRestrictionsLabel := "\n- Dietary restrictions: "
  const ContextGoalsLabel := "\n- Health goals: "
  const OriginalLabel := "\n\nORIGINAL INGREDIENTS:\n"

  /** The pieces of the `contextMessage` template, in order. */
  function ContextParts(r: ChatRequest): seq<string> {
    var ac := r.analysisContext;
    [ ContextHeading, IntToString(ac.overallScore),
      "/100 (", VerdictName(ac.verdict), SummaryLabel, ac.summary,
      AnalyzedLabel, Join(IngredientEntries(ac.ingredients), ", "),
      ContextAllergiesLabel, JoinOr(ProfileAllergies(r.userProfile), "None"),
      ContextRestrictionsLabel, JoinOr(ProfileRestrictions(r.userProfile), "None"),
      ContextGoalsLabel, JoinOr(ProfileGoals(r.userProfile), "None"),
      OriginalLabel, r.ingredients, "\n" ]
  }

  function RenderContext(r: ChatRequest): string {
    Concat(ContextParts(r))
  }

  /** The context names the product's score and verdict, every analysed
      ingredient as `name (level)`, each profile list (or `None`) and the
      original ingredient text. */
  lemma ContextMentions(r: ChatRequest)
    ensures Contains(RenderContext(r), IntToString(r.analysisContext.overallScore))
    ensures Contains(RenderContext(r), VerdictName(r.analysisContext.verdict))
    ensures Contains(RenderContext(r), r.analysisContext.summary)
    ensures forall k :: 0 <= k < |r.analysisContext.ingredients| ==>
              Contains(RenderContext(r), IngredientEntry(r.analysisContext.ingredients[k]))
    ensures Contains(RenderContext(r), JoinOr(ProfileAllergies(r.userProfile), "None"))
    ensures Contains(RenderContext(r), JoinOr(ProfileRestrictions(r.userProfile), "None"))
    ensures Contains(RenderContext(r), JoinOr(ProfileGoals(r.userProfile), "None"))
    ensures Contains(RenderContext(r), r.ingredients)
  {
    var parts := ContextParts(r);
    ConcatContains(parts, 1);
    ConcatContains(parts, 3);
    ConcatContains(parts, 5);
    ConcatContains(parts, 9);
    ConcatContains(parts, 11);
    ConcatContains(parts, 13);
    ConcatContains(parts, 15);
    forall k | 0 <= k < |r.analysisContext.ingredients|
      ensures Contains(RenderContext(r), IngredientEntry(r.analysisContext.ingredients[k]))
    {
      ContextMentionsEntry(r, k);
    }
  }

  lemma ContextMentionsEntry(r: ChatRequest, k: nat)
    requires k < |r.analysisContext.ingredients|
    ensures Contains(RenderContext(r), IngredientEntry(r.analysisContext.ingredients[k]))
  {
    var parts := ContextParts(r);
    var entries := IngredientEntries(r.analysisContext.ingredients);
    JoinContains(entries, ", ", k);
    ContainsInPrefix(parts[7], Concat(parts[8..]), entries[k]);
    ContainsAppendLeft(Concat(parts[..7]), parts[7] + Concat(parts[8..]), entries[k]);
    ConcatSplit(parts, 7);
    AppendAssoc(Concat(parts[..7]), parts[7], Concat(parts[8..]));
  }

  /** `conversationHistory.map(msg => ({ role: msg.role, content: msg.content }))` */
  function Projected(history: seq<ChatMessage>): (r: seq<WireMessage>)
    ensures |r| == |history|
    ensures forall k :: 0 <= k < |history| ==>
              r[k] == WireMessage(RoleName(history[k].role), history[k].content)
    decreases |history|
  {
    if history == [] then []
    else [WireMessage(RoleName(history[0].role), history[0].content)] + Projected(history[1..])
  }

  /** The `messages` array: the system turn carrying the prompt and the context,
      then the history in order, then the new user message. */
  function UpstreamMessages(r: ChatRequest, prompt: string): (m: seq<WireMessage>)
    ensures |m| == |r.conversationHistory| + 2
    ensures m[0] == WireMessage("system", prompt + "\n\n" + RenderContext(r))
    ensures forall k :: 0 <= k < |r.conversationHistory| ==>
              m[k + 1] == WireMessage(RoleName(r.conversationHistory[k].role), r.conversationHistory[k].content)
    ensures m[|m| - 1] == WireMessage("user", r.message)
  {
    [WireMessage("system", prompt + "\n\n" + RenderContext(r))]
      + Projected(r.conversationHistory)
      + [WireMessage("user", r.message)]
  }

  function BuildRequest(r: ChatRequest, key: string, prompt: string): UpstreamRequest {
    UpstreamRequest("Bearer " + key, Model, UpstreamMessages(r, prompt), true)
  }

  const StreamHeaders: seq<Header> := CorsHeaders + [Header("Content-Type", "text/event-stream")]

  /** The request handler. `prompt` is the fixed system prompt; `upstream` is
      how the gateway call ends, and is consulted only when a call is made. */
  function Handle(verb: string, body: Decoded<ChatRequest>, apiKey: Option<string>,
                  prompt: string, upstream: Upstream): Exchange
  {
    if verb == "OPTIONS" then Exchange(None, Preflight)
    else match body
      case Malformed(e) => Exchange(None, Failure(500, MessageOr(e, Fallback)))
      case Decoded(r) =>
        if !HasKey(apiKey) then Exchange(None, Failure(500, MissingKeyText))
        else
          var sent := Some(BuildRequest(r, apiKey.value, prompt));
          match upstream
          case FetchFailed(e) => Exchange(sent, Failure(500, MessageOr(e, Fallback)))
          case Replied(status) =>
            if !IsOk(status) then Exchange(sent, GatewayFailure(status))
            else Exchange(sent, Response(200, StreamHeaders, UpstreamStream))
  }

  /** A pre-flight is answered with no body and the CORS headers, and nothing
      else happens. */
  lemma PreflightDoesNothing(body: Decoded<ChatRequest>, apiKey: Option<string>, prompt: string, upstream: Upstream)
    ensures Handle("OPTIONS", body, apiKey, prompt, upstream) == Exchange(None, Preflight)
  {
  }

  /** The body is read before the key is checked; without a key no gateway
      call is made and the answer is a 500 naming the missing variable. */
  lemma MissingKeyFails(verb: string, body: Decoded<ChatRequest>, apiKey: Option<string>, prompt: string, upstream: Upstream)
    requires verb != "OPTIONS" && !HasKey(apiKey)
    ensures var x := Handle(verb, body, apiKey, prompt, upstream);
      x.sent == None
      && (body.Decoded? ==> x.response == Failure(500, MissingKeyText))
      && (body.Malformed? ==> x.response == Failure(500, MessageOr(body.error, Fallback)))
  {
  }

  /** A gateway call is made exactly for a non-pre-flight request with a
      readable body and a key; it carries the key, the fixed model and
      `stream: true`. */
  lemma CallOnlyWithKey(verb: string, body: Decoded<ChatRequest>, apiKey: Option<string>, prompt: string, upstream: Upstream)
    ensures var x := Handle(verb, body, apiKey, prompt, upstream);
      x.sent.Some? <==> verb != "OPTIONS" && body.Decoded? && HasKey(apiKey)
    ensures var x := Handle(verb, body, apiKey, prompt, upstream);
      x.sent.Some? ==>
        x.sent.value.authorization == "Bearer " + apiKey.value && x.sent.value.model == Model
        && x.sent.value.stream && x.sent.value.messages == UpstreamMessages(body.value, prompt)
  {
  }

  /** The gateway's status decides the answer: a success relays the event
      stream untouched with status 200; 429 and 402 keep their status with
      fixed texts; anything else, and a rejected fetch, is a 500. */
  lemma UpstreamDecides(verb: string, r: ChatRequest, key: string, prompt: string, upstream: Upstream)
    requires verb != "OPTIONS" && key != ""
    ensures var resp := Handle(verb, Decoded(r), Some(key), prompt, upstream).response;
      (resp.body == UpstreamStream <==> upstream.Replied? && IsOk(upstream.status))
      && (resp.body == UpstreamStream ==> resp.status == 200 && resp.headers == StreamHeaders)
      && (upstream.Replied? && upstream.status == 429 ==> resp == Failure(429, RateLimitText))
      && (upstream.Replied? && upstream.status == 402 ==> resp == Failure(402, UsageLimitText))
      && (upstream.Replied? && !IsOk(upstream.status) && upstream.status != 429 && upstream.status != 402
          ==> resp == Failure(500, "AI Gateway error: " + IntToString(upstream.status)))
      && (upstream.FetchFailed? ==> resp == Failure(500, MessageOr(upstream.error, Fallback)))
  {
  }

  /** Every answer apart from a relayed stream and a pre-flight is a JSON error
      with an error status. */
  lemma ErrorsAreJson(verb: string, body: Decoded<ChatRequest>, apiKey: Option<string>, prompt: string, upstream: Upstream)
    ensures var resp := Handle(verb, body, apiKey, prompt, upstream).response;
      resp != Preflight && resp.body != UpstreamStream ==>
        resp.body.ErrorJson? && resp.headers == JsonHeaders && !IsOk(resp.status)
  {
    if verb != "OPTIONS" && body.Decoded? && HasKey(apiKey) && upstream.Replied? && !IsOk(upstream.status) {
      GatewayFailureIsError(upstream.status);
    }
  }
}
