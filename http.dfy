/** What the two edge functions (supabase/functions/chat-ingredients and
    supabase/functions/analyze-ingredients) have in common: the CORS headers,
    the pre-flight answer, the API-key test and the mapping of a failed AI
    gateway status to an error response. */
module Http {
  import opened Types
  import opened Strings

  datatype Header = Header(name: string, value: string)

  const CorsHeaders: seq<Header> := [
    Header("Access-Control-Allow-Origin", "*"),
    Header("Access-Control-Allow-Headers", "authorization, x-client-info, apikey, content-type")
  ]

  const JsonHeaders: seq<Header> := CorsHeaders + [Header("Content-Type", "application/json")]

  /** The kinds of body a handler answers with. */
  datatype Body =
    | NoBody                     // `new Response(null, ...)`
    | ErrorJson(error: string)   // `JSON.stringify({ error })`
    | UpstreamStream             // the gateway's response body, passed on untouched
    | AnalysisJson(json: string) // `JSON.stringify(JSON.parse(json))`

  datatype Response = Response(status: int, headers: seq<Header>, body: Body)

  /** `Response.ok` */
  predicate IsOk(status: int) {
    200 <= status <= 299
  }

  /** The answer to a CORS pre-flight: no body, CORS headers, the default status. */
  const Preflight := Response(200, CorsHeaders, NoBody)

  function Failure(status: int, message: string): Response {
    Response(status, JsonHeaders, ErrorJson(message))
  }

  const RateLimitText := "Rate limit exceeded. Please try again later."
  const UsageLimitText := "AI usage limit reached. Please try again later."
  const MissingKeyText := "LOVABLE_API_KEY is not configured"

  /** `!LOVABLE_API_KEY` is false: the variable is set and not empty. */
  predicate HasKey(key: Option<string>) {
    key.Some? && key.value != ""
  }

  /** The request body, once `await req.json()` has run: the destructured
      fields, or what it threw. */
  datatype Decoded<T> = Decoded(value: T) | Malformed(error: Thrown)

  /** The `!response.ok` branch: 429 and 402 are answered with their own status
      and a fixed text; any other status throws `AI Gateway error: <status>`,
      which the handler's `catch` turns into a 500. */
  function GatewayFailure(status: int): (r: Response)
    ensures r.headers == JsonHeaders && r.body.ErrorJson?
    ensures status == 429 ==> r == Failure(429, RateLimitText)
    ensures status == 402 ==> r == Failure(402, UsageLimitText)
    ensures status != 429 && status != 402 ==> r == Failure(500, "AI Gateway error: " + IntToString(status))
  {
    if status == 429 then Failure(429, RateLimitText)
    else if status == 402 then Failure(402, UsageLimitText)
    else Failure(500, "AI Gateway error: " + IntToString(status))
  }

  /** A failed gateway call never answers with a success status, and only the
      two quota statuses are passed on to the caller. */
  lemma GatewayFailureIsError(status: int)
    ensures !IsOk(GatewayFailure(status).status)
    ensures GatewayFailure(status).status in {429, 402, 500}
    ensures GatewayFailure(status).status == status <==> status in {429, 402, 500}
  {
  }

  /** `list?.join(', ') || fallback`: the fallback when the list is missing or
      joins to the empty string. */
  function JoinOr(list: Option<seq<string>>, fallback: string): string {
    if list.None? || Join(list.value, ", ") == "" then fallback else Join(list.value, ", ")
  }

  /** The fallback is used exactly for a missing list, an empty list and a list
      holding one empty string. */
  lemma JoinOrFallback(list: Option<seq<string>>, fallback: string)
    ensures JoinOr(list, fallback)
         == if list.None? || list.value == [] || list.value == [""] then fallback else Join(list.value, ", ")
  {
    if list.Some? {
      JoinEmpty(list.value, ", ");
    }
  }

  /** `userProfile?.allergies` and its two siblings. */
  function ProfileAllergies(p: Option<PartialProfile>): Option<seq<string>> {
    if p.None? then None else p.value.allergies
  }

  function ProfileRestrictions(p: Option<PartialProfile>): Option<seq<string>> {
    if p.None? then None else p.value.dietaryRestrictions
  }

  function ProfileGoals(p: Option<PartialProfile>): Option<seq<string>> {
    if p.None? then None else p.value.healthGoals
  }
}
