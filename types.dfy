/** The application's shared data types (src/types/nutriscan.ts), with the string
    literals of the TypeScript unions as they travel in JSON. */
module Types {

  datatype Option<+T> = None | Some(value: T)

  /** `HealthLevel`: the four ratings an ingredient can get. */
  datatype HealthLevel = Safe | Caution | Warning | Danger

  /** The verdict union of `AnalysisResult`. */
  datatype Verdict = Great | Good | CautionVerdict | Avoid

  const AllLevels: seq<HealthLevel> := [Safe, Caution, Warning, Danger]
  const AllVerdicts: seq<Verdict> := [Great, Good, CautionVerdict, Avoid]

  /** The JSON spelling of a level. */
  function LevelName(l: HealthLevel): string {
    match l
    case Safe => "safe"
    case Caution => "caution"
    case Warning => "warning"
    case Danger => "danger"
  }

  /** Reads a JSON level string; anything outside the union is rejected. */
  function ParseLevel(s: string): (r: Option<HealthLevel>)
    ensures r.Some? ==> LevelName(r.value) == s
    ensures (exists l :: LevelName(l) == s) ==> r.Some?
  {
    if s == "safe" then Some(Safe)
    else if s == "caution" then Some(Caution)
    else if s == "warning" then Some(Warning)
    else if s == "danger" then Some(Danger)
    else None
  }

  /** The JSON spelling of a verdict. */
  function VerdictName(v: Verdict): string {
    match v
    case Great => "Great"
    case Good => "Good"
    case CautionVerdict => "Caution"
    case Avoid => "Avoid"
  }

  function ParseVerdict(s: string): (r: Option<Verdict>)
    ensures r.Some? ==> VerdictName(r.value) == s
    ensures (exists v :: VerdictName(v) == s) ==> r.Some?
  {
    if s == "Great" then Some(Great)
    else if s == "Good" then Some(Good)
    else if s == "Caution" then Some(CautionVerdict)
    else if s == "Avoid" then Some(Avoid)
    else None
  }

  lemma LevelNameRoundTrip(l: HealthLevel)
    ensures ParseLevel(LevelName(l)) == Some(l)
  {
  }

  lemma VerdictNameRoundTrip(v: Verdict)
    ensures ParseVerdict(VerdictName(v)) == Some(v)
  {
  }

  /** Both unions have exactly four members, all listed once. */
  lemma UnionsHaveFourMembers()
    ensures |AllLevels| == 4 && forall l: HealthLevel :: l in AllLevels
    ensures forall i, j :: 0 <= i < j < 4 ==> AllLevels[i] != AllLevels[j]
    ensures |AllVerdicts| == 4 && forall v: Verdict :: v in AllVerdicts
    ensures forall i, j :: 0 <= i < j < 4 ==> AllVerdicts[i] != AllVerdicts[j]
  {
    forall l: HealthLevel ensures l in AllLevels {
      assert l == AllLevels[match l case Safe => 0 case Caution => 1 case Warning => 2 case Danger => 3];
    }
    forall v: Verdict ensures v in AllVerdicts {
      assert v == AllVerdicts[match v case Great => 0 case Good => 1 case CautionVerdict => 2 case Avoid => 3];
    }
  }

  /** `IngredientAnalysis`; the two optional fields are `Option`s. */
  datatype IngredientAnalysis = IngredientAnalysis(
    name: string,
    level: HealthLevel,
    description: string,
    reasoning: string,
    scientificContext: Option<string>,
    uncertaintyNote: Option<string>)

  /** `AnalysisResult`. The score is documented as 0-100 but nothing enforces it,
      so it is an unconstrained integer; `ScoreInRange` names the documented range. */
  datatype AnalysisResult = AnalysisResult(
    overallScore: int,
    verdict: Verdict,
    summary: string,
    ingredients: seq<IngredientAnalysis>,
    personalizedAlerts: seq<string>)

  predicate ScoreInRange(r: AnalysisResult) {
    0 <= r.overallScore <= 100
  }

  datatype UserProfile = UserProfile(
    allergies: seq<string>,
    dietaryRestrictions: seq<string>,
    healthGoals: seq<string>)

  /** `Partial<UserProfile>`: a field that is `None` is absent from the object. */
  datatype PartialProfile = PartialProfile(
    allergies: Option<seq<string>>,
    dietaryRestrictions: Option<seq<string>>,
    healthGoals: Option<seq<string>>)

  /** A complete profile seen as an object whose three keys are all present. */
  function AsPartial(p: UserProfile): PartialProfile {
    PartialProfile(Some(p.allergies), Some(p.dietaryRestrictions), Some(p.healthGoals))
  }

  datatype Role = User | Assistant

  function RoleName(r: Role): string {
    match r
    case User => "user"
    case Assistant => "assistant"
  }

  /** `ChatMessage` without its `id` and `timestamp`, which come from the clock. */
  datatype ChatMessage = ChatMessage(role: Role, content: string)

  /** `ScanHistoryItem`. */
  datatype ScanHistoryItem = ScanHistoryItem(
    id: string,
    inputLabel: string,
    result: AnalysisResult,
    scannedAt: string)

  /** A value caught by a `catch`: an `Error` with its message, or anything
      else that was thrown. */
  datatype Thrown = Raised(message: string) | NotAnError

  /** `error instanceof Error ? error.message : fallback` */
  function MessageOr(t: Thrown, fallback: string): (m: string)
    ensures t.Raised? ==> m == t.message
    ensures t.NotAnError? ==> m == fallback
  {
    match t
    case Raised(msg) => msg
    case NotAnError => fallback
  }
}
