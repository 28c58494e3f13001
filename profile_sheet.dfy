/** The health-profile editor (src/components/nutriscan/ProfileSheet.tsx): three
    tag inputs, one per profile list, each adding a typed or suggested item and
    removing a listed one through a partial profile update. */
module ProfileSheet {
  import opened Types
  import opened Strings
  import opened Lists

  const CommonAllergies: seq<string> :=
    ["Peanuts", "Tree nuts", "Milk", "Eggs", "Wheat", "Soy", "Fish", "Shellfish", "Sesame"]
  const CommonDiets: seq<string> :=
    ["Vegan", "Vegetarian", "Keto", "Paleo", "Gluten-free", "Dairy-free", "Low sodium", "Low sugar"]
  const CommonGoals: seq<string> :=
    ["Weight loss", "Muscle gain", "Heart health", "Blood sugar control", "Reduce inflammation", "Clean eating"]

  const ShownSuggestionCount := 6

  /** The three tag inputs of the sheet. */
  datatype Field = Allergies | DietaryRestrictions | HealthGoals

  function Items(p: UserProfile, f: Field): seq<string> {
    match f
    case Allergies => p.allergies
    case DietaryRestrictions => p.dietaryRestrictions
    case HealthGoals => p.healthGoals
  }

  function Suggestions(f: Field): seq<string> {
    match f
    case Allergies => CommonAllergies
    case DietaryRestrictions => CommonDiets
    case HealthGoals => CommonGoals
  }

  /** `availableSuggestions.slice(0, 6)`: the suggestions not yet listed, in
      their own order, at most six of them. */
  function ShownSuggestions(suggestions: seq<string>, items: seq<string>): (r: seq<string>)
    ensures |r| == if |Without(suggestions, items)| < ShownSuggestionCount then |Without(suggestions, items)| else ShownSuggestionCount
    ensures forall s :: s in r ==> s in suggestions && s !in items
    ensures |r| <= |Without(suggestions, items)| && r == Without(suggestions, items)[..|r|]
    ensures |Without(suggestions, items)| <= ShownSuggestionCount ==> r == Without(suggestions, items)
  {
    Take(Without(suggestions, items), ShownSuggestionCount)
  }

  /** A suggestion clicked is never already listed, so adding it keeps the list
      free of duplicates. */
  lemma SuggestionIsNew(p: UserProfile, f: Field, s: string)
    requires s in ShownSuggestions(Suggestions(f), Items(p, f))
    requires NoDup(Items(p, f))
    ensures s !in Items(p, f)
    ensures NoDup(Items(p, f) + [s])
  {
    AppendKeepsNoDup(Items(p, f), s);
  }

  /** `{ [field]: value }`: a partial profile setting one list only. */
  function Only(f: Field, value: seq<string>): PartialProfile {
    match f
    case Allergies => PartialProfile(Some(value), None, None)
    case DietaryRestrictions => PartialProfile(None, Some(value), None)
    case HealthGoals => PartialProfile(None, None, Some(value))
  }

  /** The field of a partial profile. */
  function FieldOf(u: PartialProfile, f: Field): Option<seq<string>> {
    match f
    case Allergies => u.allergies
    case DietaryRestrictions => u.dietaryRestrictions
    case HealthGoals => u.healthGoals
  }

  /** `onAdd(item)`: `{ field: [...profile.field, item] }` */
  function AddUpdate(p: UserProfile, f: Field, item: string): (u: PartialProfile)
    ensures FieldOf(u, f) == Some(Items(p, f) + [item])
    ensures forall g :: g != f ==> FieldOf(u, g) == None
  {
    Only(f, Items(p, f) + [item])
  }

  /** `onRemove(item)`: `{ field: profile.field.filter(x => x !== item) }` */
  function RemoveUpdate(p: UserProfile, f: Field, item: string): (u: PartialProfile)
    ensures FieldOf(u, f).Some?
    ensures forall g :: g != f ==> FieldOf(u, g) == None
  {
    Only(f, RemoveAll(Items(p, f), item))
  }

  /** The removal update drops every occurrence of the item from its list and
      keeps every other item, as often as it occurred, in the same order. */
  lemma RemoveUpdateContents(p: UserProfile, f: Field, item: string, before: seq<string>, after: seq<string>)
    requires Items(p, f) == before + after
    ensures var v := FieldOf(RemoveUpdate(p, f, item), f).value;
      item !in v
      && multiset(v) == multiset(Items(p, f))[item := 0]
      && v == RemoveAll(before, item) + RemoveAll(after, item)
  {
    RemoveAllCounts(Items(p, f), item);
    RemoveAllAppend(before, after, item);
  }

  /** The text field of one tag input. */
  class TagInput {
    var inputValue: string

    constructor ()
      ensures inputValue == ""
    {
      inputValue := "";
    }

    /** `onChange` of the text field. */
    method SetInput(v: string)
      modifies this
      ensures inputValue == v
    {
      inputValue := v;
    }

    /** `handleAdd` with the list's current `items`: returns what it passes to
        `onAdd`, and clears the field only when it adds something. */
    method HandleAdd(items: seq<string>) returns (added: Option<string>)
      modifies this
      ensures added == TypedItem(old(inputValue), items)
      ensures added.Some? ==> inputValue == ""
      ensures added.None? ==> inputValue == old(inputValue)
    {
      var t := Trim(inputValue);
      if t != "" && t !in items {
        added := Some(t);
        inputValue := "";
      } else {
        added := None;
      }
    }
  }
}
