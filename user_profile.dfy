/** The locally kept health profile of `useUserProfile`
    (src/hooks/useUserProfile.ts): a profile held in state and mirrored in
    browser storage under one key. `encode` and `parse` stand for
    `JSON.stringify` and `JSON.parse`. */
module UserProfileStore {
  import opened Types
  import ProfileSheet

  const StorageKey := "nutriscan-user-profile"
  const DefaultProfile := UserProfile([], [], [])

  /** `{ ...profile, ...updates }`: each list present in the update replaces
      the profile's, the others stay. */
  function Merge(p: UserProfile, u: PartialProfile): (r: UserProfile)
    ensures r.allergies == (if u.allergies.Some? then u.allergies.value else p.allergies)
    ensures r.dietaryRestrictions == (if u.dietaryRestrictions.Some? then u.dietaryRestrictions.value else p.dietaryRestrictions)
    ensures r.healthGoals == (if u.healthGoals.Some? then u.healthGoals.value else p.healthGoals)
  {
    UserProfile(
      if u.allergies.Some? then u.allergies.value else p.allergies,
      if u.dietaryRestrictions.Some? then u.dietaryRestrictions.value else p.dietaryRestrictions,
      if u.healthGoals.Some? then u.healthGoals.value else p.healthGoals)
  }

  /** A full update replaces the profile, an empty one keeps it, and applying
      the same update twice is the same as applying it once. */
  lemma MergeLaws(p: UserProfile, q: UserProfile, u: PartialProfile)
    ensures Merge(p, AsPartial(q)) == q
    ensures Merge(p, PartialProfile(None, None, None)) == p
    ensures Merge(Merge(p, u), u) == Merge(p, u)
  {
  }

  /** An edit made in the profile sheet changes its own list and no other. */
  lemma SheetEditChangesOneList(p: UserProfile, f: ProfileSheet.Field, item: string, g: ProfileSheet.Field)
    ensures ProfileSheet.Items(Merge(p, ProfileSheet.AddUpdate(p, f, item)), f) == ProfileSheet.Items(p, f) + [item]
    ensures g != f ==> ProfileSheet.Items(Merge(p, ProfileSheet.AddUpdate(p, f, item)), g) == ProfileSheet.Items(p, g)
    ensures g != f ==> ProfileSheet.Items(Merge(p, ProfileSheet.RemoveUpdate(p, f, item)), g) == ProfileSheet.Items(p, g)
  {
  }

  /** The profile the load effect ends with: the stored entry's parse when
      there is a non-empty entry that parses, otherwise the current one. */
  function Loaded(storage: map<string, string>, parse: string -> Option<UserProfile>, current: UserProfile): UserProfile {
    if StorageKey in storage && storage[StorageKey] != "" && parse(storage[StorageKey]).Some?
    then parse(storage[StorageKey]).value
    else current
  }

  /** What was stored comes back on the next load, when the encoding reads
      back; after a clear, the next load keeps the default. */
  lemma StorageRoundTrip(storage: map<string, string>, p: UserProfile,
                         encode: UserProfile -> string, parse: string -> Option<UserProfile>)
    requires encode(p) != "" && parse(encode(p)) == Some(p)
    ensures Loaded(storage[StorageKey := encode(p)], parse, DefaultProfile) == p
    ensures Loaded(storage - {StorageKey}, parse, DefaultProfile) == DefaultProfile
  {
  }

  class ProfileStore {
    var profile: UserProfile
    var isLoaded: bool
    /** Browser storage, key to text. */
    var storage: map<string, string>

    constructor (storage: map<string, string>)
      ensures profile == DefaultProfile && !isLoaded && this.storage == storage
    {
      profile := DefaultProfile;
      isLoaded := false;
      this.storage := storage;
    }

    /** The mount effect (lines 16-26). */
    method Load(parse: string -> Option<UserProfile>)
      modifies this
      ensures profile == Loaded(old(storage), parse, old(profile)) && isLoaded
      ensures storage == old(storage)
    {
      if StorageKey in storage && storage[StorageKey] != "" {
        var parsed := parse(storage[StorageKey]);
        if parsed.Some? {
          profile := parsed.value;
        }
      }
      isLoaded := true;
    }

    /** `updateProfile(updates)` */
    method UpdateProfile(updates: PartialProfile, encode: UserProfile -> string)
      modifies this
      ensures profile == Merge(old(profile), updates)
      ensures storage == old(storage)[StorageKey := encode(profile)]
      ensures isLoaded == old(isLoaded)
    {
      var newProfile := Merge(profile, updates);
      profile := newProfile;
      storage := storage[StorageKey := encode(newProfile)];
    }

    /** `clearProfile` */
    method ClearProfile()
      modifies this
      ensures profile == DefaultProfile && storage == old(storage) - {StorageKey}
      ensures isLoaded == old(isLoaded)
    {
      profile := DefaultProfile;
      storage := storage - {StorageKey};
    }
  }
}
