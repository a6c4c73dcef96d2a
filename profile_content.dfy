/** The profile card (src/components/profile/ProfileContent.tsx): it shows the
    profile being edited, else the stored one, else an anonymous default; it
    switches between viewing and editing, persists the edited profile on
    save, and awards two badges by threshold. */
module ProfileContent {
  import opened Common
  import opened LocalLibrary

  const DefaultProfile: UserProfile := UserProfile("Anonymous User", None, 0, 0, 0)

  /** The profile kept in the browser library, if one is stored. */
  function StoredProfile(store: Storage): (p: Option<UserProfile>)
    reads store
    ensures p.Some? ==> store.hasWindow && StorageKey("profile") in store.items
  {
    match store.GetFromStorage("profile", ResourceList([]))
    case Profile(profile) => Some(profile)
    case _ => None
  }

  datatype Badge = StreakBadge | FlashcardBadge

  const StreakThreshold: int := 5
  const FlashcardThreshold: int := 40

  /** The achievements shown for a profile, in display order. */
  function Badges(p: UserProfile): (bs: seq<Badge>)
  {
    (if p.streak >= StreakThreshold then [StreakBadge] else [])
    + (if p.flashcardsMastered >= FlashcardThreshold then [FlashcardBadge] else [])
  }

  /** "5 Day Streak" shows exactly from a streak of five days, "Flashcard
      Master" exactly from forty mastered cards, each at most once and the
      streak badge first. */
  lemma BadgesProperties(p: UserProfile)
    ensures StreakBadge in Badges(p) <==> p.streak >= 5
    ensures FlashcardBadge in Badges(p) <==> p.flashcardsMastered >= 40
    ensures NoDuplicates(Badges(p))
    ensures |Badges(p)| == 2 ==> Badges(p) == [StreakBadge, FlashcardBadge]
  {
  }

  /** The sample profile earns both badges; the default earns none. */
  lemma BadgeExamples()
    ensures Badges(MockProfile) == [StreakBadge, FlashcardBadge]
    ensures Badges(DefaultProfile) == []
  {
  }

  class ProfileView {
    var isEditing: bool
    var editedProfile: Option<UserProfile>
    const store: Storage
    /** The profiles handed to `onUpdate`, in order. */
    var updates: seq<UserProfile>

    /** `profile`: the edited profile, else the stored one, else the default. */
    function Displayed(): UserProfile
      reads this, store
    {
      if editedProfile.Some? then editedProfile.value
      else if StoredProfile(store).Some? then StoredProfile(store).value
      else DefaultProfile
    }

    constructor(store: Storage)
      ensures this.store == store && !isEditing && editedProfile.None? && updates == []
      ensures Displayed() == if StoredProfile(store).Some? then StoredProfile(store).value else DefaultProfile
    {
      this.store := store;
      isEditing, editedProfile, updates := false, None, [];
    }

    /** `handleEdit`: the shown profile becomes the edited copy, so the card
        keeps showing the same profile, now in edit mode. */
    method Edit()
      modifies this
      ensures editedProfile == Some(old(Displayed())) && isEditing
      ensures Displayed() == old(Displayed())
      ensures updates == old(updates)
    {
      editedProfile := Some(Displayed());
      isEditing := true;
    }

    /** Typing in the name field: only the edited profile's name changes,
        and only while there is an edited profile. */
    method SetName(name: string)
      modifies this
      ensures old(editedProfile).Some? ==> editedProfile == Some(old(editedProfile).value.(name := name))
      ensures old(editedProfile).None? ==> editedProfile.None?
      ensures isEditing == old(isEditing) && updates == old(updates)
    {
      if editedProfile.Some? {
        editedProfile := Some(editedProfile.value.(name := name));
      }
    }

    /** `handleSave`: an edited profile is stored and reported to `onUpdate`;
        then edit mode ends and the copy is dropped, so that (with a browser
        window) the card shows exactly what was saved. */
    method Save()
      modifies this, store
      ensures !isEditing && editedProfile.None?
      ensures old(editedProfile).Some? ==> updates == old(updates) + [old(editedProfile).value]
      ensures old(editedProfile).Some? && store.hasWindow ==> Displayed() == old(editedProfile).value
      ensures old(editedProfile).Some? ==> forall k, d :: k != "profile" ==>
        store.GetFromStorage(k, d) == old(store.GetFromStorage(k, d))
      ensures old(editedProfile).None? ==> updates == old(updates) && store.items == old(store.items)
    {
      if editedProfile.Some? {
        var p := editedProfile.value;
        store.SetToStorage("profile", Profile(p));
        updates := updates + [p];
      }
      isEditing := false;
      editedProfile := None;
    }

    /** `handleCancel`: edit mode ends and the copy is dropped without
        storing anything, so the card falls back to the stored profile. */
    method Cancel()
      modifies this
      ensures !isEditing && editedProfile.None? && updates == old(updates)
      ensures Displayed() == if StoredProfile(store).Some? then StoredProfile(store).value else DefaultProfile
    {
      isEditing := false;
      editedProfile := None;
    }
  }
}
