/**
 * The profile page's editor: a read-only profile, a staged copy that edit
 * mode changes, the pending interest text, and the transitions between
 * viewing and editing. Store reads and writes appear only through their
 * outcomes.
 */
module Profile {
  import opened Wrappers
  import opened Text
  import opened Seqs

  /** What the page shows and edits. */
  datatype Profile = Profile(name: string, email: string, bio: string, interests: seq<string>)

  /** The signed-in user: id, e-mail and the full name from the sign-up metadata. */
  datatype User = User(id: string, email: Option<string>, fullName: Option<string>)

  /** A profile row as read from the store; any column may be empty. */
  datatype ProfileRow = ProfileRow(
    fullName: Option<string>,
    email: Option<string>,
    bio: Option<string>,
    interests: Option<seq<string>>)

  /** A profile row the page writes (timestamps left out). */
  datatype StoredRow = StoredRow(
    id: string,
    userId: string,
    email: string,
    fullName: string,
    bio: string,
    interests: seq<string>)

  const DefaultName: string := "Student"
  const DefaultBio: string := "STEM enthusiast looking to explore new opportunities."
  const DefaultInterests: seq<string> := ["Computer Science", "Mathematics", "Robotics"]

  /**
   * The profile fields `handleChange` can set by an input's `name`. The
   * handler is generic; the page wires only the bio textarea to it.
   */
  datatype Field = NameField | EmailField | BioField

  function FieldValue(p: Profile, field: Field): string
  {
    match field
    case NameField => p.name
    case EmailField => p.email
    case BioField => p.bio
  }

  function UserFullName(user: Option<User>): Option<string>
  {
    if user.Some? then user.value.fullName else None
  }

  function UserEmail(user: Option<User>): Option<string>
  {
    if user.Some? then user.value.email else None
  }

  /** The profile before anything is read: the user's name or "Student", the user's e-mail, default bio and interests. */
  function DefaultProfile(user: Option<User>): (p: Profile)
    ensures p.bio == DefaultBio && p.interests == DefaultInterests
    ensures p.name != ""
    ensures user.None? ==> p.name == DefaultName && p.email == ""
    ensures user.Some? && user.value.fullName.Some? && user.value.fullName.value != "" ==>
      p.name == user.value.fullName.value
    ensures user.Some? && OrElse(user.value.fullName, "") == "" ==> p.name == DefaultName
    ensures user.Some? && user.value.email.Some? ==> p.email == user.value.email.value
    ensures user.Some? && user.value.email.None? ==> p.email == ""
  {
    Profile(OrElse(UserFullName(user), DefaultName), OrElse(UserEmail(user), ""), DefaultBio, DefaultInterests)
  }

  /**
   * The profile shown for a row that was read: the metadata name wins over
   * the row's name; an empty bio falls back to the default, but an empty
   * interest list is kept as it is.
   */
  function ProfileFromRow(user: User, row: ProfileRow): (p: Profile)
    ensures p.name != "" && p.bio != ""
    ensures user.fullName.Some? && user.fullName.value != "" ==> p.name == user.fullName.value
    ensures OrElse(user.fullName, "") == "" && row.fullName.Some? && row.fullName.value != "" ==>
      p.name == row.fullName.value
    ensures OrElse(user.fullName, "") == "" && OrElse(row.fullName, "") == "" ==> p.name == DefaultName
    ensures user.email.Some? && user.email.value != "" ==> p.email == user.email.value
    ensures OrElse(user.email, "") == "" && row.email.Some? && row.email.value != "" ==>
      p.email == row.email.value
    ensures OrElse(user.email, "") == "" && OrElse(row.email, "") == "" ==> p.email == ""
    ensures row.bio.Some? && row.bio.value != "" ==> p.bio == row.bio.value
    ensures OrElse(row.bio, "") == "" ==> p.bio == DefaultBio
    ensures row.interests.Some? ==> p.interests == row.interests.value
    ensures row.interests.None? ==> p.interests == DefaultInterests
  {
    Profile(
      OrElse(user.fullName, OrElse(row.fullName, DefaultName)),
      OrElse(user.email, OrElse(row.email, "")),
      OrElse(row.bio, DefaultBio),
      row.interests.GetOr(DefaultInterests))
  }

  /** The row created for a user who has none yet. */
  function NewRow(user: User): (r: StoredRow)
    ensures r.id == user.id && r.userId == user.id
    ensures r.bio == DefaultBio && r.interests == DefaultInterests && |r.interests| == 3
    ensures r.fullName == DefaultProfile(Some(user)).name && r.email == DefaultProfile(Some(user)).email
  {
    StoredRow(user.id, user.id, OrElse(user.email, ""), OrElse(user.fullName, DefaultName), DefaultBio, DefaultInterests)
  }

  /** The row a save upserts: the staged bio and interests, but the name from the user's metadata. */
  function UpsertPayload(user: User, staged: Profile): (r: StoredRow)
    ensures r.id == user.id && r.userId == user.id
    ensures r.bio == staged.bio && r.interests == staged.interests
    ensures r.fullName == DefaultProfile(Some(user)).name && r.email == DefaultProfile(Some(user)).email
  {
    StoredRow(user.id, user.id, OrElse(user.email, ""), OrElse(user.fullName, DefaultName), staged.bio, staged.interests)
  }

  /** A written row as a later read returns it. */
  function AsRead(r: StoredRow): ProfileRow
  {
    ProfileRow(Some(r.fullName), Some(r.email), Some(r.bio), Some(r.interests))
  }

  /** Reading back the row created for a new user shows exactly the default profile. */
  lemma CreatedRowLoadsAsDefault(user: User)
    ensures ProfileFromRow(user, AsRead(NewRow(user))) == DefaultProfile(Some(user))
  {
  }

  /**
   * Reading back a saved row restores the staged interests and a non-empty
   * staged bio; an empty bio comes back as the default, and an edited name
   * is not stored at all.
   */
  lemma SavedRowLoadsBack(user: User, staged: Profile)
    ensures ProfileFromRow(user, AsRead(UpsertPayload(user, staged))).interests == staged.interests
    ensures staged.bio != "" ==> ProfileFromRow(user, AsRead(UpsertPayload(user, staged))).bio == staged.bio
    ensures staged.bio == "" ==> ProfileFromRow(user, AsRead(UpsertPayload(user, staged))).bio == DefaultBio
    ensures ProfileFromRow(user, AsRead(UpsertPayload(user, staged))).name == DefaultProfile(Some(user)).name
  {
  }

  /** What reading the user's row gave: the row, no row (and whether creating one succeeded), or an error. */
  datatype LoadOutcome = RowFound(row: ProfileRow) | RowMissing(created: bool) | ReadFailed

  /** How a save ended: the existence check failed, the upsert failed, it succeeded, or the client threw. */
  datatype SaveOutcome = LookupFailed | UpsertFailed | Saved | Threw

  class ProfilePage {
    const user: Option<User>
    var isEditing: bool
    var isLoading: bool
    var userProfile: Profile
    var editableProfile: Profile
    var newInterest: string

    /** Pending interest text exists only in edit mode (its input is shown only there). */
    ghost predicate Valid()
      reads this
    {
      !isEditing ==> newInterest == ""
    }

    constructor (user: Option<User>)
      ensures this.user == user && Valid()
      ensures !isEditing && !isLoading && newInterest == ""
      ensures userProfile == DefaultProfile(user) && editableProfile == userProfile
    {
      this.user := user;
      isEditing := false;
      isLoading := false;
      userProfile := DefaultProfile(user);
      editableProfile := DefaultProfile(user);
      newInterest := "";
    }

    /** The mount-time read; returns the row it asks the store to create, if any. */
    method LoadProfile(outcome: LoadOutcome) returns (created: Option<StoredRow>)
      requires Valid()
      modifies this`userProfile, this`editableProfile
      ensures Valid()
      ensures user.None? ==> created.None? && unchanged(this)
      ensures user.Some? && outcome.RowFound? ==>
        created.None? && userProfile == ProfileFromRow(user.value, outcome.row) && editableProfile == userProfile
      ensures user.Some? && outcome.RowMissing? ==> created == Some(NewRow(user.value))
      ensures user.Some? && outcome.RowMissing? && outcome.created ==>
        userProfile == DefaultProfile(user) && editableProfile == userProfile
      ensures user.Some? && outcome.RowMissing? && !outcome.created ==> unchanged(this)
      ensures user.Some? && outcome.ReadFailed? ==> created.None? && unchanged(this)
    {
      created := None;
      if user.None? {
        return;
      }
      var u := user.value;
      match outcome {
        case RowFound(row) =>
          userProfile := ProfileFromRow(u, row);
          editableProfile := ProfileFromRow(u, row);
        case RowMissing(ok) =>
          created := Some(NewRow(u));
          if ok {
            userProfile := DefaultProfile(user);
            editableProfile := DefaultProfile(user);
          }
        case ReadFailed =>
      }
    }

    /** `startEditing`: the staged copy starts from the shown profile. */
    method StartEditing()
      requires Valid()
      modifies this`editableProfile, this`isEditing
      ensures Valid()
      ensures editableProfile == userProfile && isEditing
    {
      editableProfile := userProfile;
      isEditing := true;
    }

    /** `cancelEditing`: leaves edit mode and drops the pending interest; the shown profile stays. */
    method CancelEditing()
      requires Valid()
      modifies this`isEditing, this`newInterest
      ensures Valid()
      ensures !isEditing && newInterest == ""
    {
      isEditing := false;
      newInterest := "";
    }

    /**
     * `saveChanges`: returns the row sent to the upsert. Only a successful
     * upsert shows the staged profile and leaves edit mode; every other
     * outcome leaves the profile and the mode as they were.
     */
    method SaveChanges(outcome: SaveOutcome) returns (sent: Option<StoredRow>)
      requires Valid()
      modifies this`userProfile, this`isEditing, this`newInterest, this`isLoading
      ensures Valid()
      ensures user.None? ==> sent.None? && unchanged(this)
      ensures user.Some? ==> !isLoading
      ensures user.Some? && (outcome.UpsertFailed? || outcome.Saved?) ==>
        sent == Some(UpsertPayload(user.value, editableProfile))
      ensures user.Some? && (outcome.LookupFailed? || outcome.Threw?) ==> sent.None?
      ensures user.Some? && outcome.Saved? ==>
        userProfile == editableProfile && !isEditing && newInterest == ""
      ensures !(user.Some? && outcome.Saved?) ==>
        userProfile == old(userProfile) && isEditing == old(isEditing) && newInterest == old(newInterest)
    {
      sent := None;
      if user.None? {
        return;
      }
      isLoading := true;
      if outcome.LookupFailed? || outcome.Threw? {
        isLoading := false;
        return;
      }
      sent := Some(UpsertPayload(user.value, editableProfile));
      if outcome.UpsertFailed? {
        isLoading := false;
        return;
      }
      userProfile := editableProfile;
      isEditing := false;
      newInterest := "";
      isLoading := false;
    }

    /** `handleChange`: sets the named text field of the staged profile and nothing else. */
    method HandleChange(field: Field, value: string)
      requires Valid()
      modifies this`editableProfile
      ensures Valid()
      ensures FieldValue(editableProfile, field) == value
      ensures forall other :: other != field ==>
        FieldValue(editableProfile, other) == FieldValue(old(editableProfile), other)
      ensures editableProfile.interests == old(editableProfile.interests)
    {
      match field {
        case NameField => editableProfile := editableProfile.(name := value);
        case EmailField => editableProfile := editableProfile.(email := value);
        case BioField => editableProfile := editableProfile.(bio := value);
      }
    }

    /** Typing into the new-interest input, which exists only in edit mode. */
    method TypeInterest(text: string)
      requires Valid() && isEditing
      modifies this`newInterest
      ensures Valid()
      ensures newInterest == text
    {
      newInterest := text;
    }

    /**
     * `handleAddInterest`: whitespace-only text changes nothing; other text
     * is appended trimmed and the input is cleared.
     */
    method HandleAddInterest()
      requires Valid()
      modifies this`editableProfile, this`newInterest
      ensures Valid()
      ensures IsBlank(old(newInterest)) ==>
        editableProfile == old(editableProfile) && newInterest == old(newInterest)
      ensures !IsBlank(old(newInterest)) ==>
        && editableProfile == old(editableProfile).(interests := old(editableProfile.interests) + [Trim(old(newInterest))])
        && |editableProfile.interests| == |old(editableProfile.interests)| + 1
        && Trim(old(newInterest)) != ""
        && newInterest == ""
    {
      TrimEmptyIffBlank(newInterest);
      if Trim(newInterest) == "" {
        return;
      }
      editableProfile := editableProfile.(interests := editableProfile.interests + [Trim(newInterest)]);
      newInterest := "";
    }

    /** `handleRemoveInterest`: a copy of the staged interests with `splice(index, 1)` applied. */
    method HandleRemoveInterest(index: int)
      requires Valid()
      modifies this`editableProfile
      ensures Valid()
      ensures editableProfile == old(editableProfile).(interests := SpliceOne(old(editableProfile.interests), index))
      ensures 0 <= index < |old(editableProfile.interests)| ==>
        && |editableProfile.interests| == |old(editableProfile.interests)| - 1
        && editableProfile.interests ==
           old(editableProfile.interests)[..index] + old(editableProfile.interests)[index + 1..]
    {
      var newInterests := editableProfile.interests;
      newInterests := SpliceOne(newInterests, index);
      if 0 <= index < |editableProfile.interests| {
        SpliceOneInRange(editableProfile.interests, index);
      }
      editableProfile := editableProfile.(interests := newInterests);
    }
  }
}
