/**
 * The profile page of the Next.js build: an edit form seeded from the signed-in
 * user, the save that writes the edited record back to storage, the edit
 * toggle, the avatar initial and the sign-in guard.
 */
module ProfilePage {
  import opened Wrappers
  import opened UserStore
  import Auth
  import opened PageGuard

  /** The three editable fields. */
  datatype ProfileForm = ProfileForm(fullName: string, email: string, role: string)

  /** The `name` of an input. */
  datatype ProfileField = FullName | Email | Role

  function FieldValue(f: ProfileForm, field: ProfileField): string {
    match field
    case FullName => f.fullName
    case Email => f.email
    case Role => f.role
  }

  /** `{ fullName: user.fullName || '', ... }`: each field of the user, or '' when it is missing. */
  function FormOf(user: Option<UserRecord>): (f: ProfileForm)
    ensures user.None? ==> f == ProfileForm("", "", "")
    ensures user.Some? ==>
      && (user.value.fullName.Some? ==> f.fullName == user.value.fullName.value)
      && (user.value.email.Some? ==> f.email == user.value.email.value)
      && (user.value.role.Some? ==> f.role == user.value.role.value)
      && (user.value.fullName.None? ==> f.fullName == "")
      && (user.value.email.None? ==> f.email == "")
      && (user.value.role.None? ==> f.role == "")
  {
    match user
    case None => ProfileForm("", "", "")
    case Some(u) => ProfileForm(u.fullName.GetOr(""), u.email.GetOr(""), u.role.GetOr(""))
  }

  /** `setFormData(prev => ({ ...prev, [name]: value }))`. */
  function WithField(f: ProfileForm, field: ProfileField, value: string): (r: ProfileForm)
    ensures FieldValue(r, field) == value
    ensures forall other :: other != field ==> FieldValue(r, other) == FieldValue(f, other)
  {
    match field
    case FullName => f.(fullName := value)
    case Email => f.(email := value)
    case Role => f.(role := value)
  }

  /** Writing a field twice keeps only the second value. */
  lemma WithFieldTwice(f: ProfileForm, field: ProfileField, a: string, b: string)
    ensures WithField(WithField(f, field, a), field, b) == WithField(f, field, b)
  {
  }

  /** Writing back a field's own value changes nothing. */
  lemma WithFieldSame(f: ProfileForm, field: ProfileField)
    ensures WithField(f, field, FieldValue(f, field)) == f
  {
  }

  /**
   * `{ ...user, ...formData }`: the form's three fields over whatever the
   * user record held; with no user the record holds only the form's fields.
   */
  function Merge(user: Option<UserRecord>, f: ProfileForm): (r: UserRecord)
    ensures r.fullName == Some(f.fullName) && r.email == Some(f.email) && r.role == Some(f.role)
    ensures user.Some? ==> r.id == user.value.id && r.password == user.value.password
    ensures user.None? ==> r.id == None && r.password == None
  {
    match user
    case None => UserRecord(None, Some(f.fullName), Some(f.email), Some(f.role), None)
    case Some(u) => u.(fullName := Some(f.fullName), email := Some(f.email), role := Some(f.role))
  }

  /** The form seeded from a saved record is the form that was saved. */
  lemma FormOfMerge(user: Option<UserRecord>, f: ProfileForm)
    ensures FormOf(Some(Merge(user, f))) == f
  {
  }

  /** A record with all three fields, saved with the form seeded from it, comes back unchanged. */
  lemma MergeOwnForm(u: UserRecord)
    requires u.fullName.Some? && u.email.Some? && u.role.Some?
    ensures Merge(Some(u), FormOf(Some(u))) == u
  {
  }

  /** Saving twice with the same form is saving once. */
  lemma MergeIdempotent(user: Option<UserRecord>, f: ProfileForm)
    ensures Merge(Some(Merge(user, f)), f) == Merge(user, f)
  {
  }

  /** After the save and the page reload, the provider signs in as the saved record. */
  lemma ReloadAfterSave(store: map<string, UserRecord>, user: Option<UserRecord>, f: ProfileForm)
    ensures var s := Auth.Mounted(store[UserKey := Merge(user, f)]);
      s.isAuthenticated && s.user == Some(Merge(user, f)) && FormOf(s.user) == f
  {
  }

  /** `user?.fullName?.charAt(0) || 'U'`. */
  function AvatarInitial(user: Option<UserRecord>): (s: string)
    ensures |s| == 1
    ensures user.Some? && user.value.fullName.Some? && user.value.fullName.value != "" ==>
      s == user.value.fullName.value[..1]
    ensures user.None? || user.value.fullName.None? || user.value.fullName.value == "" ==> s == "U"
  {
    if user.Some? && user.value.fullName.Some? && user.value.fullName.value != "" then
      user.value.fullName.value[..1]
    else "U"
  }

  /** The page's state: storage it saves to, the edit flag and the form. */
  class ProfilePageState {
    const storage: Storage
    var isEditing: bool
    var formData: ProfileForm

    /** The `useState` initial values. */
    constructor (storage: Storage, user: Option<UserRecord>)
      ensures this.storage == storage && !isEditing && formData == FormOf(user)
    {
      this.storage := storage;
      isEditing := false;
      formData := FormOf(user);
    }

    /** The effect on `[user]`: re-seeds the form when there is a user, and leaves it otherwise. */
    method SyncUser(user: Option<UserRecord>)
      modifies this
      ensures user.Some? ==> formData == FormOf(user)
      ensures user.None? ==> formData == old(formData)
      ensures isEditing == old(isEditing)
    {
      if user.Some? {
        formData := FormOf(user);
      }
    }

    /** `handleChange`: replaces the named field only. */
    method HandleChange(field: ProfileField, value: string)
      modifies this
      ensures formData == WithField(old(formData), field, value)
      ensures isEditing == old(isEditing)
    {
      formData := WithField(formData, field, value);
    }

    /** `handleSave`: stores the merged record under "user" and leaves edit mode. */
    method HandleSave(user: Option<UserRecord>)
      modifies this, storage
      ensures storage.items == old(storage.items)[UserKey := Merge(user, old(formData))]
      ensures !isEditing && formData == old(formData)
    {
      storage.SetItem(UserKey, Merge(user, formData));
      isEditing := false;
    }

    /** The edit button: `setIsEditing(!isEditing)`. */
    method ToggleEdit()
      modifies this
      ensures isEditing == !old(isEditing) && formData == old(formData)
    {
      isEditing := !isEditing;
    }
  }

  /** The page: nothing for a signed-out visitor, otherwise the avatar initial and the form. */
  function View(isAuthenticated: bool, user: Option<UserRecord>, f: ProfileForm): (v: PageView<(string, ProfileForm)>)
    ensures v.Shows? <==> isAuthenticated
    ensures v.Shows? ==> v.content == (AvatarInitial(user), f)
    ensures v.Nothing? ==> v.navigateTo == "/signin"
  {
    Guard(isAuthenticated, (AvatarInitial(user), f))
  }
}
