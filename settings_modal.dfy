/**
 * The settings dialog: editing the signed-in user's name and email, and four on/off preferences.
 */
module SettingsModal {
  import opened Wrappers
  import opened MockData

  datatype Preferences = Preferences(darkMode: bool, reduceMotion: bool, emailNotifs: bool, pushNotifs: bool)

  const InitialPreferences := Preferences(false, false, true, true)

  datatype PreferenceKey = DarkMode | ReduceMotion | EmailNotifs | PushNotifs

  function Get(p: Preferences, k: PreferenceKey): bool {
    match k
    case DarkMode => p.darkMode
    case ReduceMotion => p.reduceMotion
    case EmailNotifs => p.emailNotifs
    case PushNotifs => p.pushNotifs
  }

  /** `{ ...prev, [key]: !prev[key] }`: the chosen preference flips and the other three stay. */
  function Toggle(p: Preferences, k: PreferenceKey): (q: Preferences)
    ensures Get(q, k) == !Get(p, k)
    ensures forall other :: other != k ==> Get(q, other) == Get(p, other)
  {
    match k
    case DarkMode => p.(darkMode := !p.darkMode)
    case ReduceMotion => p.(reduceMotion := !p.reduceMotion)
    case EmailNotifs => p.(emailNotifs := !p.emailNotifs)
    case PushNotifs => p.(pushNotifs := !p.pushNotifs)
  }

  /** Two preferences that agree on every key are the same. */
  lemma PreferencesByKeys(p: Preferences, q: Preferences)
    requires forall k :: Get(p, k) == Get(q, k)
    ensures p == q
  {
    assert Get(p, DarkMode) == Get(q, DarkMode) && Get(p, ReduceMotion) == Get(q, ReduceMotion);
    assert Get(p, EmailNotifs) == Get(q, EmailNotifs) && Get(p, PushNotifs) == Get(q, PushNotifs);
  }

  /** Toggling the same key twice restores the preferences. */
  lemma {:induction false} ToggleTwice(p: Preferences, k: PreferenceKey)
    ensures Toggle(Toggle(p, k), k) == p
  {
    forall other ensures Get(Toggle(Toggle(p, k), k), other) == Get(p, other) {
    }
    PreferencesByKeys(Toggle(Toggle(p, k), k), p);
  }

  /** Toggles of different keys commute. */
  lemma TogglesCommute(p: Preferences, j: PreferenceKey, k: PreferenceKey)
    ensures Toggle(Toggle(p, j), k) == Toggle(Toggle(p, k), j)
  {
    PreferencesByKeys(Toggle(Toggle(p, j), k), Toggle(Toggle(p, k), j));
  }

  /**
   * `handleSaveProfile`'s record: nothing without a signed-in user; otherwise the user with the
   * edited name and email and every other field as it was.
   */
  function SaveProfile(user: Option<User>, name: string, email: string): (r: Option<User>)
    ensures r.None? <==> user.None?
    ensures r.Some? ==> r.value.name == name && r.value.email == email
    ensures r.Some? ==> r.value.(name := user.value.name, email := user.value.email) == user.value
  {
    if user.Some? then Some(user.value.(name := name, email := email)) else None
  }

  class SettingsPanel {
    var isEditing: bool
    var name: string
    var email: string
    var preferences: Preferences

    /** `user?.name || ''` and `user?.email || ''`. */
    constructor (user: Option<User>)
      ensures !isEditing && preferences == InitialPreferences
      ensures name == (if user.Some? then user.value.name else "")
      ensures email == (if user.Some? then user.value.email else "")
    {
      isEditing := false;
      name := if user.Some? then user.value.name else "";
      email := if user.Some? then user.value.email else "";
      preferences := InitialPreferences;
    }

    /** The effect run when the `user` prop changes: a present user's name and email are copied in. */
    method SyncUser(user: Option<User>)
      modifies this`name, this`email
      ensures user.Some? ==> name == user.value.name && email == user.value.email
      ensures user.None? ==> name == old(name) && email == old(email)
    {
      if user.Some? {
        name := user.value.name;
        email := user.value.email;
      }
    }

    /** The 'Edit' button. */
    method StartEditing()
      modifies this`isEditing
      ensures isEditing
    {
      isEditing := true;
    }

    method SetName(v: string)
      modifies this`name
      ensures name == v
    {
      name := v;
    }

    method SetEmail(v: string)
      modifies this`email
      ensures email == v
    {
      email := v;
    }

    /**
     * With a signed-in user, hands the updated record to the store and leaves editing mode; without
     * one, does nothing.
     */
    method HandleSaveProfile(user: Option<User>) returns (updated: Option<User>)
      modifies this`isEditing
      ensures updated == SaveProfile(user, name, email)
      ensures user.Some? ==> !isEditing
      ensures user.None? ==> isEditing == old(isEditing)
    {
      updated := None;
      if user.Some? {
        updated := Some(user.value.(name := name, email := email));
        isEditing := false;
      }
    }

    method HandleToggle(k: PreferenceKey)
      modifies this`preferences
      ensures preferences == Toggle(old(preferences), k)
    {
      preferences := Toggle(preferences, k);
    }
  }
}
