/** src/context/AuthContext.tsx: the session state (current user and loading
    flag) and the browser storage entry that mirrors it. Storage is a map from
    keys to saved texts; a saved text is either the serialisation of a user or
    something `JSON.parse` rejects. */
module Auth {
  import opened Wrappers
  import opened Types
  import opened NumberText

  datatype Saved = Serialized(user: User) | Malformed(text: string)

  type Storage = map<string, Saved>

  /** The storage key of the session. */
  const UserKey := "disaster-alert-user"

  /** `mockUser`, the account every login returns. */
  function MockUser(): User {
    User("user-1", "demo@example.com", Some("Demo User"), Some("+1234567890"),
         Preferences([Push, Email], 100.0, "en"))
  }

  /** A `Partial<User['preferences']>`: `None` for a field not supplied. */
  datatype PreferencesPatch = PreferencesPatch(
    notificationMethod: Option<seq<NotificationMethod>>,
    notificationRadius: Option<real>,
    language: Option<string>)

  /** `{...user.preferences, ...preferences}`. */
  function MergePreferences(p: Preferences, patch: PreferencesPatch): (r: Preferences)
    ensures r.notificationMethod == if patch.notificationMethod.Some? then patch.notificationMethod.value else p.notificationMethod
    ensures r.notificationRadius == if patch.notificationRadius.Some? then patch.notificationRadius.value else p.notificationRadius
    ensures r.language == if patch.language.Some? then patch.language.value else p.language
  {
    Preferences(
      match patch.notificationMethod case Some(m) => m case None => p.notificationMethod,
      match patch.notificationRadius case Some(d) => d case None => p.notificationRadius,
      match patch.language case Some(l) => l case None => p.language)
  }

  /** Two spreads in a row: the later supplied field wins. */
  function Combine(first: PreferencesPatch, second: PreferencesPatch): PreferencesPatch {
    PreferencesPatch(
      if second.notificationMethod.Some? then second.notificationMethod else first.notificationMethod,
      if second.notificationRadius.Some? then second.notificationRadius else first.notificationRadius,
      if second.language.Some? then second.language else first.language)
  }

  /** An empty patch keeps the preferences. */
  lemma MergeEmptyPatch(p: Preferences)
    ensures MergePreferences(p, PreferencesPatch(None, None, None)) == p
  {
  }

  /** Applying the same patch twice is applying it once. */
  lemma MergeIdempotent(p: Preferences, patch: PreferencesPatch)
    ensures MergePreferences(MergePreferences(p, patch), patch) == MergePreferences(p, patch)
  {
  }

  /** Two updates in a row are one update with the combined patch. */
  lemma MergeTwice(p: Preferences, first: PreferencesPatch, second: PreferencesPatch)
    ensures MergePreferences(MergePreferences(p, first), second) == MergePreferences(p, Combine(first, second))
  {
  }

  /** The user `updateUserPreferences` builds: only the preferences change. */
  function UpdatedUser(u: User, patch: PreferencesPatch): (r: User)
    ensures r.id == u.id && r.email == u.email && r.name == u.name && r.phone == u.phone
    ensures r.preferences == MergePreferences(u.preferences, patch)
  {
    u.(preferences := MergePreferences(u.preferences, patch))
  }

  const UserIdPrefix := "user-"

  /** The user `register` builds from `mockUser` at time `now` (`Date.now()`). */
  function RegisteredUser(email: string, name: string, now: nat): (u: User)
    ensures u.email == email && u.name == Some(name)
    ensures u.phone == MockUser().phone && u.preferences == MockUser().preferences
    ensures u.id == UserIdPrefix + DecimalString(now)
  {
    MockUser().(email := email, name := Some(name), id := UserIdPrefix + DecimalString(now))
  }

  /** The registration time can be read back from the id. */
  lemma RegisteredIdEncodesTime(email: string, name: string, now: nat)
    ensures var id := RegisteredUser(email, name, now).id;
      |id| > |UserIdPrefix| && id[..|UserIdPrefix|] == UserIdPrefix &&
      AllDigits(id[|UserIdPrefix|..]) && DigitsValue(id[|UserIdPrefix|..]) == now
  {
    var id := RegisteredUser(email, name, now).id;
    assert id[|UserIdPrefix|..] == DecimalString(now);
    DecimalStringValue(now);
  }

  /** Registrations at different times get different ids. */
  lemma RegisteredIdsDiffer(email: string, name: string, t1: nat, t2: nat)
    requires t1 != t2
    ensures RegisteredUser(email, name, t1).id != RegisteredUser(email, name, t2).id
  {
    RegisteredIdEncodesTime(email, name, t1);
    RegisteredIdEncodesTime(email, name, t2);
  }

  class AuthSession {
    var user: Option<User>
    var loading: bool
    var storage: Storage

    /** The stored entry is the in-memory user whenever one is signed in. */
    predicate StoredMatchesUser()
      reads this
    {
      user.Some? ==> UserKey in storage && storage[UserKey] == Serialized(user.value)
    }

    /** Before the mount effect runs: no user, loading. */
    constructor (initial: Storage)
      ensures user == None && loading && storage == initial
    {
      user := None;
      loading := true;
      storage := initial;
    }

    /** The mount effect: restore a saved user; a non-empty text that does not
        parse is removed; an empty text is ignored. Loading ends. */
    method Mount()
      modifies this
      ensures !loading
      ensures UserKey in old(storage) && old(storage)[UserKey].Serialized? ==>
        user == Some(old(storage)[UserKey].user) && storage == old(storage)
      ensures UserKey in old(storage) && old(storage)[UserKey].Malformed? && old(storage)[UserKey].text != "" ==>
        user == old(user) && storage == old(storage) - {UserKey}
      ensures (UserKey !in old(storage) || old(storage)[UserKey] == Malformed("")) ==>
        user == old(user) && storage == old(storage)
      ensures old(user) == None ==> StoredMatchesUser()
    {
      if UserKey in storage {
        var saved := storage[UserKey];
        match saved {
          case Serialized(u) => user := Some(u);
          case Malformed(text) =>
            if text != "" {
              storage := storage - {UserKey};
            }
        }
      }
      loading := false;
    }

    /** `login`: any credentials sign in as `mockUser`. */
    method Login(email: string, password: string)
      modifies this
      ensures user == Some(MockUser())
      ensures storage == old(storage)[UserKey := Serialized(MockUser())]
      ensures !loading && StoredMatchesUser()
    {
      loading := true;
      user := Some(MockUser());
      storage := storage[UserKey := Serialized(MockUser())];
      loading := false;
    }

    /** `logout`: the user and the stored entry are dropped; `loading` is
        not touched. */
    method Logout()
      modifies this
      ensures user == None && storage == old(storage) - {UserKey}
      ensures loading == old(loading) && StoredMatchesUser()
    {
      user := None;
      storage := storage - {UserKey};
    }

    /** `register`. */
    method Register(email: string, password: string, name: string, now: nat)
      modifies this
      ensures user == Some(RegisteredUser(email, name, now))
      ensures storage == old(storage)[UserKey := Serialized(RegisteredUser(email, name, now))]
      ensures !loading && StoredMatchesUser()
    {
      loading := true;
      var newUser := RegisteredUser(email, name, now);
      user := Some(newUser);
      storage := storage[UserKey := Serialized(newUser)];
      loading := false;
    }

    /** `updateUserPreferences`: nothing happens without a user. */
    method UpdateUserPreferences(patch: PreferencesPatch)
      modifies this
      ensures old(user).None? ==> user == old(user) && storage == old(storage)
      ensures old(user).Some? ==>
        user == Some(UpdatedUser(old(user).value, patch)) &&
        storage == old(storage)[UserKey := Serialized(UpdatedUser(old(user).value, patch))]
      ensures loading == old(loading)
      ensures old(user).Some? ==> StoredMatchesUser()
    {
      if user.None? {
        return;
      }
      var updated := UpdatedUser(user.value, patch);
      user := Some(updated);
      storage := storage[UserKey := Serialized(updated)];
    }
  }
}
