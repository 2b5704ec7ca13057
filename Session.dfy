/**
 * The session store of src/services/auth.js: the logged-in identity kept
 * under the browser storage key "auth_user", the one-time move of the
 * legacy key "auth", and the getters every screen and guard reads.
 *
 * Storage holds text. The model keeps, for each key, what that text is:
 * the JSON encoding of a session record, the empty string, or text that
 * JSON.parse rejects.
 */
module Session {
  import opened Js

  const Key: string := "auth_user"
  const LegacyKey: string := "auth"

  /** A session record: the login response's id, role, names, email and token. */
  datatype Record = Record(id: Value, role: Value, firstName: Value, lastName: Value, email: Value, token: Value)

  /** The text stored under one key. */
  datatype Raw = Encoded(record: Record) | Blank | Malformed(text: string)

  /** `localStorage.getItem(k)` is truthy: present and not the empty string. */
  predicate Stored(m: map<string, Raw>, k: string) {
    k in m && !m[k].Blank?
  }

  /** No field is `undefined`, so JSON encoding drops none of them. */
  predicate JsonSafe(r: Record) {
    && !r.id.Undefined? && !r.role.Undefined? && !r.firstName.Undefined?
    && !r.lastName.Undefined? && !r.email.Undefined? && !r.token.Undefined?
  }

  /**
   * The record setAuth builds: a missing id or role becomes null, missing
   * names and email become "", a falsy token becomes "", anything present
   * is kept as it is.
   */
  function Normalize(x: Record): (r: Record)
    ensures JsonSafe(r)
    ensures Nullish(x.id) ==> r.id == Null
    ensures Nullish(x.role) ==> r.role == Null
    ensures Nullish(x.firstName) ==> r.firstName == Str("")
    ensures Nullish(x.lastName) ==> r.lastName == Str("")
    ensures Nullish(x.email) ==> r.email == Str("")
    ensures !Truthy(x.token) ==> r.token == Str("")
    ensures !Nullish(x.id) ==> r.id == x.id
    ensures !Nullish(x.role) ==> r.role == x.role
    ensures !Nullish(x.firstName) ==> r.firstName == x.firstName
    ensures !Nullish(x.lastName) ==> r.lastName == x.lastName
    ensures !Nullish(x.email) ==> r.email == x.email
    ensures Truthy(x.token) ==> r.token == x.token
    ensures Truthy(r.id) <==> Truthy(x.id)
  {
    Record(
      Coalesce(x.id, Null),
      Coalesce(x.role, Null),
      Coalesce(x.firstName, Str("")),
      Coalesce(x.lastName, Str("")),
      Coalesce(x.email, Str("")),
      Or(x.token, Str(""))
    )
  }

  /** Normalizing a normalized record changes nothing. */
  lemma NormalizeIdempotent(x: Record)
    ensures Normalize(Normalize(x)) == Normalize(x)
  {
  }

  /**
   * The storage after the one-time migration: when "auth" holds text and
   * "auth_user" does not, the text moves to "auth_user"; otherwise nothing
   * changes.
   */
  function Migrated(m: map<string, Raw>): (r: map<string, Raw>)
    ensures forall k :: k != Key && k != LegacyKey ==> (k in r <==> k in m)
    ensures forall k :: k in r && k != Key && k != LegacyKey ==> r[k] == m[k]
    ensures Stored(r, Key) <==> Stored(m, Key) || Stored(m, LegacyKey)
    ensures Stored(m, Key) ==> r == m
    ensures !Stored(m, LegacyKey) ==> r == m
    ensures Stored(m, LegacyKey) && !Stored(m, Key) ==> r[Key] == m[LegacyKey] && LegacyKey !in r
  {
    if Stored(m, LegacyKey) && !Stored(m, Key) then
      m[Key := m[LegacyKey]] - {LegacyKey}
    else
      m
  }

  /** Running the migration a second time has no further effect. */
  lemma MigrateIdempotent(m: map<string, Raw>)
    ensures Migrated(Migrated(m)) == Migrated(m)
  {
  }

  /** What `getAuth()` returns: the stored record, or null when absent, blank or unparseable. */
  function AuthOf(m: map<string, Raw>): (a: Option<Record>)
    ensures a.Some? <==> Key in m && m[Key].Encoded?
    ensures a.Some? ==> a.value == m[Key].record
  {
    if Key in m && m[Key].Encoded? then Some(m[Key].record) else None
  }

  /** What `isLoggedIn()` returns: a record is stored and its id is truthy. */
  predicate LoggedInOf(m: map<string, Raw>)
    ensures LoggedInOf(m) ==> Stored(m, Key) && m[Key].Encoded? && Truthy(m[Key].record.id)
    ensures Key in m && m[Key].Encoded? && Truthy(m[Key].record.id) ==> LoggedInOf(m)
  {
    AuthOf(m).Some? && Truthy(AuthOf(m).value.id)
  }

  /** What `getRole()` returns: `getAuth()?.role || null`. */
  function RoleOf(m: map<string, Raw>): (r: Value)
    ensures Truthy(r) || r == Null
    ensures Truthy(r) ==> AuthOf(m).Some? && r == AuthOf(m).value.role
  {
    match AuthOf(m)
    case None => Null
    case Some(a) => Or(a.role, Null)
  }

  /**
   * The identity the screens read once when they mount:
   * `JSON.parse(localStorage.getItem("auth_user") || "{}")`, where a parse
   * failure gives `{}`. Its `id` and `role` are undefined unless a record is stored.
   */
  function MountedId(m: map<string, Raw>): (id: Value)
    ensures Truthy(id) <==> LoggedInOf(m)
  {
    match AuthOf(m)
    case None => Undefined
    case Some(a) => a.id
  }

  function MountedRole(m: map<string, Raw>): (role: Value)
    ensures AuthOf(m).None? ==> role == Undefined
    ensures Truthy(role) ==> RoleOf(m) == role
    ensures !Truthy(role) ==> RoleOf(m) == Null
  {
    match AuthOf(m)
    case None => Undefined
    case Some(a) => a.role
  }

  /** Browser storage as auth.js uses it. */
  class SessionStore {
    var entries: map<string, Raw>

    /** Loading auth.js runs the migration once over what storage already holds. */
    constructor (initial: map<string, Raw>)
      ensures entries == Migrated(initial)
    {
      entries := initial;
      new;
      MigrateOnce();
    }

    method MigrateOnce()
      modifies this
      ensures entries == Migrated(old(entries))
    {
      var oldRaw := if LegacyKey in entries then Some(entries[LegacyKey]) else None;
      var newRaw := if Key in entries then Some(entries[Key]) else None;
      if oldRaw.Some? && !oldRaw.value.Blank? && !(newRaw.Some? && !newRaw.value.Blank?) {
        entries := entries[Key := oldRaw.value];
        entries := entries - {LegacyKey};
      }
    }

    method SetAuth(x: Record) returns (data: Record)
      modifies this
      ensures data == Normalize(x)
      ensures entries == old(entries)[Key := Encoded(data)]
      ensures GetAuth() == Some(data)
      ensures IsLoggedIn() <==> Truthy(x.id)
      ensures GetRole() == Or(data.role, Null)
    {
      data := Normalize(x);
      entries := entries[Key := Encoded(data)];
    }

    function GetAuth(): (a: Option<Record>)
      reads this
      ensures a.Some? <==> Key in entries && entries[Key].Encoded?
      ensures a.Some? ==> a.value == entries[Key].record
    {
      AuthOf(entries)
    }

    method ClearAuth()
      modifies this
      ensures entries == old(entries) - {Key}
      ensures GetAuth() == None && !IsLoggedIn() && GetRole() == Null
    {
      entries := entries - {Key};
    }

    predicate IsLoggedIn()
      reads this
      ensures IsLoggedIn() <==> GetAuth().Some? && Truthy(GetAuth().value.id)
      ensures IsLoggedIn() <==> Truthy(MountedId(entries))
    {
      LoggedInOf(entries)
    }

    function GetRole(): (r: Value)
      reads this
      ensures Truthy(r) || r == Null
      ensures Truthy(r) ==> GetAuth().Some? && r == GetAuth().value.role
      ensures GetAuth().None? ==> r == Null
    {
      RoleOf(entries)
    }
  }
}
