/** `User.formatUser`: the fields of a user record shown to a viewer. A record
    is a map from field name to value; the value type is left abstract. */
module Users {
  import opened Js

  /** Lines 14-16: never returned. */
  const AlwaysHidden: set<string> := {"password", "email", "iat"}

  /** Lines 20-31: returned only to the user themself (or without a viewer). */
  const PrivateFields: set<string> :=
    {"id", "hr_zones", "power_zones", "max_hr", "threshold_hr", "threshold_power", "strava_token",
     "garmin_token", "strava_enable_auto_sync", "garmin_enable_auto_sync", "createdAt", "updatedAt"}

  /** `record.id`: undefined when the field is absent. */
  function Id<V>(fields: map<string, V>): Option<V>
  {
    if "id" in fields then Some(fields["id"]) else None
  }

  /** Line 19: a viewer is present and is some other user. */
  predicate OtherViewer<V(==)>(fields: map<string, V>, actor: Option<map<string, V>>)
  {
    actor.Some? && Id(fields) != Id(actor.value)
  }

  /** The record `formatUser` returns, from the record it was given. */
  function Formatted<V(==)>(fields: map<string, V>, actor: Option<map<string, V>>): (r: map<string, V>)
    ensures forall k :: k in r ==> k in fields && r[k] == fields[k]
  {
    var shown := fields - AlwaysHidden;
    if OtherViewer(shown, actor) then shown - PrivateFields else shown
  }

  /** A plain user object: the fields `formatUser` deletes from in place. */
  class UserRecord<V(==)> {
    var fields: map<string, V>

    constructor (fields: map<string, V>)
      ensures this.fields == fields
    {
      this.fields := fields;
    }

    /** `delete user[key]`. */
    method Delete(key: string)
      modifies this
      ensures fields == old(fields) - {key}
    {
      fields := fields - {key};
    }
  }

  /** `User.formatUser`. For a model instance (`plain` false) `user.get` makes a
      plain copy and the copy is trimmed; for a plain object the call throws,
      the exception is swallowed and the object itself is trimmed. */
  method FormatUser<V(==)>(user: UserRecord<V>, actor: Option<map<string, V>>, plain: bool)
    returns (r: UserRecord<V>)
    modifies user
    ensures r.fields == Formatted(old(user.fields), actor)
    ensures plain ==> r == user
    ensures !plain ==> fresh(r) && user.fields == old(user.fields)
  {
    if plain {
      r := user;
    } else {
      r := new UserRecord(user.fields);
    }
    HideSecrets(r);
    if actor.Some? && Id(r.fields) != Id(actor.value) {
      HidePrivate(r);
    }
  }

  /** Lines 14-16. */
  method HideSecrets<V(==)>(user: UserRecord<V>)
    modifies user
    ensures user.fields == old(user.fields) - AlwaysHidden
  {
    user.Delete("password");
    user.Delete("email");
    user.Delete("iat");
  }

  /** Lines 20-31. */
  method HidePrivate<V(==)>(user: UserRecord<V>)
    modifies user
    ensures user.fields == old(user.fields) - PrivateFields
  {
    HideProfile(user);
    HideAccounts(user);
    assert PrivateFields == ProfileFields + AccountFields;
  }

  /** Lines 20-25. */
  const ProfileFields: set<string> := {"id", "hr_zones", "power_zones", "max_hr", "threshold_hr", "threshold_power"}

  method HideProfile<V(==)>(user: UserRecord<V>)
    modifies user
    ensures user.fields == old(user.fields) - ProfileFields
  {
    user.Delete("id");
    user.Delete("hr_zones");
    user.Delete("power_zones");
    user.Delete("max_hr");
    user.Delete("threshold_hr");
    user.Delete("threshold_power");
  }

  /** Lines 26-31. */
  const AccountFields: set<string> :=
    {"strava_token", "garmin_token", "strava_enable_auto_sync", "garmin_enable_auto_sync", "createdAt", "updatedAt"}

  method HideAccounts<V(==)>(user: UserRecord<V>)
    modifies user
    ensures user.fields == old(user.fields) - AccountFields
  {
    user.Delete("strava_token");
    user.Delete("garmin_token");
    user.Delete("strava_enable_auto_sync");
    user.Delete("garmin_enable_auto_sync");
    user.Delete("createdAt");
    user.Delete("updatedAt");
  }

  /** Passwords, e-mail addresses and token issue times are never returned, and
      another viewer sees none of the private fields. */
  lemma SecretsNeverShown<V>(fields: map<string, V>, actor: Option<map<string, V>>)
    ensures forall k :: k in AlwaysHidden ==> k !in Formatted(fields, actor)
    ensures OtherViewer(fields - AlwaysHidden, actor) ==>
              forall k :: k in PrivateFields ==> k !in Formatted(fields, actor)
  {
  }

  /** Every other field is returned unchanged, in both directions; the private
      fields are returned exactly when the viewer is absent or the user themself. */
  lemma OtherFieldsKept<V>(fields: map<string, V>, actor: Option<map<string, V>>, k: string)
    requires k !in AlwaysHidden
    ensures k !in PrivateFields ==> (k in Formatted(fields, actor) <==> k in fields)
    ensures k in PrivateFields ==>
              (k in Formatted(fields, actor) <==> k in fields && !OtherViewer(fields - AlwaysHidden, actor))
    ensures k in Formatted(fields, actor) ==> Formatted(fields, actor)[k] == fields[k]
  {
  }

  /** Formatting an already formatted record for the same viewer changes nothing. */
  lemma FormatIdempotent<V>(fields: map<string, V>, actor: Option<map<string, V>>)
    ensures Formatted(Formatted(fields, actor), actor) == Formatted(fields, actor)
  {
    var once := Formatted(fields, actor);
    var shown := fields - AlwaysHidden;
    assert once - AlwaysHidden == once;
    if OtherViewer(shown, actor) {
      assert once - PrivateFields == once;
    } else {
      assert Id(once) == Id(shown);
    }
  }
}
