/** The signed-in user's record in localStorage (src/lib/auth.ts). The record
    lives under `userData` with an absolute expiry two hours out by default;
    the bearer and refresh tokens live beside it. Reading fails closed: any
    record that does not prove itself well-typed and unexpired is wiped
    together with both tokens. The clock is a parameter. */
module Auth {
  import opened Wrappers

  const UserSessionKey := "userData"
  const AccessTokenKey := "accessToken"
  const RefreshTokenKey := "refreshToken"

  /** `DEFAULT_AUTH_SESSION_TTL_MS`: two hours in milliseconds. */
  const DefaultAuthSessionTtlMs: int := 2 * 60 * 60 * 1000

  /** The JSON values `JSON.parse` can produce (numbers restricted to integers). */
  datatype JsonValue =
    | JNull
    | JBool(b: bool)
    | JNumber(n: int)
    | JString(s: string)
    | JArray(items: seq<JsonValue>)
    | JObject(fields: map<string, JsonValue>)

  /** A localStorage item: either text that `JSON.parse` rejects (a raw bearer
      token, a corrupt record, the empty string), or the text of a JSON value. */
  datatype Item = Raw(text: string) | Json(value: JsonValue)

  /** JavaScript truthiness of a parsed value, as in `if (!parsed)`. */
  predicate Truthy(v: JsonValue) {
    match v
    case JNull => false
    case JBool(b) => b
    case JNumber(n) => n != 0
    case JString(s) => s != ""
    case _ => true
  }

  /** `parsed?.name`: an object's own field; `undefined` on any other value. */
  function Field(v: JsonValue, name: string): Option<JsonValue> {
    if v.JObject? && name in v.fields then Some(v.fields[name]) else None
  }

  predicate IsNumberField(v: JsonValue, name: string) {
    Field(v, name).Some? && Field(v, name).value.JNumber?
  }

  predicate IsStringField(v: JsonValue, name: string) {
    Field(v, name).Some? && Field(v, name).value.JString?
  }

  datatype UserData = UserData(userId: int, name: string, phoneNumber: string)

  datatype StoredUserSession = StoredUserSession(userId: int, name: string, phoneNumber: string, expiresAt: int)

  /** The one shape the reader accepts: a numeric, unexpired `expiresAt`, a
      numeric `userId` and string `name` and `phoneNumber`. A record without
      `expiresAt` is not valid; absence never means "never expires". */
  ghost predicate ValidRecord(v: JsonValue, now: int) {
    && IsNumberField(v, "expiresAt")
    && now <= Field(v, "expiresAt").value.n
    && IsNumberField(v, "userId")
    && IsStringField(v, "name")
    && IsStringField(v, "phoneNumber")
  }

  /** Why a stored record was refused, in the order the checks run. */
  datatype Rejection = Unparsable | MissingExpiry | Expired | BadField

  /** The outcome of `getUserSession`'s checks on the `userData` item. */
  datatype Verdict = NoRecord | Rejected(reason: Rejection) | Accepted(session: StoredUserSession)

  /** The checks of `getUserSession` at time `now`, in source order. No item
      (or an empty string) is "no record"; a valid record is accepted with its
      own field values; everything else is rejected. */
  function Check(item: Option<Item>, now: int): (v: Verdict)
    ensures v.NoRecord? <==> item.None? || item == Some(Raw(""))
    ensures v.Accepted? <==> item.Some? && item.value.Json? && ValidRecord(item.value.value, now)
    ensures v.Accepted? ==>
              var rec := item.value.value;
              v.session == StoredUserSession(Field(rec, "userId").value.n, Field(rec, "name").value.s,
                                             Field(rec, "phoneNumber").value.s, Field(rec, "expiresAt").value.n)
    ensures v == Rejected(Unparsable) <==> item.Some? && ((item.value.Raw? && item.value.text != "") || (item.value.Json? && !Truthy(item.value.value)))
    ensures v == Rejected(MissingExpiry) <==>
              item.Some? && item.value.Json? && Truthy(item.value.value) && !IsNumberField(item.value.value, "expiresAt")
    ensures v == Rejected(Expired) <==>
              item.Some? && item.value.Json? && IsNumberField(item.value.value, "expiresAt")
              && now > Field(item.value.value, "expiresAt").value.n
  {
    match item
    case None => NoRecord
    case Some(Raw(text)) => if text == "" then NoRecord else Rejected(Unparsable)
    case Some(Json(parsed)) =>
      if !Truthy(parsed) then Rejected(Unparsable)
      else if !IsNumberField(parsed, "expiresAt") then Rejected(MissingExpiry)
      else if now > Field(parsed, "expiresAt").value.n then Rejected(Expired)
      else if !IsNumberField(parsed, "userId") || !IsStringField(parsed, "name") || !IsStringField(parsed, "phoneNumber")
      then Rejected(BadField)
      else Accepted(StoredUserSession(Field(parsed, "userId").value.n, Field(parsed, "name").value.s,
                                      Field(parsed, "phoneNumber").value.s, Field(parsed, "expiresAt").value.n))
  }

  /** What `setUserSession` writes: the user's fields plus `expiresAt`. */
  function Encoded(user: UserData, expiresAt: int): JsonValue {
    JObject(map["userId" := JNumber(user.userId), "name" := JString(user.name),
                "phoneNumber" := JString(user.phoneNumber), "expiresAt" := JNumber(expiresAt)])
  }

  /** Round trip: saving `user` at time `t` with lifetime `ttl`, then reading
      at any time up to `t + ttl`, gives back `user` with `expiresAt = t + ttl`. */
  lemma SaveThenRead(user: UserData, ttl: int, t: int, now: int)
    requires now <= t + ttl
    ensures Check(Some(Json(Encoded(user, t + ttl))), now)
            == Accepted(StoredUserSession(user.userId, user.name, user.phoneNumber, t + ttl))
  {
    var rec := Encoded(user, t + ttl);
    assert Field(rec, "expiresAt") == Some(JNumber(t + ttl));
    assert Field(rec, "userId") == Some(JNumber(user.userId));
    assert Field(rec, "name") == Some(JString(user.name));
    assert Field(rec, "phoneNumber") == Some(JString(user.phoneNumber));
  }

  /** The same record read after its expiry is rejected as expired. */
  /** With the default lifetime a saved user reads back for exactly two
      hours (7,200,000 ms) and is rejected as expired afterwards. */
  lemma SaveThenReadDefault(user: UserData, t: int, now: int)
    ensures DefaultAuthSessionTtlMs == 7200000
    ensures now <= t + 7200000 ==>
              Check(Some(Json(Encoded(user, t + DefaultAuthSessionTtlMs))), now)
              == Accepted(StoredUserSession(user.userId, user.name, user.phoneNumber, t + 7200000))
    ensures now > t + 7200000 ==>
              Check(Some(Json(Encoded(user, t + DefaultAuthSessionTtlMs))), now) == Rejected(Expired)
  {
    if now <= t + DefaultAuthSessionTtlMs {
      SaveThenRead(user, DefaultAuthSessionTtlMs, t, now);
    } else {
      SaveThenReadLate(user, DefaultAuthSessionTtlMs, t, now);
    }
  }

  lemma SaveThenReadLate(user: UserData, ttl: int, t: int, now: int)
    requires now > t + ttl
    ensures Check(Some(Json(Encoded(user, t + ttl))), now) == Rejected(Expired)
  {
    var rec := Encoded(user, t + ttl);
    assert Field(rec, "expiresAt") == Some(JNumber(t + ttl));
  }

  /** Fail closed: an object without a numeric `expiresAt` is rejected, however
      well-typed its other fields, e.g. the record the history page writes on
      login (`userId`, `name`, `phoneNumber` only). */
  lemma LegacyRecordRejected(user: UserData, now: int)
    ensures Check(Some(Json(JObject(map["userId" := JNumber(user.userId), "name" := JString(user.name),
                                        "phoneNumber" := JString(user.phoneNumber)]))), now)
            == Rejected(MissingExpiry)
  {
    var rec := JObject(map["userId" := JNumber(user.userId), "name" := JString(user.name),
                           "phoneNumber" := JString(user.phoneNumber)]);
    assert "expiresAt" !in rec.fields;
  }

  /** The keys `clearAuthState` removes. */
  function AuthKeys(): (keys: set<string>)
    ensures |keys| == 3
  {
    {UserSessionKey, AccessTokenKey, RefreshTokenKey}
  }

  function Lookup(items: map<string, Item>, key: string): Option<Item> {
    if key in items then Some(items[key]) else None
  }

  /** localStorage, as far as the auth helpers use it. */
  class LocalStorage {
    var items: map<string, Item>

    constructor ()
      ensures items == map[]
    {
      items := map[];
    }

    /** `clearAuthState`: removes exactly the record and both tokens. */
    method ClearAuthState()
      modifies this
      ensures items == old(items) - AuthKeys()
      ensures forall k :: k !in AuthKeys() ==> Lookup(items, k) == Lookup(old(items), k)
    {
      items := items - {UserSessionKey};
      items := items - {AccessTokenKey};
      items := items - {RefreshTokenKey};
    }

    /** `setUserSession(user, ttlMs)` at time `now`: overwrites the record.
        Without a lifetime the record lasts two hours. */
    method SetUserSession(user: UserData, now: int, ttlMs: int := DefaultAuthSessionTtlMs)
      modifies this
      ensures items == old(items)[UserSessionKey := Json(Encoded(user, now + ttlMs))]
    {
      var session := Encoded(user, now + ttlMs);
      items := items[UserSessionKey := Json(session)];
    }

    /** `getUserSession` at time `now`: returns the record when it is
        accepted; wipes the auth keys when it is rejected; touches nothing
        when there is no record. */
    method GetUserSession(now: int) returns (session: Option<StoredUserSession>)
      modifies this
      ensures var v := Check(Lookup(old(items), UserSessionKey), now);
              && session == (if v.Accepted? then Some(v.session) else None)
              && items == (if v.Rejected? then old(items) - AuthKeys() else old(items))
      ensures session.None? ==> UserSessionKey !in items || items[UserSessionKey] == Raw("")
    {
      var raw := Lookup(items, UserSessionKey);
      if raw.None? || raw.value == Raw("") {
        return None;
      }
      if raw.value.Raw? {
        ClearAuthState();
        return None;
      }
      var parsed := raw.value.value;
      if !Truthy(parsed) {
        ClearAuthState();
        return None;
      }
      var expiresAt := Field(parsed, "expiresAt");
      if expiresAt.None? || !expiresAt.value.JNumber? {
        ClearAuthState();
        return None;
      }
      if now > expiresAt.value.n {
        ClearAuthState();
        return None;
      }
      if !IsNumberField(parsed, "userId") || !IsStringField(parsed, "name") || !IsStringField(parsed, "phoneNumber") {
        ClearAuthState();
        return None;
      }
      session := Some(StoredUserSession(Field(parsed, "userId").value.n, Field(parsed, "name").value.s,
                                        Field(parsed, "phoneNumber").value.s, expiresAt.value.n));
    }
  }
}
