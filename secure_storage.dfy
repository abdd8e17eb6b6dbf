/** The credential store over the platform's encrypted key-value store
  * (src/infrastructure/security/SecureStorageService.ts). The store is a map
  * from names to strings; `failingKeys` are the names whose every read,
  * write and delete the platform rejects. */
module SecureStorage {
  import opened Wrappers
  import Numbers

  const TOKEN_KEY: string := "auth_token"
  const REFRESH_TOKEN_KEY: string := "refresh_token"
  const USER_ID_KEY: string := "user_id"
  const SESSION_EXPIRY_KEY: string := "session_expiry"

  const AUTH_KEYS: set<string> := {TOKEN_KEY, REFRESH_TOKEN_KEY, USER_ID_KEY, SESSION_EXPIRY_KEY}

  const TOKEN_ERROR: string := "Falha ao salvar token de autenticação"
  const REFRESH_TOKEN_ERROR: string := "Falha ao salvar refresh token"
  const USER_ID_ERROR: string := "Falha ao salvar ID do usuário"

  function ItemError(key: string): string
  {
    "Falha ao salvar " + key
  }

  type Items = map<string, string>

  /** What a read of `key` returns: null when absent or when the platform
    * rejects the read. */
  function Get(items: Items, failingKeys: set<string>, key: string): Option<string>
  {
    if key in failingKeys || key !in items then None else Some(items[key])
  }

  /** The store after a write of `key`; a rejected write changes nothing. */
  function Put(items: Items, failingKeys: set<string>, key: string, value: string): Items
  {
    if key in failingKeys then items else items[key := value]
  }

  /** The stored session expiry as `getSessionExpiry` reads it. */
  datatype Expiry = Absent | NotANumber | At(ms: int)

  /** `expiry ? parseInt(expiry, 10) : null` */
  function ExpiryOf(items: Items, failingKeys: set<string>): Expiry
  {
    match Get(items, failingKeys, SESSION_EXPIRY_KEY)
    case None => Absent
    case Some(text) =>
      if text == "" then Absent
      else match Numbers.ParseInt(text)
        case None => NotANumber
        case Some(n) => At(n)
  }

  /** `isSessionValid`: a missing, unparsable or zero expiry is falsy and
    * makes the session invalid; otherwise the session is valid strictly
    * before its expiry. */
  predicate SessionValid(items: Items, failingKeys: set<string>, now: int)
  {
    match ExpiryOf(items, failingKeys)
    case At(n) => n != 0 && now < n
    case _ => false
  }

  /** The store after `clearAuthData`: the four deletes are all issued, and
    * those the platform rejects leave their key. */
  function WithoutAuth(items: Items, failingKeys: set<string>): Items
  {
    map k | k in items && !(k in AUTH_KEYS && k !in failingKeys) :: items[k]
  }

  /** A written value is read back, and no other name changes. */
  lemma {:induction false} PutThenGet(items: Items, failingKeys: set<string>, key: string, value: string, other: string)
    requires key !in failingKeys
    ensures Get(Put(items, failingKeys, key, value), failingKeys, key) == Some(value)
    ensures other != key ==> Get(Put(items, failingKeys, key, value), failingKeys, other) == Get(items, failingKeys, other)
  {
  }

  /** An expiry written with `toString` is read back as the same integer. */
  lemma {:induction false} ExpiryRoundTrip(items: Items, failingKeys: set<string>, expiry: int)
    requires SESSION_EXPIRY_KEY !in failingKeys
    ensures ExpiryOf(Put(items, failingKeys, SESSION_EXPIRY_KEY, Numbers.IntToString(expiry)), failingKeys) == At(expiry)
  {
    Numbers.ParseIntToString(expiry);
    assert |Numbers.NatToString(if expiry < 0 then -expiry else expiry)| > 0;
  }

  /** After storing a non-zero expiry, the session is valid exactly until
    * that instant. */
  lemma {:induction false} ValidUntilExpiry(items: Items, failingKeys: set<string>, expiry: int, now: int)
    requires SESSION_EXPIRY_KEY !in failingKeys && expiry != 0
    ensures SessionValid(Put(items, failingKeys, SESSION_EXPIRY_KEY, Numbers.IntToString(expiry)), failingKeys, now) <==> now < expiry
  {
    ExpiryRoundTrip(items, failingKeys, expiry);
  }

  /** Without rejected deletes, `clearAuthData` leaves no auth name and every
    * other name with its value. */
  lemma {:induction false} ClearedAuth(items: Items, failingKeys: set<string>, k: string)
    requires failingKeys !! AUTH_KEYS
    ensures k in AUTH_KEYS ==> Get(WithoutAuth(items, failingKeys), failingKeys, k) == None
    ensures k !in AUTH_KEYS ==> Get(WithoutAuth(items, failingKeys), failingKeys, k) == Get(items, failingKeys, k)
    ensures ExpiryOf(WithoutAuth(items, failingKeys), failingKeys) == Absent
  {
  }

  class SecureStore {
    var items: Items
    const failingKeys: set<string>

    constructor (items: Items, failingKeys: set<string>)
      ensures this.items == items && this.failingKeys == failingKeys
    {
      this.items := items;
      this.failingKeys := failingKeys;
    }

    /** A write that throws `message` when the platform rejects it. */
    method Write(key: string, value: string, message: string) returns (r: Result<()>)
      modifies this
      ensures r == if key in failingKeys then Err(message) else Ok(())
      ensures items == Put(old(items), failingKeys, key, value)
    {
      if key in failingKeys {
        return Err(message);
      }
      items := items[key := value];
      r := Ok(());
    }

    method Read(key: string) returns (r: Option<string>)
      ensures r == Get(items, failingKeys, key)
    {
      if key in failingKeys || key !in items {
        return None;
      }
      r := Some(items[key]);
    }

    method SetToken(token: string) returns (r: Result<()>)
      modifies this
      ensures r == if TOKEN_KEY in failingKeys then Err(TOKEN_ERROR) else Ok(())
      ensures items == Put(old(items), failingKeys, TOKEN_KEY, token)
    {
      r := Write(TOKEN_KEY, token, TOKEN_ERROR);
    }

    method GetToken() returns (r: Option<string>)
      ensures r == Get(items, failingKeys, TOKEN_KEY)
    {
      r := Read(TOKEN_KEY);
    }

    method SetRefreshToken(refreshToken: string) returns (r: Result<()>)
      modifies this
      ensures r == if REFRESH_TOKEN_KEY in failingKeys then Err(REFRESH_TOKEN_ERROR) else Ok(())
      ensures items == Put(old(items), failingKeys, REFRESH_TOKEN_KEY, refreshToken)
    {
      r := Write(REFRESH_TOKEN_KEY, refreshToken, REFRESH_TOKEN_ERROR);
    }

    method GetRefreshToken() returns (r: Option<string>)
      ensures r == Get(items, failingKeys, REFRESH_TOKEN_KEY)
    {
      r := Read(REFRESH_TOKEN_KEY);
    }

    method SetUserId(userId: string) returns (r: Result<()>)
      modifies this
      ensures r == if USER_ID_KEY in failingKeys then Err(USER_ID_ERROR) else Ok(())
      ensures items == Put(old(items), failingKeys, USER_ID_KEY, userId)
    {
      r := Write(USER_ID_KEY, userId, USER_ID_ERROR);
    }

    method GetUserId() returns (r: Option<string>)
      ensures r == Get(items, failingKeys, USER_ID_KEY)
    {
      r := Read(USER_ID_KEY);
    }

    /** Unlike the other setters, a rejected write is swallowed. */
    method SetSessionExpiry(expiry: int)
      modifies this
      ensures items == Put(old(items), failingKeys, SESSION_EXPIRY_KEY, Numbers.IntToString(expiry))
    {
      var _ := Write(SESSION_EXPIRY_KEY, Numbers.IntToString(expiry), "");
    }

    method GetSessionExpiry() returns (r: Expiry)
      ensures r == ExpiryOf(items, failingKeys)
    {
      var text := Read(SESSION_EXPIRY_KEY);
      if text.None? || text.value == "" {
        return Absent;
      }
      var n := Numbers.ParseInt(text.value);
      r := if n.None? then NotANumber else At(n.value);
    }

    method IsSessionValid(now: int) returns (b: bool)
      ensures b == SessionValid(items, failingKeys, now)
    {
      var expiry := GetSessionExpiry();
      if expiry.Absent? || expiry.NotANumber? || expiry.ms == 0 {
        return false;
      }
      b := now < expiry.ms;
    }

    /** Errors are swallowed. */
    method ClearAuthData()
      modifies this
      ensures items == WithoutAuth(old(items), failingKeys)
    {
      var deleted := AUTH_KEYS - failingKeys;
      items := map k | k in items && k !in deleted :: items[k];
    }

    method SetItem(key: string, value: string) returns (r: Result<()>)
      modifies this
      ensures r == if key in failingKeys then Err(ItemError(key)) else Ok(())
      ensures items == Put(old(items), failingKeys, key, value)
    {
      r := Write(key, value, ItemError(key));
    }

    method GetItem(key: string) returns (r: Option<string>)
      ensures r == Get(items, failingKeys, key)
    {
      r := Read(key);
    }

    /** Errors are swallowed. */
    method RemoveItem(key: string)
      modifies this
      ensures items == if key in failingKeys then old(items) else old(items) - {key}
    {
      if key !in failingKeys {
        items := items - {key};
      }
    }
  }
}
