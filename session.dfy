/**
 * The session state kept by the authentication service: the bearer token in
 * the browser's key-value store and the `loggedIn` notification subject.
 */
module Session {
  import opened Wrappers

  /** Storage key under which the bearer token is kept. */
  const TokenKey: string := "auth_token"

  /** Safety window subtracted from a token's expiry: two minutes, in milliseconds. */
  const ClockSkewMs: int := 2 * 60 * 1000

  /**
   * What the expiry test obtains from a token. `Undecodable`: the library
   * throws, or reading `exp` throws (a payload of JSON `null`).
   * `NoNumericExp`: `exp` converts to NaN (it is absent, a non-numeric
   * string or an object). `Exp(seconds)`: `exp` converts to that number,
   * as numbers, numeric strings, `null` (0) and booleans (0 or 1) do.
   */
  datatype Decoded = Undecodable | NoNumericExp | Exp(seconds: int)

  /** The JWT decoder, as seen by the expiry test. */
  type Decoder = string -> Decoded

  /** A user record as the backend returns it from `/user/me`. */
  datatype User = User(username: string, email: Option<string>)

  /** The browser's persistent key-value store (`localStorage`). */
  class Storage {
    var items: map<string, string>

    constructor (items: map<string, string>)
      ensures this.items == items
    {
      this.items := items;
    }
  }

  /**
   * Whether `token` counts as expired at time `now` (milliseconds). A token
   * the library rejects is expired; one whose `exp` gives NaN is not, since
   * every comparison with NaN is false; otherwise it is expired once at
   * most the safety window's milliseconds of its lifetime remain.
   */
  function IsTokenExpired(decode: Decoder, token: string, now: int): (expired: bool)
    ensures decode(token).Undecodable? ==> expired
    ensures decode(token).NoNumericExp? ==> !expired
    ensures decode(token).Exp? ==> (!expired <==> decode(token).seconds * 1000 - now > ClockSkewMs)
  {
    match decode(token)
    case Undecodable => true
    case NoNumericExp => false
    case Exp(exp) =>
      var expiry := exp * 1000;
      now >= expiry - ClockSkewMs
  }

  /** A token that cannot be decoded is expired, whatever the time (fail closed). */
  lemma UndecodableIsExpired(decode: Decoder, token: string, now: int)
    requires decode(token).Undecodable?
    ensures IsTokenExpired(decode, token, now)
  {
  }

  /** Once expired, a token stays expired at every later time. */
  lemma ExpiryIsMonotone(decode: Decoder, token: string, now: int, later: int)
    requires now <= later
    requires IsTokenExpired(decode, token, now)
    ensures IsTokenExpired(decode, token, later)
  {
  }

  /**
   * The expiry test fails open: a stored token whose `exp` converts to NaN
   * (absent, a non-numeric string, an object) counts as valid at every
   * time, before and after any other instant.
   */
  lemma MissingExpNeverExpires(decode: Decoder, items: map<string, string>, now: int, later: int)
    requires TokenKey in items && items[TokenKey] != ""
    requires decode(items[TokenKey]).NoNumericExp?
    ensures HasValidToken(decode, items, now) && HasValidToken(decode, items, later)
  {
  }

  /**
   * `hasValidToken()` / `isLoggedIn()` over the stored items: a stored,
   * non-empty (truthy) token that is not expired at `now`.
   */
  predicate HasValidToken(decode: Decoder, items: map<string, string>, now: int)
  {
    match Lookup(items, TokenKey)
    case None => false
    case Some(token) => token != "" && !IsTokenExpired(decode, token, now)
  }

  /**
   * The stored token is valid exactly when it is present, non-empty and
   * decodes, and either its `exp` converts to NaN or it is more than two
   * minutes from expiry.
   */
  lemma ValidTokenMeaning(decode: Decoder, items: map<string, string>, now: int)
    ensures HasValidToken(decode, items, now) <==>
      && TokenKey in items
      && items[TokenKey] != ""
      && match decode(items[TokenKey])
         case Undecodable => false
         case NoNumericExp => true
         case Exp(exp) => now < exp * 1000 - ClockSkewMs
  {
  }

  /** Validity depends only on the stored token: other keys (such as `theme`) do not affect it. */
  lemma ValidTokenIgnoresOtherKeys(decode: Decoder, items: map<string, string>, key: string, value: string, now: int)
    requires key != TokenKey
    ensures HasValidToken(decode, items[key := value], now) == HasValidToken(decode, items, now)
  {
  }

  /** The authentication service: the token in storage and the `loggedIn` subject's current value. */
  class AuthService {
    const jwtDecode: Decoder
    const storage: Storage
    /** The current value of the `loggedIn` behaviour subject. */
    var loggedIn: bool

    /** The subject starts at false and is immediately set to whether the stored token is valid at construction time. */
    constructor (jwtDecode: Decoder, storage: Storage, now: int)
      ensures this.jwtDecode == jwtDecode && this.storage == storage
      ensures loggedIn == HasValidToken(jwtDecode, storage.items, now)
    {
      this.jwtDecode := jwtDecode;
      this.storage := storage;
      loggedIn := false;
      new;
      loggedIn := HasValidToken(jwtDecode, storage.items, now);
    }

    /** `getToken()`: the stored token, if any. */
    method GetToken() returns (token: Option<string>)
      ensures token.Some? <==> TokenKey in storage.items
      ensures token.Some? ==> token.value == storage.items[TokenKey]
    {
      if TokenKey in storage.items {
        token := Some(storage.items[TokenKey]);
      } else {
        token := None;
      }
    }

    /**
     * `isLoggedIn()`: re-reads the storage on every call and ignores the
     * `loggedIn` subject, so the answer can differ from the subject's value.
     */
    method IsLoggedIn(now: int) returns (valid: bool)
      ensures valid <==> TokenKey in storage.items && storage.items[TokenKey] != ""
                         && !IsTokenExpired(jwtDecode, storage.items[TokenKey], now)
    {
      var token := GetToken();
      valid := token.Some? && token.value != "" && !IsTokenExpired(jwtDecode, token.value, now);
    }

    /** `storeToken`: sets only the token key and emits true, without checking the token. */
    method StoreToken(token: string)
      modifies this, storage
      ensures storage.items == old(storage.items)[TokenKey := token]
      ensures loggedIn
    {
      storage.items := storage.items[TokenKey := token];
      loggedIn := true;
    }

    /** `clearLocalAuth`: removes only the token key and emits false. */
    method ClearLocalAuth()
      modifies this, storage
      ensures storage.items == old(storage.items) - {TokenKey}
      ensures TokenKey !in storage.items
      ensures forall k :: k != TokenKey ==> Lookup(storage.items, k) == Lookup(old(storage.items), k)
      ensures !loggedIn
    {
      storage.items := storage.items - {TokenKey};
      loggedIn := false;
    }

    /** `login`: a successful response stores its token; an error clears any token. */
    method Login(response: Response<string>)
      modifies this, storage
      ensures response.Ok? ==> storage.items == old(storage.items)[TokenKey := response.body] && loggedIn
      ensures response.Failed? ==> storage.items == old(storage.items) - {TokenKey} && !loggedIn
    {
      match response
      case Ok(token) => StoreToken(token);
      case Failed(_) => ClearLocalAuth();
    }

    /**
     * `logout`: the local state is cleared only inside the success tap. The
     * request is sent only if the returned observable is subscribed:
     * `response` is None when it never is, and then nothing happens.
     */
    method Logout(response: Option<Response<()>>)
      modifies this, storage
      ensures response == Some(Ok(())) ==> storage.items == old(storage.items) - {TokenKey} && !loggedIn
      ensures response != Some(Ok(())) ==> storage.items == old(storage.items) && loggedIn == old(loggedIn)
    {
      if response == Some(Ok(())) {
        ClearLocalAuth();
      }
    }

    /** `deleteAccount`: clears the local state only when the server call succeeds. */
    method DeleteAccount(response: Response<()>)
      modifies this, storage
      ensures response.Ok? ==> storage.items == old(storage.items) - {TokenKey} && !loggedIn
      ensures response.Failed? ==> storage.items == old(storage.items) && loggedIn == old(loggedIn)
    {
      if response.Ok? {
        ClearLocalAuth();
      }
    }
  }

  /**
   * `storeToken` trusts the server: after a login whose token is already
   * expired, the subject says logged in while `isLoggedIn()` says not.
   */
  method LoginFlagCanDisagree(auth: AuthService, token: string, now: int) returns (valid: bool)
    requires IsTokenExpired(auth.jwtDecode, token, now)
    modifies auth, auth.storage
    ensures auth.storage.items == old(auth.storage.items)[TokenKey := token]
    ensures auth.loggedIn && !valid
  {
    auth.StoreToken(token);
    valid := auth.IsLoggedIn(now);
  }
}
