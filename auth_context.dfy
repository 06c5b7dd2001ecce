/**
 * The session provider: a token held in React state, mirrored into `localStorage` under
 * `accessToken` and into a cookie, with `isAuthenticated` derived from the token.
 */
module AuthContext {
  import opened Outcomes

  const StorageKey: string := "accessToken"

  /** What `logout` assigns to `document.cookie`: the same cookie, already expired. */
  const ExpiredCookie: string := "accessToken=; path=/; expires=Thu, 01 Jan 1970 00:00:00 GMT"

  /** What `login(t)` assigns to `document.cookie`. */
  function LoginCookie(t: string): string
  {
    "accessToken=" + t + "; path=/"
  }

  /** `!!token`: a token that is neither null nor the empty string. */
  predicate Authenticated(token: Option<string>)
  {
    token.Some? && token.value != ""
  }

  /**
   * Everything the provider changes: the React `token`, the `localStorage` entries and the
   * text last assigned to `document.cookie`.
   */
  datatype Session = Session(token: Option<string>, storage: map<string, string>, cookie: string)

  /** The provider as first rendered: no token yet, whatever the browser already holds. */
  function Initial(storage: map<string, string>, cookie: string): Session
  {
    Session(None, storage, cookie)
  }

  /** The mount effect: adopt the stored token when `getItem` returns a non-empty string. */
  function Hydrated(s: Session): Session
  {
    if StorageKey in s.storage && s.storage[StorageKey] != ""
    then s.(token := Some(s.storage[StorageKey]))
    else s
  }

  /** `login(t)`; the cookie is written only when `document` exists. */
  function LoggedIn(s: Session, t: string, hasDocument: bool): Session
  {
    Session(Some(t), s.storage[StorageKey := t], if hasDocument then LoginCookie(t) else s.cookie)
  }

  /** `logout()`. */
  function LoggedOut(s: Session, hasDocument: bool): Session
  {
    Session(None, s.storage - {StorageKey}, if hasDocument then ExpiredCookie else s.cookie)
  }

  /** The provider starts logged out, whatever storage holds. */
  lemma InitialIsLoggedOut(storage: map<string, string>, cookie: string)
    ensures !Authenticated(Initial(storage, cookie).token)
  {
  }

  /** Hydration leaves storage and cookie alone and logs in exactly on a non-empty stored token. */
  lemma HydrationAdoptsStoredToken(s: Session)
    requires s.token == None
    ensures Hydrated(s).storage == s.storage && Hydrated(s).cookie == s.cookie
    ensures Authenticated(Hydrated(s).token)
            <==> StorageKey in s.storage && s.storage[StorageKey] != ""
    ensures Hydrated(s).token.Some? ==> Hydrated(s).token == Some(s.storage[StorageKey])
  {
  }

  /** Right after `login(t)` the user is authenticated exactly when `t` is non-empty. */
  lemma LoginAuthenticatesIffNonEmpty(s: Session, t: string, hasDocument: bool)
    ensures Authenticated(LoggedIn(s, t, hasDocument).token) <==> t != ""
    ensures LoggedIn(s, t, hasDocument).storage[StorageKey] == t
    ensures hasDocument ==> LoggedIn(s, t, hasDocument).cookie == LoginCookie(t)
  {
  }

  /** Logging in twice with the same token leaves the state of logging in once. */
  lemma LoginIdempotent(s: Session, t: string, hasDocument: bool)
    ensures LoggedIn(LoggedIn(s, t, hasDocument), t, hasDocument) == LoggedIn(s, t, hasDocument)
  {
  }

  /** Right after `logout` the user is not authenticated and no token is stored. */
  lemma LogoutDeauthenticates(s: Session, hasDocument: bool)
    ensures !Authenticated(LoggedOut(s, hasDocument).token)
    ensures StorageKey !in LoggedOut(s, hasDocument).storage
    ensures hasDocument ==> LoggedOut(s, hasDocument).cookie == ExpiredCookie
  {
  }

  /** Logging out twice leaves the state of logging out once. */
  lemma LogoutIdempotent(s: Session, hasDocument: bool)
    ensures LoggedOut(LoggedOut(s, hasDocument), hasDocument) == LoggedOut(s, hasDocument)
  {
  }

  /** A logout erases every trace of the login before it. */
  lemma LogoutUndoesLogin(s: Session, t: string, hasDocument: bool)
    ensures LoggedOut(LoggedIn(s, t, hasDocument), hasDocument) == LoggedOut(s, hasDocument)
  {
    assert s.storage[StorageKey := t] - {StorageKey} == s.storage - {StorageKey};
  }

  /**
   * A reload after `login(t)` (a fresh provider that hydrates from the same storage) is
   * authenticated exactly when `t` is non-empty; a reload after `logout` never is.
   */
  lemma ReloadKeepsSession(s: Session, t: string, hasDocument: bool)
    ensures var after := LoggedIn(s, t, hasDocument);
            Authenticated(Hydrated(Initial(after.storage, after.cookie)).token) <==> t != ""
    ensures var after := LoggedOut(s, hasDocument);
            !Authenticated(Hydrated(Initial(after.storage, after.cookie)).token)
  {
  }

  class AuthProvider {
    var token: Option<string>
    /** `localStorage`. */
    var storage: map<string, string>
    /** The text last assigned to `document.cookie`. */
    var cookie: string
    /** `typeof document !== 'undefined'`. */
    const hasDocument: bool

    function State(): Session
      reads this
    {
      Session(token, storage, cookie)
    }

    /** `isAuthenticated`, derived from the token on every read, never stored. */
    function IsAuthenticated(): bool
      reads this
    {
      Authenticated(token)
    }

    constructor (storage: map<string, string>, cookie: string, hasDocument: bool)
      ensures State() == Initial(storage, cookie) && this.hasDocument == hasDocument
      ensures !IsAuthenticated()
    {
      this.token := None;
      this.storage := storage;
      this.cookie := cookie;
      this.hasDocument := hasDocument;
    }

    method Hydrate()
      modifies this
      ensures State() == Hydrated(old(State()))
    {
      if StorageKey in storage && storage[StorageKey] != "" {
        token := Some(storage[StorageKey]);
      }
    }

    method Login(t: string)
      modifies this
      ensures State() == LoggedIn(old(State()), t, hasDocument)
      ensures IsAuthenticated() <==> t != ""
    {
      storage := storage[StorageKey := t];
      if hasDocument {
        cookie := LoginCookie(t);
      }
      token := Some(t);
    }

    method Logout()
      modifies this
      ensures State() == LoggedOut(old(State()), hasDocument)
      ensures !IsAuthenticated()
    {
      storage := storage - {StorageKey};
      if hasDocument {
        cookie := ExpiredCookie;
      }
      token := None;
    }
  }
}
