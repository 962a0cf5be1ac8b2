/** The persisted session store (src/features/auth/store/auth-store.ts): the
    credential and the signed-in user, kept in step with the `auth-token`
    cookie by its two actions. */
module SessionStore {
  import opened Wrappers
  import opened Text
  import opened CookieJar
  import opened AuthToken
  import opened AuthTypes

  class AuthStore {
    var accessToken: Option<string>
    var user: Option<AuthUser>
    /** The page whose cookie the actions write. */
    const doc: Document

    ghost predicate Valid()
      reads this, doc
    {
      doc.Valid()
    }

    /** The initial state: no credential and no user. */
    constructor (doc: Document)
      requires doc.Valid()
      ensures Valid()
      ensures this.doc == doc && accessToken == None && user == None
    {
      this.doc := doc;
      accessToken := None;
      user := None;
    }

    /** `setAuth({ accessToken, user })`: a non-empty token is written to the
        cookie, an empty one clears it; either way both fields take exactly
        the given values, so `setAuth` with "" still stores `Some("")` and is
        not `clearAuth`. */
    method SetAuth(token: string, u: AuthUser)
      requires Valid()
      modifies this, doc`jar
      ensures Valid()
      ensures accessToken == Some(token) && user == Some(u)
      ensures doc.jar == if !doc.inBrowser then old(doc.jar)
                         else if token != [] then Write(old(doc.jar), SetCookieString(token, doc.https))
                         else Write(old(doc.jar), ClearCookieString())
      ensures doc.inBrowser && ';' !in token ==> TokenOf(doc.jar) == if Trim(token) == [] then None else Some(Trim(token))
    {
      if token != [] {
        doc.SetAuthTokenCookie(token);
        if doc.inBrowser && ';' !in token {
          SetThenRead(old(doc.jar), token, doc.https, TokenCookie);
        }
      } else {
        doc.ClearAuthTokenCookie();
        if doc.inBrowser {
          assert Trim(token) == [];
        }
      }
      accessToken := Some(token);
      user := Some(u);
    }

    /** `clearAuth()`: clears the cookie and resets both fields to the initial
        state; a second call changes nothing. */
    method ClearAuth()
      requires Valid()
      modifies this, doc`jar
      ensures Valid()
      ensures accessToken == None && user == None
      ensures doc.jar == if doc.inBrowser then Write(old(doc.jar), ClearCookieString()) else old(doc.jar)
      ensures doc.inBrowser ==> TokenOf(doc.jar) == None
      ensures doc.jar == Write(doc.jar, ClearCookieString()) || !doc.inBrowser
    {
      doc.ClearAuthTokenCookie();
      if doc.inBrowser {
        ClearTwice(old(doc.jar));
      }
      accessToken := None;
      user := None;
    }
  }
}
